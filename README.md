# Zhihu hot-list monitor — a Dafny model

`zhihu.py` polls Zhihu's "hot list" API, normalises the decoded JSON into
ranked `HotItem`s, keeps the last good list in memory together with its
timestamp, and serves both over `GET /` and `GET /health`. This project
models the part that holds the logic:

- `json.dfy` (module `JsonValue`): the decoded payload as a JSON value with
  every field optional, and the Python operations the code applies to it
  (`dict.get` with a default, truthiness, `in` on lists and strings).
- `hotlist.dfy` (module `HotList`): `format_hot_degree`, the link built
  from `card_id`, the per-entry body of the loop, the whole loop as the
  function `Normalize`, the reading of the top-level `data` member, and one
  complete refresh as the function `Refresh`. The lemmas state the keep rule,
  the ranks, the shared timestamp, the subsequence property and the error
  cases.
- `monitor.dfy` (module `Monitor`): the class `HotMonitor` with the two
  fields `cachedHotList` and `lastUpdateTime`. `GetHotList` runs the loop
  (`CollectItems`) and replaces both fields together or leaves both alone.
  `ServeHotList` is `GET /` and `Health` is `GET /health`.
- `wrappers.dfy` (module `Wrappers`): `Option` and `Result`.

Network and clock are parameters. `Fetch` is what the two upstream GETs of
one refresh yield: `Failed(TimedOut | TransportFailure)`, or the hot-list
response's status together with its body (`None` when the body is not
JSON). `now` is the formatted `datetime.now()` taken before the loop.

Behaviour of the code worth noting:
- Ranks are input positions, so a dropped entry leaves a gap in the ranks
  (`ExampleRankGap`).
- Only a non-200 status of the token request is ignored. A timeout or
  transport error on that request aborts the refresh, just like one on the
  hot-list request. Both are folded into `Fetch.Failed`.
- The code keeps no count of dropped entries; `DroppedCount` is the model's
  count of entries the keep rule rejects.

## Model

| member | source | states |
|---|---|---|
| HotList.FormatHotDegree | zhihu.py:58-68 | total (never fails); returns `target.metrics_area.text` unchanged, whatever its JSON type, exactly when target and metrics_area are mappings and `text` is present; otherwise the sentinel `热度未知` |
| HotList.QuestionLink | zhihu.py:106-111 | the link is non-empty exactly when `card_id` starts with `Q_`; then it starts with `https://www.zhihu.com/question/` and the id it points to is `card_id[2:]` |
| HotList.QuestionLinkInjective | zhihu.py:107-109 | two question cards with the same link are the same card |
| HotList.ParseEntry | zhihu.py:98-127 | an entry yields an item exactly when `Keeps` holds: a non-empty string `target.title_area.text`, a string `card_id` starting with `Q_`, and popularity text that is a string. Missing levels, non-mapping levels and a non-string `card_id` all drop the entry. A kept item has the given rank, that title, link prefix + `card_id[2:]`, the `format_hot_degree` text and `now` |
| HotList.Normalize | zhihu.py:97-127 | the loop never yields more items than there are entries |
| HotList.NormalizeSound | zhihu.py:97-123 | every item equals the parse of the entry at position `rank` (1 ≤ rank ≤ len(data)), and ranks strictly increase, so the output is an in-order subsequence of the input |
| HotList.NormalizeComplete | zhihu.py:97-127 | every entry satisfying the keep rule appears in the output, whatever its neighbours are, so a bad entry never aborts the batch |
| HotList.NormalizeCount | zhihu.py:97-127 | output length + number of entries the keep rule rejects = input length |
| HotList.NormalizeEmpty | zhihu.py:116-135 | the batch is empty exactly when no entry satisfies the keep rule |
| HotList.NormalizeBatch | zhihu.py:93-123 | every produced item has rank ≥ 1 and ≤ len(data), a non-empty title, a question link and `update_time == now`; ranks strictly increase |
| HotList.Refresh | zhihu.py:84-137 | a successful refresh yields a non-empty, well-formed batch stamped with `now` |
| HotList.DataEntries | zhihu.py:95-97 | which entries `enumerate(data['data'], 1)` walks: a `data` array's elements, or a `data` string's characters (none of them a mapping); MissingData exactly when `'data' in data` is false (no key in a mapping, no `"data"` element in a list, no substring in a string); NoItems exactly when `data` is a mapping (its keys are all dropped); every other shape raises and is BadPayload |
| HotList.RefreshDataArray | zhihu.py:95-135 | for a `data` array, the refresh fails with NoItems exactly when no entry survives, fails in no other way, and otherwise returns the normalised batch |
| HotList.RefreshErrors | zhihu.py:84-148 | timeout or transport error → Upstream; status ≠ 200 → HttpStatus(status); a non-JSON body → InvalidJson; a mapping without `data` → MissingData; `data` that is a mapping or a string → NoItems; `data` that is null, a boolean or a number → BadPayload; a top-level non-mapping → MissingData or BadPayload |
| HotList.ExampleSingleQuestion | zhihu.py:97-133 | `{"data":[{"card_id":"Q_123","target":{"title_area":{"text":"Example"},"metrics_area":{"text":"500万热度"}}}]}` gives `[HotItem(1, "Example", "https://www.zhihu.com/question/123", "500万热度", now)]` |
| HotList.ExampleRankGap | zhihu.py:97-123 | a dropped first entry leaves the survivor at rank 2, and a missing metrics area gives the sentinel |
| Monitor.CollectItems | zhihu.py:92-127 | the imperative loop appending to `hot_items` computes exactly `Normalize(entries, now)` |
| Monitor.HotMonitor.constructor | zhihu.py:29-31 | the cache starts empty with timestamp `""` |
| Monitor.HotMonitor.GetHotList | zhihu.py:70-137 | returns `Refresh(fetch, now)`; on success `cached_hot_list` becomes the returned list and `last_update_time` becomes `now`, both together; on any failure both are unchanged; the cache invariant is preserved |
| Monitor.HotMonitor.ServeHotList | zhihu.py:185-190 | a non-empty cache is returned as it is, with the state unchanged; an empty cache triggers exactly one refresh, whose result is returned, and a failed refresh leaves the cache empty |
| Monitor.HotMonitor.Health | zhihu.py:192-198 | returns status `"ok"` and the stored timestamp, and changes no state; the timestamp is `""` exactly while the cache is empty, and otherwise equals every cached item's `update_time` |
| Monitor.ColdStartUpstreamError | zhihu.py:185-198 | cold start with the upstream answering HTTP 500: `GET /` reports HttpStatus(500) and `/health` then reports `{"status":"ok","last_update":""}` |

## Left out

- HTTP session, headers, the token request's cookie handling, request URLs and timeouts (zhihu.py:32-56, 72-87): network I/O. Their outcome enters as the `Fetch` parameter.
- The random User-Agent and the random 32-hex-digit cookies (zhihu.py:33-39, 52-56): randomness, with nothing that affects the hot list.
- JSON decoding (zhihu.py:91, 138-139): the model takes the decoded value, or `None` for a body that is not JSON.
- `datetime.now().strftime(...)` (zhihu.py:93): `now` is an input. The monitor's methods require `now != ""`, which a timestamp in that format always satisfies. The cache invariant "empty exactly when the timestamp is empty" relies on this.
- The HTTP status codes and message texts of the raised `HTTPException`s, and the outer `except Exception` that re-wraps them (zhihu.py:135-148): the model keeps only the cause, as a `RefreshError`.
- Logging, the FastAPI app, CORS, and the startup/shutdown scheduler with its 5-minute job (zhihu.py:15-19, 150-183): framework plumbing and timer-driven scheduling. Overlapping refreshes cannot occur in a sequential model. The startup hook awaits the first refresh unguarded, so a failing first refresh aborts startup, and after a successful one the cache is never empty again; the empty-cache branch of `GET /` (and so `ColdStartUpstreamError`) is reached in the served application only when that hook does not run.
- HotList.ParseEntry: a title or popularity text that is not a JSON string drops the entry, as pydantic 2's `str` validation does; pydantic 1 would turn a number or boolean into its text. The library version is not fixed by the source.
- HotList.DataEntries: a `data` member that is a mapping fails with NoItems directly. Python would walk its keys, which are strings, and drop every one, so the outcome is the same. The order of the keys is not modelled.
- JSON numbers are integers in this model. The value of a number only matters for truthiness, and a number never survives as a title.
- The `except Exception` inside `format_hot_degree` (zhihu.py:66-68) cannot fire on a decoded JSON value, so `FormatHotDegree` is simply total.
