/**
 * `ZhihuHotMonitor` (zhihu.py): the cached hot list and its timestamp,
 * the refresh that replaces both together, and the two query endpoints
 * `GET /` and `GET /health`. The upstream responses and the clock are
 * parameters: `fetch` is what the two GETs of one refresh yield, and
 * `now` is the formatted `datetime.now()` of that refresh.
 */
module Monitor {

  import opened Wrappers
  import opened JsonValue
  import opened HotList

  /** The `for idx, item in enumerate(data['data'], 1)` loop of `get_hot_list`,
      appending each surviving entry to the local `hot_items` list. */
  method CollectItems(entries: seq<Json>, now: string) returns (hotItems: seq<HotItem>)
    ensures hotItems == Normalize(entries, now)
  {
    hotItems := [];
    var idx := 0;
    while idx < |entries|
      invariant 0 <= idx <= |entries|
      invariant hotItems == Normalize(entries[..idx], now)
    {
      var parsed := ParseEntry(idx + 1, entries[idx], now);
      if parsed.Some? {
        hotItems := hotItems + [parsed.value];
      }
      assert entries[..idx + 1][..idx] == entries[..idx];
      idx := idx + 1;
    }
    assert entries[..idx] == entries;
  }

  /** The body of `GET /health`. */
  datatype HealthReport = HealthReport(status: string, lastUpdate: string)

  class HotMonitor {
    var cachedHotList: seq<HotItem>
    var lastUpdateTime: string

    /** The cache is one whole batch and its own timestamp: both empty before
        the first successful refresh, both set by the same refresh after it. */
    ghost predicate Valid()
      reads this
    {
      && (cachedHotList == [] <==> lastUpdateTime == "")
      && IsBatch(cachedHotList, lastUpdateTime)
    }

    constructor ()
      ensures Valid()
      ensures cachedHotList == [] && lastUpdateTime == ""
    {
      cachedHotList := [];
      lastUpdateTime := "";
    }

    /** `get_hot_list`: on success the cache and its timestamp are replaced
        together by the new batch and `now`; on any failure neither changes. */
    method GetHotList(fetch: Fetch, now: string) returns (r: Result<seq<HotItem>, RefreshError>)
      requires Valid()
      requires now != ""
      modifies this
      ensures Valid()
      ensures r == Refresh(fetch, now)
      ensures r.Success? ==> cachedHotList == r.value && lastUpdateTime == now
      ensures r.Failure? ==> cachedHotList == old(cachedHotList) && lastUpdateTime == old(lastUpdateTime)
    {
      match fetch
      case Failed(cause) =>
        r := Failure(Upstream(cause));
      case Response(status, body) =>
        if status != 200 {
          r := Failure(HttpStatus(status));
        } else if body.None? {
          r := Failure(InvalidJson);
        } else {
          var data := DataEntries(body.value);
          if data.Failure? {
            r := Failure(data.error);
          } else {
            var hotItems := CollectItems(data.value, now);
            NormalizeBatch(data.value, now);
            if hotItems != [] {
              cachedHotList := hotItems;
              lastUpdateTime := now;
              r := Success(hotItems);
            } else {
              r := Failure(NoItems);
            }
          }
        }
    }

    /** `GET /`: the cache as it is when it holds anything; otherwise one
        synchronous refresh, whose error is the answer when it fails. */
    method ServeHotList(fetch: Fetch, now: string) returns (r: Result<seq<HotItem>, RefreshError>)
      requires Valid()
      requires now != ""
      modifies this
      ensures Valid()
      ensures old(cachedHotList) != [] ==>
        && r == Success(old(cachedHotList))
        && cachedHotList == old(cachedHotList) && lastUpdateTime == old(lastUpdateTime)
      ensures old(cachedHotList) == [] ==>
        && r == Refresh(fetch, now)
        && (r.Success? ==> cachedHotList == r.value && lastUpdateTime == now)
        && (r.Failure? ==> cachedHotList == [] && lastUpdateTime == "")
    {
      if cachedHotList == [] {
        r := GetHotList(fetch, now);
      } else {
        r := Success(cachedHotList);
      }
    }

    /** `GET /health`: reads the timestamp only. It is empty exactly while the
        cache is, and otherwise the time every cached item carries. */
    function Health(): (h: HealthReport)
      reads this
      requires Valid()
      ensures h.status == "ok"
      ensures h.lastUpdate == lastUpdateTime
      ensures h.lastUpdate == "" <==> cachedHotList == []
      ensures forall k :: 0 <= k < |cachedHotList| ==> cachedHotList[k].updateTime == h.lastUpdate
    {
      HealthReport("ok", lastUpdateTime)
    }
  }

  /** Cold start against an upstream answering HTTP 500: `GET /` reports the
      status, the cache stays empty and `GET /health` reports no update. */
  method ColdStartUpstreamError(now: string) returns (served: Result<seq<HotItem>, RefreshError>, health: HealthReport)
    requires now != ""
    ensures served == Failure(HttpStatus(500))
    ensures health == HealthReport("ok", "")
  {
    var monitor := new HotMonitor();
    served := monitor.ServeHotList(Response(500, None), now);
    health := monitor.Health();
  }
}
