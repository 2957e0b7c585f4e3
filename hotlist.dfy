/**
 * The hot-list normaliser of `ZhihuHotMonitor.get_hot_list` (zhihu.py):
 * from the decoded upstream payload and the refresh timestamp to the
 * ranked list of `HotItem`s, or the reason the refresh fails.
 * Everything here is pure; the monitor's cache lives in module Monitor.
 */
module HotList {

  import opened Wrappers
  import opened JsonValue

  const QuestionCardPrefix: string := "Q_"
  const QuestionLinkPrefix: string := "https://www.zhihu.com/question/"
  /** Popularity text used when the upstream entry carries none ("heat unknown"). */
  const UnknownHeat: string := "热度未知"

  /** One ranked entry of the hot list, as served by `GET /`. */
  datatype HotItem = HotItem(rank: int, title: string, link: string, hotDegree: string, updateTime: string)

  // ---------------------------------------------------------------------------
  // Popularity text

  /** `target.metrics_area.text` exists, both levels being mappings. */
  predicate HasMetricsText(target: Json)
  {
    && target.JObj?
    && "metrics_area" in target.fields
    && target.fields["metrics_area"].JObj?
    && "text" in target.fields["metrics_area"].fields
  }

  /** `format_hot_degree`: never fails; the metrics text when there is one,
      whatever its JSON type, and the "unknown" sentinel otherwise. */
  function FormatHotDegree(target: Json): (r: Json)
    ensures HasMetricsText(target) ==> r == target.fields["metrics_area"].fields["text"]
    ensures !HasMetricsText(target) ==> r == JStr(UnknownHeat)
  {
    if target.JObj? then
      var metricsArea := Get(target.fields, "metrics_area", EmptyObject);
      if metricsArea.JObj? then Get(metricsArea.fields, "text", JStr(UnknownHeat))
      else JStr(UnknownHeat)
    else JStr(UnknownHeat)
  }

  // ---------------------------------------------------------------------------
  // Question links

  predicate IsQuestionCard(cardId: string)
  {
    |cardId| >= |QuestionCardPrefix| && cardId[..|QuestionCardPrefix|] == QuestionCardPrefix
  }

  predicate IsQuestionLink(link: string)
  {
    |link| >= |QuestionLinkPrefix| && link[..|QuestionLinkPrefix|] == QuestionLinkPrefix
  }

  /** The question id a canonical question link points to. */
  function QuestionId(link: string): string
    requires IsQuestionLink(link)
  {
    link[|QuestionLinkPrefix|..]
  }

  /** The link built from a `card_id`: empty unless the id names a question card. */
  function QuestionLink(cardId: string): (link: string)
    ensures link != "" <==> IsQuestionCard(cardId)
    ensures IsQuestionCard(cardId) ==>
      IsQuestionLink(link) && QuestionId(link) == cardId[|QuestionCardPrefix|..]
  {
    if IsQuestionCard(cardId) then QuestionLinkPrefix + cardId[|QuestionCardPrefix|..] else ""
  }

  /** Distinct question cards never share a link. */
  lemma QuestionLinkInjective(a: string, b: string)
    requires IsQuestionCard(a) && IsQuestionCard(b)
    requires QuestionLink(a) == QuestionLink(b)
    ensures a == b
  {
    var p := |QuestionCardPrefix|;
    assert a[p..] == QuestionId(QuestionLink(a)) == QuestionId(QuestionLink(b)) == b[p..];
    assert a == a[..p] + a[p..];
    assert b == b[..p] + b[p..];
  }

  // ---------------------------------------------------------------------------
  // One entry of `data`

  /** `entry.target.title_area.text`, when every level exists and the text is a string. */
  function TitleText(entry: Json): Option<string>
  {
    match Field(entry, "target")
    case None => None
    case Some(target) =>
      match Field(target, "title_area")
      case None => None
      case Some(titleArea) =>
        match Field(titleArea, "text")
        case Some(JStr(s)) => Some(s)
        case _ => None
  }

  /** `entry.card_id`, when it exists and is a string. */
  function CardIdText(entry: Json): Option<string>
  {
    match Field(entry, "card_id")
    case Some(JStr(s)) => Some(s)
    case _ => None
  }

  /** The popularity text of an entry that has a target, when it is a string. */
  function HeatText(entry: Json): Option<string>
  {
    match Field(entry, "target")
    case None => None
    case Some(target) =>
      match FormatHotDegree(target)
      case JStr(h) => Some(h)
      case _ => None
  }

  /** The keep rule, stated on the entry's fields: a non-empty string title,
      a string question card id, and popularity text that is a string. */
  predicate Keeps(entry: Json)
  {
    && TitleText(entry).Some? && TitleText(entry).value != ""
    && CardIdText(entry).Some? && IsQuestionCard(CardIdText(entry).value)
    && HeatText(entry).Some?
  }

  /** The body of the loop in `get_hot_list` for the entry at 1-based position
      `rank`, written with Python's defaults: `None` stands for an entry that
      is skipped, either because it raised (a non-mapping where `.get` is
      called, a non-string `card_id`, a `HotItem` field that is not a string)
      or because its title or link is empty. */
  function ParseEntry(rank: int, entry: Json, now: string): (r: Option<HotItem>)
    ensures r.Some? <==> Keeps(entry)
    ensures r.Some? ==>
      && r.value.rank == rank
      && TitleText(entry) == Some(r.value.title)
      && CardIdText(entry).Some?
      && r.value.link == QuestionLinkPrefix + CardIdText(entry).value[|QuestionCardPrefix|..]
      && HeatText(entry) == Some(r.value.hotDegree)
      && r.value.updateTime == now
  {
    if !entry.JObj? then None
    else
      var target := Get(entry.fields, "target", EmptyObject);
      if !target.JObj? then None
      else
        var titleArea := Get(target.fields, "title_area", EmptyObject);
        if !titleArea.JObj? then None
        else
          var title := Get(titleArea.fields, "text", JStr(""));
          var cardId := Get(entry.fields, "card_id", JStr(""));
          if !cardId.JStr? then None
          else
            var link := QuestionLink(cardId.s);
            var hotDegree := FormatHotDegree(target);
            if !(Truthy(title) && link != "") then None
            else if !(title.JStr? && hotDegree.JStr?) then None
            else Some(HotItem(rank, title.s, link, hotDegree.s, now))
  }

  // ---------------------------------------------------------------------------
  // The whole `data` array

  function OptionToSeq(o: Option<HotItem>): seq<HotItem>
  {
    match o
    case Some(x) => [x]
    case None => []
  }

  /** The items the loop of `get_hot_list` collects from `entries`, each
      entry ranked by its 1-based position. */
  function Normalize(entries: seq<Json>, now: string): (items: seq<HotItem>)
    ensures |items| <= |entries|
    decreases |entries|
  {
    if entries == [] then []
    else
      var n := |entries|;
      Normalize(entries[..n - 1], now) + OptionToSeq(ParseEntry(n, entries[n - 1], now))
  }

  /** How many entries the keep rule rejects. */
  function DroppedCount(entries: seq<Json>): nat
    decreases |entries|
  {
    if entries == [] then 0
    else
      var n := |entries|;
      DroppedCount(entries[..n - 1]) + (if Keeps(entries[n - 1]) then 0 else 1)
  }

  predicate ValidItem(item: HotItem)
  {
    item.rank >= 1 && item.title != "" && IsQuestionLink(item.link)
  }

  /** A list produced by one refresh at `updateTime`: validated items in
      strictly increasing rank order, all stamped with the same time. */
  predicate IsBatch(items: seq<HotItem>, updateTime: string)
  {
    && (forall k :: 0 <= k < |items| ==> ValidItem(items[k]) && items[k].updateTime == updateTime)
    && (forall j, k :: 0 <= j < k < |items| ==> items[j].rank < items[k].rank)
  }

  /** Each item is what the entry at position `rank` parses to. */
  predicate DrawnFrom(items: seq<HotItem>, entries: seq<Json>, now: string)
  {
    forall k :: 0 <= k < |items| ==>
      && 1 <= items[k].rank <= |entries|
      && ParseEntry(items[k].rank, entries[items[k].rank - 1], now) == Some(items[k])
  }

  predicate RanksIncrease(items: seq<HotItem>)
  {
    forall j, k :: 0 <= j < k < |items| ==> items[j].rank < items[k].rank
  }

  /** Every produced item comes from the entry at position `rank`, and ranks
      strictly increase: the output is an in-order subsequence of the input. */
  lemma {:induction false} NormalizeSound(entries: seq<Json>, now: string)
    ensures DrawnFrom(Normalize(entries, now), entries, now)
    ensures RanksIncrease(Normalize(entries, now))
  {
    if entries != [] {
      var n := |entries|;
      var prefix := entries[..n - 1];
      NormalizeSound(prefix, now);
      var front := Normalize(prefix, now);
      var back := OptionToSeq(ParseEntry(n, entries[n - 1], now));
      var items := Normalize(entries, now);
      assert items == front + back;
      forall k | 0 <= k < |front|
        ensures 1 <= items[k].rank <= n - 1
        ensures ParseEntry(items[k].rank, entries[items[k].rank - 1], now) == Some(items[k])
      {
        assert items[k] == front[k];
        assert prefix[front[k].rank - 1] == entries[front[k].rank - 1];
      }
      forall k | |front| <= k < |items|
        ensures items[k].rank == n
        ensures ParseEntry(items[k].rank, entries[items[k].rank - 1], now) == Some(items[k])
      {
        assert items[k] == back[0];
      }
    }
  }

  /** No entry that satisfies the keep rule is lost: a malformed neighbour
      never aborts the batch. */
  lemma {:induction false} NormalizeComplete(entries: seq<Json>, now: string)
    ensures forall i :: 0 <= i < |entries| && Keeps(entries[i]) ==>
      ParseEntry(i + 1, entries[i], now).value in Normalize(entries, now)
  {
    if entries != [] {
      var n := |entries|;
      var prefix := entries[..n - 1];
      NormalizeComplete(prefix, now);
      assert forall i :: 0 <= i < n - 1 ==> prefix[i] == entries[i];
    }
  }

  /** Input count = output count + dropped count. */
  lemma {:induction false} NormalizeCount(entries: seq<Json>, now: string)
    ensures |Normalize(entries, now)| + DroppedCount(entries) == |entries|
  {
    if entries != [] {
      NormalizeCount(entries[..|entries| - 1], now);
    }
  }

  /** The batch is empty exactly when no entry satisfies the keep rule. */
  lemma NormalizeEmpty(entries: seq<Json>, now: string)
    ensures Normalize(entries, now) == [] <==> forall i :: 0 <= i < |entries| ==> !Keeps(entries[i])
  {
    var items := Normalize(entries, now);
    NormalizeSound(entries, now);
    NormalizeComplete(entries, now);
    if items != [] {
      assert 1 <= items[0].rank <= |entries|;
      assert ParseEntry(items[0].rank, entries[items[0].rank - 1], now).Some?;
    }
  }

  /** Every batch is well formed, stamped with `now`, and ranked within the input. */
  lemma NormalizeBatch(entries: seq<Json>, now: string)
    ensures IsBatch(Normalize(entries, now), now)
    ensures forall k :: 0 <= k < |Normalize(entries, now)| ==> Normalize(entries, now)[k].rank <= |entries|
  {
    NormalizeSound(entries, now);
  }

  // ---------------------------------------------------------------------------
  // One refresh cycle

  /** The two upstream failures `requests` reports by exception. */
  datatype UpstreamError = TimedOut | TransportFailure

  /** What the two upstream GETs yielded: an exception, or the hot-list
      response with its status and, when the body is JSON, its decoded value. */
  datatype Fetch = Failed(cause: UpstreamError) | Response(status: int, body: Option<Json>)

  datatype RefreshError =
    | Upstream(cause: UpstreamError)
    | HttpStatus(code: int)
    | InvalidJson
    | BadPayload     // a Python TypeError on the payload's shape
    | MissingData    // the payload has no `data` member
    | NoItems        // no entry of `data` survived

  /** The entries `enumerate(data['data'], 1)` walks, after `'data' in data`. */
  function DataEntries(payload: Json): (r: Result<seq<Json>, RefreshError>)
    ensures r.Success? ==>
      && payload.JObj? && "data" in payload.fields
      && (payload.fields["data"].JArr? || payload.fields["data"].JStr?)
    ensures r.Success? && payload.fields["data"].JArr? ==> r.value == payload.fields["data"].elems
    ensures r.Success? && payload.fields["data"].JStr? ==>
      |r.value| == |payload.fields["data"].s| && forall e <- r.value :: !e.JObj?
    ensures r == Failure(MissingData) <==>
      || (payload.JObj? && "data" !in payload.fields)
      || (payload.JArr? && JStr("data") !in payload.elems)
      || (payload.JStr? && !ContainsSubstring(payload.s, "data"))
    ensures r == Failure(NoItems) <==>
      payload.JObj? && "data" in payload.fields && payload.fields["data"].JObj?
    ensures r.Failure? ==> r.error in {MissingData, NoItems, BadPayload}
  {
    match payload
    case JObj(m) =>
      if "data" !in m then Failure(MissingData)
      else
        (match m["data"]
         case JArr(xs) => Success(xs)
         // a string is walked character by character
         case JStr(s) => Success(seq(|s|, i requires 0 <= i < |s| => JStr([s[i]])))
         // a mapping is walked over its keys: strings, every one of them dropped
         case JObj(_) => Failure(NoItems)
         // `len()` of null, a boolean or a number raises
         case _ => Failure(BadPayload))
    // `in` tests membership in a list and substrings in a string; indexing either by 'data' raises
    case JArr(xs) => if JStr("data") in xs then Failure(BadPayload) else Failure(MissingData)
    case JStr(s) => if ContainsSubstring(s, "data") then Failure(BadPayload) else Failure(MissingData)
    case _ => Failure(BadPayload)
  }

  /** The result of `get_hot_list` for one upstream outcome and the clock
      reading `now`; on success this list is what replaces the cache. */
  function Refresh(fetch: Fetch, now: string): (r: Result<seq<HotItem>, RefreshError>)
    ensures r.Success? ==> r.value != [] && IsBatch(r.value, now)
  {
    match fetch
    case Failed(cause) => Failure(Upstream(cause))
    case Response(status, body) =>
      if status != 200 then Failure(HttpStatus(status))
      else
        match body
        case None => Failure(InvalidJson)
        case Some(payload) =>
          match DataEntries(payload)
          case Failure(e) => Failure(e)
          case Success(entries) =>
            var items := Normalize(entries, now);
            NormalizeBatch(entries, now);
            if items == [] then Failure(NoItems) else Success(items)
  }

  /** A `data` array either yields the normalised batch or, when the keep rule
      rejects every entry, fails with NoItems. */
  lemma RefreshDataArray(m: map<string, Json>, now: string)
    requires "data" in m && m["data"].JArr?
    ensures var r := Refresh(Response(200, Some(JObj(m))), now);
      var xs := m["data"].elems;
      && (r == Failure(NoItems) <==> forall i :: 0 <= i < |xs| ==> !Keeps(xs[i]))
      && (r.Failure? ==> r == Failure(NoItems))
      && (r.Success? ==> r.value == Normalize(xs, now))
  {
    NormalizeEmpty(m["data"].elems, now);
  }

  /** The error each failure path of `get_hot_list` ends in. */
  lemma RefreshErrors(fetch: Fetch, now: string)
    ensures fetch.Failed? ==> Refresh(fetch, now) == Failure(Upstream(fetch.cause))
    ensures fetch.Response? && fetch.status != 200 ==> Refresh(fetch, now) == Failure(HttpStatus(fetch.status))
    ensures fetch == Response(200, None) ==> Refresh(fetch, now) == Failure(InvalidJson)
    ensures fetch.Response? && fetch.status == 200 && fetch.body.Some? ==>
      var p := fetch.body.value;
      && (p.JObj? && "data" !in p.fields ==> Refresh(fetch, now) == Failure(MissingData))
      && (p.JObj? && "data" in p.fields && (p.fields["data"].JObj? || p.fields["data"].JStr?) ==>
            Refresh(fetch, now) == Failure(NoItems))
      && (p.JObj? && "data" in p.fields && (p.fields["data"].JNull? || p.fields["data"].JBool? || p.fields["data"].JNum?) ==>
            Refresh(fetch, now) == Failure(BadPayload))
      && (!p.JObj? ==> Refresh(fetch, now).Failure? && Refresh(fetch, now).error in {MissingData, BadPayload})
  {
    if fetch.Response? && fetch.status == 200 && fetch.body.Some? {
      var p := fetch.body.value;
      if p.JObj? && "data" in p.fields && p.fields["data"].JStr? {
        var entries := DataEntries(p).value;
        assert forall i :: 0 <= i < |entries| ==> !Keeps(entries[i]) by {
          forall i | 0 <= i < |entries| ensures !Keeps(entries[i]) {
            assert entries[i] in entries;
          }
        }
        NormalizeEmpty(entries, now);
      }
    }
  }

  // ---------------------------------------------------------------------------
  // Worked examples

  /** One question card with title and metrics yields one item of rank 1. */
  lemma ExampleSingleQuestion(now: string)
    ensures
      var entry := JObj(map[
        "card_id" := JStr("Q_123"),
        "target" := JObj(map[
          "title_area" := JObj(map["text" := JStr("Example")]),
          "metrics_area" := JObj(map["text" := JStr("500万热度")])])]);
      Refresh(Response(200, Some(JObj(map["data" := JArr([entry])]))), now)
        == Success([HotItem(1, "Example", "https://www.zhihu.com/question/123", "500万热度", now)])
  {
    var entry := JObj(map[
      "card_id" := JStr("Q_123"),
      "target" := JObj(map[
        "title_area" := JObj(map["text" := JStr("Example")]),
        "metrics_area" := JObj(map["text" := JStr("500万热度")])])]);
    var target := entry.fields["target"];
    assert IsQuestionCard("Q_123");
    assert QuestionLink("Q_123") == "https://www.zhihu.com/question/123";
    assert FormatHotDegree(target) == JStr("500万热度");
    var item := HotItem(1, "Example", "https://www.zhihu.com/question/123", "500万热度", now);
    assert ParseEntry(1, entry, now) == Some(item);
    assert [entry][..0] == [];
    assert Normalize([entry], now) == [item];
  }

  /** A dropped entry leaves a gap: the survivor keeps its input position as
      rank, and a missing metrics area gives the sentinel. */
  lemma ExampleRankGap(now: string)
    ensures
      var answer := JObj(map["card_id" := JStr("A_7"),
        "target" := JObj(map["title_area" := JObj(map["text" := JStr("x")])])]);
      var question := JObj(map["card_id" := JStr("Q_9"),
        "target" := JObj(map["title_area" := JObj(map["text" := JStr("y")])])]);
      Normalize([answer, question], now)
        == [HotItem(2, "y", "https://www.zhihu.com/question/9", UnknownHeat, now)]
  {
    var answer := JObj(map["card_id" := JStr("A_7"),
      "target" := JObj(map["title_area" := JObj(map["text" := JStr("x")])])]);
    var question := JObj(map["card_id" := JStr("Q_9"),
      "target" := JObj(map["title_area" := JObj(map["text" := JStr("y")])])]);
    assert "A_7"[..2][0] != QuestionCardPrefix[0];
    assert ParseEntry(1, answer, now) == None;
    assert IsQuestionCard("Q_9");
    assert QuestionLink("Q_9") == "https://www.zhihu.com/question/9";
    assert FormatHotDegree(question.fields["target"]) == JStr(UnknownHeat);
    var item := HotItem(2, "y", "https://www.zhihu.com/question/9", UnknownHeat, now);
    assert ParseEntry(2, question, now) == Some(item);
    assert [answer, question][..1] == [answer];
    assert [answer][..0] == [];
    assert Normalize([answer], now) == [];
  }
}
