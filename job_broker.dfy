/**
  The Redis job broker of the sentiment service. The socket server pushes
  one request per item on the request list and polls the result list for the
  entry carrying the same job id; a worker pops requests from the head,
  classifies them and pushes results on the tail.
  Both lists hold JSON text: an entry is modelled as the value it encodes or
  as text that does not decode. Fresh job ids are the `jobIds` parameter, the
  entries other workers push between two polls the `arrivals` parameter, the
  sentiment model the `infer` parameter, the topic check the `checkTopic`
  parameter and the worker's word-cloud generator the `cloud` parameter.
*/
module JobBroker {
  import opened Wrappers
  import opened PyJson
  import SentimentApp
  import WordCloud

  /** One entry of a Redis list: `json.dumps` of a value, or text that
      `json.loads` rejects with `error`. */
  datatype Wire = Encoded(value: Json) | Garbage(error: string)

  function Decode(w: Wire): Result<Json>
  {
    match w
    case Encoded(v) => Success(v)
    case Garbage(e) => Failure(e)
  }

  /** The `job_id` of an entry that decodes to a dict; `None` when
      `obj.get` cannot be evaluated. */
  function IdOf(w: Wire): Option<Json>
  {
    if w.Encoded? && w.value.JObj? then Some(Get(w.value.fields, "job_id", JNull)) else None
  }

  /** `obj["result"]` of an entry, when it has one. */
  function ResultOf(w: Wire): Option<Json>
  {
    if w.Encoded? && w.value.JObj? && "result" in w.value.fields then Some(w.value.fields["result"]) else None
  }

  /** The payload `enqueue_request` pushes. */
  function Payload(jobId: string, dataInput: Dict, meta: Dict): Json
  {
    JObj(map["job_id" := JStr(jobId), "data_input" := JObj(dataInput), "meta" := JObj(meta)])
  }

  /** The inner loop of `wait_for_result` from position `j`: the first entry
      whose `job_id` equals `jobId`, with its `result`; decoding an entry,
      `obj.get` on a non-dict or a missing `result` raises. */
  function ScanFrom(list: seq<Wire>, j: nat, jobId: Json): (r: Result<Option<(nat, Json)>>)
    requires j <= |list|
    ensures r.Success? && r.value.Some? ==>
      var (at, result) := r.value.value;
      && j <= at < |list|
      && IdOf(list[at]) == Some(jobId) && ResultOf(list[at]) == Some(result)
      && forall m :: j <= m < at ==> IdOf(list[m]).Some? && IdOf(list[m]) != Some(jobId)
    ensures r.Success? && r.value.None? ==>
      forall m :: j <= m < |list| ==> IdOf(list[m]).Some? && IdOf(list[m]) != Some(jobId)
    ensures r.Failure? ==>
      exists m :: j <= m < |list| && (IdOf(list[m]).None? || (IdOf(list[m]) == Some(jobId) && ResultOf(list[m]).None?))
    decreases |list| - j
  {
    if j == |list| then Success(None)
    else
      var obj :- Decode(list[j]);
      var id :- DotGet(obj, "job_id", JNull);
      if id == jobId then
        if "result" in obj.fields then Success(Some((j, obj.fields["result"]))) else Failure("'result'")
      else ScanFrom(list, j + 1, jobId)
  }

  /** How a wait ended: the matched entry's result and position, the
      timeout, or an exception. */
  datatype WaitOutcome = Found(result: Json, at: nat) | TimedOut | Raised(error: string)

  /** A wait's outcome, the list its last scan saw, and the list it leaves. */
  datatype WaitRun = WaitRun(outcome: WaitOutcome, seen: seq<Wire>, final: seq<Wire>)

  /** `range(timeout * 10)` */
  function PollCount(timeout: int): nat
  {
    if timeout * 10 > 0 then timeout * 10 else 0
  }

  const DefaultTimeout: int := 5

  /** `wait_for_result` with `polls` scans left, the `k`-th next: the entries
      `arrivals(k)` are pushed before the scan; a match is removed with
      `lrem`, keeping the others in order. */
  function Wait(results: seq<Wire>, jobId: Json, polls: nat, arrivals: nat -> seq<Wire>, k: nat): WaitRun
    decreases polls
  {
    if polls == 0 then WaitRun(TimedOut, results, results)
    else
      var list := results + arrivals(k);
      match ScanFrom(list, 0, jobId)
      case Failure(e) => WaitRun(Raised(e), list, list)
      case Success(None) => Wait(list, jobId, polls - 1, arrivals, k + 1)
      case Success(Some((at, result))) => WaitRun(Found(result, at), list, list[..at] + list[at + 1..])
  }

  /** The facts of a wait that started from `results` with `polls` scans. */
  ghost predicate WaitSpec(results: seq<Wire>, jobId: Json, polls: nat, w: WaitRun)
  {
    && results <= w.seen
    && (w.outcome.Found? ==>
          && w.outcome.at < |w.seen|
          && IdOf(w.seen[w.outcome.at]) == Some(jobId)
          && ResultOf(w.seen[w.outcome.at]) == Some(w.outcome.result)
          && (forall m :: 0 <= m < w.outcome.at ==> IdOf(w.seen[m]) != Some(jobId))
          && w.final == w.seen[..w.outcome.at] + w.seen[w.outcome.at + 1..])
    && (w.outcome.TimedOut? ==>
          && w.final == w.seen
          && (polls > 0 ==> forall m :: 0 <= m < |w.seen| ==> IdOf(w.seen[m]) != Some(jobId)))
    && (w.outcome.Raised? ==> w.final == w.seen)
    && (polls == 0 ==> w.outcome.TimedOut? && w.final == results)
  }

  /** The returned value is the `result` of the first entry with the
      requested job id in the list the last scan saw, and exactly that entry
      is removed; a timeout removes nothing and no entry of the list matches;
      entries are only ever appended before the scans. */
  lemma {:induction false} WaitFacts(results: seq<Wire>, jobId: Json, polls: nat, arrivals: nat -> seq<Wire>, k: nat)
    ensures var w := Wait(results, jobId, polls, arrivals, k);
      && results <= w.seen
      && (w.outcome.Found? ==>
            && w.outcome.at < |w.seen|
            && IdOf(w.seen[w.outcome.at]) == Some(jobId)
            && ResultOf(w.seen[w.outcome.at]) == Some(w.outcome.result)
            && (forall m :: 0 <= m < w.outcome.at ==> IdOf(w.seen[m]) != Some(jobId))
            && w.final == w.seen[..w.outcome.at] + w.seen[w.outcome.at + 1..])
      && (w.outcome.TimedOut? ==>
            && w.final == w.seen
            && (polls > 0 ==> forall m :: 0 <= m < |w.seen| ==> IdOf(w.seen[m]) != Some(jobId)))
      && (w.outcome.Raised? ==> w.final == w.seen)
      && (polls == 0 ==> w.outcome.TimedOut? && w.final == results)
    decreases polls
  {
    if polls > 0 {
      var list := results + arrivals(k);
      var scan := ScanFrom(list, 0, jobId);
      if scan == Success(None) {
        WaitFacts(list, jobId, polls - 1, arrivals, k + 1);
        var w := Wait(list, jobId, polls - 1, arrivals, k + 1);
        assert Wait(results, jobId, polls, arrivals, k) == w;
        WaitSpecMiss(results, list, jobId, polls, w);
      } else if scan.Success? {
        var (at, result) := scan.value.value;
        assert Wait(results, jobId, polls, arrivals, k) == WaitRun(Found(result, at), list, list[..at] + list[at + 1..]);
        assert results <= list;
      } else {
        assert Wait(results, jobId, polls, arrivals, k) == WaitRun(Raised(scan.error), list, list);
        assert results <= list;
      }
    }
  }

  /** A scan that found nothing hands over to the next poll, on the longer
      list. */
  lemma WaitSpecMiss(results: seq<Wire>, list: seq<Wire>, jobId: Json, polls: nat, w: WaitRun)
    requires polls > 0 && results <= list
    requires forall m :: 0 <= m < |list| ==> IdOf(list[m]).Some? && IdOf(list[m]) != Some(jobId)
    requires WaitSpec(list, jobId, polls - 1, w)
    ensures WaitSpec(results, jobId, polls, w)
  {
    if w.outcome.TimedOut? && polls - 1 == 0 {
      assert w.seen == list;
    }
  }

  /** One poll of a wait with polls left: the scan of the list with the
      `k`-th arrivals decides whether it stops there or polls again. */
  lemma WaitPoll(results: seq<Wire>, jobId: Json, polls: nat, arrivals: nat -> seq<Wire>, k: nat)
    requires polls > 0
    ensures var list := results + arrivals(k);
      var w := Wait(results, jobId, polls, arrivals, k);
      var found := ScanFrom(list, 0, jobId);
      && (found.Failure? ==> w.outcome == Raised(found.error) && w.final == list)
      && (found.Success? && found.value.None? ==> w == Wait(list, jobId, polls - 1, arrivals, k + 1))
      && (found.Success? && found.value.Some? ==>
            && w.outcome == Found(found.value.value.1, found.value.value.0)
            && w.final == list[..found.value.value.0] + list[found.value.value.0 + 1..])
  {
  }

  const TimeoutReply: Json := JObj(map["error" := JStr("Timeout")])

  /** What `wait_for_result` returns, or the exception it raises. */
  function Reply(outcome: WaitOutcome): Result<Json>
  {
    match outcome
    case Found(result, _) => Success(result)
    case TimedOut => Success(TimeoutReply)
    case Raised(e) => Failure(e)
  }

  /** `data_input` of `predict`: `siteId`/`siteName` become `site_id`/`site_name`. */
  function DataInputOf(item: Dict): Dict
  {
    map[
      "id" := Get(item, "id", JStr("")),
      "topic_name" := Get(item, "topic_name", JStr("")),
      "type" := Get(item, "type", JStr("")),
      "topic_id" := Get(item, "topic_id", JStr("")),
      "site_id" := Get(item, "siteId", JStr("")),
      "site_name" := Get(item, "siteName", JStr("")),
      "title" := Get(item, "title", JStr("")),
      "content" := Get(item, "content", JStr("")),
      "description" := Get(item, "description", JStr("")),
      "is_kol" := Get(item, "is_kol", JBool(false)),
      "total_interactions" := Get(item, "total_interactions", JNull)
    ]
  }

  /** The `meta` dictionary of `predict`, which keeps the item's own key names. */
  function MetaOf(item: Dict): Dict
  {
    map[
      "id" := Get(item, "id", JNull),
      "topic_name" := Get(item, "topic_name", JStr("")),
      "topic_id" := Get(item, "topic_id", JStr("")),
      "title" := Get(item, "title", JStr("")),
      "content" := Get(item, "content", JStr("")),
      "description" := Get(item, "description", JStr("")),
      "siteName" := Get(item, "siteName", JStr("")),
      "siteId" := Get(item, "siteId", JStr("")),
      "type" := Get(item, "type", JStr(""))
    ]
  }

  /** Title, content and description of the item are all falsy. */
  predicate HasNoText(item: Dict)
  {
    && !Truthy(Get(item, "title", JStr("")))
    && !Truthy(Get(item, "content", JStr("")))
    && !Truthy(Get(item, "description", JStr("")))
  }

  /** The fields `predict` tests are the item's own. */
  lemma DataInputText(item: Dict)
    ensures DataInputOf(item)["title"] == Get(item, "title", JStr(""))
    ensures DataInputOf(item)["content"] == Get(item, "content", JStr(""))
    ensures DataInputOf(item)["description"] == Get(item, "description", JStr(""))
  {
  }

  function EmptyTextReply(item: Dict): Json
  {
    JObj(map["id" := Get(item, "id", JNull), "error" := JStr("Empty text")])
  }

  /** `result.update({"id": ..., "topic_name": ...})` on the waited result. */
  function Overwrite(result: Json, item: Dict): Result<Json>
  {
    if result.JObj? then
      Success(JObj(result.fields + map["id" := Get(item, "id", JNull), "topic_name" := Get(item, "topic_name", JStr(""))]))
    else Failure("'" + TypeName(result) + "' object has no attribute 'update'")
  }

  /** The replies so far (or the exception that ended `predict`), the
      payloads enqueued, and the result list left behind. */
  datatype PredictRun = PredictRun(replies: Result<seq<Json>>, enqueued: seq<Wire>, results: seq<Wire>)

  /** `AttributeError` of `x.get(...)` on a value that is not a dict. */
  function NoGet(x: Json): string
  {
    "'" + TypeName(x) + "' object has no attribute 'get'"
  }

  /** `data.get("data", [])` and the iteration over it: a list yields its
      items; a non-empty str or dict yields strings, and the first of them
      raises on `.get` before anything is enqueued; any other value is not
      iterable. */
  function EventItems(data: Json): Result<seq<Json>>
  {
    var items :- DotGet(data, "data", JArr([]));
    match items
    case JArr(xs) => Success(xs)
    case JStr(s) => if s == "" then Success([]) else Failure(NoGet(JStr("")))
    case JObj(m) => if m == map[] then Success([]) else Failure(NoGet(JStr("")))
    case _ => Failure("'" + TypeName(items) + "' object is not iterable")
  }

  /** The loop of `predict` from item `i`, with the replies and payloads of
      the earlier items; the first `item.get` raises on an item that is not
      a dict. */
  function PredictFrom(items: seq<Json>, i: nat, replies: seq<Json>, enqueued: seq<Wire>, results: seq<Wire>,
                       jobIds: nat -> string, arrivals: nat -> nat -> seq<Wire>): PredictRun
    requires i <= |items|
    decreases |items| - i
  {
    if i == |items| then PredictRun(Success(replies), enqueued, results)
    else if !items[i].JObj? then PredictRun(Failure(NoGet(items[i])), enqueued, results)
    else
      var item := items[i].fields;
      if HasNoText(item) then
        PredictFrom(items, i + 1, replies + [EmptyTextReply(item)], enqueued, results, jobIds, arrivals)
      else
        var enq := enqueued + PayloadStep(items, i, jobIds);
        var w := Wait(results, JStr(jobIds(i)), PollCount(DefaultTimeout), arrivals(i), 0);
        match Reply(w.outcome)
        case Failure(e) => PredictRun(Failure(e), enq, w.final)
        case Success(result) =>
          match Overwrite(result, item)
          case Failure(e) => PredictRun(Failure(e), enq, w.final)
          case Success(reply) => PredictFrom(items, i + 1, replies + [reply], enq, w.final, jobIds, arrivals)
  }

  /** The whole `predict` event: no item is reached when reading the list
      raises. */
  function PredictEvent(data: Json, results: seq<Wire>, jobIds: nat -> string, arrivals: nat -> nat -> seq<Wire>): PredictRun
  {
    match EventItems(data)
    case Failure(e) => PredictRun(Failure(e), [], results)
    case Success(items) => PredictFrom(items, 0, [], [], results, jobIds, arrivals)
  }

  /** How the event's item list is read: a non-dict event raises on `.get`,
      a missing `data` key means no items, a list is looped over, a non-empty
      str or dict raises on its first element's `.get`, and any other value
      is not iterable; nothing is enqueued unless the list is reached. */
  lemma PredictEventItems(data: Json, results: seq<Wire>, jobIds: nat -> string, arrivals: nat -> nat -> seq<Wire>)
    ensures var run := PredictEvent(data, results, jobIds, arrivals);
      && (!data.JObj? ==> run == PredictRun(Failure(NoGet(data)), [], results))
      && (data.JObj? && "data" !in data.fields ==> run == PredictRun(Success([]), [], results))
      && (data.JObj? && "data" in data.fields && data.fields["data"].JArr? ==>
            run == PredictFrom(data.fields["data"].items, 0, [], [], results, jobIds, arrivals))
      && (data.JObj? && "data" in data.fields && data.fields["data"] in {JStr(""), JObj(map[])} ==>
            run == PredictRun(Success([]), [], results))
      && (data.JObj? && "data" in data.fields && (data.fields["data"].JStr? || data.fields["data"].JObj?)
            && data.fields["data"] !in {JStr(""), JObj(map[])} ==>
            run == PredictRun(Failure(NoGet(JStr("s"))), [], results))
      && (data.JObj? && "data" in data.fields
            && (data.fields["data"].JNull? || data.fields["data"].JBool? || data.fields["data"].JInt?) ==>
            run == PredictRun(Failure("'" + TypeName(data.fields["data"]) + "' object is not iterable"), [], results))
  {
    if data.JObj? && "data" in data.fields {
      var items := data.fields["data"];
      assert DotGet(data, "data", JArr([])) == Success(items);
      if items.JStr? || items.JObj? {
        assert NoGet(JStr("s")) == NoGet(JStr(""));
      }
    }
  }

  /** One step of the loop for an item without text. */
  lemma PredictNoTextStep(items: seq<Json>, i: nat, replies: seq<Json>, enqueued: seq<Wire>, results: seq<Wire>,
                          jobIds: nat -> string, arrivals: nat -> nat -> seq<Wire>)
    requires i < |items| && items[i].JObj? && HasNoText(items[i].fields)
    ensures PredictFrom(items, i, replies, enqueued, results, jobIds, arrivals)
         == PredictFrom(items, i + 1, replies + [EmptyTextReply(items[i].fields)], enqueued, results, jobIds, arrivals)
  {
  }

  /** One step of the loop for an item with text: enqueue its payload, wait,
      and stop at the first exception. */
  lemma PredictTextStep(items: seq<Json>, i: nat, replies: seq<Json>, enqueued: seq<Wire>, results: seq<Wire>,
                        jobIds: nat -> string, arrivals: nat -> nat -> seq<Wire>)
    requires i < |items| && items[i].JObj? && !HasNoText(items[i].fields)
    ensures var item := items[i].fields;
      var enq := enqueued + [Encoded(Payload(jobIds(i), DataInputOf(item), MetaOf(item)))];
      var w := Wait(results, JStr(jobIds(i)), PollCount(DefaultTimeout), arrivals(i), 0);
      var run := PredictFrom(items, i, replies, enqueued, results, jobIds, arrivals);
      && (Reply(w.outcome).Failure? ==> run == PredictRun(Failure(Reply(w.outcome).error), enq, w.final))
      && (Reply(w.outcome).Success? && Overwrite(Reply(w.outcome).value, item).Failure? ==>
            run == PredictRun(Failure(Overwrite(Reply(w.outcome).value, item).error), enq, w.final))
      && (Reply(w.outcome).Success? && Overwrite(Reply(w.outcome).value, item).Success? ==>
            run == PredictFrom(items, i + 1, replies + [Overwrite(Reply(w.outcome).value, item).value], enq, w.final, jobIds, arrivals))
  {
    var item := items[i].fields;
    assert PayloadStep(items, i, jobIds) == [Encoded(Payload(jobIds(i), DataInputOf(item), MetaOf(item)))];
  }

  /** The payloads `predict` enqueues for items `i..`: one per item with
      some text, in order, up to the first item that is not a dict. */
  function PayloadsFrom(items: seq<Json>, i: nat, jobIds: nat -> string): seq<Wire>
    requires i <= |items|
    decreases |items| - i
  {
    if i == |items| || !items[i].JObj? then []
    else PayloadStep(items, i, jobIds) + PayloadsFrom(items, i + 1, jobIds)
  }

  /** The reply for `item`: the empty-text rejection, or a dict whose `id` and
      `topic_name` are the item's own. */
  predicate ReplyFits(item: Dict, reply: Json)
  {
    if HasNoText(item) then reply == EmptyTextReply(item)
    else
      && reply.JObj? && "id" in reply.fields && "topic_name" in reply.fields
      && reply.fields["id"] == Get(item, "id", JNull)
      && reply.fields["topic_name"] == Get(item, "topic_name", JStr(""))
  }

  /** The item is a dict and `reply` fits it. */
  predicate ItemFits(item: Json, reply: Json)
  {
    item.JObj? && ReplyFits(item.fields, reply)
  }

  /** The payload of item `i` when it has text. */
  function PayloadStep(items: seq<Json>, i: nat, jobIds: nat -> string): seq<Wire>
    requires i < |items| && items[i].JObj?
  {
    var item := items[i].fields;
    if HasNoText(item) then [] else [Encoded(Payload(jobIds(i), DataInputOf(item), MetaOf(item)))]
  }

  /** The shape facts of the loop from `i + 1` extend to `i` once item `i`
      has a fitting reply. */
  lemma ShapeExtend(items: seq<Json>, i: nat, replies: seq<Json>, reply: Json, enqueued: seq<Wire>,
                    out: seq<Json>, outEnq: seq<Wire>, jobIds: nat -> string)
    requires i < |items| && ItemFits(items[i], reply)
    requires |out| == |replies| + 1 + |items| - (i + 1) && out[..|replies| + 1] == replies + [reply]
    requires forall j :: i + 1 <= j < |items| ==> ItemFits(items[j], out[|replies| + 1 + j - (i + 1)])
    requires outEnq == enqueued + PayloadStep(items, i, jobIds) + PayloadsFrom(items, i + 1, jobIds)
    ensures |out| == |replies| + |items| - i && out[..|replies|] == replies
    ensures forall j :: i <= j < |items| ==> ItemFits(items[j], out[|replies| + j - i])
    ensures outEnq == enqueued + PayloadsFrom(items, i, jobIds)
  {
    assert out[..|replies|] == out[..|replies| + 1][..|replies|];
    assert out[|replies|] == (replies + [reply])[|replies|];
    assert PayloadsFrom(items, i, jobIds) == PayloadStep(items, i, jobIds) + PayloadsFrom(items, i + 1, jobIds);
    forall j | i + 1 <= j < |items|
      ensures ItemFits(items[j], out[|replies| + j - i])
    {
      assert |replies| + j - i == |replies| + 1 + j - (i + 1);
    }
  }

  /** The reply built for an item with text fits it. */
  lemma OverwriteFits(result: Json, item: Dict)
    requires !HasNoText(item) && Overwrite(result, item).Success?
    ensures ReplyFits(item, Overwrite(result, item).value)
  {
  }

  /** The loop from item `i` kept the earlier replies and payloads and, if it
      completed, every item from `i` was a dict with one fitting reply, and
      the payloads of the items with text were added. */
  ghost predicate Shaped(items: seq<Json>, i: nat, replies: seq<Json>, enqueued: seq<Wire>, run: PredictRun,
                         jobIds: nat -> string)
    requires i <= |items|
  {
    && enqueued <= run.enqueued
    && (run.replies.Success? ==>
          && |run.replies.value| == |replies| + |items| - i
          && run.replies.value[..|replies|] == replies
          && (forall j :: i <= j < |items| ==> ItemFits(items[j], run.replies.value[|replies| + j - i]))
          && run.enqueued == enqueued + PayloadsFrom(items, i, jobIds))
  }

  /** When `predict` completes it has one reply per item, in input order,
      each fitting its item, and it has enqueued exactly the payloads of the
      items with text; whatever happens, earlier replies and payloads stay. */
  lemma {:induction false} PredictShape(items: seq<Json>, i: nat, replies: seq<Json>, enqueued: seq<Wire>, results: seq<Wire>,
                                        jobIds: nat -> string, arrivals: nat -> nat -> seq<Wire>)
    requires i <= |items|
    ensures Shaped(items, i, replies, enqueued, PredictFrom(items, i, replies, enqueued, results, jobIds, arrivals), jobIds)
    decreases |items| - i, 2
  {
    if i < |items| {
      if !items[i].JObj? {
        assert PredictFrom(items, i, replies, enqueued, results, jobIds, arrivals).replies.Failure?;
      } else if HasNoText(items[i].fields) {
        ShapeNoText(items, i, replies, enqueued, results, jobIds, arrivals);
      } else {
        ShapeText(items, i, replies, enqueued, results, jobIds, arrivals);
      }
    }
  }

  lemma {:induction false} ShapeNoText(items: seq<Json>, i: nat, replies: seq<Json>, enqueued: seq<Wire>, results: seq<Wire>,
                                       jobIds: nat -> string, arrivals: nat -> nat -> seq<Wire>)
    requires i < |items| && items[i].JObj? && HasNoText(items[i].fields)
    ensures Shaped(items, i, replies, enqueued, PredictFrom(items, i, replies, enqueued, results, jobIds, arrivals), jobIds)
    decreases |items| - i, 1
  {
    var reply := EmptyTextReply(items[i].fields);
    PredictNoTextStep(items, i, replies, enqueued, results, jobIds, arrivals);
    assert PayloadStep(items, i, jobIds) == [];
    ShapeAnswered(items, i, replies, enqueued, results, jobIds, arrivals, reply, enqueued, results);
  }

  lemma {:induction false} ShapeText(items: seq<Json>, i: nat, replies: seq<Json>, enqueued: seq<Wire>, results: seq<Wire>,
                                     jobIds: nat -> string, arrivals: nat -> nat -> seq<Wire>)
    requires i < |items| && items[i].JObj? && !HasNoText(items[i].fields)
    ensures Shaped(items, i, replies, enqueued, PredictFrom(items, i, replies, enqueued, results, jobIds, arrivals), jobIds)
    decreases |items| - i, 1
  {
    var item := items[i].fields;
    PredictTextStep(items, i, replies, enqueued, results, jobIds, arrivals);
    var w := Wait(results, JStr(jobIds(i)), PollCount(DefaultTimeout), arrivals(i), 0);
    if Reply(w.outcome).Success? && Overwrite(Reply(w.outcome).value, item).Success? {
      var reply := Overwrite(Reply(w.outcome).value, item).value;
      OverwriteFits(Reply(w.outcome).value, item);
      var enq := enqueued + [Encoded(Payload(jobIds(i), DataInputOf(item), MetaOf(item)))];
      assert PayloadStep(items, i, jobIds) == [Encoded(Payload(jobIds(i), DataInputOf(item), MetaOf(item)))];
      ShapeAnswered(items, i, replies, enqueued, results, jobIds, arrivals, reply, enq, w.final);
    } else {
      var run := PredictFrom(items, i, replies, enqueued, results, jobIds, arrivals);
      assert run.replies.Failure?;
      assert enqueued <= run.enqueued;
    }
  }

  /** Item `i` answered with `reply`: its payload, if any, enqueued and the
      result list left at `final`. */
  lemma {:induction false} ShapeAnswered(items: seq<Json>, i: nat, replies: seq<Json>, enqueued: seq<Wire>, results: seq<Wire>,
                                             jobIds: nat -> string, arrivals: nat -> nat -> seq<Wire>,
                                             reply: Json, enq: seq<Wire>, final: seq<Wire>)
    requires i < |items| && ItemFits(items[i], reply)
    requires enq == enqueued + PayloadStep(items, i, jobIds)
    requires PredictFrom(items, i, replies, enqueued, results, jobIds, arrivals)
          == PredictFrom(items, i + 1, replies + [reply], enq, final, jobIds, arrivals)
    ensures Shaped(items, i, replies, enqueued, PredictFrom(items, i, replies, enqueued, results, jobIds, arrivals), jobIds)
    decreases |items| - i, 0
  {
    var run := PredictFrom(items, i + 1, replies + [reply], enq, final, jobIds, arrivals);
    PredictShape(items, i + 1, replies + [reply], enq, final, jobIds, arrivals);
    ShapeStep(items, i, replies, reply, enqueued, enq, run, jobIds);
  }

  /** The shape of the run from `i + 1` gives the shape from `i` once item
      `i` has a fitting reply and its payload, if any, is enqueued. */
  lemma ShapeStep(items: seq<Json>, i: nat, replies: seq<Json>, reply: Json, enqueued: seq<Wire>, enq: seq<Wire>,
                  run: PredictRun, jobIds: nat -> string)
    requires i < |items| && ItemFits(items[i], reply)
    requires enq == enqueued + PayloadStep(items, i, jobIds)
    requires Shaped(items, i + 1, replies + [reply], enq, run, jobIds)
    ensures Shaped(items, i, replies, enqueued, run, jobIds)
  {
    assert enqueued <= enq <= run.enqueued;
    if run.replies.Success? {
      assert run.enqueued == enqueued + PayloadStep(items, i, jobIds) + PayloadsFrom(items, i + 1, jobIds);
      ShapeExtend(items, i, replies, reply, enqueued, run.replies.value, run.enqueued, jobIds);
    }
  }

  /** The reply list of a completed `predict`, as its callers see it: every
      item was a dict. */
  lemma PredictOnePerItem(items: seq<Json>, results: seq<Wire>, jobIds: nat -> string, arrivals: nat -> nat -> seq<Wire>)
    ensures var run := PredictFrom(items, 0, [], [], results, jobIds, arrivals);
      run.replies.Success? ==>
        && |run.replies.value| == |items|
        && (forall j :: 0 <= j < |items| ==> ItemFits(items[j], run.replies.value[j]))
        && run.enqueued == PayloadsFrom(items, 0, jobIds)
  {
    PredictShape(items, 0, [], [], results, jobIds, arrivals);
  }

  /** An item that is not a dict ends `predict` with the `AttributeError` of
      its `.get`, unless an earlier item already raised: the items before it
      are handled exactly as a `predict` over them alone, their payloads
      stay enqueued and their results consumed, and no reply is emitted. */
  lemma PredictStopsAtNonDict(items: seq<Json>, k: nat, results: seq<Wire>, jobIds: nat -> string,
                              arrivals: nat -> nat -> seq<Wire>)
    requires k < |items| && !items[k].JObj?
    ensures var run := PredictFrom(items, 0, [], [], results, jobIds, arrivals);
      var before := PredictFrom(items[..k], 0, [], [], results, jobIds, arrivals);
      run == StopAt(before, items[k])
  {
    StopsFrom(items, k, 0, [], [], results, jobIds, arrivals);
  }

  /** The run over the items before a non-dict `item`, then that item. */
  function StopAt(before: PredictRun, item: Json): PredictRun
  {
    if before.replies.Success? then PredictRun(Failure(NoGet(item)), before.enqueued, before.results) else before
  }

  lemma {:induction false} StopsFrom(items: seq<Json>, k: nat, i: nat, replies: seq<Json>, enqueued: seq<Wire>,
                                     results: seq<Wire>, jobIds: nat -> string, arrivals: nat -> nat -> seq<Wire>)
    requires i <= k < |items| && !items[k].JObj?
    ensures PredictFrom(items, i, replies, enqueued, results, jobIds, arrivals)
         == StopAt(PredictFrom(items[..k], i, replies, enqueued, results, jobIds, arrivals), items[k])
    decreases k - i
  {
    var prefix := items[..k];
    if i < k {
      assert prefix[i] == items[i];
      if items[i].JObj? {
        var item := items[i].fields;
        if HasNoText(item) {
          StopsFrom(items, k, i + 1, replies + [EmptyTextReply(item)], enqueued, results, jobIds, arrivals);
        } else {
          assert PayloadStep(prefix, i, jobIds) == PayloadStep(items, i, jobIds);
          var w := Wait(results, JStr(jobIds(i)), PollCount(DefaultTimeout), arrivals(i), 0);
          if Reply(w.outcome).Success? && Overwrite(Reply(w.outcome).value, item).Success? {
            StopsFrom(items, k, i + 1, replies + [Overwrite(Reply(w.outcome).value, item).value],
                      enqueued + PayloadStep(items, i, jobIds), w.final, jobIds, arrivals);
          }
        }
      }
    }
  }

  const InvalidInput: string := "⚠️ Invalid input data"

  /** `' '.join(filter(None, values))`: the truthy values joined by single
      spaces; a truthy value that is not a str raises. */
  function JoinTruthy(values: seq<Json>, count: nat): (r: Result<string>)
    ensures r.Success? <==> forall v :: v in values && Truthy(v) ==> v.JStr?
    decreases |values|
  {
    if values == [] then Success("")
    else if !Truthy(values[0]) then JoinTruthy(values[1..], count)
    else if !values[0].JStr? then
      Failure("sequence item " + IntString(count) + ": expected str instance, " + TypeName(values[0]) + " found")
    else
      var rest :- JoinTruthy(values[1..], count + 1);
      Success(if rest == "" then values[0].s else values[0].s + " " + rest)
  }

  /** The word-cloud text of `predict_sentiment`. */
  function FullText(d: Dict): Result<string>
  {
    JoinTruthy([Get(d, "title", JStr("")), Get(d, "content", JStr("")), Get(d, "description", JStr(""))], 0)
  }

  /** Reference join of the non-empty strings. */
  function JoinNonEmpty(parts: seq<string>): string
  {
    if parts == [] then ""
    else
      var rest := JoinNonEmpty(parts[1..]);
      if parts[0] == "" then rest else if rest == "" then parts[0] else parts[0] + " " + rest
  }

  /** Strings as JSON values. */
  function Strs(parts: seq<string>): (r: seq<Json>)
    ensures |r| == |parts| && forall i :: 0 <= i < |parts| ==> r[i] == JStr(parts[i])
  {
    seq(|parts|, i requires 0 <= i < |parts| => JStr(parts[i]))
  }

  /** On strings, joining the truthy values is joining the non-empty ones. */
  lemma {:induction false} JoinTruthyStrings(parts: seq<string>, count: nat)
    ensures JoinTruthy(Strs(parts), count) == Success(JoinNonEmpty(parts))
    decreases |parts|
  {
    if parts != [] {
      assert Strs(parts)[1..] == Strs(parts[1..]);
      JoinTruthyStrings(parts[1..], if parts[0] == "" then count else count + 1);
    }
  }

  /** With string fields, the text is the non-empty ones joined by single
      spaces, in the order title, content, description. */
  lemma FullTextOfStrings(d: Dict, title: string, content: string, description: string)
    requires Get(d, "title", JStr("")) == JStr(title)
    requires Get(d, "content", JStr("")) == JStr(content)
    requires Get(d, "description", JStr("")) == JStr(description)
    ensures FullText(d) == Success(JoinNonEmpty([title, content, description]))
  {
    assert [JStr(title), JStr(content), JStr(description)] == Strs([title, content, description]);
    JoinTruthyStrings([title, content, description], 0);
  }

  /** `predict_sentiment`: the filtered result and its word cloud, or
      `{"error": msg}` with an empty cloud when anything raises. */
  function PredictSentiment(reading: SentimentApp.Reading, dataInput: Json, infer: string -> string,
                            checkTopic: Dict -> Dict, cloud: string -> seq<WordCloud.WordFreq>): (r: (Dict, seq<Json>))
    ensures !dataInput.JObj? ==> r == (map["error" := JStr(InvalidInput)], [])
    ensures dataInput.JObj? ==>
      var filtered := SentimentApp.SentimentFiltering(reading, dataInput.fields, infer, checkTopic);
      var text := FullText(dataInput.fields);
      && (filtered.Failure? ==> r == (map["error" := JStr(filtered.error)], []))
      && (filtered.Success? && text.Failure? ==> r == (map["error" := JStr(text.error)], []))
      && (filtered.Success? && text.Success? ==> r == (filtered.value, WordCloud.CloudJson(cloud(text.value))))
  {
    if !dataInput.JObj? then (map["error" := JStr(InvalidInput)], [])
    else
      match SentimentApp.SentimentFiltering(reading, dataInput.fields, infer, checkTopic)
      case Failure(e) => (map["error" := JStr(e)], [])
      case Success(result) =>
        match FullText(dataInput.fields)
        case Failure(e) => (map["error" := JStr(e)], [])
        case Success(text) => (result, WordCloud.CloudJson(cloud(text)))
  }

  /** The meta fields of the worker's result, with `siteName`/`siteId`
      written as `site_name`/`site_id`. */
  function MetaFields(meta: Dict): Dict
  {
    map[
      "id" := Get(meta, "id", JStr("")),
      "topic_name" := Get(meta, "topic_name", JStr("")),
      "topic_id" := Get(meta, "topic_id", JStr("")),
      "title" := Get(meta, "title", JStr("")),
      "content" := Get(meta, "content", JStr("")),
      "description" := Get(meta, "description", JStr("")),
      "site_name" := Get(meta, "siteName", JStr("")),
      "site_id" := Get(meta, "siteId", JStr("")),
      "type" := Get(meta, "type", JStr(""))
    ]
  }

  /** The worker's result: meta fields, overridden by every prediction key,
      then the word cloud. */
  function BuildResult(meta: Dict, prediction: Dict, wordCloud: seq<Json>): (r: Dict)
    ensures r.Keys == MetaFields(meta).Keys + prediction.Keys + {"word_cloud"}
    ensures r["word_cloud"] == JArr(wordCloud)
    ensures forall k :: k in prediction && k != "word_cloud" ==> r[k] == prediction[k]
    ensures forall k :: k in MetaFields(meta) && k !in prediction && k != "word_cloud" ==> r[k] == MetaFields(meta)[k]
  {
    MetaFields(meta) + prediction + map["word_cloud" := JArr(wordCloud)]
  }

  /** A prediction: the classification dictionary and its word cloud. */
  type Predict = Json -> (Dict, seq<Json>)

  /** `predict_sentiment` with its services fixed. */
  function Predictor(reading: SentimentApp.Reading, infer: string -> string, checkTopic: Dict -> Dict,
                     cloud: string -> seq<WordCloud.WordFreq>): Predict
  {
    dataInput => PredictSentiment(reading, dataInput, infer, checkTopic, cloud)
  }

  /** One popped request: the entry the worker pushes, or the exception
      that reaches the loop's outer handler (undecodable text, a task or
      `meta` that is not a dict), in which case nothing is pushed. */
  function ProcessTask(payload: Wire, predict: Predict): Result<Json>
  {
    var task :- Decode(payload);
    var jobId :- DotGet(task, "job_id", JNull);
    var dataInput :- DotGet(task, "data_input", JObj(map[]));
    var meta :- DotGet(task, "meta", JObj(map[]));
    var _ :- DotGet(meta, "id", JNull);
    var (prediction, wordCloud) := predict(dataInput);
    Success(JObj(map["job_id" := jobId, "result" := JObj(BuildResult(meta.fields, prediction, wordCloud))]))
  }

  /** A popped request is answered exactly when it decodes to a dict whose
      `meta` is a dict; the answer carries the request's job id and a result. */
  lemma ProcessTaskOutcome(payload: Wire, predict: Predict)
    ensures var r := ProcessTask(payload, predict);
      && (r.Success? <==>
            payload.Encoded? && payload.value.JObj? && Get(payload.value.fields, "meta", JObj(map[])).JObj?)
      && (r.Success? ==>
            && IdOf(Encoded(r.value)) == Some(Get(payload.value.fields, "job_id", JNull))
            && ResultOf(Encoded(r.value)).Some? && ResultOf(Encoded(r.value)).value.JObj?)
  {
  }

  /** The answer to a payload the server enqueued. */
  lemma ProcessPayload(jobId: string, dataInput: Dict, meta: Dict, predict: Predict)
    ensures ProcessTask(Encoded(Payload(jobId, dataInput, meta)), predict)
      == Success(JObj(map["job_id" := JStr(jobId),
                          "result" := JObj(BuildResult(meta, predict(JObj(dataInput)).0, predict(JObj(dataInput)).1))]))
  {
    var p := Payload(jobId, dataInput, meta);
    assert Decode(Encoded(p)) == Success(p);
    assert DotGet(p, "job_id", JNull) == Success(JStr(jobId));
    assert DotGet(p, "data_input", JObj(map[])) == Success(JObj(dataInput));
    assert DotGet(p, "meta", JObj(map[])) == Success(JObj(meta));
    assert DotGet(JObj(meta), "id", JNull).Success?;
  }

  /** The entry the worker pushes has the job id and the result it was built from. */
  lemma AnswerFields(jobId: Json, result: Json)
    ensures IdOf(Encoded(JObj(map["job_id" := jobId, "result" := result]))) == Some(jobId)
    ensures ResultOf(Encoded(JObj(map["job_id" := jobId, "result" := result]))) == Some(result)
  {
  }

  /** An answer behind entries for other jobs is what the scan finds. */
  lemma ScanFindsLast(results: seq<Wire>, w: Wire, jobId: Json, result: Json)
    requires forall m :: 0 <= m < |results| ==> IdOf(results[m]).Some? && IdOf(results[m]) != Some(jobId)
    requires IdOf(w) == Some(jobId) && ResultOf(w) == Some(result)
    ensures ScanFrom(results + [w], 0, jobId) == Success(Some((|results|, result)))
  {
    var list := results + [w];
    ScanSkips(list, 0, |results|, jobId);
    assert list[|results|] == w;
  }

  /** A request enqueued by the server is answered with its own job id, and
      once the answer is on the result list behind entries for other jobs,
      the waiter's scan finds exactly that answer. */
  lemma EnqueuedJobAnswered(results: seq<Wire>, jobId: string, dataInput: Dict, meta: Dict, predict: Predict)
    requires forall m :: 0 <= m < |results| ==> IdOf(results[m]).Some? && IdOf(results[m]) != Some(JStr(jobId))
    ensures var r := ProcessTask(Encoded(Payload(jobId, dataInput, meta)), predict);
      var answer := JObj(BuildResult(meta, predict(JObj(dataInput)).0, predict(JObj(dataInput)).1));
      && r == Success(JObj(map["job_id" := JStr(jobId), "result" := answer]))
      && ScanFrom(results + [Encoded(r.value)], 0, JStr(jobId)) == Success(Some((|results|, answer)))
  {
    ProcessPayload(jobId, dataInput, meta, predict);
    var answer := JObj(BuildResult(meta, predict(JObj(dataInput)).0, predict(JObj(dataInput)).1));
    AnswerFields(JStr(jobId), answer);
    ScanFindsLast(results, Encoded(JObj(map["job_id" := JStr(jobId), "result" := answer])), JStr(jobId), answer);
  }

  /** Entries that decode to another job are passed over. */
  lemma {:induction false} ScanSkips(list: seq<Wire>, j: nat, n: nat, jobId: Json)
    requires j <= n <= |list|
    requires forall m :: j <= m < n ==> IdOf(list[m]).Some? && IdOf(list[m]) != Some(jobId)
    ensures ScanFrom(list, j, jobId) == ScanFrom(list, n, jobId)
    decreases n - j
  {
    if j < n {
      assert IdOf(list[j]).Some?;
      ScanSkips(list, j + 1, n, jobId);
    }
  }

  /** The site fields of the data input and of the meta fields are the item's. */
  lemma ItemSiteFields(item: Dict)
    ensures DataInputOf(item)["site_id"] == Get(item, "siteId", JStr(""))
    ensures DataInputOf(item)["site_name"] == Get(item, "siteName", JStr(""))
    ensures MetaFields(MetaOf(item))["site_id"] == Get(item, "siteId", JStr(""))
    ensures MetaFields(MetaOf(item))["site_name"] == Get(item, "siteName", JStr(""))
  {
    assert MetaOf(item)["siteId"] == Get(item, "siteId", JStr(""));
    assert MetaOf(item)["siteName"] == Get(item, "siteName", JStr(""));
  }

  /** A prediction either has no site fields (an error) or reports those its
      reading of `analyze_sentiment` takes from the input. */
  lemma PredictionSiteFields(reading: SentimentApp.Reading, d: Dict, infer: string -> string, checkTopic: Dict -> Dict,
                             cloud: string -> seq<WordCloud.WordFreq>)
    ensures var p := PredictSentiment(reading, JObj(d), infer, checkTopic, cloud).0;
      && ("site_id" in p ==> p["site_id"] == Get(d, SentimentApp.SiteIdKey(reading), JStr("")))
      && ("site_name" in p ==> p["site_name"] == Get(d, SentimentApp.SiteNameKey(reading), JStr("")))
  {
    var filtered := SentimentApp.SentimentFiltering(reading, d, infer, checkTopic);
    if filtered.Success? {
      SentimentSiteFields(reading, d, infer, checkTopic);
    }
  }

  /** The site fields of a built result come from the prediction when it has
      them and from the item's `meta` otherwise; when both agree with the
      item, so does the result. */
  lemma BuiltSiteFields(item: Dict, prediction: Dict, wordCloud: seq<Json>)
    requires "site_id" in prediction ==> prediction["site_id"] == Get(item, "siteId", JStr(""))
    requires "site_name" in prediction ==> prediction["site_name"] == Get(item, "siteName", JStr(""))
    ensures BuildResult(MetaOf(item), prediction, wordCloud)["site_id"] == Get(item, "siteId", JStr(""))
    ensures BuildResult(MetaOf(item), prediction, wordCloud)["site_name"] == Get(item, "siteName", JStr(""))
  {
    ItemSiteFields(item);
    assert "site_id" in MetaFields(MetaOf(item)) && "site_name" in MetaFields(MetaOf(item));
  }

  /** Any predictor that reports the site fields it was given yields pushed
      results carrying the item's `siteId` and `siteName`. */
  lemma SiteFieldsKeptBy(item: Dict, jobId: string, predict: Predict)
    requires var p := predict(JObj(DataInputOf(item))).0;
      && ("site_id" in p ==> p["site_id"] == Get(item, "siteId", JStr("")))
      && ("site_name" in p ==> p["site_name"] == Get(item, "siteName", JStr("")))
    ensures var r := ProcessTask(Encoded(Payload(jobId, DataInputOf(item), MetaOf(item))), predict);
      && r.Success?
      && ResultOf(Encoded(r.value)).Some?
      && ResultOf(Encoded(r.value)).value.JObj?
      && ResultOf(Encoded(r.value)).value.fields["site_id"] == Get(item, "siteId", JStr(""))
      && ResultOf(Encoded(r.value)).value.fields["site_name"] == Get(item, "siteName", JStr(""))
  {
    var p := predict(JObj(DataInputOf(item)));
    ProcessPayload(jobId, DataInputOf(item), MetaOf(item), predict);
    BuiltSiteFields(item, p.0, p.1);
    AnswerFields(JStr(jobId), JObj(BuildResult(MetaOf(item), p.0, p.1)));
  }

  /** With the corrected analysis, the site fields of every pushed result are
      the item's `siteId` and `siteName`, whatever the classification does. */
  lemma SiteFieldsKept(item: Dict, jobId: string, infer: string -> string, checkTopic: Dict -> Dict,
                       cloud: string -> seq<WordCloud.WordFreq>)
    ensures var r := ProcessTask(Encoded(Payload(jobId, DataInputOf(item), MetaOf(item))),
                                 Predictor(SentimentApp.Corrected, infer, checkTopic, cloud));
      && r.Success?
      && ResultOf(Encoded(r.value)).Some?
      && ResultOf(Encoded(r.value)).value.JObj?
      && ResultOf(Encoded(r.value)).value.fields["site_id"] == Get(item, "siteId", JStr(""))
      && ResultOf(Encoded(r.value)).value.fields["site_name"] == Get(item, "siteName", JStr(""))
  {
    var d := DataInputOf(item);
    var predict := Predictor(SentimentApp.Corrected, infer, checkTopic, cloud);
    assert predict(JObj(d)) == PredictSentiment(SentimentApp.Corrected, JObj(d), infer, checkTopic, cloud);
    PredictionSiteFields(SentimentApp.Corrected, d, infer, checkTopic, cloud);
    assert SentimentApp.SiteIdKey(SentimentApp.Corrected) == "site_id";
    assert SentimentApp.SiteNameKey(SentimentApp.Corrected) == "site_name";
    ItemSiteFields(item);
    assert Get(d, "site_id", JStr("")) == Get(item, "siteId", JStr(""));
    assert Get(d, "site_name", JStr("")) == Get(item, "siteName", JStr(""));
    SiteFieldsKeptBy(item, jobId, predict);
  }

  /** `sentiment_filtering` reports the site fields under the keys its
      reading of `analyze_sentiment` reads: `site_id`/`site_name` corrected,
      `siteId`/`siteName` as written. */
  lemma SentimentSiteFields(reading: SentimentApp.Reading, d: Dict, infer: string -> string, checkTopic: Dict -> Dict)
    requires SentimentApp.SentimentFiltering(reading, d, infer, checkTopic).Success?
    ensures var r := SentimentApp.SentimentFiltering(reading, d, infer, checkTopic).value;
      && "site_id" in r && r["site_id"] == Get(d, SentimentApp.SiteIdKey(reading), JStr(""))
      && "site_name" in r && r["site_name"] == Get(d, SentimentApp.SiteNameKey(reading), JStr(""))
  {
    var a := SentimentApp.AnalyzeSentiment(reading, d, infer).value;
    assert a.result["site_id"] == Get(d, SentimentApp.SiteIdKey(reading), JStr(""));
    assert a.result["site_name"] == Get(d, SentimentApp.SiteNameKey(reading), JStr(""));
    if a.sentiment == JStr("negative") {
      SentimentApp.FilterKeeps(reading, d, a.result, checkTopic, "site_id");
      SentimentApp.FilterKeeps(reading, d, a.result, checkTopic, "site_name");
    }
  }

  /** The item of the counterexample: a titled item from site "s1". */
  const SiteItem: Dict := map["title" := JStr("t"), "type" := JStr("X"), "siteId" := JStr("s1"), "siteName" := JStr("n1")]

  /** As written, `analyze_sentiment` reads `siteId`/`siteName` from a
      `data_input` that carries `site_id`/`site_name`, and the worker lets the
      prediction override the meta fields: the pushed result reports site ""
      for an item from site "s1". */
  lemma SiteFieldsBlankedAsWritten(checkTopic: Dict -> Dict)
    ensures var infer := (text: string) => "positive";
      var d := DataInputOf(SiteItem);
      var prediction := SentimentApp.SentimentFiltering(SentimentApp.AsWritten, d, infer, checkTopic);
      && prediction.Success?
      && BuildResult(MetaOf(SiteItem), prediction.value, [])["site_id"] == JStr("")
      && BuildResult(MetaOf(SiteItem), prediction.value, [])["site_name"] == JStr("")
      && Get(SiteItem, "siteId", JStr("")) == JStr("s1")
  {
    var infer := (text: string) => "positive";
    var d := DataInputOf(SiteItem);
    SiteItemInput();
    SentimentApp.AsWrittenBlanksSite(d, infer, checkTopic);
    var prediction := SentimentApp.SentimentFiltering(SentimentApp.AsWritten, d, infer, checkTopic).value;
    PredictionOverrides(MetaOf(SiteItem), prediction, []);
  }

  /** The item of the `None`-count counterexample: a post with no
      `total_interactions`, not from a KOL. */
  const NoneCountItem: Dict := map["type" := JStr("FBPAGE_TOPIC"), "content" := JStr("c")]

  /** A sentiment model that labels every text negative. */
  function NegativeLabel(text: string): string
  {
    "negative"
  }

  /** A topic check that says the post targets the topic, with one keyword. */
  function TargetingCheck(d: Dict): Dict
  {
    map["targeting_topic" := JBool(true), "crisis_keywords" := JArr([JStr("k")])]
  }

  /** As written, the server forwards the missing count as `None`, and for a
      negative post that targets the topic with keywords `predict_sentiment`
      returns `{"error": ...}` with the TypeError's message and no word cloud. */
  lemma NoneCountErrorAsWritten(cloud: string -> seq<WordCloud.WordFreq>)
    ensures PredictSentiment(SentimentApp.AsWritten, JObj(DataInputOf(NoneCountItem)), NegativeLabel, TargetingCheck, cloud)
      == (map["error" := JStr(SentimentApp.NoneCompareError)], [])
  {
    var d := DataInputOf(NoneCountItem);
    NoneCountInput();
    assert TargetingCheck(d)["crisis_keywords"] == JArr([JStr("k")]);
    NoneCountPrediction(d, NegativeLabel, TargetingCheck, cloud);
  }

  /** Corrected, the same item's prediction is tier 2. */
  lemma NoneCountTierTwoCorrected(cloud: string -> seq<WordCloud.WordFreq>)
    ensures var p := PredictSentiment(SentimentApp.Corrected, JObj(DataInputOf(NoneCountItem)), NegativeLabel, TargetingCheck, cloud).0;
      "log_level" in p && p["log_level"] == JInt(2)
  {
    var d := DataInputOf(NoneCountItem);
    NoneCountInput();
    assert TargetingCheck(d)["crisis_keywords"] == JArr([JStr("k")]);
    NoneCountPrediction(d, NegativeLabel, TargetingCheck, cloud);
    FullTextOfStrings(d, "", "c", "");
  }

  /** A negative post with a `None` count, not news and not from a KOL,
      whose topic check says targeting with keywords: as written the
      prediction is the TypeError, corrected the filtered result is tier 2. */
  lemma NoneCountPrediction(d: Dict, infer: string -> string, checkTopic: Dict -> Dict, cloud: string -> seq<WordCloud.WordFreq>)
    requires SentimentApp.IsPost(SentimentApp.TypeOf(d)) && !HasSubstring(SentimentApp.TypeOf(d).s, "NEWS")
    requires !Truthy(Get(d, "is_kol", JBool(false))) && Get(d, "total_interactions", JInt(0)) == JNull
    requires SentimentApp.ModelText(d).Success? && infer(SentimentApp.ModelText(d).value) == "negative"
    requires var analysis := checkTopic(d);
      Truthy(Get(analysis, "targeting_topic", JBool(false)))
      && PyLen(Get(analysis, "crisis_keywords", JArr([]))).Success?
      && PyLen(Get(analysis, "crisis_keywords", JArr([]))).value > 0
    ensures PredictSentiment(SentimentApp.AsWritten, JObj(d), infer, checkTopic, cloud)
      == (map["error" := JStr(SentimentApp.NoneCompareError)], [])
    ensures var f := SentimentApp.SentimentFiltering(SentimentApp.Corrected, d, infer, checkTopic);
      f.Success? && "log_level" in f.value && f.value["log_level"] == JInt(2)
  {
    var a := SentimentApp.AnalyzeSentiment(SentimentApp.AsWritten, d, infer);
    assert a.Success? && a.value.sentiment == JStr("negative");
    SentimentApp.NoneCountRaises(d, a.value.result, checkTopic);
    var c := SentimentApp.AnalyzeSentiment(SentimentApp.Corrected, d, infer);
    assert c.Success? && c.value.sentiment == JStr("negative");
    SentimentApp.NoneCountTierTwo(d, c.value.result, checkTopic);
  }

  /** The worker pushes, for the `None`-count item, the result built from
      the TypeError's message, which `ErrorResult` shows carries no tier. */
  lemma NoneCountPushedAsWritten(jobId: string, cloud: string -> seq<WordCloud.WordFreq>)
    ensures ProcessTask(Encoded(Payload(jobId, DataInputOf(NoneCountItem), MetaOf(NoneCountItem))),
                        Predictor(SentimentApp.AsWritten, NegativeLabel, TargetingCheck, cloud))
      == Success(JObj(map["job_id" := JStr(jobId),
                          "result" := JObj(BuildResult(MetaOf(NoneCountItem), map["error" := JStr(SentimentApp.NoneCompareError)], []))]))
  {
    var d := DataInputOf(NoneCountItem);
    var predict := Predictor(SentimentApp.AsWritten, NegativeLabel, TargetingCheck, cloud);
    NoneCountErrorAsWritten(cloud);
    assert predict(JObj(d)) == PredictSentiment(SentimentApp.AsWritten, JObj(d), NegativeLabel, TargetingCheck, cloud);
    ProcessPayload(jobId, d, MetaOf(NoneCountItem), predict);
  }

  /** A result built from an error prediction carries the error and no
      `log_level`. */
  lemma ErrorResult(meta: Dict, msg: string)
    ensures var r := BuildResult(meta, map["error" := JStr(msg)], []);
      "error" in r && r["error"] == JStr(msg) && "log_level" !in r
  {
    assert "log_level" !in MetaFields(meta);
  }

  /** The data input built from the `None`-count item: a post that is not
      news, not from a KOL, with a `None` count and a model text. */
  lemma NoneCountInput()
    ensures var d := DataInputOf(NoneCountItem);
      && SentimentApp.IsPost(SentimentApp.TypeOf(d)) && !HasSubstring(SentimentApp.TypeOf(d).s, "NEWS")
      && !Truthy(Get(d, "is_kol", JBool(false))) && Get(d, "total_interactions", JInt(0)) == JNull
      && SentimentApp.ModelText(d).Success?
      && Get(d, "title", JStr("")) == JStr("") && Get(d, "content", JStr("")) == JStr("c")
      && Get(d, "description", JStr("")) == JStr("")
  {
    NoneCountFields();
    PageTopicIsPost();
    SentimentApp.ModelTextShape(DataInputOf(NoneCountItem));
  }

  /** The fields of the data input built from the `None`-count item. */
  lemma NoneCountFields()
    ensures var d := DataInputOf(NoneCountItem);
      && SentimentApp.TypeOf(d) == JStr("FBPAGE_TOPIC") && "type" in d
      && Get(d, "is_kol", JBool(false)) == JBool(false) && Get(d, "total_interactions", JInt(0)) == JNull
      && Get(d, "title", JStr("")) == JStr("") && Get(d, "content", JStr("")) == JStr("c")
      && Get(d, "description", JStr("")) == JStr("")
  {
  }

  /** "FBPAGE_TOPIC" is a post tag and not a news tag. */
  lemma PageTopicIsPost()
    ensures SentimentApp.IsPost(JStr("FBPAGE_TOPIC")) && !HasSubstring("FBPAGE_TOPIC", "NEWS")
  {
    assert SentimentApp.PostTypes[0] == "FBPAGE_TOPIC";
    NoSubstringWithoutFirst("FBPAGE_TOPIC", "NEWS");
  }

  /** Site fields the prediction carries win over those of `meta`. */
  lemma PredictionOverrides(meta: Dict, prediction: Dict, wordCloud: seq<Json>)
    requires "site_id" in prediction && "site_name" in prediction
    ensures BuildResult(meta, prediction, wordCloud)["site_id"] == prediction["site_id"]
    ensures BuildResult(meta, prediction, wordCloud)["site_name"] == prediction["site_name"]
  {
  }

  /** The data input the server builds from the counterexample item carries
      the site under `site_id`/`site_name` and has a model text. */
  lemma SiteItemInput()
    ensures var d := DataInputOf(SiteItem);
      "siteId" !in d && "siteName" !in d && SentimentApp.ModelText(d).Success?
  {
    var d := DataInputOf(SiteItem);
    assert d["type"] == JStr("X");
    assert Get(d, "content", JStr("")) == JStr("") && Get(d, "description", JStr("")) == JStr("");
    SentimentApp.ModelTextShape(d);
  }

  class Broker {
    /** The request list, head first. */
    var requests: seq<Wire>
    /** The result list, head first. */
    var results: seq<Wire>

    constructor()
      ensures requests == [] && results == []
    {
      requests := [];
      results := [];
    }

    /** `enqueue_request`: `rpush` one payload and return its job id. */
    method EnqueueRequest(dataInput: Dict, meta: Dict, jobId: string) returns (id: string)
      modifies this
      ensures id == jobId
      ensures requests == old(requests) + [Encoded(Payload(jobId, dataInput, meta))]
      ensures results == old(results)
    {
      requests := requests + [Encoded(Payload(jobId, dataInput, meta))];
      return jobId;
    }

    /** `wait_for_result`: up to `timeout * 10` scans of the result list. */
    method WaitForResult(jobId: string, timeout: int, arrivals: nat -> seq<Wire>) returns (r: Result<Json>)
      modifies this
      ensures var w := Wait(old(results), JStr(jobId), PollCount(timeout), arrivals, 0);
        r == Reply(w.outcome) && results == w.final
      ensures requests == old(requests)
    {
      var polls := PollCount(timeout);
      for k := 0 to polls
        invariant requests == old(requests)
        invariant Wait(old(results), JStr(jobId), polls, arrivals, 0) == Wait(results, JStr(jobId), polls - k, arrivals, k)
      {
        ghost var w := Wait(results, JStr(jobId), polls - k, arrivals, k);
        WaitPoll(results, JStr(jobId), polls - k, arrivals, k);
        results := results + arrivals(k);
        var found := Scan(JStr(jobId));
        if found.Failure? {
          assert w.outcome == Raised(found.error);
          return Failure(found.error);
        }
        if found.value.Some? {
          var at := found.value.value.0;
          var result := found.value.value.1;
          assert w.outcome == Found(result, at);
          results := results[..at] + results[at + 1..];
          return Success(result);
        }
      }
      return Success(TimeoutReply);
    }

    /** One pass of the inner loop of `wait_for_result` over the result
        list: the position and result of the first entry for `jobId`. */
    method Scan(jobId: Json) returns (found: Result<Option<(nat, Json)>>)
      ensures found == ScanFrom(results, 0, jobId)
      ensures found.Success? && found.value.Some? ==> found.value.value.0 < |results|
    {
      var j := 0;
      while j < |results|
        invariant 0 <= j <= |results|
        invariant ScanFrom(results, 0, jobId) == ScanFrom(results, j, jobId)
        decreases |results| - j
      {
        var entry := results[j];
        if entry.Garbage? {
          return Failure(entry.error);
        }
        if !entry.value.JObj? {
          return Failure("'" + TypeName(entry.value) + "' object has no attribute 'get'");
        }
        if Get(entry.value.fields, "job_id", JNull) == jobId {
          if "result" !in entry.value.fields {
            return Failure("'result'");
          }
          return Success(Some((j, entry.value.fields["result"])));
        }
        j := j + 1;
      }
      return Success(None);
    }

    /** `predict`: one reply per item of `data["data"]`; an item without text
        is rejected before anything is enqueued. */
    method Predict(data: Json, jobIds: nat -> string, arrivals: nat -> nat -> seq<Wire>)
      returns (replies: Result<seq<Json>>)
      modifies this
      ensures var run := PredictEvent(data, old(results), jobIds, arrivals);
        && replies == run.replies
        && requests == old(requests) + run.enqueued
        && results == run.results
    {
      var listed := EventItems(data);
      if listed.Failure? {
        return Failure(listed.error);
      }
      var items := listed.value;
      var done: seq<Json> := [];
      ghost var enqueued: seq<Wire> := [];
      for i := 0 to |items|
        invariant requests == old(requests) + enqueued
        invariant PredictFrom(items, 0, [], [], old(results), jobIds, arrivals)
               == PredictFrom(items, i, done, enqueued, results, jobIds, arrivals)
      {
        if !items[i].JObj? {
          return Failure(NoGet(items[i]));
        }
        var item := items[i].fields;
        var dataInput := DataInputOf(item);
        DataInputText(item);
        if !Truthy(dataInput["title"]) && !Truthy(dataInput["content"]) && !Truthy(dataInput["description"]) {
          PredictNoTextStep(items, i, done, enqueued, results, jobIds, arrivals);
          done := done + [EmptyTextReply(item)];
          continue;
        }
        PredictTextStep(items, i, done, enqueued, results, jobIds, arrivals);
        var reply := AnswerItem(item, jobIds(i), arrivals(i));
        enqueued := enqueued + [Encoded(Payload(jobIds(i), dataInput, MetaOf(item)))];
        if reply.Failure? {
          return Failure(reply.error);
        }
        done := done + [reply.value];
      }
      return Success(done);
    }

    /** The body of `predict`'s loop for an item with text: enqueue its
        payload, wait for the answer and stamp it with the item's `id` and
        `topic_name`. */
    method AnswerItem(item: Dict, jobId: string, arrivals: nat -> seq<Wire>) returns (reply: Result<Json>)
      modifies this
      ensures var w := Wait(old(results), JStr(jobId), PollCount(DefaultTimeout), arrivals, 0);
        && requests == old(requests) + [Encoded(Payload(jobId, DataInputOf(item), MetaOf(item)))]
        && results == w.final
        && reply == (match Reply(w.outcome)
                     case Failure(e) => Failure(e)
                     case Success(result) => Overwrite(result, item))
    {
      var id := EnqueueRequest(DataInputOf(item), MetaOf(item), jobId);
      var result := WaitForResult(id, DefaultTimeout, arrivals);
      if result.Failure? {
        return Failure(result.error);
      }
      reply := Overwrite(result.value, item);
    }

    /** One iteration of the worker loop: pop the head of the request list
        and push the answer, if any, on the tail of the result list. An
        empty list is the `blpop` timeout. */
    method WorkerStep(infer: string -> string, checkTopic: Dict -> Dict, cloud: string -> seq<WordCloud.WordFreq>)
      returns (pushed: Option<Json>)
      modifies this
      ensures old(requests) == [] ==> requests == [] && results == old(results) && pushed == None
      ensures old(requests) != [] ==>
        && requests == old(requests)[1..]
        && var r := ProcessTask(old(requests)[0], Predictor(SentimentApp.AsWritten, infer, checkTopic, cloud));
           && (r.Success? ==> pushed == Some(r.value) && results == old(results) + [Encoded(r.value)])
           && (r.Failure? ==> pushed == None && results == old(results))
    {
      if requests == [] {
        return None;
      }
      var payload := requests[0];
      requests := requests[1..];
      var task := ProcessTask(payload, Predictor(SentimentApp.AsWritten, infer, checkTopic, cloud));
      if task.Failure? {
        return None;
      }
      results := results + [Encoded(task.value)];
      return Some(task.value);
    }
  }
}
