/**
  The Socket.IO front end of the LitServe deployment: a `predict` event
  carries a list of items; each item's text is classified by the model
  server and turned into a word cloud, and the list of results is emitted
  back in input order. The POST to the model server is the `infer`
  parameter (its outcome, with any client error or timeout as a failure),
  the tokenizer with its `\w+` split and lower-casing the `tokenize`
  parameter, and the repr of a list or dict the `reprContainer` parameter.
*/
module LitSocketServer {
  import opened Wrappers
  import opened PyJson
  import WordCloud

  /** `generate_word_cloud` after tokenizing: the counting pass fills
      `freq_map`, a `seen` pass keeps each word once with its count, and the
      list is sorted in place by descending frequency. */
  method GenerateWordCloud(words: seq<string>) returns (cloud: seq<WordCloud.WordFreq>)
    ensures cloud == WordCloud.WordCloudOf(words)
  {
    var meaningful := WordCloud.Meaningful(words);
    var freqMap := WordCloud.CountWords(meaningful);
    var seen: set<string> := {};
    var wordCloud: seq<WordCloud.WordFreq> := [];
    for i := 0 to |meaningful|
      invariant seen == set k | 0 <= k < i :: meaningful[k]
      invariant wordCloud == WordCloud.Tally(WordCloud.Distinct(meaningful[..i]), meaningful)
    {
      var word := meaningful[i];
      WordCloud.FirstOccurrenceStep(meaningful, i, seen);
      if word !in seen {
        seen := seen + {word};
        wordCloud := wordCloud + [WordCloud.WordFreq(word, freqMap[word])];
      }
    }
    assert meaningful[..|meaningful|] == meaningful;
    var a := new WordCloud.WordFreq[|wordCloud|](k requires 0 <= k < |wordCloud| => wordCloud[k]);
    assert a[..] == wordCloud;
    WordCloud.SortByFrequency(a);
    cloud := a[..];
  }

  /** The reply of the model server: its status and the outcome of
      `resp.json()`. */
  datatype HttpReply = HttpReply(status: int, body: Result<Json>)

  const Neutral: string := "neutral"

  /** `call_inference` after the POST. Every exception is caught inside the
      function, so the retry decorator never sees one. */
  function CallInference(reply: Result<HttpReply>): string
  {
    if reply.Failure? || reply.value.status != 200 || reply.value.body.Failure? then Neutral
    else
      match DotGet(reply.value.body.value, "predicted_label", JStr(Neutral))
      case Failure(_) => Neutral
      case Success(predicted) => if predicted.JStr? then Lower(predicted.s) else Neutral
  }

  /** The label a well-formed answer carries: a 200 reply whose body is a
      dict with a string `predicted_label`, or no `predicted_label` at all. */
  function ReplyLabel(reply: Result<HttpReply>): Option<string>
  {
    if reply.Success? && reply.value.status == 200 && reply.value.body.Success? && reply.value.body.value.JObj? then
      var fields := reply.value.body.value.fields;
      if "predicted_label" !in fields then Some(Neutral)
      else if fields["predicted_label"].JStr? then Some(fields["predicted_label"].s)
      else None
    else None
  }

  /** The sentiment is the lower-cased label of a well-formed answer and
      "neutral" in every other case (a failed request, another status, a body
      that is not JSON or not a dict, a label that is not a string); it never
      holds an upper-case ASCII letter. */
  lemma CallInferenceLabel(reply: Result<HttpReply>)
    ensures ReplyLabel(reply).Some? ==> CallInference(reply) == Lower(ReplyLabel(reply).value)
    ensures ReplyLabel(reply).None? ==> CallInference(reply) == Neutral
    ensures forall i :: 0 <= i < |CallInference(reply)| ==> !('A' <= CallInference(reply)[i] <= 'Z')
  {
    CallInferenceCases(reply);
    if ReplyLabel(reply).Some? {
      LowerChars(ReplyLabel(reply).value);
    } else {
      LowerChars(Neutral);
      assert Lower(Neutral) == Neutral;
    }
  }

  lemma CallInferenceCases(reply: Result<HttpReply>)
    ensures CallInference(reply) == if ReplyLabel(reply).Some? then Lower(ReplyLabel(reply).value) else Neutral
  {
  }

  /** `f"{title} {description} {content}"`, each absent field read as "". */
  function ItemText(item: Dict, reprContainer: Json -> string): string
  {
    PyStr(Get(item, "title", JStr("")), reprContainer) + " "
      + PyStr(Get(item, "description", JStr("")), reprContainer) + " "
      + PyStr(Get(item, "content", JStr("")), reprContainer)
  }

  /** `process_item`: the first `item.get` raises on anything but a dict. */
  function ProcessItem(item: Json, tokenize: string -> seq<string>, infer: string -> Result<HttpReply>,
                       reprContainer: Json -> string): Result<Dict>
  {
    if !item.JObj? then Failure("'" + TypeName(item) + "' object has no attribute 'get'")
    else
      var fields := item.fields;
      var text := ItemText(fields, reprContainer);
      var sentiment := CallInference(infer(text));
      var wordCloud := WordCloud.WordCloudOf(tokenize(text));
      Success(map[
        "id" := Get(fields, "id", JStr("")),
        "topic_name" := Get(fields, "topic_name", JStr("")),
        "topic_id" := Get(fields, "topic_id", JStr("")),
        "title" := Get(fields, "title", JStr("")),
        "content" := Get(fields, "content", JStr("")),
        "description" := Get(fields, "description", JStr("")),
        "is_kol" := Get(fields, "is_kol", JBool(false)),
        "type" := Get(fields, "type", JStr("")),
        "input_type" := Get(fields, "type", JStr("")),
        "site_name" := Get(fields, "siteName", JStr("")),
        "site_id" := Get(fields, "siteId", JStr("")),
        "total_interactions" := Get(fields, "total_interactions", JInt(0)),
        "log_level" := JNull,
        "reason" := JStr(""),
        "contains_topic" := JBool(false),
        "targeting_topic" := JBool(false),
        "crisis_keywords" := JArr([]),
        "sentiment" := JStr(sentiment),
        "word_cloud" := JArr(WordCloud.CloudJson(wordCloud))
      ])
  }

  /** A processed item carries no topic analysis: no level, an empty reason,
      no topic match and no crisis keywords. */
  lemma ProcessItemNoTopic(item: Dict, tokenize: string -> seq<string>, infer: string -> Result<HttpReply>,
                           reprContainer: Json -> string)
    ensures var r := ProcessItem(JObj(item), tokenize, infer, reprContainer);
      && r.Success?
      && r.value["log_level"] == JNull && r.value["reason"] == JStr("")
      && r.value["contains_topic"] == JBool(false) && r.value["targeting_topic"] == JBool(false)
      && r.value["crisis_keywords"] == JArr([])
  {
  }

  /** The site fields are the item's `siteName` and `siteId`. */
  lemma ProcessItemSite(item: Dict, tokenize: string -> seq<string>, infer: string -> Result<HttpReply>,
                        reprContainer: Json -> string)
    ensures var r := ProcessItem(JObj(item), tokenize, infer, reprContainer);
      && r.Success?
      && r.value["site_name"] == Get(item, "siteName", JStr("")) && r.value["site_id"] == Get(item, "siteId", JStr(""))
  {
  }

  /** The interaction count defaults to 0 and the type is repeated as
      `input_type`. */
  lemma ProcessItemDefaults(item: Dict, tokenize: string -> seq<string>, infer: string -> Result<HttpReply>,
                            reprContainer: Json -> string)
    ensures var r := ProcessItem(JObj(item), tokenize, infer, reprContainer);
      && r.Success?
      && ("total_interactions" !in item ==> r.value["total_interactions"] == JInt(0))
      && r.value["input_type"] == r.value["type"]
  {
    var r := ProcessItem(JObj(item), tokenize, infer, reprContainer).value;
    assert r["type"] == Get(item, "type", JStr(""));
    assert r["input_type"] == Get(item, "type", JStr(""));
  }

  /** The sentiment is the model's answer for the text "title description
      content", whatever the item's other fields. */
  lemma ProcessItemSentiment(item: Dict, tokenize: string -> seq<string>, infer: string -> Result<HttpReply>,
                             reprContainer: Json -> string)
    ensures var r := ProcessItem(JObj(item), tokenize, infer, reprContainer);
      var text := ItemText(item, reprContainer);
      && r.Success?
      && text == PyStr(Get(item, "title", JStr("")), reprContainer) + " "
                 + PyStr(Get(item, "description", JStr("")), reprContainer) + " "
                 + PyStr(Get(item, "content", JStr("")), reprContainer)
      && r.value["sentiment"] == JStr(CallInference(infer(text)))
  {
  }

  /** The serialised word cloud of a token list: one `{"word", "frequency"}`
      dict per entry, each word a `_`-compound, frequencies non-increasing. */
  lemma CloudJsonShape(words: seq<string>)
    ensures var cloud := WordCloud.CloudJson(WordCloud.WordCloudOf(words));
      && |cloud| == |WordCloud.WordCloudOf(words)|
      && forall k :: 0 <= k < |cloud| ==>
           && cloud[k].JObj? && cloud[k].fields["word"].JStr? && cloud[k].fields["frequency"].JInt?
           && '_' in cloud[k].fields["word"].s
           && (k + 1 < |cloud| ==> cloud[k].fields["frequency"].i >= cloud[k + 1].fields["frequency"].i)
  {
    var wc := WordCloud.WordCloudOf(words);
    WordCloud.WordCloudWords(words);
    WordCloud.WordCloudOrder(words);
    var cloud := WordCloud.CloudJson(wc);
    forall k | 0 <= k < |cloud|
      ensures && cloud[k].JObj? && cloud[k].fields["word"].JStr? && cloud[k].fields["frequency"].JInt?
              && '_' in cloud[k].fields["word"].s
              && (k + 1 < |cloud| ==> cloud[k].fields["frequency"].i >= cloud[k + 1].fields["frequency"].i)
    {
      assert cloud[k].fields["word"] == JStr(wc[k].word);
      if k + 1 < |cloud| {
        assert wc[k].frequency >= wc[k + 1].frequency;
      }
    }
  }

  /** The word cloud of a processed item is that of its text: only
      `_`-compounds, most frequent first. */
  lemma ProcessItemCloud(item: Dict, tokenize: string -> seq<string>, infer: string -> Result<HttpReply>,
                         reprContainer: Json -> string)
    ensures var r := ProcessItem(JObj(item), tokenize, infer, reprContainer);
      var words := tokenize(ItemText(item, reprContainer));
      && r.Success?
      && r.value["word_cloud"] == JArr(WordCloud.CloudJson(WordCloud.WordCloudOf(words)))
      && forall k :: 0 <= k < |r.value["word_cloud"].items| ==>
           && r.value["word_cloud"].items[k].fields["word"].JStr?
           && '_' in r.value["word_cloud"].items[k].fields["word"].s
  {
    CloudJsonShape(tokenize(ItemText(item, reprContainer)));
  }

  /** `process_item` as the coroutine `gather` runs for each item. */
  function Processor(tokenize: string -> seq<string>, infer: string -> Result<HttpReply>,
                     reprContainer: Json -> string): Json -> Result<Dict>
  {
    item => ProcessItem(item, tokenize, infer, reprContainer)
  }

  /** Only a dict can be processed; anything else raises on its first `get`. */
  lemma ProcessItemFails(item: Json, tokenize: string -> seq<string>, infer: string -> Result<HttpReply>,
                         reprContainer: Json -> string)
    ensures ProcessItem(item, tokenize, infer, reprContainer).Success? <==> item.JObj?
    ensures !item.JObj? ==>
      ProcessItem(item, tokenize, infer, reprContainer) == Failure("'" + TypeName(item) + "' object has no attribute 'get'")
  {
  }

  /** `asyncio.gather` over the items: all results in input order, or the
      exception of the first item that raises (every item raises, if at all,
      before its first `await`, so the tasks fail in list order). */
  function Gather(items: seq<Json>, process: Json -> Result<Dict>): Result<seq<Json>>
  {
    if items == [] then Success([])
    else
      var first :- process(items[0]);
      var rest :- Gather(items[1..], process);
      Success([JObj(first)] + rest)
  }

  /** `handle_predict` up to the emit: the list under `"results"`, or the
      exception that keeps anything from being emitted. Iterating a string or
      a dict yields strings, on which `item.get` raises. */
  function HandlePredict(data: Json, tokenize: string -> seq<string>, infer: string -> Result<HttpReply>,
                         reprContainer: Json -> string): Result<seq<Json>>
  {
    var items :- DotGet(data, "data", JArr([]));
    match items
    case JArr(xs) => Gather(xs, Processor(tokenize, infer, reprContainer))
    case JStr(s) => if s == "" then Success([]) else Failure("'str' object has no attribute 'get'")
    case JObj(m) => if m == map[] then Success([]) else Failure("'str' object has no attribute 'get'")
    case _ => Failure("'" + TypeName(items) + "' object is not iterable")
  }

  /** The gathered list is complete exactly when every item is processed,
      and then holds one result per item, each the processed item at the same
      position. */
  lemma {:induction false} GatherInOrder(items: seq<Json>, process: Json -> Result<Dict>)
    ensures var r := Gather(items, process);
      && (r.Success? <==> forall k :: 0 <= k < |items| ==> process(items[k]).Success?)
      && (r.Success? ==> (|r.value| == |items|
            && forall k :: 0 <= k < |items| ==> r.value[k] == JObj(process(items[k]).value)))
  {
    if items != [] {
      GatherInOrder(items[1..], process);
      var r := Gather(items, process);
      var rest := Gather(items[1..], process);
      assert forall k :: 1 <= k < |items| ==> items[k] == items[1..][k - 1];
      if r.Success? {
        assert r.value == [JObj(process(items[0]).value)] + rest.value;
      }
    }
  }

  /** When the gather fails, the error is the one raised by the first item
      that fails. */
  lemma {:induction false} GatherFirstFailure(items: seq<Json>, process: Json -> Result<Dict>)
    ensures var r := Gather(items, process);
      r.Failure? ==>
        exists k :: (0 <= k < |items| && process(items[k]).Failure?
          && (forall j :: 0 <= j < k ==> process(items[j]).Success?)
          && r.error == process(items[k]).error)
  {
    if items != [] && process(items[0]).Success? {
      GatherFirstFailure(items[1..], process);
      var rest := Gather(items[1..], process);
      if rest.Failure? {
        var k :| 0 <= k < |items[1..]| && process(items[1..][k]).Failure?
          && (forall j :: 0 <= j < k ==> process(items[1..][j]).Success?)
          && rest.error == process(items[1..][k]).error;
        assert forall j :: 1 <= j < k + 1 ==> items[j] == items[1..][j - 1];
        assert items[k + 1] == items[1..][k];
      }
    }
  }

  /** An event without a `data` key answers with an empty list. */
  lemma HandlePredictNoData(data: Dict, tokenize: string -> seq<string>, infer: string -> Result<HttpReply>,
                            reprContainer: Json -> string)
    requires "data" !in data
    ensures HandlePredict(JObj(data), tokenize, infer, reprContainer) == Success([])
  {
  }

  /** The emitted list answers a list of items one to one and in order, and
      exists exactly when every item is a dict. */
  lemma HandlePredictResults(xs: seq<Json>, tokenize: string -> seq<string>, infer: string -> Result<HttpReply>,
                             reprContainer: Json -> string)
    ensures var r := HandlePredict(JObj(map["data" := JArr(xs)]), tokenize, infer, reprContainer);
      && (r.Success? <==> forall k :: 0 <= k < |xs| ==> xs[k].JObj?)
      && (r.Success? ==> (|r.value| == |xs|
            && forall k :: 0 <= k < |xs| ==> r.value[k] == JObj(ProcessItem(xs[k], tokenize, infer, reprContainer).value)))
  {
    var process := Processor(tokenize, infer, reprContainer);
    assert HandlePredict(JObj(map["data" := JArr(xs)]), tokenize, infer, reprContainer) == Gather(xs, process);
    GatherInOrder(xs, process);
    forall k | 0 <= k < |xs|
      ensures process(xs[k]).Success? <==> xs[k].JObj?
      ensures process(xs[k]) == ProcessItem(xs[k], tokenize, infer, reprContainer)
    {
      ProcessItemFails(xs[k], tokenize, infer, reprContainer);
    }
  }

  /** A failing event reports the error of the first item that is not a
      dict. */
  lemma HandlePredictFirstFailure(xs: seq<Json>, tokenize: string -> seq<string>, infer: string -> Result<HttpReply>,
                                  reprContainer: Json -> string)
    ensures var r := HandlePredict(JObj(map["data" := JArr(xs)]), tokenize, infer, reprContainer);
      r.Failure? ==>
        exists k :: (0 <= k < |xs| && !xs[k].JObj?
          && (forall j :: 0 <= j < k ==> xs[j].JObj?)
          && r.error == "'" + TypeName(xs[k]) + "' object has no attribute 'get'")
  {
    var process := Processor(tokenize, infer, reprContainer);
    assert HandlePredict(JObj(map["data" := JArr(xs)]), tokenize, infer, reprContainer) == Gather(xs, process);
    GatherFirstFailure(xs, process);
    forall k | 0 <= k < |xs|
      ensures process(xs[k]).Success? <==> xs[k].JObj?
      ensures !xs[k].JObj? ==> process(xs[k]).error == "'" + TypeName(xs[k]) + "' object has no attribute 'get'"
    {
      ProcessItemFails(xs[k], tokenize, infer, reprContainer);
    }
  }
}
