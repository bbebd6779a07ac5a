/**
  The sentiment worker's decision logic (`analyze_sentiment`,
  `filter_negative_content`, `sentiment_filtering`). The sentiment model
  and the Gemini topic check are parameters: `infer` gives the top label for
  a text ("" when there is none), `checkTopic` the topic analysis of an item.
  Type tags here are the upper-case ones, and the news test is case-sensitive.
*/
module SentimentApp {
  import opened Wrappers
  import opened PyJson

  const CommentTypes: seq<string> := [
    "FBPAGE_COMMENT", "FBGROUP_COMMENT", "FBUSER_COMMENT", "FORUM_COMMENT",
    "NEWS_COMMENT", "YOUTUBE_COMMENT", "BLOG_COMMENT", "QA_COMMENT",
    "SNS_COMMENT", "TIKTOK_COMMENT", "LINKEDIN_COMMENT", "ECOMMERCE_COMMENT"
  ]

  const PostTypes: seq<string> := [
    "FBPAGE_TOPIC", "FBGROUP_TOPIC", "FBUSER_TOPIC", "FORUM_TOPIC", "NEWS_TOPIC",
    "YOUTUBE_TOPIC", "BLOG_TOPIC", "QA_TOPIC", "SNS_TOPIC", "TIKTOK_TOPIC",
    "LINKEDIN_TOPIC", "ECOMMERCE_TOPIC"
  ]

  const NotNegativeReason: string := "Không phải nội dung tiêu cực."
  const CommentReason: string := "Bình luận tiêu cực trên mạng xã hội."

  predicate IsComment(t: Json)
  {
    t.JStr? && t.s in CommentTypes
  }

  predicate IsPost(t: Json)
  {
    t.JStr? && t.s in PostTypes
  }

  /** Every comment tag ends in 'T' and every post tag in 'C'. */
  lemma TypeListsDisjoint(t: Json)
    ensures !(IsComment(t) && IsPost(t))
  {
    if IsComment(t) {
      assert t.s[|t.s| - 1] == 'T';
    }
  }

  /** `data_input.get('type', '')` */
  function TypeOf(d: Dict): Json
  {
    Get(d, "type", JStr(""))
  }

  /** `left + right` where one side is a str, or the TypeError Python raises. */
  function ConcatStr(left: Json, right: Json): Result<string>
    requires left.JStr? || right.JStr?
  {
    match left
    case JStr(a) =>
      if right.JStr? then Success(a + right.s)
      else Failure("can only concatenate str (not \"" + TypeName(right) + "\") to str")
    case JArr(_) => Failure("can only concatenate list (not \"" + TypeName(right) + "\") to list")
    case _ => Failure("unsupported operand type(s) for +: '" + TypeName(left) + "' and '" + TypeName(right) + "'")
  }

  /** `data_input['type'] + ' ' + data_input.get('content', '') + ' ' + data_input.get('description', '')` */
  function ModelText(d: Dict): Result<string>
  {
    if "type" !in d then Failure("'type'")
    else
      var a :- ConcatStr(d["type"], JStr(" "));
      var b :- ConcatStr(JStr(a), Get(d, "content", JStr("")));
      var c :- ConcatStr(JStr(b), JStr(" "));
      ConcatStr(JStr(c), Get(d, "description", JStr("")))
  }

  /** The text is the type, the content and the description joined by single
      spaces; it exists exactly when the three are strings, and a missing
      `type` key is a KeyError. */
  lemma ModelTextShape(d: Dict)
    ensures "type" !in d ==> ModelText(d) == Failure("'type'")
    ensures ModelText(d).Success? <==>
      "type" in d && d["type"].JStr? && Get(d, "content", JStr("")).JStr? && Get(d, "description", JStr("")).JStr?
    ensures ModelText(d).Success? ==>
      ModelText(d).value == d["type"].s + " " + Get(d, "content", JStr("")).s + " " + Get(d, "description", JStr("")).s
  {
    if "type" in d && d["type"].JStr? {
      var a := d["type"].s + " ";
      assert ConcatStr(d["type"], JStr(" ")) == Success(a);
    }
  }

  /** The title never enters the text. */
  lemma ModelTextIgnoresTitle(d: Dict, title: Json)
    ensures ModelText(d["title" := title]) == ModelText(d)
  {
    var d' := d["title" := title];
    assert ("type" in d') == ("type" in d);
    assert "type" in d ==> d'["type"] == d["type"];
    assert Get(d', "content", JStr("")) == Get(d, "content", JStr(""));
    assert Get(d', "description", JStr("")) == Get(d, "description", JStr(""));
  }

  /** Which program a member follows: the code as written, or the code with
      the two defects of this model put right (the site fields read under
      the keys the server sends, and a `None` count read as 0). */
  datatype Reading = AsWritten | Corrected

  /** The keys `analyze_sentiment` reads the site fields from: as written
      `siteId`/`siteName`, keys the server has already renamed to
      `site_id`/`site_name`. */
  function SiteIdKey(reading: Reading): string
  {
    if reading == AsWritten then "siteId" else "site_id"
  }

  function SiteNameKey(reading: Reading): string
  {
    if reading == AsWritten then "siteName" else "site_name"
  }

  /** What `analyze_sentiment` returns: the base result and the label. */
  datatype Analysis = Analysis(result: Dict, sentiment: Json)

  /** The seventeen keys of the base result. */
  const BaseKeys: set<string> := {
    "log_level", "reason", "id", "topic_id", "topic_name", "site_id", "site_name", "title",
    "description", "content", "input_type", "sentiment", "contains_topic", "targeting_topic",
    "crisis_keywords", "is_kol", "total_interactions"
  }

  /** The base result of a non-negative item: tier 0 with no topic match. */
  function BaseResult(reading: Reading, d: Dict, sentiment: Json): (r: Dict)
    ensures forall k :: k in BaseKeys ==> k in r
    ensures r["log_level"] == JInt(0) && r["reason"] == JStr(NotNegativeReason)
    ensures r["contains_topic"] == JBool(false) && r["targeting_topic"] == JBool(false)
    ensures r["crisis_keywords"] == JArr([]) && r["sentiment"] == sentiment
    ensures r["site_id"] == Get(d, SiteIdKey(reading), JStr(""))
    ensures r["site_name"] == Get(d, SiteNameKey(reading), JStr(""))
  {
    map[
      "id" := Get(d, "id", JStr("")),
      "topic_id" := Get(d, "topic_id", JStr("")),
      "topic_name" := Get(d, "topic_name", JStr("")),
      "title" := Get(d, "title", JStr("")),
      "description" := Get(d, "description", JStr("")),
      "content" := Get(d, "content", JStr("")),
      "input_type" := TypeOf(d),
      "is_kol" := Get(d, "is_kol", JBool(false)),
      "total_interactions" := Get(d, "total_interactions", JInt(0)),
      "site_id" := Get(d, SiteIdKey(reading), JStr("")),
      "site_name" := Get(d, SiteNameKey(reading), JStr("")),
      "sentiment" := sentiment,
      "log_level" := JInt(0),
      "reason" := JStr(NotNegativeReason),
      "contains_topic" := JBool(false),
      "targeting_topic" := JBool(false),
      "crisis_keywords" := JArr([])
    ]
  }

  /** `label = top_label if top_label else None` */
  function LabelOf(top: string): (sentiment: Json)
    ensures sentiment == JNull <==> top == ""
    ensures sentiment != JNull ==> sentiment == JStr(top)
  {
    if top == "" then JNull else JStr(top)
  }

  /** `analyze_sentiment` */
  function AnalyzeSentiment(reading: Reading, d: Dict, infer: string -> string): Result<Analysis>
  {
    var text :- ModelText(d);
    var sentiment := LabelOf(infer(text));
    Success(Analysis(BaseResult(reading, d, sentiment), sentiment))
  }

  /** `total_interactions >= 100` as written: `None` raises. */
  function InteractionsHighAsWritten(total: Json): Result<bool>
  {
    AtLeast(total, 100)
  }

  /** `total_interactions >= 100` with a `None` count read as 0, the default
      the code gives an absent count. */
  function InteractionsHigh(total: Json): (r: Result<bool>)
    ensures total == JNull ==> r == Success(false)
    ensures total != JNull ==> r == InteractionsHighAsWritten(total)
  {
    if total == JNull then Success(false) else AtLeast(total, 100)
  }

  /** An item the server forwards without `total_interactions` carries `None`;
      the comparison as written raises on it, the corrected one says "not high". */
  lemma NoneInteractionsRaise()
    ensures InteractionsHighAsWritten(JNull) == Failure(NoneCompareError)
    ensures InteractionsHigh(JNull) == Success(false)
  {
  }

  const NoneCompareError: string := "'>=' not supported between instances of 'NoneType' and 'int'"

  /** The count comparison of the given reading. */
  function CountHigh(reading: Reading, total: Json): Result<bool>
  {
    if reading == AsWritten then InteractionsHighAsWritten(total) else InteractionsHigh(total)
  }

  /** `"NEWS" in input_type or is_kol or total_interactions >= 100`, left to right. */
  function HighImpact(reading: Reading, inputType: string, isKol: Json, total: Json): Result<bool>
  {
    if HasSubstring(inputType, "NEWS") || Truthy(isKol) then Success(true) else CountHigh(reading, total)
  }

  /** The post branch once `check_targeting_topic` has answered. */
  function PostVerdict(reading: Reading, result: Dict, analysis: Dict, inputType: string, isKol: Json, total: Json): Result<Dict>
  {
    var targeting := Get(analysis, "targeting_topic", JBool(false));
    var keywords := Get(analysis, "crisis_keywords", JArr([]));
    var reason := Get(analysis, "reason", JArr([]));
    var updated := result + map[
      "contains_topic" := Get(analysis, "contains_topic", JBool(false)),
      "targeting_topic" := targeting,
      "crisis_keywords" := keywords
    ];
    if Truthy(targeting) then
      var n :- PyLen(keywords);
      if n > 0 then
        var high :- HighImpact(reading, inputType, isKol, total);
        Success(updated + map["log_level" := JInt(if high then 3 else 2), "reason" := reason])
      else
        Success(updated + map["log_level" := JInt(2), "reason" := reason])
    else
      Success(updated + map["log_level" := JInt(2), "reason" := reason])
  }

  /** The dictionary `filter_negative_content` leaves in `result`, or the
      exception it raises. */
  function Filter(reading: Reading, d: Dict, result: Dict, checkTopic: Dict -> Dict): Result<Dict>
  {
    var inputType := TypeOf(d);
    if IsComment(inputType) then
      Success(result + map["log_level" := JInt(1), "reason" := JStr(CommentReason)])
    else if IsPost(inputType) then
      PostVerdict(reading, result, checkTopic(d), inputType.s,
                  Get(d, "is_kol", JBool(false)), Get(d, "total_interactions", JInt(0)))
    else
      Success(result + map["log_level" := JInt(2), "reason" := JNull])
  }

  /** Every key of `result` outside `owned` is still there with its value. */
  ghost predicate KeepsOtherKeys(result: Dict, r: Dict, owned: set<string>)
  {
    forall k :: k in result && k !in owned ==> k in r && r[k] == result[k]
  }

  /** A comment is tier 1 with the fixed reason and no topic check. */
  lemma CommentTier(reading: Reading, d: Dict, result: Dict, checkTopic: Dict -> Dict)
    requires IsComment(TypeOf(d))
    ensures var r := Filter(reading, d, result, checkTopic);
      && r.Success?
      && r.value.Keys == result.Keys + {"log_level", "reason"}
      && r.value["log_level"] == JInt(1) && r.value["reason"] == JStr(CommentReason)
      && KeepsOtherKeys(result, r.value, {"log_level", "reason"})
      && (forall other: Dict -> Dict :: Filter(reading, d, result, other) == r)
  {
  }

  /** A type in neither list is tier 2 with reason `None`, with no topic check. */
  lemma UnknownTypeTier(reading: Reading, d: Dict, result: Dict, checkTopic: Dict -> Dict)
    requires !IsComment(TypeOf(d)) && !IsPost(TypeOf(d))
    ensures var r := Filter(reading, d, result, checkTopic);
      && r.Success?
      && r.value.Keys == result.Keys + {"log_level", "reason"}
      && r.value["log_level"] == JInt(2) && r.value["reason"] == JNull
      && KeepsOtherKeys(result, r.value, {"log_level", "reason"})
      && (forall other: Dict -> Dict :: Filter(reading, d, result, other) == r)
  {
  }

  /** A post copies the analysis' flags and keywords (`[]` when absent) and
      its reason (`[]` when absent), and is tier 3 exactly when it targets the
      topic, has a non-empty keyword list and is news, from a KOL or has at
      least 100 interactions; tier 2 otherwise. `len` raises on keywords
      without a length, and the count comparison raises (as written, on a
      `None` count too) only when it is reached. */
  lemma PostTier(reading: Reading, d: Dict, result: Dict, checkTopic: Dict -> Dict)
    requires IsPost(TypeOf(d))
    ensures var r := Filter(reading, d, result, checkTopic);
      var analysis := checkTopic(d);
      var targeting := Get(analysis, "targeting_topic", JBool(false));
      var keywords := Get(analysis, "crisis_keywords", JArr([]));
      var isKol := Get(d, "is_kol", JBool(false));
      var total := Get(d, "total_interactions", JInt(0));
      var news := HasSubstring(TypeOf(d).s, "NEWS");
      && (r.Failure? <==>
            Truthy(targeting) && (PyLen(keywords).Failure?
              || (PyLen(keywords).value > 0 && !news && !Truthy(isKol) && CountHigh(reading, total).Failure?)))
      && (r.Success? ==>
            && r.value.Keys == result.Keys + {"contains_topic", "targeting_topic", "crisis_keywords", "log_level", "reason"}
            && r.value["contains_topic"] == Get(analysis, "contains_topic", JBool(false))
            && r.value["targeting_topic"] == targeting
            && r.value["crisis_keywords"] == keywords
            && r.value["reason"] == Get(analysis, "reason", JArr([]))
            && r.value["log_level"] in {JInt(2), JInt(3)}
            && (r.value["log_level"] == JInt(3) <==>
                  Truthy(targeting) && PyLen(keywords).value > 0
                  && (news || Truthy(isKol) || CountHigh(reading, total) == Success(true)))
            && KeepsOtherKeys(result, r.value, {"contains_topic", "targeting_topic", "crisis_keywords", "log_level", "reason"}))
  {
    FilterPost(reading, d, result, checkTopic);
    PostVerdictTier(reading, result, checkTopic(d), TypeOf(d).s,
                    Get(d, "is_kol", JBool(false)), Get(d, "total_interactions", JInt(0)));
  }

  /** `PostTier` for the post branch alone. */
  lemma PostVerdictTier(reading: Reading, result: Dict, analysis: Dict, inputType: string, isKol: Json, total: Json)
    ensures var r := PostVerdict(reading, result, analysis, inputType, isKol, total);
      var targeting := Get(analysis, "targeting_topic", JBool(false));
      var keywords := Get(analysis, "crisis_keywords", JArr([]));
      var news := HasSubstring(inputType, "NEWS");
      && (r.Failure? <==>
            Truthy(targeting) && (PyLen(keywords).Failure?
              || (PyLen(keywords).value > 0 && !news && !Truthy(isKol) && CountHigh(reading, total).Failure?)))
      && (r.Success? ==>
            && r.value.Keys == result.Keys + {"contains_topic", "targeting_topic", "crisis_keywords", "log_level", "reason"}
            && r.value["contains_topic"] == Get(analysis, "contains_topic", JBool(false))
            && r.value["targeting_topic"] == targeting
            && r.value["crisis_keywords"] == keywords
            && r.value["reason"] == Get(analysis, "reason", JArr([]))
            && r.value["log_level"] in {JInt(2), JInt(3)}
            && (r.value["log_level"] == JInt(3) <==>
                  Truthy(targeting) && PyLen(keywords).value > 0
                  && (news || Truthy(isKol) || CountHigh(reading, total) == Success(true)))
            && KeepsOtherKeys(result, r.value, {"contains_topic", "targeting_topic", "crisis_keywords", "log_level", "reason"}))
  {
    var r := PostVerdict(reading, result, analysis, inputType, isKol, total);
    var targeting := Get(analysis, "targeting_topic", JBool(false));
    var keywords := Get(analysis, "crisis_keywords", JArr([]));
    if !Truthy(targeting) || (PyLen(keywords).Success? && PyLen(keywords).value == 0) {
      assert r == Success(Verdict(result, analysis, 2));
      VerdictFacts(result, analysis, 2);
    } else if PyLen(keywords).Success? {
      var high := HighImpact(reading, inputType, isKol, total);
      if high.Success? {
        var level := if high.value then 3 else 2;
        assert r == Success(Verdict(result, analysis, level));
        VerdictFacts(result, analysis, level);
      }
    }
  }

  /** The dictionary the post branch leaves when it does not raise. */
  function Verdict(result: Dict, analysis: Dict, level: int): Dict
  {
    result + map[
      "contains_topic" := Get(analysis, "contains_topic", JBool(false)),
      "targeting_topic" := Get(analysis, "targeting_topic", JBool(false)),
      "crisis_keywords" := Get(analysis, "crisis_keywords", JArr([]))
    ] + map["log_level" := JInt(level), "reason" := Get(analysis, "reason", JArr([]))]
  }

  lemma VerdictFacts(result: Dict, analysis: Dict, level: int)
    ensures var r := Verdict(result, analysis, level);
      && r.Keys == result.Keys + {"contains_topic", "targeting_topic", "crisis_keywords", "log_level", "reason"}
      && r["contains_topic"] == Get(analysis, "contains_topic", JBool(false))
      && r["targeting_topic"] == Get(analysis, "targeting_topic", JBool(false))
      && r["crisis_keywords"] == Get(analysis, "crisis_keywords", JArr([]))
      && r["reason"] == Get(analysis, "reason", JArr([]))
      && r["log_level"] == JInt(level)
      && KeepsOtherKeys(result, r, {"contains_topic", "targeting_topic", "crisis_keywords", "log_level", "reason"})
  {
  }

  /** A post is decided by the post branch. */
  lemma FilterPost(reading: Reading, d: Dict, result: Dict, checkTopic: Dict -> Dict)
    requires IsPost(TypeOf(d))
    ensures Filter(reading, d, result, checkTopic)
      == PostVerdict(reading, result, checkTopic(d), TypeOf(d).s,
                     Get(d, "is_kol", JBool(false)), Get(d, "total_interactions", JInt(0)))
  {
    TypeListsDisjoint(TypeOf(d));
  }

  /** As written, a targeting post with keywords that is neither news nor
      from a KOL and whose count is `None` raises the TypeError. */
  lemma NoneCountRaises(d: Dict, result: Dict, checkTopic: Dict -> Dict)
    requires IsPost(TypeOf(d)) && !HasSubstring(TypeOf(d).s, "NEWS")
    requires !Truthy(Get(d, "is_kol", JBool(false))) && Get(d, "total_interactions", JInt(0)) == JNull
    requires var analysis := checkTopic(d);
      Truthy(Get(analysis, "targeting_topic", JBool(false)))
      && PyLen(Get(analysis, "crisis_keywords", JArr([]))).Success?
      && PyLen(Get(analysis, "crisis_keywords", JArr([]))).value > 0
    ensures Filter(AsWritten, d, result, checkTopic) == Failure(NoneCompareError)
  {
    FilterPost(AsWritten, d, result, checkTopic);
    NoneCountVerdict(result, checkTopic(d), TypeOf(d).s, Get(d, "is_kol", JBool(false)));
  }

  /** Corrected, the same post gets tier 2. */
  lemma NoneCountTierTwo(d: Dict, result: Dict, checkTopic: Dict -> Dict)
    requires IsPost(TypeOf(d)) && !HasSubstring(TypeOf(d).s, "NEWS")
    requires !Truthy(Get(d, "is_kol", JBool(false))) && Get(d, "total_interactions", JInt(0)) == JNull
    requires var analysis := checkTopic(d);
      Truthy(Get(analysis, "targeting_topic", JBool(false)))
      && PyLen(Get(analysis, "crisis_keywords", JArr([]))).Success?
      && PyLen(Get(analysis, "crisis_keywords", JArr([]))).value > 0
    ensures var r := Filter(Corrected, d, result, checkTopic);
      r.Success? && "log_level" in r.value && r.value["log_level"] == JInt(2)
  {
    FilterPost(Corrected, d, result, checkTopic);
    NoneCountVerdict(result, checkTopic(d), TypeOf(d).s, Get(d, "is_kol", JBool(false)));
  }

  /** The post branch on a `None` count, as written and corrected. */
  lemma NoneCountVerdict(result: Dict, analysis: Dict, inputType: string, isKol: Json)
    requires !HasSubstring(inputType, "NEWS") && !Truthy(isKol)
    requires Truthy(Get(analysis, "targeting_topic", JBool(false)))
    requires PyLen(Get(analysis, "crisis_keywords", JArr([]))).Success?
    requires PyLen(Get(analysis, "crisis_keywords", JArr([]))).value > 0
    ensures PostVerdict(AsWritten, result, analysis, inputType, isKol, JNull) == Failure(NoneCompareError)
    ensures var r := PostVerdict(Corrected, result, analysis, inputType, isKol, JNull);
      r.Success? && "log_level" in r.value && r.value["log_level"] == JInt(2)
  {
    NoneInteractionsRaise();
    assert HighImpact(AsWritten, inputType, isKol, JNull) == Failure(NoneCompareError);
    assert HighImpact(Corrected, inputType, isKol, JNull) == Success(false);
    var updated := result + map[
      "contains_topic" := Get(analysis, "contains_topic", JBool(false)),
      "targeting_topic" := Get(analysis, "targeting_topic", JBool(false)),
      "crisis_keywords" := Get(analysis, "crisis_keywords", JArr([]))
    ];
    var tierTwo := updated + map["log_level" := JInt(2), "reason" := Get(analysis, "reason", JArr([]))];
    assert "log_level" in tierTwo && tierTwo["log_level"] == JInt(2);
    assert PostVerdict(Corrected, result, analysis, inputType, isKol, JNull) == Success(tierTwo);
  }

  /** The filter changes only the keys it owns: any other key of `result`
      comes through with its value. */
  lemma FilterKeeps(reading: Reading, d: Dict, result: Dict, checkTopic: Dict -> Dict, k: string)
    requires k in result
    requires k !in {"contains_topic", "targeting_topic", "crisis_keywords", "log_level", "reason"}
    ensures Filter(reading, d, result, checkTopic).Success? ==>
      k in Filter(reading, d, result, checkTopic).value && Filter(reading, d, result, checkTopic).value[k] == result[k]
  {
    var t := TypeOf(d);
    if IsComment(t) {
      CommentTier(reading, d, result, checkTopic);
    } else if IsPost(t) {
      PostTier(reading, d, result, checkTopic);
    } else {
      UnknownTypeTier(reading, d, result, checkTopic);
    }
  }

  /** `sentiment_filtering`: the base result, refined by the filter only when
      the label is exactly "negative". */
  function SentimentFiltering(reading: Reading, d: Dict, infer: string -> string, checkTopic: Dict -> Dict): Result<Dict>
  {
    var a :- AnalyzeSentiment(reading, d, infer);
    if a.sentiment == JStr("negative") then Filter(reading, d, a.result, checkTopic) else Success(a.result)
  }

  /** As written, an item whose keys are `site_id`/`site_name` (as the server
      sends them) and that is not classified negative comes back with both
      site fields blank. */
  lemma AsWrittenBlanksSite(d: Dict, infer: string -> string, checkTopic: Dict -> Dict)
    requires "siteId" !in d && "siteName" !in d
    requires ModelText(d).Success? && infer(ModelText(d).value) != "negative"
    ensures var r := SentimentFiltering(AsWritten, d, infer, checkTopic);
      && r.Success? && "site_id" in r.value && "site_name" in r.value
      && r.value["site_id"] == JStr("") && r.value["site_name"] == JStr("")
  {
    var a := AnalyzeSentiment(AsWritten, d, infer);
    assert a.Success? && a.value.sentiment != JStr("negative");
  }

  /** Only a negative post reaches the topic check: for every other item the
      outcome is the same whatever the check would answer, and an item that is
      not negative keeps the tier-0 base result. */
  lemma TopicCheckOnlyForNegativePosts(reading: Reading, d: Dict, infer: string -> string, checkTopic: Dict -> Dict)
    ensures var a := AnalyzeSentiment(reading, d, infer);
      && (a.Success? && a.value.sentiment != JStr("negative") ==>
            SentimentFiltering(reading, d, infer, checkTopic) == Success(a.value.result)
            && a.value.result["log_level"] == JInt(0))
      && (!(a.Success? && a.value.sentiment == JStr("negative") && IsPost(TypeOf(d))) ==>
            forall other: Dict -> Dict ::
              SentimentFiltering(reading, d, infer, other) == SentimentFiltering(reading, d, infer, checkTopic))
  {
    var a := AnalyzeSentiment(reading, d, infer);
    if a.Success? && a.value.sentiment == JStr("negative") && !IsPost(TypeOf(d)) {
      if IsComment(TypeOf(d)) {
        CommentTier(reading, d, a.value.result, checkTopic);
      } else {
        UnknownTypeTier(reading, d, a.value.result, checkTopic);
      }
    }
  }

  /** `filter_negative_content` as written, updating its copy of `result`
      step by step; `topicCalls` counts the calls of the topic check. */
  method FilterNegativeContent(d: Dict, result: Dict, checkTopic: Dict -> Dict)
    returns (r: Result<Dict>, topicCalls: nat)
    ensures r == Filter(AsWritten, d, result, checkTopic)
    ensures topicCalls == if IsPost(TypeOf(d)) then 1 else 0
  {
    topicCalls := 0;
    var inputType := TypeOf(d);
    var isKol := Get(d, "is_kol", JBool(false));
    var total := Get(d, "total_interactions", JInt(0));
    var reason := JNull;
    var current := result;
    if IsComment(inputType) {
      current := current + map["log_level" := JInt(1), "reason" := JStr(CommentReason)];
      return Success(current), topicCalls;
    }
    if IsPost(inputType) {
      var analysis := checkTopic(d);
      topicCalls := topicCalls + 1;
      var targeting := Get(analysis, "targeting_topic", JBool(false));
      var containsTopic := Get(analysis, "contains_topic", JBool(false));
      var keywords := Get(analysis, "crisis_keywords", JArr([]));
      reason := Get(analysis, "reason", JArr([]));
      current := current + map[
        "contains_topic" := containsTopic,
        "targeting_topic" := targeting,
        "crisis_keywords" := keywords
      ];
      if Truthy(targeting) {
        var n := PyLen(keywords);
        if n.Failure? {
          return Failure(n.error), topicCalls;
        }
        if n.value > 0 {
          var high := HasSubstring(inputType.s, "NEWS") || Truthy(isKol);
          if !high {
            var many := AtLeast(total, 100);
            if many.Failure? {
              return Failure(many.error), topicCalls;
            }
            high := many.value;
          }
          if high {
            current := current + map["log_level" := JInt(3), "reason" := reason];
            return Success(current), topicCalls;
          }
        }
      }
      current := current + map["log_level" := JInt(2), "reason" := reason];
      return Success(current), topicCalls;
    }
    current := current + map["log_level" := JInt(2), "reason" := reason];
    return Success(current), topicCalls;
  }
}
