/**
  Severity tiers of the negative-buzz analyzer (`filter_negative_content`,
  called only for items whose sentiment is negative). Comments get tier 1
  without asking the language model; posts ask it once and get tier 3 when
  the post targets the topic with crisis keywords and has a high impact
  (a news source, a KOL, or at least 100 interactions), tier 2 otherwise.
  The language-model call is the `oracle` parameter: it returns the topic
  analysis or raises.
*/
module BuzzCore {
  import opened Wrappers
  import opened PyJson

  const CommentTypes: seq<string> := [
    "fbPageComment", "fbGroupComment", "fbUserComment", "forumComment",
    "newsComment", "youtubeComment", "tiktokComment", "snsComment",
    "linkedinComment", "ecommerceComment", "threadsComment"
  ]

  const PostTypes: seq<string> := [
    "fbPageTopic", "fbGroupTopic", "fbUserTopic", "forumTopic",
    "newsTopic", "youtubeTopic", "tiktokTopic", "snsTopic",
    "linkedinTopic", "ecommerceTopic", "threadsTopic"
  ]

  const CommentReason: string := "Bình luận tiêu cực trên mạng xã hội."
  const LlmErrorPrefix: string := "Lỗi khi gọi LLM: "
  const UnknownReason: string := "Không rõ lý do."

  /** `input_type in array_type_comment`; a non-string type is in neither list. */
  predicate IsComment(t: Json)
  {
    t.JStr? && t.s in CommentTypes
  }

  /** `input_type in array_type_post` */
  predicate IsPost(t: Json)
  {
    t.JStr? && t.s in PostTypes
  }

  /** No type is both a comment and a post, so at most one branch applies:
      every comment tag ends in 't' and every post tag in 'c'. */
  lemma TypeListsDisjoint(t: Json)
    ensures !(IsComment(t) && IsPost(t))
  {
    if IsComment(t) {
      assert t.s[|t.s| - 1] == 't';
    }
  }

  /** The fields every call resets before branching. */
  const Reset: Dict := map[
    "contains_topic" := JBool(false),
    "targeting_topic" := JBool(false),
    "crisis_keywords" := JArr([]),
    "log_level" := JInt(2),
    "should_call_llm" := JBool(false)
  ]

  /** `"news" in input_type.lower()` */
  predicate MentionsNews(inputType: string)
  {
    HasSubstring(Lower(inputType), "news")
  }

  /** `"news" in input_type.lower() or is_kol or total_interactions >= 100`,
      evaluated left to right: the comparison runs only when the first two
      are false, and raises on a value that is not a number. */
  function HighImpact(news: bool, isKol: Json, total: Json): Result<bool>
  {
    if news || Truthy(isKol) then Success(true) else AtLeast(total, 100)
  }

  /** The post branch once the model has answered with `analysis`: its fields
      are copied (with defaults), then the tier is decided. */
  function PostVerdict(flagged: Dict, analysis: Dict, news: bool, isKol: Json, total: Json): (r: Result<Dict>)
    ensures var targeting := Get(analysis, "targeting_topic", JBool(false));
      var keywords := Get(analysis, "crisis_keywords", JArr([]));
      && (r.Failure? <==> Truthy(targeting) && Truthy(keywords) && HighImpact(news, isKol, total).Failure?)
      && (r.Success? ==>
            && r.value.Keys == flagged.Keys + {"contains_topic", "targeting_topic", "crisis_keywords", "reason", "log_level"}
            && r.value["contains_topic"] == Get(analysis, "contains_topic", JBool(false))
            && r.value["targeting_topic"] == targeting
            && r.value["crisis_keywords"] == keywords
            && r.value["reason"] == Get(analysis, "reason", JStr(UnknownReason))
            && r.value["log_level"] in {JInt(2), JInt(3)}
            && (r.value["log_level"] == JInt(3) <==>
                  Truthy(targeting) && Truthy(keywords) && (news || Truthy(isKol) || AtLeast(total, 100) == Success(true)))
            && (forall k :: k in flagged && k !in {"contains_topic", "targeting_topic", "crisis_keywords", "reason", "log_level"}
                  ==> r.value[k] == flagged[k]))
  {
    var targeting := Get(analysis, "targeting_topic", JBool(false));
    var keywords := Get(analysis, "crisis_keywords", JArr([]));
    if Truthy(targeting) && Truthy(keywords) then
      var high :- HighImpact(news, isKol, total);
      var level := if high then 3 else 2;
      TieredFacts(flagged, analysis, level);
      Success(Tiered(flagged, analysis, level))
    else
      TieredFacts(flagged, analysis, 2);
      Success(Tiered(flagged, analysis, 2))
  }

  /** The analysis' fields copied into `flagged`, then the tier. */
  function Tiered(flagged: Dict, analysis: Dict, level: int): Dict
  {
    (flagged + map[
      "contains_topic" := Get(analysis, "contains_topic", JBool(false)),
      "targeting_topic" := Get(analysis, "targeting_topic", JBool(false)),
      "crisis_keywords" := Get(analysis, "crisis_keywords", JArr([])),
      "reason" := Get(analysis, "reason", JStr(UnknownReason))
    ])["log_level" := JInt(level)]
  }

  lemma TieredFacts(flagged: Dict, analysis: Dict, level: int)
    ensures var r := Tiered(flagged, analysis, level);
      && r.Keys == flagged.Keys + {"contains_topic", "targeting_topic", "crisis_keywords", "reason", "log_level"}
      && r["contains_topic"] == Get(analysis, "contains_topic", JBool(false))
      && r["targeting_topic"] == Get(analysis, "targeting_topic", JBool(false))
      && r["crisis_keywords"] == Get(analysis, "crisis_keywords", JArr([]))
      && r["reason"] == Get(analysis, "reason", JStr(UnknownReason))
      && r["log_level"] == JInt(level)
      && (forall k :: k in flagged && k !in {"contains_topic", "targeting_topic", "crisis_keywords", "reason", "log_level"}
            ==> r[k] == flagged[k])
  {
  }

  /** The type tag of the item, `data_input.get('type', '')`. */
  function TypeOf(dataInput: Dict): Json
  {
    Get(dataInput, "type", JStr(""))
  }

  /** Every key of `result` outside `owned` is still there with its value. */
  ghost predicate KeepsOtherKeys(result: Dict, r: Dict, owned: set<string>)
  {
    forall k :: k in result && k !in owned ==> k in r && r[k] == result[k]
  }

  /** The dictionary `filter_negative_content` returns, or the exception it
      raises, for the caller's `data_input` and `result`. */
  function Filter(dataInput: Dict, result: Dict, oracle: Dict -> Result<Dict>): Result<Dict>
  {
    var inputType := TypeOf(dataInput);
    var reset := result + Reset;
    if IsComment(inputType) then
      Success(reset + map["log_level" := JInt(1), "reason" := JStr(CommentReason), "should_call_llm" := JBool(false)])
    else if IsPost(inputType) then
      var flagged := reset["should_call_llm" := JBool(true)];
      match oracle(dataInput)
      case Failure(e) =>
        Success(flagged + map["reason" := JStr(LlmErrorPrefix + e), "log_level" := JInt(2)])
      case Success(analysis) =>
        PostVerdict(flagged, analysis, MentionsNews(inputType.s),
                    Get(dataInput, "is_kol", JBool(false)), Get(dataInput, "total_interactions", JInt(0)))
    else
      Success(reset)
  }

  /** A comment is tier 1 with the fixed comment reason; the model is not
      consulted, so the topic flags and keywords keep their reset values. */
  lemma CommentTier(dataInput: Dict, result: Dict, oracle: Dict -> Result<Dict>)
    requires IsComment(TypeOf(dataInput))
    ensures var r := Filter(dataInput, result, oracle);
      && r.Success?
      && r.value.Keys == result.Keys + Reset.Keys + {"reason"}
      && r.value["log_level"] == JInt(1) && r.value["reason"] == JStr(CommentReason)
      && r.value["should_call_llm"] == JBool(false)
      && r.value["contains_topic"] == JBool(false) && r.value["targeting_topic"] == JBool(false)
      && r.value["crisis_keywords"] == JArr([])
      && KeepsOtherKeys(result, r.value, Reset.Keys + {"reason"})
  {
    TypeListsDisjoint(TypeOf(dataInput));
  }

  /** A type in neither list keeps the reset defaults: tier 2, no model call,
      and the caller's reason, if any, untouched. */
  lemma UnknownTypeTier(dataInput: Dict, result: Dict, oracle: Dict -> Result<Dict>)
    requires !IsComment(TypeOf(dataInput)) && !IsPost(TypeOf(dataInput))
    ensures var r := Filter(dataInput, result, oracle);
      && r.Success?
      && r.value.Keys == result.Keys + Reset.Keys
      && r.value["log_level"] == JInt(2) && r.value["should_call_llm"] == JBool(false)
      && r.value["contains_topic"] == JBool(false) && r.value["targeting_topic"] == JBool(false)
      && r.value["crisis_keywords"] == JArr([])
      && KeepsOtherKeys(result, r.value, Reset.Keys)
  {
  }

  /** A post whose model call raises stays at tier 2 with the error as the
      reason, and its topic flags stay false. */
  lemma PostOracleFailure(dataInput: Dict, result: Dict, oracle: Dict -> Result<Dict>)
    requires IsPost(TypeOf(dataInput)) && oracle(dataInput).Failure?
    ensures var r := Filter(dataInput, result, oracle);
      && r.Success?
      && r.value.Keys == result.Keys + Reset.Keys + {"reason"}
      && r.value["log_level"] == JInt(2) && r.value["should_call_llm"] == JBool(true)
      && r.value["reason"] == JStr(LlmErrorPrefix + oracle(dataInput).error)
      && r.value["contains_topic"] == JBool(false) && r.value["targeting_topic"] == JBool(false)
      && r.value["crisis_keywords"] == JArr([])
      && KeepsOtherKeys(result, r.value, Reset.Keys + {"reason"})
  {
    TypeListsDisjoint(TypeOf(dataInput));
  }

  /** A post the model has analysed takes its flags, keywords and reason from
      the analysis, and is tier 3 exactly when it targets the topic, has crisis
      keywords and a high impact; otherwise tier 2. Only the interaction
      comparison can raise, and only when it is reached. */
  lemma PostTier(dataInput: Dict, result: Dict, oracle: Dict -> Result<Dict>)
    requires IsPost(TypeOf(dataInput)) && oracle(dataInput).Success?
    ensures var r := Filter(dataInput, result, oracle);
      var analysis := oracle(dataInput).value;
      var targeting := Get(analysis, "targeting_topic", JBool(false));
      var keywords := Get(analysis, "crisis_keywords", JArr([]));
      var news := MentionsNews(TypeOf(dataInput).s);
      var isKol := Get(dataInput, "is_kol", JBool(false));
      var total := Get(dataInput, "total_interactions", JInt(0));
      && (r.Failure? <==> Truthy(targeting) && Truthy(keywords) && !news && !Truthy(isKol) && AtLeast(total, 100).Failure?)
      && (r.Success? ==>
            && r.value.Keys == result.Keys + Reset.Keys + {"reason"}
            && r.value["should_call_llm"] == JBool(true)
            && r.value["contains_topic"] == Get(analysis, "contains_topic", JBool(false))
            && r.value["targeting_topic"] == targeting
            && r.value["crisis_keywords"] == keywords
            && r.value["reason"] == Get(analysis, "reason", JStr(UnknownReason))
            && r.value["log_level"] in {JInt(2), JInt(3)}
            && (r.value["log_level"] == JInt(3) <==>
                  Truthy(targeting) && Truthy(keywords) && (news || Truthy(isKol) || AtLeast(total, 100) == Success(true)))
            && KeepsOtherKeys(result, r.value, Reset.Keys + {"reason"}))
  {
    var flagged := (result + Reset)["should_call_llm" := JBool(true)];
    var analysis := oracle(dataInput).value;
    var news := MentionsNews(TypeOf(dataInput).s);
    var isKol := Get(dataInput, "is_kol", JBool(false));
    var total := Get(dataInput, "total_interactions", JInt(0));
    TypeListsDisjoint(TypeOf(dataInput));
    assert Filter(dataInput, result, oracle) == PostVerdict(flagged, analysis, news, isKol, total);
    VerdictKeeps(result, analysis, news, isKol, total);
  }

  /** The verdict on the flagged dictionary has the reset keys, keeps the
      model flag and every key the caller passed outside them. */
  lemma VerdictKeeps(result: Dict, analysis: Dict, news: bool, isKol: Json, total: Json)
    ensures var r := PostVerdict((result + Reset)["should_call_llm" := JBool(true)], analysis, news, isKol, total);
      r.Success? ==>
        && r.value.Keys == result.Keys + Reset.Keys + {"reason"}
        && r.value["should_call_llm"] == JBool(true)
        && KeepsOtherKeys(result, r.value, Reset.Keys + {"reason"})
  {
    FlaggedKeys(result);
  }

  /** The dictionary the post branch starts from, after the reset and the
      `should_call_llm` flag. */
  lemma FlaggedKeys(result: Dict)
    ensures var flagged := (result + Reset)["should_call_llm" := JBool(true)];
      && flagged.Keys + {"contains_topic", "targeting_topic", "crisis_keywords", "reason", "log_level"}
         == result.Keys + Reset.Keys + {"reason"}
      && flagged["should_call_llm"] == JBool(true)
      && "should_call_llm" !in {"contains_topic", "targeting_topic", "crisis_keywords", "reason", "log_level"}
      && KeepsOtherKeys(result, flagged, Reset.Keys)
  {
  }

  /** Across all inputs: tier 1 is given exactly to comments, the model is
      flagged exactly for posts, and every tier is 1, 2 or 3. */
  lemma TiersByType(dataInput: Dict, result: Dict, oracle: Dict -> Result<Dict>)
    ensures var r := Filter(dataInput, result, oracle);
      r.Success? ==>
        && "log_level" in r.value && "should_call_llm" in r.value
        && r.value["log_level"] in {JInt(1), JInt(2), JInt(3)}
        && (r.value["log_level"] == JInt(1) <==> IsComment(TypeOf(dataInput)))
        && r.value["should_call_llm"] == JBool(IsPost(TypeOf(dataInput)))
  {
    var t := TypeOf(dataInput);
    if IsComment(t) {
      CommentTier(dataInput, result, oracle);
      TypeListsDisjoint(t);
    } else if IsPost(t) {
      if oracle(dataInput).Failure? {
        PostOracleFailure(dataInput, result, oracle);
      } else {
        PostTier(dataInput, result, oracle);
      }
    } else {
      UnknownTypeTier(dataInput, result, oracle);
    }
  }

  /** `filter_negative_content`, updating its copy of `result` step by step.
      `llmCalls` counts the invocations of the model. */
  method FilterNegativeContent(dataInput: Dict, result: Dict, oracle: Dict -> Result<Dict>)
    returns (r: Result<Dict>, llmCalls: nat)
    ensures r == Filter(dataInput, result, oracle)
    ensures llmCalls == if IsPost(TypeOf(dataInput)) then 1 else 0
  {
    llmCalls := 0;
    var inputType := TypeOf(dataInput);
    var isKol := Get(dataInput, "is_kol", JBool(false));
    var total := Get(dataInput, "total_interactions", JInt(0));
    var current := result + Reset;
    if IsComment(inputType) {
      current := current + map["log_level" := JInt(1), "reason" := JStr(CommentReason), "should_call_llm" := JBool(false)];
      return Success(current), llmCalls;
    }
    if IsPost(inputType) {
      current := current["should_call_llm" := JBool(true)];
      var topicAnalysis := oracle(dataInput);
      llmCalls := llmCalls + 1;
      if topicAnalysis.Failure? {
        current := current + map["reason" := JStr(LlmErrorPrefix + topicAnalysis.error), "log_level" := JInt(2)];
        return Success(current), llmCalls;
      }
      var analysis := topicAnalysis.value;
      var targeting := Get(analysis, "targeting_topic", JBool(false));
      var containsTopic := Get(analysis, "contains_topic", JBool(false));
      var keywords := Get(analysis, "crisis_keywords", JArr([]));
      var reason := Get(analysis, "reason", JStr(UnknownReason));
      current := current + map[
        "contains_topic" := containsTopic,
        "targeting_topic" := targeting,
        "crisis_keywords" := keywords,
        "reason" := reason
      ];
      if Truthy(targeting) && Truthy(keywords) {
        var high := HighImpact(MentionsNews(inputType.s), isKol, total);
        if high.Failure? {
          return Failure(high.error), llmCalls;
        }
        if high.value {
          current := current["log_level" := JInt(3)];
          return Success(current), llmCalls;
        }
      }
      current := current["log_level" := JInt(2)];
      return Success(current), llmCalls;
    }
    return Success(current), llmCalls;
  }
}
