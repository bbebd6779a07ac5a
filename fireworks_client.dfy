/**
  The post-processing half of `check_targeting_topic` in the negative-buzz
  analyzer: the reply of the Fireworks chat-completion endpoint is reduced to
  a dictionary with `contains_topic`, `targeting_topic`, `reason` and
  `crisis_keywords`, or to a fixed fallback when any step raises.
  The HTTP exchange itself (post, `raise_for_status`, `response.json()`) is
  the `response` parameter, and `json.loads` is the `parse` parameter.
*/
module FireworksClient {
  import opened Wrappers
  import opened PyJson
  import opened OracleText

  const DefaultReason: string := "Không xác định hoặc lỗi đầu ra."
  const FailurePrefix: string := "Lỗi xử lý từ Fireworks: "

  /** `default_result`, in its declaration order. */
  const Defaults: seq<(string, Json)> := [
    ("contains_topic", JBool(false)),
    ("targeting_topic", JBool(false)),
    ("reason", JStr(DefaultReason)),
    ("crisis_keywords", JArr([]))
  ]

  /** The dictionary returned from the `except` branch. */
  function Fallback(msg: string): Dict
  {
    map[
      "contains_topic" := JBool(false),
      "targeting_topic" := JBool(false),
      "reason" := JStr(FailurePrefix + msg),
      "crisis_keywords" := JArr([])
    ]
  }

  /** `response.json().get("choices", [{}])[0].get("message", {}).get("content", "").strip()`,
      with the exception each step can raise. */
  function ReplyContent(body: Json): Result<string>
  {
    var choices :- DotGet(body, "choices", JArr([JObj(map[])]));
    var first :- Index0(choices);
    var message :- DotGet(first, "message", JObj(map[]));
    var content :- DotGet(message, "content", JStr(""));
    DotStrip(content)
  }

  /** The in-place coercions of the filled reply: `bool` on the two flags,
      `str` on the reason, and `[]` for a keyword value that is not a list. */
  function Coerce(filled: Dict, reprContainer: Json -> string): Dict
    requires "contains_topic" in filled && "targeting_topic" in filled && "reason" in filled
  {
    var coerced := filled[
      "contains_topic" := JBool(Truthy(filled["contains_topic"]))][
      "targeting_topic" := JBool(Truthy(filled["targeting_topic"]))][
      "reason" := JStr(PyStr(filled["reason"], reprContainer))];
    if Get(coerced, "crisis_keywords", JArr([])).JArr? then coerced
    else coerced["crisis_keywords" := JArr([])]
  }

  /** The parsed reply after default filling and the in-place coercions. */
  function Normalize(parsed: Dict, reprContainer: Json -> string): Dict
  {
    FilledFields(parsed);
    Coerce(FillDefaults(parsed, Defaults), reprContainer)
  }

  /** The whole post-processing, from the HTTP outcome to the returned dict. */
  function TopicCheck(response: Result<Json>, parse: string -> Result<Dict>, reprContainer: Json -> string): Dict
  {
    match response
    case Failure(e) => Fallback(e)
    case Success(body) =>
      match ReplyContent(body)
      case Failure(e) => Fallback(e)
      case Success(content) =>
        match parse(JsonSlice(content))
        case Failure(e) => Fallback(e)
        case Success(parsed) => Normalize(parsed, reprContainer)
  }

  /** The four keys are always present, with a bool, a bool, a str and a list. */
  predicate WellFormed(r: Dict)
  {
    && "contains_topic" in r && r["contains_topic"].JBool?
    && "targeting_topic" in r && r["targeting_topic"].JBool?
    && "reason" in r && r["reason"].JStr?
    && "crisis_keywords" in r && r["crisis_keywords"].JArr?
  }

  /** After default filling, the four keys are present, each with the
      reply's value or its default, and every key of the reply keeps its value. */
  lemma FilledFields(parsed: Dict)
    ensures var f := FillDefaults(parsed, Defaults);
      && f.Keys == parsed.Keys + {"contains_topic", "targeting_topic", "reason", "crisis_keywords"}
      && f["contains_topic"] == Get(parsed, "contains_topic", JBool(false))
      && f["targeting_topic"] == Get(parsed, "targeting_topic", JBool(false))
      && f["reason"] == Get(parsed, "reason", JStr(DefaultReason))
      && f["crisis_keywords"] == Get(parsed, "crisis_keywords", JArr([]))
      && forall k :: k in parsed ==> f[k] == parsed[k]
  {
    FillDefaultsKeeps(parsed, Defaults);
    assert KeysOf(Defaults) == {"contains_topic", "targeting_topic", "reason", "crisis_keywords"} by {
      assert Defaults[0].0 in KeysOf(Defaults) && Defaults[1].0 in KeysOf(Defaults);
      assert Defaults[2].0 in KeysOf(Defaults) && Defaults[3].0 in KeysOf(Defaults);
    }
    assert "contains_topic" !in parsed ==> FillDefaults(parsed, Defaults)["contains_topic"] == Defaults[0].1;
    assert "targeting_topic" !in parsed ==> FillDefaults(parsed, Defaults)["targeting_topic"] == Defaults[1].1;
    assert "reason" !in parsed ==> FillDefaults(parsed, Defaults)["reason"] == Defaults[2].1;
    assert "crisis_keywords" !in parsed ==> FillDefaults(parsed, Defaults)["crisis_keywords"] == Defaults[3].1;
  }

  /** The coercions touch the four keys only, and leave each of the right
      type. */
  lemma CoerceFields(filled: Dict, reprContainer: Json -> string)
    requires "contains_topic" in filled && "targeting_topic" in filled && "reason" in filled
    requires "crisis_keywords" in filled
    ensures var r := Coerce(filled, reprContainer);
      && r.Keys == filled.Keys
      && r["contains_topic"] == JBool(Truthy(filled["contains_topic"]))
      && r["targeting_topic"] == JBool(Truthy(filled["targeting_topic"]))
      && r["reason"] == JStr(PyStr(filled["reason"], reprContainer))
      && r["crisis_keywords"] == (if filled["crisis_keywords"].JArr? then filled["crisis_keywords"] else JArr([]))
      && (forall k :: k in filled && k !in {"contains_topic", "targeting_topic", "reason", "crisis_keywords"}
            ==> r[k] == filled[k])
  {
  }

  /** Keys the reply supplied keep their (coerced) values, missing ones take
      the defaults, a non-list keyword value becomes `[]` rather than being
      wrapped, and every extra key passes through untouched. */
  lemma NormalizeFields(parsed: Dict, reprContainer: Json -> string)
    ensures var r := Normalize(parsed, reprContainer);
      && WellFormed(r)
      && r.Keys == parsed.Keys + {"contains_topic", "targeting_topic", "reason", "crisis_keywords"}
      && r["contains_topic"] == JBool(Truthy(Get(parsed, "contains_topic", JBool(false))))
      && r["targeting_topic"] == JBool(Truthy(Get(parsed, "targeting_topic", JBool(false))))
      && r["reason"] == JStr(if "reason" in parsed then PyStr(parsed["reason"], reprContainer) else DefaultReason)
      && r["crisis_keywords"] == (if "crisis_keywords" in parsed && parsed["crisis_keywords"].JArr?
                                  then parsed["crisis_keywords"] else JArr([]))
      && (forall k :: k in parsed && k !in {"contains_topic", "targeting_topic", "reason", "crisis_keywords"}
            ==> r[k] == parsed[k])
  {
    FilledFields(parsed);
    var f := FillDefaults(parsed, Defaults);
    CoerceFields(f, reprContainer);
    assert Normalize(parsed, reprContainer) == Coerce(f, reprContainer);
  }

  /** Normalising an already normalised reply changes nothing. */
  lemma NormalizeIdempotent(parsed: Dict, reprContainer: Json -> string)
    ensures Normalize(Normalize(parsed, reprContainer), reprContainer) == Normalize(parsed, reprContainer)
  {
    var r := Normalize(parsed, reprContainer);
    NormalizeFields(parsed, reprContainer);
    NormalizeFields(r, reprContainer);
    var rr := Normalize(r, reprContainer);
    assert rr.Keys == r.Keys;
    forall k | k in r
      ensures rr[k] == r[k]
    {
    }
  }

  /** Every failing step, whether the transport, the reply's structure or the
      JSON text, ends in the fallback carrying that step's message; otherwise
      the parsed reply is normalised. In both cases the result is well formed. */
  lemma TopicCheckOutcome(response: Result<Json>, parse: string -> Result<Dict>, reprContainer: Json -> string)
    ensures var r := TopicCheck(response, parse, reprContainer);
      && WellFormed(r)
      && (response.Failure? ==> r == Fallback(response.error))
      && (response.Success? && ReplyContent(response.value).Failure? ==>
            r == Fallback(ReplyContent(response.value).error))
      && (response.Success? && ReplyContent(response.value).Success? ==>
            var parsed := parse(JsonSlice(ReplyContent(response.value).value));
            (parsed.Failure? ==> r == Fallback(parsed.error))
            && (parsed.Success? ==> r == Normalize(parsed.value, reprContainer)))
  {
    if response.Success? && ReplyContent(response.value).Success? {
      var parsed := parse(JsonSlice(ReplyContent(response.value).value));
      if parsed.Success? {
        NormalizeFields(parsed.value, reprContainer);
      }
    }
  }

  /** `check_targeting_topic` after the HTTP call: slice, parse, the
      default-filling loop, then the coercions made in place. */
  method CheckTargetingTopic(response: Result<Json>, parse: string -> Result<Dict>, reprContainer: Json -> string)
    returns (result: Dict)
    ensures result == TopicCheck(response, parse, reprContainer)
    ensures WellFormed(result)
  {
    TopicCheckOutcome(response, parse, reprContainer);
    if response.Failure? {
      return Fallback(response.error);
    }
    var content := ReplyContent(response.value);
    if content.Failure? {
      return Fallback(content.error);
    }
    var parsed := parse(JsonSlice(content.value));
    if parsed.Failure? {
      return Fallback(parsed.error);
    }
    result := FillMissing(parsed.value, Defaults);
    FilledFields(parsed.value);
    result := result["contains_topic" := JBool(Truthy(result["contains_topic"]))];
    result := result["targeting_topic" := JBool(Truthy(result["targeting_topic"]))];
    result := result["reason" := JStr(PyStr(result["reason"], reprContainer))];
    if !Get(result, "crisis_keywords", JArr([])).JArr? {
      result := result["crisis_keywords" := JArr([])];
    }
  }
}
