/**
  The post-processing half of `check_targeting_topic` in the sentiment
  service: the reply of the Gemini `generateContent` endpoint is reduced to a
  dictionary with `contains_topic`, `targeting_topic` and `reason`, or to a
  fixed fallback when any step raises. Unlike the Fireworks client, neither
  the defaults nor the fallback mention `crisis_keywords`.
  The HTTP exchange is the `response` parameter, `json.loads` the `parse`
  parameter.
*/
module GeminiClient {
  import opened Wrappers
  import opened PyJson
  import opened OracleText

  const DefaultReason: string := "Không xác định hoặc lỗi đầu ra."
  const FailurePrefix: string := "Lỗi xử lý đầu ra từ Gemini: "

  /** `default_result`, in its declaration order. */
  const Defaults: seq<(string, Json)> := [
    ("contains_topic", JBool(false)),
    ("targeting_topic", JBool(false)),
    ("reason", JStr(DefaultReason))
  ]

  /** The dictionary returned from the `except` branch. */
  function Fallback(msg: string): Dict
  {
    map[
      "contains_topic" := JBool(false),
      "targeting_topic" := JBool(false),
      "reason" := JStr(FailurePrefix + msg)
    ]
  }

  /** `response.json().get("candidates", [{}])[0].get("content", {}).get("parts", [{}])[0].get("text", "").strip()`,
      with the exception each step can raise. */
  function ReplyText(body: Json): Result<string>
  {
    var candidates :- DotGet(body, "candidates", JArr([JObj(map[])]));
    var first :- Index0(candidates);
    var content :- DotGet(first, "content", JObj(map[]));
    var parts :- DotGet(content, "parts", JArr([JObj(map[])]));
    var part :- Index0(parts);
    var text :- DotGet(part, "text", JStr(""));
    DotStrip(text)
  }

  /** The parsed reply after default filling and the in-place coercions. */
  function Normalize(parsed: Dict, reprContainer: Json -> string): Dict
  {
    var filled := FillDefaults(parsed, Defaults);
    FillDefaultsKeeps(parsed, Defaults);
    assert "contains_topic" == Defaults[0].0 && "targeting_topic" == Defaults[1].0;
    assert "reason" == Defaults[2].0;
    filled[
      "contains_topic" := JBool(Truthy(filled["contains_topic"]))][
      "targeting_topic" := JBool(Truthy(filled["targeting_topic"]))][
      "reason" := JStr(PyStr(filled["reason"], reprContainer))]
  }

  /** The whole post-processing, from the HTTP outcome to the returned dict. */
  function TopicCheck(response: Result<Json>, parse: string -> Result<Dict>, reprContainer: Json -> string): Dict
  {
    match response
    case Failure(e) => Fallback(e)
    case Success(body) =>
      match ReplyText(body)
      case Failure(e) => Fallback(e)
      case Success(text) =>
        match parse(JsonSlice(text))
        case Failure(e) => Fallback(e)
        case Success(parsed) => Normalize(parsed, reprContainer)
  }

  /** The three defaulted keys are present, with a bool, a bool and a str. */
  predicate WellFormed(r: Dict)
  {
    && "contains_topic" in r && r["contains_topic"].JBool?
    && "targeting_topic" in r && r["targeting_topic"].JBool?
    && "reason" in r && r["reason"].JStr?
  }

  /** Keys the reply supplied keep their (coerced) values, missing ones take
      the defaults, and every other key, `crisis_keywords` included, passes
      through untouched: it is neither defaulted nor type-checked. */
  lemma NormalizeFields(parsed: Dict, reprContainer: Json -> string)
    ensures var r := Normalize(parsed, reprContainer);
      && WellFormed(r)
      && r.Keys == parsed.Keys + {"contains_topic", "targeting_topic", "reason"}
      && r["contains_topic"] == JBool(Truthy(Get(parsed, "contains_topic", JBool(false))))
      && r["targeting_topic"] == JBool(Truthy(Get(parsed, "targeting_topic", JBool(false))))
      && r["reason"] == JStr(if "reason" in parsed then PyStr(parsed["reason"], reprContainer) else DefaultReason)
      && ("crisis_keywords" in r <==> "crisis_keywords" in parsed)
      && (forall k :: k in parsed && k !in {"contains_topic", "targeting_topic", "reason"} ==> r[k] == parsed[k])
  {
    FillDefaultsKeeps(parsed, Defaults);
    assert KeysOf(Defaults) == {"contains_topic", "targeting_topic", "reason"} by {
      assert Defaults[0].0 in KeysOf(Defaults) && Defaults[1].0 in KeysOf(Defaults);
      assert Defaults[2].0 in KeysOf(Defaults);
    }
    assert "contains_topic" !in parsed ==> FillDefaults(parsed, Defaults)["contains_topic"] == Defaults[0].1;
    assert "targeting_topic" !in parsed ==> FillDefaults(parsed, Defaults)["targeting_topic"] == Defaults[1].1;
    assert "reason" !in parsed ==> FillDefaults(parsed, Defaults)["reason"] == Defaults[2].1;
  }

  /** Every failing step ends in the fallback carrying that step's message,
      and the fallback has no `crisis_keywords` key; otherwise the parsed reply
      is normalised. In both cases the result is well formed. */
  lemma TopicCheckOutcome(response: Result<Json>, parse: string -> Result<Dict>, reprContainer: Json -> string)
    ensures var r := TopicCheck(response, parse, reprContainer);
      && WellFormed(r)
      && (response.Failure? ==> r == Fallback(response.error) && "crisis_keywords" !in r)
      && (response.Success? && ReplyText(response.value).Failure? ==>
            r == Fallback(ReplyText(response.value).error) && "crisis_keywords" !in r)
      && (response.Success? && ReplyText(response.value).Success? ==>
            var parsed := parse(JsonSlice(ReplyText(response.value).value));
            (parsed.Failure? ==> r == Fallback(parsed.error) && "crisis_keywords" !in r)
            && (parsed.Success? ==> r == Normalize(parsed.value, reprContainer)))
  {
    if response.Success? && ReplyText(response.value).Success? {
      var parsed := parse(JsonSlice(ReplyText(response.value).value));
      if parsed.Success? {
        NormalizeFields(parsed.value, reprContainer);
      }
    }
  }

  /** `check_targeting_topic` after the HTTP call: slice, parse, the
      default-filling loop, then the coercions made in place. */
  method CheckTargetingTopic(response: Result<Json>, parse: string -> Result<Dict>, reprContainer: Json -> string)
    returns (result: Dict)
    ensures result == TopicCheck(response, parse, reprContainer)
    ensures WellFormed(result)
  {
    TopicCheckOutcome(response, parse, reprContainer);
    if response.Failure? {
      return Fallback(response.error);
    }
    var text := ReplyText(response.value);
    if text.Failure? {
      return Fallback(text.error);
    }
    var parsed := parse(JsonSlice(text.value));
    if parsed.Failure? {
      return Fallback(parsed.error);
    }
    result := FillMissing(parsed.value, Defaults);
    FillDefaultsKeeps(parsed.value, Defaults);
    assert "contains_topic" == Defaults[0].0 && "targeting_topic" == Defaults[1].0;
    assert "reason" == Defaults[2].0;
    result := result["contains_topic" := JBool(Truthy(result["contains_topic"]))];
    result := result["targeting_topic" := JBool(Truthy(result["targeting_topic"]))];
    result := result["reason" := JStr(PyStr(result["reason"], reprContainer))];
  }
}
