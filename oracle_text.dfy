/**
  The post-processing that both topic-targeting clients apply to the text the
  language model returns: cut out the JSON object between the first `{` and
  the last `}`, and fill the keys the reply left out with defaults.
*/
module OracleText {
  import opened PyJson

  /** `content[content.find("{") : content.rfind("}") + 1]` */
  function JsonSlice(content: string): string
  {
    PySlice(content, Find(content, '{'), RFind(content, '}') + 1)
  }

  /** The slice runs from the first `{` to the last `}` inclusive; when the
      braces are missing or out of order it is empty, except that with no `{`
      at all Python's index -1 picks the last character, so a reply ending in
      `}` yields the text "}". Either way, a non-empty slice other than "}"
      is a brace-delimited text. */
  lemma JsonSliceBraces(content: string)
    ensures var i, j := Find(content, '{'), RFind(content, '}');
      && (0 <= i <= j ==> JsonSlice(content) == content[i..j + 1])
      && (0 <= i && j < i ==> JsonSlice(content) == "")
      && (i < 0 ==> JsonSlice(content) == (if j == |content| - 1 && j >= 0 then "}" else ""))
    ensures JsonSlice(content) == "" || JsonSlice(content) == "}"
      || (JsonSlice(content)[0] == '{' && JsonSlice(content)[|JsonSlice(content)| - 1] == '}')
  {
    var i, j := Find(content, '{'), RFind(content, '}');
    if 0 <= i <= j {
      assert JsonSlice(content) == content[i..j + 1];
    }
  }

  /** Keys of a list of (key, default) pairs. */
  function KeysOf(defaults: seq<(string, Json)>): set<string>
  {
    set k | 0 <= k < |defaults| :: defaults[k].0
  }

  /** `for key in default_result: if key not in result: result[key] = default_result[key]` */
  function FillDefaults(d: Dict, defaults: seq<(string, Json)>): Dict
  {
    if defaults == [] then d
    else
      var r := FillDefaults(d, defaults[..|defaults| - 1]);
      var (key, value) := defaults[|defaults| - 1];
      if key in r then r else r[key := value]
  }

  /** Only missing keys take their defaults: keys already present, and any
      extra keys, keep their values. */
  lemma {:induction false} FillDefaultsKeeps(d: Dict, defaults: seq<(string, Json)>)
    requires forall a, b :: 0 <= a < b < |defaults| ==> defaults[a].0 != defaults[b].0
    ensures FillDefaults(d, defaults).Keys == d.Keys + KeysOf(defaults)
    ensures forall k :: k in d ==> FillDefaults(d, defaults)[k] == d[k]
    ensures forall a :: 0 <= a < |defaults| && defaults[a].0 !in d ==>
      FillDefaults(d, defaults)[defaults[a].0] == defaults[a].1
    decreases |defaults|
  {
    if defaults != [] {
      var n := |defaults| - 1;
      var init := defaults[..n];
      FillDefaultsKeeps(d, init);
      var r := FillDefaults(d, init);
      var (key, value) := defaults[n];
      assert FillDefaults(d, defaults) == if key in r then r else r[key := value];
      KeysOfLast(defaults);
      forall a | 0 <= a < n
        ensures init[a] == defaults[a] && defaults[a].0 != key
      {
      }
    }
  }

  lemma KeysOfLast(defaults: seq<(string, Json)>)
    requires defaults != []
    ensures KeysOf(defaults) == KeysOf(defaults[..|defaults| - 1]) + {defaults[|defaults| - 1].0}
  {
    var init := defaults[..|defaults| - 1];
    forall k | k in KeysOf(defaults)
      ensures k in KeysOf(init) + {defaults[|defaults| - 1].0}
    {
      var a :| 0 <= a < |defaults| && defaults[a].0 == k;
      if a < |defaults| - 1 {
        assert init[a] == defaults[a];
      }
    }
    forall k | k in KeysOf(init)
      ensures k in KeysOf(defaults)
    {
      var a :| 0 <= a < |init| && init[a].0 == k;
      assert defaults[a] == init[a];
    }
  }

  /** The default-filling loop, run on the parsed reply. */
  method FillMissing(parsed: Dict, defaults: seq<(string, Json)>) returns (result: Dict)
    ensures result == FillDefaults(parsed, defaults)
  {
    result := parsed;
    for n := 0 to |defaults|
      invariant result == FillDefaults(parsed, defaults[..n])
    {
      var (key, value) := defaults[n];
      assert defaults[..n + 1][..n] == defaults[..n];
      if key !in result {
        result := result[key := value];
      }
    }
    assert defaults[..|defaults|] == defaults;
  }
}
