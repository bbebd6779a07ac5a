/**
  Word-cloud frequency aggregation. From the lower-cased token list, keep the
  tokens that contain `_` (compound words joined by the tokenizer), count
  them, list each once in order of first occurrence, and sort that list by
  descending frequency with a stable sort, so equal frequencies keep their
  first-occurrence order.
*/
module WordCloud {
  import PyJson

  datatype WordFreq = WordFreq(word: string, frequency: nat)

  /** `[w for w in words if '_' in w]` */
  function Meaningful(words: seq<string>): seq<string>
  {
    if words == [] then []
    else Meaningful(words[..|words| - 1]) + (if '_' in words[|words| - 1] then [words[|words| - 1]] else [])
  }

  /** `{"word": ..., "frequency": ...}` for each entry: `item.dict()` of the
      response model, as the services send it. */
  function CloudJson(entries: seq<WordFreq>): (r: seq<PyJson.Json>)
    ensures |r| == |entries|
    ensures forall i :: 0 <= i < |entries| ==>
      r[i] == PyJson.JObj(map["word" := PyJson.JStr(entries[i].word), "frequency" := PyJson.JInt(entries[i].frequency)])
  {
    seq(|entries|, i requires 0 <= i < |entries| =>
      PyJson.JObj(map["word" := PyJson.JStr(entries[i].word), "frequency" := PyJson.JInt(entries[i].frequency)]))
  }

  /** Number of occurrences of `w` in `s`. */
  function Count(s: seq<string>, w: string): nat
  {
    if s == [] then 0
    else Count(s[..|s| - 1], w) + (if s[|s| - 1] == w then 1 else 0)
  }

  /** `s` with repeated words dropped, keeping each first occurrence. */
  function Distinct(s: seq<string>): seq<string>
  {
    if s == [] then []
    else
      var d := Distinct(s[..|s| - 1]);
      if s[|s| - 1] in d then d else d + [s[|s| - 1]]
  }

  /** Index of the first occurrence of `w` in `s`, or `|s|` when absent. */
  function IndexOf(s: seq<string>, w: string): nat
  {
    if s == [] then 0
    else if s[0] == w then 0
    else 1 + IndexOf(s[1..], w)
  }

  /** Each word of `ws` paired with its number of occurrences in `all`. */
  function Tally(ws: seq<string>, all: seq<string>): (r: seq<WordFreq>)
    ensures |r| == |ws|
    ensures forall k :: 0 <= k < |ws| ==> r[k] == WordFreq(ws[k], Count(all, ws[k]))
  {
    if ws == [] then [] else Tally(ws[..|ws| - 1], all) + [WordFreq(ws[|ws| - 1], Count(all, ws[|ws| - 1]))]
  }

  /** Stable insertion of `x` into a list sorted by descending frequency:
      `x` goes after every entry whose frequency is at least its own. */
  function InsertDesc(t: seq<WordFreq>, x: WordFreq): seq<WordFreq>
  {
    if t == [] then [x]
    else if t[|t| - 1].frequency >= x.frequency then t + [x]
    else InsertDesc(t[..|t| - 1], x) + [t[|t| - 1]]
  }

  /** `list.sort(key=frequency, reverse=True)`, which Python keeps stable. */
  function SortDesc(es: seq<WordFreq>): seq<WordFreq>
  {
    if es == [] then [] else InsertDesc(SortDesc(es[..|es| - 1]), es[|es| - 1])
  }

  /** The word cloud of a token list. */
  function WordCloudOf(words: seq<string>): seq<WordFreq>
  {
    var m := Meaningful(words);
    SortDesc(Tally(Distinct(m), m))
  }

  /** Non-increasing frequencies, and among equal frequencies strictly
      increasing `rank` of the word. */
  ghost predicate KeySorted(s: seq<WordFreq>, rank: string -> int)
  {
    forall k, l :: 0 <= k < l < |s| ==>
      s[k].frequency > s[l].frequency
      || (s[k].frequency == s[l].frequency && rank(s[k].word) < rank(s[l].word))
  }

  // ---------------------------------------------------------------------
  // Properties of the sort
  // ---------------------------------------------------------------------

  lemma {:induction false} InsertDescPermutes(t: seq<WordFreq>, x: WordFreq)
    ensures multiset(InsertDesc(t, x)) == multiset(t) + multiset{x}
    decreases |t|
  {
    if t != [] && t[|t| - 1].frequency < x.frequency {
      InsertDescPermutes(t[..|t| - 1], x);
      assert t == t[..|t| - 1] + [t[|t| - 1]];
    }
  }

  /** The sort is a permutation of its input. */
  lemma {:induction false} SortDescPermutes(es: seq<WordFreq>)
    ensures multiset(SortDesc(es)) == multiset(es)
    ensures |SortDesc(es)| == |es|
    decreases |es|
  {
    if es != [] {
      SortDescPermutes(es[..|es| - 1]);
      InsertDescPermutes(SortDesc(es[..|es| - 1]), es[|es| - 1]);
      assert es == es[..|es| - 1] + [es[|es| - 1]];
      assert |multiset(SortDesc(es))| == |multiset(es)|;
    }
  }

  /** The insertion holds exactly the old entries and `x`. */
  lemma InsertDescMembers(t: seq<WordFreq>, x: WordFreq)
    ensures forall e :: e in InsertDesc(t, x) <==> e in t || e == x
  {
    InsertDescPermutes(t, x);
    forall e
      ensures e in InsertDesc(t, x) <==> e in t || e == x
    {
      assert e in InsertDesc(t, x) <==> e in multiset(InsertDesc(t, x));
      assert e in t <==> e in multiset(t);
    }
  }

  /** Every entry of a key-sorted `t` comes before its last entry `y`. */
  lemma BeforeLast(t: seq<WordFreq>, e: WordFreq, rank: string -> int)
    requires t != [] && KeySorted(t, rank) && e in t[..|t| - 1]
    ensures e.frequency > t[|t| - 1].frequency
         || (e.frequency == t[|t| - 1].frequency && rank(e.word) < rank(t[|t| - 1].word))
  {
    var i :| 0 <= i < |t| - 1 && t[..|t| - 1][i] == e;
    assert t[i] == e;
  }

  lemma {:induction false} InsertDescKeySorted(t: seq<WordFreq>, x: WordFreq, rank: string -> int)
    requires KeySorted(t, rank)
    requires forall e :: e in t ==> rank(e.word) < rank(x.word)
    ensures KeySorted(InsertDesc(t, x), rank)
    decreases |t|
  {
    if t != [] && t[|t| - 1].frequency < x.frequency {
      var init, y := t[..|t| - 1], t[|t| - 1];
      assert KeySorted(init, rank);
      assert forall e :: e in init ==> e in t;
      InsertDescKeySorted(init, x, rank);
      InsertDescMembers(init, x);
      var r := InsertDesc(init, x);
      forall k | 0 <= k < |r|
        ensures r[k].frequency > y.frequency
             || (r[k].frequency == y.frequency && rank(r[k].word) < rank(y.word))
      {
        if r[k] != x {
          BeforeLast(t, r[k], rank);
        }
      }
      assert InsertDesc(t, x) == r + [y];
      KeySortedAppend(r, y, rank);
    }
  }

  lemma KeySortedAppend(r: seq<WordFreq>, y: WordFreq, rank: string -> int)
    requires KeySorted(r, rank)
    requires forall k :: 0 <= k < |r| ==>
      r[k].frequency > y.frequency || (r[k].frequency == y.frequency && rank(r[k].word) < rank(y.word))
    ensures KeySorted(r + [y], rank)
  {
    var s := r + [y];
    forall k, l | 0 <= k < l < |s|
      ensures s[k].frequency > s[l].frequency
           || (s[k].frequency == s[l].frequency && rank(s[k].word) < rank(s[l].word))
    {
      assert s[k] == r[k];
      if l < |r| {
        assert s[l] == r[l];
      }
    }
  }

  /** A rank-increasing input comes out sorted by descending frequency,
      with equal frequencies in input (rank) order: the sort is stable. */
  lemma {:induction false} SortDescKeySorted(es: seq<WordFreq>, rank: string -> int)
    requires forall k, l :: 0 <= k < l < |es| ==> rank(es[k].word) < rank(es[l].word)
    ensures KeySorted(SortDesc(es), rank)
    decreases |es|
  {
    if es != [] {
      var init, x := es[..|es| - 1], es[|es| - 1];
      SortDescKeySorted(init, rank);
      SortDescPermutes(init);
      forall e | e in SortDesc(init)
        ensures rank(e.word) < rank(x.word)
      {
        assert e in multiset(init);
        var i :| 0 <= i < |init| && init[i] == e;
      }
      InsertDescKeySorted(SortDesc(init), x, rank);
    }
  }

  // ---------------------------------------------------------------------
  // Properties of filtering, counting and de-duplication
  // ---------------------------------------------------------------------

  lemma {:induction false} MeaningfulMembers(words: seq<string>)
    ensures forall w :: w in Meaningful(words) <==> w in words && '_' in w
    decreases |words|
  {
    if words != [] {
      MeaningfulMembers(words[..|words| - 1]);
      assert words == words[..|words| - 1] + [words[|words| - 1]];
    }
  }

  lemma {:induction false} DistinctMembers(s: seq<string>)
    ensures forall w :: w in Distinct(s) <==> w in s
    ensures forall k, l :: 0 <= k < l < |Distinct(s)| ==> Distinct(s)[k] != Distinct(s)[l]
    decreases |s|
  {
    if s != [] {
      DistinctMembers(s[..|s| - 1]);
      assert s == s[..|s| - 1] + [s[|s| - 1]];
    }
  }

  lemma {:induction false} IndexOfAppend(s: seq<string>, x: string, w: string)
    ensures w in s ==> IndexOf(s + [x], w) == IndexOf(s, w) < |s|
    ensures w !in s && w == x ==> IndexOf(s + [x], w) == |s|
    decreases |s|
  {
    if s != [] {
      assert (s + [x])[1..] == s[1..] + [x];
      assert s[0] != w ==> (w in s <==> w in s[1..]);
      IndexOfAppend(s[1..], x, w);
    }
  }

  lemma {:induction false} CountAbsent(s: seq<string>, w: string)
    requires w !in s
    ensures Count(s, w) == 0
    decreases |s|
  {
    if s != [] {
      CountAbsent(s[..|s| - 1], w);
    }
  }

  lemma CountAppend(s: seq<string>, x: string, w: string)
    ensures Count(s + [x], w) == Count(s, w) + (if x == w then 1 else 0)
  {
    assert (s + [x])[..|s|] == s;
  }

  /** De-duplication keeps first-occurrence order. */
  lemma {:induction false} DistinctInFirstOccurrenceOrder(s: seq<string>)
    ensures forall k, l :: 0 <= k < l < |Distinct(s)| ==> IndexOf(s, Distinct(s)[k]) < IndexOf(s, Distinct(s)[l])
    decreases |s|
  {
    if s != [] {
      var init, x := s[..|s| - 1], s[|s| - 1];
      assert s == init + [x];
      DistinctInFirstOccurrenceOrder(init);
      DistinctMembers(init);
      var d := Distinct(init);
      forall w | w in d
        ensures IndexOf(s, w) == IndexOf(init, w) < |init|
      {
        IndexOfAppend(init, x, w);
      }
      if x !in d {
        IndexOfAppend(init, x, x);
      }
    }
  }

  // ---------------------------------------------------------------------
  // What the word cloud promises
  // ---------------------------------------------------------------------

  /** Every output word contains `_`, and every `_`-token of the input is in
      the output. */
  lemma WordCloudWords(words: seq<string>)
    ensures forall k :: 0 <= k < |WordCloudOf(words)| ==> '_' in WordCloudOf(words)[k].word
    ensures forall w :: w in words && '_' in w ==> exists k :: 0 <= k < |WordCloudOf(words)| && WordCloudOf(words)[k].word == w
  {
    var m := Meaningful(words);
    var es := Tally(Distinct(m), m);
    var out := WordCloudOf(words);
    MeaningfulMembers(words);
    DistinctMembers(m);
    SortDescPermutes(es);
    forall k | 0 <= k < |out|
      ensures '_' in out[k].word
    {
      assert out[k] in multiset(es);
    }
    forall w | w in words && '_' in w
      ensures exists k :: 0 <= k < |out| && out[k].word == w
    {
      var i :| 0 <= i < |Distinct(m)| && Distinct(m)[i] == w;
      assert es[i] in multiset(out);
    }
  }

  /** Each frequency is the number of occurrences of its word among the
      `_`-tokens. */
  lemma WordCloudFrequencies(words: seq<string>)
    ensures forall k :: 0 <= k < |WordCloudOf(words)| ==>
      WordCloudOf(words)[k].frequency == Count(Meaningful(words), WordCloudOf(words)[k].word)
  {
    var m := Meaningful(words);
    var es := Tally(Distinct(m), m);
    SortDescPermutes(es);
    forall k | 0 <= k < |WordCloudOf(words)|
      ensures WordCloudOf(words)[k].frequency == Count(m, WordCloudOf(words)[k].word)
    {
      assert WordCloudOf(words)[k] in multiset(es);
    }
  }

  /** Frequencies never increase along the output, and equal frequencies
      appear in order of the words' first occurrence among the `_`-tokens. */
  lemma WordCloudOrder(words: seq<string>)
    ensures forall k, l :: 0 <= k < l < |WordCloudOf(words)| ==>
      WordCloudOf(words)[k].frequency >= WordCloudOf(words)[l].frequency
    ensures forall k, l :: 0 <= k < l < |WordCloudOf(words)| && WordCloudOf(words)[k].frequency == WordCloudOf(words)[l].frequency ==>
      IndexOf(Meaningful(words), WordCloudOf(words)[k].word) < IndexOf(Meaningful(words), WordCloudOf(words)[l].word)
  {
    var m := Meaningful(words);
    var rank := w => IndexOf(m, w);
    DistinctInFirstOccurrenceOrder(m);
    SortDescKeySorted(Tally(Distinct(m), m), rank);
  }

  /** No word appears twice in the output. */
  lemma WordCloudNoDuplicates(words: seq<string>)
    ensures forall k, l :: 0 <= k < l < |WordCloudOf(words)| ==> WordCloudOf(words)[k].word != WordCloudOf(words)[l].word
  {
    WordCloudOrder(words);
    WordCloudFrequencies(words);
  }

  /** Where the stable insertion puts `x`: after the entries of frequency at
      least its own, before the trailing run of smaller ones. */
  lemma {:induction false} InsertDescAt(t: seq<WordFreq>, x: WordFreq, j: nat)
    requires j <= |t|
    requires j > 0 ==> t[j - 1].frequency >= x.frequency
    requires forall k :: j <= k < |t| ==> t[k].frequency < x.frequency
    ensures InsertDesc(t, x) == t[..j] + [x] + t[j..]
    decreases |t|
  {
    if j < |t| {
      var init := t[..|t| - 1];
      assert init[..j] == t[..j];
      InsertDescAt(init, x, j);
      assert t[j..] == init[j..] + [t[|t| - 1]];
    } else {
      assert t[..j] == t;
    }
  }

  /** Swapping `x` with the entry before it moves the gap in the prefix one
      place left. */
  lemma SwapStep(prefix: seq<WordFreq>, x: WordFreq, rest: seq<WordFreq>, j: nat, before: seq<WordFreq>)
    requires 0 < j <= |prefix|
    requires before == prefix[..j] + [x] + prefix[j..] + rest
    ensures before[j - 1 := x][j := prefix[j - 1]] == prefix[..j - 1] + [x] + prefix[j - 1..] + rest
  {
    var y := prefix[j - 1];
    assert prefix[..j] == prefix[..j - 1] + [y];
    assert prefix[j - 1..] == [y] + prefix[j..];
    var after := prefix[..j - 1] + [x] + prefix[j - 1..] + rest;
    assert |before[j - 1 := x][j := y]| == |after|;
    forall k | 0 <= k < |after|
      ensures before[j - 1 := x][j := y][k] == after[k]
    {
      if k < j - 1 {
        assert before[k] == prefix[k] && after[k] == prefix[k];
      } else if k > j {
        assert before[k] == after[k];
      }
    }
  }

  // ---------------------------------------------------------------------
  // The imperative code of litserve/word_cloud.py
  // ---------------------------------------------------------------------

  /** One pass of the insertion sort: moves `a[i]` left past every entry of
      strictly smaller frequency. */
  method InsertAt(a: array<WordFreq>, i: nat)
    requires i < a.Length
    modifies a
    ensures a[..] == InsertDesc(old(a[..i]), old(a[i])) + old(a[i + 1..])
  {
    ghost var prefix, x, rest := a[..i], a[i], a[i + 1..];
    assert prefix[..i] == prefix && prefix[i..] == [];
    assert a[..] == prefix[..i] + [x] + prefix[i..] + rest;
    var j := i;
    while j > 0 && a[j - 1].frequency < a[j].frequency
      invariant 0 <= j <= i
      invariant a[..] == prefix[..j] + [x] + prefix[j..] + rest
      invariant forall k :: j <= k < i ==> prefix[k].frequency < x.frequency
    {
      ghost var before := a[..];
      assert a[j] == x && a[j - 1] == prefix[j - 1];
      a[j - 1], a[j] := a[j], a[j - 1];
      assert a[..] == before[j - 1 := x][j := prefix[j - 1]];
      SwapStep(prefix, x, rest, j, before);
      j := j - 1;
    }
    InsertDescAt(prefix, x, j);
    assert a[..] == (prefix[..j] + [x] + prefix[j..]) + rest;
  }

  /** `ordered_word_cloud.sort(key=lambda x: x.frequency, reverse=True)`,
      as a stable insertion sort in place. */
  method SortByFrequency(a: array<WordFreq>)
    modifies a
    ensures a[..] == SortDesc(old(a[..]))
  {
    ghost var orig := a[..];
    for i := 0 to a.Length
      invariant a[..i] == SortDesc(orig[..i])
      invariant a[i..] == orig[i..]
    {
      assert orig[..i + 1] == orig[..i] + [orig[i]];
      assert a[i] == orig[i] && a[i + 1..] == orig[i + 1..];
      InsertAt(a, i);
      InsertDescPermutes(SortDesc(orig[..i]), orig[i]);
      assert |InsertDesc(SortDesc(orig[..i]), orig[i])| == i + 1;
      assert a[..i + 1] == SortDesc(orig[..i + 1]);
    }
    assert a[..] == a[..a.Length];
    assert orig == orig[..a.Length];
  }

  /** `Distinct` over one more word. */
  lemma DistinctStep(m: seq<string>, i: nat)
    requires i < |m|
    ensures Distinct(m[..i + 1]) == if m[i] in Distinct(m[..i]) then Distinct(m[..i]) else Distinct(m[..i]) + [m[i]]
  {
    var p := m[..i + 1];
    assert p[..|p| - 1] == m[..i] && p[|p| - 1] == m[i];
  }

  lemma TallyAppend(ws: seq<string>, w: string, all: seq<string>)
    ensures Tally(ws + [w], all) == Tally(ws, all) + [WordFreq(w, Count(all, w))]
  {
    assert (ws + [w])[..|ws|] == ws;
  }

  /** The words seen before position `i + 1`. */
  lemma SeenStep(m: seq<string>, i: nat)
    requires i < |m|
    ensures (set k | 0 <= k < i + 1 :: m[k]) == (set k | 0 <= k < i :: m[k]) + {m[i]}
    ensures m[i] in (set k | 0 <= k < i :: m[k]) <==> m[i] in m[..i]
  {
    if m[i] in m[..i] {
      var k :| 0 <= k < i && m[..i][k] == m[i];
      assert m[k] == m[i];
    }
  }

  /** The `seen` pass over one more word: a word already seen changes
      nothing, a new one is appended with its count. */
  lemma FirstOccurrenceStep(m: seq<string>, i: nat, seen: set<string>)
    requires i < |m| && seen == set k | 0 <= k < i :: m[k]
    ensures (set k | 0 <= k < i + 1 :: m[k]) == seen + {m[i]}
    ensures m[i] in seen ==> Tally(Distinct(m[..i + 1]), m) == Tally(Distinct(m[..i]), m)
    ensures m[i] !in seen ==>
      Tally(Distinct(m[..i + 1]), m) == Tally(Distinct(m[..i]), m) + [WordFreq(m[i], Count(m, m[i]))]
  {
    SeenStep(m, i);
    DistinctMembers(m[..i]);
    DistinctStep(m, i);
    TallyAppend(Distinct(m[..i]), m[i], m);
  }

  /** The counting pass that fills `word_cloud_dict`. */
  method CountWords(meaningful: seq<string>) returns (counts: map<string, nat>)
    ensures forall w :: w in counts <==> w in meaningful
    ensures forall w :: w in counts ==> counts[w] == Count(meaningful, w)
  {
    counts := map[];
    for i := 0 to |meaningful|
      invariant forall w :: w in counts <==> w in meaningful[..i]
      invariant forall w :: w in counts ==> counts[w] == Count(meaningful[..i], w)
    {
      var w := meaningful[i];
      assert meaningful[..i + 1] == meaningful[..i] + [w];
      forall v ensures Count(meaningful[..i + 1], v) == Count(meaningful[..i], v) + (if w == v then 1 else 0) {
        CountAppend(meaningful[..i], w, v);
      }
      if w !in counts {
        CountAbsent(meaningful[..i], w);
        counts := counts[w := 1];
      } else {
        counts := counts[w := counts[w] + 1];
      }
    }
    assert meaningful[..|meaningful|] == meaningful;
  }

  /** The `seen`-set pass that keeps the first entry of each word. */
  method FirstOccurrences(entries: seq<WordFreq>, meaningful: seq<string>) returns (ordered: seq<WordFreq>)
    requires |entries| == |meaningful|
    requires forall k :: 0 <= k < |entries| ==> entries[k] == WordFreq(meaningful[k], Count(meaningful, meaningful[k]))
    ensures ordered == Tally(Distinct(meaningful), meaningful)
  {
    var seen: set<string> := {};
    ordered := [];
    for i := 0 to |entries|
      invariant seen == set k | 0 <= k < i :: meaningful[k]
      invariant ordered == Tally(Distinct(meaningful[..i]), meaningful)
    {
      var item := entries[i];
      FirstOccurrenceStep(meaningful, i, seen);
      if item.word !in seen {
        ordered := ordered + [item];
        seen := seen + {item.word};
      }
    }
    assert meaningful[..|entries|] == meaningful;
  }

  /** `generate_word_cloud` from the lower-cased token list onward. */
  method GenerateWordCloud(words: seq<string>) returns (cloud: seq<WordFreq>)
    ensures cloud == WordCloudOf(words)
  {
    var meaningful := Meaningful(words);
    var counts := CountWords(meaningful);

    // word_cloud: one entry per meaningful word, duplicates included
    var entries: seq<WordFreq> := [];
    for i := 0 to |meaningful|
      invariant |entries| == i
      invariant forall k :: 0 <= k < i ==> entries[k] == WordFreq(meaningful[k], Count(meaningful, meaningful[k]))
    {
      entries := entries + [WordFreq(meaningful[i], counts[meaningful[i]])];
    }

    var ordered := FirstOccurrences(entries, meaningful);
    var a := new WordFreq[|ordered|](k requires 0 <= k < |ordered| => ordered[k]);
    assert a[..] == ordered;
    SortByFrequency(a);
    cloud := a[..];
  }
}
