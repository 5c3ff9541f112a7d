/** Counting the layers of each instrument (`InstrumentLayers`), the dictionary
    built from those counts (`InstrumentLayersDct`) and the highest instrument id
    (`MaxInstrumentID`), in CreateDrumkit of createH2kit_V3.py. */
module Aggregation {
  import opened Samples
  import opened Ordering

  /** The instrument ids of the samples, in order: `SampleArray[i][1]`. */
  function InstrumentIds(s: seq<Sample>): seq<int> {
    seq(|s|, i requires 0 <= i < |s| => s[i].instrument)
  }

  /** The number of samples whose instrument id is `p`. */
  function CountId(s: seq<Sample>, p: int): nat {
    |Matching(s, InstrumentField, p)|
  }

  /** The distinct values of `ids`, each kept where it first occurs. */
  function FirstOccurrences(ids: seq<int>): (r: seq<int>)
    ensures forall x :: x in r <==> x in ids
    ensures forall i, j :: 0 <= i < j < |r| ==> r[i] != r[j]
  {
    if ids == [] then []
    else
      var init := ids[..|ids| - 1];
      assert ids == init + [ids[|ids| - 1]];
      var p := FirstOccurrences(init);
      if ids[|ids| - 1] in p then p else p + [ids[|ids| - 1]]
  }

  /** The first occurrence of an earlier value precedes every occurrence of a later one. */
  lemma {:induction false} FirstOccurrenceOrder(ids: seq<int>, a: nat, b: nat, j: nat)
    requires a < b < |FirstOccurrences(ids)| && j < |ids|
    requires ids[j] == FirstOccurrences(ids)[b]
    ensures FirstOccurrences(ids)[a] in ids[..j]
  {
    var r := FirstOccurrences(ids);
    var init := ids[..|ids| - 1];
    var p := FirstOccurrences(init);
    if j == |ids| - 1 {
      if ids[j] in p {
        var b' :| 0 <= b' < |p| && p[b'] == ids[j];
        assert r == p;
        assert a < b';
        assert r[a] in init;
      } else {
        assert r == p + [ids[j]] && b == |p|;
        assert r[a] == p[a];
        assert r[a] in init;
      }
      assert ids[..j] == init;
    } else {
      assert ids[j] == init[j];
      assert r[..|p|] == p;
      FirstOccurrenceOrder(init, a, b, j);
      assert init[..j] == ids[..j];
    }
  }

  /** One `(id, count)` pair per id of `ids`, the count taken over all of `s`. */
  function Pairs(ids: seq<int>, s: seq<Sample>): seq<(int, nat)> {
    seq(|ids|, k requires 0 <= k < |ids| => (ids[k], CountId(s, ids[k])))
  }

  /** `InstrumentLayers` once the counting loop is done. */
  function LayerCounts(s: seq<Sample>): seq<(int, nat)> {
    Pairs(FirstOccurrences(InstrumentIds(s)), s)
  }

  /** The ids of a list of pairs: `foo[0] for foo in InstrumentLayers`. */
  function PairIds(pairs: seq<(int, nat)>): seq<int> {
    seq(|pairs|, k requires 0 <= k < |pairs| => pairs[k].0)
  }

  /** The pairs hold each id of the samples exactly once, in first-occurrence
      order, with the number of samples that carry it. */
  lemma LayerCountsMeaning(s: seq<Sample>)
    ensures PairIds(LayerCounts(s)) == FirstOccurrences(InstrumentIds(s))
    ensures forall p :: p in PairIds(LayerCounts(s)) <==> p in InstrumentIds(s)
    ensures forall k :: 0 <= k < |LayerCounts(s)| ==>
              LayerCounts(s)[k].1 == CountId(s, LayerCounts(s)[k].0) >= 1
  {
    var lc := LayerCounts(s);
    forall k | 0 <= k < |lc| ensures lc[k].1 >= 1 {
      var p := lc[k].0;
      assert p in InstrumentIds(s);
      var i :| 0 <= i < |s| && s[i].instrument == p;
      MatchingSplit(s, i, InstrumentField, p);
    }
  }

  /** A sample at index `i` splits the samples sharing its key around it. */
  lemma MatchingSplit(s: seq<Sample>, i: nat, f: Field, k: int)
    requires i < |s|
    ensures Matching(s, f, k) == Matching(s[..i], f, k) + Matching(s[i..], f, k)
    ensures Key(s[i], f) == k ==> |Matching(s, f, k)| > |Matching(s[..i], f, k)|
  {
    assert s == s[..i] + s[i..];
    MatchingAppend(s[..i], s[i..], f, k);
  }

  lemma PairsMember(ids: seq<int>, s: seq<Sample>, p: int)
    ensures (p, CountId(s, p)) in Pairs(ids, s) <==> p in ids
  {
    if p in ids {
      var k :| 0 <= k < |ids| && ids[k] == p;
      assert Pairs(ids, s)[k] == (p, CountId(s, p));
    }
  }

  /** The counting loop: for each sample, count the samples with its id, and
      keep the pair unless it is already there. */
  method CountLayers(s: seq<Sample>) returns (pairs: seq<(int, nat)>)
    ensures pairs == LayerCounts(s)
  {
    pairs := [];
    var i := 0;
    while i < |s|
      invariant 0 <= i <= |s|
      invariant pairs == Pairs(FirstOccurrences(InstrumentIds(s[..i])), s)
    {
      var layerCount := 0;
      var j := 0;
      while j < |s|
        invariant 0 <= j <= |s|
        invariant layerCount == |Matching(s[..j], InstrumentField, s[i].instrument)|
      {
        MatchingSnoc(s, j, InstrumentField, s[i].instrument);
        if s[j].instrument == s[i].instrument {
          layerCount := layerCount + 1;
        }
        j := j + 1;
      }
      assert s[..j] == s;
      var foo := (s[i].instrument, layerCount);
      ghost var before := FirstOccurrences(InstrumentIds(s[..i]));
      assert InstrumentIds(s[..i + 1]) == InstrumentIds(s[..i]) + [s[i].instrument];
      PairsMember(before, s, s[i].instrument);
      if foo !in pairs {
        pairs := pairs + [foo];
        assert Pairs(before + [s[i].instrument], s) == Pairs(before, s) + [foo];
      }
      i := i + 1;
    }
    assert s[..i] == s;
  }

  /** `dct[id] = count` for each pair in turn: a later pair overwrites an earlier one. */
  function PairsToMap(pairs: seq<(int, nat)>): map<int, nat> {
    if pairs == [] then map[]
    else PairsToMap(pairs[..|pairs| - 1])[pairs[|pairs| - 1].0 := pairs[|pairs| - 1].1]
  }

  /** The loop that fills `InstrumentLayersDct`. */
  method LayerDictionary(pairs: seq<(int, nat)>) returns (dct: map<int, nat>)
    ensures dct == PairsToMap(pairs)
  {
    dct := map[];
    var i := 0;
    while i < |pairs|
      invariant 0 <= i <= |pairs|
      invariant dct == PairsToMap(pairs[..i])
    {
      assert pairs[..i + 1][..i] == pairs[..i];
      dct := dct[pairs[i].0 := pairs[i].1];
      i := i + 1;
    }
    assert pairs[..i] == pairs;
  }

  /** Pairs whose counts are the sample counts of their ids give a dictionary
      whose keys are their ids and whose values are those counts. */
  lemma {:induction false} PairsToMapCounts(pairs: seq<(int, nat)>, s: seq<Sample>)
    requires forall k :: 0 <= k < |pairs| ==> pairs[k].1 == CountId(s, pairs[k].0)
    ensures forall p :: p in PairsToMap(pairs) <==> p in PairIds(pairs)
    ensures forall p :: p in PairsToMap(pairs) ==> PairsToMap(pairs)[p] == CountId(s, p)
  {
    if pairs != [] {
      var init := pairs[..|pairs| - 1];
      PairsToMapCounts(init, s);
      assert PairIds(pairs) == PairIds(init) + [pairs[|pairs| - 1].0];
    }
  }

  /** `InstrumentLayersDct`: each id of the samples maps to its number of samples. */
  lemma LayerDictionaryMeaning(s: seq<Sample>)
    ensures forall p :: p in PairsToMap(LayerCounts(s)) <==> p in InstrumentIds(s)
    ensures forall p :: p in PairsToMap(LayerCounts(s)) ==> PairsToMap(LayerCounts(s))[p] == CountId(s, p)
  {
    LayerCountsMeaning(s);
    PairsToMapCounts(LayerCounts(s), s);
  }

  /** Python's order on `(int, int)` tuples. */
  predicate PairLe(a: (int, nat), b: (int, nat)) {
    a.0 < b.0 || (a.0 == b.0 && a.1 <= b.1)
  }

  /** `max(InstrumentLayers)`; Python raises ValueError on an empty list. */
  function MaxPair(pairs: seq<(int, nat)>): (r: (int, nat))
    requires |pairs| >= 1
    ensures r in pairs
    ensures forall k :: 0 <= k < |pairs| ==> PairLe(pairs[k], r)
  {
    if |pairs| == 1 then pairs[0]
    else
      var init := pairs[..|pairs| - 1];
      assert pairs == init + [pairs[|pairs| - 1]];
      var m := MaxPair(init);
      if PairLe(pairs[|pairs| - 1], m) then m else pairs[|pairs| - 1]
  }

  /** `MaxInstrumentID` is the largest instrument id among the samples. */
  lemma MaxInstrumentIdMeaning(s: seq<Sample>)
    requires |s| >= 1
    ensures |LayerCounts(s)| >= 1
    ensures MaxPair(LayerCounts(s)).0 in InstrumentIds(s)
    ensures forall i :: 0 <= i < |s| ==> s[i].instrument <= MaxPair(LayerCounts(s)).0
  {
    var lc := LayerCounts(s);
    LayerCountsMeaning(s);
    assert InstrumentIds(s)[0] in PairIds(lc);
    var m := MaxPair(lc);
    var k :| 0 <= k < |lc| && lc[k] == m;
    assert m.0 == PairIds(lc)[k];
    forall i | 0 <= i < |s| ensures s[i].instrument <= m.0 {
      assert InstrumentIds(s)[i] in PairIds(lc);
      var k' :| 0 <= k' < |lc| && PairIds(lc)[k'] == s[i].instrument;
      assert PairLe(lc[k'], m);
    }
  }

  /** An id has samples exactly when it is one of the samples' ids. */
  lemma CountIdPositive(s: seq<Sample>, p: int)
    ensures CountId(s, p) > 0 <==> p in InstrumentIds(s)
  {
    if p in InstrumentIds(s) {
      var i :| 0 <= i < |s| && s[i].instrument == p;
      MatchingSplit(s, i, InstrumentField, p);
    }
    if CountId(s, p) > 0 {
      var x := Matching(s, InstrumentField, p)[0];
      MatchingMember(s, InstrumentField, p);
      assert x in Matching(s, InstrumentField, p);
      assert x.instrument == p;
      var i :| 0 <= i < |s| && s[i] == x;
      assert InstrumentIds(s)[i] == p;
    }
  }

  /** The matching samples are samples of `s`. */
  lemma {:induction false} MatchingMember(s: seq<Sample>, f: Field, k: int)
    ensures forall x :: x in Matching(s, f, k) ==> x in s
  {
    if s != [] {
      MatchingMember(s[1..], f, k);
    }
  }

  /** Among samples ordered by (instrument id, layer id), those of one
      instrument are ordered by layer id. */
  lemma {:induction false} MatchingLexSorted(s: seq<Sample>, k: int)
    requires LexSorted(s)
    ensures SortedBy(Matching(s, InstrumentField, k), LayerField)
  {
    if s != [] {
      MatchingLexSorted(s[1..], k);
      var rest := Matching(s[1..], InstrumentField, k);
      if s[0].instrument == k {
        MatchingMember(s[1..], InstrumentField, k);
        forall j | 0 <= j < |rest| ensures s[0].layer <= rest[j].layer {
          assert rest[j] in s[1..];
          var i :| 0 <= i < |s[1..]| && s[1..][i] == rest[j];
          assert LexLe(s[0], s[i + 1]);
        }
        ConsSorted(s[0], rest, LayerField);
      }
    }
  }

  /** The two sorts change no instrument's number of samples. */
  lemma ArrangeKeepsCounts(s: seq<Sample>, p: int)
    ensures CountId(Arrange(s), p) == CountId(s, p)
  {
    SortKeepsMatching(s, LayerField, InstrumentField, p);
    SortKeepsMatching(SortBy(s, LayerField), InstrumentField, InstrumentField, p);
    assert |multiset(Matching(Arrange(s), InstrumentField, p))| == |multiset(Matching(s, InstrumentField, p))|;
  }
}
