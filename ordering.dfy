/** The two `SampleArray.sort(key=...)` calls. Python's `list.sort` is stable; its
    result is modelled by a stable insertion sort, whose stability and order are
    proved here. */
module Ordering {
  import opened Samples

  /** The two sort keys: `a[1]` (the instrument id) and `a[2]` (the layer id). */
  datatype Field = InstrumentField | LayerField

  function Key(x: Sample, f: Field): int {
    match f
    case InstrumentField => x.instrument
    case LayerField => x.layer
  }

  /** The samples of `s` whose key `f` is `k`, in their order in `s`. */
  function Matching(s: seq<Sample>, f: Field, k: int): (r: seq<Sample>)
    ensures |r| <= |s|
    ensures forall i :: 0 <= i < |r| ==> Key(r[i], f) == k
  {
    if s == [] then []
    else (if Key(s[0], f) == k then [s[0]] else []) + Matching(s[1..], f, k)
  }

  lemma {:induction false} MatchingAppend(a: seq<Sample>, b: seq<Sample>, f: Field, k: int)
    ensures Matching(a + b, f, k) == Matching(a, f, k) + Matching(b, f, k)
  {
    if a == [] {
      assert a + b == b;
    } else {
      assert (a + b)[1..] == a[1..] + b;
      MatchingAppend(a[1..], b, f, k);
    }
  }

  /** Extending a prefix by one sample extends the matching samples by at most that one. */
  lemma MatchingSnoc(s: seq<Sample>, j: nat, f: Field, k: int)
    requires j < |s|
    ensures Matching(s[..j + 1], f, k)
            == Matching(s[..j], f, k) + (if Key(s[j], f) == k then [s[j]] else [])
  {
    assert s[..j + 1] == s[..j] + [s[j]];
    MatchingAppend(s[..j], [s[j]], f, k);
  }

  lemma {:induction false} MatchingNone(s: seq<Sample>, f: Field, k: int)
    requires forall i :: 0 <= i < |s| ==> Key(s[i], f) != k
    ensures Matching(s, f, k) == []
  {
    if s != [] {
      MatchingNone(s[1..], f, k);
    }
  }

  lemma {:induction false} MatchingAll(s: seq<Sample>, f: Field, k: int)
    requires forall i :: 0 <= i < |s| ==> Key(s[i], f) == k
    ensures Matching(s, f, k) == s
  {
    if s != [] {
      MatchingAll(s[1..], f, k);
      assert s == [s[0]] + s[1..];
    }
  }

  /** Filters on two keys commute. */
  lemma {:induction false} MatchingCommutes(s: seq<Sample>, f: Field, a: int, g: Field, b: int)
    ensures Matching(Matching(s, f, a), g, b) == Matching(Matching(s, g, b), f, a)
  {
    if s != [] {
      var x := s[0];
      MatchingCommutes(s[1..], f, a, g, b);
      var fx := if Key(x, f) == a then [x] else [];
      var gx := if Key(x, g) == b then [x] else [];
      MatchingAppend(fx, Matching(s[1..], f, a), g, b);
      MatchingAppend(gx, Matching(s[1..], g, b), f, a);
    }
  }

  /** Stable insertion of `x`: before the first element whose key is not smaller. */
  function Insert(x: Sample, t: seq<Sample>, f: Field): (r: seq<Sample>)
    ensures multiset(r) == multiset(t) + multiset{x}
    ensures |r| == |t| + 1
  {
    if t == [] || Key(x, f) <= Key(t[0], f) then [x] + t
    else
      assert t == [t[0]] + t[1..];
      [t[0]] + Insert(x, t[1..], f)
  }

  /** `s.sort(key=f)`: stable, ascending in `f`. */
  function SortBy(s: seq<Sample>, f: Field): (r: seq<Sample>)
    ensures multiset(r) == multiset(s)
  {
    if s == [] then []
    else
      assert s == [s[0]] + s[1..];
      Insert(s[0], SortBy(s[1..], f), f)
  }

  predicate SortedBy(s: seq<Sample>, f: Field) {
    forall i, j :: 0 <= i < j < |s| ==> Key(s[i], f) <= Key(s[j], f)
  }

  /** Ascending by instrument id, and by layer id among equal instrument ids. */
  predicate LexLe(x: Sample, y: Sample) {
    x.instrument < y.instrument || (x.instrument == y.instrument && x.layer <= y.layer)
  }

  predicate LexSorted(s: seq<Sample>) {
    forall i, j :: 0 <= i < j < |s| ==> LexLe(s[i], s[j])
  }

  /** The samples matching `k` in `[y] + rest`: `y` when it matches, then those of `rest`. */
  lemma MatchingCons(y: Sample, rest: seq<Sample>, f: Field, k: int)
    ensures Matching([y] + rest, f, k) == (if Key(y, f) == k then [y] else []) + Matching(rest, f, k)
  {
    assert ([y] + rest)[1..] == rest;
  }

  /** Inserting `x` puts it ahead of every sample with its own key. */
  lemma {:induction false} InsertMatchingOwnKey(x: Sample, t: seq<Sample>, f: Field)
    ensures Matching(Insert(x, t, f), f, Key(x, f)) == [x] + Matching(t, f, Key(x, f))
  {
    var k := Key(x, f);
    if t == [] || k <= Key(t[0], f) {
      MatchingCons(x, t, f, k);
    } else {
      InsertMatchingOwnKey(x, t[1..], f);
      MatchingCons(t[0], Insert(x, t[1..], f), f, k);
      MatchingCons(t[0], t[1..], f, k);
      assert t == [t[0]] + t[1..];
    }
  }

  /** Inserting `x` does not disturb the samples that `x` does not match. */
  lemma {:induction false} InsertMatchingOther(x: Sample, t: seq<Sample>, f: Field, g: Field, k: int)
    requires Key(x, g) != k
    ensures Matching(Insert(x, t, f), g, k) == Matching(t, g, k)
  {
    if t == [] || Key(x, f) <= Key(t[0], f) {
      MatchingCons(x, t, g, k);
    } else {
      InsertMatchingOther(x, t[1..], f, g, k);
      MatchingCons(t[0], Insert(x, t[1..], f), g, k);
      MatchingCons(t[0], t[1..], g, k);
      assert t == [t[0]] + t[1..];
    }
  }

  /** Inserting `x` into any key's samples adds `x` when it matches. */
  lemma {:induction false} InsertMatchingCount(x: Sample, t: seq<Sample>, f: Field, g: Field, k: int)
    requires Key(x, g) == k
    ensures multiset(Matching(Insert(x, t, f), g, k)) == multiset(Matching(t, g, k)) + multiset{x}
  {
    if t == [] || Key(x, f) <= Key(t[0], f) {
      MatchingCons(x, t, g, k);
      assert multiset([x] + Matching(t, g, k)) == multiset{x} + multiset(Matching(t, g, k));
    } else {
      InsertMatchingCount(x, t[1..], f, g, k);
      MatchingCons(t[0], Insert(x, t[1..], f), g, k);
      MatchingCons(t[0], t[1..], g, k);
      assert t == [t[0]] + t[1..];
      MultisetAfterHead(if Key(t[0], g) == k then [t[0]] else [],
                        Matching(Insert(x, t[1..], f), g, k), Matching(t[1..], g, k), x);
    }
  }

  lemma MultisetAfterHead(head: seq<Sample>, a: seq<Sample>, b: seq<Sample>, x: Sample)
    requires multiset(a) == multiset(b) + multiset{x}
    ensures multiset(head + a) == multiset(head + b) + multiset{x}
  {
  }

  /** Every key `f` in `s` is at least `v`. */
  predicate KeysAtLeast(s: seq<Sample>, f: Field, v: int) {
    forall j :: 0 <= j < |s| ==> v <= Key(s[j], f)
  }

  lemma ConsSorted(y: Sample, rest: seq<Sample>, f: Field)
    requires SortedBy(rest, f) && KeysAtLeast(rest, f, Key(y, f))
    ensures SortedBy([y] + rest, f)
  {
    var r := [y] + rest;
    forall i, j | 0 <= i < j < |r| ensures Key(r[i], f) <= Key(r[j], f) {
      assert r[j] == rest[j - 1];
      if i > 0 {
        assert r[i] == rest[i - 1];
      }
    }
  }

  /** A bound below `x` and every element of `t` bounds their insertion. */
  lemma {:induction false} InsertKeepsBound(x: Sample, t: seq<Sample>, f: Field, g: Field, v: int)
    requires v <= Key(x, g) && KeysAtLeast(t, g, v)
    ensures KeysAtLeast(Insert(x, t, f), g, v)
  {
    if !(t == [] || Key(x, f) <= Key(t[0], f)) {
      InsertKeepsBound(x, t[1..], f, g, v);
      var rest := Insert(x, t[1..], f);
      assert Insert(x, t, f) == [t[0]] + rest;
    }
  }

  lemma {:induction false} InsertKeepsSorted(x: Sample, t: seq<Sample>, f: Field)
    requires SortedBy(t, f)
    ensures SortedBy(Insert(x, t, f), f)
  {
    if t != [] && Key(t[0], f) < Key(x, f) {
      InsertKeepsSorted(x, t[1..], f);
      InsertKeepsBound(x, t[1..], f, f, Key(t[0], f));
      ConsSorted(t[0], Insert(x, t[1..], f), f);
    } else {
      assert KeysAtLeast(t, f, Key(x, f)) by {
        if t != [] {
          assert forall j :: 0 <= j < |t| ==> Key(t[0], f) <= Key(t[j], f);
        }
      }
      ConsSorted(x, t, f);
    }
  }

  /** The sort is a permutation of its input that is ordered by its key. */
  lemma {:induction false} SortOrders(s: seq<Sample>, f: Field)
    ensures SortedBy(SortBy(s, f), f)
  {
    if s != [] {
      SortOrders(s[1..], f);
      InsertKeepsSorted(s[0], SortBy(s[1..], f), f);
    }
  }

  /** The sort is stable: the samples sharing one key keep their relative order. */
  lemma {:induction false} SortStable(s: seq<Sample>, f: Field, k: int)
    ensures Matching(SortBy(s, f), f, k) == Matching(s, f, k)
  {
    if s != [] {
      var x := s[0];
      var t := SortBy(s[1..], f);
      SortStable(s[1..], f, k);
      if Key(x, f) == k {
        InsertMatchingOwnKey(x, t, f);
      } else {
        InsertMatchingOther(x, t, f, f, k);
      }
    }
  }

  /** Sorting by one key keeps, for any key, the samples that share it. */
  lemma {:induction false} SortKeepsMatching(s: seq<Sample>, f: Field, g: Field, k: int)
    ensures multiset(Matching(SortBy(s, f), g, k)) == multiset(Matching(s, g, k))
  {
    if s != [] {
      var x := s[0];
      var t := SortBy(s[1..], f);
      SortKeepsMatching(s[1..], f, g, k);
      if Key(x, g) == k {
        InsertMatchingCount(x, t, f, g, k);
      } else {
        InsertMatchingOther(x, t, f, g, k);
      }
    }
  }

  /** Every sample of `s` is at least `y` in the (instrument, layer) order. */
  predicate AllLexAbove(y: Sample, s: seq<Sample>) {
    forall j :: 0 <= j < |s| ==> LexLe(y, s[j])
  }

  lemma ConsLexSorted(y: Sample, rest: seq<Sample>)
    requires LexSorted(rest) && AllLexAbove(y, rest)
    ensures LexSorted([y] + rest)
  {
    var r := [y] + rest;
    forall i, j | 0 <= i < j < |r| ensures LexLe(r[i], r[j]) {
      assert r[j] == rest[j - 1];
      if i > 0 {
        assert r[i] == rest[i - 1];
      }
    }
  }

  lemma {:induction false} InsertKeepsLexAbove(y: Sample, x: Sample, t: seq<Sample>)
    requires LexLe(y, x) && AllLexAbove(y, t)
    ensures AllLexAbove(y, Insert(x, t, InstrumentField))
  {
    if !(t == [] || x.instrument <= t[0].instrument) {
      InsertKeepsLexAbove(y, x, t[1..]);
      var rest := Insert(x, t[1..], InstrumentField);
      assert Insert(x, t, InstrumentField) == [t[0]] + rest;
    }
  }

  /** Inserting by instrument id into a lexicographically sorted sequence whose
      layer ids are all at least `x`'s keeps it lexicographically sorted. */
  lemma {:induction false} InsertKeepsLexSorted(x: Sample, t: seq<Sample>)
    requires LexSorted(t)
    requires KeysAtLeast(t, LayerField, x.layer)
    ensures LexSorted(Insert(x, t, InstrumentField))
  {
    if t != [] && t[0].instrument < x.instrument {
      InsertKeepsLexSorted(x, t[1..]);
      assert AllLexAbove(t[0], t[1..]) by {
        assert forall j :: 1 <= j < |t| ==> LexLe(t[0], t[j]);
      }
      InsertKeepsLexAbove(t[0], x, t[1..]);
      ConsLexSorted(t[0], Insert(x, t[1..], InstrumentField));
    } else {
      assert AllLexAbove(x, t) by {
        if t != [] {
          assert forall j :: 0 <= j < |t| ==> LexLe(t[0], t[j]);
          assert forall j :: 0 <= j < |t| ==> t[0].instrument <= t[j].instrument;
        }
      }
      ConsLexSorted(x, t);
    }
  }

  /** The sort by the instrument id of a sequence already ordered by layer id. */
  lemma {:induction false} SortByInstrumentOfLayerSorted(s: seq<Sample>)
    requires SortedBy(s, LayerField)
    ensures LexSorted(SortBy(s, InstrumentField))
  {
    if s != [] {
      var x := s[0];
      var t := SortBy(s[1..], InstrumentField);
      assert SortedBy(s[1..], LayerField);
      SortByInstrumentOfLayerSorted(s[1..]);
      forall i | 0 <= i < |t| ensures x.layer <= Key(t[i], LayerField) {
        assert t[i] in multiset(s[1..]);
        var j :| 0 <= j < |s[1..]| && s[1..][j] == t[i];
        assert s[j + 1] == t[i];
      }
      InsertKeepsLexSorted(x, t);
    }
  }

  /** The two sorts of the script: first by layer id, then by instrument id. */
  function Arrange(s: seq<Sample>): seq<Sample> {
    SortBy(SortBy(s, LayerField), InstrumentField)
  }

  /** After both sorts the samples are a permutation of the listing, ordered by
      (instrument id, layer id), and samples equal in both keep listing order. */
  lemma ArrangeOrders(s: seq<Sample>)
    ensures multiset(Arrange(s)) == multiset(s)
    ensures LexSorted(Arrange(s))
    ensures forall i, l :: Matching(Matching(Arrange(s), InstrumentField, i), LayerField, l)
                           == Matching(Matching(s, InstrumentField, i), LayerField, l)
  {
    var u := SortBy(s, LayerField);
    SortOrders(s, LayerField);
    SortByInstrumentOfLayerSorted(u);
    forall i, l ensures Matching(Matching(Arrange(s), InstrumentField, i), LayerField, l)
                        == Matching(Matching(s, InstrumentField, i), LayerField, l) {
      SortStable(u, InstrumentField, i);
      MatchingCommutes(u, InstrumentField, i, LayerField, l);
      SortStable(s, LayerField, l);
      MatchingCommutes(s, LayerField, l, InstrumentField, i);
    }
  }
}
