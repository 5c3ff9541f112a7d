/** The few pieces of Python's `str` behaviour that the drumkit script relies on:
    `split` on one separator character, `replace(ref, '')`, `strip()`, `upper()`,
    the `in` substring test, `int()` on a string and `str()` of an integer. */
module Text {

  datatype Option<T> = None | Some(value: T)

  datatype Result<T, E> = Ok(value: T) | Err(error: E)

  /** `c.isspace()` in Python: the ASCII controls 0x09..0x0d, the separators
      0x1c..0x1f, the space, and the Unicode space characters. */
  predicate IsSpace(c: char) {
    c == ' ' || ('\t' <= c <= '\r') || ('\U{1c}' <= c <= '\U{1f}')
    || c == '\U{85}' || c == '\U{a0}' || c == '\U{1680}'
    || ('\U{2000}' <= c <= '\U{200a}') || c == '\U{2028}' || c == '\U{2029}'
    || c == '\U{202f}' || c == '\U{205f}' || c == '\U{3000}'
  }

  /** Where the whitespace that starts at `i` ends: the first index at or after
      `i` that holds no whitespace, or the length of `s`. */
  function SkipSpace(s: string, i: nat): (r: nat)
    requires i <= |s|
    ensures i <= r <= |s|
    ensures forall k :: i <= k < r ==> IsSpace(s[k])
    ensures r == |s| || !IsSpace(s[r])
    decreases |s| - i
  {
    if i < |s| && IsSpace(s[i]) then SkipSpace(s, i + 1) else i
  }

  /** Where the whitespace that ends just before `j` starts, scanning backwards. */
  function SkipSpaceBack(s: string, j: nat): (r: nat)
    requires j <= |s|
    ensures r <= j
    ensures forall k :: r <= k < j ==> IsSpace(s[k])
    ensures r == 0 || !IsSpace(s[r - 1])
  {
    if j > 0 && IsSpace(s[j - 1]) then SkipSpaceBack(s, j - 1) else j
  }

  /** Drops the leading whitespace: what remains is a suffix of `s`. */
  function TrimStart(s: string): (r: string)
    ensures |r| <= |s| && r == s[|s| - |r|..]
    ensures forall k :: 0 <= k < |s| - |r| ==> IsSpace(s[k])
    ensures r == [] || !IsSpace(r[0])
  {
    s[SkipSpace(s, 0)..]
  }

  /** Drops the trailing whitespace: what remains is a prefix of `s`. */
  function TrimEnd(s: string): (r: string)
    ensures |r| <= |s| && r == s[..|r|]
    ensures forall k :: |r| <= k < |s| ==> IsSpace(s[k])
    ensures r == [] || !IsSpace(r[|r| - 1])
  {
    s[..SkipSpaceBack(s, |s|)]
  }

  /** `s.strip()`: the whitespace at both ends is gone. */
  function Strip(s: string): (r: string)
    ensures r == [] || (!IsSpace(r[0]) && !IsSpace(r[|r| - 1]))
  {
    TrimEnd(TrimStart(s))
  }

  /** What `strip()` leaves is the slice of `s` that only whitespace surrounds. */
  lemma StripMeaning(s: string)
    ensures StrippedAt(s, Strip(s), |s| - |TrimStart(s)|)
  {
    var u := TrimStart(s);
    var i := |s| - |u|;
    TrimEndOfSuffix(s, i);
  }

  /** Trimming the end of the suffix of `s` from `i` leaves a slice of `s` with
      only whitespace after it. */
  lemma TrimEndOfSuffix(s: string, i: nat)
    requires i <= |s|
    ensures var r := TrimEnd(s[i..]);
            i + |r| <= |s| && r == s[i..i + |r|]
            && forall k :: i + |r| <= k < |s| ==> IsSpace(s[k])
  {
    var u := s[i..];
    var r := TrimEnd(u);
    forall k | i + |r| <= k < |s| ensures IsSpace(s[k]) {
      assert s[k] == u[k - i];
    }
  }

  /** `r` is the slice of `s` starting at `i`, with only whitespace around it. */
  predicate StrippedAt(s: string, r: string, i: int) {
    0 <= i <= |s| - |r| && r == s[i..i + |r|]
    && (forall k :: 0 <= k < i ==> IsSpace(s[k]))
    && (forall k :: i + |r| <= k < |s| ==> IsSpace(s[k]))
  }

  /** `s.rstrip(c)` for one character `c`. */
  function RStripChar(s: string, c: char): (r: string)
    ensures |r| <= |s| && r == s[..|r|]
    ensures forall k :: |r| <= k < |s| ==> s[k] == c
    ensures r == [] || r[|r| - 1] != c
  {
    if s != [] && s[|s| - 1] == c then RStripChar(s[..|s| - 1], c) else s
  }

  /** `s.split(sep)` with an explicit one-character separator: the pieces between
      the occurrences of `sep`, always at least one. */
  function Split(s: string, sep: char): (r: seq<string>)
    ensures |r| >= 1
    ensures forall k :: 0 <= k < |r| ==> sep !in r[k]
    ensures |r[0]| <= |s| && r[0] == s[..|r[0]|]
    ensures (|r| == 1) == (sep !in s)
  {
    if s == [] then [""]
    else
      var rest := Split(s[1..], sep);
      if s[0] == sep then [""] + rest
      else [[s[0]] + rest[0]] + rest[1..]
  }

  /** `sep.join(parts)`, the inverse of Split. */
  function Join(parts: seq<string>, sep: char): string
    requires |parts| >= 1
  {
    if |parts| == 1 then parts[0] else parts[0] + [sep] + Join(parts[1..], sep)
  }

  lemma {:induction false} JoinSplit(s: string, sep: char)
    ensures Join(Split(s, sep), sep) == s
  {
    if s != [] {
      JoinSplit(s[1..], sep);
      var rest := Split(s[1..], sep);
      if s[0] != sep {
        var r := Split(s, sep);
        if |rest| > 1 {
          assert r[1..] == rest[1..];
        }
      }
    }
  }

  lemma {:induction false} SplitJoin(parts: seq<string>, sep: char)
    requires |parts| >= 1
    requires forall k :: 0 <= k < |parts| ==> sep !in parts[k]
    ensures Split(Join(parts, sep), sep) == parts
  {
    if |parts| == 1 {
      SplitNoSeparator(parts[0], sep);
    } else {
      SplitJoin(parts[1..], sep);
      SplitAfterPiece(parts[0], Join(parts[1..], sep), sep);
      assert [parts[0]] + parts[1..] == parts;
    }
  }

  lemma {:induction false} SplitNoSeparator(s: string, sep: char)
    requires sep !in s
    ensures Split(s, sep) == [s]
  {
    if s != [] {
      SplitNoSeparator(s[1..], sep);
      assert [s[0]] + s[1..] == s;
    }
  }

  /** Splitting `a + sep + b`, where `a` has no separator, gives `a` and then the pieces of `b`. */
  lemma {:induction false} SplitAfterPiece(a: string, b: string, sep: char)
    requires sep !in a
    ensures Split(a + [sep] + b, sep) == [a] + Split(b, sep)
  {
    if a == [] {
      assert ([] + [sep] + b)[1..] == b;
    } else {
      SplitAfterPiece(a[1..], b, sep);
      assert (a + [sep] + b)[1..] == a[1..] + [sep] + b;
      assert [a[0]] + a[1..] == a;
    }
  }

  predicate StartsWith(s: string, prefix: string) {
    |prefix| <= |s| && s[..|prefix|] == prefix
  }

  /** Python's `sub in s`. */
  predicate Contains(s: string, sub: string) {
    StartsWith(s, sub) || (s != [] && Contains(s[1..], sub))
  }

  predicate OccursAt(s: string, sub: string, i: int) {
    0 <= i <= |s| - |sub| && s[i..i + |sub|] == sub
  }

  lemma {:induction false} ContainsAt(s: string, sub: string)
    ensures Contains(s, sub) <==> exists i :: OccursAt(s, sub, i)
  {
    if StartsWith(s, sub) {
      assert OccursAt(s, sub, 0);
    }
    if s != [] {
      ContainsAt(s[1..], sub);
      if Contains(s[1..], sub) {
        var i :| OccursAt(s[1..], sub, i);
        assert s[i + 1..i + 1 + |sub|] == sub;
        assert OccursAt(s, sub, i + 1);
      }
      if i :| OccursAt(s, sub, i) {
        if i > 0 {
          assert s[1..][i - 1..i - 1 + |sub|] == sub;
          assert OccursAt(s[1..], sub, i - 1);
        }
      }
    }
  }

  /** `s.replace(pat, '')`: every non-overlapping occurrence of `pat`, scanning
      left to right, is removed. */
  function RemoveAll(s: string, pat: string): (r: string)
    requires pat != []
    ensures |r| <= |s|
    ensures !Contains(s, pat) ==> r == s
    decreases |s|
  {
    if |s| < |pat| then s
    else if StartsWith(s, pat) then RemoveAll(s[|pat|..], pat)
    else [s[0]] + RemoveAll(s[1..], pat)
  }

  /** `replace` removes the leftmost occurrence first: when `pat` first occurs at
      `i`, the text before it is kept and the scan resumes after it. */
  lemma {:induction false} RemoveAllLeftmost(s: string, pat: string, i: nat)
    requires pat != []
    requires FirstOccurrenceAt(s, pat, i)
    ensures RemoveAll(s, pat) == s[..i] + RemoveAll(s[i + |pat|..], pat)
    decreases i
  {
    if i == 0 {
      assert StartsWith(s, pat);
      assert s[..i] == [];
    } else {
      var t := s[1..];
      var rest := RemoveAll(s[i + |pat|..], pat);
      FirstOccurrenceInTail(s, pat, i);
      RemoveAllLeftmost(t, pat, i - 1);
      assert t[i - 1 + |pat|..] == s[i + |pat|..];
      assert RemoveAll(t, pat) == t[..i - 1] + rest;
      RemoveAllKeepsHead(s, pat);
      assert RemoveAll(s, pat) == [s[0]] + (t[..i - 1] + rest);
      ConsSlices(s, i, rest);
    }
  }

  /** `pat` occurs at `i` and at no smaller index. */
  predicate FirstOccurrenceAt(s: string, pat: string, i: int) {
    OccursAt(s, pat, i) && forall j :: 0 <= j < i ==> !OccursAt(s, pat, j)
  }

  /** A first occurrence past the start is the first occurrence in the tail. */
  lemma FirstOccurrenceInTail(s: string, pat: string, i: nat)
    requires 0 < i && FirstOccurrenceAt(s, pat, i)
    ensures FirstOccurrenceAt(s[1..], pat, i - 1)
    ensures |pat| <= |s| && !StartsWith(s, pat)
  {
    assert !OccursAt(s, pat, 0);
    OccursAtTail(s, pat, i - 1);
    forall j | 0 <= j < i - 1 ensures !OccursAt(s[1..], pat, j) {
      OccursAtTail(s, pat, j);
    }
  }

  /** Where `pat` does not start `s`, `replace` keeps the first character. */
  lemma RemoveAllKeepsHead(s: string, pat: string)
    requires pat != [] && |pat| <= |s| && !StartsWith(s, pat)
    ensures RemoveAll(s, pat) == [s[0]] + RemoveAll(s[1..], pat)
  {
  }

  /** An occurrence in the tail is an occurrence one further on in the string. */
  lemma OccursAtTail(s: string, pat: string, j: nat)
    requires s != []
    ensures OccursAt(s[1..], pat, j) <==> OccursAt(s, pat, j + 1)
  {
    if j + 1 + |pat| <= |s| {
      assert s[1..][j..j + |pat|] == s[j + 1..j + 1 + |pat|];
    }
  }

  lemma ConsSlices(s: string, i: nat, rest: string)
    requires 1 <= i <= |s|
    ensures [s[0]] + (s[1..][..i - 1] + rest) == s[..i] + rest
  {
    assert [s[0]] + s[1..][..i - 1] == s[..i];
  }

  /** `c.upper()` for the ASCII letters: a lower-case letter becomes the capital
      of the same letter, every other character is kept. */
  function UpperChar(c: char): (u: char)
    ensures 'A' <= u <= 'Z' <==> ('A' <= c <= 'Z' || 'a' <= c <= 'z')
    ensures 'a' <= c <= 'z' ==> u as int - 'A' as int == c as int - 'a' as int
    ensures !('a' <= c <= 'z') ==> u == c
  {
    if 'a' <= c <= 'z' then (c as int - 32) as char else c
  }

  /** `s.upper()`, character by character. */
  function Upper(s: string): (r: string)
    ensures |r| == |s|
    ensures forall k :: 0 <= k < |s| ==> r[k] == UpperChar(s[k])
  {
    seq(|s|, k requires 0 <= k < |s| => UpperChar(s[k]))
  }

  /** A capital letter `w` is what `upper()` makes of `w` and of its lower case only. */
  lemma UpperCharIs(c: char, w: char)
    requires 'A' <= w <= 'Z'
    ensures UpperChar(c) == w <==> c == w || c as int == w as int + 32
  {
  }

  /** `s` holds, at `i`, a word that `upper()` turns into `w`. */
  predicate UpperAt(s: string, w: string, i: int) {
    0 <= i <= |s| - |w| && forall k :: 0 <= k < |w| ==> UpperChar(s[i + k]) == w[k]
  }

  /** An upper-case word occurs in `s.upper()` exactly where `s` holds that word
      in any mix of cases. */
  lemma UpperContains(s: string, w: string)
    ensures Contains(Upper(s), w) <==> exists i :: UpperAt(s, w, i)
  {
    var u := Upper(s);
    ContainsAt(u, w);
    forall i | 0 <= i <= |s| - |w|
      ensures OccursAt(u, w, i) <==> UpperAt(s, w, i)
    {
      if forall k :: 0 <= k < |w| ==> UpperChar(s[i + k]) == w[k] {
        assert u[i..i + |w|] == w;
      }
      if OccursAt(u, w, i) {
        forall k | 0 <= k < |w| ensures UpperChar(s[i + k]) == w[k] {
          assert u[i..i + |w|][k] == w[k];
        }
      }
    }
  }

  predicate IsDigit(c: char) {
    '0' <= c <= '9'
  }

  predicate AllDigits(s: string) {
    forall k :: 0 <= k < |s| ==> IsDigit(s[k])
  }

  /** The value of a string of decimal digits (leading zeros allowed). */
  function DigitsValue(s: string): nat
    requires AllDigits(s)
  {
    if s == [] then 0 else DigitsValue(s[..|s| - 1]) * 10 + (s[|s| - 1] as int - '0' as int)
  }

  /** `str(n)` for a natural number: its shortest decimal digits. */
  function NatString(n: nat): (r: string)
    ensures |r| >= 1 && AllDigits(r) && DigitsValue(r) == n
    ensures |r| > 1 ==> r[0] != '0'
  {
    if n < 10 then [('0' as int + n) as char]
    else
      var r := NatString(n / 10) + [('0' as int + n % 10) as char];
      assert r[..|r| - 1] == NatString(n / 10);
      r
  }

  /** `str(n)` for any integer. */
  function DecimalString(n: int): string {
    if n < 0 then "-" + NatString(-n) else NatString(n)
  }

  /** `int(s)` for base ten: surrounding whitespace, an optional sign, then digits.
      `None` stands for the ValueError that `int` raises. */
  function ParseInt(s: string): (r: Option<int>)
    ensures r.Some? ==> s != []
    ensures r.Some? && r.value < 0 ==> '-' in s
    ensures Strip(s) == [] ==> r == None
  {
    var t := Strip(s);
    if |t| >= 2 && (t[0] == '-' || t[0] == '+') && AllDigits(t[1..]) then
      var v: int := DigitsValue(t[1..]);
      if t[0] == '-' then Some(-v) else Some(v)
    else if |t| >= 1 && AllDigits(t) then Some(DigitsValue(t) as int)
    else None
  }

  /** `int()` raises ValueError on any character, after stripping, that is no
      digit and no leading sign. */
  lemma ParseIntRejects(s: string, k: nat)
    requires k < |Strip(s)| && !IsDigit(Strip(s)[k])
    requires k == 0 ==> Strip(s)[0] != '-' && Strip(s)[0] != '+'
    ensures ParseInt(s) == None
  {
    var t := Strip(s);
    if k > 0 {
      assert t[1..][k - 1] == t[k];
    }
  }

  /** `int()` of a stripped string of digits, leading zeros allowed, is their
      decimal value. */
  lemma ParseIntDigits(s: string)
    requires Strip(s) != [] && AllDigits(Strip(s))
    ensures ParseInt(s) == Some(DigitsValue(Strip(s)) as int)
  {
  }

  /** `int()` of a stripped sign followed by digits is their decimal value,
      negated after a `-`. */
  lemma ParseIntSigned(s: string)
    requires |Strip(s)| >= 2 && (Strip(s)[0] == '-' || Strip(s)[0] == '+')
    requires AllDigits(Strip(s)[1..])
    ensures Strip(s)[0] == '+' ==> ParseInt(s) == Some(DigitsValue(Strip(s)[1..]) as int)
    ensures Strip(s)[0] == '-' ==> ParseInt(s) == Some(-(DigitsValue(Strip(s)[1..]) as int))
  {
  }

  /** A leading zero does not change the value of a string of digits, so
      `int("01") == int("1")`. */
  lemma {:induction false} DigitsValueLeadingZero(d: string)
    requires AllDigits(d)
    ensures AllDigits("0" + d) && DigitsValue("0" + d) == DigitsValue(d)
    decreases |d|
  {
    var z := "0" + d;
    assert IsDigit(z[0]);
    assert forall k :: 1 <= k < |z| ==> z[k] == d[k - 1];
    if d != [] {
      var init := d[..|d| - 1];
      assert AllDigits(init) by {
        assert forall k :: 0 <= k < |init| ==> init[k] == d[k];
      }
      DigitsValueLeadingZero(init);
      assert z[..|z| - 1] == "0" + init;
      assert z[|z| - 1] == d[|d| - 1];
    }
  }

  /** A leading space does not survive `strip()`. */
  lemma StripLeadingSpace(s: string)
    ensures Strip(" " + s) == Strip(s)
  {
    SkipSpaceCons(' ', s);
    assert (" " + s)[SkipSpace(s, 0) + 1..] == s[SkipSpace(s, 0)..];
  }

  /** A leading whitespace character moves the end of the leading whitespace by one. */
  lemma SkipSpaceCons(c: char, s: string)
    requires IsSpace(c)
    ensures SkipSpace([c] + s, 0) == SkipSpace(s, 0) + 1
  {
    var t := [c] + s;
    var b := SkipSpace(s, 0);
    forall k | 0 <= k < b + 1 ensures IsSpace(t[k]) {
      if k > 0 {
        assert t[k] == s[k - 1];
      }
    }
    assert b + 1 == |t| || t[b + 1] == s[b];
    SkipSpaceStops(t, 0, b + 1);
  }

  /** The scan from `i` stops at the first non-whitespace index `e` past a run of whitespace. */
  lemma {:induction false} SkipSpaceStops(s: string, i: nat, e: nat)
    requires i <= e <= |s|
    requires forall k :: i <= k < e ==> IsSpace(s[k])
    requires e == |s| || !IsSpace(s[e])
    ensures SkipSpace(s, i) == e
    decreases e - i
  {
    if i < e {
      SkipSpaceStops(s, i + 1, e);
    }
  }

  lemma StripUnchanged(s: string)
    requires s == [] || (!IsSpace(s[0]) && !IsSpace(s[|s| - 1]))
    ensures Strip(s) == s
  {
    assert TrimStart(s) == s;
  }

  /** No digit is whitespace. */
  lemma DigitsNotSpace(d: string)
    requires AllDigits(d)
    ensures forall k :: 0 <= k < |d| ==> !IsSpace(d[k])
  {
    forall k | 0 <= k < |d| ensures !IsSpace(d[k]) {
      assert IsDigit(d[k]);
    }
  }

  /** `int(str(m)) == m` for `m >= 0`. */
  lemma ParseNatString(m: nat)
    ensures ParseInt(NatString(m)) == Some(m)
  {
    var d := NatString(m);
    DigitsNotSpace(d);
    StripUnchanged(d);
    assert IsDigit(d[0]);
  }

  /** `int(str(n)) == n` for `n < 0`. */
  lemma ParseNegative(n: int)
    requires n < 0
    ensures ParseInt(DecimalString(n)) == Some(n)
  {
    var d := DecimalString(n);
    var e := NatString(-n);
    assert IsDigit(e[|e| - 1]);
    assert d[|d| - 1] == e[|e| - 1];
    StripUnchanged(d);
    assert d[1..] == e;
  }

  /** `int(str(n)) == n`. */
  lemma ParseDecimal(n: int)
    ensures ParseInt(DecimalString(n)) == Some(n)
  {
    if n < 0 {
      ParseNegative(n);
    } else {
      ParseNatString(n);
    }
  }
}
