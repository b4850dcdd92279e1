/** String helpers with the semantics of the JavaScript built-ins the
    source calls: `trim`, `split`, `join`, `includes`, `startsWith`,
    `toLowerCase`, the string `<` operator, integer-to-text conversion and
    `toFixed(2)` on an amount held in cents. */
module Text {

  /** The characters `String.prototype.trim` removes and the regular
      expression class `\s` matches: WhiteSpace and LineTerminator. */
  predicate IsSpace(c: char) {
    c == ' ' || c == '\t' || c == '\n' || c == '\r' || c == '\U{B}' || c == '\U{C}'
    || c == '\U{A0}' || c == '\U{1680}' || ('\U{2000}' <= c <= '\U{200A}')
    || c == '\U{2028}' || c == '\U{2029}' || c == '\U{202F}' || c == '\U{205F}'
    || c == '\U{3000}' || c == '\U{FEFF}'
  }

  /** Every character is white space. */
  predicate AllSpace(s: string) {
    forall i :: 0 <= i < |s| ==> IsSpace(s[i])
  }

  /** `r` is the slice `s[a..b]`, and only white space lies outside it. */
  predicate SpaceAround(s: string, a: int, b: int, r: string) {
    0 <= a <= b <= |s| && r == s[a..b] && AllSpace(s[..a]) && AllSpace(s[b..])
  }

  /** `r` comes from `s` by dropping white space at its two ends only. */
  predicate DropsSpaceOnly(s: string, r: string) {
    exists a, b :: 0 <= a <= b <= |s| && SpaceAround(s, a, b, r)
  }

  predicate IsTrimmed(s: string) {
    s == [] || (!IsSpace(s[0]) && !IsSpace(s[|s| - 1]))
  }

  function TrimStart(s: string): (r: string)
    ensures r == [] || !IsSpace(r[0])
    ensures exists k :: 0 <= k <= |s| && r == s[k..] && forall i :: 0 <= i < k ==> IsSpace(s[i])
  {
    if s != [] && IsSpace(s[0]) then
      var r := TrimStart(s[1..]);
      ghost var k :| 0 <= k <= |s[1..]| && r == s[1..][k..] && forall i :: 0 <= i < k ==> IsSpace(s[1..][i]);
      assert r == s[k + 1..];
      r
    else
      assert s == s[0..];
      s
  }

  function TrimEnd(s: string): (r: string)
    ensures r == [] || !IsSpace(r[|r| - 1])
    ensures exists k :: 0 <= k <= |s| && r == s[..k] && forall i :: k <= i < |s| ==> IsSpace(s[i])
  {
    if s != [] && IsSpace(s[|s| - 1]) then
      var t := s[..|s| - 1];
      var r := TrimEnd(t);
      ghost var k :| 0 <= k <= |t| && r == t[..k] && forall i :: k <= i < |t| ==> IsSpace(t[i]);
      assert r == s[..k];
      r
    else
      assert s == s[..|s|];
      s
  }

  /** `String.prototype.trim`: the longest slice of `s` with no white space
      at either end, obtained by dropping white space only (the latter is
      `TrimDropsSpaceOnly`). */
  function Trim(s: string): (r: string)
    ensures IsTrimmed(r)
    ensures |r| <= |s|
  {
    var t := TrimStart(s);
    var r := TrimEnd(t);
    assert r != [] ==> r[0] == t[0];
    r
  }

  /** `trim` removes white space from the two ends and nothing else: its
      result is a slice of `s` with only white space outside it. */
  lemma TrimDropsSpaceOnly(s: string)
    ensures exists a, b :: 0 <= a <= b <= |s| && SpaceAround(s, a, b, Trim(s))
  {
    TrimIsSlice(s, TrimStart(s), Trim(s));
  }

  /** The two passes of `Trim` together drop white space from both ends. */
  lemma TrimIsSlice(s: string, t: string, r: string)
    requires t == TrimStart(s) && r == TrimEnd(t)
    ensures DropsSpaceOnly(s, r)
  {
    var a :| 0 <= a <= |s| && t == s[a..] && forall i :: 0 <= i < a ==> IsSpace(s[i]);
    var k :| 0 <= k <= |t| && r == t[..k] && forall i :: k <= i < |t| ==> IsSpace(t[i]);
    SliceOfSuffix(s, a, k, r);
  }

  lemma SliceOfSuffix(s: string, a: nat, k: nat, r: string)
    requires a <= |s| && k <= |s| - a && r == s[a..][..k]
    requires forall i :: 0 <= i < a ==> IsSpace(s[i])
    requires forall i :: k <= i < |s[a..]| ==> IsSpace(s[a..][i])
    ensures DropsSpaceOnly(s, r)
  {
    TrimSlice(s, a, k);
    SpacePrefix(s, a);
    SpaceSuffix(s, a + k);
    assert SpaceAround(s, a, a + k, r);
  }

  lemma SpacePrefix(s: string, a: nat)
    requires a <= |s| && forall i :: 0 <= i < a ==> IsSpace(s[i])
    ensures AllSpace(s[..a])
  {
    assert forall i :: 0 <= i < a ==> s[..a][i] == s[i];
  }

  lemma SpaceSuffix(s: string, b: nat)
    requires b <= |s| && forall i :: b <= i < |s| ==> IsSpace(s[i])
    ensures AllSpace(s[b..])
  {
    assert forall i :: 0 <= i < |s| - b ==> s[b..][i] == s[b + i];
  }

  /** Dropping white space from a suffix's end leaves a slice of the whole. */
  lemma TrimSlice(s: string, a: nat, k: nat)
    requires a <= |s| && k <= |s| - a
    requires forall i :: k <= i < |s[a..]| ==> IsSpace(s[a..][i])
    ensures s[a..][..k] == s[a..a + k]
    ensures forall i :: a + k <= i < |s| ==> IsSpace(s[i])
  {
    forall i | a + k <= i < |s| ensures IsSpace(s[i]) {
      assert s[i] == s[a..][i - a];
    }
  }

  lemma TrimmedIsFixed(s: string)
    requires IsTrimmed(s)
    ensures Trim(s) == s
  {
  }

  /** White space in front of a trimmed string is what `trim` removes. */
  lemma {:induction false} TrimLeadingSpace(w: string, s: string)
    requires forall i :: 0 <= i < |w| ==> IsSpace(w[i])
    requires IsTrimmed(s) && s != []
    ensures Trim(w + s) == s
  {
    if w == [] {
      assert w + s == s;
    } else {
      assert (w + s)[1..] == w[1..] + s;
      TrimLeadingSpace(w[1..], s);
      assert TrimStart(w + s) == TrimStart(w[1..] + s);
    }
  }

  function Contains(s: string, t: string): bool
    decreases |s|
  {
    StartsWith(s, t) || (s != [] && Contains(s[1..], t))
  }

  /** A string with no occurrence of `c` (as a one-character substring). */
  predicate Free(s: string, c: char) {
    forall i :: 0 <= i < |s| ==> s[i] != c
  }

  predicate StartsWith(s: string, prefix: string) {
    |prefix| <= |s| && s[..|prefix|] == prefix
  }

  /** The string `<` of JavaScript on strings whose characters are all in
      the Basic Multilingual Plane: lexicographic order of code units. */
  predicate LexLess(a: string, b: string)
    decreases |a|
  {
    if a == [] then b != []
    else if b == [] then false
    else if a[0] != b[0] then a[0] < b[0]
    else LexLess(a[1..], b[1..])
  }

  /** `toLowerCase` on the ASCII letters; every other character is kept. */
  function ToLower(s: string): (r: string)
    ensures |r| == |s|
    ensures forall i :: 0 <= i < |s| ==> r[i] == LowerChar(s[i])
  {
    if s == [] then [] else [LowerChar(s[0])] + ToLower(s[1..])
  }

  function LowerChar(c: char): char {
    if 'A' <= c <= 'Z' then (c as int + 32) as char else c
  }

  /** `Array.prototype.join(sep)`. */
  function Join(parts: seq<string>, sep: string): string {
    if parts == [] then ""
    else if |parts| == 1 then parts[0]
    else parts[0] + sep + Join(parts[1..], sep)
  }

  /** `String.prototype.split(c)` for a one-character separator: the text
      between consecutive occurrences of `c`, always at least one part. */
  function Split(s: string, c: char): (r: seq<string>)
    ensures |r| >= 1
  {
    if s == [] then [""]
    else if s[0] == c then [""] + Split(s[1..], c)
    else var rest := Split(s[1..], c); [[s[0]] + rest[0]] + rest[1..]
  }

  lemma {:induction false} SplitFree(s: string, c: char)
    requires Free(s, c)
    ensures Split(s, c) == [s]
  {
    if s != [] {
      SplitFree(s[1..], c);
      assert [s[0]] + s[1..] == s;
    }
  }

  lemma {:induction false} SplitAfterFree(x: string, c: char, y: string)
    requires Free(x, c)
    ensures Split(x + [c] + y, c) == [x] + Split(y, c)
  {
    if x == [] {
      assert x + [c] + y == [c] + y;
      assert ([c] + y)[1..] == y;
    } else {
      assert (x + [c] + y)[1..] == x[1..] + [c] + y;
      SplitAfterFree(x[1..], c, y);
      assert [x[0]] + x[1..] == x;
    }
  }

  /** Splitting what `join` produced, with a separator made of `c` followed
      by padding free of `c`, gives back the parts; every part after the
      first keeps the padding in front. */
  lemma {:induction false} SplitJoin(parts: seq<string>, c: char, pad: string)
    requires parts != []
    requires Free(pad, c)
    requires forall i :: 0 <= i < |parts| ==> Free(parts[i], c)
    ensures |Split(Join(parts, [c] + pad), c)| == |parts|
    ensures Split(Join(parts, [c] + pad), c)[0] == parts[0]
    ensures forall i :: 0 < i < |parts| ==> Split(Join(parts, [c] + pad), c)[i] == pad + parts[i]
  {
    if |parts| == 1 {
      SplitFree(parts[0], c);
    } else {
      var tail := Join(parts[1..], [c] + pad);
      assert Join(parts, [c] + pad) == parts[0] + [c] + (pad + tail);
      SplitAfterFree(parts[0], c, pad + tail);
      SplitJoin(parts[1..], c, pad);
      PadFirst(pad, parts[1..], c);
    }
  }

  /** Splitting parts joined by a separator character gives the parts back
      when none of them holds that character. */
  lemma SplitJoinEmptyPad(parts: seq<string>, c: char)
    requires parts != []
    requires forall i :: 0 <= i < |parts| ==> Free(parts[i], c)
    ensures Split(Join(parts, [c]), c) == parts
  {
    assert [c] == [c] + "";
    SplitJoin(parts, c, "");
    var r := Split(Join(parts, [c]), c);
    forall i | 0 <= i < |parts| ensures r[i] == parts[i] {
      if i > 0 {
        assert "" + parts[i] == parts[i];
      }
    }
  }

  /** Joining pieces free of `c` with a separator free of `c` gives a text free of `c`. */
  lemma {:induction false} JoinFree(parts: seq<string>, sep: string, c: char)
    requires Free(sep, c)
    requires forall i :: 0 <= i < |parts| ==> Free(parts[i], c)
    ensures Free(Join(parts, sep), c)
  {
    if |parts| > 1 {
      JoinFree(parts[1..], sep, c);
      var rest := Join(parts[1..], sep);
      assert Join(parts, sep) == parts[0] + sep + rest;
      forall i | 0 <= i < |parts[0] + sep + rest| ensures (parts[0] + sep + rest)[i] != c {
        if i < |parts[0]| {
          assert (parts[0] + sep + rest)[i] == parts[0][i];
        } else if i < |parts[0]| + |sep| {
          assert (parts[0] + sep + rest)[i] == sep[i - |parts[0]|];
        } else {
          assert (parts[0] + sep + rest)[i] == rest[i - |parts[0]| - |sep|];
        }
      }
    }
  }

  /** The padding in front of a joined text becomes part of its first piece. */
  lemma PadFirst(pad: string, parts: seq<string>, c: char)
    requires parts != [] && Free(pad, c)
    ensures Split(pad + Join(parts, [c] + pad), c)
         == [pad + Split(Join(parts, [c] + pad), c)[0]] + Split(Join(parts, [c] + pad), c)[1..]
  {
    PadSplit(pad, Join(parts, [c] + pad), c);
  }

  lemma {:induction false} PadSplit(pad: string, s: string, c: char)
    requires Free(pad, c)
    ensures Split(pad + s, c) == [pad + Split(s, c)[0]] + Split(s, c)[1..]
  {
    if pad != [] {
      assert (pad + s)[1..] == pad[1..] + s;
      PadSplit(pad[1..], s, c);
      var rest := Split(pad[1..] + s, c);
      assert (pad + s)[0] == pad[0] != c;
      assert Split(pad + s, c) == [[pad[0]] + rest[0]] + rest[1..];
      assert rest[0] == pad[1..] + Split(s, c)[0];
      assert rest[1..] == Split(s, c)[1..];
      assert [pad[0]] + (pad[1..] + Split(s, c)[0]) == pad + Split(s, c)[0];
    } else {
      assert pad + s == s;
      assert pad + Split(s, c)[0] == Split(s, c)[0];
      assert Split(s, c) == [Split(s, c)[0]] + Split(s, c)[1..];
    }
  }

  predicate IsDigit(c: char) {
    '0' as int <= c as int <= '9' as int
  }

  function DigitChar(d: nat): (c: char)
    requires d < 10
    ensures IsDigit(c) && c as int - '0' as int == d
  {
    (d + '0' as int) as char
  }

  /** The decimal numeral of `n`, as `String(n)` writes it. */
  function NatToString(n: nat): (r: string)
    ensures r != []
    ensures forall i :: 0 <= i < |r| ==> IsDigit(r[i])
  {
    if n < 10 then [DigitChar(n)] else NatToString(n / 10) + [DigitChar(n % 10)]
  }

  /** The value of a string of decimal digits, as `parseInt` reads it. */
  function DigitsValue(s: string): nat
    requires forall i :: 0 <= i < |s| ==> IsDigit(s[i])
  {
    if s == [] then 0 else DigitsValue(s[..|s| - 1]) * 10 + DigitValue(s[|s| - 1])
  }

  function DigitValue(c: char): (d: nat)
    requires IsDigit(c)
    ensures d < 10
  {
    c as int - '0' as int
  }

  lemma {:induction false} NatToStringRoundTrip(n: nat)
    ensures DigitsValue(NatToString(n)) == n
  {
    if n >= 10 {
      NatToStringRoundTrip(n / 10);
      var r := NatToString(n);
      assert r[..|r| - 1] == NatToString(n / 10);
    }
  }

  /** `(cents / 100).toFixed(2)` for an amount held exactly in cents. */
  function FormatCents(cents: int): (r: string)
    ensures forall i :: 0 <= i < |r| ==> IsDigit(r[i]) || r[i] == '-' || r[i] == '.'
  {
    (if cents < 0 then "-" else "") + Unsigned(if cents < 0 then -cents else cents)
  }

  /** The whole units, a point and two digits of cents. */
  function Unsigned(a: nat): (r: string)
    ensures forall i :: 0 <= i < |r| ==> IsDigit(r[i]) || r[i] == '.'
  {
    NatToString(a / 100) + "." + Cents(a % 100)
  }

  /** The two digits of an amount below one hundred. */
  function Cents(m: nat): (r: string)
    requires m < 100
    ensures |r| == 2 && IsDigit(r[0]) && IsDigit(r[1])
  {
    [DigitChar(m / 10), DigitChar(m % 10)]
  }

  lemma CentsValue(m: nat)
    requires m < 100
    ensures DigitsValue(Cents(m)) == m
  {
    var f := Cents(m);
    assert f[..1] == [DigitChar(m / 10)];
    assert f[..1][..0] == [];
    assert DigitsValue(f[..1]) == m / 10;
    assert DigitsValue(f) == DigitsValue(f[..1]) * 10 + DigitValue(f[1]);
  }

  lemma UnsignedReadsBack(a: nat)
    ensures var b := Unsigned(a);
      |b| >= 4 && b[|b| - 3] == '.'
      && (forall i :: 0 <= i < |b| && i != |b| - 3 ==> IsDigit(b[i]))
      && DigitsValue(b[..|b| - 3]) * 100 + DigitsValue(b[|b| - 2..]) == a
  {
    var w := NatToString(a / 100);
    var f := Cents(a % 100);
    var b := Unsigned(a);
    assert b == w + "." + f;
    assert b[..|b| - 3] == w;
    assert b[|b| - 2..] == f;
    NatToStringRoundTrip(a / 100);
    CentsValue(a % 100);
  }

  /** An amount written by `FormatCents` reads back: an optional minus
      sign, the whole units, a point and exactly two digits of cents. */
  lemma FormatCentsReadsBack(cents: int)
    ensures var r := FormatCents(cents);
      var body := if cents < 0 then r[1..] else r;
      |body| >= 4 && body[|body| - 3] == '.'
      && (r[0] == '-' <==> cents < 0)
      && (forall i :: 0 <= i < |body| && i != |body| - 3 ==> IsDigit(body[i]))
      && DigitsValue(body[..|body| - 3]) * 100 + DigitsValue(body[|body| - 2..]) == if cents < 0 then -cents else cents
  {
    var a := if cents < 0 then -cents else cents;
    UnsignedReadsBack(a);
    if cents < 0 {
      assert FormatCents(cents)[1..] == Unsigned(a);
    } else {
      assert FormatCents(cents) == Unsigned(a);
    }
    assert IsDigit(Unsigned(a)[0]);
  }
}
