/** String helpers that stand for the Python `str` methods the crawler uses:
    `strip`, `lower`, `in`, `replace(c, '')`, `split(c)`, `join`, `int()` on a
    digit string and `str()` of a non-negative integer. */
module Text {
  import opened Wrappers

  /** The characters Python's `str.isspace` (and therefore `str.strip()` and the
      regex class `\s` on `str` patterns) treats as whitespace. */
  const Whitespace: set<char> := {
    '\U{9}', '\U{A}', '\U{B}', '\U{C}', '\U{D}',
    '\U{1C}', '\U{1D}', '\U{1E}', '\U{1F}', ' ',
    '\U{85}', '\U{A0}', '\U{1680}',
    '\U{2000}', '\U{2001}', '\U{2002}', '\U{2003}', '\U{2004}', '\U{2005}',
    '\U{2006}', '\U{2007}', '\U{2008}', '\U{2009}', '\U{200A}',
    '\U{2028}', '\U{2029}', '\U{202F}', '\U{205F}', '\U{3000}'
  }

  const Digits: set<char> := {'0', '1', '2', '3', '4', '5', '6', '7', '8', '9'}

  /** Membership in `Whitespace`, written as ranges. */
  predicate IsSpace(c: char) {
    ('\U{9}' <= c <= '\U{D}') || ('\U{1C}' <= c <= ' ') || c == '\U{85}' || c == '\U{A0}' || c == '\U{1680}' ||
    ('\U{2000}' <= c <= '\U{200A}') || c == '\U{2028}' || c == '\U{2029}' || c == '\U{202F}' || c == '\U{205F}' || c == '\U{3000}'
  }

  predicate IsDigit(c: char) {
    '0' <= c <= '9'
  }

  predicate AllSpace(s: string) {
    forall k :: 0 <= k < |s| ==> IsSpace(s[k])
  }

  /** No whitespace at either end. */
  predicate IsStripped(s: string) {
    s == [] || (!IsSpace(s[0]) && !IsSpace(s[|s| - 1]))
  }

  /** `s.lstrip()`: the longest suffix of `s` that does not start with whitespace. */
  function StripLeft(s: string): (r: string)
    ensures |r| <= |s| && r == s[|s| - |r|..]
    ensures r == [] || !IsSpace(r[0])
    ensures forall k :: 0 <= k < |s| - |r| ==> IsSpace(s[k])
  {
    if s == [] || !IsSpace(s[0]) then s else StripLeft(s[1..])
  }

  /** `s.rstrip()`: the longest prefix of `s` that does not end with whitespace. */
  function StripRight(s: string): (r: string)
    ensures |r| <= |s| && r == s[..|r|]
    ensures r == [] || !IsSpace(r[|r| - 1])
    ensures forall k :: |r| <= k < |s| ==> IsSpace(s[k])
  {
    if s == [] || !IsSpace(s[|s| - 1]) then s else StripRight(s[..|s| - 1])
  }

  /** `s.strip()`; `StripIsTrim` says which piece of `s` it is. */
  function Strip(s: string): (r: string)
    ensures IsStripped(r)
    ensures r == [] <==> AllSpace(s)
    ensures IsStripped(s) ==> r == s
  {
    StripEnds(s);
    StripRight(StripLeft(s))
  }

  /** What makes `Strip`'s contract hold: the piece left is stripped, empty only
      when everything was whitespace, and all of an already stripped string. */
  lemma StripEnds(s: string)
    ensures var r := StripRight(StripLeft(s));
      IsStripped(r) && (r == [] <==> AllSpace(s)) && (IsStripped(s) ==> r == s)
  {
    var l := StripLeft(s);
    var r := StripRight(l);
    var i := |s| - |l|;
    if r != [] {
      HeadOfPrefix(l, r);
      assert !AllSpace(s) by {
        assert s[i] == l[0];
      }
    }
    if IsStripped(s) && s != [] {
      assert l == s;
    }
  }

  lemma HeadOfPrefix(l: string, r: string)
    requires r != [] && |r| <= |l| && r == l[..|r|]
    ensures r[0] == l[0]
  {
  }

  /** `s.strip()` is the piece of `s` between a whitespace prefix and a
      whitespace suffix: only whitespace at the two ends is removed. */
  lemma StripIsTrim(s: string)
    ensures exists i :: TrimmedAt(s, Strip(s), i)
  {
    var l := StripLeft(s);
    var r := StripRight(l);
    var i := |s| - |l|;
    LeftSpace(s);
    RightSpace(l);
    SuffixSlices(s, i, |r|);
    assert TrimmedAt(s, Strip(s), i);
  }

  /** What `lstrip()` removes is whitespace. */
  lemma LeftSpace(s: string)
    ensures AllSpace(s[..|s| - |StripLeft(s)|])
  {
    var n := |s| - |StripLeft(s)|;
    forall k | 0 <= k < n ensures IsSpace(s[..n][k]) {
      assert s[..n][k] == s[k];
    }
  }

  /** What `rstrip()` removes is whitespace. */
  lemma RightSpace(s: string)
    ensures AllSpace(s[|StripRight(s)|..])
  {
    var n := |StripRight(s)|;
    forall k | 0 <= k < |s| - n ensures IsSpace(s[n..][k]) {
      assert s[n..][k] == s[n + k];
    }
  }

  lemma SuffixSlices(s: string, i: nat, n: nat)
    requires i + n <= |s|
    ensures s[i..][..n] == s[i..i + n] && s[i..][n..] == s[i + n..]
  {
  }

  /** `r` is the piece of `s` at `i`, with only whitespace before and after it. */
  predicate TrimmedAt(s: string, r: string, i: nat) {
    i + |r| <= |s| && r == s[i..i + |r|] && AllSpace(s[..i]) && AllSpace(s[i + |r|..])
  }

  /** A string is blank (Python: `not s.strip()`) exactly when it is all whitespace. */
  predicate IsBlank(s: string) {
    Strip(s) == []
  }

  /** ASCII `c.lower()`. */
  function LowerChar(c: char): char {
    if 'A' <= c <= 'Z' then (c as int - 'A' as int + 'a' as int) as char else c
  }

  /** ASCII `c.upper()`. */
  function UpperChar(c: char): char {
    if 'a' <= c <= 'z' then (c as int - 'a' as int + 'A' as int) as char else c
  }

  /** ASCII `s.lower()`. */
  function Lower(s: string): (r: string)
    ensures |r| == |s|
    ensures forall k :: 0 <= k < |s| ==> r[k] == LowerChar(s[k])
  {
    if s == [] then [] else [LowerChar(s[0])] + Lower(s[1..])
  }

  predicate IsCased(c: char) {
    'A' <= c <= 'Z' || 'a' <= c <= 'z'
  }

  /** Whether the character before position `k` is cased; `before` stands for the one before the string. */
  predicate PrevCased(s: string, k: nat, before: bool)
    requires k < |s|
  {
    if k == 0 then before else IsCased(s[k - 1])
  }

  /** The title-cased form of `c` after a cased (`prev`) or uncased character. */
  function TitleChar(c: char, prev: bool): char {
    if !IsCased(c) then c else if prev then LowerChar(c) else UpperChar(c)
  }

  /** `str.title()` on ASCII, continuing after a character that was (`before`) or was not cased. */
  function TitleFrom(s: string, before: bool): (r: string)
    ensures |r| == |s|
    ensures forall k :: 0 <= k < |s| ==> r[k] == TitleChar(s[k], PrevCased(s, k, before))
  {
    if s == [] then []
    else
      var tail := TitleFrom(s[1..], IsCased(s[0]));
      var r := [TitleChar(s[0], before)] + tail;
      forall k | 1 <= k < |s| ensures r[k] == TitleChar(s[k], PrevCased(s, k, before)) {
        assert r[k] == tail[k - 1] && s[1..][k - 1] == s[k];
        assert PrevCased(s[1..], k - 1, IsCased(s[0])) == PrevCased(s, k, before);
      }
      r
  }

  /** ASCII `s.title()`: a cased letter is upper-case when it starts a run of
      cased letters and lower-case inside one; other characters are kept. */
  function Title(s: string): (r: string)
    ensures |r| == |s|
    ensures forall k :: 0 <= k < |s| && IsCased(s[k]) && (k == 0 || !IsCased(s[k - 1])) ==> r[k] == UpperChar(s[k])
    ensures forall k :: 0 <= k < |s| && IsCased(s[k]) && k > 0 && IsCased(s[k - 1]) ==> r[k] == LowerChar(s[k])
    ensures forall k :: 0 <= k < |s| && !IsCased(s[k]) ==> r[k] == s[k]
  {
    TitleFrom(s, false)
  }

  /** `t in s` for strings: `t` occurs as a contiguous piece of `s`. */
  predicate Contains(s: string, t: string) {
    t <= s || (s != [] && Contains(s[1..], t))
  }

  /** `t in s` holds as soon as `t` occurs at some position `i`. */
  lemma {:induction false} ContainsAt(s: string, t: string, i: nat)
    requires i <= |s| && t <= s[i..]
    ensures Contains(s, t)
  {
    if i > 0 {
      assert s[1..][i - 1..] == s[i..];
      ContainsAt(s[1..], t, i - 1);
    }
  }

  /** `c in s.upper()`, for an upper-case ASCII letter `c`. */
  predicate ContainsUpper(s: string, c: char) {
    exists k :: 0 <= k < |s| && UpperChar(s[k]) == c
  }

  /** `s.replace(c, '')`; `RemoveKeepsCount` and `RemoveAppend` say that
      every other character is kept, as often as it occurs and in order. */
  function RemoveChar(s: string, c: char): (r: string)
    ensures c !in r
    ensures forall x :: x in r <==> x in s && x != c
    ensures |r| <= |s|
  {
    if s == [] then [] else (if s[0] == c then [] else [s[0]]) + RemoveChar(s[1..], c)
  }

  /** Each character other than `c` occurs in `s.replace(c, '')` as often as in `s`. */
  lemma {:induction false} RemoveKeepsCount(s: string, c: char)
    ensures multiset(RemoveChar(s, c)) == multiset(s)[c := 0]
  {
    if s != [] {
      RemoveKeepsCount(s[1..], c);
      assert s == [s[0]] + s[1..];
    }
  }

  /** Without `c` in it, `s.replace(c, '')` is `s`. */
  lemma {:induction false} RemoveAbsent(s: string, c: char)
    requires c !in s
    ensures RemoveChar(s, c) == s
  {
    if s != [] {
      assert s == [s[0]] + s[1..];
      RemoveAbsent(s[1..], c);
    }
  }

  /** Removing a character piece by piece: `(a + b).replace(c, '')` is
      `a.replace(c, '') + b.replace(c, '')`, so the kept characters stay in order. */
  lemma {:induction false} RemoveAppend(a: string, b: string, c: char)
    ensures RemoveChar(a + b, c) == RemoveChar(a, c) + RemoveChar(b, c)
  {
    if a != [] {
      assert (a + b)[0] == a[0];
      assert (a + b)[1..] == a[1..] + b;
      RemoveAppend(a[1..], b, c);
    } else {
      assert a + b == b;
    }
  }

  /** `sep.join(parts)`. */
  function Join(parts: seq<string>, sep: string): string {
    if parts == [] then []
    else if |parts| == 1 then parts[0]
    else parts[0] + sep + Join(parts[1..], sep)
  }

  /** `s.split(c)`: the pieces between the occurrences of `c`; never empty. */
  function Split(s: string, c: char): (parts: seq<string>)
    ensures |parts| >= 1
    ensures forall k :: 0 <= k < |parts| ==> c !in parts[k]
    ensures Join(parts, [c]) == s
  {
    if s == [] then [[]]
    else
      var rest := Split(s[1..], c);
      if s[0] == c then
        [[]] + rest
      else
        [[s[0]] + rest[0]] + rest[1..]
  }

  /** Splitting inverts joining when no piece holds the separator. */
  lemma {:induction false} SplitJoin(parts: seq<string>, c: char)
    requires |parts| >= 1
    requires forall k :: 0 <= k < |parts| ==> c !in parts[k]
    ensures Split(Join(parts, [c]), c) == parts
    decreases |parts|, |parts[0]|
  {
    if |parts| == 1 {
      SplitPiece(parts[0], c);
    } else if parts[0] == [] {
      var tail := parts[1..];
      assert Join(parts, [c]) == [c] + Join(tail, [c]);
      SplitJoin(tail, c);
      assert ([c] + Join(tail, [c]))[1..] == Join(tail, [c]);
      assert parts == [[]] + tail;
    } else {
      var first := parts[0];
      var shorter := [first[1..]] + parts[1..];
      assert first[1..] == first[1..];
      forall k | 0 <= k < |shorter| ensures c !in shorter[k] {
        if k == 0 {
          assert forall x :: x in first[1..] ==> x in first;
        } else {
          assert shorter[k] == parts[k];
        }
      }
      assert Join(shorter, [c]) == first[1..] + [c] + Join(parts[1..], [c]);
      assert Join(parts, [c]) == first + [c] + Join(parts[1..], [c]);
      var joined := Join(parts, [c]);
      assert joined[0] == first[0];
      assert joined[1..] == Join(shorter, [c]);
      SplitJoin(shorter, c);
      assert first[0] != c;
      assert [first[0]] + first[1..] == first;
      assert parts == [first] + parts[1..];
    }
  }

  /** A piece without the separator splits to itself. */
  lemma {:induction false} SplitPiece(s: string, c: char)
    requires c !in s
    ensures Split(s, c) == [s]
  {
    if s != [] {
      SplitPiece(s[1..], c);
    }
  }

  function DigitValue(c: char): nat {
    if IsDigit(c) then c as int - '0' as int else 0
  }

  /** The value of a string of decimal digits, most significant first. */
  function DigitsValue(s: string): nat {
    if s == [] then 0 else DigitsValue(s[..|s| - 1]) * 10 + DigitValue(s[|s| - 1])
  }

  predicate AllDigits(s: string) {
    forall k :: 0 <= k < |s| ==> IsDigit(s[k])
  }

  /** Python `int(s)` on a string made only of ASCII digits; any other string
      (`None`) is where `int` would raise a ValueError. */
  function ParseInt(s: string): (r: Option<nat>)
    ensures r.Some? <==> s != [] && AllDigits(s)
    ensures r.Some? ==> r.value == DigitsValue(s)
  {
    if s != [] && AllDigits(s) then Some(DigitsValue(s)) else None
  }

  function DigitChar(d: nat): char
    requires d < 10
  {
    ('0' as int + d) as char
  }

  /** `str(n)` for a non-negative integer: its decimal digits, no leading zero. */
  function NatToString(n: nat): (r: string)
    ensures r != [] && AllDigits(r)
    ensures n > 0 ==> r[0] != '0'
  {
    if n < 10 then [DigitChar(n)] else NatToString(n / 10) + [DigitChar(n % 10)]
  }

  /** `int(str(n)) == n`. */
  lemma {:induction false} NatToStringRoundTrip(n: nat)
    ensures ParseInt(NatToString(n)) == Some(n)
  {
    var r := NatToString(n);
    if n >= 10 {
      NatToStringRoundTrip(n / 10);
      assert r[..|r| - 1] == NatToString(n / 10);
      assert DigitValue(r[|r| - 1]) == n % 10;
      assert DigitsValue(r) == (n / 10) * 10 + n % 10;
    } else {
      assert r[..|r| - 1] == [];
      assert DigitsValue(r) == DigitValue(r[0]);
    }
  }

}
