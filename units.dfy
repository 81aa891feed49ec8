/** `extract_numbers` (src/instagram_crawler.py:191-231): turns a counter label
    such as "1.2K", "2.3M", "1만" or "1,234" into a whole number.

    `float()` is modelled exactly: a decimal token is a mantissa together with
    the number of digits after its point, and `int(float(x) * unit)` is the
    quotient of mantissa times unit by the matching power of ten. */
module Units {
  import opened Wrappers
  import opened Text
  import opened Regex
  import opened Patterns

  /** The two ways `extract_numbers` can raise: `findall(...)[0]` on an empty
      list (IndexError) and `float()` on a token such as "1.2.3" (ValueError). */
  datatype NumberError = NoNumber | NotAFloat(token: string)

  /** `mantissa / 10^scale` */
  datatype Decimal = Decimal(mantissa: nat, scale: nat)

  function Pow10(n: nat): (r: nat)
    ensures r >= 1
  {
    if n == 0 then 1 else 10 * Pow10(n - 1)
  }

  const DecimalClass: Class := AnyOf(DigitChars + {'.'})

  function CountOf(s: string, c: char): nat {
    if s == [] then 0 else (if s[0] == c then 1 else 0) + CountOf(s[1..], c)
  }

  /** What Python's `float()` accepts among strings of digits and points: at
      most one point and at least one digit. */
  predicate IsDecimalText(tok: string) {
    (forall t :: 0 <= t < |tok| ==> IsDigit(tok[t]) || tok[t] == '.')
    && CountOf(tok, '.') <= 1
    && exists t :: 0 <= t < |tok| && IsDigit(tok[t])
  }

  /** The position of the first `c` in `s`. */
  function IndexOf(s: string, c: char): (r: Option<nat>)
    ensures r.Some? ==> r.value < |s| && s[r.value] == c && c !in s[..r.value]
    ensures r.None? ==> c !in s
  {
    if s == [] then None
    else if s[0] == c then Some(0)
    else match IndexOf(s[1..], c)
      case Some(k) => assert s[..k + 1] == [s[0]] + s[1..][..k]; Some(k + 1)
      case None => None
  }

  /** `float(tok)` on a token made of digits and points; the error stands for
      the ValueError raised on a token such as "1.2.3" or ".". */
  function ParseDecimal(tok: string): (r: Result<Decimal, NumberError>)
    requires forall t :: 0 <= t < |tok| ==> IsDigit(tok[t]) || tok[t] == '.'
    ensures r.Ok? <==> IsDecimalText(tok)
    ensures r.Ok? ==> r.value.mantissa == DigitsValue(RemoveChar(tok, '.'))
    ensures r.Ok? ==> r.value.scale < |tok|
    ensures r.Ok? && '.' !in tok ==> r.value.scale == 0
    ensures r.Ok? && '.' in tok ==> r.value.scale == |tok| - 1 - IndexOf(tok, '.').value
  {
    match IndexOf(tok, '.')
    case None =>
      NoCount(tok, '.');
      RemoveAbsent(tok, '.');
      if tok != [] then
        assert IsDigit(tok[0]);
        Ok(Decimal(DigitsValue(tok), 0))
      else Err(NotAFloat(tok))
    case Some(k) =>
      var a, b := tok[..k], tok[k + 1..];
      DotSplitText(tok, k);
      if '.' in b || (a == [] && b == []) then
        Err(NotAFloat(tok))
      else
        assert tok == a + ['.'] + b;
        DotValue(a, b);
        Ok(Decimal(DigitsValue(a) * Pow10(|b|) + DigitsValue(b), |b|))
  }

  /** With its first point at `k`, a token is a float literal exactly when no
      other point follows and there is at least one digit. */
  lemma DotSplitText(tok: string, k: nat)
    requires forall t :: 0 <= t < |tok| ==> IsDigit(tok[t]) || tok[t] == '.'
    requires k < |tok| && tok[k] == '.' && '.' !in tok[..k]
    ensures IsDecimalText(tok) <==> '.' !in tok[k + 1..] && |tok| > 1
  {
    var a, b := tok[..k], tok[k + 1..];
    assert tok == a + (['.'] + b);
    assert ['.'][1..] == [];
    assert CountOf(['.'], '.') == 1;
    CountAppend(a, ['.'] + b, '.');
    CountAppend(['.'], b, '.');
    NoCount(a, '.');
    NoCount(b, '.');
    assert CountOf(tok, '.') == CountOf(a, '.') + 1 + CountOf(b, '.');
    if '.' !in b && |tok| > 1 {
      assert IsDigit(tok[if a != [] then 0 else k + 1]);
      assert IsDecimalText(tok);
    } else if |tok| == 1 {
      assert tok == ['.'];
      assert !IsDecimalText(tok);
    } else {
      assert !IsDecimalText(tok);
    }
  }

  /** The mantissa of `a.b` is the digit string `ab`. */
  lemma DotValue(a: string, b: string)
    requires '.' !in a && '.' !in b
    ensures DigitsValue(RemoveChar(a + ['.'] + b, '.')) == DigitsValue(a) * Pow10(|b|) + DigitsValue(b)
  {
    RemoveSplit(a, b, '.');
    DigitsAppend(a, b);
  }

  /** `int(float(tok) * unit)`: the quotient, truncated toward zero. */
  function Scale(d: Decimal, unit: nat): (n: nat)
    ensures n * Pow10(d.scale) <= d.mantissa * unit < (n + 1) * Pow10(d.scale)
  {
    Quotient(d.mantissa * unit, Pow10(d.scale))
  }

  /** Division of naturals, truncating: the largest `q` with `q * p <= x`. */
  function Quotient(x: nat, p: nat): (q: nat)
    requires p >= 1
    ensures q * p <= x < (q + 1) * p
  {
    var m := x % p;
    assert x == p * (x / p) + m && 0 <= m < p;
    assert (x / p + 1) * p == (x / p) * p + p;
    x / p
  }

  /** The text after `replace(' ', '')` and `replace(',', '')`. */
  function Clean(text: string): string {
    RemoveChar(RemoveChar(text, ' '), ',')
  }

  /** The unit the cleaned text carries, checked in the source's order: `B`, `M`,
      `K` (in either case), then `만` (10^4) and `천` (10^3). */
  function UnitOf(t: string): Option<nat> {
    if ContainsUpper(t, 'B') then Some(1_000_000_000)
    else if ContainsUpper(t, 'M') then Some(1_000_000)
    else if ContainsUpper(t, 'K') then Some(1_000)
    else if '만' in t then Some(10_000)
    else if '천' in t then Some(1_000)
    else None
  }

  /** The first run of digits and points, `re.findall(r'[\d.]+', t)[0]`. */
  function DecimalToken(t: string): Option<string> {
    match FirstRunFrom(t, 0, DecimalClass)
    case Some(sp) => Some(t[sp.start..sp.end])
    case None => None
  }

  /** The first run of digits, `re.findall(r'\d+', t)[0]`. */
  function DigitToken(t: string): Option<string> {
    match FirstRunFrom(t, 0, Digit)
    case Some(sp) => Some(t[sp.start..sp.end])
    case None => None
  }

  function Scaled(t: string, unit: nat): Result<nat, NumberError> {
    RunPatternGroup(t, DecimalClass);
    match FindGroup(DecimalRun, t)
    case None => Err(NoNumber)
    case Some(tok) =>
      assert forall x :: 0 <= x < |tok| ==> IsDigit(tok[x]) || tok[x] == '.' by {
        assert AllIn(tok, DecimalClass);
      }
      match ParseDecimal(tok)
      case Err(e) => Err(e)
      case Ok(d) => Ok(Scale(d, unit))
  }

  /** `extract_numbers(text)`. */
  function ExtractNumbers(text: string): (r: Result<nat, NumberError>)
    ensures text == [] ==> r == Ok(0)
    ensures r.Err? ==> UnitOf(Clean(text)).Some?
    ensures text != [] && UnitOf(Clean(text)).None? ==>
              r == Ok(match DigitToken(Clean(text)) case Some(w) => DigitsValue(w) case None => 0)
    ensures text != [] && UnitOf(Clean(text)).Some? ==>
              (r.Ok? <==> DecimalToken(Clean(text)).Some? && IsDecimalText(DecimalToken(Clean(text)).value))
  {
    if text == [] then Ok(0)
    else
      var t := Clean(text);
      RunPatternGroup(t, DecimalClass);
      RunPatternGroup(t, Digit);
      match UnitOf(t)
      case Some(unit) => Scaled(t, unit)
      case None =>
        match FindGroup(DigitRun, t)
        case Some(w) => Ok(DigitsValue(w))
        case None => Ok(0)
  }

  /** A unit scales the first decimal token: the result is `Scale` of the
      token's value, so (by `Scale`'s contract) `n <= float(token) * unit < n + 1`,
      where the token's digits with the point removed are the mantissa. */
  lemma ExtractScaled(text: string, unit: nat)
    requires text != [] && UnitOf(Clean(text)) == Some(unit)
    requires DecimalToken(Clean(text)).Some?
    requires IsDecimalText(DecimalToken(Clean(text)).value)
    ensures var tok := DecimalToken(Clean(text)).value;
            ExtractNumbers(text) == Ok(Scale(ParseDecimal(tok).value, unit))
  {
    RunPatternGroup(Clean(text), DecimalClass);
  }

  // ---------------------------------------------------------------------------
  // Helpers about counting and removing one character

  lemma {:induction false} CountAppend(a: string, b: string, c: char)
    ensures CountOf(a + b, c) == CountOf(a, c) + CountOf(b, c)
  {
    if a != [] {
      assert (a + b)[0] == a[0];
      assert (a + b)[1..] == a[1..] + b;
      CountAppend(a[1..], b, c);
    } else {
      assert a + b == b;
    }
  }

  lemma {:induction false} NoCount(s: string, c: char)
    ensures c !in s <==> CountOf(s, c) == 0
  {
    if s != [] {
      NoCount(s[1..], c);
      assert s == [s[0]] + s[1..];
    }
  }

  lemma SomeCount(s: string, c: char)
    requires c in s
    ensures CountOf(s, c) >= 1
  {
    NoCount(s, c);
  }

  /** Removing the one `c` between two pieces without it joins the pieces. */
  lemma RemoveSplit(a: string, b: string, c: char)
    requires c !in a && c !in b
    ensures RemoveChar(a + [c] + b, c) == a + b
  {
    RemoveAppend(a + [c], b, c);
    RemoveAppend(a, [c], c);
    RemoveAbsent(a, c);
    RemoveAbsent(b, c);
    assert RemoveChar([c], c) == [];
    assert RemoveChar(a + [c], c) == a;
  }

  /** Reading `a + b` as digits: `a` shifted by the length of `b`, plus `b`. */
  lemma {:induction false} DigitsAppend(a: string, b: string)
    ensures DigitsValue(a + b) == DigitsValue(a) * Pow10(|b|) + DigitsValue(b)
    decreases |b|
  {
    if b == [] {
      assert a + b == a;
    } else {
      var b' := b[..|b| - 1];
      assert (a + b)[..|a + b| - 1] == a + b';
      DigitsAppend(a, b');
      assert (a + b)[|a + b| - 1] == b[|b| - 1];
      assert DigitsValue(a + b) == DigitsValue(a + b') * 10 + DigitValue(b[|b| - 1]);
      assert DigitsValue(b) == DigitsValue(b') * 10 + DigitValue(b[|b| - 1]);
      assert Pow10(|b|) == 10 * Pow10(|b'|);
      ShiftStep(DigitsValue(a), Pow10(|b'|), DigitsValue(b'), DigitValue(b[|b| - 1]));
    }
  }

  lemma ShiftStep(x: nat, p: nat, y: nat, d: nat)
    ensures (x * p + y) * 10 + d == x * (10 * p) + (y * 10 + d)
  {
  }
}
