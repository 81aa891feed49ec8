/** Worked examples of `extract_numbers`, one per branch: a unit with a
    fraction, a Korean unit, a plain number with a thousands separator, and a
    unit without any number, and a fraction with no unit. Each is assembled from small facts about the
    cleaned text, its unit and its first token. */
module UnitExamples {
  import opened Wrappers
  import opened Text
  import opened Regex
  import opened Patterns
  import opened Units

  /** A unit, a first decimal token and its value determine the result. */
  lemma ExtractUnit(text: string, unit: nat, tok: string, d: Decimal)
    requires text != [] && UnitOf(Clean(text)) == Some(unit)
    requires DecimalToken(Clean(text)) == Some(tok)
    requires forall t :: 0 <= t < |tok| ==> IsDigit(tok[t]) || tok[t] == '.'
    requires ParseDecimal(tok) == Ok(d)
    ensures ExtractNumbers(text) == Ok(Scale(d, unit))
  {
    RunPatternGroup(Clean(text), DecimalClass);
  }

  /** A unit with no digit or point anywhere is the IndexError of `findall(...)[0]`. */
  lemma ExtractUnitNoToken(text: string, unit: nat)
    requires text != [] && UnitOf(Clean(text)) == Some(unit)
    requires DecimalToken(Clean(text)) == None
    ensures ExtractNumbers(text) == Err(NoNumber)
  {
    RunPatternGroup(Clean(text), DecimalClass);
  }

  // --- "1.2K" is 1200

  lemma CleanK() ensures Clean("1.2K") == "1.2K" {
    RemoveAbsent("1.2K", ' ');
    RemoveAbsent("1.2K", ',');
  }

  lemma UnitK() ensures UnitOf("1.2K") == Some(1000) {
    var t := "1.2K";
    assert UpperChar(t[3]) == 'K';
    assert forall k :: 0 <= k < |t| ==> UpperChar(t[k]) != 'B' && UpperChar(t[k]) != 'M';
  }

  lemma TokenK() ensures DecimalToken("1.2K") == Some("1.2") {
    var t := "1.2K";
    assert Run(t, 3, DecimalClass) == 0;
    assert Run(t, 2, DecimalClass) == 1;
    assert Run(t, 1, DecimalClass) == 2;
    assert Run(t, 0, DecimalClass) == 3;
    assert FirstRunFrom(t, 0, DecimalClass) == Some(Span(0, 3));
    assert t[0..3] == "1.2";
  }

  lemma DecimalK() ensures ParseDecimal("1.2") == Ok(Decimal(12, 1)) {
    assert IndexOf("1.2", '.') == Some(1);
  }

  lemma ScaleK() ensures Scale(Decimal(12, 1), 1000) == 1200 {
    assert Pow10(1) == 10;
  }

  lemma ExtractK()
    ensures ExtractNumbers("1.2K") == Ok(1200)
  {
    CleanK();
    UnitK();
    TokenK();
    DecimalK();
    ScaleK();
    ExtractUnit("1.2K", 1000, "1.2", Decimal(12, 1));
  }

  // --- "1만" is 10000

  lemma CleanMan() ensures Clean("1만") == "1만" {
    RemoveAbsent("1만", ' ');
    RemoveAbsent("1만", ',');
  }

  lemma UnitMan() ensures UnitOf("1만") == Some(10_000) {
    var t := "1만";
    assert forall k :: 0 <= k < |t| ==> UpperChar(t[k]) !in {'B', 'M', 'K'};
    assert t[1] == '만';
  }

  lemma TokenMan() ensures DecimalToken("1만") == Some("1") {
    var t := "1만";
    assert Run(t, 1, DecimalClass) == 0;
    assert Run(t, 0, DecimalClass) == 1;
    assert FirstRunFrom(t, 0, DecimalClass) == Some(Span(0, 1));
    assert t[0..1] == "1";
  }

  lemma DecimalMan() ensures ParseDecimal("1") == Ok(Decimal(1, 0)) {
    assert IndexOf("1", '.') == None;
    assert DigitsValue("1") == 1;
  }

  lemma ScaleMan() ensures Scale(Decimal(1, 0), 10_000) == 10_000 {
    assert Pow10(0) == 1;
  }

  lemma ExtractMan()
    ensures ExtractNumbers("1만") == Ok(10_000)
  {
    CleanMan();
    UnitMan();
    TokenMan();
    DecimalMan();
    ScaleMan();
    ExtractUnit("1만", 10_000, "1", Decimal(1, 0));
  }

  // --- "1,234" is 1234

  lemma CleanComma() ensures Clean("1,234") == "1234" {
    RemoveAbsent("1,234", ' ');
    DropComma();
  }

  lemma DropComma() ensures RemoveChar("1,234", ',') == "1234" {
    assert "1,234" == "1" + [','] + "234";
    RemoveSplit("1", "234", ',');
    assert "1" + "234" == "1234";
  }

  lemma UnitComma() ensures UnitOf("1234") == None {
    var t := "1234";
    assert forall k :: 0 <= k < |t| ==> UpperChar(t[k]) !in {'B', 'M', 'K'} && t[k] != '만' && t[k] != '천';
  }

  lemma TokenComma() ensures DigitToken("1234") == Some("1234") {
    var t := "1234";
    assert Run(t, 4, Digit) == 0;
    assert Run(t, 3, Digit) == 1;
    assert Run(t, 2, Digit) == 2;
    assert Run(t, 1, Digit) == 3;
    assert Run(t, 0, Digit) == 4;
    assert FirstRunFrom(t, 0, Digit) == Some(Span(0, 4));
    assert t[0..4] == t;
  }

  lemma ValueComma() ensures DigitsValue("1234") == 1234 {
    var t := "1234";
    assert t[..3] == "123" && "123"[..2] == "12" && "12"[..1] == "1" && "1"[..0] == "";
  }

  lemma ExtractComma()
    ensures ExtractNumbers("1,234") == Ok(1234)
  {
    CleanComma();
    UnitComma();
    TokenComma();
    ValueComma();
  }

  // --- "K" alone raises

  lemma CleanBare() ensures Clean("K") == "K" {
    RemoveAbsent("K", ' ');
    RemoveAbsent("K", ',');
  }

  lemma UnitBare() ensures UnitOf("K") == Some(1000) {
    assert UpperChar("K"[0]) == 'K';
    assert UpperChar("K"[0]) != 'B' && UpperChar("K"[0]) != 'M';
  }

  lemma TokenBare() ensures DecimalToken("K") == None {
    assert FirstRunFrom("K", 1, DecimalClass) == None;
    assert !InClass("K"[0], DecimalClass);
  }

  lemma ExtractBare()
    ensures ExtractNumbers("K") == Err(NoNumber)
  {
    CleanBare();
    UnitBare();
    TokenBare();
    ExtractUnitNoToken("K", 1000);
  }

  // --- "48K" is 48000

  lemma CleanFortyEight() ensures Clean("48K") == "48K" {
    RemoveAbsent("48K", ' ');
    RemoveAbsent("48K", ',');
  }

  lemma UnitFortyEight() ensures UnitOf("48K") == Some(1000) {
    var t := "48K";
    assert UpperChar(t[2]) == 'K';
    assert forall k :: 0 <= k < |t| ==> UpperChar(t[k]) != 'B' && UpperChar(t[k]) != 'M';
  }

  lemma TokenFortyEight() ensures DecimalToken("48K") == Some("48") {
    var t := "48K";
    assert Run(t, 2, DecimalClass) == 0;
    assert Run(t, 1, DecimalClass) == 1;
    assert Run(t, 0, DecimalClass) == 2;
    assert FirstRunFrom(t, 0, DecimalClass) == Some(Span(0, 2));
    assert t[0..2] == "48";
  }

  lemma DecimalFortyEight() ensures ParseDecimal("48") == Ok(Decimal(48, 0)) {
    assert IndexOf("48", '.') == None;
    assert "48"[..1] == "4";
    assert DigitsValue("48") == 48;
  }

  lemma ExtractFortyEight()
    ensures ExtractNumbers("48K") == Ok(48_000)
  {
    CleanFortyEight();
    UnitFortyEight();
    TokenFortyEight();
    DecimalFortyEight();
    assert Pow10(0) == 1;
    ExtractUnit("48K", 1000, "48", Decimal(48, 0));
  }

  // --- "1.5" with no unit keeps only the first digit run: 1

  lemma CleanFraction() ensures Clean("1.5") == "1.5" {
    RemoveAbsent("1.5", ' ');
    RemoveAbsent("1.5", ',');
  }

  lemma UnitFraction() ensures UnitOf("1.5") == None {
    var t := "1.5";
    assert forall k :: 0 <= k < |t| ==> UpperChar(t[k]) !in {'B', 'M', 'K'} && t[k] != '만' && t[k] != '천';
  }

  lemma TokenFraction() ensures DigitToken("1.5") == Some("1") {
    var t := "1.5";
    assert Run(t, 1, Digit) == 0;
    assert Run(t, 0, Digit) == 1;
    assert FirstRunFrom(t, 0, Digit) == Some(Span(0, 1));
    assert t[0..1] == "1";
  }

  lemma ExtractFraction()
    ensures ExtractNumbers("1.5") == Ok(1)
  {
    CleanFraction();
    UnitFraction();
    TokenFraction();
    assert DigitsValue("1") == 1;
  }
}
