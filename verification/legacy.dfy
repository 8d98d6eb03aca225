/** What the hard-coded evaluators of main.py and dev_main.py share: the
    text a value is judged by, the number each indicator reads out of it,
    the unpacking of the AAII tuple, and the CNN colour of the card. */
module Legacy {
  import opened Common
  import opened Text
  import opened Decimal
  import opened PyValue
  import opened Sentiment

  /** The printed value without surrounding whitespace. */
  function ValText(v: Value): string {
    Strip(Show(v))
  }

  /** The answer where no number can be read: the printed value, shown
      with the warning mark and the caption "無法判讀" (unreadable). */
  function Unjudged(v: Value): (string, Status) {
    (Show(v), Status(Warning, "無法判讀"))
  }

  /** The keys both revisions read a number for. */
  predicate IsNumeric(key: string) {
    key in ["CNN", "VIX", "SKEW", "PUT_CALL", "DXY", "RSI", "NAAIM", "BOND_10Y", "ABOVE_200_DAYS", "BTC"]
  }

  /** The token each key hands to `float()`: CNN its first word (None where
      `split()[0]` raises), VIX and SKEW the text without commas, BOND_10Y
      and ABOVE_200_DAYS without `%`, BTC without `%` and `+`, the others
      the whole text. */
  function Cleaned(key: string, text: string): Option<string>
    requires IsNumeric(key)
  {
    if key == "CNN" then FirstToken(text)
    else if key == "VIX" || key == "SKEW" then Some(Remove(text, ','))
    else if key == "BOND_10Y" || key == "ABOVE_200_DAYS" then Some(Remove(text, '%'))
    else if key == "BTC" then Some(Remove(Remove(text, '%'), '+'))
    else Some(text)
  }

  /** The number each key reads out of its text, None where Python raises. */
  function Reading(key: string, text: string): Option<real>
    requires IsNumeric(key)
  {
    match Cleaned(key, text)
    case None => None
    case Some(t) => ParseFloat(t)
  }

  /** BOND_10Y reads the number of its text with every `%` deleted. */
  lemma BondReading(text: string)
    ensures Reading("BOND_10Y", text) == ParseFloat(Remove(text, '%'))
  {
    assert IsNumeric("BOND_10Y");
    assert Cleaned("BOND_10Y", text) == Some(Remove(text, '%'));
  }

  /** A plain numeral has no whitespace, `%`, `,` or `+`, so every key hands
      it to `float()` unchanged. */
  lemma NumeralCleaned(key: string, text: string)
    requires IsNumeric(key) && text != [] && AllNumeral(text)
    ensures ValText(StrValue(text)) == text
    ensures Cleaned(key, text) == Some(text)
  {
    NumeralIsPlain(text);
    SolidText(text);
    RemoveAbsent(text, ',');
    RemoveAbsent(text, '%');
    RemoveAbsent(text, '+');
  }

  /** A plain numeral reads as the number it prints, under every key. */
  lemma NumeralReading(key: string, text: string, x: real)
    requires IsNumeric(key) && PrintsAs(text, x)
    ensures ValText(StrValue(text)) == text
    ensures Reading(key, text) == Some(x)
  {
    NumeralCleaned(key, text);
  }

  /** `bull, bear, diff = value` followed by the comparisons of `diff`
      with 15 and -15. */
  datatype AaiiReading =
    | NotTuple            // not a tuple: "❓" answer
    | Broken              // unpacking or comparing raises
    | Diff(shown: string, d: real)

  function ReadAaii(v: Value): (r: AaiiReading)
    ensures r.NotTuple? <==> !v.Tuple?
    ensures r.Diff? <==> v.Tuple? && |v.items| == 3 && v.items[2].Float?
  {
    if !v.Tuple? then NotTuple
    else if |v.items| == 3 && v.items[2].Float? then
      Diff("多" + StrOf(v.items[0]) + "% | 空" + StrOf(v.items[1]) + "%", v.items[2].x)
    else Broken
  }

  /** The colour of a CNN reading: green up to 45, red from 55, gray in
      between or where there is no reading. */
  function ColorOf(x: Option<real>): int {
    match x
    case None => 0x808080
    case Some(x) => if x <= 45.0 then 0x00FF00 else if x >= 55.0 then 0xFF0000 else 0x808080
  }

  /** The card colour is chosen by the first word of the CNN result (50 where
      it is absent), read as a number; unlike the CNN status the text is not
      stripped first. */
  function CnnColor(results: Dict<Value>): int {
    ColorOf(Reading("CNN", Show(GetOr(results, "CNN", StrValue("50")))))
  }

  /** Stripping first does not change the CNN reading, so the colour reads
      the same number as the CNN status. */
  lemma CnnColorReading(results: Dict<Value>)
    ensures CnnColor(results) == ColorOf(Reading("CNN", ValText(GetOr(results, "CNN", StrValue("50")))))
  {
    StripKeepsFirstToken(Show(GetOr(results, "CNN", StrValue("50"))));
  }

  /** Without a CNN result the default "50" gives gray. */
  lemma MissingCnnIsGray(results: Dict<Value>)
    requires "CNN" !in Keys(results)
    ensures CnnColor(results) == 0x808080
  {
    assert GetOr(results, "CNN", StrValue("50")) == StrValue("50");
    FiftyReads();
  }

  /** The default "50" reads as 50. */
  lemma FiftyReads()
    ensures Show(StrValue("50")) == "50"
    ensures Reading("CNN", "50") == Some(50.0)
  {
    assert NatText(50) == "50" by {
      assert NatText(5) == "5";
    }
    NatTextRoundTrip(50);
    DigitsAreNumerals("50");
    NumeralReading("CNN", "50", 50.0);
  }
}
