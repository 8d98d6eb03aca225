/** The Discord card of the current revision (`send_discord` in utils.py):
    colour and picture from the overall count, then the summary, the market
    text and one field per category, separated by blank spacer fields. */
module Report {
  import opened Common
  import opened Text
  import opened PyValue
  import opened Registry
  import opened Sentiment
  import opened Utils

  datatype Field = Field(name: string, value: string, inline: bool)

  /** The three picture links of the card, one per overall mood. */
  datatype Picture = BullPicture | BearPicture | NeutralPicture

  datatype Embed = Embed(title: string, color: int, fields: seq<Field>, image: Picture, footer: string)

  /** The spacer field: a name and a value that are both a zero-width space. */
  const Spacer := Field("\U{200B}", "\U{200B}", false)

  /** The keys of one category, in registry order: the registered keys
      whose category is `c`
      (CategoryMembership and CategoriesCoverRegistry). */
  function CategoryKeys(c: Category): seq<string> {
    match c
    case Macro => ["BOND_10Y", "DXY", "HYG", "BTC"]
    case Struct => ["IWM", "SOXX", "RISK_RATIO"]
    case Tech => ["RSI", "VIX", "CNN", "ABOVE_200_DAYS"]
    case Fund => ["NAAIM", "SKEW", "AAII", "PUT_CALL"]
  }

  predicate InCategory(c: Category, k: string) {
    Lookup(k).Some? && Lookup(k).value.category == c
  }

  /** What the card shows as the value: an AAII tuple shows its bull and bear
      percentages, anything else its `str()`. */
  function Display(key: string, val: Value): string {
    if key == "AAII" && val.Tuple? && |val.items| >= 3
    then "多" + StrOf(val.items[0]) + "% | 空" + StrOf(val.items[1]) + "%"
    else Show(val)
  }

  /** The status function the card uses (`get_indicator_status`); the layout
      below is written for any such function. */
  type Judging = (string, Value) -> Status

  /** One `(key, cfg)` item of the registry. */
  type Entry = (string, Spec)

  /** One report line: a quote marker, the indicator's name, its value in bold
      and its status in brackets, with "N/A" for a missing result. */
  function Line(results: Dict<Value>, e: Entry, judge: Judging): string {
    var val := GetOr(results, e.0, StrValue("N/A"));
    "> " + e.1.name + ": **" + Display(e.0, val) + "** (" + Render(judge(e.0, val)) + ")\n"
  }

  /** The lines of `entries`, in order. */
  function Section(results: Dict<Value>, entries: seq<Entry>, judge: Judging): string {
    if entries == [] then ""
    else Section(results, entries[..|entries| - 1], judge) + Line(results, entries[|entries| - 1], judge)
  }

  /** The lines of one category, appended in registry order. */
  method RenderSection(results: Dict<Value>, entries: seq<Entry>, judge: Judging) returns (content: string)
    ensures content == Section(results, entries, judge)
  {
    content := "";
    var j := 0;
    while j < |entries|
      invariant 0 <= j <= |entries|
      invariant content == Section(results, entries[..j], judge)
    {
      assert entries[..j + 1][..j] == entries[..j];
      content := content + Line(results, entries[j], judge);
      j := j + 1;
    }
    assert entries[..|entries|] == entries;
  }

  /** A titled group of registry items: one field of the card. */
  type Group = (string, seq<Entry>)

  /** The field of the `i`-th group, followed by a spacer unless it is the last. */
  function Block(results: Dict<Value>, groups: seq<Group>, i: nat, judge: Judging): (b: seq<Field>)
    requires i < |groups|
    ensures |b| == if i < |groups| - 1 then 2 else 1
    ensures b[0].name == groups[i].0 && !b[0].inline
    ensures |b| == 2 ==> b[1] == Spacer
  {
    [Field(groups[i].0, Section(results, groups[i].1, judge), false)]
    + (if i < |groups| - 1 then [Spacer] else [])
  }

  /** The blocks of the first `n` groups. */
  function Blocks(results: Dict<Value>, groups: seq<Group>, n: nat, judge: Judging): (fs: seq<Field>)
    requires n <= |groups|
    ensures |fs| == if n == |groups| && n > 0 then 2 * n - 1 else 2 * n
  {
    if n == 0 then [] else Blocks(results, groups, n - 1, judge) + Block(results, groups, n - 1, judge)
  }

  function Heading(summary: string, marketText: string): seq<Field> {
    [Field("🔮 市場情緒總結", summary, false), Field("📊 美股大盤指數", marketText, false), Spacer]
  }

  /** The `fields` list of the card, built as the source builds it. */
  method BuildFields(results: Dict<Value>, marketText: string, summary: string, groups: seq<Group>, judge: Judging)
    returns (fields: seq<Field>)
    ensures fields == Heading(summary, marketText) + Blocks(results, groups, |groups|, judge)
  {
    fields := Heading(summary, marketText);
    var i := 0;
    while i < |groups|
      invariant 0 <= i <= |groups|
      invariant fields == Heading(summary, marketText) + Blocks(results, groups, i, judge)
    {
      var before := fields;
      var content := RenderSection(results, groups[i].1, judge);
      fields := fields + [Field(groups[i].0, content, false)];
      if i < |groups| - 1 {
        fields := fields + [Spacer];
      }
      assert fields == before + Block(results, groups, i, judge);
      ConcatAssoc(Heading(summary, marketText), Blocks(results, groups, i, judge), Block(results, groups, i, judge));
      i := i + 1;
    }
  }

  /** With four groups the card has ten fields: summary, market, spacer,
      then the groups in order with a spacer between each two. */
  lemma FieldsLayout(results: Dict<Value>, summary: string, marketText: string, groups: seq<Group>, judge: Judging)
    requires |groups| == 4
    ensures var fs := Heading(summary, marketText) + Blocks(results, groups, 4, judge);
            |fs| == 10
            && fs[0].value == summary && fs[1].value == marketText
            && fs[2] == fs[4] == fs[6] == fs[8] == Spacer
            && fs[3].name == groups[0].0 && fs[5].name == groups[1].0
            && fs[7].name == groups[2].0 && fs[9].name == groups[3].0
  {
    var b0, b1 := Block(results, groups, 0, judge), Block(results, groups, 1, judge);
    var b2, b3 := Block(results, groups, 2, judge), Block(results, groups, 3, judge);
    var fs := Heading(summary, marketText) + Blocks(results, groups, 4, judge);
    assert Blocks(results, groups, 4, judge) == b0 + b1 + b2 + b3 by {
      assert Blocks(results, groups, 1, judge) == b0;
      assert Blocks(results, groups, 2, judge) == b0 + b1;
      assert Blocks(results, groups, 3, judge) == b0 + b1 + b2;
    }
    assert fs == Heading(summary, marketText) + b0 + b1 + b2 + b3;
    assert fs[3] == b0[0] && fs[4] == b0[1] && fs[5] == b1[0] && fs[6] == b1[1];
    assert fs[7] == b2[0] && fs[8] == b2[1] && fs[9] == b3[0];
  }

  /** The items of one category: each key with its registry entry. */
  function CategoryEntries(c: Category): seq<Entry> {
    match c
    case Macro =>
      MacroFiled();
      [("BOND_10Y", Lookup("BOND_10Y").value), ("DXY", Lookup("DXY").value),
       ("HYG", Lookup("HYG").value), ("BTC", Lookup("BTC").value)]
    case Struct =>
      StructFiled();
      [("IWM", Lookup("IWM").value), ("SOXX", Lookup("SOXX").value), ("RISK_RATIO", Lookup("RISK_RATIO").value)]
    case Tech =>
      TechFiled();
      [("RSI", Lookup("RSI").value), ("VIX", Lookup("VIX").value),
       ("CNN", Lookup("CNN").value), ("ABOVE_200_DAYS", Lookup("ABOVE_200_DAYS").value)]
    case Fund =>
      FundFiled();
      [("NAAIM", Lookup("NAAIM").value), ("SKEW", Lookup("SKEW").value),
       ("AAII", Lookup("AAII").value), ("PUT_CALL", Lookup("PUT_CALL").value)]
  }

  /** The four categories of the card, each with its title and its items. */
  function CardGroups(): seq<Group> {
    [(Categories[0].1, CategoryEntries(Categories[0].0)), (Categories[1].1, CategoryEntries(Categories[1].0)),
     (Categories[2].1, CategoryEntries(Categories[2].0)), (Categories[3].1, CategoryEntries(Categories[3].0))]
  }

  /** Each item of a category is a registry entry under its own key. */
  lemma CategoryEntriesAreRegistered(c: Category)
    ensures |CategoryEntries(c)| == |CategoryKeys(c)|
    ensures forall i :: 0 <= i < |CategoryKeys(c)| ==>
              CategoryEntries(c)[i].0 == CategoryKeys(c)[i] && Lookup(CategoryKeys(c)[i]) == Some(CategoryEntries(c)[i].1)
  {
    FiledUnder(c);
    forall i | 0 <= i < |CategoryKeys(c)|
      ensures CategoryEntries(c)[i].0 == CategoryKeys(c)[i] && Lookup(CategoryKeys(c)[i]) == Some(CategoryEntries(c)[i].1)
    {
      assert CategoryKeys(c)[i] in CategoryKeys(c);
    }
  }

  /** Every key listed under a category is registered under it. */
  lemma FiledUnder(c: Category)
    ensures forall k | k in CategoryKeys(c) :: InCategory(c, k)
  {
    match c
    case Macro => MacroFiled();
    case Struct => StructFiled();
    case Tech => TechFiled();
    case Fund => FundFiled();
  }

  lemma MacroFiled()
    ensures InCategory(Macro, "BOND_10Y") && InCategory(Macro, "DXY") && InCategory(Macro, "HYG") && InCategory(Macro, "BTC")
  {
  }

  lemma StructFiled()
    ensures InCategory(Struct, "IWM") && InCategory(Struct, "SOXX") && InCategory(Struct, "RISK_RATIO")
  {
  }

  lemma TechFiled()
    ensures InCategory(Tech, "RSI") && InCategory(Tech, "VIX") && InCategory(Tech, "CNN") && InCategory(Tech, "ABOVE_200_DAYS")
  {
  }

  lemma FundFiled()
    ensures InCategory(Fund, "NAAIM") && InCategory(Fund, "SKEW") && InCategory(Fund, "AAII") && InCategory(Fund, "PUT_CALL")
  {
  }

  /** The registry is grouped by category in the order the card shows the
      categories, so the four category lists read one after the other give
      back the registry: every indicator is shown exactly once. */
  lemma CategoriesCoverRegistry()
    ensures CategoryKeys(Macro) + CategoryKeys(Struct) + CategoryKeys(Tech) + CategoryKeys(Fund) == IndicatorKeys
  {
  }

  /** A key is listed under a category exactly when the registry files it there. */
  lemma CategoryMembership(c: Category, k: string)
    ensures k in CategoryKeys(c) <==> InCategory(c, k)
  {
    if k in CategoryKeys(c) {
      FiledUnder(c);
    }
    if InCategory(c, k) {
      CategoriesCoverRegistry();
      var home := if k in CategoryKeys(Macro) then Macro
                  else if k in CategoryKeys(Struct) then Struct
                  else if k in CategoryKeys(Tech) then Tech
                  else Fund;
      FiledUnder(home);
    }
  }


  /** A missing indicator is listed as "N/A", and "N/A" is unreadable. */
  lemma MissingIndicatorLine(results: Dict<Value>, e: Entry)
    requires e.0 !in Keys(results)
    ensures Line(results, e, IndicatorStatus) == "> " + e.1.name + ": **N/A** (⚠️ 無法判讀)\n"
  {
    var v := StrValue("N/A");
    assert Contains("N/A", "N/A") by { assert StartsWith("N/A", "N/A"); }
    assert IndicatorStatus(e.0, v) == Status(Warning, "無法判讀");
  }

  /** The card colour: green on more bulls, red on more bears, gray otherwise. */
  function CardColor(bulls: nat, bears: nat): int {
    if bulls > bears then 0x2ecc71 else if bears > bulls then 0xe74c3c else 0x95a5a6
  }

  function CardPicture(bulls: nat, bears: nat): Picture {
    if bulls > bears then BullPicture else if bears > bulls then BearPicture else NeutralPicture
  }

  /** The colour and the picture of the card agree with the summary's verdict. */
  lemma CardFollowsVerdict(bulls: nat, bears: nat)
    ensures CardColor(bulls, bears) == 0x2ecc71 <==> LeanOf(bulls, bears) == RiskOn
    ensures CardColor(bulls, bears) == 0xe74c3c <==> LeanOf(bulls, bears) == RiskOff
    ensures CardColor(bulls, bears) == 0x95a5a6 <==> LeanOf(bulls, bears) == Split
    ensures CardPicture(bulls, bears) == BullPicture <==> LeanOf(bulls, bears) == RiskOn
    ensures CardPicture(bulls, bears) == BearPicture <==> LeanOf(bulls, bears) == RiskOff
  {
  }

  /** `send_discord`: nothing without a webhook URL (None or empty),
      otherwise the card that is posted. */
  method SendDiscord(results: Dict<Value>, marketText: string, summary: string, url: Option<string>, today: string)
    returns (card: Option<Embed>)
    ensures (url.None? || url == Some("")) <==> card.None?
    ensures card.Some? ==>
      var bulls := CountMark(MarksOf(results, UtilsMark), Green);
      var bears := CountMark(MarksOf(results, UtilsMark), Red);
      card.value == Embed("📅 每日財經情緒日報 (" + today + ")", CardColor(bulls, bears),
                          Heading(summary, marketText) + Blocks(results, CardGroups(), 4, IndicatorStatus),
                          CardPicture(bulls, bears), "Bot v5.5 (Wide Layout)")
  {
    if url.None? || url == Some("") {
      return None;
    }
    var bulls, bears := Tally(results, UtilsMark);
    var color := 0x95a5a6;
    var picture := NeutralPicture;
    if bulls > bears {
      color, picture := 0x2ecc71, BullPicture;
    } else if bears > bulls {
      color, picture := 0xe74c3c, BearPicture;
    }
    var fields := BuildFields(results, marketText, summary, CardGroups(), IndicatorStatus);
    card := Some(Embed("📅 每日財經情緒日報 (" + today + ")", color, fields, picture, "Bot v5.5 (Wide Layout)"));
  }
}
