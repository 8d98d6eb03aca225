/** The evaluator of dev_main.py: the same strict per-key thresholds as
    main.py for eight indicators, with longer labels and explicit neutral
    labels for BOND_10Y and SKEW, and a card that shows one field per
    indicator that has a truthy value, in a fixed order. */
module DevRevision {
  import opened Common
  import opened Text
  import opened Decimal
  import opened PyValue
  import opened Sentiment
  import opened Fetch
  import opened Legacy
  import opened Report
  import MainRevision

  /** The keys this revision reads a number for. */
  predicate DevNumeric(key: string) {
    key in ["CNN", "VIX", "PUT_CALL", "BOND_10Y", "NAAIM", "SKEW", "ABOVE_200_DAYS"]
  }

  lemma DevNumericIsNumeric(key: string)
    requires DevNumeric(key)
    ensures IsNumeric(key) && key != "AAII"
  {
  }

  /** The labelled outcome of each numeric key once its number is read. */
  function DevRule(key: string, x: real): (st: Status)
    requires DevNumeric(key)
    ensures st.mark == Green || st.mark == Red || st.mark == White
  {
    if key == "CNN" then
      if x <= 25.0 then Status(Green, "極度恐懼 (偏多)")
      else if x <= 45.0 then Status(Green, "恐懼 (偏多)")
      else if x >= 75.0 then Status(Red, "極度貪婪 (偏空)")
      else if x >= 55.0 then Status(Red, "貪婪 (偏空)")
      else Status(White, "中性")
    else if key == "VIX" then
      if x > 30.0 then Status(Green, "市場恐慌 (偏多)") else if x < 15.0 then Status(Red, "市場自滿 (偏空)") else Status(White, "中性")
    else if key == "PUT_CALL" then
      if x > 1.0 then Status(Green, "過度看空 (偏多)") else if x < 0.8 then Status(Red, "過度看多 (偏空)") else Status(White, "中性")
    else if key == "BOND_10Y" then
      if x > 4.5 then Status(Red, "利率過高 (股市承壓)") else if x < 3.5 then Status(Green, "利率舒適 (資金寬鬆)") else Status(White, "利率中性")
    else if key == "NAAIM" then
      if x > 90.0 then Status(Red, "經理人重倉 (偏空)") else if x < 40.0 then Status(Green, "經理人輕倉 (偏多)") else Status(White, "中性")
    else if key == "SKEW" then
      if x > 140.0 then Status(Red, "黑天鵝警戒 (偏空)") else if x < 120.0 then Status(Green, "風險情緒平穩 (偏多)") else Status(White, "避險情緒略增 (中性)")
    else
      if x > 80.0 then Status(Red, "市場過熱 (偏空)") else if x < 20.0 then Status(Green, "市場超賣 (偏多)") else Status(White, "中性")
  }

  /** dev_main.py's `get_indicator_status`: the shown text and the status.
      DXY, RISK_RATIO, BTC and RSI have no branch here and stay neutral. */
  function DevStatus(key: string, v: Value): (string, Status) {
    var text := ValText(v);
    if key == "AAII" then
      match ReadAaii(v)
      case NotTuple => (text, Status(Question, "格式錯誤"))
      case Broken => Unjudged(v)
      case Diff(shown, d) =>
        (shown, if d > 15.0 then Status(Red, "散戶過熱 (偏空)") else if d < -15.0 then Status(Green, "散戶絕望 (偏多)") else Status(White, "中性"))
    else if DevNumeric(key) then
      DevNumericIsNumeric(key);
      match Reading(key, text)
      case None => Unjudged(v)
      case Some(x) => (text, DevRule(key, x))
    else (text, Status(White, "中性"))
  }

  /** No label of dev_main.py's `get_indicator_status` holds a 🟢 or a 🔴. */
  lemma CnnCaptionsArePlain()
    ensures Plain("極度恐懼 (偏多)") && Plain("恐懼 (偏多)") && Plain("極度貪婪 (偏空)") && Plain("貪婪 (偏空)")
  {
  }

  lemma VolatilityCaptionsArePlain()
    ensures Plain("市場恐慌 (偏多)") && Plain("市場自滿 (偏空)") && Plain("過度看空 (偏多)") && Plain("過度看多 (偏空)")
  {
  }

  lemma RateCaptionsArePlain()
    ensures Plain("利率過高 (股市承壓)") && Plain("利率舒適 (資金寬鬆)") && Plain("利率中性")
  {
  }

  lemma PositionCaptionsArePlain()
    ensures Plain("經理人重倉 (偏空)") && Plain("經理人輕倉 (偏多)") && Plain("市場過熱 (偏空)") && Plain("市場超賣 (偏多)")
  {
  }

  lemma TailCaptionsArePlain()
    ensures Plain("黑天鵝警戒 (偏空)") && Plain("風險情緒平穩 (偏多)") && Plain("避險情緒略增 (中性)")
  {
  }

  lemma AaiiCaptionsArePlain()
    ensures Plain("格式錯誤") && Plain("散戶過熱 (偏空)") && Plain("散戶絕望 (偏多)")
  {
  }

  /** The rules of dev_main.py only give labels without 🟢 or 🔴. */
  lemma DevRuleIsPlain(key: string, x: real)
    requires DevNumeric(key)
    ensures Plain(DevRule(key, x).caption)
  {
    NeutralCaptionsArePlain();
    CnnCaptionsArePlain();
    VolatilityCaptionsArePlain();
    RateCaptionsArePlain();
    PositionCaptionsArePlain();
    TailCaptionsArePlain();
  }

  /** The mark is the only place a status of dev_main.py puts its colour. */
  lemma DevStatusIsPlain(key: string, v: Value)
    ensures Plain(DevStatus(key, v).1.caption)
  {
    NeutralCaptionsArePlain();
    if key == "AAII" {
      AaiiCaptionsArePlain();
    } else if DevNumeric(key) {
      NumericDevStatus(key, v);
      match Reading(key, ValText(v))
      case None =>
      case Some(x) => DevRuleIsPlain(key, x);
    }
  }

  /** `"🟢" in status` and `"🔴" in status` in dev_main.py's summary read
      exactly the mark. */
  lemma DevStatusTextCounts(key: string, v: Value)
    ensures Contains(Render(DevStatus(key, v).1), "🟢") <==> DevMark(key, v) == Green
    ensures Contains(Render(DevStatus(key, v).1), "🔴") <==> DevMark(key, v) == Red
  {
    DevStatusIsPlain(key, v);
    RenderedMark(DevStatus(key, v).1);
  }

  function DevMark(key: string, v: Value): Mark {
    DevStatus(key, v).1.mark
  }

  /** A numeric key shows the stripped text with the rule of its number,
      or the raw value with "⚠️" where no number can be read. */
  lemma NumericDevStatus(key: string, v: Value)
    requires DevNumeric(key)
    ensures IsNumeric(key)
    ensures DevStatus(key, v) == match Reading(key, ValText(v))
                                 case None => Unjudged(v)
                                 case Some(x) => (ValText(v), DevRule(key, x))
  {
    DevNumericIsNumeric(key);
  }

  /** A plain numeral is shown as written and judged by its number. */
  lemma NumeralDevStatus(key: string, text: string, x: real)
    requires DevNumeric(key) && PrintsAs(text, x)
    ensures DevStatus(key, StrValue(text)) == (text, DevRule(key, x))
  {
    NumericDevStatus(key, StrValue(text));
    NumeralReading(key, text, x);
  }

  lemma BondThresholds(x: real)
    ensures DevRule("BOND_10Y", x).mark == Red <==> x > 4.5
    ensures DevRule("BOND_10Y", x).mark == Green <==> x < 3.5
    ensures 3.5 <= x <= 4.5 ==> DevRule("BOND_10Y", x) == Status(White, "利率中性")
  {
  }

  lemma SkewThresholds(x: real)
    ensures DevRule("SKEW", x).mark == Red <==> x > 140.0
    ensures DevRule("SKEW", x).mark == Green <==> x < 120.0
    ensures 120.0 <= x <= 140.0 ==> DevRule("SKEW", x) == Status(White, "避險情緒略增 (中性)")
  {
  }

  /** BOND_10Y between 3.5 and 4.5 inclusive is "⚪ 利率中性". */
  lemma BondNeutralBand(text: string, x: real)
    requires PrintsAs(text, x)
    ensures DevMark("BOND_10Y", StrValue(text)) == Red <==> x > 4.5
    ensures DevMark("BOND_10Y", StrValue(text)) == Green <==> x < 3.5
    ensures 3.5 <= x <= 4.5 ==> DevStatus("BOND_10Y", StrValue(text)) == (text, Status(White, "利率中性"))
  {
    NumeralDevStatus("BOND_10Y", text, x);
    BondThresholds(x);
  }

  /** SKEW between 120 and 140 inclusive is "⚪ 避險情緒略增 (中性)". */
  lemma SkewNeutralBand(text: string, x: real)
    requires PrintsAs(text, x)
    ensures DevMark("SKEW", StrValue(text)) == Red <==> x > 140.0
    ensures DevMark("SKEW", StrValue(text)) == Green <==> x < 120.0
    ensures 120.0 <= x <= 140.0 ==> DevStatus("SKEW", StrValue(text)) == (text, Status(White, "避險情緒略增 (中性)"))
  {
    NumeralDevStatus("SKEW", text, x);
    SkewThresholds(x);
  }

  /** The indicators this revision has no branch for are shown stripped and
      neutral, whatever they hold: they are never unreadable. */
  lemma UnlistedKeysAreNeutral(key: string, v: Value)
    requires key in ["DXY", "RISK_RATIO", "BTC", "RSI"]
    ensures DevStatus(key, v) == (ValText(v), Status(White, "中性"))
  {
    assert !DevNumeric(key) && key != "AAII";
  }

  /** Both revisions give each number the same colour; only the labels differ. */
  lemma DevRuleAgreesWithMain(key: string, x: real)
    requires DevNumeric(key)
    ensures IsNumeric(key)
    ensures DevRule(key, x).mark == MainRevision.MainRule(key, x).mark
  {
    DevNumericIsNumeric(key);
  }

  /** On the eight indicators this revision fetches, it marks every value
      exactly as main.py does. */
  lemma DevAgreesWithMain(key: string, v: Value)
    requires key in DevOrder
    ensures DevMark(key, v) == MainRevision.MainMark(key, v)
  {
    if key == "AAII" {
      assert MainRevision.MainStatus(key, v).1.mark == DevStatus(key, v).1.mark;
    } else {
      assert DevNumeric(key);
      NumericDevStatus(key, v);
      MainRevision.NumericMainStatus(key, v);
      match Reading(key, ValText(v))
      case None =>
      case Some(x) => DevRuleAgreesWithMain(key, x);
    }
  }

  const DevWording := Wording("**偏多訊號(綠)**: ", " | **偏空訊號(紅)**: ",
    "🟢 市場偏向恐懼 (可能存在機會)", "🔴 市場偏向貪婪/風險高 (建議謹慎)", "⚪ 市場情緒分歧，建議觀望")

  /** The summary line of this revision: its marks counted over the results. */
  method DevSummary(results: Dict<Value>) returns (text: string)
    ensures text == SummaryText(DevWording, CountMark(MarksOf(results, DevMark), Green),
                                CountMark(MarksOf(results, DevMark), Red))
  {
    text := Summarize(results, DevMark, DevWording);
  }

  /** `fetch_all_indices` fetches in this order. */
  const DevOrder: seq<string> := ["BOND_10Y", "AAII", "PUT_CALL", "VIX", "CNN", "NAAIM", "SKEW", "ABOVE_200_DAYS"]

  /** Three attempts; "抓取失敗" for a short failure tuple; "錯誤: 未知原因失敗"
      after the loop, which three attempts never reach. */
  const DevRunner := Retrying(3, "抓取失敗", "錯誤: 未知原因失敗")

  /** dev_main.py's `fetch_all_indices`, with the RUN_ flags as `enabled`. */
  method DevFetchAll(enabled: string -> bool, fetchers: string -> Fetcher)
    returns (results: Dict<Value>, failed: seq<string>)
    ensures Keys(results) == Filter(DevOrder, enabled)
    ensures forall e | e in results :: e.1 == Retry(fetchers(e.0), 3, "抓取失敗", "錯誤: 未知原因失敗").0
    ensures failed == FailedKeys(results)
  {
    results, failed := FetchAll(DevOrder, enabled, fetchers, DevRunner);
    FetchedKeys(DevOrder, enabled, fetchers, DevRunner);
    FetchedValues(DevOrder, enabled, fetchers, DevRunner);
  }

  /** The order of the indicator fields on the card. */
  const CardOrder: seq<string> := ["BOND_10Y", "CNN", "VIX", "PUT_CALL", "AAII", "NAAIM", "SKEW", "ABOVE_200_DAYS"]

  /** The display name of a key, or the key itself where it has none. */
  function DevName(key: string): string {
    if key == "BOND_10Y" then "🇺🇸 10年期公債殖利率"
    else if key == "CNN" then "😱 CNN 恐懼貪婪"
    else if key == "VIX" then "🌪️ VIX 波動率"
    else if key == "PUT_CALL" then "⚖️ Put/Call Ratio"
    else if key == "AAII" then "🐂 AAII 散戶情緒"
    else if key == "NAAIM" then "🏦 NAAIM 經理人"
    else if key == "SKEW" then "🦢 SKEW 黑天鵝"
    else if key == "ABOVE_200_DAYS" then "📈 >200日線比例"
    else key
  }

  /** Whether the results hold a truthy value under the key. */
  predicate Shown(results: Dict<Value>, k: string) {
    Get(results, k).Some? && Truthy(Get(results, k).value)
  }

  function ShownIn(results: Dict<Value>): string -> bool {
    k => Shown(results, k)
  }

  /** The keys that get a field, in card order. */
  function ShownKeys(results: Dict<Value>): seq<string> {
    Filter(CardOrder, ShownIn(results))
  }

  /** The field of one indicator: its name, then the shown text and the
      status on two lines. */
  function FieldOf(k: string, v: Value): Field {
    var (text, st) := DevStatus(k, v);
    Field(DevName(k), text + "\n" + Render(st), true)
  }

  /** The fields of `keys`, each with the value stored under it. */
  function FieldsOf(results: Dict<Value>, keys: seq<string>, mk: (string, Value) -> Field): (fs: seq<Field>)
    ensures |fs| == |keys|
  {
    seq(|keys|, i requires 0 <= i < |keys| => mk(keys[i], GetOr(results, keys[i], StrValue(""))))
  }

  /** One more key adds its field at the end. */
  lemma FieldsOfSnoc(results: Dict<Value>, keys: seq<string>, k: string, mk: (string, Value) -> Field)
    ensures FieldsOf(results, keys + [k], mk) == FieldsOf(results, keys, mk) + [mk(k, GetOr(results, k, StrValue("")))]
  {
  }

  /** The summary and the market text head the card. */
  function DevHeading(summary: string, marketText: string): seq<Field> {
    [Field("🔮 市場情緒總結", summary, false),
     Field("📊 美股大盤指數", if marketText != "" then marketText else "無法讀取", false)]
  }

  /** The card fields: one per key of the order, in that order, for each
      key whose result is present and truthy; other keys are skipped. */
  method SelectFields(results: Dict<Value>, order: seq<string>, mk: (string, Value) -> Field) returns (fields: seq<Field>)
    ensures fields == FieldsOf(results, Filter(order, ShownIn(results)), mk)
  {
    var p := ShownIn(results);
    fields := [];
    var i := 0;
    while i < |order|
      invariant 0 <= i <= |order|
      invariant fields == FieldsOf(results, Filter(order[..i], p), mk)
    {
      var k := order[i];
      FilterConcat(order[..i], [k], p);
      assert order[..i + 1] == order[..i] + [k];
      var val := Get(results, k);
      if val.Some? && Truthy(val.value) {
        assert Filter([k], p) == [k];
        FieldsOfSnoc(results, Filter(order[..i], p), k, mk);
        fields := fields + [mk(k, val.value)];
      } else {
        assert Filter([k], p) == [];
      }
      i := i + 1;
    }
    assert order[..i] == order;
  }

  /** The `fields` list: the heading, then the indicators in card order. */
  method DevFields(results: Dict<Value>, marketText: string, summary: string) returns (fields: seq<Field>)
    ensures fields == DevHeading(summary, marketText) + FieldsOf(results, ShownKeys(results), FieldOf)
  {
    var indicators := SelectFields(results, CardOrder, FieldOf);
    fields := DevHeading(summary, marketText) + indicators;
  }

  lemma CardOrderIsDistinct()
    ensures Distinct(CardOrder)
  {
  }

  /** A key gets a field exactly when it is in the card order and its value
      is present and truthy; the fields keep the card order, one per key. */
  lemma ShownKeysSpec(results: Dict<Value>)
    ensures forall k :: k in ShownKeys(results) <==> k in CardOrder && Shown(results, k)
    ensures IsSubsequence(ShownKeys(results), CardOrder)
    ensures Distinct(ShownKeys(results))
  {
    FilterIsSubsequence(CardOrder, ShownIn(results));
    CardOrderIsDistinct();
    FilterKeepsDistinct(CardOrder, ShownIn(results));
  }

  /** A missing indicator, or one whose value is falsy (an empty text, a
      zero, an empty tuple), gets no field. */
  lemma FalsyHasNoField(results: Dict<Value>, k: string)
    requires k !in Keys(results) || !Truthy(GetOr(results, k, StrValue("")))
    ensures k !in ShownKeys(results)
  {
  }

  /** dev_main.py's card. */
  datatype Card = Card(title: string, color: int, fields: seq<Field>, footer: string)

  /** `send_discord_embed`: nothing without a webhook URL, otherwise the
      card coloured by CNN and the fields in card order. */
  method DevSendEmbed(results: Dict<Value>, marketText: string, summary: string, url: Option<string>, today: string)
    returns (card: Option<Card>)
    ensures (url.None? || url == Some("")) <==> card.None?
    ensures card.Some? ==>
      card.value == Card("📅 每日財經情緒日報 (" + today + ")", CnnColor(results),
                         DevHeading(summary, marketText) + FieldsOf(results, ShownKeys(results), FieldOf),
                         "Github Actions Auto Bot (API v2.4)")
  {
    if url.None? || url == Some("") {
      return None;
    }
    var fields := DevFields(results, marketText, summary);
    card := Some(Card("📅 每日財經情緒日報 (" + today + ")", CnnColor(results), fields, "Github Actions Auto Bot (API v2.4)"));
  }
}
