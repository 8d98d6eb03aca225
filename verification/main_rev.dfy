/** The evaluator of main.py: per-key literal thresholds with strict
    comparisons, a three-attempt fetch loop over twelve indicators, and a
    card coloured by the CNN reading. */
module MainRevision {
  import opened Common
  import opened Text
  import opened Decimal
  import opened PyValue
  import opened Sentiment
  import opened Fetch
  import opened Legacy
  import Utils

  /** The labelled outcome of each numeric key once its number is read. */
  function MainRule(key: string, x: real): (st: Status)
    requires IsNumeric(key)
    ensures st.mark == Green || st.mark == Red || st.mark == White
  {
    if key == "CNN" then
      if x <= 25.0 then Status(Green, "極恐懼")
      else if x <= 45.0 then Status(Green, "恐懼")
      else if x >= 75.0 then Status(Red, "極貪婪")
      else if x >= 55.0 then Status(Red, "貪婪")
      else Status(White, "中性")
    else if key == "VIX" then
      if x > 30.0 then Status(Green, "恐慌") else if x < 15.0 then Status(Red, "自滿") else Status(White, "中性")
    else if key == "PUT_CALL" then
      if x > 1.0 then Status(Green, "看空過度") else if x < 0.8 then Status(Red, "看多過度") else Status(White, "中性")
    else if key == "BOND_10Y" then
      if x > 4.5 then Status(Red, "利率高") else if x < 3.5 then Status(Green, "利率低") else Status(White, "中性")
    else if key == "DXY" then
      if x > 105.0 then Status(Red, "強勢 (緊縮)") else if x < 101.0 then Status(Green, "弱勢 (寬鬆)") else Status(White, "中性")
    else if key == "BTC" then
      if x > 3.0 then Status(Green, "大漲") else if x < -3.0 then Status(Red, "大跌") else Status(White, "中性")
    else if key == "RSI" then
      if x > 70.0 then Status(Red, "過熱")
      else if x < 30.0 then Status(Green, "超賣")
      else if x > 60.0 then Status(White, "強勢")
      else if x < 40.0 then Status(White, "弱勢")
      else Status(White, "中性")
    else if key == "NAAIM" then
      if x > 90.0 then Status(Red, "重倉") else if x < 40.0 then Status(Green, "輕倉") else Status(White, "中性")
    else if key == "SKEW" then
      if x > 140.0 then Status(Red, "警戒") else if x < 120.0 then Status(Green, "平穩") else Status(White, "中性")
    else
      if x > 80.0 then Status(Red, "過熱") else if x < 20.0 then Status(Green, "超賣") else Status(White, "中性")
  }

  /** main.py's `get_indicator_status`: the shown text and the status. */
  function MainStatus(key: string, v: Value): (string, Status) {
    var text := ValText(v);
    if key == "RISK_RATIO" then
      (text, if Contains(text, "↗️") then Status(Green, "Risk On")
             else if Contains(text, "↘️") then Status(Red, "Risk Off")
             else Status(White, "中性"))
    else if key == "AAII" then
      match ReadAaii(v)
      case NotTuple => (text, Status(Question, "錯誤"))
      case Broken => Unjudged(v)
      case Diff(shown, d) =>
        (shown, if d > 15.0 then Status(Red, "過熱") else if d < -15.0 then Status(Green, "絕望") else Status(White, "中性"))
    else if IsNumeric(key) then
      match Reading(key, text)
      case None => Unjudged(v)
      case Some(x) => (text, MainRule(key, x))
    else (text, Status(White, "中性"))
  }

  /** No label of main.py's `get_indicator_status` holds a 🟢 or a 🔴. */
  lemma CnnCaptionsArePlain()
    ensures Plain("極恐懼") && Plain("恐懼") && Plain("極貪婪") && Plain("貪婪")
  {
  }

  lemma VolatilityCaptionsArePlain()
    ensures Plain("恐慌") && Plain("自滿") && Plain("看空過度") && Plain("看多過度")
  {
  }

  lemma RateCaptionsArePlain()
    ensures Plain("利率高") && Plain("利率低") && Plain("強勢 (緊縮)") && Plain("弱勢 (寬鬆)")
  {
  }

  lemma BreadthCaptionsArePlain()
    ensures Plain("大漲") && Plain("大跌") && Plain("過熱") && Plain("超賣")
  {
  }

  lemma PositionCaptionsArePlain()
    ensures Plain("強勢") && Plain("弱勢") && Plain("重倉") && Plain("輕倉")
  {
  }

  lemma TailCaptionsArePlain()
    ensures Plain("警戒") && Plain("平穩") && Plain("錯誤") && Plain("絕望")
  {
  }

  /** The rules of main.py only give labels without 🟢 or 🔴. */
  lemma MainRuleIsPlain(key: string, x: real)
    requires IsNumeric(key)
    ensures Plain(MainRule(key, x).caption)
  {
    NeutralCaptionsArePlain();
    CnnCaptionsArePlain();
    VolatilityCaptionsArePlain();
    RateCaptionsArePlain();
    BreadthCaptionsArePlain();
    PositionCaptionsArePlain();
    TailCaptionsArePlain();
  }

  /** The mark is the only place a status of main.py puts its colour. */
  lemma MainStatusIsPlain(key: string, v: Value)
    ensures Plain(MainStatus(key, v).1.caption)
  {
    NeutralCaptionsArePlain();
    if key == "RISK_RATIO" {
      Utils.ArrowCaptionsArePlain();
    } else if key == "AAII" {
      TailCaptionsArePlain();
      BreadthCaptionsArePlain();
    } else if IsNumeric(key) {
      NumericMainStatus(key, v);
      match Reading(key, ValText(v))
      case None =>
      case Some(x) => MainRuleIsPlain(key, x);
    }
  }

  /** `"🟢" in status` and `"🔴" in status` in `calculate_sentiment_summary`
      read exactly the mark. */
  lemma MainStatusTextCounts(key: string, v: Value)
    ensures Contains(Render(MainStatus(key, v).1), "🟢") <==> MainMark(key, v) == Green
    ensures Contains(Render(MainStatus(key, v).1), "🔴") <==> MainMark(key, v) == Red
  {
    MainStatusIsPlain(key, v);
    RenderedMark(MainStatus(key, v).1);
  }

  function MainMark(key: string, v: Value): Mark {
    MainStatus(key, v).1.mark
  }

  /** RISK_RATIO and AAII have rules of their own. */
  lemma NumericKeysAreOrdinary(key: string)
    requires IsNumeric(key)
    ensures key != "RISK_RATIO" && key != "AAII"
  {
  }

  /** A numeric key shows the stripped text with the rule of its number,
      or the raw value with "⚠️" where no number can be read. */
  lemma NumericMainStatus(key: string, v: Value)
    requires IsNumeric(key)
    ensures MainStatus(key, v) == match Reading(key, ValText(v))
                                  case None => Unjudged(v)
                                  case Some(x) => (ValText(v), MainRule(key, x))
  {
    NumericKeysAreOrdinary(key);
  }

  /** A plain numeral is shown as written and judged by its number. */
  lemma NumeralMainStatus(key: string, text: string, x: real)
    requires IsNumeric(key) && PrintsAs(text, x)
    ensures MainStatus(key, StrValue(text)) == (text, MainRule(key, x))
  {
    NumeralReading(key, text, x);
    NumericMainStatus(key, StrValue(text));
  }

  lemma CnnThresholds(x: real)
    ensures MainRule("CNN", x).mark == Green <==> x <= 45.0
    ensures MainRule("CNN", x).mark == Red <==> x >= 55.0
  {
  }

  /** CNN: green up to 45 (extreme fear up to 25), red from 55 (extreme
      greed from 75), neutral strictly between. */
  lemma CnnRule(text: string, x: real)
    requires PrintsAs(text, x)
    ensures MainMark("CNN", StrValue(text)) == Green <==> x <= 45.0
    ensures MainMark("CNN", StrValue(text)) == Red <==> x >= 55.0
  {
    NumeralMainStatus("CNN", text, x);
    CnnThresholds(x);
  }

  lemma RsiThresholds(x: real)
    ensures MainRule("RSI", x).mark == Green <==> x < 30.0
    ensures MainRule("RSI", x).mark == Red <==> x > 70.0
    ensures 60.0 < x <= 70.0 ==> MainRule("RSI", x) == Status(White, "強勢")
    ensures 30.0 <= x < 40.0 ==> MainRule("RSI", x) == Status(White, "弱勢")
  {
  }

  /** RSI: only beyond 30 and 70 does it count; the 60 and 40 bands are
      labelled but neutral. */
  lemma RsiRule(text: string, x: real)
    requires PrintsAs(text, x)
    ensures MainMark("RSI", StrValue(text)) == Green <==> x < 30.0
    ensures MainMark("RSI", StrValue(text)) == Red <==> x > 70.0
    ensures 60.0 < x <= 70.0 ==> MainStatus("RSI", StrValue(text)).1 == Status(White, "強勢")
    ensures 30.0 <= x < 40.0 ==> MainStatus("RSI", StrValue(text)).1 == Status(White, "弱勢")
  {
    NumeralMainStatus("RSI", text, x);
    RsiThresholds(x);
  }

  /** AAII: a `(bull, bear, diff)` triple is red above 15 and green below
      -15; anything but a tuple is a "❓". */
  lemma AaiiRule(bull: Atom, bear: Atom, d: real, repr: string)
    ensures var st := MainStatus("AAII", Tuple([bull, bear, Float(d, repr)])).1;
            (st.mark == Red <==> d > 15.0) && (st.mark == Green <==> d < -15.0)
  {
  }

  /** "❓" is reserved for an AAII value that is not a tuple, and every
      "⚠️" shows the value as it is. */
  lemma QuestionAndWarning(key: string, v: Value)
    ensures MainMark(key, v) == Question <==> key == "AAII" && !v.Tuple?
    ensures MainMark(key, v) == Warning ==> MainStatus(key, v).0 == Show(v)
  {
    if key == "RISK_RATIO" {
      RiskRatioMarks(v);
    } else if key == "AAII" {
      AaiiMarks(v);
    } else if IsNumeric(key) {
      NumericMainStatus(key, v);
      NumericMarks(key, v);
    } else {
      assert MainMark(key, v) == White;
    }
  }

  lemma RiskRatioMarks(v: Value)
    ensures MainMark("RISK_RATIO", v) != Question && MainMark("RISK_RATIO", v) != Warning
  {
    assert MainMark("RISK_RATIO", v) in {Green, Red, White};
  }

  lemma AaiiMarks(v: Value)
    ensures MainMark("AAII", v) == Question <==> !v.Tuple?
    ensures MainMark("AAII", v) == Warning ==> MainStatus("AAII", v).0 == Show(v)
  {
    match ReadAaii(v)
    case NotTuple =>
    case Broken => assert MainStatus("AAII", v) == Unjudged(v);
    case Diff(_, _) => assert MainMark("AAII", v) != Question && MainMark("AAII", v) != Warning;
  }

  lemma NumericMarks(key: string, v: Value)
    requires IsNumeric(key)
    ensures var st := match Reading(key, ValText(v))
                      case None => Unjudged(v)
                      case Some(x) => (ValText(v), MainRule(key, x));
            st.1.mark != Question && (st.1.mark == Warning ==> st.0 == Show(v))
  {
  }

  /** A value that cannot be read is shown as it is, with "⚠️ 無法判讀". */
  lemma UnreadableNumber(key: string, v: Value)
    requires IsNumeric(key) && Reading(key, ValText(v)).None?
    ensures MainStatus(key, v) == (Show(v), Status(Warning, "無法判讀"))
  {
    NumericMainStatus(key, v);
  }

  /** BOND_10Y: wherever both evaluators read the same number from a value
      that passes the guard of utils.py, the strict bounds of this revision
      and the inclusive bounds of the registry rule give the same mark
      except exactly at 3.5 and 4.5, where this revision says neutral. */
  lemma BondReadingsDiffer(v: Value, x: real)
    requires Reading("BOND_10Y", ValText(v)) == Some(x)
    requires Utils.Number(Show(v)) == Some(x) && !Utils.Unreadable(v)
    ensures MainMark("BOND_10Y", v) != Utils.UtilsMark("BOND_10Y", v) <==> x == 3.5 || x == 4.5
    ensures x == 4.5 ==> MainMark("BOND_10Y", v) == White && Utils.UtilsMark("BOND_10Y", v) == Red
  {
    NumericMainStatus("BOND_10Y", v);
    assert Utils.Subject("BOND_10Y", v) == v;
    Utils.JudgedStatus("BOND_10Y", v, x);
    BondThresholds(x);
    Utils.BondJudge(x, Show(v));
  }

  /** On a plain numeral the two revisions disagree exactly at 3.5 and 4.5. */
  lemma BondAgreesWithRegistryExceptAtBounds(text: string, x: real)
    requires PrintsAs(text, x)
    ensures MainMark("BOND_10Y", StrValue(text)) != Utils.UtilsMark("BOND_10Y", StrValue(text))
            <==> x == 3.5 || x == 4.5
    ensures x == 4.5 ==> MainMark("BOND_10Y", StrValue(text)) == White
                         && Utils.UtilsMark("BOND_10Y", StrValue(text)) == Red
  {
    NumeralReading("BOND_10Y", text, x);
    Utils.NumeralIsReadable("BOND_10Y", text, x);
    BondReadingsDiffer(StrValue(text), x);
  }

  /** A yield as the BOND_10Y fetcher prints it, a numeral followed by `%`,
      passes the guard of utils.py, and both evaluators read its number. */
  lemma PercentReading(text: string, x: real)
    requires PrintsAs(text, x)
    ensures ValText(StrValue(text + "%")) == text + "%"
    ensures Reading("BOND_10Y", text + "%") == Some(x)
    ensures Utils.Number(text + "%") == Some(x)
    ensures !Utils.Unreadable(StrValue(text + "%"))
  {
    PercentIsSolid(text);
    PercentCleans(text, x);
    PercentLacksGuardWords(text);
  }

  lemma PercentIsSolid(text: string)
    requires text != [] && AllNumeral(text)
    ensures ValText(StrValue(text + "%")) == text + "%"
  {
    var t := text + "%";
    forall i | 0 <= i < |t| ensures !IsSpace(t[i]) {
      if i < |text| { assert t[i] == text[i] && IsNumeral(text[i]); }
    }
    SolidText(t);
  }

  lemma PercentCleans(text: string, x: real)
    requires PrintsAs(text, x)
    ensures Reading("BOND_10Y", text + "%") == Some(x)
    ensures Utils.Number(text + "%") == Some(x)
  {
    PercentClean(text);
    BondReading(text + "%");
    PercentNumber(text, x);
  }

  lemma PercentNumber(text: string, x: real)
    requires PrintsAs(text, x) && Utils.Clean(text + "%") == text
    ensures Utils.Number(text + "%") == Some(x)
  {
    NumeralIsPlain(text);
    SolidText(text);
  }

  lemma PercentClean(text: string)
    requires AllNumeral(text)
    ensures Remove(text + "%", '%') == text
    ensures Utils.Clean(text + "%") == text
  {
    NumeralIsPlain(text);
    RemoveLast(text, '%');
    RemoveAbsent(text, '+');
    RemoveAbsent(text, ',');
  }

  lemma PercentLacksGuardWords(text: string)
    requires AllNumeral(text)
    ensures !Utils.Unreadable(StrValue(text + "%"))
  {
    var t := text + "%";
    assert Show(StrValue(t)) == t;
    forall i | 0 <= i < |t| ensures t[i] != 'E' && t[i] != 'N' {
      if i < |text| { assert t[i] == text[i] && IsNumeral(text[i]); }
    }
    ContainsFirstChar(t, "Error");
    ContainsFirstChar(t, "N/A");
  }

  /** The same disagreement holds for the text main.py's BOND_10Y fetcher
      actually returns, such as "4.50%". */
  lemma BondPercentAgreesWithRegistryExceptAtBounds(text: string, x: real)
    requires PrintsAs(text, x)
    ensures MainMark("BOND_10Y", StrValue(text + "%")) != Utils.UtilsMark("BOND_10Y", StrValue(text + "%"))
            <==> x == 3.5 || x == 4.5
    ensures x == 4.5 ==> MainMark("BOND_10Y", StrValue(text + "%")) == White
                         && Utils.UtilsMark("BOND_10Y", StrValue(text + "%")) == Red
  {
    PercentReading(text, x);
    BondReadingsDiffer(StrValue(text + "%"), x);
  }

  lemma BondThresholds(x: real)
    ensures MainRule("BOND_10Y", x).mark == Red <==> x > 4.5
    ensures MainRule("BOND_10Y", x).mark == Green <==> x < 3.5
  {
  }

  const MainWording := Wording("**🟢 多方**: ", " | **🔴 空方**: ",
    "🟢 偏向恐懼/機會 (Risk On)", "🔴 偏向貪婪/風險 (Risk Off)", "⚪ 市場分歧，觀望")

  /** The summary line of this revision: its marks counted over the results. */
  method MainSummary(results: Dict<Value>) returns (text: string)
    ensures text == SummaryText(MainWording, CountMark(MarksOf(results, MainMark), Green),
                                CountMark(MarksOf(results, MainMark), Red))
  {
    text := Summarize(results, MainMark, MainWording);
  }

  /** The card is green exactly when the CNN status is green, and red exactly
      when it is red. */
  lemma ColorFollowsCnnStatus(results: Dict<Value>)
    requires "CNN" in Keys(results)
    ensures var st := MainStatus("CNN", GetOr(results, "CNN", StrValue("50"))).1;
            (CnnColor(results) == 0x00FF00 <==> st.mark == Green)
            && (CnnColor(results) == 0xFF0000 <==> st.mark == Red)
  {
    CnnColorReading(results);
    var v := GetOr(results, "CNN", StrValue("50"));
    NumericMainStatus("CNN", v);
    CnnColorMatchesRule(Reading("CNN", ValText(v)), ValText(v), Unjudged(v));
  }

  /** The colour of a reading and the CNN rule on the same reading agree;
      without a reading the status is the "⚠️" fallback. */
  lemma CnnColorMatchesRule(r: Option<real>, text: string, fallback: (string, Status))
    requires fallback.1.mark == Warning
    ensures var st := (match r
                       case None => fallback
                       case Some(x) => (text, MainRule("CNN", x))).1;
            (ColorOf(r) == 0x00FF00 <==> st.mark == Green) && (ColorOf(r) == 0xFF0000 <==> st.mark == Red)
  {
    match r
    case None =>
    case Some(x) => CnnThresholds(x);
  }

  /** `fetch_all_indices` fetches in this order. */
  const MainOrder: seq<string> := ["BOND_10Y", "DXY", "RISK_RATIO", "BTC", "RSI",
    "AAII", "PUT_CALL", "VIX", "CNN", "NAAIM", "SKEW", "ABOVE_200_DAYS"]

  /** Three attempts; "失敗" for a short failure tuple; "錯誤" after the loop. */
  const MainRunner := Retrying(3, "失敗", "錯誤")

  /** main.py's `fetch_all_indices`, with the RUN_ flags as `enabled`. */
  method MainFetchAll(enabled: string -> bool, fetchers: string -> Fetcher)
    returns (results: Dict<Value>, failed: seq<string>)
    ensures Keys(results) == Filter(MainOrder, enabled)
    ensures forall e | e in results :: e.1 == Retry(fetchers(e.0), 3, "失敗", "錯誤").0
    ensures failed == FailedKeys(results)
  {
    results, failed := FetchAll(MainOrder, enabled, fetchers, MainRunner);
    FetchedKeys(MainOrder, enabled, fetchers, MainRunner);
    FetchedValues(MainOrder, enabled, fetchers, MainRunner);
  }
}
