/** The current evaluator (utils.py): number extraction, the table-driven
    status of one indicator and the summary over all results. */
module Utils {
  import opened Common
  import opened Text
  import opened Decimal
  import opened PyValue
  import opened Registry
  import opened Sentiment

  /** The text with every `%`, `+` and `,` deleted. */
  function Clean(s: string): (r: string)
    ensures '%' !in r && '+' !in r && ',' !in r
    ensures forall c :: c in r <==> c in s && c != '%' && c != '+' && c != ','
  {
    Remove(Remove(Remove(s, '%'), '+'), ',')
  }

  /** The end of the run of digits that starts at `j`. */
  function DigitRunEnd(s: string, j: nat): (k: nat)
    requires j <= |s|
    ensures j <= k <= |s|
    ensures forall p :: j <= p < k ==> IsDigit(s[p])
    ensures k == |s| || !IsDigit(s[k])
    decreases |s| - j
  {
    if j < |s| && IsDigit(s[j]) then DigitRunEnd(s, j + 1) else j
  }

  /** Where a match of `[-+]?\d*\.\d+|\d+` that starts exactly at `i` ends:
      the fractional alternative is tried first, the integer one second. */
  function MatchAt(s: string, i: nat): (e: Option<nat>)
    requires i < |s|
    ensures e.Some? ==> i < e.value <= |s| && IsDigit(s[e.value - 1])
    ensures IsDigit(s[i]) ==> e.Some?
  {
    var j := if s[i] == '-' || s[i] == '+' then i + 1 else i;
    var k := DigitRunEnd(s, j);
    if k + 1 < |s| && s[k] == '.' && IsDigit(s[k + 1]) then Some(DigitRunEnd(s, k + 1))
    else if IsDigit(s[i]) then Some(DigitRunEnd(s, i))
    else None
  }

  /** `re.search`: the leftmost position at or after `i` where a match starts. */
  function FindFrom(s: string, i: nat): (r: Option<(nat, nat)>)
    requires i <= |s|
    ensures r.Some? ==> i <= r.value.0 < |s| && MatchAt(s, r.value.0) == Some(r.value.1)
    ensures r.Some? ==> forall p :: i <= p < r.value.0 ==> MatchAt(s, p).None?
    ensures r.None? ==> forall p :: i <= p < |s| ==> MatchAt(s, p).None?
    decreases |s| - i
  {
    if i == |s| then None
    else match MatchAt(s, i)
      case Some(e) => Some((i, e))
      case None => FindFrom(s, i + 1)
  }

  /** `extract_numeric_value`: "" for a non-string, otherwise the first
      match in the cleaned text, or "" when there is none. */
  function ExtractNumeric(v: Value): string {
    match v
    case Scalar(Str(t)) =>
      var c := Clean(t);
      (match FindFrom(c, 0)
       case Some(m) => c[m.0..m.1]
       case None => "")
    case _ => ""
  }

  /** The result is empty exactly when the text holds no digit at all. */
  lemma ExtractEmptyIff(t: string)
    ensures ExtractNumeric(StrValue(t)) == [] <==> forall i :: 0 <= i < |t| ==> !IsDigit(t[i])
  {
    var c := Clean(t);
    match FindFrom(c, 0)
    case Some(m) =>
      assert c[m.1 - 1] in c;
      assert c[m.1 - 1] in t;
    case None =>
      forall p | 0 <= p < |c| ensures !IsDigit(c[p]) {
        assert MatchAt(c, p).None?;
      }
      assert forall x | x in c :: !IsDigit(x);
      forall i | 0 <= i < |t| ensures !IsDigit(t[i]) {
        assert t[i] in t;
      }
  }

  /** An optional minus, digits, a dot and at least one digit. */
  lemma FractionNumeral(sign: string, whole: string, frac: string)
    requires sign == "" || sign == "-"
    requires AllDigits(whole) && AllDigits(frac) && |frac| > 0
    ensures AllNumeral(sign + whole + "." + frac)
    ensures ParseFloat(sign + whole + "." + frac).Some?
    ensures '.' in sign + whole + "." + frac
  {
    DecimalParses(sign, whole, frac);
    DigitsAreNumerals(whole);
    DigitsAreNumerals(frac);
    NumeralConcat(sign, whole);
    NumeralConcat(sign + whole, ".");
    NumeralConcat(sign + whole + ".", frac);
    assert (sign + whole + "." + frac)[|sign + whole|] == '.';
  }

  /** A run of digits. */
  lemma IntegerNumeral(ds: string)
    requires AllDigits(ds) && ds != []
    ensures AllNumeral(ds)
    ensures ParseFloat(ds).Some?
  {
    DigitsParse("", ds);
    assert "" + ds == ds;
  }

  /** The fractional alternative matched `s[i..e]`, with the dot at `k`. */
  lemma FractionMatchShape(s: string, i: nat, j: nat, k: nat, e: nat)
    requires i <= j <= k && k + 1 < e <= |s|
    requires s[i..j] == "" || s[i..j] == "-"
    requires AllDigits(s[j..k]) && s[k] == '.' && AllDigits(s[k + 1..e])
    ensures AllNumeral(s[i..e]) && ParseFloat(s[i..e]).Some? && '.' in s[i..e]
  {
    SplitAtDot(s, i, j, k, e);
    FractionNumeral(s[i..j], s[j..k], s[k + 1..e]);
  }

  /** Cutting a slice at `j` and around the dot at `k`. */
  lemma SplitAtDot(s: string, i: nat, j: nat, k: nat, e: nat)
    requires i <= j <= k && k + 1 < e <= |s| && s[k] == '.'
    ensures s[i..e] == s[i..j] + s[j..k] + "." + s[k + 1..e]
  {
    assert s[k..e] == "." + s[k + 1..e];
    assert s[j..e] == s[j..k] + s[k..e];
    assert s[i..e] == s[i..j] + s[j..e];
  }

  /** The shape of one match in a text without `+`: it is a plain numeral
      that `float()` reads, and a leading minus only comes with a dot. */
  lemma MatchShape(s: string, i: nat, e: nat)
    requires i < |s| && '+' !in s && MatchAt(s, i) == Some(e)
    ensures AllNumeral(s[i..e])
    ensures ParseFloat(s[i..e]).Some?
    ensures s[i] == '-' ==> '.' in s[i..e]
  {
    var j := if s[i] == '-' || s[i] == '+' then i + 1 else i;
    var k := DigitRunEnd(s, j);
    if k + 1 < |s| && s[k] == '.' && IsDigit(s[k + 1]) {
      assert s[i] != '+' by { assert s[i] in s; }
      assert s[i..j] == "" || s[i..j] == "-";
      FractionMatchShape(s, i, j, k, e);
    } else {
      IntegerNumeral(s[i..e]);
    }
  }

  /** A non-empty result is a numeral without `%`, `+` or `,` that `float()`
      accepts, and it only keeps a minus sign together with a decimal point. */
  lemma ExtractedParses(t: string)
    ensures var r := ExtractNumeric(StrValue(t));
            r != [] ==> AllNumeral(r) && ParseFloat(r).Some? && (r[0] == '-' ==> '.' in r)
                        && '%' !in r && '+' !in r && ',' !in r
  {
    var c := Clean(t);
    match FindFrom(c, 0)
    case Some(m) =>
      MatchShape(c, m.0, m.1);
      SliceChars(c, m.0, m.1);
    case None =>
  }

  /** A slice holds only characters of the whole. */
  lemma SliceChars(c: string, a: nat, b: nat)
    requires a <= b <= |c|
    ensures forall x | x in c[a..b] :: x in c
  {
    forall x | x in c[a..b] ensures x in c {
      var q :| 0 <= q < b - a && c[a..b][q] == x;
      assert c[a + q] == x;
    }
  }

  /** A bare negative integer loses its sign: only the fractional
      alternative accepts one. */
  lemma NegativeIntegerLosesSign()
    ensures ExtractNumeric(StrValue("-5")) == "5"
  {
    var t := "-5";
    RemoveAbsent(t, '%');
    RemoveAbsent(t, '+');
    RemoveAbsent(t, ',');
    assert Clean(t) == t;
    assert DigitRunEnd(t, 1) == 2;
    assert MatchAt(t, 0).None?;
    assert MatchAt(t, 1) == Some(2);
  }

  /** The value that is judged: an AAII tuple of at least three items is
      judged by its third item (the bull-bear difference). */
  function Subject(key: string, v: Value): Value {
    if key == "AAII" && v.Tuple? && |v.items| >= 3 then Scalar(v.items[2]) else v
  }

  /** The guard that answers "⚠️ 無法判讀": a falsy value, or one whose text
      mentions "Error" or "N/A". */
  predicate Unreadable(s: Value) {
    !Truthy(s) || Mentions(s, "Error") || Mentions(s, "N/A")
  }

  /** The number read from the cleaned text's first word, None where Python raises
      (no token at all, or a token that is not a number). */
  function Number(text: string): Option<real> {
    match FirstToken(Clean(text))
    case None => None
    case Some(t) => ParseFloat(t)
  }

  /** The threshold rules, applied once the text has been read as `x`. */
  function Judge(key: string, cfg: Spec, x: real, text: string): (st: Status)
    ensures st.mark == Green || st.mark == Red || st.mark == White
  {
    match cfg.thresholds
    case MaTrend =>
      if Contains(text, "(Above)") then Status(Green, if key != "HYG" then "多頭排列" else "資金流入")
      else if Contains(text, "(Below)") then Status(Red, if key != "HYG" then "轉弱/空頭" else "資金流出")
      else Status(White, "中性")
    case ArrowTrend =>
      if Contains(text, "↗️") then Status(Green, "Risk On")
      else if Contains(text, "↘️") then Status(Red, "Risk Off")
      else Status(White, "中性")
    case Range(g, r) =>
      if key == "BTC" then
        if x > g then Status(Green, "大漲 (Risk On)")
        else if x < r then Status(Red, "大跌 (Risk Off)")
        else Status(White, "波動正常")
      else if key == "PUT_CALL" then
        if x > g then Status(Green, "看空過度 (偏多)")
        else if x < r then Status(Red, "看多過度 (偏空)")
        else Status(White, "中性")
      else if key == "VIX" then
        if x > g then Status(Green, "市場恐慌 (偏多)")
        else if x < r then Status(Red, "市場自滿 (偏空)")
        else Status(White, "中性")
      else if cfg.inverse then
        if x <= g then Status(Green, "偏多 (超賣/恐懼)")
        else if x >= r then Status(Red, "偏空 (過熱/貪婪)")
        else Status(White, "中性")
      else
        if x >= g then Status(Green, "偏多")
        else if x <= r then Status(Red, "偏空")
        else Status(White, "中性")
  }

  /** The status of one indicator under the registry rules. */
  function IndicatorStatus(key: string, v: Value): (st: Status)
    ensures st.mark != Question
  {
    var s := Subject(key, v);
    if Unreadable(s) then Status(Warning, "無法判讀")
    else match Lookup(key)
      case None => Status(White, "中性")
      case Some(cfg) =>
        match Number(Show(s))
        case None => Status(White, "中性")
        case Some(x) => Judge(key, cfg, x, Show(s))
  }

  /** "⚠️" is given exactly by the guard, and never by the threshold rules. */
  lemma UnreadableIff(key: string, v: Value)
    ensures IndicatorStatus(key, v).mark == Warning <==> Unreadable(Subject(key, v))
  {
  }

  /** An unknown key, or a first token that is not a number, is neutral and
      not unreadable. */
  lemma UnjudgedIsNeutral(key: string, v: Value)
    requires !Unreadable(Subject(key, v))
    requires Lookup(key).None? || Number(Show(Subject(key, v))).None?
    ensures IndicatorStatus(key, v) == Status(White, "中性")
  {
  }

  /** A plain numeral is read back as its number. */
  lemma NumeralNumber(text: string, x: real)
    requires PrintsAs(text, x)
    ensures Number(text) == Some(x)
  {
    NumeralIsPlain(text);
    RemoveAbsent(text, '%');
    RemoveAbsent(text, '+');
    RemoveAbsent(text, ',');
    assert Clean(text) == text;
    SolidText(text);
  }

  /** A numeral holds no letter, so it contains no word. */
  lemma NumeralLacks(text: string, word: string)
    requires AllNumeral(text) && word != [] && !IsNumeral(word[0])
    ensures !Contains(text, word)
  {
    assert word[0] !in text by {
      forall i | 0 <= i < |text| ensures text[i] != word[0] { assert IsNumeral(text[i]); }
    }
    ContainsFirstChar(text, word);
  }

  /** A plain numeral is read back as its number and trips neither
      "Error" nor "N/A". */
  lemma PrintedNumber(text: string, x: real)
    requires PrintsAs(text, x)
    ensures Number(text) == Some(x)
    ensures !Contains(text, "Error") && !Contains(text, "N/A")
  {
    NumeralNumber(text, x);
    NumeralLacksGuardWords(text);
  }

  lemma NumeralLacksGuardWords(text: string)
    requires AllNumeral(text)
    ensures !Contains(text, "Error") && !Contains(text, "N/A")
  {
    NumeralLacks(text, "Error");
    NumeralLacks(text, "N/A");
  }

  /** A registered key given a plain numeral string is judged on its number. */
  lemma NumeralStatus(key: string, text: string, x: real)
    requires Lookup(key).Some? && PrintsAs(text, x)
    ensures IndicatorStatus(key, StrValue(text)) == Judge(key, Lookup(key).value, x, text)
  {
    NumeralIsReadable(key, text, x);
    JudgedStatus(key, StrValue(text), x);
  }

  /** A plain numeral string passes the guard and reads as its number. */
  lemma NumeralIsReadable(key: string, text: string, x: real)
    requires PrintsAs(text, x)
    ensures Subject(key, StrValue(text)) == StrValue(text) && Show(StrValue(text)) == text
    ensures !Unreadable(StrValue(text)) && Number(text) == Some(x)
  {
    PrintedNumber(text, x);
  }

  /** The generic inverse rule: green at or below the green limit, red at or
      above the red limit, neutral strictly between. */
  lemma InverseRule(key: string, x: real, text: string)
    requires Lookup(key).Some? && Lookup(key).value.thresholds.Range? && Lookup(key).value.inverse
    ensures var cfg := Lookup(key).value;
            var st := Judge(key, cfg, x, text);
            (st.mark == Green <==> x <= cfg.thresholds.green)
            && (st.mark == Red <==> x >= cfg.thresholds.red)
            && (st.mark == White <==> cfg.thresholds.green < x < cfg.thresholds.red)
  {
    InverseRangesAreOrdered(key);
    DirectRangesAreTheSpecialKeys(key);
  }

  /** BTC, PUT_CALL and VIX ignore `inverse`: green strictly above the green
      limit, red strictly below the red limit. */
  lemma ContraryRule(key: string, x: real, text: string)
    requires key in ["BTC", "VIX", "PUT_CALL"]
    ensures var cfg := Lookup(key).value;
            var st := Judge(key, cfg, x, text);
            (st.mark == Green <==> x > cfg.thresholds.green)
            && (st.mark == Red <==> x < cfg.thresholds.red)
            && (st.mark == White <==> cfg.thresholds.red <= x <= cfg.thresholds.green)
  {
    DirectRangesAreTheSpecialKeys(key);
  }

  /** Every range is judged by the inverse rule or by the contrary rule:
      the non-inverse generic branch is never taken by a registered key. */
  lemma GenericDirectBranchUnused(key: string)
    requires Lookup(key).Some? && Lookup(key).value.thresholds.Range?
    ensures Lookup(key).value.inverse || key in ["BTC", "VIX", "PUT_CALL"]
  {
    DirectRangesAreTheSpecialKeys(key);
  }

  /** `ma_trend`: "(Above)" is green, otherwise "(Below)" is red, otherwise
      neutral; `arrow_trend` the same with "↗️" and "↘️". */
  lemma TrendRule(key: string, x: real, text: string)
    requires Lookup(key).Some? && !Lookup(key).value.thresholds.Range?
    ensures var cfg := Lookup(key).value;
            var st := Judge(key, cfg, x, text);
            var up := if cfg.thresholds == MaTrend then "(Above)" else "↗️";
            var down := if cfg.thresholds == MaTrend then "(Below)" else "↘️";
            (st.mark == Green <==> Contains(text, up))
            && (st.mark == Red <==> !Contains(text, up) && Contains(text, down))
  {
  }

  /** HYG differs from the other trend keys in its labels only. */
  lemma HygMarksLikeIwm(v: Value)
    ensures IndicatorStatus("HYG", v).mark == IndicatorStatus("IWM", v).mark
  {
    TrendTagsAreExact("HYG");
    TrendTagsAreExact("IWM");
    MaTrendMark("HYG", v);
    MaTrendMark("IWM", v);
  }

  /** The mark of an `ma_trend` key depends on its text only, not on the key. */
  lemma MaTrendMark(key: string, v: Value)
    requires Lookup(key).Some? && Lookup(key).value.thresholds == MaTrend && key != "AAII"
    ensures IndicatorStatus(key, v).mark ==
              if Unreadable(v) then Warning
              else if Number(Show(v)).None? then White
              else if Contains(Show(v), "(Above)") then Green
              else if Contains(Show(v), "(Below)") then Red
              else White
  {
    assert Subject(key, v) == v;
  }

  /** Past the guard, a registered key is judged on the number its text reads as. */
  lemma JudgedStatus(key: string, v: Value, x: real)
    requires !Unreadable(Subject(key, v)) && Lookup(key).Some? && Number(Show(Subject(key, v))) == Some(x)
    ensures IndicatorStatus(key, v) == Judge(key, Lookup(key).value, x, Show(Subject(key, v)))
  {
  }

  /** The AAII thresholds: ±15, inverse. */
  lemma AaiiJudge(d: real, text: string)
    ensures var st := Judge("AAII", Lookup("AAII").value, d, text);
            (st.mark == Green <==> d <= -15.0) && (st.mark == Red <==> d >= 15.0)
  {
    assert Lookup("AAII").value.thresholds == Range(-15.0, 15.0);
    assert Lookup("AAII").value.inverse;
  }

  /** The BOND_10Y thresholds: 3.5 and 4.5, inverse and inclusive. */
  lemma BondJudge(x: real, text: string)
    ensures var st := Judge("BOND_10Y", Lookup("BOND_10Y").value, x, text);
            (st.mark == Green <==> x <= 3.5) && (st.mark == Red <==> x >= 4.5)
  {
    assert Lookup("BOND_10Y").value.thresholds == Range(3.5, 4.5);
    assert Lookup("BOND_10Y").value.inverse;
    InverseRule("BOND_10Y", x, text);
  }

  /** AAII is judged by the difference in its tuple: a difference of exactly
      zero is falsy and unreadable, otherwise the inverse rule on ±15. */
  lemma AaiiDifferenceRule(bull: Atom, bear: Atom, d: real, repr: string)
    requires PrintsAs(repr, d)
    ensures var st := IndicatorStatus("AAII", Tuple([bull, bear, Float(d, repr)]));
            (st.mark == Warning <==> d == 0.0)
            && (d != 0.0 ==> (st.mark == Green <==> d <= -15.0) && (st.mark == Red <==> d >= 15.0))
  {
    var v := Tuple([bull, bear, Float(d, repr)]);
    assert Subject("AAII", v) == Scalar(Float(d, repr));
    FloatStatus("AAII", v, d, repr);
    AaiiJudge(d, repr);
  }

  /** A value judged through a float: unreadable exactly at zero, otherwise
      judged on the number its text reads as. */
  lemma FloatStatus(key: string, v: Value, d: real, repr: string)
    requires Lookup(key).Some? && Subject(key, v) == Scalar(Float(d, repr)) && PrintsAs(repr, d)
    ensures IndicatorStatus(key, v).mark == Warning <==> d == 0.0
    ensures d != 0.0 ==> IndicatorStatus(key, v) == Judge(key, Lookup(key).value, d, repr)
  {
    FloatIsReadable(d, repr);
    UnreadableIff(key, v);
    if d != 0.0 {
      JudgedStatus(key, v, d);
    }
  }

  /** A float printed as a plain numeral trips the guard only when it is zero. */
  lemma FloatIsReadable(d: real, repr: string)
    requires PrintsAs(repr, d)
    ensures Show(Scalar(Float(d, repr))) == repr && Number(repr) == Some(d)
    ensures Unreadable(Scalar(Float(d, repr))) <==> d == 0.0
  {
    PrintedNumber(repr, d);
  }

  lemma UnsignedTwenty()
    ensures ParseUnsigned("20.0") == Some(20.0)
  {
    var u := "20.0";
    assert IndexOf(u, '.') == Some(2) by {
      assert u[0] != '.' && u[1] != '.' && u[2] == '.';
      assert u[1..][1..] == ".0";
    }
    assert u[..2] == "20" && u[3..] == "0";
    assert NatValue("2") == 2 by { assert "2"[..0] == []; }
    assert NatValue("20") == 20 by { assert "20"[..1] == "2"; }
    assert NatValue("0") == 0 by { assert "0"[..0] == []; }
  }

  lemma MinusTwenty()
    ensures PrintsAs("-20.0", -20.0)
  {
    var t := "-20.0";
    assert t == "-" + "20.0";
    assert AllNumeral("-") && AllNumeral("20.0");
    NumeralConcat("-", "20.0");
    SolidParse(t);
    SignedOf("-", "20.0");
    UnsignedTwenty();
  }

  /** The tuple (40.0, 60.0, -20.0) reads as retail despair: green. */
  lemma AaiiDespairExample()
    ensures IndicatorStatus("AAII", Tuple([Float(40.0, "40.0"), Float(60.0, "60.0"), Float(-20.0, "-20.0")])).mark == Green
  {
    MinusTwenty();
    AaiiDifferenceRule(Float(40.0, "40.0"), Float(60.0, "60.0"), -20.0, "-20.0");
  }

  /** No label of `get_indicator_status` holds a 🟢 or a 🔴: the trend labels. */
  lemma TrendCaptionsArePlain()
    ensures Plain("多頭排列") && Plain("轉弱/空頭") && Plain("資金流入") && Plain("資金流出")
  {
  }

  lemma ArrowCaptionsArePlain()
    ensures Plain("Risk On") && Plain("Risk Off")
  {
  }

  lemma BtcCaptionsArePlain()
    ensures Plain("大漲 (Risk On)") && Plain("大跌 (Risk Off)") && Plain("波動正常")
  {
  }

  lemma ContraryCaptionsArePlain()
    ensures Plain("看空過度 (偏多)") && Plain("看多過度 (偏空)") && Plain("市場恐慌 (偏多)") && Plain("市場自滿 (偏空)")
  {
  }

  lemma InverseCaptionsArePlain()
    ensures Plain("偏多 (超賣/恐懼)") && Plain("偏空 (過熱/貪婪)") && Plain("偏多") && Plain("偏空")
  {
  }

  /** The threshold rules only give labels without 🟢 or 🔴. */
  lemma JudgeIsPlain(key: string, cfg: Spec, x: real, text: string)
    ensures Plain(Judge(key, cfg, x, text).caption)
  {
    NeutralCaptionsArePlain();
    match cfg.thresholds
    case MaTrend => TrendCaptionsArePlain();
    case ArrowTrend => ArrowCaptionsArePlain();
    case Range(_, _) =>
      BtcCaptionsArePlain();
      ContraryCaptionsArePlain();
      InverseCaptionsArePlain();
  }

  /** The mark is the only place a status of utils.py puts its colour. */
  lemma IndicatorStatusIsPlain(key: string, v: Value)
    ensures Plain(IndicatorStatus(key, v).caption)
  {
    NeutralCaptionsArePlain();
    var s := Subject(key, v);
    if !Unreadable(s) && Lookup(key).Some? && Number(Show(s)).Some? {
      JudgeIsPlain(key, Lookup(key).value, Number(Show(s)).value, Show(s));
      JudgedStatus(key, v, Number(Show(s)).value);
    }
  }

  /** `"🟢" in status` and `"🔴" in status` in `calculate_summary` read
      exactly the mark, so counting marks is counting those tests. */
  lemma StatusTextCounts(key: string, v: Value)
    ensures Contains(Render(IndicatorStatus(key, v)), "🟢") <==> UtilsMark(key, v) == Green
    ensures Contains(Render(IndicatorStatus(key, v)), "🔴") <==> UtilsMark(key, v) == Red
  {
    IndicatorStatusIsPlain(key, v);
    RenderedMark(IndicatorStatus(key, v));
  }

  function UtilsMark(key: string, v: Value): Mark {
    IndicatorStatus(key, v).mark
  }

  const UtilsWording := Wording("**🟢 多方**: ", " | **🔴 空方**: ",
    "🟢 市場偏向恐懼/機會 (Risk On)", "🔴 市場偏向貪婪/風險 (Risk Off)", "⚪ 市場分歧，建議觀望")

  /** The summary line: the registry-rule marks counted over the results. */
  method CalculateSummary(results: Dict<Value>) returns (text: string)
    ensures text == SummaryText(UtilsWording, CountMark(MarksOf(results, UtilsMark), Green),
                                CountMark(MarksOf(results, UtilsMark), Red))
  {
    text := Summarize(results, UtilsMark, UtilsWording);
  }
}
