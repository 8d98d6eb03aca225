/** The indicator registry (`INDICATORS` in config.py): one immutable entry
    per indicator, in the insertion order that fixes the ledger's column
    order and the report's display order. */
module Registry {
  import opened Common

  /** The four groups the report renders. */
  datatype Category = Macro | Struct | Tech | Fund

  /** The `type` tag: where the value comes from. */
  datatype Kind = Price | Trend | Custom | External

  /** `thresholds`: a (green, red) pair or a qualitative tag. */
  datatype Thresholds = Range(green: real, red: real) | MaTrend | ArrowTrend

  /** `inverse` is false where config.py omits it; `ticker`, `func` and
      `correction` are None where it omits them. A fetch function is named
      by its Python name. */
  datatype Spec = Spec(
    name: string,
    category: Category,
    kind: Kind,
    ticker: Option<string>,
    func: Option<string>,
    thresholds: Thresholds,
    inverse: bool,
    correction: Option<real>)

  /** The registered keys in the order config.py lists them. */
  const IndicatorKeys: seq<string> := [
    "BOND_10Y", "DXY", "HYG", "BTC",
    "IWM", "SOXX", "RISK_RATIO",
    "RSI", "VIX", "CNN", "ABOVE_200_DAYS",
    "NAAIM", "SKEW", "AAII", "PUT_CALL"
  ]

  /** The registry entry of a key, None for an unregistered key. */
  function Lookup(key: string): Option<Spec> {
    if key == "BOND_10Y" then Some(Spec("🇺🇸 10年債", Macro, Price, Some("^TNX"), None, Range(3.5, 4.5), true, Some(0.1)))
    else if key == "DXY" then Some(Spec("💵 美元 DXY", Macro, Price, Some("DX-Y.NYB"), None, Range(101.0, 105.0), true, None))
    else if key == "HYG" then Some(Spec("💳 高收債 HYG", Macro, Trend, Some("HYG"), None, MaTrend, false, None))
    else if key == "BTC" then Some(Spec("🪙 比特幣", Macro, Custom, None, Some("df.fetch_bitcoin_trend"), Range(3.0, -3.0), false, None))
    else if key == "IWM" then Some(Spec("🏢 羅素2000", Struct, Trend, Some("IWM"), None, MaTrend, false, None))
    else if key == "SOXX" then Some(Spec("⚡ 半導體 SOXX", Struct, Trend, Some("SOXX"), None, MaTrend, false, None))
    else if key == "RISK_RATIO" then Some(Spec("⚖️ 風險胃口", Struct, Custom, None, Some("df.fetch_risk_on_off_ratio"), ArrowTrend, false, None))
    else if key == "RSI" then Some(Spec("📈 大盤 RSI", Tech, Custom, None, Some("df.fetch_rsi_index"), Range(30.0, 70.0), true, None))
    else if key == "VIX" then Some(Spec("🌪️ VIX 波動", Tech, Price, Some("^VIX"), None, Range(30.0, 15.0), false, None))
    else if key == "CNN" then Some(Spec("😱 CNN 情緒", Tech, External, None, Some("fetch_fear_greed_meter"), Range(45.0, 55.0), true, None))
    else if key == "ABOVE_200_DAYS" then Some(Spec("📊 >200日線", Tech, External, None, Some("fetch_above_200_days_average"), Range(20.0, 80.0), true, None))
    else if key == "NAAIM" then Some(Spec("🏦 機構持倉", Fund, External, None, Some("fetch_naaim_exposure_index"), Range(40.0, 90.0), true, None))
    else if key == "SKEW" then Some(Spec("🦢 黑天鵝 SKEW", Fund, External, None, Some("fetch_skew_index"), Range(120.0, 140.0), true, None))
    else if key == "AAII" then Some(Spec("🐂 散戶 AAII", Fund, External, None, Some("fetch_aaii_bull_bear_diff"), Range(-15.0, 15.0), true, None))
    else if key == "PUT_CALL" then Some(Spec("⚖️ Put/Call", Fund, External, None, Some("fetch_put_call_ratio"), Range(1.0, 0.8), false, None))
    else None
  }

  /** Exactly the fifteen keys are registered. */
  lemma Registered(key: string)
    ensures Lookup(key).Some? <==> key in IndicatorKeys
  {
  }

  /** The registry holds fifteen indicators under distinct keys. */
  lemma KeysAreDistinct()
    ensures |IndicatorKeys| == 15
    ensures Distinct(IndicatorKeys)
  {
  }

  /** `'ma_trend'` is used by exactly HYG, IWM and SOXX; `'arrow_trend'` by exactly RISK_RATIO. */
  lemma TrendTagsAreExact(key: string)
    ensures Lookup(key).Some? && Lookup(key).value.thresholds == MaTrend <==> key in ["HYG", "IWM", "SOXX"]
    ensures Lookup(key).Some? && Lookup(key).value.thresholds == ArrowTrend <==> key == "RISK_RATIO"
  {
  }

  /** Every inverse range has green below red, so "value <= green" and
      "value >= red" never hold together. */
  lemma InverseRangesAreOrdered(key: string)
    requires Lookup(key).Some? && Lookup(key).value.thresholds.Range? && Lookup(key).value.inverse
    ensures Lookup(key).value.thresholds.green < Lookup(key).value.thresholds.red
  {
  }

  /** The ranges without `inverse` are exactly BTC, VIX and PUT_CALL, and
      each has green above red. */
  lemma DirectRangesAreTheSpecialKeys(key: string)
    ensures (Lookup(key).Some? && Lookup(key).value.thresholds.Range? && !Lookup(key).value.inverse)
            <==> key in ["BTC", "VIX", "PUT_CALL"]
    ensures key in ["BTC", "VIX", "PUT_CALL"] ==>
            Lookup(key).value.thresholds.green > Lookup(key).value.thresholds.red
  {
  }

  /** `price` and `trend` entries name a ticker; `custom` and `external`
      entries name a fetch function; only BOND_10Y carries a correction (0.1). */
  lemma SourcesAreWellFormed(key: string)
    requires Lookup(key).Some?
    ensures Lookup(key).value.kind in {Price, Trend} ==> Lookup(key).value.ticker.Some? && Lookup(key).value.func.None?
    ensures Lookup(key).value.kind in {Custom, External} ==> Lookup(key).value.func.Some? && Lookup(key).value.ticker.None?
    ensures Lookup(key).value.correction.Some? <==> key == "BOND_10Y"
    ensures key == "BOND_10Y" ==> Lookup(key).value.correction == Some(0.1)
  {
  }

  /** The display names of the categories, in the order the report renders them. */
  const Categories: seq<(Category, string)> := [
    (Macro, "🌊 宏觀與資金 (Macro)"),
    (Struct, "🏗️ 結構與板塊 (Struct)"),
    (Tech, "🌡️ 技術與情緒 (Tech)"),
    (Fund, "🐳 籌碼與內資 (Fund)")
  ]
}
