/** The card-only revision main_v2.py: every fetcher is called once, the
    card colour falls into one of five CNN bands, and the card lists seven
    indicators in fixed positions with the AAII tuple unpacked for display. */
module V2Revision {
  import opened Common
  import opened Text
  import opened Decimal
  import opened PyValue
  import opened Fetch
  import opened Legacy
  import opened Report

  /** `fetch_all_indices` fetches in this order. */
  const V2Order: seq<string> := ["AAII", "PUT_CALL", "VIX", "CNN", "NAAIM", "SKEW", "ABOVE_200_DAYS"]

  /** main_v2.py's `fetch_all_indices`: one call per enabled fetcher. */
  method V2FetchAll(enabled: string -> bool, fetchers: string -> Fetcher)
    returns (results: Dict<Value>, failed: seq<string>)
    ensures Keys(results) == Filter(V2Order, enabled)
    ensures forall e | e in results :: e.1 == RunOnce(fetchers(e.0))
    ensures failed == FailedKeys(results)
  {
    results, failed := FetchAll(V2Order, enabled, fetchers, SingleShot);
    FetchedKeys(V2Order, enabled, fetchers, SingleShot);
    FetchedValues(V2Order, enabled, fetchers, SingleShot);
  }

  /** A fetcher's failure tuple `(None, None, msg)` is stored as it is and is
      not a failed key: only a "錯誤" text or None is. */
  lemma FailureTupleIsStored(enabled: string -> bool, fetchers: string -> Fetcher, k: string, msg: string)
    requires k in V2Order && enabled(k)
    requires fetchers(k)(0) == Returned(Tuple([Null, Null, Str(msg)]))
    ensures Get(Fetched(V2Order, enabled, fetchers, SingleShot), k) == Some(Tuple([Null, Null, Str(msg)]))
    ensures k !in FailedKeys(Fetched(V2Order, enabled, fetchers, SingleShot))
  {
    var tuple := Tuple([Null, Null, Str(msg)]);
    assert Run(SingleShot, fetchers(k)) == tuple;
    assert !IsFailed(tuple);
    FetchedGet(V2Order, enabled, fetchers, SingleShot, k);
    StoredValueNotFailed(V2Order, enabled, fetchers, SingleShot, k);
  }

  /** The retrying revisions turn the same tuple, returned three times, into
      its message. */
  lemma FailureTupleUnderRetry(fetch: Fetcher, short: string, fallback: string, msg: string)
    requires forall j :: fetch(j) == Returned(Tuple([Null, Null, Str(msg)]))
    ensures Retry(fetch, 3, short, fallback) == (StrValue(msg), 3)
  {
    RetryStopsAtFirstSuccess(fetch, 3, short, fallback);
  }

  /** The colour of a CNN reading: five bands, tested from the lowest. */
  function V2Band(x: real): int {
    if x <= 25.0 then 0x00FF00
    else if 25.0 < x <= 45.0 then 0x90EE90
    else if 45.0 < x <= 55.0 then 0x808080
    else if 55.0 < x <= 75.0 then 0xFF6347
    else if x > 75.0 then 0xFF0000
    else 0x808080
  }

  /** The five bands are disjoint and cover every number: each colour is
      given exactly on its own interval. */
  lemma BandsPartition(x: real)
    ensures V2Band(x) == 0x00FF00 <==> x <= 25.0
    ensures V2Band(x) == 0x90EE90 <==> 25.0 < x <= 45.0
    ensures V2Band(x) == 0x808080 <==> 45.0 < x <= 55.0
    ensures V2Band(x) == 0xFF6347 <==> 55.0 < x <= 75.0
    ensures V2Band(x) == 0xFF0000 <==> x > 75.0
  {
  }

  /** The card colour: the first word of the CNN result (50 where it is
      absent) read as a number, gray where that fails. */
  function V2Color(results: Dict<Value>): int {
    match Reading("CNN", Show(GetOr(results, "CNN", StrValue("50"))))
    case None => 0x808080
    case Some(x) => V2Band(x)
  }

  /** The green bands of this revision are main.py's green, and its red bands
      are main.py's red, except at exactly 55: main.py says red, this
      revision gray. */
  lemma BandsRefineMainColor(x: real)
    ensures x != 55.0 ==> (ColorOf(Some(x)) == 0x00FF00 <==> V2Band(x) in {0x00FF00, 0x90EE90})
    ensures x != 55.0 ==> (ColorOf(Some(x)) == 0xFF0000 <==> V2Band(x) in {0xFF6347, 0xFF0000})
    ensures ColorOf(Some(55.0)) == 0xFF0000 && V2Band(55.0) == 0x808080
  {
    BandsPartition(x);
  }

  /** The two revisions read the same number, so their colours differ only
      where the CNN reading is exactly 55. */
  lemma ColorsAgreeBesides55(results: Dict<Value>)
    ensures Reading("CNN", Show(GetOr(results, "CNN", StrValue("50")))) != Some(55.0) ==>
              (CnnColor(results) == 0x00FF00 <==> V2Color(results) in {0x00FF00, 0x90EE90})
              && (CnnColor(results) == 0xFF0000 <==> V2Color(results) in {0xFF6347, 0xFF0000})
  {
    match Reading("CNN", Show(GetOr(results, "CNN", StrValue("50"))))
    case None =>
    case Some(x) => BandsRefineMainColor(x);
  }

  /** Without a CNN result the default "50" gives gray. */
  lemma MissingCnnIsGrayToo(results: Dict<Value>)
    requires "CNN" !in Keys(results)
    ensures V2Color(results) == 0x808080
  {
    MissingCnnIsGray(results);
  }

  /** The AAII field: a tuple unpacked as `bull, bear, diff` and shown with
      the difference to one decimal; anything else as `str(aaii)`. None
      where unpacking (not three items) or formatting (not a float) raises. */
  function AaiiText(aaii: Value, fmt1: real -> string): Option<string> {
    if aaii.Tuple? then
      if |aaii.items| == 3 && aaii.items[2].Float? then
        Some("多: " + StrOf(aaii.items[0]) + "% | 空: " + StrOf(aaii.items[1]) + "% (差: " + fmt1(aaii.items[2].x) + ")")
      else None
    else Some(Show(aaii))
  }

  /** What the card shows for one key, None where building it raises: the
      AAII text, or `str(results.get(key, 'N/A'))`. */
  function V2Display(key: string, results: Dict<Value>, fmt1: real -> string): Option<string> {
    if key == "AAII" then AaiiText(GetOr(results, "AAII", Scalar(Null)), fmt1)
    else Some(Show(GetOr(results, key, StrValue("N/A"))))
  }

  /** A missing indicator shows "N/A"; a missing AAII shows "None". */
  lemma MissingDisplays(key: string, results: Dict<Value>, fmt1: real -> string)
    requires key !in Keys(results)
    ensures V2Display(key, results, fmt1) == Some(if key == "AAII" then "None" else "N/A")
  {
  }

  /** Building the AAII field raises exactly for a tuple that is not three
      items ending in a float. */
  lemma AaiiDisplayRaisesIff(results: Dict<Value>, fmt1: real -> string)
    ensures V2Display("AAII", results, fmt1).None? <==>
              var v := GetOr(results, "AAII", Scalar(Null));
              v.Tuple? && !(|v.items| == 3 && v.items[2].Float?)
  {
  }

  /** A failed AAII fetch reaches the card as its failure tuple, whose
      message cannot be formatted as a number: no card is sent. */
  lemma FailedAaiiFetchLosesCard(enabled: string -> bool, fetchers: string -> Fetcher, msg: string, fmt1: real -> string)
    requires enabled("AAII")
    requires fetchers("AAII")(0) == Returned(Tuple([Null, Null, Str(msg)]))
    ensures V2Display("AAII", Fetched(V2Order, enabled, fetchers, SingleShot), fmt1).None?
  {
    FailureTupleIsStored(enabled, fetchers, "AAII", msg);
  }

  datatype V2Card = V2Card(title: string, description: string, color: int, fields: seq<Field>, footer: string)

  /** What `send_discord_embed` ends in: no webhook, an exception while the
      fields are built, or a card posted. */
  datatype Delivery = NoWebhook | Crashed | Posted(card: V2Card)

  /** The embed card: the market field, then the
      seven indicators appended one by one. */
  method V2SendEmbed(results: Dict<Value>, marketText: string, url: Option<string>, fmt1: real -> string)
    returns (d: Delivery)
    ensures (url.None? || url == Some("")) <==> d == NoWebhook
    ensures d == Crashed <==> !(url.None? || url == Some("")) && V2Display("AAII", results, fmt1).None?
    ensures d.Posted? ==>
              var c := d.card;
              c.title == "📅 每日財經情緒日報"
              && c.description == "市場情緒指標與大盤概況彙整"
              && c.footer == "Github Actions Auto Bot • Generated by Python"
              && c.color == V2Color(results)
              && V2Display("AAII", results, fmt1).Some?
              && c.fields == [
                   Field("📊 美股大盤今日走勢", if marketText != "" then marketText else "無法讀取", false),
                   Field("😱 CNN 恐懼貪婪", V2Display("CNN", results, fmt1).value, true),
                   Field("🌪️ VIX 波動率", V2Display("VIX", results, fmt1).value, true),
                   Field("⚖️ Put/Call Ratio", V2Display("PUT_CALL", results, fmt1).value, true),
                   Field("🐂 AAII 散戶情緒", V2Display("AAII", results, fmt1).value, false),
                   Field("🏦 NAAIM 經理人持倉", V2Display("NAAIM", results, fmt1).value, true),
                   Field("🦢 SKEW 黑天鵝", V2Display("SKEW", results, fmt1).value, true),
                   Field("📈 >200日線比例", V2Display("ABOVE_200_DAYS", results, fmt1).value, true)]
  {
    if url.None? || url == Some("") {
      return NoWebhook;
    }
    var color := V2Color(results);
    var fields := [Field("📊 美股大盤今日走勢", if marketText != "" then marketText else "無法讀取", false)];
    fields := fields + [Field("😱 CNN 恐懼貪婪", V2Display("CNN", results, fmt1).value, true)];
    fields := fields + [Field("🌪️ VIX 波動率", V2Display("VIX", results, fmt1).value, true)];
    fields := fields + [Field("⚖️ Put/Call Ratio", V2Display("PUT_CALL", results, fmt1).value, true)];
    var aaii := V2Display("AAII", results, fmt1);
    if aaii.None? {
      return Crashed;
    }
    fields := fields + [Field("🐂 AAII 散戶情緒", aaii.value, false)];
    fields := fields + [Field("🏦 NAAIM 經理人持倉", V2Display("NAAIM", results, fmt1).value, true)];
    fields := fields + [Field("🦢 SKEW 黑天鵝", V2Display("SKEW", results, fmt1).value, true)];
    fields := fields + [Field("📈 >200日線比例", V2Display("ABOVE_200_DAYS", results, fmt1).value, true)];
    d := Posted(V2Card("📅 每日財經情緒日報", "市場情緒指標與大盤概況彙整", color, fields,
                       "Github Actions Auto Bot • Generated by Python"));
  }
}
