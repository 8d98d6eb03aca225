/** What every revision of the evaluator shares: a status is a coloured mark
    followed by a label, the summary counts the green and the red marks, and
    the verdict compares the two counts. */
module Sentiment {
  import opened Common
  import opened Text
  import opened Decimal
  import opened PyValue

  /** The leading glyph of a status string: 🟢, 🔴, ⚪, ⚠️ or ❓. */
  datatype Mark = Green | Red | White | Warning | Question

  /** A status string such as "🟢 偏多", split into its mark and its label. */
  datatype Status = Status(mark: Mark, caption: string)

  function MarkText(m: Mark): string {
    match m
    case Green => "🟢"
    case Red => "🔴"
    case White => "⚪"
    case Warning => "⚠️"
    case Question => "❓"
  }

  /** The status string as the source writes it. */
  function Render(s: Status): string {
    MarkText(s.mark) + " " + s.caption
  }

  /** A label that carries neither of the two counted glyphs. */
  predicate Plain(caption: string) {
    '🟢' !in caption && '🔴' !in caption
  }

  /** `"🟢" in status` and `"🔴" in status` read the mark, not the label. */
  lemma RenderedMark(s: Status)
    requires Plain(s.caption)
    ensures Contains(Render(s), "🟢") <==> s.mark == Green
    ensures Contains(Render(s), "🔴") <==> s.mark == Red
  {
    ContainsChar(Render(s), '🟢');
    ContainsChar(Render(s), '🔴');
    var r := Render(s);
    assert r == MarkText(s.mark) + [' '] + s.caption;
    assert '🟢' in r <==> '🟢' in MarkText(s.mark);
    assert '🔴' in r <==> '🔴' in MarkText(s.mark);
  }

  /** The labels every revision shares hold no 🟢 or 🔴. */
  lemma NeutralCaptionsArePlain()
    ensures Plain("中性") && Plain("無法判讀")
  {
  }

  /** How many of `ms` equal `m`. */
  function CountMark(ms: seq<Mark>, m: Mark): (n: nat)
    ensures n <= |ms|
  {
    if ms == [] then 0
    else CountMark(ms[..|ms| - 1], m) + (if ms[|ms| - 1] == m then 1 else 0)
  }

  /** No status is both green and red, so the two counts never exceed the
      number of results. */
  lemma {:induction false} GreenAndRedBound(ms: seq<Mark>)
    ensures CountMark(ms, Green) + CountMark(ms, Red) <= |ms|
  {
    if ms != [] {
      GreenAndRedBound(ms[..|ms| - 1]);
    }
  }

  /** The mark each result gets, in the results' order. */
  function MarksOf(results: Dict<Value>, judge: (string, Value) -> Mark): (ms: seq<Mark>)
    ensures |ms| == |results|
    ensures forall i :: 0 <= i < |results| ==> ms[i] == judge(results[i].0, results[i].1)
  {
    seq(|results|, i requires 0 <= i < |results| => judge(results[i].0, results[i].1))
  }

  /** The loop `for key, val in results.items(): ... if "🟢" in status:
      bulls += 1; if "🔴" in status: bears += 1`. */
  method Tally(results: Dict<Value>, judge: (string, Value) -> Mark) returns (bulls: nat, bears: nat)
    ensures bulls == CountMark(MarksOf(results, judge), Green)
    ensures bears == CountMark(MarksOf(results, judge), Red)
    ensures bulls + bears <= |results|
  {
    ghost var ms := MarksOf(results, judge);
    bulls, bears := 0, 0;
    var i := 0;
    while i < |results|
      invariant 0 <= i <= |results|
      invariant bulls == CountMark(ms[..i], Green)
      invariant bears == CountMark(ms[..i], Red)
    {
      var m := judge(results[i].0, results[i].1);
      assert ms[..i + 1][..i] == ms[..i];
      if m == Green { bulls := bulls + 1; }
      if m == Red { bears := bears + 1; }
      i := i + 1;
    }
    assert ms[..|results|] == ms;
    GreenAndRedBound(ms);
  }

  /** A result whose mark is neither green nor red (a "⚪", "⚠️" or "❓")
      changes neither count, so it cannot tip the verdict. */
  lemma UncountedResult(results: Dict<Value>, k: string, v: Value, judge: (string, Value) -> Mark)
    requires judge(k, v) != Green && judge(k, v) != Red
    ensures CountMark(MarksOf(results + [(k, v)], judge), Green) == CountMark(MarksOf(results, judge), Green)
    ensures CountMark(MarksOf(results + [(k, v)], judge), Red) == CountMark(MarksOf(results, judge), Red)
  {
    var ms := MarksOf(results + [(k, v)], judge);
    assert ms[..|ms| - 1] == MarksOf(results, judge);
  }

  /** The three conclusions of a summary. */
  datatype Lean = RiskOn | RiskOff | Split

  /** Green wins on more bulls, red on more bears, a tie (0-0 included) is split. */
  function LeanOf(bulls: nat, bears: nat): (l: Lean)
    ensures l == RiskOn <==> bulls > bears
    ensures l == RiskOff <==> bears > bulls
    ensures l == Split <==> bulls == bears
  {
    if bulls > bears then RiskOn else if bears > bulls then RiskOff else Split
  }

  /** The literal pieces one revision's summary is made of. */
  datatype Wording = Wording(bullTag: string, bearTag: string, onText: string, offText: string, splitText: string)

  function Conclusion(w: Wording, l: Lean): string {
    match l
    case RiskOn => w.onText
    case RiskOff => w.offText
    case Split => w.splitText
  }

  /** The summary text: the two tagged counts, then the conclusion on a new line after a pointing hand. */
  function SummaryText(w: Wording, bulls: nat, bears: nat): string {
    w.bullTag + NatText(bulls) + w.bearTag + NatText(bears) + "\n👉 " + Conclusion(w, LeanOf(bulls, bears))
  }

  /** A summary of the results under one revision's judge and wording. */
  method Summarize(results: Dict<Value>, judge: (string, Value) -> Mark, w: Wording) returns (text: string)
    ensures text == SummaryText(w, CountMark(MarksOf(results, judge), Green), CountMark(MarksOf(results, judge), Red))
  {
    var bulls, bears := Tally(results, judge);
    var conclusion := w.splitText;
    if bulls > bears {
      conclusion := w.onText;
    } else if bears > bulls {
      conclusion := w.offText;
    }
    text := w.bullTag + NatText(bulls) + w.bearTag + NatText(bears) + "\n👉 " + conclusion;
  }
}
