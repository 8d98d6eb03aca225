/** `fetch_put_call_ratio` in put_call_ratio.py: walk back from today over
    at most five days and return the last cell of the first "Total" row of
    the first table of the first day whose page has one. The page for each
    day is an oracle: what the request and the HTML parse give for that
    day offset. */
module PutCall {
  import opened Common
  import opened Text

  /** The cells of one table row, each as `str()` gives it. */
  type Row = seq<string>

  /** What the request for one day gives: an exception (a timeout, a refused
      connection), or the page text with the tables `pd.read_html` reads
      from it, None where that parse raises. */
  datatype Reply = Raises | Page(text: string, tables: Option<seq<seq<Row>>>)

  /** The reply for the day `i` days before today. */
  type Server = nat -> Reply

  /** How many days the search tries. */
  const Days: nat := 5

  /** A total row: its first cell mentions "total" in any letter case. */
  predicate IsTotalRow(row: Row) {
    |row| > 0 && Contains(Lower(row[0]), "total")
  }

  /** The last cell of the first total row, if there is one. */
  function FirstTotal(rows: seq<Row>): Option<string> {
    if rows == [] then None
    else if IsTotalRow(rows[0]) then Some(rows[0][|rows[0]| - 1])
    else FirstTotal(rows[1..])
  }

  /** There is a result exactly when some row is a "Total" row, and it is
      the last cell of the first one. */
  lemma {:induction false} FirstTotalFinds(rows: seq<Row>)
    ensures FirstTotal(rows).None? <==> forall i :: 0 <= i < |rows| ==> !IsTotalRow(rows[i])
    ensures FirstTotal(rows).Some? ==>
              exists i :: 0 <= i < |rows| && IsTotalRow(rows[i])
                          && (forall j :: 0 <= j < i ==> !IsTotalRow(rows[j]))
                          && FirstTotal(rows).value == rows[i][|rows[i]| - 1]
  {
    if rows != [] && !IsTotalRow(rows[0]) {
      var tail := rows[1..];
      FirstTotalFinds(tail);
      assert forall i :: 0 < i < |rows| ==> rows[i] == tail[i - 1];
      if FirstTotal(tail).Some? {
        var i :| 0 <= i < |tail| && IsTotalRow(tail[i])
                 && (forall j :: 0 <= j < i ==> !IsTotalRow(tail[j]))
                 && FirstTotal(tail).value == tail[i][|tail[i]| - 1];
        assert IsTotalRow(rows[i + 1]) && forall j :: 0 <= j < i + 1 ==> !IsTotalRow(rows[j]);
      }
    }
  }

  /** What one day yields: None where the body of the loop continues, that
      is on an exception, a page saying "not available" in any case, no
      table, or no "Total" row in the first table. */
  function DayResult(reply: Reply): Option<string> {
    match reply
    case Raises => None
    case Page(text, tables) =>
      if Contains(Lower(text), "not available") then None
      else match tables
        case None => None
        case Some(ts) => if ts == [] then None else FirstTotal(ts[0])
  }

  /** Days `i` to 4: the first result and the number of requests made, or
      "抓取失敗" after all of them. */
  function SearchFrom(server: Server, i: nat): (string, nat)
    requires i <= Days
    decreases Days - i
  {
    if i == Days then ("抓取失敗", Days)
    else match DayResult(server(i))
      case Some(v) => (v, i + 1)
      case None => SearchFrom(server, i + 1)
  }

  /** The day-by-day loop over the last five days, with the number of days it requested. */
  method FetchPutCallRatio(server: Server) returns (result: string, requests: nat)
    ensures (result, requests) == SearchFrom(server, 0)
  {
    var i := 0;
    while i < Days
      invariant 0 <= i <= Days
      invariant SearchFrom(server, 0) == SearchFrom(server, i)
    {
      var day := DayResult(server(i));
      if day.Some? {
        return day.value, i + 1;
      }
      i := i + 1;
    }
    return "抓取失敗", Days;
  }

  /** From day `i` on: the search stops at the first day with a result and
      returns it; only when every day fails does it return "抓取失敗",
      after all five requests. */
  lemma {:induction false} SearchFromFindsFirst(server: Server, i: nat)
    requires i <= Days
    ensures var (r, n) := SearchFrom(server, i);
            i <= n <= Days
            && (i < Days ==> i < n)
            && (forall j :: i <= j < n - 1 ==> DayResult(server(j)).None?)
            && (n > i && DayResult(server(n - 1)).Some? ==> r == DayResult(server(n - 1)).value)
            && ((n == i || DayResult(server(n - 1)).None?) ==>
                  n == Days && r == "抓取失敗" && forall j :: i <= j < Days ==> DayResult(server(j)).None?)
    decreases Days - i
  {
    if i < Days && DayResult(server(i)).None? {
      SearchFromFindsFirst(server, i + 1);
    }
  }

  /** The whole search: it requests days 0, 1, ... in order, stops at the
      first day with a result and returns that result; "抓取失敗" comes back
      exactly when all five days fail, and then all five were requested. */
  lemma FirstDayWins(server: Server)
    ensures var (r, n) := SearchFrom(server, 0);
            1 <= n <= Days
            && (forall j :: 0 <= j < n - 1 ==> DayResult(server(j)).None?)
            && (DayResult(server(n - 1)).Some? ==> r == DayResult(server(n - 1)).value)
            && (DayResult(server(n - 1)).None? <==> forall j :: 0 <= j < Days ==> DayResult(server(j)).None?)
            && (DayResult(server(n - 1)).None? ==> n == Days && r == "抓取失敗")
  {
    SearchFromFindsFirst(server, 0);
  }

  /** A page that says "not available" is skipped whatever tables it has. */
  lemma NotAvailableIsSkipped(text: string, tables: Option<seq<seq<Row>>>)
    requires Contains(Lower(text), "not available")
    ensures DayResult(Page(text, tables)).None?
  {
  }

  /** Only the first table is searched: a "Total" row in a later table does
      not count. */
  lemma OnlyFirstTableCounts(text: string, first: seq<Row>, rest: seq<seq<Row>>)
    requires !Contains(Lower(text), "not available")
    requires forall i :: 0 <= i < |first| ==> !IsTotalRow(first[i])
    ensures DayResult(Page(text, Some([first] + rest))).None?
  {
    FirstTotalFinds(first);
  }

  /** Today's page answers at once, with one request. */
  lemma TodayAnswers(server: Server, v: string)
    requires DayResult(server(0)) == Some(v)
    ensures SearchFrom(server, 0) == (v, 1)
  {
  }
}
