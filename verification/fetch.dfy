/** The fetch coordinator of the older revisions (`fetch_all_indices` and its
    inner `run_fetcher` in main.py, dev_main.py and main_v2.py). A fetcher
    is an oracle: what its n-th call returns or raises. */
module Fetch {
  import opened Common
  import opened Text
  import opened PyValue

  /** One call of a fetcher: a value, or an exception with its `str(e)`. */
  datatype Outcome = Returned(v: Value) | Raised(msg: string)

  /** The n-th call of a fetcher, counted from 0. */
  type Fetcher = nat -> Outcome

  /** How `run_fetcher` reads one call: a success to return, or a failure
      together with the value returned if it is the last attempt. */
  datatype Verdict = Good(v: Value) | Bad(err: Value)

  /** A string result that carries the error marker "錯誤". */
  predicate IsErrorText(v: Value) {
    v.Scalar? && v.a.Str? && Contains(v.a.s, "錯誤")
  }

  /** The error test of the retrying `run_fetcher`: a string mentioning
      "錯誤", or a tuple whose first item is None (its third item, or
      `short` when there is none, is the error). Indexing an empty tuple
      raises, and the exception is caught like any other. */
  function Classify(o: Outcome, short: string): (r: Verdict)
    ensures o.Raised? ==> r == Bad(StrValue("錯誤: " + o.msg))
    ensures o.Returned? && r.Good? ==> r.v == o.v
    ensures o.Returned? && !o.v.Tuple? ==> (r.Bad? <==> IsErrorText(o.v))
    ensures o.Returned? && o.v.Tuple? && o.v.items == [] ==> r == Bad(StrValue("錯誤: tuple index out of range"))
    ensures o.Returned? && o.v.Tuple? && o.v.items != [] && o.v.items[0] == Null ==>
              r == Bad(if |o.v.items| > 2 then Scalar(o.v.items[2]) else StrValue(short))
    ensures o.Returned? && o.v.Tuple? && o.v.items != [] && o.v.items[0] != Null ==> r == Good(o.v)
  {
    match o
    case Raised(e) => Bad(StrValue("錯誤: " + e))
    case Returned(r) =>
      if IsErrorText(r) then Bad(r)
      else if r.Tuple? && r.items == [] then Bad(StrValue("錯誤: tuple index out of range"))
      else if r.Tuple? && r.items[0] == Null then Bad(if |r.items| > 2 then Scalar(r.items[2]) else StrValue(short))
      else Good(r)
  }

  /** Attempts `i`, `i + 1`, ... of `n`: the first success, or the failure
      of the last attempt; with the number of calls made. */
  function RetryFrom(fetch: Fetcher, n: nat, short: string, i: nat): (Value, nat)
    requires i < n
    decreases n - i
  {
    match Classify(fetch(i), short)
    case Good(v) => (v, i + 1)
    case Bad(e) => if i == n - 1 then (e, n) else RetryFrom(fetch, n, short, i + 1)
  }

  /** `run_fetcher` with `max_retries = n`; `fallback` is what it returns
      after the loop, which only happens when `n` is 0. */
  function Retry(fetch: Fetcher, n: nat, short: string, fallback: string): (Value, nat) {
    if n == 0 then (StrValue(fallback), 0) else RetryFrom(fetch, n, short, 0)
  }

  /** From attempt `i` on: the calls stop at the first success, and run out
      only after `n` calls, with the last attempt's failure. */
  lemma {:induction false} RetryFromStopsAtFirstSuccess(fetch: Fetcher, n: nat, short: string, i: nat)
    requires i < n
    ensures var (v, calls) := RetryFrom(fetch, n, short, i);
            i < calls <= n
            && (forall j :: i <= j < calls - 1 ==> Classify(fetch(j), short).Bad?)
            && (Classify(fetch(calls - 1), short).Good? ==> v == Classify(fetch(calls - 1), short).v)
            && (Classify(fetch(calls - 1), short).Bad? ==> calls == n && v == Classify(fetch(calls - 1), short).err)
    decreases n - i
  {
    if Classify(fetch(i), short).Bad? && i < n - 1 {
      RetryFromStopsAtFirstSuccess(fetch, n, short, i + 1);
    }
  }

  /** With at least one attempt, `run_fetcher` makes between 1 and `n`
      calls, returns the first success, and only after `n` failures returns
      the last failure; the fallback after the loop is never reached. */
  lemma RetryStopsAtFirstSuccess(fetch: Fetcher, n: nat, short: string, fallback: string)
    requires n >= 1
    ensures var (v, calls) := Retry(fetch, n, short, fallback);
            1 <= calls <= n
            && (forall j :: 0 <= j < calls - 1 ==> Classify(fetch(j), short).Bad?)
            && (Classify(fetch(calls - 1), short).Good? ==> v == Classify(fetch(calls - 1), short).v)
            && (Classify(fetch(calls - 1), short).Bad? ==> calls == n && v == Classify(fetch(calls - 1), short).err)
  {
    RetryFromStopsAtFirstSuccess(fetch, n, short, 0);
  }

  /** A failure message without "錯誤" (such as "抓取失敗") counts as a
      success and is returned after a single call. */
  lemma SilentFailureIsAccepted(fetch: Fetcher, n: nat, short: string, fallback: string, text: string)
    requires n >= 1 && fetch(0) == Returned(StrValue(text)) && !Contains(text, "錯誤")
    ensures Retry(fetch, n, short, fallback) == (StrValue(text), 1)
  {
  }

  /** A fetcher that always raises is called `n` times, and its last
      exception is reported. */
  lemma AlwaysRaising(fetch: Fetcher, n: nat, short: string, fallback: string, e: string)
    requires n >= 1 && forall j :: fetch(j) == Raised(e)
    ensures Retry(fetch, n, short, fallback) == (StrValue("錯誤: " + e), n)
  {
    RetryStopsAtFirstSuccess(fetch, n, short, fallback);
  }

  /** The retry loop of `run_fetcher`: `sleeps` counts the pauses, taken
      between attempts and never after the last one. */
  method RunFetcher(fetch: Fetcher, n: nat, short: string, fallback: string)
    returns (result: Value, calls: nat, sleeps: nat)
    ensures (result, calls) == Retry(fetch, n, short, fallback)
    ensures sleeps == if calls == 0 then 0 else calls - 1
  {
    var i := 0;
    sleeps := 0;
    while i < n
      invariant i <= n && (n > 0 ==> i < n)
      invariant sleeps == i
      invariant i < n ==> Retry(fetch, n, short, fallback) == RetryFrom(fetch, n, short, i)
      decreases n - i
    {
      var verdict := Classify(fetch(i), short);
      if verdict.Good? {
        return verdict.v, i + 1, sleeps;
      }
      if i == n - 1 {
        return verdict.err, n, sleeps;
      }
      sleeps := sleeps + 1;
      i := i + 1;
    }
    result, calls := StrValue(fallback), 0;
  }

  /** main_v2.py's `run_fetcher`: one call, its value unchanged, or
      "錯誤: <e>" for an exception. */
  function RunOnce(fetch: Fetcher): (v: Value)
    ensures fetch(0).Returned? ==> v == fetch(0).v
    ensures fetch(0).Raised? ==> v == StrValue("錯誤: " + fetch(0).msg)
  {
    match fetch(0)
    case Returned(r) => r
    case Raised(e) => StrValue("錯誤: " + e)
  }

  /** Which `run_fetcher` a revision uses. */
  datatype Runner = Retrying(attempts: nat, short: string, fallback: string) | SingleShot

  /** The value `run_fetcher` stores for one fetcher. */
  function Run(runner: Runner, fetch: Fetcher): Value {
    match runner
    case Retrying(n, short, fallback) => Retry(fetch, n, short, fallback).0
    case SingleShot => RunOnce(fetch)
  }

  /** The results dictionary: the runner's value for each key of `order`
      whose RUN_ flag is set, entered in that order. */
  function Fetched(order: seq<string>, enabled: string -> bool, fetchers: string -> Fetcher, runner: Runner): Dict<Value> {
    if order == [] then []
    else (if enabled(order[0]) then [(order[0], Run(runner, fetchers(order[0])))] else [])
         + Fetched(order[1..], enabled, fetchers, runner)
  }

  /** The results hold exactly the enabled keys, in the fixed order. */
  lemma {:induction false} FetchedKeys(order: seq<string>, enabled: string -> bool, fetchers: string -> Fetcher, runner: Runner)
    ensures Keys(Fetched(order, enabled, fetchers, runner)) == Filter(order, enabled)
  {
    if order != [] {
      FetchedKeys(order[1..], enabled, fetchers, runner);
      KeysConcat((if enabled(order[0]) then [(order[0], Run(runner, fetchers(order[0])))] else []),
                 Fetched(order[1..], enabled, fetchers, runner));
    }
  }

  /** Each stored value is what that key's fetcher gave under the runner. */
  lemma {:induction false} FetchedValues(order: seq<string>, enabled: string -> bool, fetchers: string -> Fetcher, runner: Runner)
    ensures forall e | e in Fetched(order, enabled, fetchers, runner) :: e.1 == Run(runner, fetchers(e.0))
  {
    if order != [] {
      FetchedValues(order[1..], enabled, fetchers, runner);
    }
  }

  /** Looking up `k` in the results gives the runner's value for an enabled key of the order,
      None for any other key. */
  lemma {:induction false} FetchedGet(order: seq<string>, enabled: string -> bool, fetchers: string -> Fetcher, runner: Runner, k: string)
    ensures Get(Fetched(order, enabled, fetchers, runner), k)
            == if k in order && enabled(k) then Some(Run(runner, fetchers(k))) else None
  {
    if order != [] {
      FetchedGet(order[1..], enabled, fetchers, runner, k);
      var head := if enabled(order[0]) then [(order[0], Run(runner, fetchers(order[0])))] else [];
      var rest := Fetched(order[1..], enabled, fetchers, runner);
      assert Fetched(order, enabled, fetchers, runner) == head + rest;
      if head != [] {
        assert (head + rest)[0] == head[0];
        assert (head + rest)[1..] == rest;
      } else {
        assert head + rest == rest;
      }
      assert k in order <==> k == order[0] || k in order[1..];
    }
  }

  lemma KeysConcat<V>(a: Dict<V>, b: Dict<V>)
    ensures Keys(a + b) == Keys(a) + Keys(b)
  {
  }

  /** Appending one more key to the order appends at most its entry. */
  lemma {:induction false} FetchedSnoc(order: seq<string>, k: string, enabled: string -> bool, fetchers: string -> Fetcher, runner: Runner)
    ensures Fetched(order + [k], enabled, fetchers, runner)
            == Fetched(order, enabled, fetchers, runner) + (if enabled(k) then [(k, Run(runner, fetchers(k)))] else [])
  {
    if order == [] {
      assert order + [k] == [k];
    } else {
      assert (order + [k])[1..] == order[1..] + [k];
      FetchedSnoc(order[1..], k, enabled, fetchers, runner);
    }
  }

  /** The `failed_keys` test: None, or a string mentioning "錯誤". */
  predicate IsFailed(v: Value) {
    IsErrorText(v) || v == Scalar(Null)
  }

  /** The keys whose value failed, in result order. */
  function FailedKeys(results: Dict<Value>): seq<string> {
    Keys(Filter(results, (e: (string, Value)) => IsFailed(e.1)))
  }

  /** A key is listed as failed exactly when its value failed, and the
      failed keys keep the order of the results. */
  lemma FailedKeysSpec(results: Dict<Value>)
    ensures forall k :: k in FailedKeys(results) <==> exists v :: (k, v) in results && IsFailed(v)
    ensures IsSubsequence(FailedKeys(results), Keys(results))
  {
    var p := (e: (string, Value)) => IsFailed(e.1);
    var kept := Filter(results, p);
    forall k ensures k in FailedKeys(results) <==> exists v :: (k, v) in results && IsFailed(v) {
      if k in FailedKeys(results) {
        var i :| 0 <= i < |kept| && kept[i].0 == k;
        assert kept[i] in kept;
      }
      if exists v :: (k, v) in results && IsFailed(v) {
        var v :| (k, v) in results && IsFailed(v);
        assert (k, v) in kept;
        var i :| 0 <= i < |kept| && kept[i] == (k, v);
        assert Keys(kept)[i] == k;
      }
    }
    FilterIsSubsequence(results, p);
    SubsequenceKeys(kept, results);
  }

  /** A key whose fetcher's value does not count as failed is never listed
      as failed. */
  lemma StoredValueNotFailed(order: seq<string>, enabled: string -> bool, fetchers: string -> Fetcher, runner: Runner, k: string)
    requires !IsFailed(Run(runner, fetchers(k)))
    ensures k !in FailedKeys(Fetched(order, enabled, fetchers, runner))
  {
    var results := Fetched(order, enabled, fetchers, runner);
    FetchedValues(order, enabled, fetchers, runner);
    FailedKeysSpec(results);
  }

  /** Deleting entries deletes their keys. */
  lemma {:induction false} SubsequenceKeys<V>(a: Dict<V>, b: Dict<V>)
    requires IsSubsequence(a, b)
    ensures IsSubsequence(Keys(a), Keys(b))
    decreases |b|
  {
    if a != [] && b != [] {
      assert Keys(b)[1..] == Keys(b[1..]);
      if a[0] == b[0] && IsSubsequence(a[1..], b[1..]) {
        assert Keys(a)[1..] == Keys(a[1..]);
        SubsequenceKeys(a[1..], b[1..]);
      } else {
        SubsequenceKeys(a, b[1..]);
        SubsequenceOfTail(Keys(a), Keys(b));
      }
    }
  }

  /** One more entry adds its key when its value failed. */
  lemma FailedKeysSnoc(results: Dict<Value>, e: (string, Value))
    ensures FailedKeys(results + [e]) == FailedKeys(results) + (if IsFailed(e.1) then [e.0] else [])
  {
    var p := (e: (string, Value)) => IsFailed(e.1);
    FilterConcat(results, [e], p);
    KeysConcat(Filter(results, p), Filter([e], p));
  }

  /** The loop that collects, in order, the keys whose result failed. */
  method CollectFailed(results: Dict<Value>) returns (failed: seq<string>)
    ensures failed == FailedKeys(results)
  {
    failed := [];
    var i := 0;
    while i < |results|
      invariant 0 <= i <= |results|
      invariant failed == FailedKeys(results[..i])
    {
      FailedKeysSnoc(results[..i], results[i]);
      assert results[..i + 1] == results[..i] + [results[i]];
      if IsFailed(results[i].1) {
        failed := failed + [results[i].0];
      }
      i := i + 1;
    }
    assert results[..i] == results;
  }

  /** `fetch_all_indices`: run the enabled fetchers in the fixed order,
      then list the failed keys. */
  method FetchAll(order: seq<string>, enabled: string -> bool, fetchers: string -> Fetcher, runner: Runner)
    returns (results: Dict<Value>, failed: seq<string>)
    ensures results == Fetched(order, enabled, fetchers, runner)
    ensures failed == FailedKeys(results)
  {
    results := [];
    var i := 0;
    while i < |order|
      invariant 0 <= i <= |order|
      invariant results == Fetched(order[..i], enabled, fetchers, runner)
    {
      var k := order[i];
      FetchedSnoc(order[..i], k, enabled, fetchers, runner);
      assert order[..i + 1] == order[..i] + [k];
      if enabled(k) {
        var v: Value;
        match runner {
          case Retrying(n, short, fallback) =>
            var calls, sleeps;
            v, calls, sleeps := RunFetcher(fetchers(k), n, short, fallback);
          case SingleShot =>
            v := RunOnce(fetchers(k));
        }
        results := results + [(k, v)];
      }
      i := i + 1;
    }
    assert order[..i] == order;
    failed := CollectFailed(results);
  }
}
