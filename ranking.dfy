/** Ranking expenses by amount: the stable descending sort both
    implementations use for their top-N query. */
module Ranking {
  import opened Results
  import opened Ledger

  predicate SortedDesc(s: seq<Expense>) {
    forall i, j :: 0 <= i < j < |s| ==> s[j].amount <= s[i].amount
  }

  /** Where a new expense goes: after every expense at least as large. */
  function InsertPos(r: seq<Expense>, x: Expense): (k: nat)
    requires SortedDesc(r)
    ensures k <= |r|
    ensures forall i :: 0 <= i < k ==> r[i].amount >= x.amount
    ensures forall i :: k <= i < |r| ==> r[i].amount < x.amount
  {
    if r == [] || r[0].amount < x.amount then 0 else 1 + InsertPos(r[1..], x)
  }

  function Insert(r: seq<Expense>, x: Expense): (t: seq<Expense>)
    requires SortedDesc(r)
    ensures |t| == |r| + 1
    ensures SortedDesc(t)
    ensures multiset(t) == multiset(r) + multiset{x}
  {
    var k := InsertPos(r, x);
    assert r == r[..k] + r[k..];
    r[..k] + [x] + r[k..]
  }

  /** `sorted(expenses, key=amount, reverse=True)` and `sorted((e1, e2) ->
      Double.compare(e2.amount, e1.amount))`: both sorts are stable, so this
      insertion sort, which places each later expense after the equal ones
      already placed, is what both compute. */
  function SortByAmountDesc(s: seq<Expense>): (r: seq<Expense>)
    ensures |r| == |s|
    ensures SortedDesc(r)
    ensures multiset(r) == multiset(s)
  {
    if s == [] then []
    else
      assert s == s[..|s| - 1] + [s[|s| - 1]];
      Insert(SortByAmountDesc(s[..|s| - 1]), s[|s| - 1])
  }

  lemma InsertStable(r: seq<Expense>, x: Expense, a: real)
    requires SortedDesc(r)
    ensures Select(Insert(r, x), AmountEquals(a))
            == Select(r, AmountEquals(a)) + if x.amount == a then [x] else []
  {
    var k := AmountEquals(a);
    var n := InsertPos(r, x);
    var lo, hi := r[..n], r[n..];
    assert r == lo + hi;
    assert Insert(r, x) == (lo + [x]) + hi;
    SelectAppend(lo + [x], hi, k);
    SelectSnoc(lo, x, k);
    SelectAppend(lo, hi, k);
    if x.amount == a {
      SelectNone(hi, k);
      calc {
        Select(Insert(r, x), k);
        Select(lo + [x], k) + Select(hi, k);
        Select(lo, k) + [x];
        (Select(lo, k) + Select(hi, k)) + [x];
        Select(r, k) + [x];
      }
    }
  }

  /** Stability: among expenses of equal amount the sort keeps the original
      order (the subsequence of each amount is unchanged). */
  lemma {:induction false} SortIsStable(s: seq<Expense>, a: real)
    ensures Select(SortByAmountDesc(s), AmountEquals(a)) == Select(s, AmountEquals(a))
    decreases |s|
  {
    if s != [] {
      var s' := s[..|s| - 1];
      var x := s[|s| - 1];
      assert s == s' + [x];
      SortIsStable(s', a);
      InsertStable(SortByAmountDesc(s'), x, a);
      SelectSnoc(s', x, AmountEquals(a));
    }
  }

  /** A prefix of a descending arrangement of `s` is descending, is drawn
      from `s`, and everything of `s` it leaves out is no larger than
      anything it keeps. */
  lemma PrefixHoldsLargest(s: seq<Expense>, sorted: seq<Expense>, n: nat)
    requires SortedDesc(sorted) && multiset(sorted) == multiset(s) && n <= |sorted|
    ensures SortedDesc(sorted[..n])
    ensures multiset(sorted[..n]) <= multiset(s)
    ensures forall e, i :: e in multiset(s) - multiset(sorted[..n]) && 0 <= i < n
                           ==> e.amount <= sorted[..n][i].amount
  {
    var top, rest := sorted[..n], sorted[n..];
    assert sorted == top + rest;
    assert multiset(s) - multiset(top) == multiset(rest);
    forall e: Expense, i: int | e in multiset(rest) && 0 <= i < n
      ensures e.amount <= top[i].amount
    {
      assert e in rest;
      var j :| 0 <= j < |rest| && rest[j] == e;
      assert sorted[n + j] == e && sorted[i] == top[i];
    }
  }

  /** `get_top_expenses(limit)` / `getTopExpenses(limit)`. */
  function TopExpenses(s: seq<Expense>, limit: int): (r: Result<seq<Expense>, Error>)
    ensures r.Err? <==> limit <= 0
    ensures r.Err? ==> r.error == NonPositiveLimit
    ensures r.Ok? ==> |r.value| == if limit < |s| then limit else |s|
    ensures r.Ok? ==> r.value == SortByAmountDesc(s)[..|r.value|]
    ensures r.Ok? ==> SortedDesc(r.value) && multiset(r.value) <= multiset(s)
    ensures r.Ok? ==> forall e, i :: e in multiset(s) - multiset(r.value) && 0 <= i < |r.value|
                                     ==> e.amount <= r.value[i].amount
  {
    if limit <= 0 then Err(NonPositiveLimit)
    else
      var sorted := SortByAmountDesc(s);
      var n := if limit < |s| then limit else |s|;
      PrefixHoldsLargest(s, sorted, n);
      var top := sorted[..n];
      assert |top| == n;
      Ok(top)
  }
}
