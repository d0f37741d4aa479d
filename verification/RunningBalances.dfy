/** The running balances the journal report shows beside each entry, computed by a
    window over (created_at, id), against the plain sums they must agree with. */
module RunningBalances {
  import opened Ledger

  /** An entry as stored: its unique id and its time besides what it says. */
  datatype Stamped = Stamped(id: int, at: int, entry: Entry)

  /** A line of the report. */
  datatype Line = Line(account: AccountId, debit: int, credit: int, before: int, after: int)

  function Net(e: Entry): int {
    e.debit - e.credit
  }

  /** The order of the window. */
  predicate Before(x: Stamped, y: Stamped) {
    x.at < y.at || (x.at == y.at && x.id < y.id)
  }

  ghost predicate UniqueIds(rows: seq<Stamped>) {
    forall i, j | 0 <= i < |rows| && 0 <= j < |rows| && rows[i].id == rows[j].id :: i == j
  }

  /** `SUM(debit - credit)` over the rows a condition selects. */
  function SumWhere(rows: seq<Stamped>, f: Stamped -> bool): int {
    if rows == [] then 0
    else
      var r := rows[|rows| - 1];
      SumWhere(rows[..|rows| - 1], f) + if f(r) then Net(r.entry) else 0
  }

  function OfAccount(a: AccountId): Stamped -> bool {
    (r: Stamped) => r.entry.account == a
  }

  /** The rows of the account up to row e, itself included. */
  function UpTo(e: Stamped): Stamped -> bool {
    (r: Stamped) => r.entry.account == e.entry.account && !Before(e, r)
  }

  /** The rows of the account strictly before row e. */
  function Earlier(e: Stamped): Stamped -> bool {
    (r: Stamped) => r.entry.account == e.entry.account && Before(r, e)
  }

  function Until(a: AccountId, t: int): Stamped -> bool {
    (r: Stamped) => r.entry.account == a && r.at < t
  }

  /** `SUM(...) OVER (PARTITION BY account ORDER BY created_at, id ROWS UNBOUNDED PRECEDING)` */
  function BalanceAfter(rows: seq<Stamped>, e: Stamped): int {
    SumWhere(rows, UpTo(e))
  }

  function BalanceBefore(rows: seq<Stamped>, e: Stamped): int {
    BalanceAfter(rows, e) - Net(e.entry)
  }

  /** `balances_as_of` of one account. */
  function AsOf(rows: seq<Stamped>, a: AccountId, t: int): int {
    SumWhere(rows, Until(a, t))
  }

  function Entries(rows: seq<Stamped>): seq<Entry> {
    if rows == [] then [] else Entries(rows[..|rows| - 1]) + [rows[|rows| - 1].entry]
  }

  function LineOf(r: Stamped, after: int): Line {
    Line(r.entry.account, r.entry.debit, r.entry.credit, after - Net(r.entry), after)
  }

  /** The lines of one transaction, in the order the rows come. */
  function LinesOf(rows: seq<(Stamped, int)>, tx: nat): seq<Line> {
    if rows == [] then []
    else
      var r := rows[|rows| - 1];
      LinesOf(rows[..|rows| - 1], tx) + if r.0.entry.tx == tx then [LineOf(r.0, r.1)] else []
  }

  /** `list_transactions`: the dictionary of lines by transaction, filled row by row. */
  method LinesByTransaction(rows: seq<(Stamped, int)>) returns (lines: map<nat, seq<Line>>)
    ensures forall tx :: tx in lines <==> LinesOf(rows, tx) != []
    ensures forall tx | tx in lines :: lines[tx] == LinesOf(rows, tx)
  {
    lines := map[];
    for i := 0 to |rows|
      invariant forall tx :: tx in lines <==> LinesOf(rows[..i], tx) != []
      invariant forall tx | tx in lines :: lines[tx] == LinesOf(rows[..i], tx)
    {
      assert rows[..i + 1][..i] == rows[..i];
      var (r, after) := rows[i];
      var tx := r.entry.tx;
      ghost var before := lines;
      if tx !in lines {
        lines := lines[tx := []];
      }
      lines := lines[tx := lines[tx] + [LineOf(r, after)]];
      assert lines[tx] == LinesOf(rows[..i], tx) + [LineOf(r, after)];
      assert forall other | other != tx :: other in lines <==> other in before;
    }
    assert rows[..|rows|] == rows;
  }

  // ── sums by condition ──

  lemma {:induction false} SumWhereSame(rows: seq<Stamped>, f: Stamped -> bool, g: Stamped -> bool)
    requires forall i | 0 <= i < |rows| :: f(rows[i]) == g(rows[i])
    ensures SumWhere(rows, f) == SumWhere(rows, g)
  {
    if rows != [] {
      SumWhereSame(rows[..|rows| - 1], f, g);
    }
  }

  /** One more row selected adds its net. */
  lemma {:induction false} SumWhereOneMore(rows: seq<Stamped>, f: Stamped -> bool, g: Stamped -> bool, k: nat)
    requires k < |rows| && !f(rows[k])
    requires forall i | 0 <= i < |rows| :: g(rows[i]) == (f(rows[i]) || i == k)
    ensures SumWhere(rows, g) == SumWhere(rows, f) + Net(rows[k].entry)
  {
    var n := |rows| - 1;
    if k == n {
      SumWhereSame(rows[..n], f, g);
    } else {
      SumWhereOneMore(rows[..n], f, g, k);
    }
  }

  lemma {:induction false} SumWhereNone(rows: seq<Stamped>, f: Stamped -> bool)
    requires forall i | 0 <= i < |rows| :: !f(rows[i])
    ensures SumWhere(rows, f) == 0
  {
    if rows != [] {
      SumWhereNone(rows[..|rows| - 1], f);
    }
  }

  lemma {:induction false} SumWhereIsBalance(rows: seq<Stamped>, a: AccountId)
    ensures SumWhere(rows, OfAccount(a)) == BalanceOf(Entries(rows), a)
  {
    if rows != [] {
      var n := |rows| - 1;
      SumWhereIsBalance(rows[..n], a);
      assert Entries(rows)[..|Entries(rows)| - 1] == Entries(rows[..n]);
    }
  }

  // ── theorems ──

  ghost predicate SameAccount(rows: seq<Stamped>, i: nat, j: nat)
    requires i < |rows| && j < |rows|
  {
    rows[i].entry.account == rows[j].entry.account
  }

  /** Row p comes just before row e among the rows of its account. */
  ghost predicate Precedes(rows: seq<Stamped>, p: nat, e: nat)
    requires p < |rows| && e < |rows|
  {
    && SameAccount(rows, p, e) && Before(rows[p], rows[e])
    && forall i {:trigger rows[i]} | 0 <= i < |rows| && SameAccount(rows, i, e) && Before(rows[i], rows[e]) ::
         !Before(rows[p], rows[i])
  }

  lemma BeforeIsEarlier(rows: seq<Stamped>, e: nat)
    requires UniqueIds(rows) && e < |rows|
    ensures BalanceBefore(rows, rows[e]) == SumWhere(rows, Earlier(rows[e]))
  {
    var row := rows[e];
    SumWhereOneMore(rows, Earlier(row), UpTo(row), e);
  }

  /** The balance before an entry is the balance after the one that precedes it. */
  lemma BalancesChain(rows: seq<Stamped>, p: nat, e: nat)
    requires UniqueIds(rows) && p < |rows| && e < |rows| && Precedes(rows, p, e)
    ensures BalanceBefore(rows, rows[e]) == BalanceAfter(rows, rows[p])
  {
    BeforeIsEarlier(rows, e);
    var prev, row := rows[p], rows[e];
    SumWhereSame(rows, Earlier(row), UpTo(prev));
  }

  /** The first entry of an account starts from zero. */
  lemma FirstStartsAtZero(rows: seq<Stamped>, e: nat)
    requires UniqueIds(rows) && e < |rows|
    requires forall i | 0 <= i < |rows| && SameAccount(rows, i, e) :: !Before(rows[i], rows[e])
    ensures BalanceBefore(rows, rows[e]) == 0
  {
    BeforeIsEarlier(rows, e);
    SumWhereNone(rows, Earlier(rows[e]));
  }

  /** The last one ends at the recomputed balance. */
  lemma LastEndsAtBalance(rows: seq<Stamped>, e: nat)
    requires e < |rows|
    requires forall i | 0 <= i < |rows| && SameAccount(rows, i, e) :: !Before(rows[e], rows[i])
    ensures BalanceAfter(rows, rows[e]) == BalanceOf(Entries(rows), rows[e].entry.account)
  {
    var row := rows[e];
    SumWhereSame(rows, UpTo(row), OfAccount(row.entry.account));
    SumWhereIsBalance(rows, row.entry.account);
  }

  /** Row e is the last of its account before an instant. */
  ghost predicate LastBefore(rows: seq<Stamped>, e: nat, t: int)
    requires e < |rows|
  {
    && rows[e].at < t
    && forall i {:trigger rows[i]} | 0 <= i < |rows| && SameAccount(rows, i, e) && rows[i].at < t ::
         !Before(rows[e], rows[i])
  }

  /** A balance as of an instant is the one shown by the last entry before it. */
  lemma AsOfIsLastShown(rows: seq<Stamped>, e: nat, t: int)
    requires e < |rows| && LastBefore(rows, e, t)
    ensures AsOf(rows, rows[e].entry.account, t) == BalanceAfter(rows, rows[e])
  {
    var row := rows[e];
    SumWhereSame(rows, Until(row.entry.account, t), UpTo(row));
  }

  lemma AsOfNothingIsZero(rows: seq<Stamped>, a: AccountId, t: int)
    requires forall i | 0 <= i < |rows| && rows[i].entry.account == a :: rows[i].at >= t
    ensures AsOf(rows, a, t) == 0
  {
    SumWhereNone(rows, Until(a, t));
  }

  /** The indices of an account's rows, in the order of the window. */
  ghost predicate InOrder(rows: seq<Stamped>, a: AccountId, chain: seq<nat>) {
    && (forall k | 0 <= k < |chain| :: chain[k] < |rows| && rows[chain[k]].entry.account == a)
    && (forall i | 0 <= i < |rows| && rows[i].entry.account == a :: i in chain)
    && (forall j, k | 0 <= j < k < |chain| ::
          chain[j] < |rows| && chain[k] < |rows| && Before(rows[chain[j]], rows[chain[k]]))
  }

  /** The running sum along the rows in order. */
  function RunningSum(rows: seq<Stamped>, chain: seq<nat>, n: nat): int
    requires n <= |chain| && forall k | 0 <= k < |chain| :: chain[k] < |rows|
  {
    if n == 0 then 0 else RunningSum(rows, chain, n - 1) + Net(rows[chain[n - 1]].entry)
  }

  lemma ChainPrecedes(rows: seq<Stamped>, a: AccountId, chain: seq<nat>, k: nat)
    requires InOrder(rows, a, chain) && 0 < k < |chain|
    ensures Precedes(rows, chain[k - 1], chain[k])
  {
    forall i | 0 <= i < |rows| && SameAccount(rows, i, chain[k]) && Before(rows[i], rows[chain[k]])
      ensures !Before(rows[chain[k - 1]], rows[i])
    {
      var j :| 0 <= j < |chain| && chain[j] == i;
    }
  }

  /** The window gives every entry the running sum of its account. */
  lemma {:induction false} WindowIsRunningSum(rows: seq<Stamped>, a: AccountId, chain: seq<nat>, k: nat)
    requires UniqueIds(rows) && InOrder(rows, a, chain) && k < |chain|
    ensures BalanceAfter(rows, rows[chain[k]]) == RunningSum(rows, chain, k + 1)
    ensures BalanceBefore(rows, rows[chain[k]]) == RunningSum(rows, chain, k)
  {
    if k == 0 {
      forall i | 0 <= i < |rows| && SameAccount(rows, i, chain[0]) ensures !Before(rows[i], rows[chain[0]]) {
        var j :| 0 <= j < |chain| && chain[j] == i;
      }
      FirstStartsAtZero(rows, chain[0]);
    } else {
      WindowIsRunningSum(rows, a, chain, k - 1);
      ChainPrecedes(rows, a, chain, k);
      BalancesChain(rows, chain[k - 1], chain[k]);
    }
  }

  // ── the lines of the report ──

  /** How many of the rows belong to a transaction. */
  function RowsOf(rows: seq<(Stamped, int)>, tx: nat): nat {
    if rows == [] then 0
    else RowsOf(rows[..|rows| - 1], tx) + if rows[|rows| - 1].0.entry.tx == tx then 1 else 0
  }

  lemma {:induction false} OneLineEach(rows: seq<(Stamped, int)>, tx: nat)
    ensures |LinesOf(rows, tx)| == RowsOf(rows, tx)
  {
    if rows != [] {
      OneLineEach(rows[..|rows| - 1], tx);
    }
  }

  /** Row i has its line, after those of the earlier rows of its transaction: its account,
      debit and credit, the balance the window gave after it, and the one before it. */
  lemma {:induction false} LineOfRow(rows: seq<(Stamped, int)>, i: nat)
    requires i < |rows|
    ensures var e, after := rows[i].0.entry, rows[i].1;
      var lines, k := LinesOf(rows, e.tx), RowsOf(rows[..i], e.tx);
      k < |lines| && lines[k] == Line(e.account, e.debit, e.credit, after - e.debit + e.credit, after)
  {
    var n, tx := |rows| - 1, rows[i].0.entry.tx;
    OneLineEach(rows[..i], tx);
    if i < n {
      assert rows[..n][..i] == rows[..i] && rows[..n][i] == rows[i];
      LineOfRow(rows[..n], i);
    }
  }

  /** The rows of a page, each with the balance of its account after it. */
  function WithBalances(all: seq<Stamped>, page: seq<Stamped>): (rows: seq<(Stamped, int)>)
    ensures |rows| == |page|
  {
    seq(|page|, i requires 0 <= i < |page| => (page[i], BalanceAfter(all, page[i])))
  }

  /** In the report each entry is shown between the running sums of its account before it
      and after it, in the order of the window. */
  lemma LinesShowRunningSums(all: seq<Stamped>, page: seq<Stamped>, a: AccountId, chain: seq<nat>, k: nat, i: nat)
    requires UniqueIds(all) && InOrder(all, a, chain) && k < |chain| && i < |page| && page[i] == all[chain[k]]
    ensures var e, rows := page[i].entry, WithBalances(all, page);
      var lines, j := LinesOf(rows, e.tx), RowsOf(rows[..i], e.tx);
      && j < |lines|
      && lines[j] == Line(a, e.debit, e.credit, RunningSum(all, chain, k), RunningSum(all, chain, k + 1))
  {
    WindowIsRunningSum(all, a, chain, k);
    LineOfRow(WithBalances(all, page), i);
  }
}
