/** What a pass records and posts, told from the lines of the feed: a new payment has
    the amount and the login of its first line, its status follows its lines, and its
    owner is the registry's. */
module PerfFeeListed {
  import opened Common
  import opened Ledger
  import opened LedgerTheorems
  import opened Capital
  import opened PerfFees
  import opened PerfFeeTheorems
  import opened PerfFeeConfluence

  // ── the lines of a payment ──

  predicate Names(items: seq<Item>, pid: int, i: nat) {
    i < |items| && items[i].pid == Some(pid)
  }

  predicate FirstNames(items: seq<Item>, pid: int, i: nat) {
    Names(items, pid, i) && forall j | 0 <= j < i :: items[j].pid != Some(pid)
  }

  /** The last status its lines give; an empty one says nothing. */
  function LastStatus(items: seq<Item>, pid: int): Option<string> {
    if items == [] then None
    else
      var item := items[|items| - 1];
      if item.pid == Some(pid) && item.status.Some? && item.status.value != "" then item.status
      else LastStatus(items[..|items| - 1], pid)
  }

  /** The owner of a login, when it is registered and has one. */
  function OwnerOf(reg: Registry, login: string): Option<TraderId> {
    if login != "" && login in reg then reg[login] else None
  }

  /** A payment nobody had recorded, whose first line is i. */
  predicate AsListed(p: Payment, items: seq<Item>, reg: Registry, pid: int, i: nat)
    requires i < |items|
  {
    && p.login == items[i].login
    && p.amount == (if items[i].amount.Some? then items[i].amount.value else 0)
    && p.trader == OwnerOf(reg, items[i].login)
    && p.status == (if LastStatus(items, pid).Some? then LastStatus(items, pid) else items[i].status)
  }

  /** A payment already recorded: only its status moves, and its owner when it had none. */
  predicate AsKnown(p: Payment, was: Payment, items: seq<Item>, reg: Registry, pid: int) {
    && p.login == was.login && p.amount == was.amount
    && p.trader == (if was.trader.Some? then was.trader else OwnerOf(reg, was.login))
    && p.status == (if LastStatus(items, pid).Some? then LastStatus(items, pid) else was.status)
  }

  lemma {:induction false} UnlistedSaysNothing(items: seq<Item>, pid: int)
    requires forall j | 0 <= j < |items| :: items[j].pid != Some(pid)
    ensures LastStatus(items, pid).None?
  {
    if items != [] {
      UnlistedSaysNothing(items[..|items| - 1], pid);
    }
  }

  lemma {:induction false} UnlistedTrace(row: Option<Payment>, items: seq<Item>, reg: Registry, pid: int)
    requires forall j | 0 <= j < |items| :: items[j].pid != Some(pid)
    ensures Trace(row, items, reg, pid) == row
  {
    if items != [] {
      UnlistedTrace(row, items[..|items| - 1], reg, pid);
    }
  }

  lemma {:induction false} NewTrace(items: seq<Item>, reg: Registry, pid: int, i: nat)
    requires FirstNames(items, pid, i)
    ensures Trace(None, items, reg, pid).Some? && AsListed(Trace(None, items, reg, pid).value, items, reg, pid, i)
  {
    var n := |items| - 1;
    if i == n {
      UnlistedTrace(None, items[..n], reg, pid);
      UnlistedSaysNothing(items[..n], pid);
    } else {
      assert items[..n][i] == items[i];
      NewTrace(items[..n], reg, pid, i);
    }
  }

  lemma {:induction false} KnownTrace(was: Payment, items: seq<Item>, reg: Registry, pid: int)
    requires Listed(items, pid)
    ensures var p := Trace(Some(was), items, reg, pid); p.Some? && AsKnown(p.value, was, items, reg, pid)
  {
    var n := |items| - 1;
    ListedLast(items, pid);
    if Listed(items[..n], pid) {
      KnownTrace(was, items[..n], reg, pid);
    } else {
      UnlistedTrace(Some(was), items[..n], reg, pid);
      UnlistedSaysNothing(items[..n], pid);
    }
  }

  // ── what a pass records ──

  /** A pass leaves each listed payment as its lines say, new or known, and no other row. */
  lemma PassRecords(rows: Payments, b: Book, items: seq<Item>, reg: Registry, write: bool, pid: int)
    requires ReconcileAll(rows, b, items, reg, write).failure.None?
    ensures var q := ReconcileAll(rows, b, items, reg, write).rows;
      && (forall i: nat | FirstNames(items, pid, i) && pid !in rows :: pid in q && AsListed(q[pid], items, reg, pid, i))
      && (Listed(items, pid) && pid in rows ==> pid in q && AsKnown(q[pid], rows[pid], items, reg, pid))
      && (!Listed(items, pid) ==> Get(q, pid) == Get(rows, pid))
  {
    PassTraces(rows, b, items, reg, pid, write);
    forall i: nat | FirstNames(items, pid, i) && pid !in rows
      ensures Trace(None, items, reg, pid).Some? && AsListed(Trace(None, items, reg, pid).value, items, reg, pid, i)
    {
      NewTrace(items, reg, pid, i);
    }
    if Listed(items, pid) && pid in rows {
      KnownTrace(rows[pid], items, reg, pid);
    }
    if !Listed(items, pid) {
      UnlistedTrace(Get(rows, pid), items, reg, pid);
      if GetsLinked(Get(rows, pid), items, reg, pid, write) {
        SeenIsListed(Get(rows, pid), items, reg, pid);
      }
    }
  }

  // ── what it posts ──

  /** A status of a known payment stays until a line gives another. */
  predicate ExecutedAfter(was: Option<Payment>, items: seq<Item>, pid: int) {
    if LastStatus(items, pid).Some? then LastStatus(items, pid) == Some("EXECUTED")
    else was.Some? && was.value.status == Some("EXECUTED")
  }

  /** Line k names the payment and leaves it executed. */
  predicate ExecutedAt(was: Option<Payment>, items: seq<Item>, pid: int, k: nat) {
    Names(items, pid, k) && ExecutedAfter(was, items[..k + 1], pid)
  }

  /** Some line does. */
  ghost predicate EverExecuted(was: Option<Payment>, items: seq<Item>, pid: int) {
    exists k: nat :: ExecutedAt(was, items, pid, k)
  }

  lemma {:induction false} FirstLine(items: seq<Item>, pid: int) returns (i: nat)
    requires Listed(items, pid)
    ensures FirstNames(items, pid, i)
  {
    var n := |items| - 1;
    ListedLast(items, pid);
    if Listed(items[..n], pid) {
      i := FirstLine(items[..n], pid);
      assert forall j | 0 <= j < i :: items[..n][j] == items[j];
    } else {
      i := n;
      assert forall j | 0 <= j < n :: items[..n][j] == items[j];
    }
  }

  /** The first line of a new payment, when no later one says anything. */
  lemma {:induction false} SilentLines(items: seq<Item>, pid: int, i: nat)
    requires Names(items, pid, i) && LastStatus(items, pid).None?
    ensures items[i].status.None? || items[i].status == Some("")
  {
    var n := |items| - 1;
    if i < n {
      assert items[..n][i] == items[i];
      SilentLines(items[..n], pid, i);
    }
  }

  lemma TraceExecuted(was: Option<Payment>, items: seq<Item>, reg: Registry, pid: int)
    requires Listed(items, pid)
    ensures var p := Trace(was, items, reg, pid); p.Some? && (IsExecuted(p.value) <==> ExecutedAfter(was, items, pid))
  {
    if was.Some? {
      KnownTrace(was.value, items, reg, pid);
    } else {
      var i := FirstLine(items, pid);
      NewTrace(items, reg, pid, i);
      if LastStatus(items, pid).None? {
        SilentLines(items, pid, i);
      }
    }
  }

  lemma ExecutedAtPrefix(was: Option<Payment>, items: seq<Item>, pid: int, n: nat, k: nat)
    requires k < n <= |items|
    ensures ExecutedAt(was, items[..n], pid, k) <==> ExecutedAt(was, items, pid, k)
  {
    assert items[..n][..k + 1] == items[..k + 1] && items[..n][k] == items[k];
  }

  lemma EverExecutedLast(was: Option<Payment>, items: seq<Item>, pid: int)
    requires items != []
    ensures EverExecuted(was, items, pid)
       <==> EverExecuted(was, items[..|items| - 1], pid) || ExecutedAt(was, items, pid, |items| - 1)
  {
    var n := |items| - 1;
    if k: nat :| ExecutedAt(was, items[..n], pid, k) {
      ExecutedAtPrefix(was, items, pid, n, k);
    }
    if k: nat :| ExecutedAt(was, items, pid, k) && k < n {
      ExecutedAtPrefix(was, items, pid, n, k);
    }
  }

  lemma LastExecuted(was: Option<Payment>, items: seq<Item>, reg: Registry, pid: int)
    requires items != [] && items[|items| - 1].pid == Some(pid)
    ensures ExecutedAt(was, items, pid, |items| - 1)
       <==> Trace(was, items, reg, pid).Some? && IsExecuted(Trace(was, items, reg, pid).value)
  {
    assert items[..|items| - 1 + 1] == items;
    ListedLast(items, pid);
    TraceExecuted(was, items, reg, pid);
  }

  lemma {:induction false} SeenIffEver(was: Option<Payment>, items: seq<Item>, reg: Registry, pid: int)
    ensures SeenExecuted(was, items, reg, pid) <==> EverExecuted(was, items, pid)
  {
    if items != [] {
      SeenIffEver(was, items[..|items| - 1], reg, pid);
      EverExecutedLast(was, items, pid);
      if items[|items| - 1].pid == Some(pid) {
        LastExecuted(was, items, reg, pid);
      }
    }
  }

  /** A clean posting pass posts a new payment if and only if one of its lines leaves it
      executed and its login has an owner, for the amount of its first line. */
  lemma NewPaymentPostedIff(rows: Payments, b: Book, items: seq<Item>, reg: Registry, write: bool, pid: int, i: nat)
    requires FeeInv(rows, b) && ReconcileAll(rows, b, items, reg, write).failure.None?
    requires FirstNames(items, pid, i) && pid !in rows
    ensures var owner := OwnerOf(reg, items[i].login);
      var amount := if items[i].amount.Some? then items[i].amount.value else 0;
      Row(ReconcileAll(rows, b, items, reg, write).book, FeeKey(pid))
      == if write && owner.Some? && EverExecuted(None, items, pid) then
           Some(Tx(PerfFee, Posted, FeeKey(pid), owner, amount))
         else None
  {
    PassIsExact(rows, b, items, reg, write, pid);
    PassRecords(rows, b, items, reg, write, pid);
    NewTrace(items, reg, pid, i);
    SeenIffEver(None, items, reg, pid);
    PassRow(rows, b, items, reg, write, pid);
  }

  /** A known payment not posted yet is posted with the amount and the owner it has, or
      the one the registry gives its login. */
  lemma KnownPaymentPostedIff(rows: Payments, b: Book, items: seq<Item>, reg: Registry, write: bool, pid: int)
    requires FeeInv(rows, b) && ReconcileAll(rows, b, items, reg, write).failure.None?
    requires pid in rows && rows[pid].link.None?
    ensures var was := rows[pid];
      var owner := if was.trader.Some? then was.trader else OwnerOf(reg, was.login);
      Row(ReconcileAll(rows, b, items, reg, write).book, FeeKey(pid))
      == if write && owner.Some? && EverExecuted(Some(was), items, pid) then
           Some(Tx(PerfFee, Posted, FeeKey(pid), owner, was.amount))
         else None
  {
    PassIsExact(rows, b, items, reg, write, pid);
    PassRecords(rows, b, items, reg, write, pid);
    SeenIffEver(Some(rows[pid]), items, reg, pid);
    if Listed(items, pid) {
      KnownTrace(rows[pid], items, reg, pid);
    } else if SeenExecuted(Some(rows[pid]), items, reg, pid) {
      SeenIsListed(Some(rows[pid]), items, reg, pid);
    }
    PassRow(rows, b, items, reg, write, pid);
  }

  /** The ledger row of a payment after a pass. */
  lemma PassRow(rows: Payments, b: Book, items: seq<Item>, reg: Registry, write: bool, pid: int)
    requires FeeInv(rows, b) && ReconcileAll(rows, b, items, reg, write).failure.None?
    ensures var q := ReconcileAll(rows, b, items, reg, write);
      Row(q.book, FeeKey(pid))
      == if Linked(q.rows, pid) then Some(Tx(PerfFee, Posted, FeeKey(pid), q.rows[pid].trader, q.rows[pid].amount))
         else None
  {
    PassKeepsInv(rows, b, items, reg, write);
    assert RowOk(ReconcileAll(rows, b, items, reg, write).book, ReconcileAll(rows, b, items, reg, write).rows, pid);
  }

  // ── what is left without an owner ──

  /** How the summary names a payment. */
  function NameOf(login: string, pid: int): string {
    if login != "" then login else "pago " + IntStr(pid)
  }

  /** Executed by the feed, not posted before, and of nobody. */
  ghost predicate Ownerless(rows: Payments, items: seq<Item>, reg: Registry, pid: int, name: string) {
    && EverExecuted(Get(rows, pid), items, pid)
    && if pid in rows then
         && rows[pid].link.None? && rows[pid].trader.None? && OwnerOf(reg, rows[pid].login).None?
         && name == NameOf(rows[pid].login, pid)
       else
         exists i: nat :: FirstNames(items, pid, i) && OwnerOf(reg, items[i].login).None?
                  && name == NameOf(items[i].login, pid)
  }

  lemma KnownUnowned(rows: Payments, items: seq<Item>, reg: Registry, pid: int, name: string)
    requires pid in rows && SeenExecuted(Some(rows[pid]), items, reg, pid)
    ensures Unowned(rows, items, reg, pid) && LabelAfter(rows, items, reg, pid) == name
       <==> rows[pid].link.None? && rows[pid].trader.None? && OwnerOf(reg, rows[pid].login).None?
            && name == NameOf(rows[pid].login, pid)
  {
    SeenIsListed(Some(rows[pid]), items, reg, pid);
    KnownTrace(rows[pid], items, reg, pid);
  }

  lemma NewUnowned(rows: Payments, items: seq<Item>, reg: Registry, pid: int, i: nat, name: string)
    requires pid !in rows && SeenExecuted(None, items, reg, pid) && FirstNames(items, pid, i)
    ensures Unowned(rows, items, reg, pid) && LabelAfter(rows, items, reg, pid) == name
       <==> OwnerOf(reg, items[i].login).None? && name == NameOf(items[i].login, pid)
  {
    NewTrace(items, reg, pid, i);
  }

  lemma UnownedIsOwnerless(rows: Payments, items: seq<Item>, reg: Registry, pid: int, name: string)
    ensures Unowned(rows, items, reg, pid) && LabelAfter(rows, items, reg, pid) == name
       <==> Ownerless(rows, items, reg, pid, name)
  {
    SeenIffEver(Get(rows, pid), items, reg, pid);
    if SeenExecuted(Get(rows, pid), items, reg, pid) {
      if pid in rows {
        KnownUnowned(rows, items, reg, pid, name);
      } else {
        SeenIsListed(None, items, reg, pid);
        var i := FirstLine(items, pid);
        NewUnowned(rows, items, reg, pid, i, name);
        assert forall j: nat | FirstNames(items, pid, j) :: j == i;
      }
    }
  }

  /** The pending list names exactly the payments that could be charged to nobody. */
  lemma PendingNamesOwnerless(rows: Payments, b: Book, items: seq<Item>, reg: Registry, write: bool, name: string)
    requires ReconcileAll(rows, b, items, reg, write).failure.None?
    ensures name in ReconcileAll(rows, b, items, reg, write).pending
       <==> exists pid :: Ownerless(rows, items, reg, pid, name)
  {
    PendingIsExact(rows, b, items, reg, write, name);
    if pid :| Unowned(rows, items, reg, pid) && LabelAfter(rows, items, reg, pid) == name {
      UnownedIsOwnerless(rows, items, reg, pid, name);
    }
    if pid :| Ownerless(rows, items, reg, pid, name) {
      UnownedIsOwnerless(rows, items, reg, pid, name);
    }
  }

  // ── when a pass fails ──

  /** Line i brings a new payment with a negative amount. */
  predicate BringsNegative(rows: Payments, items: seq<Item>, i: nat) {
    && i < |items| && items[i].pid.Some? && items[i].pid.value !in rows && FirstNames(items, items[i].pid.value, i)
    && items[i].amount.Some? && items[i].amount.value < 0
  }

  ghost predicate SomeNegative(rows: Payments, items: seq<Item>) {
    exists i: nat :: BringsNegative(rows, items, i)
  }

  lemma NegativePrefix(rows: Payments, items: seq<Item>, n: nat, i: nat)
    requires i < n <= |items|
    ensures BringsNegative(rows, items[..n], i) <==> BringsNegative(rows, items, i)
  {
    assert items[..n][i] == items[i];
    assert forall j | 0 <= j < i :: items[..n][j] == items[j];
  }

  lemma SomeNegativeLast(rows: Payments, items: seq<Item>)
    requires items != []
    ensures SomeNegative(rows, items)
       <==> SomeNegative(rows, items[..|items| - 1]) || BringsNegative(rows, items, |items| - 1)
  {
    var n := |items| - 1;
    if i: nat :| BringsNegative(rows, items[..n], i) {
      NegativePrefix(rows, items, n, i);
    }
    if i: nat :| BringsNegative(rows, items, i) && i < n {
      NegativePrefix(rows, items, n, i);
    }
  }

  /** What the last line finds of its payment. */
  lemma LastFinds(rows: Payments, b: Book, items: seq<Item>, reg: Registry, write: bool)
    requires items != [] && items[|items| - 1].pid.Some?
    requires FeeInv(rows, b) && ReconcileAll(rows, b, items[..|items| - 1], reg, write).failure.None?
    ensures var s, item := ReconcileAll(rows, b, items[..|items| - 1], reg, write), items[|items| - 1];
      Touch(Get(s.rows, item.pid.value), item, reg).amount < 0 <==> BringsNegative(rows, items, |items| - 1)
  {
    var n, pid := |items| - 1, items[|items| - 1].pid.value;
    var s := ReconcileAll(rows, b, items[..n], reg, write);
    PassKeepsInv(rows, b, items[..n], reg, write);
    PassRecords(rows, b, items[..n], reg, write, pid);
    assert Listed(items[..n], pid) <==> !FirstNames(items, pid, n) by {
      assert forall j | 0 <= j < n :: items[..n][j] == items[j];
    }
    if Listed(items[..n], pid) {
      var i := FirstLine(items[..n], pid);
    }
  }

  /** With active accounts a pass fails if and only if a line brings a new payment with a
      negative amount; it then says so. */
  lemma {:induction false} PassFailsIff(rows: Payments, b: Book, items: seq<Item>, reg: Registry, write: bool)
    requires FeeInv(rows, b) && AllActive(b)
    ensures var q := ReconcileAll(rows, b, items, reg, write);
      if SomeNegative(rows, items) then q.failure == Some(NegativeAmount) else q.failure.None? && AllActive(q.book)
  {
    if items != [] {
      var init, item := items[..|items| - 1], items[|items| - 1];
      PassFailsIff(rows, b, init, reg, write);
      SomeNegativeLast(rows, items);
      if !SomeNegative(rows, init) && item.pid.Some? {
        PassKeepsInv(rows, b, init, reg, write);
        LastFinds(rows, b, items, reg, write);
        LineGoesThrough(ReconcileAll(rows, b, init, reg, write), item, reg, write);
      }
    }
  }

  // ── the executed total ──

  /** How many lines leave the payment executed. */
  function ExecutedCount(was: Option<Payment>, items: seq<Item>, pid: int): nat {
    if items == [] then 0
    else
      ExecutedCount(was, items[..|items| - 1], pid)
      + if items[|items| - 1].pid == Some(pid) && ExecutedAfter(was, items, pid) then 1 else 0
  }

  lemma {:induction false} ExecutedLinesCount(was: Option<Payment>, items: seq<Item>, reg: Registry, pid: int)
    ensures ExecutedLines(was, items, reg, pid) == ExecutedCount(was, items, pid)
  {
    if items != [] {
      ExecutedLinesCount(was, items[..|items| - 1], reg, pid);
      if items[|items| - 1].pid == Some(pid) {
        ListedLast(items, pid);
        TraceExecuted(was, items, reg, pid);
      }
    }
  }

  /** The amount of a payment: the one recorded, or the one of its first line. */
  function AmountListed(rows: Payments, items: seq<Item>, pid: int): int
    decreases |items|
  {
    if pid in rows then rows[pid].amount
    else if items == [] then 0
    else if items[0].pid == Some(pid) then (if items[0].amount.Some? then items[0].amount.value else 0)
    else AmountListed(rows, items[1..], pid)
  }

  lemma {:induction false} AmountOfFirst(rows: Payments, items: seq<Item>, pid: int, i: nat)
    requires pid !in rows && FirstNames(items, pid, i)
    ensures AmountListed(rows, items, pid) == if items[i].amount.Some? then items[i].amount.value else 0
    decreases |items|
  {
    if i > 0 {
      assert forall j | 0 <= j < i - 1 :: items[1..][j] == items[j + 1];
      AmountOfFirst(rows, items[1..], pid, i - 1);
    }
  }

  function CountedAmount(rows: Payments, items: seq<Item>): int -> int {
    pid => ExecutedCount(Get(rows, pid), items, pid) * AmountListed(rows, items, pid)
  }

  lemma CountsAsListed(rows: Payments, b: Book, items: seq<Item>, reg: Registry, write: bool, pid: int)
    requires ReconcileAll(rows, b, items, reg, write).failure.None? && pid in ListedIn(items)
    ensures LineTotal(rows, items, reg, ReconcileAll(rows, b, items, reg, write).rows)(pid)
         == CountedAmount(rows, items)(pid)
  {
    ListedInIsListed(items, pid);
    PassRecords(rows, b, items, reg, write, pid);
    ExecutedLinesCount(Get(rows, pid), items, reg, pid);
    if pid !in rows {
      var i := FirstLine(items, pid);
      AmountOfFirst(rows, items, pid, i);
    }
  }

  /** The executed total: each listed payment's amount, once for every line that leaves it
      executed. */
  lemma TotalAsListed(rows: Payments, b: Book, items: seq<Item>, reg: Registry, write: bool)
    requires ReconcileAll(rows, b, items, reg, write).failure.None?
    ensures ReconcileAll(rows, b, items, reg, write).total == SumOver(ListedIn(items), CountedAmount(rows, items))
  {
    TotalCountsLines(rows, b, items, reg, write);
    var q := ReconcileAll(rows, b, items, reg, write).rows;
    forall pid | pid in ListedIn(items)
      ensures LineTotal(rows, items, reg, q)(pid) == CountedAmount(rows, items)(pid)
    {
      CountsAsListed(rows, b, items, reg, write, pid);
    }
    SumOverSame(ListedIn(items), LineTotal(rows, items, reg, q), CountedAmount(rows, items));
  }
}
