/** Reconciliation is confluent: pages may overlap, repeat and come in any order. */
module PerfFeeConfluence {
  import opened Common
  import opened Ledger
  import opened LedgerInvariants
  import opened LedgerTheorems
  import opened Capital
  import opened PerfFees
  import opened PerfFeeTheorems

  // ── many passes are one ──

  /** Passes one after another; None when one of them fails and is rolled back. */
  function Passes(rows: Payments, b: Book, batches: seq<seq<Item>>, reg: Registry): Option<(Payments, Book)> {
    if batches == [] then Some((rows, b))
    else
      match Passes(rows, b, batches[..|batches| - 1], reg)
      case None => None
      case Some(s) =>
        var q := ReconcileAll(s.0, s.1, batches[|batches| - 1], reg, true);
        if q.failure.Some? then None else Some((q.rows, q.book))
  }

  function Flatten(batches: seq<seq<Item>>): seq<Item> {
    if batches == [] then [] else Flatten(batches[..|batches| - 1]) + batches[|batches| - 1]
  }

  /** Rows, book and failure of a pass: what the next line depends on. */
  predicate SameState(p: Pass, q: Pass) {
    p.rows == q.rows && p.book == q.book && p.failure == q.failure
  }

  lemma {:induction false} PassConcat(rows: Payments, b: Book, xs: seq<Item>, ys: seq<Item>, reg: Registry, write: bool)
    requires ReconcileAll(rows, b, xs, reg, write).failure.None?
    ensures var s := ReconcileAll(rows, b, xs, reg, write);
      SameState(ReconcileAll(s.rows, s.book, ys, reg, write), ReconcileAll(rows, b, xs + ys, reg, write))
  {
    if ys == [] {
      assert xs + ys == xs;
    } else {
      var init := ys[..|ys| - 1];
      assert (xs + ys)[..|xs + ys| - 1] == xs + init;
      PassConcat(rows, b, xs, init, reg, write);
      var s := ReconcileAll(rows, b, xs, reg, write);
      StepAgrees(ReconcileAll(s.rows, s.book, init, reg, write), ReconcileAll(rows, b, xs + init, reg, write),
        ys[|ys| - 1], reg, write);
    }
  }

  lemma StepAgrees(p: Pass, q: Pass, item: Item, reg: Registry, write: bool)
    requires SameState(p, q)
    ensures SameState(ReconcileOne(p, item, reg, write), ReconcileOne(q, item, reg, write))
  {
  }

  /** Passes over batches leave what one pass over all their lines leaves. */
  lemma {:induction false} BatchesAreOnePass(rows: Payments, b: Book, batches: seq<seq<Item>>, reg: Registry)
    requires Passes(rows, b, batches, reg).Some?
    ensures var q := ReconcileAll(rows, b, Flatten(batches), reg, true);
      q.failure.None? && Passes(rows, b, batches, reg) == Some((q.rows, q.book))
  {
    if batches != [] {
      var init := batches[..|batches| - 1];
      BatchesAreOnePass(rows, b, init, reg);
      PassConcat(rows, b, Flatten(init), batches[|batches| - 1], reg, true);
    }
  }

  // ── what decides a payment ──

  predicate ListedExecuted(items: seq<Item>, pid: int) {
    exists i | 0 <= i < |items| :: items[i].pid == Some(pid) && items[i].status == Some(EXECUTED)
  }

  lemma ListedExecutedLast(items: seq<Item>, pid: int)
    requires items != []
    ensures ListedExecuted(items, pid) <==>
      || ListedExecuted(items[..|items| - 1], pid)
      || (items[|items| - 1].pid == Some(pid) && items[|items| - 1].status == Some(EXECUTED))
  {
    var init, n := items[..|items| - 1], |items| - 1;
    if ListedExecuted(init, pid) {
      var i :| 0 <= i < |init| && init[i].pid == Some(pid) && init[i].status == Some(EXECUTED);
      assert items[i].pid == Some(pid);
    }
    if ListedExecuted(items, pid) {
      var i :| 0 <= i < |items| && items[i].pid == Some(pid) && items[i].status == Some(EXECUTED);
      assert i < n ==> init[i].pid == Some(pid);
    }
  }

  /** A line that says EXECUTED makes the payment seen executed. */
  lemma {:induction false} ExecutedLineIsSeen(row: Option<Payment>, items: seq<Item>, reg: Registry, pid: int)
    requires ListedExecuted(items, pid)
    ensures SeenExecuted(row, items, reg, pid)
  {
    ListedExecutedLast(items, pid);
    if ListedExecuted(items[..|items| - 1], pid) {
      ExecutedLineIsSeen(row, items[..|items| - 1], reg, pid);
    }
  }

  /** From a row that is not executed only such a line does. */
  lemma {:induction false} SeenIffListedExecuted(row: Option<Payment>, items: seq<Item>, reg: Registry, pid: int)
    requires row.Some? ==> !IsExecuted(row.value)
    ensures SeenExecuted(row, items, reg, pid) <==> ListedExecuted(items, pid)
    ensures Trace(row, items, reg, pid).Some? && IsExecuted(Trace(row, items, reg, pid).value) ==>
      ListedExecuted(items, pid)
  {
    if items != [] {
      SeenIffListedExecuted(row, items[..|items| - 1], reg, pid);
      ListedExecutedLast(items, pid);
    }
  }

  /** What the feed says of a payment does not change, its status apart. */
  ghost predicate Immutable(items: seq<Item>) {
    forall i, j | 0 <= i < |items| && 0 <= j < |items| && items[i].pid == items[j].pid ::
      items[i].login == items[j].login && items[i].amount == items[j].amount
  }

  /** Owner and amount of a listed payment. */
  function Identity(row: Option<Payment>, item: Item, reg: Registry): (Option<TraderId>, int) {
    (Touch(row, item, reg).trader, Touch(row, item, reg).amount)
  }

  lemma {:induction false} TraceIdentity(row: Option<Payment>, items: seq<Item>, reg: Registry, pid: int, k: nat)
    requires Immutable(items) && k < |items| && items[k].pid == Some(pid)
    ensures var traced := Trace(row, items, reg, pid);
      traced.Some? && (traced.value.trader, traced.value.amount) == Identity(row, items[k], reg)
  {
    var init, n := items[..|items| - 1], |items| - 1;
    ListedLast(items, pid);
    TraceSettles(row, init, reg, pid);
    if i :| 0 <= i < n && items[i].pid == Some(pid) {
      assert init[i] == items[i];
      TraceIdentity(row, init, reg, pid, i);
      assert items[i].login == items[k].login && items[i].amount == items[k].amount;
    } else {
      assert k == n && !Listed(init, pid);
    }
  }

  // ── a payment that waits ──

  /** Executed and owned, and not posted: what a pass without posting leaves, or the
      import of an account whose payments were already known. */
  predicate Waiting(rows: Payments, reg: Registry, pid: int) {
    pid in rows && IsExecuted(rows[pid]) && rows[pid].link.None? && Attribute(rows[pid], reg).trader.Some?
  }

  /** A line that leaves the status as it finds it, and one that takes it back. */
  predicate Silent(item: Item) {
    item.status.None? || item.status.value == ""
  }

  predicate Reverts(item: Item) {
    !Silent(item) && item.status != Some(EXECUTED)
  }

  ghost predicate ListedSilent(items: seq<Item>, pid: int) {
    exists i | 0 <= i < |items| :: items[i].pid == Some(pid) && Silent(items[i])
  }

  ghost predicate ListedReverted(items: seq<Item>, pid: int) {
    exists i | 0 <= i < |items| :: items[i].pid == Some(pid) && Reverts(items[i])
  }

  /** A waiting payment the feed lists both ways, and never as executed: whichever line
      comes first decides. */
  ghost predicate Torn(rows: Payments, items: seq<Item>, reg: Registry, pid: int) {
    Waiting(rows, reg, pid) && ListedSilent(items, pid) && ListedReverted(items, pid) && !ListedExecuted(items, pid)
  }

  ghost predicate NoneTorn(rows: Payments, items: seq<Item>, reg: Registry) {
    forall pid :: !Torn(rows, items, reg, pid)
  }

  /** What the last line adds to the three kinds. */
  lemma ListedKindsGrow(items: seq<Item>, pid: int)
    requires items != []
    ensures ListedSilent(items[..|items| - 1], pid) ==> ListedSilent(items, pid)
    ensures ListedReverted(items[..|items| - 1], pid) ==> ListedReverted(items, pid)
    ensures ListedExecuted(items[..|items| - 1], pid) ==> ListedExecuted(items, pid)
    ensures items[|items| - 1].pid == Some(pid) && Silent(items[|items| - 1]) ==> ListedSilent(items, pid)
    ensures items[|items| - 1].pid == Some(pid) && Reverts(items[|items| - 1]) ==> ListedReverted(items, pid)
  {
    var init, n := items[..|items| - 1], |items| - 1;
    assert forall i | 0 <= i < n :: init[i] == items[i];
    ListedExecutedLast(items, pid);
    if ListedSilent(init, pid) {
      var i :| 0 <= i < |init| && init[i].pid == Some(pid) && Silent(init[i]);
      assert items[i].pid == Some(pid) && Silent(items[i]);
    }
    if ListedReverted(init, pid) {
      var i :| 0 <= i < |init| && init[i].pid == Some(pid) && Reverts(init[i]);
      assert items[i].pid == Some(pid) && Reverts(items[i]);
    }
  }

  /** An executed row is seen executed only by a line that says so or says nothing. */
  lemma {:induction false} SeenNeedsALine(row: Payment, items: seq<Item>, reg: Registry, pid: int)
    requires IsExecuted(row)
    ensures SeenExecuted(Some(row), items, reg, pid) ==> ListedExecuted(items, pid) || ListedSilent(items, pid)
    ensures Trace(Some(row), items, reg, pid).Some?
    ensures IsExecuted(Trace(Some(row), items, reg, pid).value) ==>
      ListedExecuted(items, pid) || ListedSilent(items, pid) || !Listed(items, pid)
  {
    if items != [] {
      SeenNeedsALine(row, items[..|items| - 1], reg, pid);
      TraceSettles(Some(row), items[..|items| - 1], reg, pid);
      ListedKindsGrow(items, pid);
      ListedLast(items, pid);
      ListedExecutedLast(items, pid);
    }
  }

  /** With no line that takes it back, an executed row stays so, and any line sees it. */
  lemma {:induction false} StaysExecuted(row: Payment, items: seq<Item>, reg: Registry, pid: int)
    requires IsExecuted(row) && !ListedReverted(items, pid)
    ensures Trace(Some(row), items, reg, pid).Some? && IsExecuted(Trace(Some(row), items, reg, pid).value)
    ensures Listed(items, pid) ==> SeenExecuted(Some(row), items, reg, pid)
  {
    if items != [] {
      ListedKindsGrow(items, pid);
      ListedLast(items, pid);
      StaysExecuted(row, items[..|items| - 1], reg, pid);
    }
  }

  /** Which payments a pass posts, read off the set of lines alone. */
  ghost predicate Posts(rows: Payments, items: seq<Item>, reg: Registry, pid: int) {
    && !Linked(rows, pid) && (ListedExecuted(items, pid) || (Waiting(rows, reg, pid) && ListedSilent(items, pid)))
    && exists k | 0 <= k < |items| :: items[k].pid == Some(pid) && Identity(Get(rows, pid), items[k], reg).0.Some?
  }

  lemma SeenBySet(rows: Payments, items: seq<Item>, reg: Registry, pid: int)
    requires !Linked(rows, pid) && !Torn(rows, items, reg, pid)
    requires pid in rows && IsExecuted(rows[pid]) ==> Waiting(rows, reg, pid)
    ensures SeenExecuted(Get(rows, pid), items, reg, pid)
       <==> ListedExecuted(items, pid) || (Waiting(rows, reg, pid) && ListedSilent(items, pid))
  {
    var row := Get(rows, pid);
    if Waiting(rows, reg, pid) {
      SeenNeedsALine(rows[pid], items, reg, pid);
      if ListedExecuted(items, pid) {
        ExecutedLineIsSeen(row, items, reg, pid);
      } else if ListedSilent(items, pid) {
        StaysExecuted(rows[pid], items, reg, pid);
      }
    } else {
      SeenIffListedExecuted(row, items, reg, pid);
    }
  }

  lemma PostedBySet(rows: Payments, items: seq<Item>, reg: Registry, pid: int)
    requires !Torn(rows, items, reg, pid) && Immutable(items)
    ensures GetsLinked(Get(rows, pid), items, reg, pid, true) <==> Posts(rows, items, reg, pid)
  {
    var row := Get(rows, pid);
    if k :| 0 <= k < |items| && items[k].pid == Some(pid) {
      TraceIdentity(row, items, reg, pid, k);
      if row.Some? {
        OwnerFromRow(row, items[k], reg);
      }
      OwnersAgree(row, items, reg, pid, k);
      if !Linked(rows, pid) && Identity(row, items[k], reg).0.Some? {
        SeenBySet(rows, items, reg, pid);
      }
    } else if SeenExecuted(row, items, reg, pid) {
      SeenIsListed(row, items, reg, pid);
    }
  }

  /** All the lines of a payment give it the same owner. */
  lemma OwnersAgree(row: Option<Payment>, items: seq<Item>, reg: Registry, pid: int, k: nat)
    requires Immutable(items) && k < |items| && items[k].pid == Some(pid)
    ensures forall i | 0 <= i < |items| && items[i].pid == Some(pid) ::
      Identity(row, items[i], reg) == Identity(row, items[k], reg)
  {
    forall i | 0 <= i < |items| && items[i].pid == Some(pid)
      ensures Identity(row, items[i], reg) == Identity(row, items[k], reg)
    {
      TraceIdentity(row, items, reg, pid, i);
      TraceIdentity(row, items, reg, pid, k);
    }
  }

  lemma OwnerFromRow(row: Option<Payment>, item: Item, reg: Registry)
    requires row.Some?
    ensures Identity(row, item, reg) == (Attribute(row.value, reg).trader, row.value.amount)
  {
  }

  // ── confluence ──

  ghost predicate SameLines(xs: seq<Item>, ys: seq<Item>) {
    forall item :: item in xs <==> item in ys
  }

  lemma SamePosts(rows: Payments, xs: seq<Item>, ys: seq<Item>, reg: Registry, pid: int)
    requires SameLines(xs, ys) && Posts(rows, xs, reg, pid)
    ensures Posts(rows, ys, reg, pid)
  {
    SameKinds(xs, ys, pid);
    var k :| 0 <= k < |xs| && xs[k].pid == Some(pid) && Identity(Get(rows, pid), xs[k], reg).0.Some?;
    assert xs[k] in ys;
    var l :| 0 <= l < |ys| && ys[l] == xs[k];
    assert ys[l].pid == Some(pid);
  }

  lemma SameKinds(xs: seq<Item>, ys: seq<Item>, pid: int)
    requires SameLines(xs, ys)
    ensures ListedExecuted(xs, pid) ==> ListedExecuted(ys, pid)
    ensures ListedSilent(xs, pid) ==> ListedSilent(ys, pid)
    ensures ListedReverted(xs, pid) ==> ListedReverted(ys, pid)
  {
    forall i | 0 <= i < |xs| ensures exists j :: 0 <= j < |ys| && ys[j] == xs[i] {
      assert xs[i] in ys;
    }
    if i :| 0 <= i < |xs| && xs[i].pid == Some(pid) && xs[i].status == Some(EXECUTED) {
      var j :| 0 <= j < |ys| && ys[j] == xs[i];
      assert ys[j].pid == Some(pid) && ys[j].status == Some(EXECUTED);
    }
    if i :| 0 <= i < |xs| && xs[i].pid == Some(pid) && Silent(xs[i]) {
      var j :| 0 <= j < |ys| && ys[j] == xs[i];
      assert ys[j].pid == Some(pid) && Silent(ys[j]);
    }
    if i :| 0 <= i < |xs| && xs[i].pid == Some(pid) && Reverts(xs[i]) {
      var j :| 0 <= j < |ys| && ys[j] == xs[i];
      assert ys[j].pid == Some(pid) && Reverts(ys[j]);
    }
  }

  lemma SameTorn(rows: Payments, xs: seq<Item>, ys: seq<Item>, reg: Registry, pid: int)
    requires SameLines(xs, ys)
    ensures Torn(rows, ys, reg, pid) ==> Torn(rows, xs, reg, pid)
  {
    SameKinds(xs, ys, pid);
    SameKinds(ys, xs, pid);
  }

  lemma SameIdentity(rows: Payments, b: Book, xs: seq<Item>, ys: seq<Item>, reg: Registry, pid: int)
    requires SameLines(xs, ys) && Immutable(xs) && Immutable(ys)
    requires ReconcileAll(rows, b, xs, reg, true).failure.None? && ReconcileAll(rows, b, ys, reg, true).failure.None?
    requires pid in NewLinks(rows, ReconcileAll(rows, b, xs, reg, true).rows)
    ensures var p, q := ReconcileAll(rows, b, xs, reg, true).rows, ReconcileAll(rows, b, ys, reg, true).rows;
      pid in q && p[pid].trader == q[pid].trader && p[pid].amount == q[pid].amount
  {
    var row := Get(rows, pid);
    PassTraces(rows, b, xs, reg, pid, true);
    PassTraces(rows, b, ys, reg, pid, true);
    SeenIsListed(row, xs, reg, pid);
    var k :| 0 <= k < |xs| && xs[k].pid == Some(pid);
    assert xs[k] in ys;
    var l :| 0 <= l < |ys| && ys[l] == xs[k];
    TraceIdentity(row, xs, reg, pid, k);
    TraceIdentity(row, ys, reg, pid, l);
  }

  lemma SameNewLinks(rows: Payments, b: Book, xs: seq<Item>, ys: seq<Item>, reg: Registry)
    requires NoneTorn(rows, xs, reg) && SameLines(xs, ys) && Immutable(xs) && Immutable(ys)
    requires ReconcileAll(rows, b, xs, reg, true).failure.None? && ReconcileAll(rows, b, ys, reg, true).failure.None?
    ensures NewLinks(rows, ReconcileAll(rows, b, xs, reg, true).rows)
         == NewLinks(rows, ReconcileAll(rows, b, ys, reg, true).rows)
  {
    var p, q := ReconcileAll(rows, b, xs, reg, true).rows, ReconcileAll(rows, b, ys, reg, true).rows;
    forall pid ensures pid in NewLinks(rows, p) <==> pid in NewLinks(rows, q) {
      PassTraces(rows, b, xs, reg, pid, true);
      PassTraces(rows, b, ys, reg, pid, true);
      SameTorn(rows, xs, ys, reg, pid);
      PostedBySet(rows, xs, reg, pid);
      PostedBySet(rows, ys, reg, pid);
      if Posts(rows, xs, reg, pid) { SamePosts(rows, xs, ys, reg, pid); }
      if Posts(rows, ys, reg, pid) { SamePosts(rows, ys, xs, reg, pid); }
    }
  }

  lemma ImmutableBySet(xs: seq<Item>, ys: seq<Item>)
    requires SameLines(xs, ys) && Immutable(xs)
    ensures Immutable(ys)
  {
    forall i, j | 0 <= i < |ys| && 0 <= j < |ys| && ys[i].pid == ys[j].pid
      ensures ys[i].login == ys[j].login && ys[i].amount == ys[j].amount
    {
      assert ys[i] in xs && ys[j] in xs;
    }
  }

  /** Where two passes end alike: the payments posted, whose they are and for how much,
      and every balance. */
  ghost predicate SameOutcome(rows: Payments, b: Book, q: Payments, c: Book) {
    && (forall pid :: Linked(rows, pid) <==> Linked(q, pid))
    && (forall pid | Linked(rows, pid) && pid in q ::
          rows[pid].trader == q[pid].trader && rows[pid].amount == q[pid].amount)
    && (forall a :: BalanceOf(b.entries, a) == BalanceOf(c.entries, a))
  }

  /** Two feeds with the same lines, however repeated and ordered, post the same
      payments and leave every account with the same balance, if they tear none. */
  lemma FeedsConfluent(rows: Payments, b: Book, xs: seq<Item>, ys: seq<Item>, reg: Registry)
    requires FeeInv(rows, b) && NoneTorn(rows, xs, reg) && SameLines(xs, ys) && Immutable(xs)
    requires ReconcileAll(rows, b, xs, reg, true).failure.None? && ReconcileAll(rows, b, ys, reg, true).failure.None?
    ensures var p, q := ReconcileAll(rows, b, xs, reg, true), ReconcileAll(rows, b, ys, reg, true);
      SameOutcome(p.rows, p.book, q.rows, q.book)
  {
    ImmutableBySet(xs, ys);
    SameNewLinks(rows, b, xs, ys, reg);
    SameLinks(rows, b, xs, ys, reg);
    forall a ensures BalanceOf(ReconcileAll(rows, b, xs, reg, true).book.entries, a)
                  == BalanceOf(ReconcileAll(rows, b, ys, reg, true).book.entries, a) {
      SameBalance(rows, b, xs, ys, reg, a);
    }
  }

  /** The same new links, of the same owners and amounts, move a balance the same way. */
  lemma SameBalance(rows: Payments, b: Book, xs: seq<Item>, ys: seq<Item>, reg: Registry, a: AccountId)
    requires FeeInv(rows, b) && SameLines(xs, ys) && Immutable(xs) && Immutable(ys)
    requires ReconcileAll(rows, b, xs, reg, true).failure.None? && ReconcileAll(rows, b, ys, reg, true).failure.None?
    requires NewLinks(rows, ReconcileAll(rows, b, xs, reg, true).rows)
          == NewLinks(rows, ReconcileAll(rows, b, ys, reg, true).rows)
    ensures BalanceOf(ReconcileAll(rows, b, xs, reg, true).book.entries, a)
         == BalanceOf(ReconcileAll(rows, b, ys, reg, true).book.entries, a)
  {
    var p, q := ReconcileAll(rows, b, xs, reg, true).rows, ReconcileAll(rows, b, ys, reg, true).rows;
    PassMovesFrom(rows, b, xs, reg, true, a);
    PassMovesFrom(rows, b, ys, reg, true, a);
    forall pid | pid in NewLinks(rows, p) ensures EffectOf(a, p)(pid) == EffectOf(a, q)(pid) {
      SameIdentity(rows, b, xs, ys, reg, pid);
    }
    SumOverSame(NewLinks(rows, p), EffectOf(a, p), EffectOf(a, q));
  }

  lemma SameLinks(rows: Payments, b: Book, xs: seq<Item>, ys: seq<Item>, reg: Registry)
    requires FeeInv(rows, b) && SameLines(xs, ys) && Immutable(xs) && Immutable(ys)
    requires ReconcileAll(rows, b, xs, reg, true).failure.None? && ReconcileAll(rows, b, ys, reg, true).failure.None?
    requires NewLinks(rows, ReconcileAll(rows, b, xs, reg, true).rows)
          == NewLinks(rows, ReconcileAll(rows, b, ys, reg, true).rows)
    ensures var p, q := ReconcileAll(rows, b, xs, reg, true).rows, ReconcileAll(rows, b, ys, reg, true).rows;
      && (forall pid :: Linked(p, pid) <==> Linked(q, pid))
      && (forall pid | Linked(p, pid) :: p[pid].trader == q[pid].trader && p[pid].amount == q[pid].amount)
  {
    var p, q := ReconcileAll(rows, b, xs, reg, true).rows, ReconcileAll(rows, b, ys, reg, true).rows;
    forall pid ensures Linked(p, pid) <==> Linked(q, pid) {
      PassTraces(rows, b, xs, reg, pid, true);
      PassTraces(rows, b, ys, reg, pid, true);
      assert Linked(p, pid) <==> Linked(rows, pid) || pid in NewLinks(rows, p);
      assert Linked(q, pid) <==> Linked(rows, pid) || pid in NewLinks(rows, q);
    }
    forall pid | Linked(p, pid) ensures p[pid].trader == q[pid].trader && p[pid].amount == q[pid].amount {
      if Linked(rows, pid) {
        KeptIdentity(rows, b, xs, reg, pid);
        KeptIdentity(rows, b, ys, reg, pid);
      } else {
        SameIdentity(rows, b, xs, ys, reg, pid);
      }
    }
  }

  /** A linked payment keeps its owner and amount. */
  lemma KeptIdentity(rows: Payments, b: Book, items: seq<Item>, reg: Registry, pid: int)
    requires FeeInv(rows, b) && ReconcileAll(rows, b, items, reg, true).failure.None?
    ensures var q := ReconcileAll(rows, b, items, reg, true).rows;
      Linked(rows, pid) ==> pid in q && q[pid].trader == rows[pid].trader && q[pid].amount == rows[pid].amount
  {
    PassTraces(rows, b, items, reg, pid, true);
    TraceSettles(Get(rows, pid), items, reg, pid);
    assert RowOk(b, rows, pid);
    if Linked(rows, pid) {
      TraceKeepsOwner(rows[pid], items, reg, pid);
    }
  }

  lemma {:induction false} TraceKeepsOwner(row: Payment, items: seq<Item>, reg: Registry, pid: int)
    requires row.trader.Some?
    ensures Trace(Some(row), items, reg, pid).Some? && Trace(Some(row), items, reg, pid).value.trader == row.trader
  {
    if items != [] {
      TraceKeepsOwner(row, items[..|items| - 1], reg, pid);
    }
  }

  /** Any batches, overlapping, repeated or reordered, end where one pass over their
      union ends. */
  lemma BatchesConfluent(rows: Payments, b: Book, batches: seq<seq<Item>>, union: seq<Item>, reg: Registry)
    requires FeeInv(rows, b) && NoneTorn(rows, union, reg) && SameLines(Flatten(batches), union) && Immutable(union)
    requires Passes(rows, b, batches, reg).Some? && ReconcileAll(rows, b, union, reg, true).failure.None?
    ensures var s, q := Passes(rows, b, batches, reg).value, ReconcileAll(rows, b, union, reg, true);
      SameOutcome(s.0, s.1, q.rows, q.book)
  {
    BatchesAreOnePass(rows, b, batches, reg);
    ImmutableBySet(union, Flatten(batches));
    forall pid ensures !Torn(rows, Flatten(batches), reg, pid) {
      SameTorn(rows, union, Flatten(batches), reg, pid);
    }
    FeedsConfluent(rows, b, Flatten(batches), union, reg);
  }

  /** Amounts that are not negative and active accounts: the pass goes through. */
  lemma {:induction false} CleanFeedSucceeds(rows: Payments, b: Book, items: seq<Item>, reg: Registry, write: bool)
    requires FeeInv(rows, b) && AllActive(b)
    requires forall i | 0 <= i < |items| && items[i].amount.Some? :: items[i].amount.value >= 0
    ensures var q := ReconcileAll(rows, b, items, reg, write); q.failure.None? && AllActive(q.book)
  {
    if items != [] {
      var init, item := items[..|items| - 1], items[|items| - 1];
      CleanFeedSucceeds(rows, b, init, reg, write);
      PassKeepsInv(rows, b, init, reg, write);
      var s := ReconcileAll(rows, b, init, reg, write);
      assert item.amount.Some? ==> item.amount.value >= 0;
      if item.pid.Some? {
        LineGoesThrough(s, item, reg, write);
      }
    }
  }

  /** A line goes through unless its payment has a negative amount. */
  lemma LineGoesThrough(s: Pass, item: Item, reg: Registry, write: bool)
    requires FeeInv(s.rows, s.book) && AllActive(s.book) && s.failure.None? && item.pid.Some?
    ensures var q, row := ReconcileOne(s, item, reg, write), Touch(Get(s.rows, item.pid.value), item, reg);
      if row.amount < 0 then q.failure == Some(NegativeAmount) else q.failure.None? && AllActive(q.book)
  {
    var pid := item.pid.value;
    var row := Touch(Get(s.rows, pid), item, reg);
    if row.trader.Some? {
      ActivePostSucceeds(s.book, row.trader.value, row.amount, FeeKey(pid));
      assert RowOk(s.book, s.rows, pid);
      DirectPostEffect(s.book, PerfFee, row.trader.value, row.amount, FeeKey(pid), false);
    }
  }

  lemma ActivePostSucceeds(b: Book, t: TraderId, amount: int, key: string)
    requires AllActive(b)
    ensures PostPerfFee(b, t, amount, key).result.Ok?
  {
    EnsureAllProvisions(b, t);
  }

  // ── a repeated pass is idle ──

  /** Nothing in the feed can post this payment. */
  ghost predicate Quiet(rows: Payments, feed: seq<Item>, reg: Registry, pid: int) {
    && pid in rows && rows[pid].amount >= 0
    && (|| rows[pid].link.Some? || Attribute(rows[pid], reg).trader.None?
        || (!IsExecuted(rows[pid]) && !ListedExecuted(feed, pid)))
  }

  ghost predicate AllQuiet(rows: Payments, feed: seq<Item>, reg: Registry) {
    forall i | 0 <= i < |feed| && feed[i].pid.Some? :: Quiet(rows, feed, reg, feed[i].pid.value)
  }

  lemma QuietStep(s: Pass, feed: seq<Item>, k: nat, reg: Registry, write: bool)
    requires k < |feed| && s.failure.None? && AllQuiet(s.rows, feed, reg)
    ensures var q := ReconcileOne(s, feed[k], reg, write);
      q.failure.None? && q.posted == s.posted && q.book == s.book && AllQuiet(q.rows, feed, reg)
  {
    var item, q := feed[k], ReconcileOne(s, feed[k], reg, write);
    if item.pid.Some? {
      var pid := item.pid.value;
      assert Quiet(s.rows, feed, reg, pid);
      assert item.status == Some(EXECUTED) ==> ListedExecuted(feed, pid);
      forall i | 0 <= i < |feed| && feed[i].pid.Some? ensures Quiet(q.rows, feed, reg, feed[i].pid.value) {
        assert Quiet(s.rows, feed, reg, feed[i].pid.value);
      }
    }
  }

  lemma {:induction false} QuietPass(rows: Payments, b: Book, feed: seq<Item>, n: nat, reg: Registry, write: bool)
    requires n <= |feed| && AllQuiet(rows, feed, reg)
    ensures var q := ReconcileAll(rows, b, feed[..n], reg, write);
      q.failure.None? && q.posted == 0 && q.book == b && AllQuiet(q.rows, feed, reg)
  {
    if n > 0 {
      assert feed[..n][..n - 1] == feed[..n - 1];
      QuietPass(rows, b, feed, n - 1, reg, write);
      QuietStep(ReconcileAll(rows, b, feed[..n - 1], reg, write), feed, n - 1, reg, write);
    }
  }

  lemma PassQuiets(rows: Payments, b: Book, items: seq<Item>, reg: Registry, pid: int)
    requires FeeInv(rows, b) && ReconcileAll(rows, b, items, reg, true).failure.None? && Listed(items, pid)
    ensures Quiet(ReconcileAll(rows, b, items, reg, true).rows, items, reg, pid)
  {
    var row := Get(rows, pid);
    PassKeepsInv(rows, b, items, reg, true);
    PassTraces(rows, b, items, reg, pid, true);
    TraceSettles(row, items, reg, pid);
    var traced := Trace(row, items, reg, pid).value;
    if !SeenExecuted(row, items, reg, pid) {
      if IsExecuted(traced) { ExecutedIsSeen(row, items, reg, pid); }
      if ListedExecuted(items, pid) { ExecutedLineIsSeen(row, items, reg, pid); }
    }
  }

  /** After a posting pass, what waits is what waited and was not listed. */
  lemma PassLeavesUnlistedWaiting(rows: Payments, b: Book, items: seq<Item>, reg: Registry, pid: int)
    requires FeeInv(rows, b) && ReconcileAll(rows, b, items, reg, true).failure.None?
    ensures Waiting(ReconcileAll(rows, b, items, reg, true).rows, reg, pid)
       <==> Waiting(rows, reg, pid) && !Listed(items, pid)
  {
    PassTraces(rows, b, items, reg, pid, true);
    TraceSettles(Get(rows, pid), items, reg, pid);
    if Listed(items, pid) {
      PassQuiets(rows, b, items, reg, pid);
      ExecutedOrNot(rows, b, items, reg, pid);
    }
  }

  lemma ExecutedOrNot(rows: Payments, b: Book, items: seq<Item>, reg: Registry, pid: int)
    requires FeeInv(rows, b) && ReconcileAll(rows, b, items, reg, true).failure.None? && Listed(items, pid)
    ensures !Waiting(ReconcileAll(rows, b, items, reg, true).rows, reg, pid)
  {
    PassIsExact(rows, b, items, reg, true, pid);
    PassTraces(rows, b, items, reg, pid, true);
    TraceSettles(Get(rows, pid), items, reg, pid);
  }

  /** Reconciling the same feed again succeeds and posts nothing. */
  lemma RepeatedPassIsIdle(rows: Payments, b: Book, items: seq<Item>, reg: Registry, write: bool)
    requires FeeInv(rows, b) && ReconcileAll(rows, b, items, reg, true).failure.None?
    ensures var q := ReconcileAll(rows, b, items, reg, true);
      var again := ReconcileAll(q.rows, q.book, items, reg, write);
      again.failure.None? && again.posted == 0 && again.book == q.book
  {
    var q := ReconcileAll(rows, b, items, reg, true);
    forall i | 0 <= i < |items| && items[i].pid.Some? ensures Quiet(q.rows, items, reg, items[i].pid.value) {
      assert Listed(items, items[i].pid.value);
      PassQuiets(rows, b, items, reg, items[i].pid.value);
    }
    QuietPass(q.rows, q.book, items, |items|, reg, write);
    assert items[..|items|] == items;
  }
}

/** The reconciliation loop as the program has it. */
module PerfFeeServices {
  import opened Common
  import opened Ledger
  import opened Capital
  import opened PerfFees
  import opened LedgerServices

  /** What the caller is told. */
  datatype Summary = Summary(created: nat, known: nat, posted: nat, total: int, pending: set<string>)

  datatype Tally = Tally(created: nat, known: nat, posted: nat, total: int, pending: seq<string>)

  class MamPerfFeeService {
    const ledger: LedgerService
    var payments: Payments

    constructor (rows: Payments, b: Book)
      ensures payments == rows && ledger.Book() == b && fresh(ledger)
    {
      payments := rows;
      ledger := new LedgerService(b);
    }

    ghost function State(n: Tally, failure: Option<Failure>): Pass
      reads this, ledger
    {
      Pass(payments, ledger.Book(), n.created, n.known, n.posted, n.total, n.pending, failure)
    }

    /** The end of a line: a payment to post is posted, or noted as nobody's. */
    method SettleRow(pid: int, row: Payment, write: bool, n: Tally) returns (m: Tally, failure: Option<Failure>)
      modifies this, ledger
      ensures failure == Settle(old(State(n, None)), pid, row, write).failure
      ensures failure.None? ==> State(m, None) == Settle(old(State(n, None)), pid, row, write)
    {
      m, failure := n, None;
      ghost var before := payments;
      payments := payments[pid := row];
      if !IsExecuted(row) || row.link.Some? {
        return;
      }
      if row.trader.None? {
        return m.(pending := m.pending + [Label(pid, row)]), None;
      }
      if write {
        var o := ledger.PostPerfFee(row.trader.value, row.amount, FeeKey(pid));
        if o.Err? {
          return m, Some(PostingFailed(o.error));
        }
        payments := payments[pid := row.(link := Some(o.value))];
        assert payments == before[pid := row.(link := Some(o.value))];
        m := m.(posted := m.posted + 1);
      }
    }

    /** One line of the feed. */
    method ReconcileLine(item: Item, reg: Registry, write: bool, n: Tally) returns (m: Tally, failure: Option<Failure>)
      modifies this, ledger
      ensures failure == ReconcileOne(old(State(n, None)), item, reg, write).failure
      ensures failure.None? ==> State(m, None) == ReconcileOne(old(State(n, None)), item, reg, write)
    {
      m, failure := n, None;
      if item.pid.None? {
        return;
      }
      var pid := item.pid.value;
      var row := Upsert(Get(payments, pid), item);
      if row.amount < 0 {
        return m, Some(NegativeAmount);
      }
      m := if pid in payments then m.(known := m.known + 1) else m.(created := m.created + 1);
      if IsExecuted(row) {
        m := m.(total := m.total + row.amount);
      }
      m, failure := SettleRow(pid, Attribute(row, reg), write, m);
    }

    /** One pass and its commit; a pass that fails is rolled back whole. */
    method Reconcile(items: seq<Item>, reg: Registry, write: bool) returns (r: Result<Summary, Failure>)
      modifies this, ledger
      ensures var q := ReconcileAll(old(payments), old(ledger.Book()), items, reg, write);
        if q.failure.Some? then
          r == Err(q.failure.value) && payments == old(payments) && ledger.Book() == old(ledger.Book())
        else
          && r == Ok(Summary(q.created, q.known, q.posted, q.total, set name | name in q.pending))
          && payments == q.rows && ledger.Book() == q.book
    {
      var rows, saved := payments, ledger.Book();
      var n := Tally(0, 0, 0, 0, []);
      for i := 0 to |items|
        invariant ReconcileAll(rows, saved, items[..i], reg, write) == State(n, None)
      {
        assert items[..i + 1][..i] == items[..i];
        var failure;
        n, failure := ReconcileLine(items[i], reg, write, n);
        if failure.Some? {
          FailureStays(rows, saved, items, i + 1, reg, write);
          payments := rows;
          ledger.Restore(saved);
          return Err(failure.value);
        }
      }
      assert items[..|items|] == items;
      return Ok(Summary(n.created, n.known, n.posted, n.total, set name | name in n.pending));
    }
  }

  /** A pass that failed does nothing with the lines that follow. */
  lemma {:induction false} FailureStays(rows: Payments, b: Book, items: seq<Item>, n: nat, reg: Registry, write: bool)
    requires n <= |items| && ReconcileAll(rows, b, items[..n], reg, write).failure.Some?
    ensures ReconcileAll(rows, b, items, reg, write) == ReconcileAll(rows, b, items[..n], reg, write)
    decreases |items|
  {
    if n == |items| {
      assert items[..n] == items;
    } else {
      var init := items[..|items| - 1];
      assert init[..n] == items[..n];
      FailureStays(rows, b, init, n, reg, write);
    }
  }
}
