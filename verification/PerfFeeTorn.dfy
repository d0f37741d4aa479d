/** Where confluence ends: a payment that waits and is listed both ways is posted or
    not according to which line comes first, and nothing else keeps feeds apart. */
module PerfFeeTorn {
  import opened Common
  import opened Ledger
  import opened LedgerTheorems
  import opened PerfFees
  import opened PerfFeeTheorems
  import opened PerfFeeConfluence

  lemma {:induction false} SeenConcat(row: Option<Payment>, xs: seq<Item>, ys: seq<Item>, reg: Registry, pid: int)
    ensures Trace(row, xs + ys, reg, pid) == Trace(Trace(row, xs, reg, pid), ys, reg, pid)
    ensures SeenExecuted(row, xs + ys, reg, pid)
       <==> SeenExecuted(row, xs, reg, pid) || SeenExecuted(Trace(row, xs, reg, pid), ys, reg, pid)
  {
    if ys == [] {
      assert xs + ys == xs;
    } else {
      var init := ys[..|ys| - 1];
      assert (xs + ys)[..|xs + ys| - 1] == xs + init;
      SeenConcat(row, xs, init, reg, pid);
    }
  }

  lemma TraceOfOne(row: Option<Payment>, item: Item, reg: Registry, pid: int)
    requires item.pid == Some(pid)
    ensures Trace(row, [item], reg, pid) == Some(Touch(row, item, reg))
    ensures SeenExecuted(row, [item], reg, pid) <==> IsExecuted(Touch(row, item, reg))
  {
    assert [item][..0] == [];
    assert Trace(row, [], reg, pid) == row;
  }

  /** The silent line first: the payment is posted. */
  lemma SilentFirstPosts(rows: Payments, items: seq<Item>, reg: Registry, pid: int, item: Item)
    requires Waiting(rows, reg, pid) && item.pid == Some(pid) && Silent(item)
    ensures GetsLinked(Get(rows, pid), [item] + items, reg, pid, true)
  {
    var row := Get(rows, pid);
    TraceOfOne(row, item, reg, pid);
    SeenConcat(row, [item], items, reg, pid);
    SeenIsListed(row, [item] + items, reg, pid);
    KeepsOwner(Touch(row, item, reg), items, reg, pid);
  }

  lemma KeepsOwner(row: Payment, items: seq<Item>, reg: Registry, pid: int)
    requires row.trader.Some?
    ensures Trace(Some(row), items, reg, pid).Some? && Trace(Some(row), items, reg, pid).value.trader.Some?
  {
    TraceKeepsOwner(row, items, reg, pid);
  }

  /** The line that takes it back first, and none that says executed: it is not. */
  lemma RevertFirstDoesNot(rows: Payments, items: seq<Item>, reg: Registry, pid: int, item: Item)
    requires pid in rows && item.pid == Some(pid) && Reverts(item) && !ListedExecuted(items, pid)
    ensures !GetsLinked(Get(rows, pid), [item] + items, reg, pid, true)
  {
    var row := Get(rows, pid);
    TraceOfOne(row, item, reg, pid);
    SeenConcat(row, [item], items, reg, pid);
    SeenIffListedExecuted(Some(Touch(row, item, reg)), items, reg, pid);
  }

  ghost predicate NonNegative(items: seq<Item>) {
    forall item | item in items && item.amount.Some? :: item.amount.value >= 0
  }

  lemma GoesThrough(rows: Payments, b: Book, items: seq<Item>, reg: Registry)
    requires FeeInv(rows, b) && AllActive(b) && NonNegative(items)
    ensures ReconcileAll(rows, b, items, reg, true).failure.None?
  {
    forall i | 0 <= i < |items| && items[i].amount.Some? ensures items[i].amount.value >= 0 {
      assert items[i] in items;
    }
    CleanFeedSucceeds(rows, b, items, reg, true);
  }

  /** One line in front of a feed that has it anyway. */
  lemma Repeated(items: seq<Item>, item: Item)
    requires item in items
    ensures SameLines(items, [item] + items)
  {
  }

  /** Two orders of the same lines, one of which posts the torn payment. */
  lemma TornDiverges(rows: Payments, b: Book, items: seq<Item>, reg: Registry, pid: int)
      returns (ys: seq<Item>, zs: seq<Item>)
    requires FeeInv(rows, b) && AllActive(b) && NonNegative(items) && Torn(rows, items, reg, pid)
    ensures SameLines(items, ys) && SameLines(items, zs)
    ensures ReconcileAll(rows, b, ys, reg, true).failure.None? && ReconcileAll(rows, b, zs, reg, true).failure.None?
    ensures Linked(ReconcileAll(rows, b, ys, reg, true).rows, pid)
    ensures !Linked(ReconcileAll(rows, b, zs, reg, true).rows, pid)
  {
    var i :| 0 <= i < |items| && items[i].pid == Some(pid) && Silent(items[i]);
    var j :| 0 <= j < |items| && items[j].pid == Some(pid) && Reverts(items[j]);
    ys, zs := [items[i]] + items, [items[j]] + items;
    Repeated(items, items[i]);
    Repeated(items, items[j]);
    GoesThrough(rows, b, ys, reg);
    GoesThrough(rows, b, zs, reg);
    SilentFirstPosts(rows, items, reg, pid, items[i]);
    RevertFirstDoesNot(rows, items, reg, pid, items[j]);
    PassTraces(rows, b, ys, reg, pid, true);
    PassTraces(rows, b, zs, reg, pid, true);
  }

  /** Passes over any two orders of the same lines end alike. */
  ghost predicate Confluent(rows: Payments, b: Book, items: seq<Item>, reg: Registry) {
    forall ys, zs | SameLines(items, ys) && SameLines(items, zs) ::
      SameOutcome(ReconcileAll(rows, b, ys, reg, true).rows, ReconcileAll(rows, b, ys, reg, true).book,
                  ReconcileAll(rows, b, zs, reg, true).rows, ReconcileAll(rows, b, zs, reg, true).book)
  }

  lemma SameNonNegative(xs: seq<Item>, ys: seq<Item>)
    requires SameLines(xs, ys) && NonNegative(xs)
    ensures NonNegative(ys)
  {
  }

  /** Reconciliation does not depend on the order of a feed if and only if the feed
      tears no waiting payment. */
  lemma ConfluentIffNoneTorn(rows: Payments, b: Book, items: seq<Item>, reg: Registry)
    requires FeeInv(rows, b) && AllActive(b) && NonNegative(items) && Immutable(items)
    ensures Confluent(rows, b, items, reg) <==> NoneTorn(rows, items, reg)
  {
    if NoneTorn(rows, items, reg) {
      forall ys, zs | SameLines(items, ys) && SameLines(items, zs)
        ensures SameOutcome(ReconcileAll(rows, b, ys, reg, true).rows, ReconcileAll(rows, b, ys, reg, true).book,
                            ReconcileAll(rows, b, zs, reg, true).rows, ReconcileAll(rows, b, zs, reg, true).book)
      {
        OrdersAgree(rows, b, items, ys, zs, reg);
      }
    } else {
      var pid :| Torn(rows, items, reg, pid);
      var ys, zs := TornDiverges(rows, b, items, reg, pid);
    }
  }

  lemma OrdersAgree(rows: Payments, b: Book, items: seq<Item>, ys: seq<Item>, zs: seq<Item>, reg: Registry)
    requires FeeInv(rows, b) && AllActive(b) && NonNegative(items) && Immutable(items) && NoneTorn(rows, items, reg)
    requires SameLines(items, ys) && SameLines(items, zs)
    ensures SameOutcome(ReconcileAll(rows, b, ys, reg, true).rows, ReconcileAll(rows, b, ys, reg, true).book,
                        ReconcileAll(rows, b, zs, reg, true).rows, ReconcileAll(rows, b, zs, reg, true).book)
  {
    SameNonNegative(items, ys);
    SameNonNegative(items, zs);
    GoesThrough(rows, b, ys, reg);
    GoesThrough(rows, b, zs, reg);
    ImmutableBySet(items, ys);
    forall pid ensures !Torn(rows, ys, reg, pid) {
      SameTorn(rows, items, ys, reg, pid);
    }
    FeedsConfluent(rows, b, ys, zs, reg);
  }

  // ── such a history ──

  const REG: Registry := map["77" := Some("t")]
  const LISTED := Item(Some(1), "77", Some(5), Some(EXECUTED))
  const SILENT := Item(Some(1), "77", Some(5), None)
  const REVERTED := Item(Some(1), "77", Some(5), Some("REVERSED"))

  /** An executed payment reconciled without posting, and then listed once without a
      status and once reversed. */
  lemma PassWithoutPostingTears()
    ensures var s := ReconcileAll(map[], EmptyBook, [LISTED], REG, false);
      && s.failure.None? && s.book == EmptyBook
      && s.rows == map[1 := Payment("77", 5, Some(EXECUTED), Some("t"), None)]
      && Torn(s.rows, [SILENT, REVERTED], REG, 1)
  {
    assert [LISTED][..0] == [];
    var s := ReconcileAll(map[], EmptyBook, [LISTED], REG, false);
    assert ReconcileAll(map[], EmptyBook, [], REG, false).rows == map[];
    assert s.rows == map[1 := Payment("77", 5, Some(EXECUTED), Some("t"), None)];
    var feed := [SILENT, REVERTED];
    assert feed[0].pid == Some(1) && Silent(feed[0]) && feed[1].pid == Some(1) && Reverts(feed[1]);
  }

  /** The two orders of those two lines: one posts the payment, the other does not. */
  lemma OrderDecides()
    ensures var s := ReconcileAll(map[], EmptyBook, [LISTED], REG, false);
      && Linked(ReconcileAll(s.rows, s.book, [SILENT, REVERTED], REG, true).rows, 1)
      && !Linked(ReconcileAll(s.rows, s.book, [REVERTED, SILENT], REG, true).rows, 1)
  {
    PassWithoutPostingTears();
    var s := ReconcileAll(map[], EmptyBook, [LISTED], REG, false);
    assert [SILENT] + [REVERTED] == [SILENT, REVERTED] && [REVERTED] + [SILENT] == [REVERTED, SILENT];
    EmptyFeeInv();
    PassKeepsInv(map[], EmptyBook, [LISTED], REG, false);
    GoesThrough(s.rows, s.book, [SILENT, REVERTED], REG);
    GoesThrough(s.rows, s.book, [REVERTED, SILENT], REG);
    SilentFirstPosts(s.rows, [REVERTED], REG, 1, SILENT);
    RevertFirstDoesNot(s.rows, [SILENT], REG, 1, REVERTED);
    PassTraces(s.rows, s.book, [SILENT, REVERTED], REG, 1, true);
    PassTraces(s.rows, s.book, [REVERTED, SILENT], REG, 1, true);
  }

  lemma EmptyFeeInv()
    ensures FeeInv(map[], EmptyBook)
  {
    forall pid ensures RowOk(EmptyBook, map[], pid) {}
  }
}
