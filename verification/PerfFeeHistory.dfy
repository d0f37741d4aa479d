/** Reconciliation beside the rest of the service: passes interleaved with the steps
    of the capital protocol, each pass one commit. */
module PerfFeeHistory {
  import opened Common
  import opened Ledger
  import opened LedgerInvariants
  import opened Capital
  import opened CapitalInvariants
  import opened CapitalRuns
  import opened CapitalFamilies
  import opened PerfFees
  import opened PerfFeeTheorems
  import P = CapitalProtocol

  datatype Office = Office(capital: P.System, rows: Payments)

  datatype Event =
    | Protocol(step: P.Step)
    | Reconcile(items: seq<Item>, reg: Registry, write: bool)

  const Opening := Office(P.Initial, map[])

  /** A pass that fails is rolled back. Fees are posted by passes only. */
  function Happen(o: Office, e: Event): Office {
    match e
    case Protocol(step) => if step.Fee? then o else o.(capital := P.Exec(o.capital, step))
    case Reconcile(items, reg, write) =>
      var q := ReconcileAll(o.rows, o.capital.db.book, items, reg, write);
      if q.failure.Some? then o else Office(P.WithBook(o.capital, q.book), q.rows)
  }

  ghost predicate OfficeInv(o: Office) {
    LocalInv(o.capital) && FeeInv(o.rows, o.capital.db.book)
  }

  lemma ProtocolKeeps(o: Office, step: P.Step)
    requires OfficeInv(o) && !step.Fee?
    ensures FeeInv(o.rows, P.Exec(o.capital, step).db.book) && LocalInv(P.Exec(o.capital, step))
  {
    StepKeepsLocal(o.capital, step);
    StepKeepsFamily(o.capital, step, 'm');
    var b, q := o.capital.db.book, P.Exec(o.capital, step).db.book;
    forall pid ensures RowOk(q, o.rows, pid) {
      assert RowOk(b, o.rows, pid);
      assert Family(FeeKey(pid)) == 'm';
      assert Row(q, FeeKey(pid)) == Row(b, FeeKey(pid)) && FindTx(q.txs, FeeKey(pid)) == FindTx(b.txs, FeeKey(pid));
    }
  }

  lemma LineKeepsLocal(s: P.System, p: Pass, item: Item, reg: Registry, write: bool)
    requires LocalInv(P.WithBook(s, p.book)) && (forall pid | pid in p.rows :: p.rows[pid].amount >= 0)
    requires ReconcileOne(p, item, reg, write).failure.None?
    ensures LocalInv(P.WithBook(s, ReconcileOne(p, item, reg, write).book))
  {
    if item.pid.Some? && ReconcileOne(p, item, reg, write).book != p.book {
      var row := Touch(Get(p.rows, item.pid.value), item, reg);
      FeeKeeps(P.WithBook(s, p.book).db, item.pid.value, row.trader.value, row.amount);
      BookKeepsLocal(P.WithBook(s, p.book), ReconcileOne(p, item, reg, write).book);
    }
  }

  lemma {:induction false} PassKeepsLocal(s: P.System, rows: Payments, items: seq<Item>, reg: Registry, write: bool)
    requires LocalInv(s) && FeeInv(rows, s.db.book)
    requires ReconcileAll(rows, s.db.book, items, reg, write).failure.None?
    ensures LocalInv(P.WithBook(s, ReconcileAll(rows, s.db.book, items, reg, write).book))
  {
    if items == [] {
      assert P.WithBook(s, s.db.book) == s;
    } else {
      var init := items[..|items| - 1];
      PassKeepsLocal(s, rows, init, reg, write);
      PassKeepsInv(rows, s.db.book, init, reg, write);
      LineKeepsLocal(s, ReconcileAll(rows, s.db.book, init, reg, write), items[|items| - 1], reg, write);
    }
  }

  lemma EventKeeps(o: Office, e: Event)
    requires OfficeInv(o)
    ensures OfficeInv(Happen(o, e))
  {
    match e
    case Protocol(step) =>
      if !step.Fee? {
        ProtocolKeeps(o, step);
      }
    case Reconcile(items, reg, write) =>
      if ReconcileAll(o.rows, o.capital.db.book, items, reg, write).failure.None? {
        PassKeepsInv(o.rows, o.capital.db.book, items, reg, write);
        PassKeepsLocal(o.capital, o.rows, items, reg, write);
      }
  }

  lemma {:induction false} HistoryKeeps(o: Office, events: seq<Event>)
    requires OfficeInv(o)
    ensures OfficeInv(Fold(Happen, o, events))
    decreases |events|
  {
    if events != [] {
      EventKeeps(o, events[0]);
      HistoryKeeps(Happen(o, events[0]), events[1..]);
    }
  }

  lemma OpeningHolds()
    ensures OfficeInv(Opening)
  {
    InitialLocal();
    forall pid ensures RowOk(Opening.capital.db.book, Opening.rows, pid) {}
  }

  /** At every moment of every history: a linked payment has the posted fee of its own
      trader and amount, no other payment has a fee, and the books stay solvent. */
  lemma LinkedPaymentsArePosted(events: seq<Event>, pid: int)
    ensures var o := Fold(Happen, Opening, events);
      var row := Row(o.capital.db.book, FeeKey(pid));
      && Sound(o.capital.db.book)
      && (Linked(o.rows, pid) <==> row.Some?)
      && (Linked(o.rows, pid) ==>
            && o.rows[pid].trader.Some? && FindTx(o.capital.db.book.txs, FeeKey(pid)) == o.rows[pid].link
            && row.value == Tx(PerfFee, Posted, FeeKey(pid), o.rows[pid].trader, o.rows[pid].amount))
  {
    OpeningHolds();
    HistoryKeeps(Opening, events);
    var o := Fold(Happen, Opening, events);
    assert RowOk(o.capital.db.book, o.rows, pid);
  }
}
