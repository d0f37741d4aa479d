/** Reconciling the performance fees the provider reports: every page is replayed
    over the payments table, and each executed payment that can be traced to a
    trader is posted to the ledger once. */
module PerfFees {
  import opened Common
  import opened Ledger
  import opened Capital

  /** A payment as the feed lists it; an absent or empty login is "". */
  datatype Item = Item(pid: Option<int>, login: string, amount: Option<int>, status: Option<string>)

  /** A row of the payments table, keyed by the provider's payment id. */
  datatype Payment = Payment(
    login: string, amount: int, status: Option<string>, trader: Option<TraderId>, link: Option<nat>)

  type Payments = map<int, Payment>

  /** MT5 login to owner; a registered account may have none. */
  type Registry = map<string, Option<TraderId>>

  datatype Failure = NegativeAmount | PostingFailed(error: LedgerError)

  datatype Pass = Pass(
    rows: Payments, book: Book, created: nat, known: nat, posted: nat, total: int,
    pending: seq<string>, failure: Option<Failure>)

  const EXECUTED := "EXECUTED"

  function Get(rows: Payments, pid: int): Option<Payment> {
    if pid in rows then Some(rows[pid]) else None
  }

  predicate Linked(rows: Payments, pid: int) {
    pid in rows && rows[pid].link.Some?
  }

  predicate IsExecuted(row: Payment) {
    row.status == Some(EXECUTED)
  }

  /** A known payment only moves its status; a new one is copied from the feed. */
  function Upsert(row: Option<Payment>, item: Item): Payment {
    match row
    case None => Payment(item.login, if item.amount.Some? then item.amount.value else 0, item.status, None, None)
    case Some(p) => p.(status := if item.status.Some? && item.status.value != "" then item.status else p.status)
  }

  /** From the investor's login to the trader who owns the account. */
  function Attribute(row: Payment, reg: Registry): Payment {
    if row.trader.None? && row.login != "" && row.login in reg then row.(trader := reg[row.login]) else row
  }

  function Touch(row: Option<Payment>, item: Item, reg: Registry): Payment {
    Attribute(Upsert(row, item), reg)
  }

  function Label(pid: int, row: Payment): string {
    if row.login != "" then row.login else "pago " + IntStr(pid)
  }

  /** A row as touched, posted when it is executed, owned and not linked yet. */
  function Settle(s: Pass, pid: int, row: Payment, write: bool): Pass {
    var q := s.(rows := s.rows[pid := row]);
    if !IsExecuted(row) || row.link.Some? then q
    else if row.trader.None? then q.(pending := q.pending + [Label(pid, row)])
    else if !write then q
    else
      var o := PostPerfFee(s.book, row.trader.value, row.amount, FeeKey(pid));
      match o.result
      case Ok(id) => q.(rows := s.rows[pid := row.(link := Some(id))], book := o.book, posted := s.posted + 1)
      case Err(e) => s.(book := o.book, failure := Some(PostingFailed(e)))
  }

  function ReconcileOne(s: Pass, item: Item, reg: Registry, write: bool): Pass {
    if s.failure.Some? || item.pid.None? then s
    else
      var pid := item.pid.value;
      var row := Touch(Get(s.rows, pid), item, reg);
      if row.amount < 0 then s.(failure := Some(NegativeAmount))
      else
        var counted := s.(created := s.created + if pid in s.rows then 0 else 1,
                          known := s.known + if pid in s.rows then 1 else 0,
                          total := s.total + if IsExecuted(row) then row.amount else 0);
        Settle(counted, pid, row, write)
  }

  function ReconcileAll(rows: Payments, b: Book, items: seq<Item>, reg: Registry, write: bool): Pass {
    if items == [] then Pass(rows, b, 0, 0, 0, 0, [], None)
    else ReconcileOne(ReconcileAll(rows, b, items[..|items| - 1], reg, write), items[|items| - 1], reg, write)
  }
}

/** What a pass does to each payment and to the ledger. */
module PerfFeeTheorems {
  import opened Common
  import opened Ledger
  import opened LedgerInvariants
  import opened LedgerTheorems
  import opened Capital
  import opened CapitalInvariants
  import opened PerfFees

  // ── the invariant ──

  /** A linked payment points to the posted fee of its own amount and trader; the
      ledger knows no fee of a payment that is not linked. */
  ghost predicate RowOk(b: Book, rows: Payments, pid: int) {
    if Linked(rows, pid) then
      && rows[pid].trader.Some? && FindTx(b.txs, FeeKey(pid)) == rows[pid].link
      && Row(b, FeeKey(pid)) == Some(Tx(PerfFee, Posted, FeeKey(pid), rows[pid].trader, rows[pid].amount))
    else Row(b, FeeKey(pid)).None?
  }

  ghost predicate RowsOk(b: Book, rows: Payments) {
    && (forall pid :: RowOk(b, rows, pid))
    && (forall pid | pid in rows :: rows[pid].amount >= 0)
  }

  ghost predicate FeeInv(rows: Payments, b: Book) {
    Sound(b) && RowsOk(b, rows)
  }

  /** What a posted fee does to an account. */
  function Effect(a: AccountId, row: Payment): int {
    if a == PerfFeePaid then row.amount
    else if row.trader.Some? && a == Holdings(row.trader.value) then -row.amount
    else 0
  }

  lemma PostFee(rows: Payments, b: Book, pid: int, row: Payment)
    requires FeeInv(rows, b) && !Linked(rows, pid) && row.trader.Some? && row.amount >= 0
    requires PostPerfFee(b, row.trader.value, row.amount, FeeKey(pid)).result.Ok?
    ensures var o := PostPerfFee(b, row.trader.value, row.amount, FeeKey(pid));
      && FeeInv(rows[pid := row.(link := Some(o.result.value))], o.book)
      && forall a :: BalanceOf(o.book.entries, a) == BalanceOf(b.entries, a) + Effect(a, row)
  {
    assert RowOk(b, rows, pid);
    PostFeeKeeps(rows, b, pid, row, row.trader.value);
    FeeEffects(b, FeeKey(pid), row);
  }

  lemma FeeEffects(b: Book, key: string, row: Payment)
    requires row.trader.Some? && Row(b, key).None? && PostPerfFee(b, row.trader.value, row.amount, key).result.Ok?
    ensures forall a ::
      BalanceOf(PostPerfFee(b, row.trader.value, row.amount, key).book.entries, a) == BalanceOf(b.entries,
          a) + Effect(a, row)
  {
    var q := PostPerfFee(b, row.trader.value, row.amount, key).book;
    FeeMoves(b, row.trader.value, row.amount, key);
    forall a ensures BalanceOf(q.entries, a) == BalanceOf(b.entries, a) + Effect(a, row) {
      assert Moved(b, q, a) == BalanceOf(q.entries, a) - BalanceOf(b.entries, a);
    }
  }

  lemma PostFeeKeeps(rows: Payments, b: Book, pid: int, row: Payment, t: TraderId)
    requires FeeInv(rows, b) && Row(b, FeeKey(pid)).None? && row.trader == Some(t) && row.amount >= 0
    requires PostPerfFee(b, t, row.amount, FeeKey(pid)).result.Ok?
    ensures var o := PostPerfFee(b, t, row.amount, FeeKey(pid));
      FeeInv(rows[pid := row.(link := Some(o.result.value))], o.book)
  {
    var o := PostPerfFee(b, t, row.amount, FeeKey(pid));
    DirectPostKeepsSound(b, PerfFee, t, row.amount, FeeKey(pid), false);
    DirectPostEffect(b, PerfFee, t, row.amount, FeeKey(pid), false);
    FeeRows(rows, b, pid, row, o.book, o.result.value);
  }

  lemma FeeRows(rows: Payments, b: Book, pid: int, row: Payment, q: Book, id: nat)
    requires RowsOk(b, rows) && row.trader.Some? && row.amount >= 0
    requires OnlyKey(b, q, FeeKey(pid)) && FindTx(q.txs, FeeKey(pid)) == Some(id)
    requires Row(q, FeeKey(pid)) == Some(Tx(PerfFee, Posted, FeeKey(pid), row.trader, row.amount))
    ensures RowsOk(q, rows[pid := row.(link := Some(id))])
  {
    var after := rows[pid := row.(link := Some(id))];
    forall p ensures RowOk(q, after, p) {
      assert RowOk(b, rows, p);
      ProviderKeyFamilies(p, pid);
    }
  }

  /** Replacing a row by one with the same link, of an unlinked or equal payment. */
  lemma TouchKeepsRows(rows: Payments, b: Book, pid: int, item: Item, reg: Registry)
    requires RowsOk(b, rows) && Touch(Get(rows, pid), item, reg).amount >= 0
    ensures RowsOk(b, rows[pid := Touch(Get(rows, pid), item, reg)])
  {
    var after := rows[pid := Touch(Get(rows, pid), item, reg)];
    forall p ensures RowOk(b, after, p) {
      assert RowOk(b, rows, p);
    }
  }

  lemma StepKeepsInv(s: Pass, item: Item, reg: Registry, write: bool)
    requires FeeInv(s.rows, s.book) && ReconcileOne(s, item, reg, write).failure.None?
    ensures var q := ReconcileOne(s, item, reg, write); FeeInv(q.rows, q.book)
  {
    if item.pid.Some? {
      var pid := item.pid.value;
      var row := Touch(Get(s.rows, pid), item, reg);
      TouchKeepsRows(s.rows, s.book, pid, item, reg);
      if IsExecuted(row) && row.link.None? && row.trader.Some? && write {
        PostFee(s.rows, s.book, pid, row);
      }
    }
  }

  lemma {:induction false} PassKeepsInv(rows: Payments, b: Book, items: seq<Item>, reg: Registry, write: bool)
    requires FeeInv(rows, b) && ReconcileAll(rows, b, items, reg, write).failure.None?
    ensures var q := ReconcileAll(rows, b, items, reg, write); FeeInv(q.rows, q.book)
  {
    if items != [] {
      var init := items[..|items| - 1];
      PassKeepsInv(rows, b, init, reg, write);
      StepKeepsInv(ReconcileAll(rows, b, init, reg, write), items[|items| - 1], reg, write);
    }
  }

  // ── one payment at a time ──

  /** A payment after a feed, whatever happens to the others and to the ledger. */
  function Trace(row: Option<Payment>, items: seq<Item>, reg: Registry, pid: int): Option<Payment> {
    if items == [] then row
    else
      var before := Trace(row, items[..|items| - 1], reg, pid);
      if items[|items| - 1].pid == Some(pid) then Some(Touch(before, items[|items| - 1], reg)) else before
  }

  /** Some line of the feed left the payment executed. */
  predicate SeenExecuted(row: Option<Payment>, items: seq<Item>, reg: Registry, pid: int) {
    items != [] &&
    (|| SeenExecuted(row, items[..|items| - 1], reg, pid)
     || (items[|items| - 1].pid == Some(pid) && IsExecuted(Trace(row, items, reg, pid).value)))
  }

  predicate Listed(items: seq<Item>, pid: int) {
    exists i | 0 <= i < |items| :: items[i].pid == Some(pid)
  }

  lemma ListedLast(items: seq<Item>, pid: int)
    requires items != []
    ensures Listed(items, pid) <==> Listed(items[..|items| - 1], pid) || items[|items| - 1].pid == Some(pid)
  {
    var init := items[..|items| - 1];
    if Listed(init, pid) {
      var i :| 0 <= i < |init| && init[i].pid == Some(pid);
      assert items[i].pid == Some(pid);
    }
    if Listed(items, pid) {
      var i :| 0 <= i < |items| && items[i].pid == Some(pid);
      assert i < |init| ==> init[i].pid == Some(pid);
    }
  }

  /** The first line settles whose payment it is: later lines change its status only. */
  lemma {:induction false} TraceSettles(row: Option<Payment>, items: seq<Item>, reg: Registry, pid: int)
    ensures row.Some? ==>
      var traced := Trace(row, items, reg, pid);
      traced.Some? && traced.value.(status := row.value.status, trader := row.value.trader) == row.value
    ensures row.None? && Trace(row, items, reg, pid).Some? ==> Trace(row, items, reg, pid).value.link.None?
    ensures Listed(items, pid) ==>
      var traced := Trace(row, items, reg, pid);
      traced.Some? && Attribute(traced.value, reg) == traced.value
    ensures !Listed(items, pid) ==> Trace(row, items, reg, pid) == row
  {
    if items != [] {
      TraceSettles(row, items[..|items| - 1], reg, pid);
      ListedLast(items, pid);
    }
  }

  lemma {:induction false} SeenIsListed(row: Option<Payment>, items: seq<Item>, reg: Registry, pid: int)
    requires SeenExecuted(row, items, reg, pid)
    ensures Listed(items, pid)
  {
    ListedLast(items, pid);
    if SeenExecuted(row, items[..|items| - 1], reg, pid) {
      SeenIsListed(row, items[..|items| - 1], reg, pid);
    }
  }

  /** The payment is posted by the pass. */
  predicate GetsLinked(row: Option<Payment>, items: seq<Item>, reg: Registry, pid: int, write: bool) {
    && write && (row.Some? ==> row.value.link.None?)
    && SeenExecuted(row, items, reg, pid)
    && Trace(row, items, reg, pid).Some? && Trace(row, items, reg, pid).value.trader.Some?
  }

  /** A row after the pass is its trace, linked exactly when it was or gets linked. */
  ghost predicate AsTraced(rows: Payments, q: Payments, items: seq<Item>, reg: Registry, pid: int, write: bool) {
    var row := Get(rows, pid);
    var traced := Trace(row, items, reg, pid);
    && (Linked(q, pid) <==> Linked(rows, pid) || GetsLinked(row, items, reg, pid, write))
    && (Linked(rows, pid) ==> Get(q, pid) == traced)
    && (pid in q <==> traced.Some?)
    && (pid in q ==> q[pid].(link := None) == traced.value.(link := None))
  }

  lemma OtherLineTraces(rows: Payments, s: Pass, items: seq<Item>, reg: Registry, pid: int, write: bool)
    requires items != [] && s.failure.None? && ReconcileOne(s, items[|items| - 1], reg, write).failure.None?
    requires items[|items| - 1].pid != Some(pid)
    requires AsTraced(rows, s.rows, items[..|items| - 1], reg, pid, write)
    ensures AsTraced(rows, ReconcileOne(s, items[|items| - 1], reg, write).rows, items, reg, pid, write)
  {
    assert Get(ReconcileOne(s, items[|items| - 1], reg, write).rows, pid) == Get(s.rows, pid);
  }

  /** A line about the payment: what it finds is the trace of the lines before. */
  lemma OwnLineTraces(rows: Payments, s: Pass, items: seq<Item>, reg: Registry, pid: int, write: bool)
    requires items != [] && s.failure.None? && ReconcileOne(s, items[|items| - 1], reg, write).failure.None?
    requires items[|items| - 1].pid == Some(pid)
    requires AsTraced(rows, s.rows, items[..|items| - 1], reg, pid, write)
    ensures AsTraced(rows, ReconcileOne(s, items[|items| - 1], reg, write).rows, items, reg, pid, write)
  {
    var row := Get(rows, pid);
    var init := items[..|items| - 1];
    TraceSettles(row, init, reg, pid);
    TraceSettles(row, items, reg, pid);
    ListedLast(items, pid);
    if SeenExecuted(row, init, reg, pid) {
      SeenIsListed(row, init, reg, pid);
    }
  }

  lemma StepTraces(rows: Payments, s: Pass, items: seq<Item>, reg: Registry, pid: int, write: bool)
    requires items != [] && s.failure.None? && ReconcileOne(s, items[|items| - 1], reg, write).failure.None?
    requires AsTraced(rows, s.rows, items[..|items| - 1], reg, pid, write)
    ensures AsTraced(rows, ReconcileOne(s, items[|items| - 1], reg, write).rows, items, reg, pid, write)
  {
    if items[|items| - 1].pid == Some(pid) {
      OwnLineTraces(rows, s, items, reg, pid, write);
    } else {
      OtherLineTraces(rows, s, items, reg, pid, write);
    }
  }

  /** A pass acts on each payment on its own. */
  lemma {:induction false} PassTraces(rows: Payments, b: Book, items: seq<Item>, reg: Registry, pid: int, write: bool)
    requires ReconcileAll(rows, b, items, reg, write).failure.None?
    ensures AsTraced(rows, ReconcileAll(rows, b, items, reg, write).rows, items, reg, pid, write)
  {
    if items != [] {
      var init := items[..|items| - 1];
      PassTraces(rows, b, init, reg, pid, write);
      StepTraces(rows, ReconcileAll(rows, b, init, reg, write), items, reg, pid, write);
    }
  }

  // ── exactness ──

  /** A listed payment that ends up executed was seen executed. */
  lemma {:induction false} ExecutedIsSeen(row: Option<Payment>, items: seq<Item>, reg: Registry, pid: int)
    requires Listed(items, pid) && Trace(row, items, reg, pid).Some? && IsExecuted(Trace(row, items, reg, pid).value)
    ensures SeenExecuted(row, items, reg, pid)
  {
    ListedLast(items, pid);
    if items[|items| - 1].pid != Some(pid) {
      ExecutedIsSeen(row, items[..|items| - 1], reg, pid);
    }
  }

  /** Posted and already posted payments are linked, with a fee of their own amount
      and trader; no other payment is. After a posting pass a listed payment that is
      executed and has an owner is linked. */
  lemma PassIsExact(rows: Payments, b: Book, items: seq<Item>, reg: Registry, write: bool, pid: int)
    requires FeeInv(rows, b) && ReconcileAll(rows, b, items, reg, write).failure.None?
    ensures var q := ReconcileAll(rows, b, items, reg, write);
      && (Linked(q.rows, pid) <==> Linked(rows, pid) || GetsLinked(Get(rows, pid), items, reg, pid, write))
      && (Linked(q.rows, pid) ==>
            && q.rows[pid].trader.Some? && q.rows[pid].link.value < |q.book.txs|
            && q.book.txs[q.rows[pid].link.value]
               == Tx(PerfFee, Posted, FeeKey(pid), q.rows[pid].trader, q.rows[pid].amount))
      && (!Linked(q.rows, pid) ==> Row(q.book, FeeKey(pid)).None?)
      && (write && Listed(items, pid) && pid in q.rows && IsExecuted(q.rows[pid]) && q.rows[pid].trader.Some? ==>
            Linked(q.rows, pid))
  {
    PassKeepsInv(rows, b, items, reg, write);
    PassTraces(rows, b, items, reg, pid, write);
    var q := ReconcileAll(rows, b, items, reg, write);
    assert RowOk(q.book, q.rows, pid);
    if Listed(items, pid) && pid in q.rows && IsExecuted(q.rows[pid]) {
      ExecutedIsSeen(Get(rows, pid), items, reg, pid);
    }
  }

  /** Executed payments nobody can be charged for. */
  ghost predicate Unowned(rows: Payments, items: seq<Item>, reg: Registry, pid: int) {
    && SeenExecuted(Get(rows, pid), items, reg, pid) && !Linked(rows, pid)
    && Trace(Get(rows, pid), items, reg, pid).Some? && Trace(Get(rows, pid), items, reg, pid).value.trader.None?
  }

  function LabelAfter(rows: Payments, items: seq<Item>, reg: Registry, pid: int): string {
    match Trace(Get(rows, pid), items, reg, pid)
    case Some(row) => Label(pid, row)
    case None => ""
  }

  lemma UnownedGrows(rows: Payments, items: seq<Item>, reg: Registry, pid: int)
    requires items != [] && Unowned(rows, items[..|items| - 1], reg, pid)
    ensures Unowned(rows, items, reg, pid)
    ensures LabelAfter(rows, items, reg, pid) == LabelAfter(rows, items[..|items| - 1], reg, pid)
  {
    var init := items[..|items| - 1];
    SeenIsListed(Get(rows, pid), init, reg, pid);
    TraceSettles(Get(rows, pid), init, reg, pid);
  }

  lemma UnownedLast(rows: Payments, items: seq<Item>, reg: Registry, pid: int)
    requires items != [] && Unowned(rows, items, reg, pid)
    ensures Unowned(rows, items[..|items| - 1], reg, pid)
         || (items[|items| - 1].pid == Some(pid) && IsExecuted(Trace(Get(rows, pid), items, reg, pid).value))
  {
    var init, row := items[..|items| - 1], Get(rows, pid);
    if SeenExecuted(row, init, reg, pid) {
      SeenIsListed(row, init, reg, pid);
      TraceSettles(row, init, reg, pid);
    }
  }

  /** `pending_attribution` names exactly the executed payments without an owner. */
  lemma {:induction false} PendingIsExact(rows: Payments, b: Book, items: seq<Item>, reg: Registry, write: bool,
        name: string)
    requires ReconcileAll(rows, b, items, reg, write).failure.None?
    ensures name in ReconcileAll(rows, b, items, reg, write).pending
       <==> exists pid :: Unowned(rows, items, reg, pid) && LabelAfter(rows, items, reg, pid) == name
  {
    if items != [] {
      var init, item := items[..|items| - 1], items[|items| - 1];
      var s, q := ReconcileAll(rows, b, init, reg, write), ReconcileAll(rows, b, items, reg, write);
      PendingIsExact(rows, b, init, reg, write, name);
      if name in s.pending {
        var pid :| Unowned(rows, init, reg, pid) && LabelAfter(rows, init, reg, pid) == name;
        UnownedGrows(rows, items, reg, pid);
        assert Unowned(rows, items, reg, pid);
      }
      if item.pid.Some? {
        PendingLast(rows, b, items, reg, write, name);
      }
      if pid :| Unowned(rows, items, reg, pid) && LabelAfter(rows, items, reg, pid) == name {
        UnownedLast(rows, items, reg, pid);
        if Unowned(rows, init, reg, pid) {
          UnownedGrows(rows, items, reg, pid);
        }
      }
    }
  }

  lemma PendingLast(rows: Payments, b: Book, items: seq<Item>, reg: Registry, write: bool, name: string)
    requires items != [] && items[|items| - 1].pid.Some?
    requires ReconcileAll(rows, b, items, reg, write).failure.None?
    ensures var init, pid := items[..|items| - 1], items[|items| - 1].pid.value;
      var s, q := ReconcileAll(rows, b, init, reg, write), ReconcileAll(rows, b, items, reg, write);
      var row := Trace(Get(rows, pid), items, reg, pid).value;
      && q.pending == (if IsExecuted(row) && !Linked(rows, pid) && row.trader.None?
                       then s.pending + [Label(pid, row)] else s.pending)
      && (IsExecuted(row) && !Linked(rows, pid) && row.trader.None? ==> Unowned(rows, items, reg, pid))
  {
    var init, pid := items[..|items| - 1], items[|items| - 1].pid.value;
    PassTraces(rows, b, init, reg, pid, write);
    PassTraces(rows, b, items, reg, pid, write);
    TraceSettles(Get(rows, pid), init, reg, pid);
    if SeenExecuted(Get(rows, pid), init, reg, pid) {
      SeenIsListed(Get(rows, pid), init, reg, pid);
    }
  }

  // ── the ledger moves by the newly posted payments ──

  function NewLinks(rows: Payments, q: Payments): set<int> {
    set pid | pid in q && q[pid].link.Some? && !(pid in rows && rows[pid].link.Some?)
  }

  function EffectOf(a: AccountId, rows: Payments): int -> int {
    pid => if pid in rows then Effect(a, rows[pid]) else 0
  }

  lemma NewLinkMoves(rows: Payments, s: Payments, q: Payments, pid: int, a: AccountId)
    requires pid in q && !Linked(s, pid) && Linked(q, pid) && !Linked(rows, pid)
    requires forall p | p != pid :: Get(q, p) == Get(s, p)
    ensures pid !in NewLinks(rows, s) && NewLinks(rows, q) == NewLinks(rows, s) + {pid}
    ensures SumOver(NewLinks(rows, q), EffectOf(a, q)) == SumOver(NewLinks(rows, s), EffectOf(a, s)) + Effect(a, q[pid])
  {
    forall p ensures p in NewLinks(rows, q) <==> p in NewLinks(rows, s) || p == pid {
      assert p != pid ==> Get(q, p) == Get(s, p);
    }
    SumOverPick(NewLinks(rows, q), EffectOf(a, q), pid);
    assert NewLinks(rows, q) - {pid} == NewLinks(rows, s);
    forall p | p in NewLinks(rows, s) ensures EffectOf(a, q)(p) == EffectOf(a, s)(p) {
      assert Get(q, p) == Get(s, p);
    }
    SumOverSame(NewLinks(rows, s), EffectOf(a, q), EffectOf(a, s));
  }

  lemma NoNewLinkMoves(rows: Payments, s: Payments, q: Payments, pid: int, a: AccountId)
    requires pid in q && (pid in s ==> q[pid].link == s[pid].link) && (pid !in s ==> q[pid].link.None?)
    requires Linked(s, pid) ==> Effect(a, q[pid]) == Effect(a, s[pid])
    requires forall p | p != pid :: Get(q, p) == Get(s, p)
    ensures NewLinks(rows, q) == NewLinks(rows, s)
    ensures SumOver(NewLinks(rows, q), EffectOf(a, q)) == SumOver(NewLinks(rows, s), EffectOf(a, s))
  {
    forall p ensures p in NewLinks(rows, q) <==> p in NewLinks(rows, s) {
      assert p != pid ==> Get(q, p) == Get(s, p);
    }
    forall p | p in NewLinks(rows, s) ensures EffectOf(a, q)(p) == EffectOf(a, s)(p) {
      assert p != pid ==> Get(q, p) == Get(s, p);
    }
    SumOverSame(NewLinks(rows, s), EffectOf(a, q), EffectOf(a, s));
  }

  /** A line that posts its payment. */
  ghost predicate PostsLine(s: Pass, q: Pass, pid: int, a: AccountId)
    requires pid in q.rows
  {
    && q.posted == s.posted + 1 && !Linked(s.rows, pid) && Linked(q.rows, pid)
    && BalanceOf(q.book.entries, a) == BalanceOf(s.book.entries, a) + Effect(a, q.rows[pid])
  }

  /** A line that leaves the ledger and the link alone. */
  ghost predicate QuietLine(s: Pass, q: Pass, pid: int, a: AccountId)
    requires pid in q.rows
  {
    && q.posted == s.posted && q.book == s.book
    && (pid in s.rows ==> q.rows[pid].link == s.rows[pid].link) && (pid !in s.rows ==> q.rows[pid].link.None?)
    && (Linked(s.rows, pid) ==> Effect(a, q.rows[pid]) == Effect(a, s.rows[pid]))
  }

  /** The row a line leaves is to be posted. */
  predicate ToPost(row: Payment, write: bool) {
    IsExecuted(row) && row.link.None? && row.trader.Some? && write
  }

  lemma OnlyRowChanges(s: Pass, item: Item, reg: Registry, write: bool, pid: int)
    requires item.pid == Some(pid) && s.failure.None? && ReconcileOne(s, item, reg, write).failure.None?
    ensures var q := ReconcileOne(s, item, reg, write);
      pid in q.rows && forall p | p != pid :: Get(q.rows, p) == Get(s.rows, p)
  {
  }

  /** The line links its row to what the ledger posted for it. */
  lemma LineLinks(s: Pass, item: Item, reg: Registry, write: bool, pid: int, row: Payment)
    requires item.pid == Some(pid) && row == Touch(Get(s.rows, pid), item, reg)
    requires s.failure.None? && ReconcileOne(s, item, reg, write).failure.None?
    requires ToPost(row, write)
    ensures var q := ReconcileOne(s, item, reg, write);
      var o := PostPerfFee(s.book, row.trader.value, row.amount, FeeKey(pid));
      && o.result.Ok? && q.book == o.book && q.posted == s.posted + 1 && !Linked(s.rows, pid)
      && q.rows == s.rows[pid := row.(link := Some(o.result.value))]
  {
  }

  lemma PostingLine(s: Pass, item: Item, reg: Registry, write: bool, pid: int, a: AccountId)
    requires FeeInv(s.rows, s.book) && item.pid == Some(pid)
    requires s.failure.None? && ReconcileOne(s, item, reg, write).failure.None?
    requires ToPost(Touch(Get(s.rows, pid), item, reg), write)
    ensures pid in ReconcileOne(s, item, reg, write).rows && PostsLine(s, ReconcileOne(s, item, reg, write), pid, a)
  {
    var row := Touch(Get(s.rows, pid), item, reg);
    LineLinks(s, item, reg, write, pid, row);
    LinkPays(s, ReconcileOne(s, item, reg, write), pid, row, a);
  }

  lemma LinkPays(s: Pass, q: Pass, pid: int, row: Payment, a: AccountId)
    requires RowOk(s.book, s.rows, pid) && !Linked(s.rows, pid) && row.trader.Some?
    requires PostPerfFee(s.book, row.trader.value, row.amount, FeeKey(pid)).result.Ok?
    requires q.book == PostPerfFee(s.book, row.trader.value, row.amount, FeeKey(pid)).book
    requires q.posted == s.posted + 1 && exists id :: q.rows == s.rows[pid := row.(link := Some(id))]
    ensures PostsLine(s, q, pid, a)
  {
    FeeEffects(s.book, FeeKey(pid), row);
  }

  lemma SilentOrKnownLine(s: Pass, item: Item, reg: Registry, write: bool, pid: int, a: AccountId)
    requires FeeInv(s.rows, s.book) && item.pid == Some(pid)
    requires s.failure.None? && ReconcileOne(s, item, reg, write).failure.None?
    requires !ToPost(Touch(Get(s.rows, pid), item, reg), write)
    ensures pid in ReconcileOne(s, item, reg, write).rows && QuietLine(s, ReconcileOne(s, item, reg, write), pid, a)
  {
    assert RowOk(s.book, s.rows, pid);
  }

  /** What a line that names a payment does: one or the other. */
  lemma StepShape(s: Pass, item: Item, reg: Registry, write: bool, pid: int, a: AccountId)
    requires FeeInv(s.rows, s.book) && item.pid == Some(pid)
    requires s.failure.None? && ReconcileOne(s, item, reg, write).failure.None?
    ensures var q := ReconcileOne(s, item, reg, write);
      && pid in q.rows && (forall p | p != pid :: Get(q.rows, p) == Get(s.rows, p))
      && (PostsLine(s, q, pid, a) || QuietLine(s, q, pid, a))
  {
    OnlyRowChanges(s, item, reg, write, pid);
    if ToPost(Touch(Get(s.rows, pid), item, reg), write) {
      PostingLine(s, item, reg, write, pid, a);
    } else {
      SilentOrKnownLine(s, item, reg, write, pid, a);
    }
  }

  ghost predicate LinksStay(rows: Payments, q: Payments) {
    forall pid | Linked(rows, pid) :: Linked(q, pid)
  }

  /** One line of the feed moves the ledger by the payment it links, if it links one. */
  lemma StepMoves(rows: Payments, s: Pass, item: Item, reg: Registry, write: bool, a: AccountId)
    requires FeeInv(s.rows, s.book) && item.pid.Some?
    requires s.failure.None? && ReconcileOne(s, item, reg, write).failure.None?
    requires LinksStay(rows, s.rows)
    ensures var q := ReconcileOne(s, item, reg, write);
      && BalanceOf(q.book.entries, a) - BalanceOf(s.book.entries, a)
         == SumOver(NewLinks(rows, q.rows), EffectOf(a, q.rows)) - SumOver(NewLinks(rows, s.rows), EffectOf(a, s.rows))
      && q.posted - s.posted == |NewLinks(rows, q.rows)| - |NewLinks(rows, s.rows)|
      && LinksStay(rows, q.rows)
  {
    var pid := item.pid.value;
    var q := ReconcileOne(s, item, reg, write);
    StepShape(s, item, reg, write, pid, a);
    MovesByShape(rows, s.rows, q.rows, pid, a);
  }

  lemma MovesByShape(rows: Payments, s: Payments, q: Payments, pid: int, a: AccountId)
    requires LinksStay(rows, s) && pid in q && forall p | p != pid :: Get(q, p) == Get(s, p)
    requires (!Linked(s, pid) && Linked(q, pid))
          || ((pid in s ==> q[pid].link == s[pid].link) && (pid !in s ==> q[pid].link.None?)
              && (Linked(s, pid) ==> Effect(a, q[pid]) == Effect(a, s[pid])))
    ensures LinksStay(rows, q)
    ensures if !Linked(s, pid) && Linked(q, pid) then
              && |NewLinks(rows, q)| == |NewLinks(rows, s)| + 1
              && SumOver(NewLinks(rows, q), EffectOf(a, q))
                 == SumOver(NewLinks(rows, s), EffectOf(a, s)) + Effect(a, q[pid])
            else
              && |NewLinks(rows, q)| == |NewLinks(rows, s)|
              && SumOver(NewLinks(rows, q), EffectOf(a, q)) == SumOver(NewLinks(rows, s), EffectOf(a, s))
  {
    forall p | Linked(rows, p) ensures Linked(q, p) {
      assert Linked(s, p);
      assert p != pid ==> Get(q, p) == Get(s, p);
    }
    if !Linked(s, pid) && Linked(q, pid) {
      NewLinkMoves(rows, s, q, pid, a);
    } else {
      NoNewLinkMoves(rows, s, q, pid, a);
    }
  }

  lemma {:induction false} PassMovesFrom(rows: Payments, b: Book, items: seq<Item>, reg: Registry, write: bool,
        a: AccountId)
    requires FeeInv(rows, b) && ReconcileAll(rows, b, items, reg, write).failure.None?
    ensures var q := ReconcileAll(rows, b, items, reg, write);
      && BalanceOf(q.book.entries, a) == BalanceOf(b.entries, a) + SumOver(NewLinks(rows, q.rows), EffectOf(a, q.rows))
      && q.posted == |NewLinks(rows, q.rows)|
      && LinksStay(rows, q.rows)
  {
    if items == [] {
      assert NewLinks(rows, rows) == {};
    } else {
      var init, item := items[..|items| - 1], items[|items| - 1];
      PassMovesFrom(rows, b, init, reg, write, a);
      PassKeepsInv(rows, b, init, reg, write);
      if item.pid.Some? {
        StepMoves(rows, ReconcileAll(rows, b, init, reg, write), item, reg, write, a);
      }
    }
  }

  // ── what the summary counts ──

  function Lines(items: seq<Item>): nat {
    if items == [] then 0 else Lines(items[..|items| - 1]) + if items[|items| - 1].pid.Some? then 1 else 0
  }

  /** A line that names a payment adds a row for it or finds one. */
  lemma LineCounts(s: Pass, item: Item, reg: Registry, write: bool)
    requires item.pid.Some? && s.failure.None? && ReconcileOne(s, item, reg, write).failure.None?
    ensures var q := ReconcileOne(s, item, reg, write);
      && q.rows.Keys == s.rows.Keys + {item.pid.value}
      && q.created - s.created == (if item.pid.value in s.rows then 0 else 1)
      && q.known - s.known == (if item.pid.value in s.rows then 1 else 0)
  {
  }

  /** New rows and known ones are all the lines that name a payment. */
  lemma {:induction false} CountsAreExact(rows: Payments, b: Book, items: seq<Item>, reg: Registry, write: bool)
    requires ReconcileAll(rows, b, items, reg, write).failure.None?
    ensures var q := ReconcileAll(rows, b, items, reg, write);
      && rows.Keys <= q.rows.Keys && q.created == |q.rows| - |rows| && q.created + q.known == Lines(items)
  {
    if items != [] {
      var init, item := items[..|items| - 1], items[|items| - 1];
      CountsAreExact(rows, b, init, reg, write);
      if item.pid.Some? {
        var s := ReconcileAll(rows, b, init, reg, write);
        LineCounts(s, item, reg, write);
        KeysCount(s.rows, ReconcileOne(s, item, reg, write).rows, item.pid.value);
      }
    }
  }

  lemma KeysCount(s: Payments, q: Payments, pid: int)
    requires q.Keys == s.Keys + {pid}
    ensures |q| == |s| + if pid in s then 0 else 1
  {
    assert |q| == |q.Keys| && |s| == |s.Keys|;
    if pid in s {
      assert q.Keys == s.Keys;
    }
  }

  /** How many lines of the feed left the payment executed. */
  function ExecutedLines(row: Option<Payment>, items: seq<Item>, reg: Registry, pid: int): nat {
    if items == [] then 0
    else
      ExecutedLines(row, items[..|items| - 1], reg, pid)
      + if items[|items| - 1].pid == Some(pid) && IsExecuted(Trace(row, items, reg, pid).value) then 1 else 0
  }

  function ListedIn(items: seq<Item>): set<int> {
    if items == [] then {}
    else
      ListedIn(items[..|items| - 1])
      + match items[|items| - 1].pid case Some(pid) => {pid} case None => {}
  }

  /** The amount of a payment, once for each of those lines. */
  function LineTotal(rows: Payments, items: seq<Item>, reg: Registry, q: Payments): int -> int {
    pid => ExecutedLines(Get(rows, pid), items, reg, pid) * (if pid in q then q[pid].amount else 0)
  }

  lemma {:induction false} UnlistedHasNoLines(row: Option<Payment>, items: seq<Item>, reg: Registry, pid: int)
    requires pid !in ListedIn(items)
    ensures ExecutedLines(row, items, reg, pid) == 0 && !Listed(items, pid)
  {
    if items != [] {
      UnlistedHasNoLines(row, items[..|items| - 1], reg, pid);
      ListedLast(items, pid);
    }
  }

  lemma {:induction false} ListedInIsListed(items: seq<Item>, pid: int)
    requires pid in ListedIn(items)
    ensures Listed(items, pid)
  {
    ListedLast(items, pid);
    if pid in ListedIn(items[..|items| - 1]) {
      ListedInIsListed(items[..|items| - 1], pid);
    }
  }

  /** A sum over one more element, whose own term grew. */
  lemma SumGrows(s: set<int>, f: int -> int, g: int -> int, x: int, more: int)
    requires forall y | y in s && y != x :: g(y) == f(y)
    requires g(x) == (if x in s then f(x) else 0) + more
    ensures SumOver(s + {x}, g) == SumOver(s, f) + more
  {
    SumOverPick(s + {x}, g, x);
    assert s + {x} - {x} == s - {x};
    forall y | y in s - {x} ensures g(y) == f(y) {}
    SumOverSame(s - {x}, g, f);
    if x in s {
      SumOverPick(s, f, x);
    } else {
      assert s - {x} == s;
    }
  }

  lemma OwnLineTotal(rows: Payments, s: Payments, items: seq<Item>, reg: Registry, write: bool, q: Payments, pid: int)
    requires items != [] && items[|items| - 1].pid == Some(pid) && pid in q
    requires AsTraced(rows, s, items[..|items| - 1], reg, pid, write) && AsTraced(rows, q, items, reg, pid, write)
    requires pid in s ==> q[pid].amount == s[pid].amount
    ensures var init := items[..|items| - 1];
      LineTotal(rows, items, reg, q)(pid)
      == (if pid in ListedIn(init) then LineTotal(rows, init, reg, s)(pid) else 0)
       + (if IsExecuted(q[pid]) then q[pid].amount else 0)
  {
    var init, row := items[..|items| - 1], Get(rows, pid);
    var k := ExecutedLines(row, init, reg, pid);
    assert (k + 1) * q[pid].amount == k * q[pid].amount + q[pid].amount;
    if pid in ListedIn(init) {
      ListedInIsListed(init, pid);
      TraceSettles(row, init, reg, pid);
    } else {
      UnlistedHasNoLines(row, init, reg, pid);
    }
  }

  lemma LineAdds(rows: Payments, s: Payments, items: seq<Item>, reg: Registry, write: bool, q: Payments, pid: int)
    requires items != [] && items[|items| - 1].pid == Some(pid) && pid in q
    requires AsTraced(rows, s, items[..|items| - 1], reg, pid, write) && AsTraced(rows, q, items, reg, pid, write)
    requires pid in s ==> q[pid].amount == s[pid].amount
    requires forall p | p != pid :: Get(q, p) == Get(s, p)
    ensures SumOver(ListedIn(items), LineTotal(rows, items, reg, q))
         == SumOver(ListedIn(items[..|items| - 1]), LineTotal(rows, items[..|items| - 1], reg, s))
          + if IsExecuted(q[pid]) then q[pid].amount else 0
  {
    var init := items[..|items| - 1];
    var f, g := LineTotal(rows, init, reg, s), LineTotal(rows, items, reg, q);
    OwnLineTotal(rows, s, items, reg, write, q, pid);
    forall p | p in ListedIn(init) && p != pid ensures g(p) == f(p) {
      assert Get(q, p) == Get(s, p);
    }
    SumGrows(ListedIn(init), f, g, pid, if IsExecuted(q[pid]) then q[pid].amount else 0);
  }

  lemma SilentLine(rows: Payments, items: seq<Item>, reg: Registry, q: Payments)
    requires items != [] && items[|items| - 1].pid.None?
    ensures SumOver(ListedIn(items), LineTotal(rows, items, reg, q))
         == SumOver(ListedIn(items[..|items| - 1]), LineTotal(rows, items[..|items| - 1], reg, q))
  {
    var init := items[..|items| - 1];
    var f, g := LineTotal(rows, init, reg, q), LineTotal(rows, items, reg, q);
    assert ListedIn(items) == ListedIn(init);
    forall p | p in ListedIn(init) ensures g(p) == f(p) {
      SilentLineCounts(Get(rows, p), items, reg, p);
    }
    SumOverSame(ListedIn(init), f, g);
  }

  lemma SilentLineCounts(row: Option<Payment>, items: seq<Item>, reg: Registry, pid: int)
    requires items != [] && items[|items| - 1].pid.None?
    ensures ExecutedLines(row, items, reg, pid) == ExecutedLines(row, items[..|items| - 1], reg, pid)
  {
  }

  /** The executed total counts a payment once for every line that lists it executed. */
  lemma {:induction false} TotalCountsLines(rows: Payments, b: Book, items: seq<Item>, reg: Registry, write: bool)
    requires ReconcileAll(rows, b, items, reg, write).failure.None?
    ensures var q := ReconcileAll(rows, b, items, reg, write);
      q.total == SumOver(ListedIn(items), LineTotal(rows, items, reg, q.rows))
  {
    if items != [] {
      var init, item := items[..|items| - 1], items[|items| - 1];
      var s := ReconcileAll(rows, b, init, reg, write);
      TotalCountsLines(rows, b, init, reg, write);
      if item.pid.Some? {
        LineShape(s, item, reg, write, item.pid.value);
        PassTraces(rows, b, init, reg, item.pid.value, write);
        PassTraces(rows, b, items, reg, item.pid.value, write);
        LineAdds(rows, s.rows, items, reg, write, ReconcileOne(s, item, reg, write).rows, item.pid.value);
      } else {
        SilentLine(rows, items, reg, s.rows);
      }
    }
  }

  ghost predicate NoRepeats(items: seq<Item>) {
    forall i, j | 0 <= i < j < |items| && items[i].pid.Some? :: items[i].pid != items[j].pid
  }

  /** The listed payments that end up executed. */
  ghost function ExecutedIn(items: seq<Item>, q: Payments): set<int> {
    set pid | pid in q && Listed(items, pid) && IsExecuted(q[pid])
  }

  /** The executed total is the sum of the executed payments when no payment is listed
      twice; a payment listed again is counted again. */
  lemma {:induction false} TotalIsExecuted(rows: Payments, b: Book, items: seq<Item>, reg: Registry, write: bool)
    requires NoRepeats(items) && ReconcileAll(rows, b, items, reg, write).failure.None?
    ensures var q := ReconcileAll(rows, b, items, reg, write);
      q.total == SumOver(ExecutedIn(items, q.rows), AmountOf(q.rows))
  {
    if items == [] {
      assert ExecutedIn(items, rows) == {};
    } else {
      var init, item := items[..|items| - 1], items[|items| - 1];
      TotalIsExecuted(rows, b, init, reg, write);
      var s, q := ReconcileAll(rows, b, init, reg, write), ReconcileAll(rows, b, items, reg, write);
      if item.pid.Some? {
        assert !Listed(init, item.pid.value);
        LineShape(s, item, reg, write, item.pid.value);
        LineTotals(items, s.rows, q.rows, item.pid.value);
      } else {
        forall pid ensures Listed(items, pid) <==> Listed(init, pid) { ListedLast(items, pid); }
        assert ExecutedIn(items, q.rows) == ExecutedIn(init, s.rows);
      }
    }
  }

  lemma LineShape(s: Pass, item: Item, reg: Registry, write: bool, pid: int)
    requires item.pid == Some(pid) && s.failure.None? && ReconcileOne(s, item, reg, write).failure.None?
    ensures var q := ReconcileOne(s, item, reg, write);
      && pid in q.rows && (forall p | p != pid :: Get(q.rows, p) == Get(s.rows, p))
      && (pid in s.rows ==> q.rows[pid].amount == s.rows[pid].amount)
      && q.total == s.total + if IsExecuted(q.rows[pid]) then q.rows[pid].amount else 0
  {
  }

  lemma LineTotals(items: seq<Item>, s: Payments, q: Payments, pid: int)
    requires items != [] && items[|items| - 1].pid == Some(pid) && !Listed(items[..|items| - 1], pid)
    requires pid in q && forall p | p != pid :: Get(q, p) == Get(s, p)
    ensures SumOver(ExecutedIn(items, q), AmountOf(q))
         == SumOver(ExecutedIn(items[..|items| - 1], s), AmountOf(s)) + if IsExecuted(q[pid]) then q[pid].amount else 0
  {
    var was, now := ExecutedIn(items[..|items| - 1], s), ExecutedIn(items, q);
    forall p ensures p in now <==> p in was || (p == pid && IsExecuted(q[pid])) {
      ListedLast(items, p);
      assert p != pid ==> Get(q, p) == Get(s, p);
    }
    forall p | p in was ensures AmountOf(q)(p) == AmountOf(s)(p) {
      assert Get(q, p) == Get(s, p);
    }
    SumOverSame(was, AmountOf(q), AmountOf(s));
    if IsExecuted(q[pid]) {
      SumOverPick(now, AmountOf(q), pid);
      assert now - {pid} == was;
    } else {
      assert now == was;
    }
  }

  function AmountOf(rows: Payments): int -> int {
    pid => if pid in rows then rows[pid].amount else 0
  }

  /** PERF_FEE_PAID grows by exactly the sum of the newly posted payments, and each
      trader's holdings shrink by exactly his. */
  lemma FeesPaidGrowByPosted(rows: Payments, b: Book, items: seq<Item>, reg: Registry, write: bool, t: TraderId)
    requires FeeInv(rows, b) && ReconcileAll(rows, b, items, reg, write).failure.None?
    ensures var q := ReconcileAll(rows, b, items, reg, write);
      var newly := NewLinks(rows, q.rows);
      var own := set pid | pid in newly && q.rows[pid].trader == Some(t);
      && q.posted == |newly|
      && BalanceOf(q.book.entries, PerfFeePaid) == BalanceOf(b.entries, PerfFeePaid) + SumOver(newly, AmountOf(q.rows))
      && BalanceOf(q.book.entries, Holdings(t)) == BalanceOf(b.entries, Holdings(t)) - SumOver(own, AmountOf(q.rows))
  {
    PassMovesFrom(rows, b, items, reg, write, PerfFeePaid);
    PassMovesFrom(rows, b, items, reg, write, Holdings(t));
    var q := ReconcileAll(rows, b, items, reg, write).rows;
    EffectsByAccount(q, NewLinks(rows, q), t);
  }

  /** The effects on the fee account and on one trader's, as sums of amounts. */
  lemma EffectsByAccount(q: Payments, newly: set<int>, t: TraderId)
    requires forall pid | pid in newly :: pid in q
    ensures SumOver(newly, EffectOf(PerfFeePaid, q)) == SumOver(newly, AmountOf(q))
    ensures var own := set pid | pid in newly && q[pid].trader == Some(t);
      SumOver(newly, EffectOf(Holdings(t), q)) == -SumOver(own, AmountOf(q))
  {
    forall pid | pid in newly ensures EffectOf(PerfFeePaid, q)(pid) == AmountOf(q)(pid) {}
    SumOverSame(newly, EffectOf(PerfFeePaid, q), AmountOf(q));
    forall pid | pid in newly
      ensures EffectOf(Holdings(t), q)(pid) == if q[pid].trader == Some(t) then -AmountOf(q)(pid) else 0
    {}
    SumOfOwn(newly, EffectOf(Holdings(t), q), AmountOf(q), set pid | pid in newly && q[pid].trader == Some(t));
  }

  lemma {:induction false} SumOfOwn<T(!new)>(s: set<T>, f: T -> int, amount: T -> int, own: set<T>)
    requires own <= s && forall x | x in s :: f(x) == (if x in own then -amount(x) else 0)
    ensures SumOver(s, f) == -SumOver(own, amount)
    decreases s
  {
    if s != {} {
      var x :| x in s;
      SumOverPick(s, f, x);
      if x in own {
        SumOverPick(own, amount, x);
        SumOfOwn(s - {x}, f, amount, own - {x});
      } else {
        SumOfOwn(s - {x}, f, amount, own);
      }
    }
  }
}
