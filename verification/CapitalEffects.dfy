/** What the capital operations do to the money: where a deposit's goes at each of its
    commits, and why a withdrawal's fee never passes through the master account. */
module CapitalEffects {
  import opened Common
  import opened Ledger
  import opened LedgerInvariants
  import opened LedgerTheorems
  import opened LedgerAnswers
  import opened Capital
  import opened CapitalInvariants

  lemma HeldAfter(b: Book, tx: Tx)
    requires AllTraders(b.txs) && HasTrader(tx)
    ensures Total(Held, b.txs + [tx]) == Total(Held, b.txs) + Weigh(Held, tx)
  {
    TotalAppend(Held, b.txs, tx);
  }

  /** Reserving moves no money and takes the amount out of what is available. */
  lemma ReserveHolds(db: Db, m: string, acc: Login, t: TraderId, amount: int)
    requires DbInv(db) && amount > 0 && ReserveDeposit(db, m, acc, t, amount).Ok?
    ensures var q := ReserveDeposit(db, m, acc, t, amount).value.book;
      && (forall a :: Moved(db.book, q, a) == 0)
      && Available(q).1 == Available(db.book).1 + amount
      && Available(q).2 == Available(db.book).2 - amount >= 0
  {
    ReserveKeeps(db, m, acc, t, amount);
    HoldTakes(db.book, t, amount, LdgKey(m));
  }

  lemma HoldTakes(b: Book, t: TraderId, amount: int, key: string)
    requires Sound(b) && AllActive(b) && CreateDepositHold(b, t, amount, key).result.Ok?
    requires Sound(CreateDepositHold(b, t, amount, key).book) && AllActive(CreateDepositHold(b, t, amount, key).book)
    ensures var q := CreateDepositHold(b, t, amount, key).book;
      && (forall a :: Moved(b, q, a) == 0)
      && Available(q).1 == Available(b).1 + amount && Available(q).2 == Available(b).2 - amount >= 0
  {
    var q := CreateDepositHold(b, t, amount, key).book;
    HoldRow(b, t, amount, key);
    HoldFits(b, t, amount, key);
    MasterOf(b);
    MasterOf(q);
    HeldAfter(b, Tx(TraderDeposit, Pending, key, Some(t), amount));
  }

  /** A hold is granted against what is available. */
  lemma HoldFits(b: Book, t: TraderId, amount: int, key: string)
    requires Sound(b) && AllActive(b) && CreateDepositHold(b, t, amount, key).result.Ok?
    ensures amount <= Available(b).2
  {
    HoldAnswers(b, t, amount, key);
    MasterOf(b);
  }

  lemma ReservedMovement(db: Db, m: string, acc: Login, t: TraderId, amount: int)
    requires ReserveDeposit(db, m, acc, t, amount).Ok?
    ensures var held := ReserveDeposit(db, m, acc, t, amount).value;
      && m in held.moves && held.moves[m].direction.Deposit? && held.moves[m].status.InFlight?
      && held.moves[m].ledgerTx.Some? && held.moves[m].amount == amount
  {
  }

  /** The engine's refusal puts everything back: no money moved, all of it available. */
  lemma AbortUndoesReserve(db: Db, held: Db, m: string, acc: Login, t: TraderId, amount: int)
    requires DbInv(db) && amount > 0 && ReserveDeposit(db, m, acc, t, amount) == Ok(held)
    ensures m in held.moves && held.moves[m].ledgerTx.Some?
    ensures forall a :: Moved(db.book, AbortDeposit(held, m).book, a) == 0
    ensures Available(AbortDeposit(held, m).book).1 == Available(db.book).1
    ensures Available(AbortDeposit(held, m).book).2 == Available(db.book).2
  {
    ReserveKeeps(db, m, acc, t, amount);
    ReserveHolds(db, m, acc, t, amount);
    ReservedMovement(db, m, acc, t, amount);
    AbortReleases(held, m);
    SameEntries(db.book, held.book, AbortDeposit(held, m).book);
  }

  lemma SameEntries(b: Book, h: Book, q: Book)
    requires q.entries == h.entries && forall a :: Moved(b, h, a) == 0
    ensures forall a :: Moved(b, q, a) == 0
  {
    forall a ensures Moved(b, q, a) == 0 {
      assert Moved(b, h, a) == 0;
    }
  }

  /** Releasing a hold frees exactly it. */
  lemma AbortReleases(db: Db, m: string)
    requires DbInv(db) && m in db.moves && db.moves[m].direction.Deposit? && db.moves[m].status.InFlight?
    requires db.moves[m].ledgerTx.Some?
    ensures var q := AbortDeposit(db, m).book;
      && q.entries == db.book.entries
      && Available(q).1 == Available(db.book).1 - db.moves[m].amount
      && Available(q).2 == Available(db.book).2 + db.moves[m].amount
  {
    var id := db.moves[m].ledgerTx.value;
    AbortKeeps(db, m);
    HeldRow(db, m);
    MasterOf(db.book);
    MasterOf(AbortDeposit(db, m).book);
    TotalUpdate(Held, db.book.txs, id, db.book.txs[id].(status := Status.Failed));
    ReleaseRows(db.book, id);
  }

  lemma ReleaseRows(b: Book, id: nat)
    requires id < |b.txs| && b.txs[id].status.Pending?
    ensures var q := ReleaseDeposit(b, id).book;
      q.entries == b.entries && q.txs == b.txs[id := b.txs[id].(status := Status.Failed)]
  {
  }

  /** Settling pays the trader out of the hold: what is available does not change. */
  lemma SettlePays(db: Db, m: string, reported: Option<int>)
    requires DbInv(db) && m in db.moves && db.moves[m].direction.Deposit? && db.moves[m].status.InFlight?
    requires db.moves[m].ledgerTx.Some? && db.moves[m].trader.Some? && SettleDeposit(db, m, reported).Ok?
    ensures var q, amount, t := SettleDeposit(db, m, reported).value.book, db.moves[m].amount, db.moves[m].trader.value;
      && Moved(db.book, q, MasterAccount) == -amount && Moved(db.book, q, Holdings(t)) == amount
      && (forall a | a != MasterAccount && a != Holdings(t) :: Moved(db.book, q, a) == 0)
      && AllTraders(q.txs) && FreeFunds(q) == FreeFunds(db.book) && Available(q).2 == Available(db.book).2
  {
    var id := db.moves[m].ledgerTx.value;
    HeldRow(db, m);
    CommitPays(db.book, id);
    FreeAfterCommit(db.book, id);
    SettleKeeps(db, m, reported);
    SettledAvailable(db, m, reported);
  }

  lemma SettledAvailable(db: Db, m: string, reported: Option<int>)
    requires DbInv(db) && m in db.moves && db.moves[m].ledgerTx.Some? && SettleDeposit(db, m, reported).Ok?
    requires DbInv(SettleDeposit(db, m, reported).value)
    requires FreeFunds(SettleDeposit(db, m, reported).value.book) == FreeFunds(db.book)
    ensures Available(SettleDeposit(db, m, reported).value.book).2 == Available(db.book).2
  {
    MasterOf(db.book);
    MasterOf(SettleDeposit(db, m, reported).value.book);
  }

  /** The postings of a withdrawal and of its fee. */
  lemma ReturnMoves(b: Book, m: string, t: TraderId, back: int)
    requires Sound(b) && AllActive(b) && back > 0 && Row(b, LdgKey(m)).None? && Row(b, PfKey(m)).None?
    requires PostWithdrawal(b, t, back, LdgKey(m)).result.Ok?
    ensures var w := PostWithdrawal(b, t, back, LdgKey(m)).book;
      && Row(w, PfKey(m)).None?
      && forall a :: Moved(b, w, a) == (if a == MasterAccount then back else 0) - (if a == Holdings(t) then back else 0)
  {
    WithdrawalPosts(b, m, t, back, 0);
    PostMoves(b, TraderWithdrawal, t, back, LdgKey(m), false);
  }

  /** The books a withdrawal goes through. */
  lemma WithdrawalBooks(db: Db, m: string, report: Report)
    requires m in db.moves && db.moves[m].trader.Some? && BookWithdrawal(db, m, report).Ok?
    ensures var q, t := BookWithdrawal(db, m, report).value.book, db.moves[m].trader.value;
      var back, fee := Or(report.amount, db.moves[m].amount), Or(report.fee, 0);
      if report.reused || back <= 0 then q == db.book
      else
        && PostWithdrawal(db.book, t, back, LdgKey(m)).result.Ok?
        && var w := PostWithdrawal(db.book, t, back, LdgKey(m)).book;
           if fee > 0 then PostPerfFee(w, t, fee, PfKey(m)).result.Ok? && q == PostPerfFee(w, t, fee, PfKey(m)).book
           else q == w
  {
  }

  /** A withdrawal brings to the master account what came back and nothing more: the
      fee leaves the trader for the leader, beside it. A replay moves nothing. */
  lemma WithdrawalMoves(db: Db, m: string, report: Report)
    requires DbInv(db) && m in db.moves && db.moves[m].direction.Withdrawal? && db.moves[m].status.InFlight?
    requires db.moves[m].trader.Some? && BookWithdrawal(db, m, report).Ok?
    ensures var q, t := BookWithdrawal(db, m, report).value.book, db.moves[m].trader.value;
      var back := if report.amount.Some? && report.amount.value != 0 then report.amount.value else db.moves[m].amount;
      var fee := if report.fee.Some? && report.fee.value > 0 then report.fee.value else 0;
      if report.reused || back <= 0 then q == db.book
      else
        && Moved(db.book, q, MasterAccount) == back
        && Moved(db.book, q, PerfFeePaid) == fee
        && Moved(db.book, q, Holdings(t)) == -back - fee
        && Moved(db.book, q, ExternalFunding) == 0
  {
    var t, back, fee := db.moves[m].trader.value, Or(report.amount, db.moves[m].amount), Or(report.fee, 0);
    assert Agrees(db.book, m, db.moves[m]);
    WithdrawalBooks(db, m, report);
    if !report.reused && back > 0 {
      ReturnMoves(db.book, m, t, back);
      if fee > 0 {
        var w := PostWithdrawal(db.book, t, back, LdgKey(m)).book;
        var q := PostPerfFee(w, t, fee, PfKey(m)).book;
        FeeMoves(w, t, fee, PfKey(m));
        forall a ensures Moved(db.book, q, a) == Moved(db.book, w, a) + Moved(w, q, a) {}
      }
    }
  }
}
