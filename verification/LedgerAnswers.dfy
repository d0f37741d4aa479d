/** When each operation of the ledger goes through and what it answers when it does
    not, told from the journal: what is free is the balance less the waiting deposits. */
module LedgerAnswers {
  import opened Common
  import opened Ledger
  import opened LedgerInvariants
  import opened LedgerTheorems

  /** An account that was switched off; a missing one is created in use. */
  predicate Inactive(b: Book, a: AccountId) {
    a in b.accounts && !b.accounts[a].active
  }

  /** What the master account has and owes to no waiting deposit. */
  function FreeFunds(b: Book): int
    requires AllTraders(b.txs)
  {
    BalanceOf(b.entries, MasterAccount) - Total(Held, b.txs)
  }

  /** The master account of a sound book: recomputed balance, holds, and the rest. */
  lemma MasterOf(b: Book)
    requires Sound(b) && !Inactive(b, MasterAccount)
    ensures Available(b) == (BalanceOf(b.entries, MasterAccount), Total(Held, b.txs), FreeFunds(b))
  {
    if MasterAccount !in b.accounts {
      UntouchedMaster(b);
    }
  }

  lemma UntouchedMaster(b: Book)
    requires Sound(b) && MasterAccount !in b.accounts
    ensures BalanceOf(b.entries, MasterAccount) == 0 && Total(Held, b.txs) == 0
  {
    UntouchedIsZero(b.entries, MasterAccount);
  }

  lemma FreeAfterProvisioning(b: Book, p: Book)
    requires Sound(b) && SameBooks(b, p) && Usable(p, MasterAccount)
    ensures Available(p).2 == FreeFunds(b)
  {
    if MasterAccount !in b.accounts {
      UntouchedMaster(b);
    }
  }

  lemma FundingAnswers(b: Book, amount: int, key: string)
    ensures FundMasterAccount(b, amount, key).result
         == if Inactive(b, MasterAccount) || Inactive(b, ExternalFunding) then Err(AccountsMissing)
            else if Row(b, key).Some? then Err(DuplicateKey)
            else Ok(|b.txs|)
  {
    EnsureAllProvisions(b, "");
  }

  /** A hold is granted if and only if it does not exceed what is free. */
  lemma HoldAnswers(b: Book, t: TraderId, amount: int, key: string)
    requires Sound(b)
    ensures CreateDepositHold(b, t, amount, key).result
         == if Inactive(b, MasterAccount) then Err(AccountsMissing)
            else if amount > FreeFunds(b) then Err(InsufficientMasterAccount)
            else if Row(b, key).Some? then Err(DuplicateKey)
            else Ok(|b.txs|)
  {
    EnsureAllProvisions(b, t);
    if !Inactive(b, MasterAccount) {
      FreeAfterProvisioning(b, EnsureAll(b, t));
    }
  }

  /** The direct postings but the guarded one need no free balance. */
  lemma DirectAnswers(b: Book, kind: Kind, t: TraderId, amount: int, key: string, guarded: bool)
    requires Sound(b) && !kind.MasterAccountFunding? && KeyClear(b, key)
    requires guarded ==> kind.TraderDeposit?
    ensures PostDirect(b, kind, t, amount, key, guarded).result
         == if Row(b, key).Some? then Ok(FindTx(b.txs, key).value)
            else if Inactive(b, DebitSide(kind, Some(t))) || Inactive(b, CreditSide(kind, Some(t))) then
              Err(AccountsMissing)
            else if guarded && amount > FreeFunds(b) then Err(InsufficientMasterAccount)
            else Ok(|b.txs|)
  {
    EnsureAllProvisions(b, t);
    if guarded && !Inactive(b, MasterAccount) {
      FreeAfterProvisioning(b, EnsureAll(b, t));
    }
  }

  /** Money that came in is booked if and only if the master account has it free; money
      that went out always is. */
  lemma RegularizationAnswers(b: Book, t: TraderId, amount: int, key: string, incoming: bool)
    requires Sound(b) && KeyClear(b, key)
    ensures PostRegularization(b, t, amount, key, incoming).result
         == if Row(b, key).Some? then Ok(FindTx(b.txs, key).value)
            else if Inactive(b, MasterAccount) || Inactive(b, Holdings(t)) then Err(AccountsMissing)
            else if incoming && amount > FreeFunds(b) then Err(InsufficientMasterAccount)
            else Ok(|b.txs|)
  {
    DirectAnswers(b, if incoming then TraderDeposit else TraderWithdrawal, t, amount, key, incoming);
  }

  /** A fee and a withdrawal are booked whatever is free. */
  lemma UnguardedAnswers(b: Book, t: TraderId, amount: int, key: string)
    requires Sound(b) && Row(b, key).None?
    ensures PostPerfFee(b, t, amount, key).result
         == if Inactive(b, PerfFeePaid) || Inactive(b, Holdings(t)) then Err(AccountsMissing) else Ok(|b.txs|)
    ensures PostWithdrawal(b, t, amount, key).result
         == if Inactive(b, MasterAccount) || Inactive(b, Holdings(t)) then Err(AccountsMissing) else Ok(|b.txs|)
  {
    DirectAnswers(b, PerfFee, t, amount, key, false);
    DirectAnswers(b, TraderWithdrawal, t, amount, key, false);
  }

  // ── what an operation leaves free ──

  lemma FreeAfterHold(b: Book, t: TraderId, amount: int, key: string)
    requires Sound(b) && CreateDepositHold(b, t, amount, key).result.Ok?
    ensures var q := CreateDepositHold(b, t, amount, key).book;
      AllTraders(q.txs) && FreeFunds(q) == FreeFunds(b) - amount && q.entries == b.entries
  {
    HoldRow(b, t, amount, key);
    TotalAppend(Held, b.txs, Tx(TraderDeposit, Pending, key, Some(t), amount));
  }

  lemma HoldRow(b: Book, t: TraderId, amount: int, key: string)
    requires CreateDepositHold(b, t, amount, key).result.Ok?
    ensures var q := CreateDepositHold(b, t, amount, key).book;
      q.entries == b.entries && q.txs == b.txs + [Tx(TraderDeposit, Pending, key, Some(t), amount)]
  {
  }

  /** A funding comes from outside and is free. */
  lemma FundingMovesIn(b: Book, amount: int, key: string)
    requires Sound(b) && FundMasterAccount(b, amount, key).result.Ok?
    ensures var q := FundMasterAccount(b, amount, key).book;
      && AllTraders(q.txs) && FreeFunds(q) == FreeFunds(b) + amount
      && forall a :: Moved(b, q, a)
                  == if a == MasterAccount then amount else if a == ExternalFunding then -amount else 0
  {
    var q, legs := FundMasterAccount(b, amount, key).book, Legs(MasterAccountFunding, None, amount, |b.txs|);
    FundingRow(b, amount, key);
    forall a ensures Moved(b, q, a)
                  == if a == MasterAccount then amount else if a == ExternalFunding then -amount else 0 {
      BalanceOfTwo(b.entries, legs.0, legs.1, a);
    }
    assert Moved(b, q, MasterAccount) == amount;
    TotalAppend(Held, b.txs, Tx(MasterAccountFunding, Posted, key, None, amount));
  }

  lemma FundingRow(b: Book, amount: int, key: string)
    requires FundMasterAccount(b, amount, key).result.Ok?
    ensures var q, legs := FundMasterAccount(b, amount, key).book, Legs(MasterAccountFunding, None, amount, |b.txs|);
      && q.entries == b.entries + [legs.0] + [legs.1]
      && q.txs == b.txs + [Tx(MasterAccountFunding, Posted, key, None, amount)]
  {
    EnsureAllProvisions(b, "");
  }

  lemma FreeAfterPosting(b: Book, kind: Kind, t: TraderId, amount: int, key: string, guarded: bool)
    requires Sound(b) && !kind.MasterAccountFunding? && Row(b, key).None?
    requires PostDirect(b, kind, t, amount, key, guarded).result.Ok?
    ensures var q := PostDirect(b, kind, t, amount, key, guarded).book;
      && AllTraders(q.txs)
      && FreeFunds(q) == FreeFunds(b) +
           (if kind.TraderDeposit? then -amount else if kind.TraderWithdrawal? then amount else 0)
  {
    PostMoves(b, kind, t, amount, key, guarded);
    var q := PostDirect(b, kind, t, amount, key, guarded).book;
    assert Moved(b, q, MasterAccount) == BalanceOf(q.entries, MasterAccount) - BalanceOf(b.entries, MasterAccount);
    PostedRow(b, kind, t, amount, key, guarded);
    TotalAppend(Held, b.txs, Tx(kind, Posted, key, Some(t), amount));
  }

  lemma PostedRow(b: Book, kind: Kind, t: TraderId, amount: int, key: string, guarded: bool)
    requires !kind.MasterAccountFunding? && Row(b, key).None?
    requires PostDirect(b, kind, t, amount, key, guarded).result.Ok?
    ensures PostDirect(b, kind, t, amount, key, guarded).book.txs == b.txs + [Tx(kind, Posted, key, Some(t), amount)]
  {
  }

  /** Committing a deposit pays the trader out of its hold: what is free stays. */
  lemma CommitPays(b: Book, id: nat)
    requires Sound(b) && id < |b.txs| && b.txs[id].status.Pending? && CommitDeposit(b, id).result.Ok?
    ensures b.txs[id].trader.Some? && b.txs[id].kind.TraderDeposit?
    ensures var q, amount, t := CommitDeposit(b, id).book, b.txs[id].amount, b.txs[id].trader.value;
      forall a :: Moved(b, q, a) == if a == MasterAccount then -amount else if a == Holdings(t) then amount else 0
  {
    var q, tx := CommitDeposit(b, id).book, b.txs[id];
    CommitRow(b, id);
    var legs := Legs(TraderDeposit, tx.trader, tx.amount, id);
    forall a ensures Moved(b, q, a) == if a == MasterAccount then -tx.amount
                                       else if a == Holdings(tx.trader.value) then tx.amount else 0 {
      BalanceOfTwo(b.entries, legs.0, legs.1, a);
    }
  }

  lemma CommitRow(b: Book, id: nat)
    requires Sound(b) && id < |b.txs| && b.txs[id].status.Pending? && CommitDeposit(b, id).result.Ok?
    ensures b.txs[id].trader.Some? && b.txs[id].kind.TraderDeposit?
    ensures var q, legs := CommitDeposit(b, id).book, Legs(TraderDeposit, b.txs[id].trader, b.txs[id].amount, id);
      q.entries == b.entries + [legs.0] + [legs.1] && q.txs == b.txs[id := b.txs[id].(status := Posted)]
  {
    assert WellFormedTx(b.txs[id]);
  }

  lemma FreeAfterCommit(b: Book, id: nat)
    requires Sound(b) && id < |b.txs| && b.txs[id].status.Pending? && CommitDeposit(b, id).result.Ok?
    ensures AllTraders(CommitDeposit(b, id).book.txs) && FreeFunds(CommitDeposit(b, id).book) == FreeFunds(b)
  {
    CommitPays(b, id);
    CommitRow(b, id);
    assert Moved(b, CommitDeposit(b, id).book, MasterAccount) == -b.txs[id].amount;
    TotalUpdate(Held, b.txs, id, b.txs[id].(status := Posted));
  }
}
