/** What the capital protocol promises, over every interleaved and crashing run. */
module CapitalTheorems {
  import opened Common
  import opened Ledger
  import opened LedgerInvariants
  import opened LedgerTheorems
  import opened Capital
  import opened CapitalInvariants
  import opened CapitalProtocol
  import opened CapitalRuns
  import opened CapitalEngine

  function After(steps: seq<Step>): System {
    Run(Initial, steps)
  }

  /** The hold is exactly the sum of the waiting deposits, the master account can
      always pay it, and money is conserved. */
  lemma SolventAlways(steps: seq<Step>)
    ensures var b := After(steps).db.book;
      && Sound(b)
      && (MasterAccount in b.accounts ==>
            && b.accounts[MasterAccount].pendingDebit == Total(Held, b.txs)
            && 0 <= b.accounts[MasterAccount].pendingDebit <= BalanceOf(b.entries, MasterAccount)
            && b.accounts[MasterAccount].balance == BalanceOf(b.entries, MasterAccount))
      && SumOver(b.accounts.Keys, CachedBalance(b)) == 0
  {
    EveryRunLocal(steps);
    BalancesSumToZero(After(steps).db.book);
  }

  /** At every commit point a deposit and its ledger row tell the same story. */
  lemma DepositsAgree(steps: seq<Step>, m: string)
    requires m in After(steps).db.moves && After(steps).db.moves[m].direction.Deposit?
    ensures var s := After(steps);
      var mv, row := s.db.moves[m], Row(s.db.book, LdgKey(m));
      && row.Some? && row.value.kind.TraderDeposit?
      && row.value.amount == mv.amount && row.value.trader == mv.trader
      && (mv.status.Completed? <==> row.value.status.Posted?)
      && (mv.status.Failed? <==> row.value.status.Failed?)
      && (mv.status.InFlight? || mv.status.Ambiguous? <==> row.value.status.Pending?)
  {
    EveryRunLocal(steps);
    assert Agrees(After(steps).db.book, m, After(steps).db.moves[m]);
  }

  /** A withdrawal is posted when it completed and was not a replay, and its fee
      is posted with it when there was one. */
  lemma WithdrawalsAgree(steps: seq<Step>, m: string)
    requires m in After(steps).db.moves && After(steps).db.moves[m].direction.Withdrawal?
    ensures var s := After(steps);
      var mv, row, fee := s.db.moves[m], Row(s.db.book, LdgKey(m)), Row(s.db.book, PfKey(m));
      && (row.Some? <==> mv.status.Completed? && !mv.reused)
      && (fee.Some? <==> mv.status.Completed? && !mv.reused && mv.fee > 0)
      && (row.Some? ==> row.value == Tx(TraderWithdrawal, Posted, LdgKey(m), mv.trader, mv.effective))
      && (fee.Some? ==> fee.value == Tx(PerfFee, Posted, PfKey(m), mv.trader, mv.fee))
  {
    EveryRunLocal(steps);
    assert Agrees(After(steps).db.book, m, After(steps).db.moves[m]);
  }

  /** A movement's key reaches the engine at most once, never before the movement
      is committed. */
  lemma CalledAtMostOnce(steps: seq<Step>, m: string)
    ensures After(steps).sent[m] <= 1
    ensures After(steps).sent[m] == 1 ==> m in After(steps).db.moves
  {
    EveryRunLocal(steps);
  }

  /** Between its first and its last commit a request is alone on its account. */
  lemma AloneOnItsAccount(steps: seq<Step>, i: nat, j: nat)
    requires var pool := After(steps).requests;
      && i in pool && j in pool && !pool[i].phase.Checked? && !pool[j].phase.Checked?
      && pool[i].account == pool[j].account
    ensures i == j
  {
    EveryRunLocal(steps);
    var s := After(steps);
    assert PastFirstCommit(s.requests[i]) && PastFirstCommit(s.requests[j]);
    assert Tracked(s.db, s.requests[i]) && Tracked(s.db, s.requests[j]);
  }

  // ── against the engine's history ──

  /** The one journal row a key names. */
  ghost predicate OnlyRow(b: Book, i: nat, key: string) {
    && i < |b.txs| && b.txs[i].key == key
    && forall j | 0 <= j < |b.txs| && b.txs[j].key == key :: j == i
  }

  /** Movement m is the only operation the engine can know under its key. */
  ghost predicate OnlyMovement(moves: map<string, Movement>, m: string) {
    forall n | n in moves && !moves[n].direction.Funding? && EngineKey(n) == EngineKey(m) :: n == m
  }

  /** The call the engine has under a movement's key was sent for that movement. */
  lemma OwnCall(keys: iset<string>, s: System, m: string)
    requires Inv(keys, s) && m in s.db.moves && !s.db.moves[m].direction.Funding? && EngineKey(m) in s.calls
    ensures SentFor(s.db.moves, m, EngineKey(m), s.calls[EngineKey(m)]) && OnlyMovement(s.db.moves, m)
  {
    var n :| SentFor(s.db.moves, n, EngineKey(m), s.calls[EngineKey(m)]);
    assert n == m;
  }

  /** Every deposit the engine carried out was sent for one movement, and is backed by
      exactly one row, of that movement's key and amount, posted or still held. */
  lemma ExecutedDepositIsBacked(steps: seq<Step>, k: string) returns (m: string, i: nat)
    requires Apart(KeysOf(steps))
    requires k in After(steps).calls && After(steps).calls[k].direction.Deposit?
    requires After(steps).calls[k].status.Executed?
    ensures SentFor(After(steps).db.moves, m, k, After(steps).calls[k]) && OnlyMovement(After(steps).db.moves, m)
    ensures var b := After(steps).db.book;
      && OnlyRow(b, i, LdgKey(m)) && b.txs[i].kind.TraderDeposit?
      && b.txs[i].amount == After(steps).calls[k].amount
      && (b.txs[i].status.Posted? || b.txs[i].status.Pending?)
  {
    EveryRunEngine(steps);
    var s := After(steps);
    m :| SentFor(s.db.moves, m, k, s.calls[k]);
    OwnCall(KeysOf(steps), s, m);
    assert Agrees(s.db.book, m, s.db.moves[m]) && Fated(s.calls, m, s.db.moves[m]);
    i := FindTx(s.db.book.txs, LdgKey(m)).value;
    forall j | 0 <= j < |s.db.book.txs| && s.db.book.txs[j].key == LdgKey(m) ensures j == i {
      FindTxUnique(s.db.book.txs, j);
    }
  }

  /** A released hold belongs to a deposit the engine refused, or never got, and a
      posted one to a deposit it carried out for the same amount. */
  lemma SettledDepositIsDecided(steps: seq<Step>, m: string)
    requires Apart(KeysOf(steps))
    requires m in After(steps).db.moves && After(steps).db.moves[m].direction.Deposit?
    ensures var s, key := After(steps), EngineKey(m);
      var row := Row(s.db.book, LdgKey(m));
      && row.Some?
      && (row.value.status.Failed? ==> key !in s.calls || s.calls[key].status.Refused?)
      && (row.value.status.Posted? ==>
            key in s.calls && s.calls[key].status.Executed? && s.calls[key].amount == row.value.amount)
  {
    DepositsAgree(steps, m);
    EveryRunEngine(steps);
    var s := After(steps);
    assert Fated(s.calls, m, s.db.moves[m]);
    if EngineKey(m) in s.calls {
      OwnCall(KeysOf(steps), s, m);
    }
  }

  /** Row `p` of the journal books row `i` of the engine's history under the key of a
      movement the engine knows by the key it answered with. */
  ghost predicate BooksCall(s: System, p: nat, i: nat, m: string) {
    && p < |s.db.book.txs| && i < |s.cash| && m in s.db.moves && !s.db.moves[m].direction.Funding?
    && s.db.book.txs[p].key == LdgKey(m) && s.cash[i].source == Some(EngineKey(m))
  }

  /** Under the sweep's key, or for such a movement. */
  ghost predicate Books(s: System, p: nat, i: nat) {
    && p < |s.db.book.txs| && i < |s.cash|
    && (s.db.book.txs[p].key == RegKey(i) || exists m :: BooksCall(s, p, i, m))
  }

  lemma BookedBySweep(keys: iset<string>, s: System, p: nat, i: nat)
    requires Inv(keys, s) && p < |s.db.book.txs| && i < |s.cash| && s.db.book.txs[p].key == RegKey(i)
    ensures s.cash[i].source.None?
  {
    FindTxUnique(s.db.book.txs, p);
    assert Row(s.db.book, RegKey(i)).Some?;
  }

  /** No cash transaction of the engine is booked twice, and no journal row books two. */
  ghost predicate BookedOnce(s: System) {
    forall p, i, q, j {:trigger Books(s, p, i), Books(s, q, j)} | Books(s, p, i) && Books(s, q, j) :: p == q <==> i == j
  }

  lemma BookedAtMostOnce(steps: seq<Step>)
    requires Apart(KeysOf(steps))
    ensures BookedOnce(After(steps))
  {
    EveryRunEngine(steps);
    InvBooksOnce(KeysOf(steps), After(steps));
  }

  lemma InvBooksOnce(keys: iset<string>, s: System)
    requires Inv(keys, s)
    ensures BookedOnce(s)
  {
    forall p, i, q, j | Books(s, p, i) && Books(s, q, j) ensures p == q <==> i == j {
      if i == j {
        SameCashSameRow(keys, s, p, q, i);
      } else if p == q {
        SameRowSameCash(keys, s, p, i, j);
      }
    }
  }

  lemma SameCashSameRow(keys: iset<string>, s: System, p: nat, q: nat, i: nat)
    requires Inv(keys, s) && Books(s, p, i) && Books(s, q, i)
    ensures p == q
  {
    var txs := s.db.book.txs;
    if txs[p].key == RegKey(i) { BookedBySweep(keys, s, p, i); }
    if txs[q].key == RegKey(i) { BookedBySweep(keys, s, q, i); }
    FindTxUnique(txs, p);
    FindTxUnique(txs, q);
    if m, n :| BooksCall(s, p, i, m) && BooksCall(s, q, i, n) {
      OwnCall(keys, s, m);
      assert n == m;
    }
  }

  lemma SameRowSameCash(keys: iset<string>, s: System, p: nat, i: nat, j: nat)
    requires Inv(keys, s) && Books(s, p, i) && Books(s, p, j)
    ensures i == j
  {
    var key := s.db.book.txs[p].key;
    if key == RegKey(i) && key == RegKey(j) {
      ProviderKeyFamilies(i, j);
    } else if m :| BooksCall(s, p, i, m) {
      KeyFamilies(m, m, j);
      var n :| BooksCall(s, p, j, n);
      KeyFamilies(m, n, j);
    } else {
      var n :| BooksCall(s, p, j, n);
      KeyFamilies(n, n, i);
    }
  }
}
