/** What every committed transaction keeps true between the movements table and
    the ledger: a movement's status and the rows its key names always agree. */
module CapitalInvariants {
  import opened Common
  import opened Ledger
  import opened LedgerInvariants
  import opened LedgerTheorems
  import opened Capital
  import opened Regularization

  // ── key families ──

  /** No caller can produce a key of another family, and within a family a key
      names one operation. */
  lemma KeyFamilies(m: string, n: string, id: int)
    ensures LdgKey(m) == LdgKey(n) ==> m == n
    ensures PfKey(m) == PfKey(n) ==> m == n
    ensures CryptoKey(m) == CryptoKey(n) ==> m == n
    ensures LdgKey(m) != PfKey(n) && LdgKey(m) != CryptoKey(n) && PfKey(m) != CryptoKey(n)
    ensures RegKey(id) != LdgKey(m) && RegKey(id) != PfKey(m) && RegKey(id) != CryptoKey(m)
    ensures FeeKey(id) != LdgKey(m) && FeeKey(id) != PfKey(m) && FeeKey(id) != CryptoKey(m)
  {
    assert LdgKey(m)[4..] == m && LdgKey(n)[4..] == n;
    assert PfKey(m)[3..] == m && PfKey(n)[3..] == n;
    assert CryptoKey(m)[15..] == m && CryptoKey(n)[15..] == n;
    assert LdgKey(m)[0] == 'l' && PfKey(n)[0] == 'p' && PfKey(m)[0] == 'p' && CryptoKey(n)[0] == 'c';
    assert RegKey(id)[0] == 'r' && FeeKey(id)[0] == 'm' && CryptoKey(m)[0] == 'c';
  }

  lemma ProviderKeyFamilies(id: int, other: int)
    ensures RegKey(id) != FeeKey(other)
    ensures FeeKey(id) == FeeKey(other) ==> id == other
    ensures RegKey(id) == RegKey(other) ==> id == other
  {
    assert RegKey(id)[0] == 'r' && FeeKey(other)[0] == 'm';
    if FeeKey(id) == FeeKey(other) {
      assert FeeKey(id)[7..] == IntStr(id) && FeeKey(other)[7..] == IntStr(other);
      IntStrInjective(id, other);
    }
    if RegKey(id) == RegKey(other) {
      RegKeyInjective(id, other);
    }
  }

  // ── the invariant ──

  function HoldStatus(s: MovementStatus): Status {
    match s
    case Completed => Posted
    case Failed => Status.Failed
    case _ => Pending
  }

  predicate Booked(mv: Movement) {
    mv.status.Completed? && !mv.reused
  }

  /** The rows a movement's key must name, given its status. */
  ghost predicate Agrees(b: Book, m: string, mv: Movement) {
    var own, fee := Row(b, LdgKey(m)), Row(b, PfKey(m));
    match mv.direction
    case Deposit =>
      && mv.trader.Some? && mv.ledgerTx.Some? && !mv.status.Rejected?
      && FindTx(b.txs, LdgKey(m)) == mv.ledgerTx
      && own == Some(Tx(TraderDeposit, HoldStatus(mv.status), LdgKey(m), mv.trader, mv.amount))
      && fee.None?
    case Withdrawal =>
      && mv.trader.Some?
      && own == (if Booked(mv) then Some(Tx(TraderWithdrawal, Posted, LdgKey(m), mv.trader, mv.effective)) else None)
      && fee == (if Booked(mv) && mv.fee > 0 then Some(Tx(PerfFee, Posted, PfKey(m), mv.trader, mv.fee)) else None)
    case Funding =>
      && mv.status.Completed?
      && own == Some(Tx(MasterAccountFunding, Posted, LdgKey(m), None, mv.amount))
      && fee.None?
  }

  ghost predicate AllAgree(b: Book, moves: map<string, Movement>) {
    forall m {:trigger m in moves} | m in moves :: Agrees(b, m, moves[m])
  }

  ghost predicate NoStrays(b: Book, moves: map<string, Movement>) {
    forall m {:trigger LdgKey(m)} {:trigger PfKey(m)} | m !in moves :: Row(b, LdgKey(m)).None? && Row(b, PfKey(m)).None?
  }

  /** The first letter tells the families apart. */
  function Family(k: string): char {
    if k == "" then ' ' else k[0]
  }

  /** Only a deposit's own row can be waiting or failed. */
  ghost predicate OthersPosted(b: Book) {
    forall k {:trigger Row(b, k)} | Row(b, k).Some? && !Row(b, k).value.status.Posted? :: Family(k) == 'l'
  }

  /** The partial unique index: one movement in flight per account. */
  ghost predicate OneInFlight(moves: map<string, Movement>) {
    forall m, n | m in moves && n in moves && moves[m].status.InFlight? && moves[n].status.InFlight?
      && moves[m].account.Some? && moves[m].account == moves[n].account :: m == n
  }

  ghost predicate DbInv(db: Db) {
    && Sound(db.book) && AllActive(db.book)
    && AllAgree(db.book, db.moves) && NoStrays(db.book, db.moves)
    && OthersPosted(db.book) && OneInFlight(db.moves)
  }

  /** No row of the regularization family appears, goes or changes. */
  ghost predicate SameSweeps(b: Book, q: Book) {
    forall id {:trigger RegKey(id)} :: Row(q, RegKey(id)) == Row(b, RegKey(id))
  }

  // ── generic steps ──

  /** A commit that rewrites movement `m` and at most the rows of its keys. */
  lemma MovementCommit(db: Db, q: Db, m: string)
    requires DbInv(db)
    requires m in q.moves && q.moves.Keys == db.moves.Keys + {m}
    requires forall n | n in db.moves && n != m :: q.moves[n] == db.moves[n]
    requires forall k | k != LdgKey(m) && k != PfKey(m) ::
      Row(q.book, k) == Row(db.book, k) && FindTx(q.book.txs, k) == FindTx(db.book.txs, k)
    requires Agrees(q.book, m, q.moves[m])
    ensures AllAgree(q.book, q.moves) && NoStrays(q.book, q.moves) && OthersPosted(q.book)
    ensures SameSweeps(db.book, q.book)
  {
    forall id ensures Row(q.book, RegKey(id)) == Row(db.book, RegKey(id)) {
      KeyFamilies(m, m, id);
    }
    forall n | n in q.moves ensures Agrees(q.book, n, q.moves[n]) {
      KeyFamilies(n, m, 0);
      KeyFamilies(m, n, 0);
      if n != m {
        assert Agrees(db.book, n, db.moves[n]);
      }
    }
    forall n | n !in q.moves ensures Row(q.book, LdgKey(n)).None? && Row(q.book, PfKey(n)).None? {
      KeyFamilies(n, m, 0);
      KeyFamilies(m, n, 0);
    }
    forall k | Row(q.book, k).Some? && !Row(q.book, k).value.status.Posted? ensures Family(k) == 'l' {
      assert Family(LdgKey(m)) == 'l';
    }
  }

  /** A commit that leaves every movement and its rows alone. */
  lemma ForeignCommit(db: Db, q: Book)
    requires DbInv(db) && Sound(q) && AllActive(q) && OthersPosted(q)
    requires forall m :: Row(q, LdgKey(m)) == Row(db.book, LdgKey(m)) && Row(q, PfKey(m)) == Row(db.book, PfKey(m))
                      && FindTx(q.txs, LdgKey(m)) == FindTx(db.book.txs, LdgKey(m))
    ensures DbInv(db.(book := q))
  {
    forall m | m in db.moves ensures Agrees(q, m, db.moves[m]) {
      assert Agrees(db.book, m, db.moves[m]);
    }
  }

  lemma OnlyKeyOthersPosted(b: Book, q: Book, key: string)
    requires OthersPosted(b) && OnlyKey(b, q, key) && KeyClear(q, key)
    ensures OthersPosted(q)
  {
    forall k | Row(q, k).Some? && !Row(q, k).value.status.Posted? ensures Family(k) == 'l' {
      assert k != key;
      assert Row(q, k) == Row(b, k);
    }
  }

  lemma SameJournalOthersPosted(b: Book, q: Book)
    requires OthersPosted(b) && q.txs == b.txs
    ensures OthersPosted(q)
  {
    forall k | Row(q, k).Some? && !Row(q, k).value.status.Posted? ensures Family(k) == 'l' {
      assert Row(q, k) == Row(b, k);
    }
  }

  lemma OthersClear(b: Book, key: string)
    requires OthersPosted(b) && Family(key) != 'l'
    ensures KeyClear(b, key)
  {
  }

  lemma AllRegClear(b: Book)
    requires OthersPosted(b)
    ensures RegClear(b)
  {
    forall id ensures KeyClear(b, RegKey(id)) {
      assert Family(RegKey(id)) == 'r';
      OthersClear(b, RegKey(id));
    }
  }

  /** A commit that rewrites movement `m` and the row of its ledger key only. */
  lemma KeyCommit(db: Db, q: Db, m: string, mv: Movement)
    requires DbInv(db) && Sound(q.book) && AllActive(q.book)
    requires OnlyKey(db.book, q.book, LdgKey(m))
    requires q.moves == db.moves[m := mv] && OneInFlight(q.moves) && Agrees(q.book, m, mv)
    ensures DbInv(q)
    ensures SameSweeps(db.book, q.book)
  {
    MovementCommit(db, q, m);
  }

  lemma NewInFlight(moves: map<string, Movement>, m: string, mv: Movement, acc: Login)
    requires OneInFlight(moves) && !Conflicts(moves, m, acc) && mv.account == Some(acc)
    ensures OneInFlight(moves[m := mv])
  {
  }

  lemma Landed(moves: map<string, Movement>, m: string, mv: Movement)
    requires OneInFlight(moves) && !mv.status.InFlight?
    ensures OneInFlight(moves[m := mv])
  {
  }

  /** The key's fee row is not the row an operation on the ledger key writes. */
  lemma FeeRowKept(b: Book, q: Book, m: string)
    requires OnlyKey(b, q, LdgKey(m))
    ensures Row(q, PfKey(m)) == Row(b, PfKey(m))
  {
    KeyFamilies(m, m, 0);
  }

  // ── each commit ──

  lemma ReserveKeeps(db: Db, m: string, acc: Login, t: TraderId, amount: int)
    requires DbInv(db) && amount > 0 && ReserveDeposit(db, m, acc, t, amount).Ok?
    ensures DbInv(ReserveDeposit(db, m, acc, t, amount).value)
    ensures SameSweeps(db.book, ReserveDeposit(db, m, acc, t, amount).value.book)
  {
    var o := CreateDepositHold(db.book, t, amount, LdgKey(m));
    var mv := Movement(Deposit, Some(acc), Some(t), amount, InFlight, Some(o.result.value), 0, 0, false);
    HoldKeepsSound(db.book, t, amount, LdgKey(m));
    HoldEffect(db.book, t, amount, LdgKey(m));
    NewDeposit(db, o.book, m, mv, acc);
  }

  lemma NewDeposit(db: Db, b: Book, m: string, mv: Movement, acc: Login)
    requires DbInv(db) && Sound(b) && AllActive(b) && OnlyKey(db.book, b, LdgKey(m))
    requires !Conflicts(db.moves, m, acc)
    requires mv.account == Some(acc) && mv.direction.Deposit? && mv.status.InFlight? && mv.trader.Some?
    requires mv.ledgerTx.Some? && FindTx(b.txs, LdgKey(m)) == mv.ledgerTx
    requires Row(b, LdgKey(m)) == Some(Tx(TraderDeposit, Pending, LdgKey(m), mv.trader, mv.amount))
    ensures DbInv(Db(b, db.moves[m := mv]))
    ensures SameSweeps(db.book, b)
  {
    assert Row(db.book, PfKey(m)).None?;
    FeeRowKept(db.book, b, m);
    NewInFlight(db.moves, m, mv, acc);
    KeyCommit(db, Db(b, db.moves[m := mv]), m, mv);
  }

  /** The last commit of a deposit: its row and its status move together. */
  lemma DepositLands(db: Db, b: Book, m: string, mv: Movement)
    requires DbInv(db) && m in db.moves && db.moves[m].direction.Deposit?
    requires mv == db.moves[m].(status := mv.status, effective := mv.effective)
    requires mv.status.Completed? || mv.status.Failed?
    requires Sound(b) && AllActive(b) && OnlyKey(db.book, b, LdgKey(m))
    requires FindTx(b.txs, LdgKey(m)) == mv.ledgerTx
    requires Row(b, LdgKey(m)) == Some(Tx(TraderDeposit, HoldStatus(mv.status), LdgKey(m), mv.trader, mv.amount))
    ensures DbInv(Db(b, db.moves[m := mv]))
    ensures SameSweeps(db.book, b)
  {
    assert Agrees(db.book, m, db.moves[m]);
    FeeRowKept(db.book, b, m);
    Landed(db.moves, m, mv);
    KeyCommit(db, Db(b, db.moves[m := mv]), m, mv);
  }

  lemma HeldRow(db: Db, m: string)
    requires DbInv(db) && m in db.moves && db.moves[m].direction.Deposit? && db.moves[m].status.InFlight?
    ensures var mv := db.moves[m];
      && mv.ledgerTx.Some? && mv.ledgerTx.value < |db.book.txs| && UniqueKeys(db.book.txs)
      && FindTx(db.book.txs, LdgKey(m)) == mv.ledgerTx
      && db.book.txs[mv.ledgerTx.value] == Tx(TraderDeposit, Pending, LdgKey(m), mv.trader, mv.amount)
  {
    assert Agrees(db.book, m, db.moves[m]);
  }

  lemma SettleKeeps(db: Db, m: string, reported: Option<int>)
    requires DbInv(db) && m in db.moves && db.moves[m].direction.Deposit? && db.moves[m].status.InFlight?
    requires db.moves[m].ledgerTx.Some? && SettleDeposit(db, m, reported).Ok?
    ensures DbInv(SettleDeposit(db, m, reported).value)
    ensures SameSweeps(db.book, SettleDeposit(db, m, reported).value.book)
  {
    var mv := db.moves[m];
    var id := mv.ledgerTx.value;
    HeldRow(db, m);
    CommitKeepsSound(db.book, id);
    CommitEffect(db.book, id);
    DepositLands(db, Ledger.CommitDeposit(db.book, id).book, m,
                 mv.(status := Completed, effective := Or(reported, mv.amount)));
  }

  lemma AbortKeeps(db: Db, m: string)
    requires DbInv(db) && m in db.moves && db.moves[m].direction.Deposit? && db.moves[m].status.InFlight?
    requires db.moves[m].ledgerTx.Some?
    ensures DbInv(AbortDeposit(db, m))
    ensures SameSweeps(db.book, AbortDeposit(db, m).book)
  {
    var mv := db.moves[m];
    var id := mv.ledgerTx.value;
    HeldRow(db, m);
    ReleaseKeepsSound(db.book, id);
    ReleaseEffect(db.book, id);
    DepositLands(db, Ledger.ReleaseDeposit(db.book, id).book, m, mv.(status := MovementStatus.Failed));
  }

  lemma AmbiguousKeeps(db: Db, m: string)
    requires DbInv(db) && m in db.moves && db.moves[m].status.InFlight?
    ensures DbInv(MarkAmbiguous(db, m))
  {
    assert Agrees(db.book, m, db.moves[m]);
    Landed(db.moves, m, db.moves[m].(status := Ambiguous));
    KeyCommit(db, MarkAmbiguous(db, m), m, db.moves[m].(status := Ambiguous));
  }

  lemma OpenKeeps(db: Db, m: string, acc: Login, t: TraderId, amount: int)
    requires DbInv(db) && OpenWithdrawal(db, m, acc, t, amount).Ok?
    ensures DbInv(OpenWithdrawal(db, m, acc, t, amount).value)
  {
    var mv := Movement(Withdrawal, Some(acc), Some(t), amount, InFlight, None, 0, 0, false);
    assert Row(db.book, LdgKey(m)).None? && Row(db.book, PfKey(m)).None?;
    NewInFlight(db.moves, m, mv, acc);
    KeyCommit(db, OpenWithdrawal(db, m, acc, t, amount).value, m, mv);
  }

  lemma FailWithdrawalKeeps(db: Db, m: string)
    requires DbInv(db) && m in db.moves && db.moves[m].direction.Withdrawal? && db.moves[m].status.InFlight?
    ensures DbInv(FailWithdrawal(db, m))
  {
    assert Agrees(db.book, m, db.moves[m]);
    Landed(db.moves, m, db.moves[m].(status := MovementStatus.Failed));
    KeyCommit(db, FailWithdrawal(db, m), m, db.moves[m].(status := MovementStatus.Failed));
  }

  /** A withdrawal's posting, and its fee's when there is one. */
  lemma WithdrawalPosts(b: Book, m: string, t: TraderId, amount: int, fee: int)
    requires Sound(b) && AllActive(b) && amount > 0
    requires Row(b, LdgKey(m)).None? && Row(b, PfKey(m)).None?
    requires PostWithdrawal(b, t, amount, LdgKey(m)).result.Ok?
    ensures var w := PostWithdrawal(b, t, amount, LdgKey(m)).book;
      && Sound(w) && AllActive(w) && OnlyKey(b, w, LdgKey(m)) && Row(w, PfKey(m)).None?
      && Row(w, LdgKey(m)) == Some(Tx(TraderWithdrawal, Posted, LdgKey(m), Some(t), amount))
  {
    DirectPostKeepsSound(b, TraderWithdrawal, t, amount, LdgKey(m), false);
    DirectPostEffect(b, TraderWithdrawal, t, amount, LdgKey(m), false);
    KeyFamilies(m, m, 0);
  }

  lemma WithdrawalFeePosts(w: Book, m: string, t: TraderId, fee: int)
    requires Sound(w) && AllActive(w) && fee > 0 && Row(w, PfKey(m)).None?
    requires PostPerfFee(w, t, fee, PfKey(m)).result.Ok?
    ensures var f := PostPerfFee(w, t, fee, PfKey(m)).book;
      && Sound(f) && AllActive(f) && OnlyKey(w, f, PfKey(m)) && Row(f, LdgKey(m)) == Row(w, LdgKey(m))
      && Row(f, PfKey(m)) == Some(Tx(PerfFee, Posted, PfKey(m), Some(t), fee))
  {
    DirectPostKeepsSound(w, PerfFee, t, fee, PfKey(m), false);
    DirectPostEffect(w, PerfFee, t, fee, PfKey(m), false);
    KeyFamilies(m, m, 0);
  }

  lemma BookKeeps(db: Db, m: string, report: Report)
    requires DbInv(db) && m in db.moves && db.moves[m].direction.Withdrawal? && db.moves[m].status.InFlight?
    requires db.moves[m].trader.Some? && BookWithdrawal(db, m, report).Ok?
    ensures DbInv(BookWithdrawal(db, m, report).value)
    ensures SameSweeps(db.book, BookWithdrawal(db, m, report).value.book)
  {
    var q, mv := BookWithdrawal(db, m, report).value, db.moves[m];
    var t, amount, fee := mv.trader.value, Or(report.amount, mv.amount), Or(report.fee, 0);
    assert Agrees(db.book, m, mv);
    if !report.reused && amount > 0 {
      WithdrawalPosts(db.book, m, t, amount, fee);
      var w := PostWithdrawal(db.book, t, amount, LdgKey(m)).book;
      if fee > 0 {
        WithdrawalFeePosts(w, m, t, fee);
      }
    }
    assert Agrees(q.book, m, q.moves[m]);
    Landed(db.moves, m, q.moves[m]);
    MovementCommit(db, q, m);
  }

  lemma FundKeeps(db: Db, m: string, requested: int)
    requires DbInv(db) && FundMaster(db, m, requested).Ok?
    ensures DbInv(FundMaster(db, m, requested).value)
    ensures SameSweeps(db.book, FundMaster(db, m, requested).value.book)
  {
    if m !in db.moves {
      var amount := Normalize(requested).value;
      var o := Ledger.FundMasterAccount(db.book, amount, LdgKey(m));
      var mv := Movement(Funding, None, None, amount, Completed, Some(o.result.value), 0, 0, false);
      FundingKeepsSound(db.book, amount, LdgKey(m));
      FundingEffect(db.book, amount, LdgKey(m));
      FundingLands(db, o.book, m, mv);
    }
  }

  lemma FundingLands(db: Db, b: Book, m: string, mv: Movement)
    requires DbInv(db) && m !in db.moves && mv.direction.Funding? && mv.status.Completed?
    requires Sound(b) && AllActive(b) && OnlyKey(db.book, b, LdgKey(m))
    requires Row(b, LdgKey(m)) == Some(Tx(MasterAccountFunding, Posted, LdgKey(m), None, mv.amount))
    ensures DbInv(Db(b, db.moves[m := mv]))
    ensures SameSweeps(db.book, b)
  {
    assert Row(db.book, PfKey(m)).None?;
    FeeRowKept(db.book, b, m);
    Landed(db.moves, m, mv);
    KeyCommit(db, Db(b, db.moves[m := mv]), m, mv);
  }

  /** An on-chain credit posts under its own family and touches no movement. */
  lemma CreditKeeps(db: Db, hash: string, amount: int)
    requires DbInv(db) && amount >= 0
    ensures DbInv(db.(book := Ledger.FundMasterAccount(db.book, amount, CryptoKey(hash)).book))
    ensures SameSweeps(db.book, Ledger.FundMasterAccount(db.book, amount, CryptoKey(hash)).book)
  {
    var o := Ledger.FundMasterAccount(db.book, amount, CryptoKey(hash));
    FundingKeepsSound(db.book, amount, CryptoKey(hash));
    FundingEffect(db.book, amount, CryptoKey(hash));
    if o.result.Ok? {
      OnlyKeyOthersPosted(db.book, o.book, CryptoKey(hash));
    } else {
      SameJournalOthersPosted(db.book, o.book);
    }
    forall id ensures Row(o.book, RegKey(id)) == Row(db.book, RegKey(id)) {
      KeyFamilies(hash, hash, id);
    }
    forall m
      ensures Row(o.book, LdgKey(m)) == Row(db.book, LdgKey(m)) && Row(o.book, PfKey(m)) == Row(db.book, PfKey(m))
           && FindTx(o.book.txs, LdgKey(m)) == FindTx(db.book.txs, LdgKey(m))
    {
      KeyFamilies(m, hash, 0);
    }
    ForeignCommit(db, o.book);
  }

  /** A reconciled fee posts under its own family and touches no movement. */
  lemma FeeKeeps(db: Db, pid: int, t: TraderId, amount: int)
    requires DbInv(db) && amount >= 0
    ensures DbInv(db.(book := PostPerfFee(db.book, t, amount, FeeKey(pid)).book))
    ensures SameSweeps(db.book, PostPerfFee(db.book, t, amount, FeeKey(pid)).book)
  {
    var o := PostPerfFee(db.book, t, amount, FeeKey(pid));
    assert Family(FeeKey(pid)) == 'm';
    OthersClear(db.book, FeeKey(pid));
    DirectPostKeepsSound(db.book, PerfFee, t, amount, FeeKey(pid), false);
    DirectPostEffect(db.book, PerfFee, t, amount, FeeKey(pid), false);
    if o.result.Ok? {
      OnlyKeyOthersPosted(db.book, o.book, FeeKey(pid));
    } else {
      SameJournalOthersPosted(db.book, o.book);
    }
    forall id ensures Row(o.book, RegKey(id)) == Row(db.book, RegKey(id)) {
      ProviderKeyFamilies(id, pid);
    }
    forall m
      ensures Row(o.book, LdgKey(m)) == Row(db.book, LdgKey(m)) && Row(o.book, PfKey(m)) == Row(db.book, PfKey(m))
           && FindTx(o.book.txs, LdgKey(m)) == FindTx(db.book.txs, LdgKey(m))
    {
      KeyFamilies(m, m, pid);
    }
    ForeignCommit(db, o.book);
  }

  /** A sweep touches only rows of the regularization family. */
  lemma {:induction false} SweepIsForeign(b: Book, t: TraderId, items: seq<Item>)
    requires Sound(b) && OthersPosted(b) && RegClear(b) && Amounts(items)
    ensures var q := SweepAll(b, t, items, true).book;
      && OthersPosted(q)
      && (forall k | Family(k) != 'r' :: Row(q, k) == Row(b, k) && FindTx(q.txs, k) == FindTx(b.txs, k))
  {
    if items != [] {
      var init, item := items[..|items| - 1], items[|items| - 1];
      SweepIsForeign(b, t, init);
      ApplyMovesNet(b, t, init);
      var s := SweepAll(b, t, init, true);
      StepKeeps(s, t, item);
      assert Family(RegKey(item.id)) == 'r';
      var q := SweepOne(s, t, item, true).book;
      assert KeyClear(q, RegKey(item.id));
      OnlyKeyOthersPosted(s.book, q, RegKey(item.id));
    }
  }

  lemma SweepKeeps(db: Db, t: TraderId, items: seq<Item>)
    requires DbInv(db) && Amounts(items)
    ensures DbInv(db.(book := Committed(db.book, SweepAll(db.book, t, items, true))))
  {
    forall id ensures KeyClear(db.book, RegKey(id)) {
      assert Family(RegKey(id)) == 'r';
      OthersClear(db.book, RegKey(id));
    }
    var s := SweepAll(db.book, t, items, true);
    ApplyMovesNet(db.book, t, items);
    SweepIsForeign(db.book, t, items);
    forall m
      ensures Row(s.book, LdgKey(m)) == Row(db.book, LdgKey(m)) && Row(s.book, PfKey(m)) == Row(db.book, PfKey(m))
           && FindTx(s.book.txs, LdgKey(m)) == FindTx(db.book.txs, LdgKey(m))
    {
      assert Family(LdgKey(m)) == 'l' && Family(PfKey(m)) == 'p';
    }
    ForeignCommit(db, s.book);
  }
}
