/** The errors for which the service has no remedy, money that moved in MT5 and could
    not be booked, do not happen: an answered request always reaches its end. */
module CapitalCompletes {
  import opened Common
  import opened Ledger
  import opened LedgerInvariants
  import opened LedgerTheorems
  import opened Capital
  import opened Regularization
  import opened CapitalInvariants
  import opened CapitalProtocol
  import opened CapitalRuns

  /** Every row's trader has a holdings account. */
  ghost predicate OwnersExist(b: Book) {
    forall i | 0 <= i < |b.txs| && b.txs[i].trader.Some? :: Holdings(b.txs[i].trader.value) in b.accounts
  }

  /** Accounts stay, and a row is an old one or belongs to a trader who has his. */
  ghost predicate OwnersKept(b: Book, q: Book) {
    && b.accounts.Keys <= q.accounts.Keys
    && forall i | 0 <= i < |q.txs| && q.txs[i].trader.Some? ::
         || Holdings(q.txs[i].trader.value) in q.accounts
         || (i < |b.txs| && b.txs[i].trader == q.txs[i].trader)
  }

  lemma KeptExist(b: Book, q: Book)
    requires OwnersExist(b) && OwnersKept(b, q)
    ensures OwnersExist(q)
  {
  }

  lemma HoldOwners(b: Book, t: TraderId, amount: int, key: string)
    ensures OwnersKept(b, CreateDepositHold(b, t, amount, key).book)
  {
    EnsureAllProvisions(b, t);
  }

  lemma CommitOwners(b: Book, id: nat)
    ensures OwnersKept(b, CommitDeposit(b, id).book)
  {
  }

  lemma ReleaseOwners(b: Book, id: nat)
    ensures OwnersKept(b, ReleaseDeposit(b, id).book)
  {
  }

  lemma FundOwners(b: Book, amount: int, key: string)
    ensures OwnersKept(b, Ledger.FundMasterAccount(b, amount, key).book)
  {
    EnsureAllProvisions(b, "");
  }

  lemma PostOwners(b: Book, kind: Kind, t: TraderId, amount: int, key: string, guarded: bool)
    requires !kind.MasterAccountFunding?
    ensures OwnersKept(b, PostDirect(b, kind, t, amount, key, guarded).book)
  {
    EnsureAllProvisions(b, t);
  }

  lemma KeptTwice(b: Book, w: Book, q: Book)
    requires OwnersKept(b, w) && OwnersKept(w, q)
    ensures OwnersKept(b, q)
  {
  }

  lemma {:induction false} SweepOwners(b: Book, t: TraderId, items: seq<Item>, write: bool)
    ensures OwnersKept(b, SweepAll(b, t, items, write).book)
  {
    if items != [] {
      var init, item := items[..|items| - 1], items[|items| - 1];
      SweepOwners(b, t, init, write);
      var s := SweepAll(b, t, init, write);
      SweepOneOwners(s, t, item, write);
      KeptTwice(b, s.book, SweepOne(s, t, item, write).book);
    }
  }

  lemma SweepOneOwners(s: Sweep, t: TraderId, item: Item, write: bool)
    ensures OwnersKept(s.book, SweepOne(s, t, item, write).book)
  {
    if SweepOne(s, t, item, write).book != s.book {
      RegularizationOwners(s.book, t, item);
    }
  }

  lemma RegularizationOwners(b: Book, t: TraderId, item: Item)
    ensures OwnersKept(b, PostRegularization(b, t, item.amount, RegKey(item.id), item.incoming).book)
  {
    PostOwners(b, if item.incoming then TraderDeposit else TraderWithdrawal, t, item.amount,
               RegKey(item.id), item.incoming);
  }

  // ── the steps ──

  lemma OpeningOwners(db: Db, r: Request)
    requires Opening(db, r).Ok?
    ensures OwnersKept(db.book, Opening(db, r).value.book)
  {
    HoldOwners(db.book, r.trader, r.amount, LdgKey(r.idem));
  }

  lemma BookingOwners(db: Db, m: string, report: Report)
    requires m in db.moves && db.moves[m].trader.Some? && BookWithdrawal(db, m, report).Ok?
    ensures OwnersKept(db.book, BookWithdrawal(db, m, report).value.book)
  {
    var t, back, fee := db.moves[m].trader.value, Or(report.amount, db.moves[m].amount), Or(report.fee, 0);
    if !report.reused && back > 0 {
      var w := PostWithdrawal(db.book, t, back, LdgKey(m)).book;
      PostOwners(db.book, TraderWithdrawal, t, back, LdgKey(m), false);
      if fee > 0 {
        PostOwners(w, PerfFee, t, fee, PfKey(m), false);
        KeptTwice(db.book, w, PostPerfFee(w, t, fee, PfKey(m)).book);
      }
    }
  }

  lemma ClosingOwners(db: Db, r: Request)
    requires r.phase.Heard? && Tracked(db, r)
    ensures OwnersKept(db.book, Closing(db, r).book)
  {
    if r.direction.Deposit? {
      CommitOwners(db.book, db.moves[r.idem].ledgerTx.value);
      ReleaseOwners(db.book, db.moves[r.idem].ledgerTx.value);
    } else if r.phase.answer.Done? && BookWithdrawal(db, r.idem, r.phase.answer.report).Ok? {
      BookingOwners(db, r.idem, r.phase.answer.report);
    }
  }

  lemma FundMasterOwners(db: Db, m: string, requested: int)
    requires FundMaster(db, m, requested).Ok?
    ensures OwnersKept(db.book, FundMaster(db, m, requested).value.book)
  {
    if m !in db.moves {
      FundOwners(db.book, Normalize(requested).value, LdgKey(m));
    }
  }

  lemma BeginOwners(s: System, rid: nat)
    ensures OwnersKept(s.db.book, DoBegin(s, rid).db.book)
  {
    if rid in s.requests && Opening(s.db, s.requests[rid]).Ok? {
      OpeningOwners(s.db, s.requests[rid]);
    }
    assert DoBegin(s, rid).db == s.db || DoBegin(s, rid).db == Opening(s.db, s.requests[rid]).value;
  }

  lemma FinishOwners(s: System, rid: nat)
    ensures OwnersKept(s.db.book, DoFinish(s, rid).db.book)
  {
    if rid in s.requests && s.requests[rid].phase.Heard? && Tracked(s.db, s.requests[rid]) {
      ClosingOwners(s.db, s.requests[rid]);
    }
    assert DoFinish(s, rid).db == s.db || DoFinish(s, rid).db == Closing(s.db, s.requests[rid]);
  }

  lemma DoFundOwners(s: System, m: string, requested: int)
    ensures OwnersKept(s.db.book, DoFund(s, m, requested).db.book)
  {
    if FundMaster(s.db, m, requested).Ok? {
      FundMasterOwners(s.db, m, requested);
    }
    assert DoFund(s, m, requested).db == s.db || DoFund(s, m, requested).db == FundMaster(s.db, m, requested).value;
  }

  lemma StepOwners(s: System, step: Step)
    ensures OwnersKept(s.db.book, Exec(s, step).db.book)
  {
    match step {
      case Begin(rid) => BeginOwners(s, rid);
      case Finish(rid) => FinishOwners(s, rid);
      case Fund(m, requested) => DoFundOwners(s, m, requested);
      case Regularize(_, _, _, _, _) => RegularizeOwners(s, step);
      case Credit(_, _) => OtherServiceOwners(s, step);
      case Fee(_, _, _) => OtherServiceOwners(s, step);
      case _ => SilentStep(s, step);
    }
  }

  lemma PostedOwners(s: System, o: Outcome)
    requires OwnersKept(s.db.book, o.book)
    ensures OwnersKept(s.db.book, DoPost(s, o).db.book)
  {
  }

  /** The postings of other services. */
  lemma OtherServiceOwners(s: System, step: Step)
    requires step.Credit? || step.Fee?
    ensures OwnersKept(s.db.book, Exec(s, step).db.book)
  {
    if step.Credit? {
      FundOwners(s.db.book, step.onchain, CryptoKey(step.hash));
      PostedOwners(s, Ledger.FundMasterAccount(s.db.book, step.onchain, CryptoKey(step.hash)));
    } else {
      PostOwners(s.db.book, PerfFee, step.trader, step.charged, FeeKey(step.pid), false);
      PostedOwners(s, PostPerfFee(s.db.book, step.trader, step.charged, FeeKey(step.pid)));
    }
  }

  lemma RegularizeOwners(s: System, step: Step)
    requires step.Regularize?
    ensures OwnersKept(s.db.book, DoRegularize(s, step).db.book)
  {
    if DoRegularize(s, step) != s {
      SweepOwners(s.db.book, step.trader, Select(Listed(s.cash, step.listing), step.includeInternal), step.write);
    }
  }

  lemma {:induction false} RunOwners(s: System, steps: seq<Step>)
    requires OwnersExist(s.db.book)
    ensures OwnersExist(Run(s, steps).db.book)
    decreases |steps|
  {
    if steps != [] {
      StepOwners(s, steps[0]);
      KeptExist(s.db.book, Exec(s, steps[0]).db.book);
      RunOwners(Exec(s, steps[0]), steps[1..]);
    }
  }

  // ── the last commits ──

  lemma SettlesWhenOwned(db: Db, m: string, reported: Option<int>)
    requires DbInv(db) && m in db.moves && db.moves[m].direction.Deposit? && db.moves[m].status.InFlight?
    requires db.moves[m].ledgerTx.Some? && db.moves[m].trader.Some?
    requires Holdings(db.moves[m].trader.value) in db.book.accounts
    ensures SettleDeposit(db, m, reported).Ok?
  {
    HeldRow(db, m);
    var id := db.moves[m].ledgerTx.value;
    assert Agrees(db.book, m, db.moves[m]);
    HeldBounds(db.book.txs, id);
    assert WellFormedTx(db.book.txs[id]);
    assert MasterAccount in db.book.accounts;
  }

  lemma SettlesAlways(db: Db, m: string, reported: Option<int>)
    requires DbInv(db) && OwnersExist(db.book)
    requires m in db.moves && db.moves[m].direction.Deposit? && db.moves[m].status.InFlight?
    requires db.moves[m].ledgerTx.Some?
    ensures SettleDeposit(db, m, reported).Ok?
  {
    HeldRow(db, m);
    var id := db.moves[m].ledgerTx.value;
    assert Agrees(db.book, m, db.moves[m]);
    assert Holdings(db.book.txs[id].trader.value) in db.book.accounts;
    SettlesWhenOwned(db, m, reported);
  }

  /** A posting that needs no free balance cannot fail under a new key. */
  lemma PostsAlways(b: Book, kind: Kind, t: TraderId, amount: int, key: string)
    requires AllActive(b) && !kind.MasterAccountFunding?
    ensures PostDirect(b, kind, t, amount, key, false).result.Ok?
  {
    EnsureAllProvisions(b, t);
  }

  lemma BooksAlways(db: Db, m: string, report: Report)
    requires DbInv(db)
    requires m in db.moves && db.moves[m].direction.Withdrawal? && db.moves[m].status.InFlight?
    requires db.moves[m].trader.Some?
    ensures BookWithdrawal(db, m, report).Ok?
  {
    var t, back, fee := db.moves[m].trader.value, Or(report.amount, db.moves[m].amount), Or(report.fee, 0);
    assert Agrees(db.book, m, db.moves[m]);
    if !report.reused && back > 0 {
      PostsAlways(db.book, TraderWithdrawal, t, back, LdgKey(m));
      WithdrawalPosts(db.book, m, t, back, fee);
      PostsAlways(PostWithdrawal(db.book, t, back, LdgKey(m)).book, PerfFee, t, fee, PfKey(m));
    }
  }

  lemma ClosesAsAnswered(db: Db, r: Request)
    requires DbInv(db) && OwnersExist(db.book) && r.phase.Heard? && Tracked(db, r)
    ensures var q := Closing(db, r);
      r.idem in q.moves && (match r.phase.answer
        case Unknown => q.moves[r.idem].status.Ambiguous?
        case Refusal => q.moves[r.idem].status.Failed?
        case Done(report) =>
          || q.moves[r.idem].status.Completed?
          || (q.moves[r.idem].status.Rejected? && r.direction.Withdrawal? && Or(report.amount, r.amount) <= 0))
  {
    if r.phase.answer.Done? {
      if r.direction.Deposit? {
        SettlesAlways(db, r.idem, r.phase.answer.report.amount);
      } else {
        BooksAlways(db, r.idem, r.phase.answer.report);
      }
    }
  }

  /** In every run an answered request, when it finishes, ends as it was answered: what
      the engine carried out is always booked. */
  lemma AnsweredRequestsEnd(steps: seq<Step>, rid: nat)
    requires rid in Run(Initial, steps).requests && Run(Initial, steps).requests[rid].phase.Heard?
    ensures var s := Run(Initial, steps);
      var r, q := s.requests[rid], DoFinish(s, rid);
      && rid !in q.requests && r.idem in q.db.moves
      && (match r.phase.answer
          case Unknown => q.db.moves[r.idem].status.Ambiguous?
          case Refusal => q.db.moves[r.idem].status.Failed?
          case Done(report) =>
            || q.db.moves[r.idem].status.Completed?
            || (q.db.moves[r.idem].status.Rejected? && r.direction.Withdrawal? && Or(report.amount, r.amount) <= 0))
  {
    EveryRunLocal(steps);
    RunOwners(Initial, steps);
    var s := Run(Initial, steps);
    assert PastFirstCommit(s.requests[rid]);
    ClosesAsAnswered(s.db, s.requests[rid]);
  }
}
