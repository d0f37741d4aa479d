/** Each caller writes the journal under its own family of keys: the steps of the
    capital protocol leave the rows of the on-chain credits and of the reconciled
    fees alone, except the steps that are those callers. */
module CapitalFamilies {
  import opened Ledger
  import opened LedgerInvariants
  import opened LedgerTheorems
  import opened Capital
  import opened Regularization
  import opened CapitalInvariants
  import opened CapitalProtocol
  import opened CapitalRuns

  ghost predicate FamilyKept(b: Book, q: Book, c: char) {
    forall k {:trigger Row(q, k)} {:trigger FindTx(q.txs, k)} | Family(k) == c ::
      Row(q, k) == Row(b, k) && FindTx(q.txs, k) == FindTx(b.txs, k)
  }

  /** The family a step may write under, besides the movements' own. */
  function Writes(step: Step): char {
    match step
    case Credit(_, _) => 'c'
    case Fee(_, _, _) => 'm'
    case Regularize(_, _, _, _, _) => 'r'
    case _ => 'l'
  }

  predicate Foreign(c: char) {
    c != 'l' && c != 'p'
  }

  lemma OnlyKeyKeeps(b: Book, q: Book, key: string, c: char)
    requires OnlyKey(b, q, key) && Family(key) != c
    ensures FamilyKept(b, q, c)
  {
    forall k | Family(k) == c ensures Row(q, k) == Row(b, k) && FindTx(q.txs, k) == FindTx(b.txs, k) {
      assert k != key;
    }
  }

  lemma SameJournalKeeps(b: Book, q: Book, c: char)
    requires q.txs == b.txs
    ensures FamilyKept(b, q, c)
  {
  }

  lemma KeptTwice(b: Book, w: Book, q: Book, c: char)
    requires FamilyKept(b, w, c) && FamilyKept(w, q, c)
    ensures FamilyKept(b, q, c)
  {
    forall k | Family(k) == c ensures Row(q, k) == Row(b, k) && FindTx(q.txs, k) == FindTx(b.txs, k) {
      assert Row(w, k) == Row(b, k) && FindTx(w.txs, k) == FindTx(b.txs, k);
    }
  }

  lemma OpeningFamily(db: Db, r: Request, c: char)
    requires Foreign(c) && Opening(db, r).Ok?
    ensures FamilyKept(db.book, Opening(db, r).value.book, c)
  {
    if r.direction.Deposit? {
      HoldEffect(db.book, r.trader, r.amount, LdgKey(r.idem));
      assert Family(LdgKey(r.idem)) == 'l';
      OnlyKeyKeeps(db.book, CreateDepositHold(db.book, r.trader, r.amount, LdgKey(r.idem)).book, LdgKey(r.idem), c);
    }
  }

  lemma DepositFamily(db: Db, m: string, c: char)
    requires Foreign(c) && DbInv(db) && m in db.moves && db.moves[m].direction.Deposit? && db.moves[m].status.InFlight?
    requires db.moves[m].ledgerTx.Some?
    ensures FamilyKept(db.book, CommitDeposit(db.book, db.moves[m].ledgerTx.value).book, c)
    ensures FamilyKept(db.book, ReleaseDeposit(db.book, db.moves[m].ledgerTx.value).book, c)
  {
    var id := db.moves[m].ledgerTx.value;
    HeldRow(db, m);
    assert Family(LdgKey(m)) == 'l';
    CommitEffect(db.book, id);
    var o := CommitDeposit(db.book, id);
    if o.result.Ok? {
      OnlyKeyKeeps(db.book, o.book, LdgKey(m), c);
    } else {
      SameJournalKeeps(db.book, o.book, c);
    }
    ReleaseEffect(db.book, id);
    OnlyKeyKeeps(db.book, ReleaseDeposit(db.book, id).book, LdgKey(m), c);
  }

  lemma WithdrawalFamily(db: Db, m: string, report: Report, c: char)
    requires Foreign(c) && DbInv(db) && m in db.moves && db.moves[m].direction.Withdrawal?
    requires db.moves[m].status.InFlight?
    requires db.moves[m].trader.Some? && BookWithdrawal(db, m, report).Ok?
    ensures FamilyKept(db.book, BookWithdrawal(db, m, report).value.book, c)
  {
    var mv := db.moves[m];
    var t, amount, fee := mv.trader.value, Or(report.amount, mv.amount), Or(report.fee, 0);
    assert Agrees(db.book, m, mv);
    assert Family(LdgKey(m)) == 'l' && Family(PfKey(m)) == 'p';
    if !report.reused && amount > 0 {
      WithdrawalPosts(db.book, m, t, amount, fee);
      var w := PostWithdrawal(db.book, t, amount, LdgKey(m)).book;
      OnlyKeyKeeps(db.book, w, LdgKey(m), c);
      if fee > 0 {
        WithdrawalFeePosts(w, m, t, fee);
        OnlyKeyKeeps(w, PostPerfFee(w, t, fee, PfKey(m)).book, PfKey(m), c);
        KeptTwice(db.book, w, PostPerfFee(w, t, fee, PfKey(m)).book, c);
      }
    }
  }

  lemma ClosingFamily(db: Db, r: Request, c: char)
    requires Foreign(c) && DbInv(db) && r.phase.Heard? && Tracked(db, r)
    ensures FamilyKept(db.book, Closing(db, r).book, c)
  {
    if r.direction.Deposit? {
      DepositFamily(db, r.idem, c);
    } else if r.phase.answer.Done? && BookWithdrawal(db, r.idem, r.phase.answer.report).Ok? {
      WithdrawalFamily(db, r.idem, r.phase.answer.report, c);
    }
  }

  lemma FundFamily(db: Db, m: string, requested: int, c: char)
    requires Foreign(c) && FundMaster(db, m, requested).Ok?
    ensures FamilyKept(db.book, FundMaster(db, m, requested).value.book, c)
  {
    if m !in db.moves {
      var amount := Normalize(requested).value;
      FundingEffect(db.book, amount, LdgKey(m));
      assert Family(LdgKey(m)) == 'l';
      OnlyKeyKeeps(db.book, FundMasterAccount(db.book, amount, LdgKey(m)).book, LdgKey(m), c);
    }
  }

  lemma RegularizeFamily(s: System, step: Step, c: char)
    requires LocalInv(s) && step.Regularize? && c != 'r'
    ensures FamilyKept(s.db.book, DoRegularize(s, step).db.book, c)
  {
    if DoRegularize(s, step) != s {
      var items := Select(Listed(s.cash, step.listing), step.includeInternal);
      if step.write {
        forall id ensures KeyClear(s.db.book, RegKey(id)) {
          assert Family(RegKey(id)) == 'r';
          OthersClear(s.db.book, RegKey(id));
        }
        SweepIsForeign(s.db.book, step.trader, items);
      } else {
        DryRunWritesNothing(s.db.book, step.trader, items);
      }
    }
  }

  lemma CreditFamily(b: Book, hash: string, amount: int, c: char)
    requires c != 'c'
    ensures FamilyKept(b, Ledger.FundMasterAccount(b, amount, CryptoKey(hash)).book, c)
  {
    var o := Ledger.FundMasterAccount(b, amount, CryptoKey(hash));
    FundingEffect(b, amount, CryptoKey(hash));
    assert Family(CryptoKey(hash)) == 'c';
    if o.result.Ok? { OnlyKeyKeeps(b, o.book, CryptoKey(hash), c); } else { SameJournalKeeps(b, o.book, c); }
  }

  lemma FeeFamily(b: Book, pid: int, t: TraderId, amount: int, c: char)
    requires c != 'm' && OthersPosted(b)
    ensures FamilyKept(b, PostPerfFee(b, t, amount, FeeKey(pid)).book, c)
  {
    var o := PostPerfFee(b, t, amount, FeeKey(pid));
    assert Family(FeeKey(pid)) == 'm';
    OthersClear(b, FeeKey(pid));
    DirectPostEffect(b, PerfFee, t, amount, FeeKey(pid), false);
    if o.result.Ok? { OnlyKeyKeeps(b, o.book, FeeKey(pid), c); } else { SameJournalKeeps(b, o.book, c); }
  }

  lemma BeginFamily(s: System, rid: nat, c: char)
    requires LocalInv(s) && Foreign(c)
    ensures FamilyKept(s.db.book, DoBegin(s, rid).db.book, c)
  {
    if rid in s.requests && Opening(s.db, s.requests[rid]).Ok? {
      OpeningFamily(s.db, s.requests[rid], c);
    }
    assert DoBegin(s, rid).db == s.db || DoBegin(s, rid).db == Opening(s.db, s.requests[rid]).value;
  }

  lemma FinishFamily(s: System, rid: nat, c: char)
    requires LocalInv(s) && Foreign(c)
    ensures FamilyKept(s.db.book, DoFinish(s, rid).db.book, c)
  {
    if rid in s.requests && s.requests[rid].phase.Heard? && Tracked(s.db, s.requests[rid]) {
      ClosingFamily(s.db, s.requests[rid], c);
    }
    assert DoFinish(s, rid).db == s.db || DoFinish(s, rid).db == Closing(s.db, s.requests[rid]);
  }

  lemma DoFundFamily(s: System, m: string, requested: int, c: char)
    requires LocalInv(s) && Foreign(c)
    ensures FamilyKept(s.db.book, DoFund(s, m, requested).db.book, c)
  {
    if FundMaster(s.db, m, requested).Ok? {
      FundFamily(s.db, m, requested, c);
    }
    assert DoFund(s, m, requested).db == s.db || DoFund(s, m, requested).db == FundMaster(s.db, m, requested).value;
  }

  /** A step leaves every family alone but the movements' own and the one it writes. */
  lemma StepKeepsFamily(s: System, step: Step, c: char)
    requires LocalInv(s) && Foreign(c) && c != Writes(step)
    ensures FamilyKept(s.db.book, Exec(s, step).db.book, c)
  {
    match step {
      case Begin(rid) => BeginFamily(s, rid, c);
      case Finish(rid) => FinishFamily(s, rid, c);
      case Fund(m, requested) => DoFundFamily(s, m, requested, c);
      case Regularize(_, _, _, _, _) => RegularizeFamily(s, step, c);
      case Credit(hash, onchain) => CreditFamily(s.db.book, hash, onchain, c);
      case Fee(pid, t, charged) => FeeFamily(s.db.book, pid, t, charged, c);
      case _ => SilentStep(s, step);
    }
  }
}
