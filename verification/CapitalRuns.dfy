/** What holds in every run of the protocol, whatever keys its callers use. */
module CapitalRuns {
  import opened Common
  import opened Ledger
  import opened Capital
  import opened Regularization
  import opened CapitalInvariants
  import opened CapitalProtocol

  // ── the invariant ──

  ghost predicate PastFirstCommit(r: Request) {
    !r.phase.Checked?
  }

  /** A request past its first commit has its own movement, still in flight. */
  ghost predicate RequestsOk(db: Db, requests: map<nat, Request>) {
    && (forall i | i in requests :: requests[i].amount > 0 && !requests[i].direction.Funding?)
    && (forall i | i in requests && PastFirstCommit(requests[i]) :: Tracked(db, requests[i]))
    && (forall i, j | i in requests && j in requests && PastFirstCommit(requests[i]) && PastFirstCommit(requests[j])
          && requests[i].idem == requests[j].idem :: i == j)
  }

  /** A key is sent at most once, and only after its movement is committed. */
  ghost predicate SentOnce(moves: map<string, Movement>, sent: multiset<string>, requests: map<nat, Request>) {
    && (forall k :: sent[k] <= 1)
    && (forall k | k in sent :: k in moves)
    && (forall i | i in requests && requests[i].phase.Reserved? :: requests[i].idem !in sent)
  }

  ghost predicate LocalInv(s: System) {
    && DbInv(s.db)
    && RequestsOk(s.db, s.requests)
    && SentOnce(s.db.moves, s.sent, s.requests)
  }

  // ── changes of the request pool ──

  lemma AdvanceRequest(db: Db, requests: map<nat, Request>, rid: nat, phase: Phase)
    requires RequestsOk(db, requests) && rid in requests && PastFirstCommit(requests[rid]) && !phase.Checked?
    ensures RequestsOk(db, requests[rid := requests[rid].(phase := phase)])
  {
    var after := requests[rid := requests[rid].(phase := phase)];
    forall i | i in after && PastFirstCommit(after[i]) ensures Tracked(db, after[i]) {
      assert Tracked(db, requests[i]);
    }
  }

  lemma DropRequest(db: Db, requests: map<nat, Request>, rid: nat)
    requires RequestsOk(db, requests)
    ensures RequestsOk(db, requests - {rid})
  {
  }

  lemma OpenRequest(db: Db, after: Db, requests: map<nat, Request>, rid: nat)
    requires RequestsOk(db, requests) && rid in requests && requests[rid].phase.Checked?
    requires requests[rid].idem !in db.moves && Tracked(after, requests[rid])
    requires forall m | m in db.moves :: m in after.moves && after.moves[m] == db.moves[m]
    ensures RequestsOk(after, requests[rid := requests[rid].(phase := Reserved)])
  {
    var pool := requests[rid := requests[rid].(phase := Reserved)];
    forall i | i in pool && PastFirstCommit(pool[i]) ensures Tracked(after, pool[i]) {
      assert i != rid ==> Tracked(db, requests[i]);
    }
  }

  /** When a request closes, every other one still has its movement in flight. */
  lemma CloseRequest(db: Db, after: Db, requests: map<nat, Request>, rid: nat)
    requires RequestsOk(db, requests) && rid in requests && PastFirstCommit(requests[rid])
    requires forall m | m in db.moves && m != requests[rid].idem :: m in after.moves && after.moves[m] == db.moves[m]
    ensures RequestsOk(after, requests - {rid})
  {
    var pool := requests - {rid};
    forall i | i in pool && PastFirstCommit(pool[i]) ensures Tracked(after, pool[i]) {
      assert Tracked(db, requests[i]);
      assert requests[i].idem != requests[rid].idem;
    }
  }

  lemma SameMovesRequests(db: Db, after: Db, requests: map<nat, Request>)
    requires RequestsOk(db, requests)
    requires forall m | m in db.moves :: m in after.moves && after.moves[m] == db.moves[m]
    ensures RequestsOk(after, requests)
  {
    forall i | i in requests && PastFirstCommit(requests[i]) ensures Tracked(after, requests[i]) {
      assert Tracked(db, requests[i]);
    }
  }

  // ── closing commits ──

  /** What a closing commit leaves in its movement, and nowhere else. */
  ghost predicate Closed(db: Db, q: Db, r: Request)
    requires r.phase.Heard?
  {
    && DbInv(q) && SameSweeps(db.book, q.book)
    && q.moves.Keys == db.moves.Keys && r.idem in q.moves
    && (forall m | m in db.moves && m != r.idem :: q.moves[m] == db.moves[m])
    && var mv := q.moves[r.idem];
       && mv.direction == r.direction && mv.account == Some(r.account) && mv.amount == r.amount
       && (mv.status.Completed? || mv.status.Rejected? ==> r.phase.answer.Done?)
       && (mv.status.Failed? ==> r.phase.answer.Refusal?)
  }

  lemma AbortedCloses(db: Db, r: Request)
    requires DbInv(db) && r.phase == Heard(Refusal) && r.direction.Deposit? && Tracked(db, r)
    ensures Closed(db, AbortDeposit(db, r.idem), r)
  {
    AbortKeeps(db, r.idem);
  }

  lemma SettledCloses(db: Db, r: Request, report: Report)
    requires DbInv(db) && r.phase == Heard(Done(report)) && r.direction.Deposit? && Tracked(db, r)
    requires SettleDeposit(db, r.idem, report.amount).Ok?
    ensures Closed(db, SettleDeposit(db, r.idem, report.amount).value, r)
  {
    SettleKeeps(db, r.idem, report.amount);
  }

  lemma BookedCloses(db: Db, r: Request, report: Report)
    requires DbInv(db) && r.phase == Heard(Done(report)) && r.direction.Withdrawal? && Tracked(db, r)
    requires BookWithdrawal(db, r.idem, report).Ok?
    ensures Closed(db, BookWithdrawal(db, r.idem, report).value, r)
  {
    BookKeeps(db, r.idem, report);
  }

  lemma FailedCloses(db: Db, r: Request)
    requires DbInv(db) && r.phase == Heard(Refusal) && r.direction.Withdrawal? && Tracked(db, r)
    ensures Closed(db, FailWithdrawal(db, r.idem), r)
  {
    FailWithdrawalKeeps(db, r.idem);
  }

  /** A posting that fails leaves the movement in flight. */
  lemma UnchangedCloses(db: Db, r: Request)
    requires DbInv(db) && r.phase.Heard? && Tracked(db, r)
    ensures Closed(db, db, r)
  {
  }

  lemma ClosingDeposit(db: Db, r: Request)
    requires DbInv(db) && r.phase.Heard? && !r.phase.answer.Unknown? && r.direction.Deposit? && Tracked(db, r)
    ensures Closed(db, Closing(db, r), r)
  {
    match r.phase.answer
    case Refusal => AbortedCloses(db, r);
    case Done(report) =>
      if SettleDeposit(db, r.idem, report.amount).Ok? {
        SettledCloses(db, r, report);
      } else {
        UnchangedCloses(db, r);
      }
  }

  lemma ClosingWithdrawal(db: Db, r: Request)
    requires DbInv(db) && r.phase.Heard? && !r.phase.answer.Unknown? && r.direction.Withdrawal? && Tracked(db, r)
    ensures Closed(db, Closing(db, r), r)
  {
    match r.phase.answer
    case Refusal => FailedCloses(db, r);
    case Done(report) =>
      if BookWithdrawal(db, r.idem, report).Ok? {
        BookedCloses(db, r, report);
      } else {
        UnchangedCloses(db, r);
      }
  }

  lemma ClosingKeeps(db: Db, r: Request)
    requires DbInv(db) && r.phase.Heard? && Tracked(db, r)
    ensures Closed(db, Closing(db, r), r)
  {
    if r.phase.answer.Unknown? {
      AmbiguousKeeps(db, r.idem);
    } else if r.direction.Deposit? {
      ClosingDeposit(db, r);
    } else {
      ClosingWithdrawal(db, r);
    }
  }

  // ── each step ──

  lemma BeginKeepsLocal(s: System, rid: nat)
    requires LocalInv(s)
    ensures LocalInv(DoBegin(s, rid))
  {
    if rid in s.requests && s.requests[rid].phase.Checked? {
      var r := s.requests[rid];
      if Opening(s.db, r).Ok? {
        var db := Opening(s.db, r).value;
        OpeningKeeps(s.db, r);
        OpenRequest(s.db, db, s.requests, rid);
      } else {
        DropRequest(s.db, s.requests, rid);
      }
    }
  }

  lemma OpeningKeeps(db: Db, r: Request)
    requires DbInv(db) && r.amount > 0 && !r.direction.Funding? && Opening(db, r).Ok?
    ensures var q := Opening(db, r).value;
      && DbInv(q) && SameSweeps(db.book, q.book) && r.idem !in db.moves
      && Tracked(q, r) && q.moves == db.moves[r.idem := q.moves[r.idem]]
  {
    if r.direction.Deposit? {
      ReserveKeeps(db, r.idem, r.account, r.trader, r.amount);
    } else {
      OpenKeeps(db, r.idem, r.account, r.trader, r.amount);
    }
  }

  lemma SendKeepsLocal(s: System, rid: nat)
    requires LocalInv(s)
    ensures LocalInv(DoSend(s, rid))
  {
    if rid in s.requests && s.requests[rid].phase.Reserved? {
      var r := s.requests[rid];
      assert Tracked(s.db, r);
      if EngineKey(r.idem) == "" {
        AdvanceRequest(s.db, s.requests, rid, Heard(Refusal));
      } else {
        AdvanceRequest(s.db, s.requests, rid, Waiting);
        SentOnceMore(s.db, s.sent, s.requests, rid);
      }
    }
  }

  lemma SentOnceMore(db: Db, sent: multiset<string>, requests: map<nat, Request>, rid: nat)
    requires RequestsOk(db, requests) && SentOnce(db.moves, sent, requests)
    requires rid in requests && requests[rid].phase.Reserved?
    ensures SentOnce(db.moves, sent + multiset{requests[rid].idem}, requests[rid := requests[rid].(phase := Waiting)])
  {
    var pool := requests[rid := requests[rid].(phase := Waiting)];
    assert Tracked(db, requests[rid]);
    forall i | i in pool && pool[i].phase.Reserved?
      ensures pool[i].idem !in sent + multiset{requests[rid].idem}
    {
      assert PastFirstCommit(requests[i]) && PastFirstCommit(requests[rid]);
    }
  }

  lemma HearKeepsLocal(s: System, rid: nat, answer: Answer)
    requires LocalInv(s)
    ensures LocalInv(DoHear(s, rid, answer))
  {
    if rid in s.requests && s.requests[rid].phase.Waiting? {
      AdvanceRequest(s.db, s.requests, rid, Heard(answer));
    }
  }

  lemma FinishKeepsLocal(s: System, rid: nat)
    requires LocalInv(s)
    ensures LocalInv(DoFinish(s, rid))
  {
    if rid in s.requests && s.requests[rid].phase.Heard? && Tracked(s.db, s.requests[rid]) {
      var r, db := s.requests[rid], Closing(s.db, s.requests[rid]);
      ClosingKeeps(s.db, r);
      CloseRequest(s.db, db, s.requests, rid);
    }
  }

  lemma AskOrCrashKeepsLocal(s: System, step: Step)
    requires LocalInv(s) && (step.Ask? || step.Crash?)
    ensures LocalInv(Exec(s, step))
  {
  }

  lemma BookKeepsLocal(s: System, q: Book)
    requires LocalInv(s) && DbInv(s.db.(book := q))
    ensures LocalInv(s.(db := s.db.(book := q)))
  {
    SameMovesRequests(s.db, s.db.(book := q), s.requests);
  }

  lemma FundKeepsLocal(s: System, idem: string, requested: int)
    requires LocalInv(s)
    ensures LocalInv(DoFund(s, idem, requested))
  {
    if FundMaster(s.db, idem, requested).Ok? {
      FundKeeps(s.db, idem, requested);
      SameMovesRequests(s.db, FundMaster(s.db, idem, requested).value, s.requests);
    }
  }

  lemma RegularizeKeepsLocal(s: System, step: Step)
    requires LocalInv(s) && step.Regularize?
    ensures LocalInv(DoRegularize(s, step))
  {
    if DoRegularize(s, step) != s {
      var items := Select(Listed(s.cash, step.listing), step.includeInternal);
      if step.write {
        SweepKeeps(s.db, step.trader, items);
        BookKeepsLocal(s, Committed(s.db.book, SweepAll(s.db.book, step.trader, items, true)));
      } else {
        DryRunWritesNothing(s.db.book, step.trader, items);
      }
    }
  }

  lemma PostedKeepsLocal(s: System, o: Outcome)
    requires LocalInv(s) && DbInv(s.db.(book := o.book))
    ensures LocalInv(DoPost(s, o))
  {
    BookKeepsLocal(s, o.book);
  }

  lemma CreditKeepsLocal(s: System, hash: string, onchain: nat)
    requires LocalInv(s)
    ensures LocalInv(Exec(s, Credit(hash, onchain)))
  {
    CreditKeeps(s.db, hash, onchain);
    PostedKeepsLocal(s, Ledger.FundMasterAccount(s.db.book, onchain, CryptoKey(hash)));
  }

  lemma FeeKeepsLocal(s: System, pid: int, t: TraderId, charged: nat)
    requires LocalInv(s)
    ensures LocalInv(Exec(s, Fee(pid, t, charged)))
  {
    FeeKeeps(s.db, pid, t, charged);
    PostedKeepsLocal(s, PostPerfFee(s.db.book, t, charged, FeeKey(pid)));
  }

  /** The engine's own moves, which the database does not see. */
  lemma EngineKeepsLocal(s: System, q: System)
    requires LocalInv(s) && q.db == s.db && q.requests == s.requests && q.sent == s.sent
    ensures LocalInv(q)
  {
  }

  /** The steps that do not touch the database. */
  lemma SilentStep(s: System, step: Step)
    requires step.Ask? || step.Send? || step.Execute? || step.Refuse? || step.Hear? || step.Crash? || step.OutsideCash?
    ensures Exec(s, step).db == s.db
  {
  }

  /** The steps of a request. */
  predicate OfRequest(step: Step) {
    step.Ask? || step.Begin? || step.Send? || step.Hear? || step.Finish? || step.Crash?
  }

  /** The engine's own. */
  predicate OfEngine(step: Step) {
    step.Execute? || step.Refuse? || step.OutsideCash?
  }

  lemma RequestStepKeepsLocal(s: System, step: Step)
    requires LocalInv(s) && OfRequest(step)
    ensures LocalInv(Exec(s, step))
  {
    match step
    case Begin(rid) => BeginKeepsLocal(s, rid);
    case Send(rid) => SendKeepsLocal(s, rid);
    case Hear(rid, answer) => HearKeepsLocal(s, rid, answer);
    case Finish(rid) => FinishKeepsLocal(s, rid);
    case _ => AskOrCrashKeepsLocal(s, step);
  }

  lemma EngineStepKeepsLocal(s: System, step: Step)
    requires LocalInv(s) && OfEngine(step)
    ensures LocalInv(Exec(s, step))
  {
    EngineKeepsLocal(s, Exec(s, step));
  }

  lemma PostingStepKeepsLocal(s: System, step: Step)
    requires LocalInv(s) && !OfRequest(step) && !OfEngine(step)
    ensures LocalInv(Exec(s, step))
  {
    match step
    case Regularize(_, _, _, _, _) => RegularizeKeepsLocal(s, step);
    case Fund(idem, requested) => FundKeepsLocal(s, idem, requested);
    case Credit(hash, onchain) => CreditKeepsLocal(s, hash, onchain);
    case Fee(pid, t, charged) => FeeKeepsLocal(s, pid, t, charged);
  }

  lemma StepKeepsLocal(s: System, step: Step)
    requires LocalInv(s)
    ensures LocalInv(Exec(s, step))
  {
    if OfRequest(step) {
      RequestStepKeepsLocal(s, step);
    } else if OfEngine(step) {
      EngineStepKeepsLocal(s, step);
    } else {
      PostingStepKeepsLocal(s, step);
    }
  }

  lemma InitialLocal()
    ensures LocalInv(Initial)
  {
  }

  lemma {:induction false} RunKeepsLocal(s: System, steps: seq<Step>)
    requires LocalInv(s)
    ensures LocalInv(Run(s, steps))
    decreases |steps|
  {
    if steps != [] {
      StepKeepsLocal(s, steps[0]);
      RunKeepsLocal(Exec(s, steps[0]), steps[1..]);
    }
  }

  /** Every state a run can reach. */
  lemma EveryRunLocal(steps: seq<Step>)
    ensures LocalInv(Run(Initial, steps))
  {
    InitialLocal();
    RunKeepsLocal(Initial, steps);
  }
}
