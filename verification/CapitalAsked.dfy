/** Where a run's movements, calls and engine rows come from: some caller asked for
    each of them, for whole cents of the amount it has. */
module CapitalAsked {
  import opened Common
  import opened Ledger
  import opened Capital
  import opened CapitalProtocol

  /** A caller asked for this operation. */
  ghost predicate AskedFor(asks: iset<Step>, idem: string, direction: Direction, acc: Login, t: TraderId, amount: int) {
    exists step :: step in asks && step.Ask? && step.idem == idem && step.direction == direction
      && step.account == acc && step.trader == t && Normalize(step.requested) == Some(amount)
  }

  /** A caller funded the master account under this key. */
  ghost predicate FundedFor(asks: iset<Step>, idem: string, amount: int) {
    exists step :: step in asks && step.Fund? && step.idem == idem && Normalize(step.requested) == Some(amount)
  }

  ghost predicate RequestAsked(asks: iset<Step>, r: Request) {
    AskedFor(asks, r.idem, r.direction, r.account, r.trader, r.amount)
  }

  ghost predicate MovementAsked(asks: iset<Step>, m: string, mv: Movement) {
    if mv.direction.Funding? then FundedFor(asks, m, mv.amount) && mv.account.None? && mv.trader.None?
    else
      && mv.account.Some? && mv.trader.Some?
      && AskedFor(asks, m, mv.direction, mv.account.value, mv.trader.value, mv.amount)
  }

  /** Under the text the engine gets, for that account and amount. */
  ghost predicate CallAsked(asks: iset<Step>, k: string, call: Call) {
    exists m, t :: EngineKey(m) == k && AskedFor(asks, m, call.direction, call.account, t, call.amount)
  }

  /** A row of the engine's history that answers a call: signed as the money moved. */
  ghost predicate RowOfCall(calls: map<string, Call>, row: Cash) {
    row.source.Some? ==>
      && row.source.value in calls && calls[row.source.value].status.Executed? && row.status == "EXECUTED"
      && var call := calls[row.source.value];
         && row.account == call.account && !call.direction.Funding?
         && row.kind == (if call.direction.Deposit? then "DEPOSIT" else "WITHDRAWAL")
         && row.amount == (if call.direction.Deposit? then call.amount else -call.amount)
  }

  /** The engine's history has a row that answers the call. */
  ghost predicate ShowsIn(cash: seq<Cash>, k: string) {
    exists i | 0 <= i < |cash| :: cash[i].source == Some(k)
  }

  ghost predicate ExecutedShow(calls: map<string, Call>, cash: seq<Cash>) {
    forall k | k in calls && calls[k].status.Executed? :: ShowsIn(cash, k)
  }

  lemma MoreCashShows(cash: seq<Cash>, row: Cash, k: string)
    requires ShowsIn(cash, k) || row.source == Some(k)
    ensures ShowsIn(cash + [row], k)
  {
    var all := cash + [row];
    if ShowsIn(cash, k) {
      var i :| 0 <= i < |cash| && cash[i].source == Some(k);
      assert all[i].source == Some(k);
    } else {
      assert all[|cash|].source == Some(k);
    }
  }

  ghost predicate AllAsked(asks: iset<Step>, s: System) {
    && (forall i | i in s.requests :: RequestAsked(asks, s.requests[i]) && !s.requests[i].direction.Funding?)
    && (forall m | m in s.db.moves :: MovementAsked(asks, m, s.db.moves[m]))
    && (forall k | k in s.calls :: CallAsked(asks, k, s.calls[k]) && !s.calls[k].direction.Funding?)
    && (forall i | 0 <= i < |s.cash| :: RowOfCall(s.calls, s.cash[i]))
    && ExecutedShow(s.calls, s.cash)
  }

  // ── each step ──

  lemma AskStep(asks: iset<Step>, s: System, step: Step)
    requires AllAsked(asks, s) && step.Ask? && step in asks
    ensures AllAsked(asks, DoAsk(s, step))
  {
    var q := DoAsk(s, step);
    forall i | i in q.requests ensures RequestAsked(asks, q.requests[i]) && !q.requests[i].direction.Funding? {
      if i in s.requests && q.requests[i] == s.requests[i] {
        assert RequestAsked(asks, s.requests[i]);
      }
    }
  }

  lemma OpeningAdds(db: Db, r: Request)
    requires Opening(db, r).Ok? && !r.direction.Funding?
    ensures var q := Opening(db, r).value;
      && r.idem in q.moves && q.moves == db.moves[r.idem := q.moves[r.idem]]
      && var mv := q.moves[r.idem];
         && mv.direction == r.direction && mv.account == Some(r.account) && mv.trader == Some(r.trader)
         && mv.amount == r.amount
  {
  }

  lemma BeginStep(asks: iset<Step>, s: System, rid: nat)
    requires AllAsked(asks, s)
    ensures AllAsked(asks, DoBegin(s, rid))
  {
    if rid in s.requests && s.requests[rid].phase.Checked? {
      var r, q := s.requests[rid], DoBegin(s, rid);
      assert RequestAsked(asks, r);
      if Opening(s.db, r).Ok? {
        OpeningAdds(s.db, r);
        assert q.requests == s.requests[rid := r.(phase := Reserved)];
        PhaseStays(asks, s.requests, rid, Reserved);
      }
    }
  }

  lemma PhaseStays(asks: iset<Step>, requests: map<nat, Request>, rid: nat, phase: Phase)
    requires rid in requests
    requires forall i | i in requests :: RequestAsked(asks, requests[i]) && !requests[i].direction.Funding?
    ensures var pool := requests[rid := requests[rid].(phase := phase)];
      forall i | i in pool :: RequestAsked(asks, pool[i]) && !pool[i].direction.Funding?
  {
    var pool := requests[rid := requests[rid].(phase := phase)];
    forall i | i in pool ensures RequestAsked(asks, pool[i]) && !pool[i].direction.Funding? {
      assert RequestAsked(asks, requests[i]);
    }
  }

  lemma SendStep(asks: iset<Step>, s: System, rid: nat)
    requires AllAsked(asks, s)
    ensures AllAsked(asks, DoSend(s, rid))
  {
    if rid in s.requests && s.requests[rid].phase.Reserved? {
      var r := s.requests[rid];
      assert RequestAsked(asks, r);
      if EngineKey(r.idem) == "" {
        PhaseStays(asks, s.requests, rid, Heard(Refusal));
      } else {
        PhaseStays(asks, s.requests, rid, Waiting);
        NewCall(asks, s, r);
      }
    }
  }

  /** The call a request sends, unless the engine has one under its key. */
  lemma NewCall(asks: iset<Step>, s: System, r: Request)
    requires RequestAsked(asks, r) && !r.direction.Funding?
    requires forall k | k in s.calls :: CallAsked(asks, k, s.calls[k]) && !s.calls[k].direction.Funding?
    requires (forall i | 0 <= i < |s.cash| :: RowOfCall(s.calls, s.cash[i])) && ExecutedShow(s.calls, s.cash)
    ensures var key := EngineKey(r.idem);
      var after := if key in s.calls then s.calls
                   else s.calls[key := Call(r.direction, r.account, r.amount, Received)];
      && (forall k | k in after :: CallAsked(asks, k, after[k]) && !after[k].direction.Funding?)
      && (forall i | 0 <= i < |s.cash| :: RowOfCall(after, s.cash[i])) && ExecutedShow(after, s.cash)
  {
    assert CallAsked(asks, EngineKey(r.idem), Call(r.direction, r.account, r.amount, Received));
    var key := EngineKey(r.idem);
    if key !in s.calls {
      var after := s.calls[key := Call(r.direction, r.account, r.amount, Received)];
      forall i | 0 <= i < |s.cash| ensures RowOfCall(after, s.cash[i]) {
        assert RowOfCall(s.calls, s.cash[i]);
      }
    }
  }

  lemma ExecuteStep(asks: iset<Step>, s: System, key: string)
    requires AllAsked(asks, s)
    ensures AllAsked(asks, DoExecute(s, key))
  {
    if key in s.calls && s.calls[key].status.Received? {
      var q := DoExecute(s, key);
      CallStays(asks, s.calls, key, CallStatus.Executed);
      forall k | k in q.calls && q.calls[k].status.Executed? ensures ShowsIn(q.cash, k) {
        MoreCashShows(s.cash, q.cash[|s.cash|], k);
      }
      forall i | 0 <= i < |q.cash| ensures RowOfCall(q.calls, q.cash[i]) {
        if i < |s.cash| {
          assert RowOfCall(s.calls, s.cash[i]);
        }
      }
    }
  }

  lemma CallStays(asks: iset<Step>, calls: map<string, Call>, key: string, status: CallStatus)
    requires key in calls
    requires forall k | k in calls :: CallAsked(asks, k, calls[k]) && !calls[k].direction.Funding?
    ensures var after := calls[key := calls[key].(status := status)];
      forall k | k in after :: CallAsked(asks, k, after[k]) && !after[k].direction.Funding?
  {
    var after := calls[key := calls[key].(status := status)];
    forall k | k in after ensures CallAsked(asks, k, after[k]) && !after[k].direction.Funding? {
      var m, t :| EngineKey(m) == k && AskedFor(asks, m, calls[k].direction, calls[k].account, t, calls[k].amount);
      assert AskedFor(asks, m, after[k].direction, after[k].account, t, after[k].amount);
    }
  }

  lemma RefuseStep(asks: iset<Step>, s: System, key: string)
    requires AllAsked(asks, s)
    ensures AllAsked(asks, DoRefuse(s, key))
  {
    if key in s.calls && s.calls[key].status.Received? {
      CallStays(asks, s.calls, key, CallStatus.Refused);
      var q := DoRefuse(s, key);
      forall i | 0 <= i < |q.cash| ensures RowOfCall(q.calls, q.cash[i]) {
        assert RowOfCall(s.calls, s.cash[i]);
      }
    }
  }

  lemma HearStep(asks: iset<Step>, s: System, rid: nat, answer: Answer)
    requires AllAsked(asks, s)
    ensures AllAsked(asks, DoHear(s, rid, answer))
  {
    if rid in s.requests {
      PhaseStays(asks, s.requests, rid, Heard(answer));
    }
  }

  /** A closing commit changes what became of the movement, not what it is. */
  lemma ClosingChanges(db: Db, r: Request)
    requires r.phase.Heard? && Tracked(db, r)
    ensures var q := Closing(db, r);
      && q.moves.Keys == db.moves.Keys
      && forall m | m in db.moves ::
           && q.moves[m].direction == db.moves[m].direction && q.moves[m].amount == db.moves[m].amount
           && q.moves[m].account == db.moves[m].account && q.moves[m].trader == db.moves[m].trader
  {
  }

  lemma FinishStep(asks: iset<Step>, s: System, rid: nat)
    requires AllAsked(asks, s)
    ensures AllAsked(asks, DoFinish(s, rid))
  {
    if rid in s.requests && s.requests[rid].phase.Heard? && Tracked(s.db, s.requests[rid]) {
      ClosingChanges(s.db, s.requests[rid]);
      var q := DoFinish(s, rid);
      forall m | m in q.db.moves ensures MovementAsked(asks, m, q.db.moves[m]) {
        assert MovementAsked(asks, m, s.db.moves[m]);
      }
    }
  }

  lemma FundStep(asks: iset<Step>, s: System, step: Step)
    requires AllAsked(asks, s) && step.Fund? && step in asks
    ensures AllAsked(asks, DoFund(s, step.idem, step.requested))
  {
    var q := DoFund(s, step.idem, step.requested);
    forall m | m in q.db.moves ensures MovementAsked(asks, m, q.db.moves[m]) {
      if m in s.db.moves {
        assert MovementAsked(asks, m, s.db.moves[m]);
      }
    }
  }

  lemma BookStep(asks: iset<Step>, s: System, b: Book)
    requires AllAsked(asks, s)
    ensures AllAsked(asks, WithBook(s, b))
  {
  }

  lemma CrashStep(asks: iset<Step>, s: System, rid: nat)
    requires AllAsked(asks, s)
    ensures AllAsked(asks, s.(requests := s.requests - {rid}))
  {
  }

  /** A row of others in the engine's history. */
  lemma OutsideStep(asks: iset<Step>, s: System, row: Cash)
    requires AllAsked(asks, s) && row.source.None?
    ensures AllAsked(asks, s.(cash := s.cash + [row]))
  {
    var q := s.(cash := s.cash + [row]);
    forall k | k in q.calls && q.calls[k].status.Executed? ensures ShowsIn(q.cash, k) {
      MoreCashShows(s.cash, row, k);
    }
    forall i | 0 <= i < |q.cash| ensures RowOfCall(q.calls, q.cash[i]) {
      if i < |s.cash| {
        assert RowOfCall(s.calls, s.cash[i]);
      }
    }
  }

  /** The steps that write only the book. */
  lemma PostingStep(asks: iset<Step>, s: System, step: Step)
    requires AllAsked(asks, s) && (step.Regularize? || step.Credit? || step.Fee?)
    ensures AllAsked(asks, Exec(s, step))
  {
    assert Exec(s, step) == WithBook(s, Exec(s, step).db.book);
    BookStep(asks, s, Exec(s, step).db.book);
  }

  lemma StepAsked(asks: iset<Step>, s: System, step: Step)
    requires AllAsked(asks, s) && step in asks
    ensures AllAsked(asks, Exec(s, step))
  {
    match step
    case Ask(_, _, _, _, _, _, _) => AskStep(asks, s, step);
    case Begin(rid) => BeginStep(asks, s, rid);
    case Send(rid) => SendStep(asks, s, rid);
    case Execute(key) => ExecuteStep(asks, s, key);
    case Refuse(key) => RefuseStep(asks, s, key);
    case Hear(rid, answer) => HearStep(asks, s, rid, answer);
    case Finish(rid) => FinishStep(asks, s, rid);
    case Fund(_, _) => FundStep(asks, s, step);
    case Crash(rid) => CrashStep(asks, s, rid);
    case OutsideCash(acc, kind, status, amount) => OutsideStep(asks, s, Cash(acc, kind, status, amount, None));
    case _ => PostingStep(asks, s, step);
  }

  lemma {:induction false} RunAsked(asks: iset<Step>, s: System, steps: seq<Step>)
    requires AllAsked(asks, s) && forall i | 0 <= i < |steps| :: steps[i] in asks
    ensures AllAsked(asks, Run(s, steps))
    decreases |steps|
  {
    if steps != [] {
      StepAsked(asks, s, steps[0]);
      RunAsked(asks, Exec(s, steps[0]), steps[1..]);
    }
  }

  // ── every run ──

  ghost function StepsOf(steps: seq<Step>): iset<Step> {
    iset step | step in steps
  }

  /** Step i of the run asked for this, and was asked for at least a cent. */
  ghost predicate AskedAt(steps: seq<Step>, i: nat, idem: string, direction: Direction, acc: Login, t: TraderId,
      amount: int)
  {
    && i < |steps| && steps[i].Ask? && steps[i].idem == idem && steps[i].direction == direction
    && steps[i].account == acc && steps[i].trader == t
    && amount > 0 && amount % CENT == 0 && amount <= steps[i].requested < amount + CENT
  }

  /** In every run a deposit or a withdrawal is what some caller asked for, under his
      key, for that account and trader, and for the whole cents of his amount; a funding
      too. */
  lemma MovementsWereAsked(steps: seq<Step>, m: string) returns (i: nat)
    requires m in Run(Initial, steps).db.moves
    ensures var mv := Run(Initial, steps).db.moves[m];
      if mv.direction.Funding? then
        && i < |steps| && steps[i].Fund? && steps[i].idem == m && mv.amount > 0 && mv.amount % CENT == 0
        && mv.amount <= steps[i].requested < mv.amount + CENT
      else
        && mv.account.Some? && mv.trader.Some?
        && AskedAt(steps, i, m, mv.direction, mv.account.value, mv.trader.value, mv.amount)
  {
    RunAsked(StepsOf(steps), Initial, steps);
    var mv := Run(Initial, steps).db.moves[m];
    assert MovementAsked(StepsOf(steps), m, mv);
    if mv.direction.Funding? {
      var step :| step in StepsOf(steps) && step.Fund? && step.idem == m
        && Normalize(step.requested) == Some(mv.amount);
      i :| 0 <= i < |steps| && steps[i] == step;
    } else {
      i := AskAt(steps, m, mv.direction, mv.account.value, mv.trader.value, mv.amount);
    }
  }

  lemma AskAt(steps: seq<Step>, idem: string, direction: Direction, acc: Login, t: TraderId, amount: int)
      returns (i: nat)
    requires AskedFor(StepsOf(steps), idem, direction, acc, t, amount)
    ensures AskedAt(steps, i, idem, direction, acc, t, amount)
  {
    var step :| step in StepsOf(steps) && step.Ask? && step.idem == idem && step.direction == direction
      && step.account == acc && step.trader == t && Normalize(step.requested) == Some(amount);
    i :| 0 <= i < |steps| && steps[i] == step;
  }

  /** What the engine is sent, and the row it shows once it carries it out, is what some
      caller asked for: his account, the whole cents of his amount, with the sign of the
      money. */
  lemma CallsWereAsked(steps: seq<Step>, k: string) returns (i: nat, m: string, t: TraderId)
    requires k in Run(Initial, steps).calls
    ensures var call := Run(Initial, steps).calls[k];
      EngineKey(m) == k && AskedAt(steps, i, m, call.direction, call.account, t, call.amount)
  {
    RunAsked(StepsOf(steps), Initial, steps);
    var call := Run(Initial, steps).calls[k];
    assert CallAsked(StepsOf(steps), k, call);
    m, t :| EngineKey(m) == k && AskedFor(StepsOf(steps), m, call.direction, call.account, t, call.amount);
    i := AskAt(steps, m, call.direction, call.account, t, call.amount);
  }

  /** The engine's history shows every operation it carried out for us, and each row that
      answers us is such an operation. */
  lemma EngineRowsAreCalls(steps: seq<Step>, n: nat, k: string)
    ensures var s := Run(Initial, steps);
      && (n < |s.cash| ==> RowOfCall(s.calls, s.cash[n]))
      && (k in s.calls && s.calls[k].status.Executed? ==> ShowsIn(s.cash, k))
  {
    RunAsked(StepsOf(steps), Initial, steps);
  }
}
