/** The saga between the local database and the engine, as a state machine. A step
    is one database commit, one message, or one move of the engine; requests
    interleave freely and any of them can die between two of its commits. */
module CapitalProtocol {
  import opened Common
  import opened Ledger
  import opened Capital
  import opened Regularization

  /** What a request learns from the engine: an accepted operation, a rejection
      the service treats as final, or nothing it can rely on. */
  datatype Answer = Done(report: Report) | Refusal | Unknown

  datatype Phase = Checked | Reserved | Waiting | Heard(answer: Answer)

  datatype Request = Request(
    direction: Direction, idem: string, account: Login, trader: TraderId, amount: int, phase: Phase)

  datatype CallStatus = Received | Executed | Refused

  /** An operation as the engine knows it, under the key it was sent. */
  datatype Call = Call(direction: Direction, account: Login, amount: int, status: CallStatus)

  /** A row of the engine's own history; its id is its position. */
  datatype Cash = Cash(account: Login, kind: string, status: string, amount: int, source: Option<string>)

  datatype System = System(
    db: Db, calls: map<string, Call>, cash: seq<Cash>, sent: multiset<string>, requests: map<nat, Request>)

  datatype Step =
    | Ask(rid: nat, direction: Direction, idem: string, account: Login, trader: TraderId, requested: int,
          seesFlight: bool)
    | Begin(rid: nat)
    | Send(rid: nat)
    | Execute(key: string)
    | Refuse(key: string)
    | Hear(rid: nat, answer: Answer)
    | Finish(rid: nat)
    | Crash(rid: nat)
    | OutsideCash(account: Login, kind: string, status: string, amount: int)
    | Regularize(account: Login, trader: TraderId, listing: seq<nat>, includeInternal: bool, write: bool)
    | Fund(idem: string, requested: int)
    | Credit(hash: string, onchain: nat)
    | Fee(pid: int, trader: TraderId, charged: nat)

  const Initial := System(Db(EmptyBook, map[]), map[], [], multiset{}, map[])

  /** The client strips the key before it travels. */
  function EngineKey(idem: string): string {
    Strip(idem)
  }

  predicate HasMovements(moves: map<string, Movement>, acc: Login) {
    exists m | m in moves :: moves[m].account == Some(acc)
  }

  function Listed(cash: seq<Cash>, listing: seq<nat>): seq<CashRow>
    requires forall i | 0 <= i < |listing| :: listing[i] < |cash|
  {
    seq(|listing|, i requires 0 <= i < |listing| =>
      var c := cash[listing[i]]; CashRow(c.kind, c.status, Some(c.amount), Some(listing[i])))
  }

  // ── the steps ──

  /** The early reads: a used key answers the caller at once, and a pending
      movement on the account does too when the limited listing shows it. */
  function DoAsk(s: System, step: Step): System
    requires step.Ask?
  {
    var amount := Normalize(step.requested);
    if step.rid in s.requests || step.direction.Funding? || step.idem == "" || amount.None? then s
    else if step.idem in s.db.moves then s
    else if step.seesFlight && PendingOn(s.db.moves, step.account) then s
    else
      var r := Request(step.direction, step.idem, step.account, step.trader, amount.value, Checked);
      s.(requests := s.requests[step.rid := r])
  }

  function Opening(db: Db, r: Request): Result<Db, CapitalError> {
    if r.direction.Deposit? then ReserveDeposit(db, r.idem, r.account, r.trader, r.amount)
    else OpenWithdrawal(db, r.idem, r.account, r.trader, r.amount)
  }

  function DoBegin(s: System, rid: nat): System {
    if rid !in s.requests || !s.requests[rid].phase.Checked? then s
    else
      var r := s.requests[rid];
      match Opening(s.db, r)
      case Ok(db) => s.(db := db, requests := s.requests[rid := r.(phase := Reserved)])
      case Err(_) => s.(requests := s.requests - {rid})
  }

  /** The call leaves after the first commit. An empty key never leaves; a key the
      engine has seen before changes nothing there. */
  function DoSend(s: System, rid: nat): System {
    if rid !in s.requests || !s.requests[rid].phase.Reserved? then s
    else
      var r := s.requests[rid];
      var key := EngineKey(r.idem);
      if key == "" then s.(requests := s.requests[rid := r.(phase := Heard(Refusal))])
      else
        s.(sent := s.sent + multiset{r.idem},
           calls := if key in s.calls then s.calls
                    else s.calls[key := Call(r.direction, r.account, r.amount, Received)],
           requests := s.requests[rid := r.(phase := Waiting)])
  }

  /** The engine carries an operation out whenever it wants, even after the caller
      gave up; it shows in its history as a row of its own. */
  function DoExecute(s: System, key: string): System {
    if key !in s.calls || !s.calls[key].status.Received? then s
    else
      var c := s.calls[key];
      var row := if c.direction.Deposit? then Cash(c.account, "DEPOSIT", "EXECUTED", c.amount, Some(key))
                 else Cash(c.account, "WITHDRAWAL", "EXECUTED", -c.amount, Some(key));
      s.(calls := s.calls[key := c.(status := Executed)], cash := s.cash + [row])
  }

  function DoRefuse(s: System, key: string): System {
    if key !in s.calls || !s.calls[key].status.Received? then s
    else s.(calls := s.calls[key := s.calls[key].(status := Refused)])
  }

  /** An acceptance is heard only of an executed operation, a final rejection only
      of a refused one; a timeout can hide either. */
  predicate Hearable(s: System, key: string, answer: Answer) {
    match answer
    case Done(_) => key in s.calls && s.calls[key].status.Executed?
    case Refusal => key in s.calls && s.calls[key].status.Refused?
    case Unknown => true
  }

  function DoHear(s: System, rid: nat, answer: Answer): System {
    if rid !in s.requests || !s.requests[rid].phase.Waiting? then s
    else if !Hearable(s, EngineKey(s.requests[rid].idem), answer) then s
    else s.(requests := s.requests[rid := s.requests[rid].(phase := Heard(answer))])
  }

  /** The last commit; a posting that fails rolls back and leaves the movement as
      it was. */
  function Closing(db: Db, r: Request): Db
    requires r.phase.Heard? && Tracked(db, r)
  {
    if r.phase.answer.Unknown? then MarkAmbiguous(db, r.idem)
    else if r.direction.Deposit? then
      match r.phase.answer
      case Refusal => AbortDeposit(db, r.idem)
      case Done(report) =>
        var o := SettleDeposit(db, r.idem, report.amount);
        if o.Ok? then o.value else db
    else
      match r.phase.answer
      case Refusal => FailWithdrawal(db, r.idem)
      case Done(report) =>
        var o := BookWithdrawal(db, r.idem, report);
        if o.Ok? then o.value else db
  }

  /** The movement a request past its first commit stands for. */
  predicate Tracked(db: Db, r: Request) {
    && r.idem in db.moves
    && var mv := db.moves[r.idem];
       && mv.direction == r.direction && !mv.direction.Funding? && mv.status.InFlight?
       && mv.account == Some(r.account) && mv.trader == Some(r.trader) && mv.amount == r.amount
       && (mv.direction.Deposit? ==> mv.ledgerTx.Some?)
  }

  function DoFinish(s: System, rid: nat): System {
    if rid !in s.requests || !s.requests[rid].phase.Heard? || !Tracked(s.db, s.requests[rid]) then s
    else s.(db := Closing(s.db, s.requests[rid]), requests := s.requests - {rid})
  }

  function DoRegularize(s: System, step: Step): System
    requires step.Regularize?
  {
    if step.includeInternal && HasMovements(s.db.moves, step.account) then s
    else if exists i | 0 <= i < |step.listing| ::
        step.listing[i] >= |s.cash| || s.cash[step.listing[i]].account != step.account then s
    else
      var items := Select(Listed(s.cash, step.listing), step.includeInternal);
      var sweep := SweepAll(s.db.book, step.trader, items, step.write);
      s.(db := s.db.(book := Committed(s.db.book, sweep)))
  }

  function DoFund(s: System, idem: string, requested: int): System {
    var o := FundMaster(s.db, idem, requested);
    if o.Ok? then s.(db := o.value) else s
  }

  function WithBook(s: System, b: Book): System {
    s.(db := s.db.(book := b))
  }

  function DoPost(s: System, o: Outcome): System {
    if o.result.Ok? then WithBook(s, o.book) else s
  }

  function Exec(s: System, step: Step): System {
    match step
    case Ask(_, _, _, _, _, _, _) => DoAsk(s, step)
    case Begin(rid) => DoBegin(s, rid)
    case Send(rid) => DoSend(s, rid)
    case Execute(key) => DoExecute(s, key)
    case Refuse(key) => DoRefuse(s, key)
    case Hear(rid, answer) => DoHear(s, rid, answer)
    case Finish(rid) => DoFinish(s, rid)
    case Crash(rid) => s.(requests := s.requests - {rid})
    case OutsideCash(acc, kind, status, amount) => s.(cash := s.cash + [Cash(acc, kind, status, amount, None)])
    case Regularize(_, _, _, _, _) => DoRegularize(s, step)
    case Fund(idem, requested) => DoFund(s, idem, requested)
    case Credit(hash, onchain) => DoPost(s, Ledger.FundMasterAccount(s.db.book, onchain, CryptoKey(hash)))
    case Fee(pid, t, amount) => DoPost(s, PostPerfFee(s.db.book, t, amount, FeeKey(pid)))
  }

  function Run(s: System, steps: seq<Step>): System {
    Fold(Exec, s, steps)
  }
}
