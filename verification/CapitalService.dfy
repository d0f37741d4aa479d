/** The capital service as the program has it: movements and ledger rows updated
    in place between commits. Each commit is proved to be the function of Capital
    it stands for, a request that nothing interrupts to be the corresponding run
    of the protocol, and the sweep's two loops to be the sweep. */
module CapitalServices {
  import opened Common
  import opened Ledger
  import opened Capital
  import opened Regularization
  import opened CapitalProtocol
  import opened CapitalInvariants
  import opened CapitalOutcomes
  import opened LedgerInvariants
  import opened LedgerAnswers
  import opened LedgerTheorems
  import opened RegularizationAnswers
  import opened LedgerServices

  datatype SweepReport = SweepReport(found: nat, already: nat, posted: nat, net: int)

  datatype SweepError = LocalMovementsExist | PostingFailed(error: LedgerError)

  // ── a request from its first read to its last commit ──

  /** The database after a request that nothing interrupts. */
  function Served(db: Db, direction: Direction, idem: string, acc: Login, t: TraderId, requested: int,
      seesFlight: bool, answer: Answer): Db
    requires !direction.Funding?
  {
    if Stops(db, idem, acc, requested, seesFlight) then db
    else
      var r := Request(direction, idem, acc, t, Normalize(requested).value, Checked);
      match Opening(db, r)
      case Err(_) => db
      case Ok(q) =>
        OpeningTracks(db, r);
        Closing(q, r.(phase := Heard(if EngineKey(idem) == "" then Refusal else answer)))
  }

  /** The request past its first commit, once its answer is heard. */
  function Answered(direction: Direction, idem: string, acc: Login, t: TraderId, requested: int, answer: Answer)
      : Request
  {
    Request(direction, idem, acc, t, Cents(requested), Heard(HeardBy(idem, answer)))
  }

  lemma ServedStops(db: Db, direction: Direction, idem: string, acc: Login, t: TraderId, requested: int,
        seesFlight: bool, answer: Answer)
    requires !direction.Funding?
    requires Stops(db, idem, acc, requested, seesFlight)
          || Opening(db, Answered(direction, idem, acc, t, requested, answer)).Err?
    ensures Served(db, direction, idem, acc, t, requested, seesFlight, answer) == db
  {
  }

  lemma AnsweredIs(direction: Direction, idem: string, acc: Login, t: TraderId, requested: int, answer: Answer)
    requires requested >= CENT
    ensures Answered(direction, idem, acc, t, requested, answer)
         == Request(direction, idem, acc, t, Normalize(requested).value,
                    Heard(if EngineKey(idem) == "" then Refusal else answer))
  {
  }

  lemma ServedCloses(db: Db, direction: Direction, idem: string, acc: Login, t: TraderId, requested: int,
        seesFlight: bool, answer: Answer)
    requires !direction.Funding? && !Stops(db, idem, acc, requested, seesFlight)
    requires Opening(db, Answered(direction, idem, acc, t, requested, answer)).Ok?
    ensures var r := Answered(direction, idem, acc, t, requested, answer);
      && Tracked(Opening(db, r).value, r)
      && Served(db, direction, idem, acc, t, requested, seesFlight, answer) == Closing(Opening(db, r).value, r)
  {
    AnsweredIs(direction, idem, acc, t, requested, answer);
    OpeningTracks(db, Answered(direction, idem, acc, t, requested, answer));
  }

  lemma DepositClosesAnswered(db: Db, idem: string, acc: Login, t: TraderId, requested: int, answer: Answer)
    requires DbInv(db) && requested >= CENT
    requires var r := Answered(Deposit, idem, acc, t, requested, answer);
      Opening(db, r).Ok? && Tracked(Opening(db, r).value, r)
    ensures var r := Answered(Deposit, idem, acc, t, requested, answer);
      var q := Closing(Opening(db, r).value, r);
      DbInv(q) && DepositEnds(db, q, idem, acc, t, Cents(requested), HeardBy(idem, answer))
  {
    var r := Answered(Deposit, idem, acc, t, requested, answer);
    Reserves(db, idem, acc, t, Cents(requested));
    DepositCloses(db, Opening(db, r).value, r);
  }

  /** A deposit served ends as its outcome says. */
  lemma DepositServed(db: Db, idem: string, acc: Login, t: TraderId, requested: int, seesFlight: bool, answer: Answer)
    requires DbInv(db)
    ensures DepositOutcome(db, Served(db, Deposit, idem, acc, t, requested, seesFlight, answer), idem, acc, t,
                           requested, answer)
  {
    if requested >= CENT {
      DepositBeginsIff(db, idem, acc, t, requested);
    }
    if DepositBegins(db, idem, acc, requested) {
      ServedCloses(db, Deposit, idem, acc, t, requested, seesFlight, answer);
      DepositClosesAnswered(db, idem, acc, t, requested, answer);
    } else {
      ServedStops(db, Deposit, idem, acc, t, requested, seesFlight, answer);
    }
  }

  lemma WithdrawalClosesAnswered(db: Db, idem: string, acc: Login, t: TraderId, requested: int, answer: Answer)
    requires DbInv(db) && requested >= CENT
    requires var r := Answered(Withdrawal, idem, acc, t, requested, answer);
      Opening(db, r).Ok? && Tracked(Opening(db, r).value, r)
    ensures var r := Answered(Withdrawal, idem, acc, t, requested, answer);
      var q := Closing(Opening(db, r).value, r);
      DbInv(q) && WithdrawalEnds(db, q, idem, acc, t, Cents(requested), HeardBy(idem, answer))
  {
    var r := Answered(Withdrawal, idem, acc, t, requested, answer);
    OpensFor(db, idem, acc, t, Cents(requested));
    WithdrawalCloses(db, Opening(db, r).value, r);
  }

  lemma WithdrawalBeginsIff(db: Db, idem: string, acc: Login, t: TraderId, requested: int)
    requires requested >= CENT
    ensures WithdrawalBegins(db, idem, acc, requested)
       <==> OpenWithdrawal(db, idem, acc, t, Cents(requested)).Ok?
  {
  }

  lemma WithdrawalServed(db: Db, idem: string, acc: Login, t: TraderId, requested: int, seesFlight: bool,
        answer: Answer)
    requires DbInv(db)
    ensures WithdrawalOutcome(db, Served(db, Withdrawal, idem, acc, t, requested, seesFlight, answer), idem, acc, t,
                              requested, answer)
  {
    if requested >= CENT {
      WithdrawalBeginsIff(db, idem, acc, t, requested);
    }
    if WithdrawalBegins(db, idem, acc, requested) {
      ServedCloses(db, Withdrawal, idem, acc, t, requested, seesFlight, answer);
      WithdrawalClosesAnswered(db, idem, acc, t, requested, answer);
    } else {
      ServedStops(db, Withdrawal, idem, acc, t, requested, seesFlight, answer);
    }
  }

  /** A deposit past the early reads: denied, or reserved and closed as answered. */
  predicate DepositRan(db: Db, q: Db, idem: string, acc: Login, t: TraderId, amount: int, answer: Answer,
      reply: Result<Movement, RequestError>)
  {
    match ReserveDeposit(db, idem, acc, t, amount)
    case Err(e) => q == db && reply == Err(Denied(e))
    case Ok(held) =>
      var r := Request(Deposit, idem, acc, t, amount, Heard(HeardBy(idem, answer)));
      && Tracked(held, r) && q == Closing(held, r)
      && match r.phase.answer
         case Refusal => reply == Err(EngineRefused)
         case Unknown => reply == Err(Uncertain)
         case Done(report) =>
           SettleDeposit(held, idem, report.amount).Ok? ==> idem in q.moves && reply == Ok(q.moves[idem])
  }

  lemma RanIsServed(db: Db, q: Db, idem: string, acc: Login, t: TraderId, requested: int, seesFlight: bool,
        answer: Answer, reply: Result<Movement, RequestError>)
    requires !Stops(db, idem, acc, requested, seesFlight)
    requires DepositRan(db, q, idem, acc, t, Cents(requested), answer, reply)
    ensures q == Served(db, Deposit, idem, acc, t, requested, seesFlight, answer)
  {
    if ReserveDeposit(db, idem, acc, t, Cents(requested)).Ok? {
      ServedCloses(db, Deposit, idem, acc, t, requested, seesFlight, answer);
    } else {
      ServedStops(db, Deposit, idem, acc, t, requested, seesFlight, answer);
    }
  }

  lemma DepositReplies(db: Db, q: Db, idem: string, acc: Login, t: TraderId, requested: int, seesFlight: bool,
        answer: Answer, reply: Result<Movement, RequestError>)
    requires DbInv(db) && requested >= CENT && idem !in db.moves && !(seesFlight && PendingOn(db.moves, acc))
    requires DepositRan(db, q, idem, acc, t, Cents(requested), answer, reply)
    ensures reply == Reply(db, q, idem, acc, requested, Cents(requested) <= FreeFunds(db.book), seesFlight, answer)
  {
    ReserveAnswers(db, idem, acc, t, Cents(requested));
    if ReserveDeposit(db, idem, acc, t, Cents(requested)).Ok? {
      DepositRuns(db, q, idem, acc, t, Cents(requested), answer, reply);
    }
  }

  lemma DepositRuns(db: Db, q: Db, idem: string, acc: Login, t: TraderId, amount: int, answer: Answer,
        reply: Result<Movement, RequestError>)
    requires DbInv(db) && amount > 0 && ReserveDeposit(db, idem, acc, t, amount).Ok?
    requires DepositRan(db, q, idem, acc, t, amount, answer, reply)
    ensures idem in q.moves && reply == (match HeardBy(idem, answer)
                                         case Done(_) => Ok(q.moves[idem])
                                         case Refusal => Err(EngineRefused)
                                         case Unknown => Err(Uncertain))
  {
    var held := ReserveDeposit(db, idem, acc, t, amount).value;
    Reserves(db, idem, acc, t, amount);
    DepositCloses(db, held, Request(Deposit, idem, acc, t, amount, Heard(HeardBy(idem, answer))));
    if HeardBy(idem, answer).Done? {
      Settles(held, idem, acc, t, amount, HeardBy(idem, answer).report);
    }
  }

  lemma WithdrawalAnswers(db: Db, idem: string, acc: Login, t: TraderId, requested: int, answer: Answer)
    requires DbInv(db) && requested >= CENT && idem !in db.moves
    ensures var o := OpenWithdrawal(db, idem, acc, t, Cents(requested));
      && (if FlightOn(db, acc) then o == Err(IntegrityError) else o.Ok?)
      && (o.Ok? && HeardBy(idem, answer).Done? ==>
            && idem in o.value.moves && o.value.moves[idem].trader.Some?
            && BookWithdrawal(o.value, idem, HeardBy(idem, answer).report).Ok?)
  {
    if !FlightOn(db, acc) && HeardBy(idem, answer).Done? {
      OpensFor(db, idem, acc, t, Cents(requested));
      WithdrawalBooked(db, OpenWithdrawal(db, idem, acc, t, Cents(requested)).value, idem, acc, t, Cents(requested),
                       HeardBy(idem, answer).report);
    }
  }

  lemma OpeningTracks(db: Db, r: Request)
    requires !r.direction.Funding? && Opening(db, r).Ok?
    ensures Tracked(Opening(db, r).value, r)
  {
  }

  /** The protocol's steps for one request, in the order the service takes them. */
  function Uninterrupted(rid: nat, direction: Direction, idem: string, acc: Login, t: TraderId, requested: int,
      seesFlight: bool, answer: Answer): seq<Step>
  {
    [Ask(rid, direction, idem, acc, t, requested, seesFlight), Begin(rid), Send(rid), Hear(rid, answer), Finish(rid)]
  }

  /** After the first commit and the call, the request waits for its answer, or has
      been turned down by the client because its key is empty. */
  lemma OpenedRequestWaits(s: System, rid: nat, r: Request)
    requires rid in s.requests && s.requests[rid] == r && r.phase.Checked? && Opening(s.db, r).Ok?
    ensures var q := DoSend(DoBegin(s, rid), rid);
      && q.db == Opening(s.db, r).value && rid in q.requests
      && q.requests[rid] == r.(phase := if EngineKey(r.idem) == "" then Heard(Refusal) else Waiting)
  {
  }

  lemma WaitingRequestCloses(s: System, rid: nat, r: Request, answer: Answer)
    requires rid in s.requests && s.requests[rid] == r.(phase := Waiting) && Tracked(s.db, r)
    requires Hearable(s, EngineKey(r.idem), answer)
    ensures DoFinish(DoHear(s, rid, answer), rid).db == Closing(s.db, r.(phase := Heard(answer)))
  {
  }

  /** What an early read decides. */
  predicate Stops(db: Db, idem: string, acc: Login, requested: int, seesFlight: bool) {
    Normalize(requested).None? || idem in db.moves || (seesFlight && PendingOn(db.moves, acc))
  }

  lemma StoppedRequest(s: System, ask: Step, answer: Answer)
    requires ask.Ask? && ask.rid !in s.requests && Stops(s.db, ask.idem, ask.account, ask.requested, ask.seesFlight)
    ensures DoAsk(s, ask) == s
    ensures DoFinish(DoHear(DoSend(DoBegin(s, ask.rid), ask.rid), ask.rid, answer), ask.rid) == s
  {
  }

  lemma RefusedRequest(s: System, rid: nat, answer: Answer)
    requires rid in s.requests && s.requests[rid].phase.Checked? && Opening(s.db, s.requests[rid]).Err?
    ensures DoFinish(DoHear(DoSend(DoBegin(s, rid), rid), rid, answer), rid).db == s.db
  {
  }

  lemma TurnedDownRequest(s: System, rid: nat, r: Request, answer: Answer)
    requires rid in s.requests && s.requests[rid] == r.(phase := Heard(Refusal)) && Tracked(s.db, r)
    ensures DoFinish(DoHear(s, rid, answer), rid).db == Closing(s.db, r.(phase := Heard(Refusal)))
  {
  }

  /** A request of the service is a run of the protocol. */
  lemma ServedIsARun(s: System, rid: nat, direction: Direction, idem: string, acc: Login, t: TraderId, requested: int,
      seesFlight: bool, answer: Answer)
    requires rid !in s.requests && !direction.Funding? && idem != ""
    requires EngineKey(idem) != "" ==>
      Hearable(Run(s, Uninterrupted(rid, direction, idem, acc, t, requested, seesFlight, answer)[..3]),
               EngineKey(idem), answer)
    ensures Run(s, Uninterrupted(rid, direction, idem, acc, t, requested, seesFlight, answer)).db
         == Served(s.db, direction, idem, acc, t, requested, seesFlight, answer)
  {
    var ask := Ask(rid, direction, idem, acc, t, requested, seesFlight);
    FoldFive(Exec, s, ask, Begin(rid), Send(rid), Hear(rid, answer), Finish(rid));
    if Stops(s.db, idem, acc, requested, seesFlight) {
      StoppedRequest(s, ask, answer);
    } else {
      var r := Request(direction, idem, acc, t, Normalize(requested).value, Checked);
      var s1 := s.(requests := s.requests[rid := r]);
      assert DoAsk(s, ask) == s1;
      GrantedIsARun(s1, rid, r, answer);
    }
  }

  lemma GrantedIsARun(s: System, rid: nat, r: Request, answer: Answer)
    requires rid in s.requests && s.requests[rid] == r && r.phase.Checked? && !r.direction.Funding?
    requires EngineKey(r.idem) != "" ==> Hearable(DoSend(DoBegin(s, rid), rid), EngineKey(r.idem), answer)
    ensures Opening(s.db, r).Ok? ==> Tracked(Opening(s.db, r).value, r)
    ensures DoFinish(DoHear(DoSend(DoBegin(s, rid), rid), rid, answer), rid).db
         == if Opening(s.db, r).Err? then s.db
            else
              var heard := if EngineKey(r.idem) == "" then Refusal else answer;
              Closing(Opening(s.db, r).value, r.(phase := Heard(heard)))
  {
    if Opening(s.db, r).Err? {
      RefusedRequest(s, rid, answer);
    } else {
      OpeningTracks(s.db, r);
      OpenedRequestWaits(s, rid, r);
      var s3 := DoSend(DoBegin(s, rid), rid);
      if EngineKey(r.idem) != "" {
        WaitingRequestCloses(s3, rid, r, answer);
      } else {
        TurnedDownRequest(s3, rid, r, answer);
      }
    }
  }

  class MamCapitalService {
    const ledger: LedgerService
    var movements: map<string, Movement>

    function Db(): Capital.Db
      reads this, ledger
    {
      Capital.Db(ledger.Book(), movements)
    }

    constructor (db: Capital.Db)
      ensures Db() == db && fresh(ledger)
    {
      movements := db.moves;
      ledger := new LedgerService(db.book);
    }

    // ── deposit ──

    method Reserve(idem: string, acc: Login, t: TraderId, amount: int) returns (r: Result<nat, CapitalError>)
      modifies this, ledger
      ensures match ReserveDeposit(old(Db()), idem, acc, t, amount)
              case Ok(db) => Db() == db && r.Ok? && movements[idem].ledgerTx == Some(r.value)
              case Err(e) => Db() == old(Db()) && r == Err(e)
    {
      var before := ledger.Book();
      if Conflicts(movements, idem, acc) {
        return Err(IntegrityError);
      }
      var hold := ledger.CreateDepositHold(t, amount, LdgKey(idem));
      if hold.Err? {
        ledger.Restore(before);
        return match hold.error
          case InsufficientMasterAccount => Err(InsufficientFunds)
          case DuplicateKey => Err(IntegrityError)
          case _ => Err(LedgerInconsistent);
      }
      var mv := Movement(Deposit, Some(acc), Some(t), amount, InFlight, Some(hold.value), 0, 0, false);
      movements := movements[idem := mv];
      return Ok(hold.value);
    }

    method Settle(idem: string, reported: Option<int>) returns (r: Result<Movement, CapitalError>)
      requires idem in movements && movements[idem].ledgerTx.Some?
      modifies this, ledger
      ensures match SettleDeposit(old(Db()), idem, reported)
              case Ok(db) => Db() == db && r == Ok(movements[idem])
              case Err(e) => Db() == old(Db()) && r == Err(e)
    {
      var before := ledger.Book();
      var mv := movements[idem];
      var posted := ledger.CommitDeposit(mv.ledgerTx.value);
      if posted.Err? {
        ledger.Restore(before);
        return Err(LedgerInconsistent);
      }
      movements := movements[idem := mv.(status := Completed, effective := Or(reported, mv.amount))];
      return Ok(movements[idem]);
    }

    method Release(idem: string)
      requires idem in movements && movements[idem].ledgerTx.Some?
      modifies this, ledger
      ensures Db() == AbortDeposit(old(Db()), idem)
    {
      var _ := ledger.ReleaseDeposit(movements[idem].ledgerTx.value);
      movements := movements[idem := movements[idem].(status := MovementStatus.Failed)];
    }

    method LeaveAmbiguous(idem: string)
      requires idem in movements
      modifies this
      ensures Db() == MarkAmbiguous(old(Db()), idem)
    {
      movements := movements[idem := movements[idem].(status := Ambiguous)];
    }

    /** The last commit of a deposit, whatever the answer. */
    method CloseDeposit(r: Request) returns (reply: Result<Movement, RequestError>)
      requires r.phase.Heard? && r.direction.Deposit? && Tracked(Db(), r)
      modifies this, ledger
      ensures Db() == Closing(old(Db()), r)
      ensures match r.phase.answer
              case Refusal => reply == Err(EngineRefused)
              case Unknown => reply == Err(Uncertain)
              case Done(report) =>
                SettleDeposit(old(Db()), r.idem, report.amount).Ok? ==>
                  r.idem in movements && reply == Ok(movements[r.idem])
    {
      match r.phase.answer {
        case Refusal =>
          Release(r.idem);
          return Err(EngineRefused);
        case Unknown =>
          LeaveAmbiguous(r.idem);
          return Err(Uncertain);
        case Done(report) =>
          var settled := Settle(r.idem, report.amount);
          return if settled.Ok? then Ok(settled.value) else Err(Denied(settled.error));
      }
    }

    /** A deposit, given what the engine answers and whether the early listing shows
        the movement in flight. */
    method DepositCapital(idem: string, acc: Login, t: TraderId, requested: int, seesFlight: bool, answer: Answer)
        returns (reply: Result<Movement, RequestError>)
      modifies this, ledger
      ensures Db() == Served(old(Db()), Deposit, idem, acc, t, requested, seesFlight, answer)
      ensures DbInv(old(Db())) ==>
        && DepositOutcome(old(Db()), Db(), idem, acc, t, requested, answer)
        && reply == Reply(old(Db()), Db(), idem, acc, requested, Cents(requested) <= FreeFunds(old(Db()).book),
                          seesFlight, answer)
    {
      ghost var before := Db();
      if Stops(before, idem, acc, requested, seesFlight) {
        ServedStops(before, Deposit, idem, acc, t, requested, seesFlight, answer);
      }
      var amount := Normalize(requested);
      if amount.None? {
        reply := Err(AmountInvalid);
      } else if idem in movements {
        reply := Ok(movements[idem]);
      } else if seesFlight && PendingOn(movements, acc) {
        reply := Err(OperationInFlight);
      } else {
        reply := RunDeposit(idem, acc, t, amount.value, answer);
        RanIsServed(before, Db(), idem, acc, t, requested, seesFlight, answer, reply);
        if DbInv(before) {
          DepositReplies(before, Db(), idem, acc, t, requested, seesFlight, answer, reply);
        }
      }
      if DbInv(before) {
        DepositServed(before, idem, acc, t, requested, seesFlight, answer);
      }
    }

    /** Past the early reads: the hold, and the last commit once the engine answered. */
    method RunDeposit(idem: string, acc: Login, t: TraderId, amount: int, answer: Answer)
        returns (reply: Result<Movement, RequestError>)
      modifies this, ledger
      ensures DepositRan(old(Db()), Db(), idem, acc, t, amount, answer, reply)
    {
      var hold := Reserve(idem, acc, t, amount);
      if hold.Err? {
        return Err(Denied(hold.error));
      }
      var heard := if EngineKey(idem) == "" then Refusal else answer;
      reply := CloseDeposit(Request(Deposit, idem, acc, t, amount, Heard(heard)));
    }

    // ── withdrawal ──

    method Open(idem: string, acc: Login, t: TraderId, amount: int) returns (r: Result<(), CapitalError>)
      modifies this
      ensures match OpenWithdrawal(old(Db()), idem, acc, t, amount)
              case Ok(db) => Db() == db && r.Ok?
              case Err(e) => Db() == old(Db()) && r == Err(e)
    {
      if Conflicts(movements, idem, acc) {
        return Err(IntegrityError);
      }
      movements := movements[idem := Movement(Withdrawal, Some(acc), Some(t), amount, InFlight, None, 0, 0, false)];
      return Ok(());
    }

    method FailOpen(idem: string)
      requires idem in movements
      modifies this
      ensures Db() == FailWithdrawal(old(Db()), idem)
    {
      movements := movements[idem := movements[idem].(status := MovementStatus.Failed)];
    }

    method BookReturn(idem: string, report: Report) returns (r: Result<Movement, CapitalError>)
      requires idem in movements && movements[idem].trader.Some?
      modifies this, ledger
      ensures match BookWithdrawal(old(Db()), idem, report)
              case Ok(db) => Db() == db && r == Ok(movements[idem])
              case Err(e) => Db() == old(Db()) && r == Err(e)
    {
      var before := ledger.Book();
      var mv := movements[idem];
      var t := mv.trader.value;
      mv := mv.(effective := Or(report.amount, mv.amount), fee := Or(report.fee, 0), reused := report.reused);
      if report.reused {
        movements := movements[idem := mv.(status := Completed)];
        return Ok(movements[idem]);
      }
      if mv.effective <= 0 {
        movements := movements[idem := mv.(status := Rejected)];
        return Ok(movements[idem]);
      }
      var posted := ledger.PostWithdrawal(t, mv.effective, LdgKey(idem));
      if posted.Ok? && mv.fee > 0 {
        var charged := ledger.PostPerfFee(t, mv.fee, PfKey(idem));
        if charged.Err? {
          posted := Err(charged.error);
        }
      }
      if posted.Err? {
        ledger.Restore(before);
        return Err(LedgerInconsistent);
      }
      movements := movements[idem := mv.(status := Completed, ledgerTx := Some(posted.value))];
      return Ok(movements[idem]);
    }

    /** The last commit of a withdrawal, whatever the answer. */
    method CloseWithdrawal(r: Request) returns (reply: Result<Movement, RequestError>)
      requires r.phase.Heard? && r.direction.Withdrawal? && Tracked(Db(), r)
      modifies this, ledger
      ensures Db() == Closing(old(Db()), r)
      ensures match r.phase.answer
              case Refusal => reply == Err(EngineRefused)
              case Unknown => reply == Err(Uncertain)
              case Done(report) =>
                BookWithdrawal(old(Db()), r.idem, report).Ok? ==>
                  r.idem in movements && reply == Ok(movements[r.idem])
    {
      match r.phase.answer {
        case Refusal =>
          FailOpen(r.idem);
          return Err(EngineRefused);
        case Unknown =>
          LeaveAmbiguous(r.idem);
          return Err(Uncertain);
        case Done(report) =>
          var booked := BookReturn(r.idem, report);
          return if booked.Ok? then Ok(booked.value) else Err(Denied(booked.error));
      }
    }

    method WithdrawCapital(idem: string, acc: Login, t: TraderId, requested: int, seesFlight: bool, answer: Answer)
        returns (reply: Result<Movement, RequestError>)
      modifies this, ledger
      ensures Db() == Served(old(Db()), Withdrawal, idem, acc, t, requested, seesFlight, answer)
      ensures DbInv(old(Db())) ==>
        && WithdrawalOutcome(old(Db()), Db(), idem, acc, t, requested, answer)
        && reply == Reply(old(Db()), Db(), idem, acc, requested, true, seesFlight, answer)
    {
      ghost var before := Db();
      if DbInv(before) {
        WithdrawalServed(before, idem, acc, t, requested, seesFlight, answer);
      }
      var amount := Normalize(requested);
      if amount.None? {
        return Err(AmountInvalid);
      }
      if idem in movements {
        return Ok(movements[idem]);
      }
      if seesFlight && PendingOn(movements, acc) {
        return Err(OperationInFlight);
      }
      if DbInv(before) {
        WithdrawalAnswers(before, idem, acc, t, requested, answer);
      }
      var started := Open(idem, acc, t, amount.value);
      if started.Err? {
        return Err(Denied(started.error));
      }
      var heard := if EngineKey(idem) == "" then Refusal else answer;
      reply := CloseWithdrawal(Request(Withdrawal, idem, acc, t, amount.value, Heard(heard)));
    }

    // ── funding ──

    /** `TraderService.fund_master_account` and its commit. */
    method FundMaster(idem: string, requested: int) returns (r: Result<Movement, CapitalError>)
      modifies this, ledger
      ensures match Capital.FundMaster(old(Db()), idem, requested)
              case Ok(db) => Db() == db && idem in movements && r == Ok(movements[idem])
              case Err(e) => Db() == old(Db()) && r == Err(e)
      ensures DbInv(old(Db())) ==>
        (r.Ok? <==> requested >= CENT) && FundingOutcome(old(Db()), Db(), idem, requested)
    {
      ghost var start := Db();
      if DbInv(start) {
        FundingServes(start, idem, requested);
      }
      var before := ledger.Book();
      var amount := Normalize(requested);
      if amount.None? {
        return Err(LedgerInconsistent);
      }
      if idem in movements {
        return Ok(movements[idem]);
      }
      var posted := ledger.FundMasterAccount(amount.value, LdgKey(idem));
      if posted.Err? {
        ledger.Restore(before);
        return Err(if posted.error.DuplicateKey? then IntegrityError else LedgerInconsistent);
      }
      var mv := Movement(Funding, None, None, amount.value, Completed, Some(posted.value), 0, 0, false);
      movements := movements[idem := mv];
      return Ok(movements[idem]);
    }

    // ── regularization ──

    /** The rows a sweep takes, one after another. */
    method SelectItems(rows: seq<CashRow>, includeInternal: bool) returns (items: seq<Item>)
      ensures items == Select(rows, includeInternal)
    {
      items := [];
      for i := 0 to |rows|
        invariant items == Select(rows[..i], includeInternal)
      {
        assert rows[..i + 1][..i] == rows[..i];
        var picked := Pick(rows[i], includeInternal);
        if picked.Some? {
          items := items + [picked.value];
        }
      }
      assert rows[..|rows|] == rows;
    }

    /** One item of the posting loop. */
    method SweepItem(t: TraderId, item: Item, write: bool, posted: nat, already: nat, net: int)
        returns (p: nat, a: nat, n: int, failure: Option<LedgerError>)
      modifies ledger
      ensures SweepOne(Sweep(old(ledger.Book()), posted, already, net, None), t, item, write)
           == Sweep(ledger.Book(), p, a, n, failure)
    {
      p, a, n, failure := posted, already, net, None;
      if IsPosted(ledger.Book(), RegKey(item.id)) {
        a := a + 1;
      } else if !write {
        n := n + Signed(item);
      } else {
        var o := ledger.PostCapitalRegularization(t, item.amount, RegKey(item.id), item.incoming);
        if o.Err? {
          failure := Some(o.error);
        } else {
          p, n := p + 1, n + Signed(item);
        }
      }
    }

    /** The posting loop; it stops at the first posting that fails. */
    method SweepItems(t: TraderId, items: seq<Item>, write: bool)
        returns (posted: nat, already: nat, net: int, failure: Option<LedgerError>)
      modifies ledger
      ensures SweepAll(old(ledger.Book()), t, items, write) == Sweep(ledger.Book(), posted, already, net, failure)
    {
      ghost var before := ledger.Book();
      posted, already, net, failure := 0, 0, 0, None;
      for i := 0 to |items|
        invariant failure.None?
        invariant SweepAll(before, t, items[..i], write) == Sweep(ledger.Book(), posted, already, net, None)
      {
        SweepNext(before, t, items, i, write);
        posted, already, net, failure := SweepItem(t, items[i], write, posted, already, net);
        if failure.Some? {
          FailureStays(before, t, items, i + 1, write);
          return;
        }
      }
      assert items[..|items|] == items;
    }

    method Regularize(acc: Login, t: TraderId, rows: seq<CashRow>, includeInternal: bool, write: bool)
        returns (r: Result<SweepReport, SweepError>)
      modifies ledger
      ensures includeInternal && HasMovements(movements, acc) ==>
        Db() == old(Db()) && r == Err(LocalMovementsExist)
      ensures !(includeInternal && HasMovements(movements, acc)) ==>
        var items := Select(rows, includeInternal);
        var sweep := SweepAll(old(ledger.Book()), t, items, write);
        && Db() == old(Db()).(book := Committed(old(ledger.Book()), sweep))
        && r == if sweep.failure.Some? then Err(PostingFailed(sweep.failure.value))
                else Ok(SweepReport(|items|, sweep.already, sweep.posted, sweep.net))
      ensures DbInv(old(Db())) && write && !(includeInternal && HasMovements(movements, acc)) ==>
        Applied(old(ledger.Book()), ledger.Book(), t, Select(rows, includeInternal), r)
    {
      ghost var start := ledger.Book();
      if DbInv(Db()) && write {
        AllRegClear(start);
        ApplyAnswers(start, t, Select(rows, includeInternal));
      }
      if includeInternal && HasMovements(movements, acc) {
        return Err(LocalMovementsExist);
      }
      var before := ledger.Book();
      var items := SelectItems(rows, includeInternal);
      var posted, already, net, failure := SweepItems(t, items, write);
      if failure.Some? || posted == 0 {
        ledger.Restore(before);
      }
      return if failure.Some? then Err(PostingFailed(failure.value))
             else Ok(SweepReport(|items|, already, posted, net));
    }
  }

  lemma {:induction false} ListedSweeps(s: System, step: Step)
    requires step.Regularize? && !(step.includeInternal && HasMovements(s.db.moves, step.account))
    requires forall i | 0 <= i < |step.listing| ::
      step.listing[i] < |s.cash| && s.cash[step.listing[i]].account == step.account
    ensures var items := Select(Listed(s.cash, step.listing), step.includeInternal);
      DoRegularize(s, step).db.book == Committed(s.db.book, SweepAll(s.db.book, step.trader, items, step.write))
  {
  }

  lemma {:induction false} SweepsOnlyBook(s: System, step: Step)
    requires step.Regularize?
    ensures Exec(s, step).db == s.db.(book := DoRegularize(s, step).db.book)
    ensures step.includeInternal && HasMovements(s.db.moves, step.account) ==> Exec(s, step).db == s.db
  {
  }

  /** A sweep of the service over rows of the account is a step of the protocol. */
  lemma {:induction false} RegularizeIsAStep(s: System, step: Step)
    requires step.Regularize?
    requires forall i | 0 <= i < |step.listing| ::
      step.listing[i] < |s.cash| && s.cash[step.listing[i]].account == step.account
    ensures Exec(s, step).db
         == if step.includeInternal && HasMovements(s.db.moves, step.account) then s.db
            else
              var items := Select(Listed(s.cash, step.listing), step.includeInternal);
              s.db.(book := Committed(s.db.book, SweepAll(s.db.book, step.trader, items, step.write)))
  {
    SweepsOnlyBook(s, step);
    if !(step.includeInternal && HasMovements(s.db.moves, step.account)) {
      ListedSweeps(s, step);
    }
  }

  /** The answer to an apply and what it moved. */
  ghost predicate Applied(b: Book, q: Book, t: TraderId, items: seq<Item>, r: Result<SweepReport, SweepError>)
    requires AllTraders(b.txs)
  {
    AppliedIf(CanPay(b, items), b, q, t, items, r)
  }

  ghost predicate AppliedIf(paid: bool, b: Book, q: Book, t: TraderId, items: seq<Item>,
      r: Result<SweepReport, SweepError>)
  {
    if paid then
      && r == Ok(SweepReport(|items|, |items| - NewCount(b, items), NewCount(b, items), NewNet(b, items)))
      && Moved(b, q, Holdings(t)) == NewNet(b, items) && Moved(b, q, MasterAccount) == -NewNet(b, items)
    else r == Err(PostingFailed(InsufficientMasterAccount)) && q == b
  }

  /** From what the sweep counted and what was committed. */
  lemma {:induction false} AppliedAs(paid: bool, b: Book, q: Book, t: TraderId, items: seq<Item>, s: Sweep)
    requires if paid then
        && s.failure.None? && s.net == NewNet(b, items) && s.posted == NewCount(b, items)
        && s.already == |items| - NewCount(b, items)
      else s.failure == Some(InsufficientMasterAccount) && q == b
    requires paid ==>
      Moved(b, q, Holdings(t)) == NewNet(b, items) && Moved(b, q, MasterAccount) == -NewNet(b, items)
    ensures AppliedIf(paid, b, q, t, items, if s.failure.Some? then Err(PostingFailed(s.failure.value))
                                            else Ok(SweepReport(|items|, s.already, s.posted, s.net)))
  {
  }

  lemma {:induction false} ApplyAnswers(b: Book, t: TraderId, items: seq<Item>)
    requires Sound(b) && AllActive(b) && RegClear(b) && Amounts(items)
    ensures var s := SweepAll(b, t, items, true);
      Applied(b, Committed(b, s), t, items, if s.failure.Some? then Err(PostingFailed(s.failure.value))
                                            else Ok(SweepReport(|items|, s.already, s.posted, s.net)))
  {
    var s := SweepAll(b, t, items, true);
    ApplyReports(b, t, items);
    ApplyCommits(b, t, items);
    AppliedAs(CanPay(b, items), b, Committed(b, s), t, items, s);
  }

  lemma SweepNext(b: Book, t: TraderId, items: seq<Item>, i: nat, write: bool)
    requires i < |items|
    ensures SweepAll(b, t, items[..i + 1], write) == SweepOne(SweepAll(b, t, items[..i], write), t, items[i], write)
  {
    assert items[..i + 1][..i] == items[..i];
  }

  /** A sweep that failed posts no later item. */
  lemma {:induction false} FailureStays(b: Book, t: TraderId, items: seq<Item>, n: nat, write: bool)
    requires n <= |items| && SweepAll(b, t, items[..n], write).failure.Some?
    ensures SweepAll(b, t, items, write) == SweepAll(b, t, items[..n], write)
    decreases |items|
  {
    if n == |items| {
      assert items[..n] == items;
    } else {
      var init := items[..|items| - 1];
      assert init[..n] == items[..n];
      FailureStays(b, t, init, n, write);
    }
  }
}
