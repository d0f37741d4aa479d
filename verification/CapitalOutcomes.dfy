/** What a request asked for ends in: stated on the amount asked, the movement it
    leaves, the balances and what stays free. */
module CapitalOutcomes {
  import opened Common
  import opened Ledger
  import opened LedgerInvariants
  import opened LedgerTheorems
  import opened LedgerAnswers
  import opened Capital
  import opened CapitalInvariants
  import opened CapitalEffects
  import opened CapitalProtocol
  import opened CapitalCompletes

  /** Whole cents of what was asked. */
  function Cents(requested: int): int {
    requested - requested % CENT
  }

  /** No other movement appears or changes. */
  ghost predicate OthersKept(db: Db, q: Db, idem: string) {
    q.moves.Keys == db.moves.Keys + {idem} && forall m | m in db.moves && m != idem :: q.moves[m] == db.moves[m]
  }

  ghost predicate NothingMoves(b: Book, q: Book) {
    forall a :: Moved(b, q, a) == 0
  }

  /** Money goes from one account to another and no other moves. */
  ghost predicate MovesTo(b: Book, q: Book, from: AccountId, to: AccountId, amount: int) {
    && from != to && Moved(b, q, from) == -amount && Moved(b, q, to) == amount
    && forall a | a != from && a != to :: Moved(b, q, a) == 0
  }

  /** A reported amount, when there is one. */
  function Reported(x: Option<int>, otherwise: int): int {
    match x
    case None => otherwise
    case Some(n) => if n == 0 then otherwise else n
  }

  /** An empty key is turned down before it leaves. */
  function HeardBy(idem: string, answer: Answer): Answer {
    if Strip(idem) == "" then Refusal else answer
  }

  /** What a request that does not end well answers. */
  datatype RequestError =
    | AmountInvalid
    | OperationInFlight
    | Denied(error: CapitalError)
    | EngineRefused
    | Uncertain

  predicate FlightOn(db: Db, acc: Login) {
    exists m | m in db.moves :: db.moves[m].status.InFlight? && db.moves[m].account == Some(acc)
  }

  /** The answer to the caller, given the movement left under his key: a used key gets
      the movement that has it. `free` is what a deposit needs and a withdrawal does not. */
  function Reply(db: Db, q: Db, idem: string, acc: Login, requested: int, free: bool, seesFlight: bool, answer: Answer):
      Result<Movement, RequestError>
  {
    if requested < CENT then Err(AmountInvalid)
    else if idem in db.moves then Ok(db.moves[idem])
    else if FlightOn(db, acc) then Err(if seesFlight then OperationInFlight else Denied(IntegrityError))
    else if !free || idem !in q.moves then Err(Denied(InsufficientFunds))
    else
      match HeardBy(idem, answer)
      case Done(_) => Ok(q.moves[idem])
      case Refusal => Err(EngineRefused)
      case Unknown => Err(Uncertain)
  }

  // ── deposit ──

  /** A deposit is begun when it is worth a cent, its key is new, nothing is in flight on
      the account and the master account has the amount free. */
  ghost predicate DepositBegins(db: Db, idem: string, acc: Login, requested: int)
    requires AllTraders(db.book.txs)
  {
    && requested >= CENT && idem !in db.moves && !FlightOn(db, acc)
    && Cents(requested) <= FreeFunds(db.book)
  }

  /** What it leaves, given what the engine answered. */
  ghost predicate DepositEnds(db: Db, q: Db, idem: string, acc: Login, t: TraderId, amount: int, answer: Answer)
    requires AllTraders(db.book.txs) && AllTraders(q.book.txs)
  {
    && OthersKept(db, q, idem) && idem in q.moves
    && var mv := q.moves[idem];
       && mv.direction.Deposit? && mv.account == Some(acc) && mv.trader == Some(t) && mv.amount == amount
       && match answer
          case Done(report) =>
            && mv.status.Completed? && mv.effective == Reported(report.amount, amount)
            && MovesTo(db.book, q.book, MasterAccount, Holdings(t), amount)
            && FreeFunds(q.book) == FreeFunds(db.book) - amount
          case Refusal =>
            mv.status.Failed? && NothingMoves(db.book, q.book) && FreeFunds(q.book) == FreeFunds(db.book)
          case Unknown =>
            mv.status.Ambiguous? && NothingMoves(db.book, q.book) && FreeFunds(q.book) == FreeFunds(db.book) - amount
  }

  /** A deposit that nothing interrupts: refused and nothing written, or ended as
      answered for the whole cents of what was asked. */
  ghost predicate DepositOutcome(db: Db, q: Db, idem: string, acc: Login, t: TraderId, requested: int, answer: Answer)
    requires DbInv(db)
  {
    if !DepositBegins(db, idem, acc, requested) then q == db
    else DbInv(q) && DepositEnds(db, q, idem, acc, t, Cents(requested), HeardBy(idem, answer))
  }

  /** Whether a deposit reserves, and which error it answers when it does not. */
  lemma ReserveAnswers(db: Db, idem: string, acc: Login, t: TraderId, amount: int)
    requires DbInv(db)
    ensures ReserveDeposit(db, idem, acc, t, amount).Ok?
       <==> !Conflicts(db.moves, idem, acc) && amount <= FreeFunds(db.book)
    ensures Conflicts(db.moves, idem, acc) ==> ReserveDeposit(db, idem, acc, t, amount) == Err(IntegrityError)
    ensures !Conflicts(db.moves, idem, acc) && amount > FreeFunds(db.book) ==>
      ReserveDeposit(db, idem, acc, t, amount) == Err(InsufficientFunds)
  {
    HoldAnswers(db.book, t, amount, LdgKey(idem));
    if idem !in db.moves {
      assert Row(db.book, LdgKey(idem)).None?;
    }
  }

  /** A deposit reserved: its movement in flight, no money moved, the amount held. */
  ghost predicate Reserved(db: Db, held: Db, idem: string, acc: Login, t: TraderId, amount: int)
    requires AllTraders(db.book.txs) && AllTraders(held.book.txs)
  {
    && OthersKept(db, held, idem) && idem in held.moves && InFlightFor(held.moves[idem], acc, t, amount)
    && NothingMoves(db.book, held.book) && FreeFunds(held.book) == FreeFunds(db.book) - amount
    && Holdings(t) in held.book.accounts
  }

  lemma Reserves(db: Db, idem: string, acc: Login, t: TraderId, amount: int)
    requires DbInv(db) && amount > 0 && ReserveDeposit(db, idem, acc, t, amount).Ok?
    ensures var held := ReserveDeposit(db, idem, acc, t, amount).value;
      DbInv(held) && Reserved(db, held, idem, acc, t, amount)
  {
    ReserveKeeps(db, idem, acc, t, amount);
    ReservedRow(db, idem, acc, t, amount);
    HoldFrees(db.book, t, amount, LdgKey(idem));
  }

  lemma ReservedRow(db: Db, idem: string, acc: Login, t: TraderId, amount: int)
    requires ReserveDeposit(db, idem, acc, t, amount).Ok?
    ensures var held, o := ReserveDeposit(db, idem, acc, t, amount).value,
                           CreateDepositHold(db.book, t, amount, LdgKey(idem));
      && OthersKept(db, held, idem) && idem in held.moves && InFlightFor(held.moves[idem], acc, t, amount)
      && o.result.Ok? && held.book == o.book
  {
  }

  lemma HoldFrees(b: Book, t: TraderId, amount: int, key: string)
    requires Sound(b) && CreateDepositHold(b, t, amount, key).result.Ok?
    ensures var q := CreateDepositHold(b, t, amount, key).book;
      && NothingMoves(b, q) && AllTraders(q.txs) && FreeFunds(q) == FreeFunds(b) - amount && Holdings(t) in q.accounts
  {
    FreeAfterHold(b, t, amount, key);
    HeldAccount(b, t, amount, key);
  }

  lemma HeldAccount(b: Book, t: TraderId, amount: int, key: string)
    requires CreateDepositHold(b, t, amount, key).result.Ok?
    ensures Holdings(t) in CreateDepositHold(b, t, amount, key).book.accounts
  {
    EnsureAllProvisions(b, t);
  }

  predicate InFlightFor(mv: Movement, acc: Login, t: TraderId, amount: int) {
    && mv.direction.Deposit? && mv.status.InFlight? && mv.ledgerTx.Some?
    && mv.account == Some(acc) && mv.trader == Some(t) && mv.amount == amount
  }

  /** A settled deposit, from what was held. */
  lemma Settles(held: Db, idem: string, acc: Login, t: TraderId, amount: int, report: Report)
    requires DbInv(held) && idem in held.moves && InFlightFor(held.moves[idem], acc, t, amount)
    requires Holdings(t) in held.book.accounts
    ensures SettleDeposit(held, idem, report.amount).Ok?
    ensures var q := SettleDeposit(held, idem, report.amount).value;
      && DbInv(q) && MovesTo(held.book, q.book, MasterAccount, Holdings(t), amount)
      && FreeFunds(q.book) == FreeFunds(held.book)
      && q.moves == held.moves[idem := held.moves[idem].(status := Completed,
                                                        effective := Reported(report.amount, amount))]
  {
    SettlesWhenOwned(held, idem, report.amount);
    SettleKeeps(held, idem, report.amount);
    SettlePays(held, idem, report.amount);
    SettledMoves(held, idem, report.amount, amount);
  }

  lemma SettledMoves(held: Db, idem: string, reported: Option<int>, amount: int)
    requires idem in held.moves && held.moves[idem].amount == amount && held.moves[idem].ledgerTx.Some?
    requires SettleDeposit(held, idem, reported).Ok?
    ensures SettleDeposit(held, idem, reported).value.moves
         == held.moves[idem := held.moves[idem].(status := Completed, effective := Reported(reported, amount))]
  {
  }

  lemma Releases(held: Db, idem: string, acc: Login, t: TraderId, amount: int)
    requires DbInv(held) && idem in held.moves && InFlightFor(held.moves[idem], acc, t, amount)
    ensures var q := AbortDeposit(held, idem);
      && DbInv(q) && NothingMoves(held.book, q.book) && FreeFunds(q.book) == FreeFunds(held.book) + amount
      && q.moves == held.moves[idem := held.moves[idem].(status := MovementStatus.Failed)]
  {
    AbortKeeps(held, idem);
    AbortReleases(held, idem);
    MasterOf(held.book);
    MasterOf(AbortDeposit(held, idem).book);
  }

  lemma MovesThrough(b: Book, h: Book, q: Book)
    ensures NothingMoves(b, h) ==> forall a :: Moved(b, q, a) == Moved(h, q, a)
  {
    if NothingMoves(b, h) {
      forall a ensures Moved(b, q, a) == Moved(h, q, a) {
        assert Moved(b, h, a) == 0;
      }
    }
  }

  lemma EndsDone(db: Db, held: Db, q: Db, idem: string, acc: Login, t: TraderId, amount: int, report: Report)
    requires AllTraders(db.book.txs) && AllTraders(held.book.txs) && AllTraders(q.book.txs)
    requires Reserved(db, held, idem, acc, t, amount)
    requires MovesTo(held.book, q.book, MasterAccount, Holdings(t), amount) && FreeFunds(q.book) == FreeFunds(held.book)
    requires q.moves == held.moves[idem := held.moves[idem].(status := Completed,
                                                            effective := Reported(report.amount, amount))]
    ensures DepositEnds(db, q, idem, acc, t, amount, Done(report))
  {
    MovesThrough(db.book, held.book, q.book);
  }

  lemma DepositSettled(db: Db, held: Db, idem: string, acc: Login, t: TraderId, amount: int, report: Report)
    requires DbInv(db) && DbInv(held) && Reserved(db, held, idem, acc, t, amount)
    ensures SettleDeposit(held, idem, report.amount).Ok? && DbInv(SettleDeposit(held, idem, report.amount).value)
    ensures DepositEnds(db, SettleDeposit(held, idem, report.amount).value, idem, acc, t, amount, Done(report))
  {
    Settles(held, idem, acc, t, amount, report);
    EndsDone(db, held, SettleDeposit(held, idem, report.amount).value, idem, acc, t, amount, report);
  }

  lemma EndsRefused(db: Db, held: Db, q: Db, idem: string, acc: Login, t: TraderId, amount: int)
    requires AllTraders(db.book.txs) && AllTraders(held.book.txs) && AllTraders(q.book.txs)
    requires Reserved(db, held, idem, acc, t, amount)
    requires NothingMoves(held.book, q.book) && FreeFunds(q.book) == FreeFunds(held.book) + amount
    requires q.moves == held.moves[idem := held.moves[idem].(status := MovementStatus.Failed)]
    ensures DepositEnds(db, q, idem, acc, t, amount, Refusal)
  {
    MovesThrough(db.book, held.book, q.book);
  }

  lemma DepositReleased(db: Db, held: Db, idem: string, acc: Login, t: TraderId, amount: int)
    requires DbInv(db) && DbInv(held) && Reserved(db, held, idem, acc, t, amount)
    ensures DbInv(AbortDeposit(held, idem))
    ensures DepositEnds(db, AbortDeposit(held, idem), idem, acc, t, amount, Refusal)
  {
    Releases(held, idem, acc, t, amount);
    EndsRefused(db, held, AbortDeposit(held, idem), idem, acc, t, amount);
  }

  lemma DepositLeft(db: Db, held: Db, idem: string, acc: Login, t: TraderId, amount: int)
    requires DbInv(db) && DbInv(held) && Reserved(db, held, idem, acc, t, amount)
    ensures DbInv(MarkAmbiguous(held, idem))
    ensures DepositEnds(db, MarkAmbiguous(held, idem), idem, acc, t, amount, Unknown)
  {
    AmbiguousKeeps(held, idem);
  }

  /** The closing commit of a reserved deposit, whatever the answer. */
  lemma DepositCloses(db: Db, held: Db, r: Request)
    requires DbInv(db) && DbInv(held) && Reserved(db, held, r.idem, r.account, r.trader, r.amount)
    requires r.direction.Deposit? && r.phase.Heard? && Tracked(held, r)
    ensures var q := Closing(held, r);
      DbInv(q) && DepositEnds(db, q, r.idem, r.account, r.trader, r.amount, r.phase.answer)
  {
    match r.phase.answer
    case Done(report) => DepositSettled(db, held, r.idem, r.account, r.trader, r.amount, report);
    case Refusal => DepositReleased(db, held, r.idem, r.account, r.trader, r.amount);
    case Unknown => DepositLeft(db, held, r.idem, r.account, r.trader, r.amount);
  }

  lemma DepositBeginsIff(db: Db, idem: string, acc: Login, t: TraderId, requested: int)
    requires DbInv(db) && requested >= CENT
    ensures DepositBegins(db, idem, acc, requested)
       <==> ReserveDeposit(db, idem, acc, t, Cents(requested)).Ok?
  {
    ReserveAnswers(db, idem, acc, t, Cents(requested));
  }

  // ── withdrawal ──

  ghost predicate WithdrawalBegins(db: Db, idem: string, acc: Login, requested: int) {
    requested >= CENT && idem !in db.moves && !FlightOn(db, acc)
  }

  /** What came back reaches the master account, the fee goes to the fees paid, both out
      of the trader's holdings. */
  ghost predicate ReturnMovesMoney(b: Book, q: Book, t: TraderId, back: int, fee: int) {
    && Moved(b, q, MasterAccount) == back && Moved(b, q, PerfFeePaid) == fee
    && Moved(b, q, Holdings(t)) == -back - fee && Moved(b, q, ExternalFunding) == 0
  }

  ghost predicate WithdrawalEnds(db: Db, q: Db, idem: string, acc: Login, t: TraderId, amount: int, answer: Answer) {
    && OthersKept(db, q, idem) && idem in q.moves
    && var mv := q.moves[idem];
       && mv.direction.Withdrawal? && mv.account == Some(acc) && mv.trader == Some(t) && mv.amount == amount
       && match answer
          case Done(report) =>
            var back, fee := Reported(report.amount, amount), Reported(report.fee, 0);
            && mv.effective == back && mv.fee == fee && mv.reused == report.reused
            && (if !report.reused && back <= 0 then mv.status.Rejected? else mv.status.Completed?)
            && (if report.reused || back <= 0 then q.book == db.book
                else ReturnMovesMoney(db.book, q.book, t, back, if fee > 0 then fee else 0))
          case Refusal => mv.status.Failed? && q.book == db.book
          case Unknown => mv.status.Ambiguous? && q.book == db.book
  }

  ghost predicate WithdrawalOutcome(db: Db, q: Db, idem: string, acc: Login, t: TraderId, requested: int,
      answer: Answer)
  {
    if !WithdrawalBegins(db, idem, acc, requested) then q == db
    else DbInv(q) && WithdrawalEnds(db, q, idem, acc, t, Cents(requested), HeardBy(idem, answer))
  }

  /** The movement an accepted withdrawal leaves. */
  lemma BookedMovement(db: Db, m: string, report: Report)
    requires m in db.moves && db.moves[m].trader.Some? && BookWithdrawal(db, m, report).Ok?
    ensures var q, was := BookWithdrawal(db, m, report).value, db.moves[m];
      var back, fee := Reported(report.amount, was.amount), Reported(report.fee, 0);
      && OthersKept(db, q, m) && m in q.moves
      && var mv := q.moves[m];
         && mv.(status := was.status, ledgerTx := was.ledgerTx, effective := was.effective, fee := was.fee,
                reused := was.reused) == was
         && mv.effective == back && mv.fee == fee && mv.reused == report.reused
         && (if !report.reused && back <= 0 then mv.status.Rejected? else mv.status.Completed?)
  {
  }

  lemma OpensFor(db: Db, idem: string, acc: Login, t: TraderId, amount: int)
    requires DbInv(db) && amount > 0 && OpenWithdrawal(db, idem, acc, t, amount).Ok?
    ensures var was := OpenWithdrawal(db, idem, acc, t, amount).value;
      DbInv(was) && Begun(db, was, idem, acc, t, amount)
  {
    OpenKeeps(db, idem, acc, t, amount);
  }

  lemma ReturnsMoney(was: Db, m: string, t: TraderId, amount: int, report: Report)
    requires DbInv(was) && m in was.moves && was.moves[m].direction.Withdrawal? && was.moves[m].status.InFlight?
    requires was.moves[m].trader == Some(t) && was.moves[m].amount == amount && BookWithdrawal(was, m, report).Ok?
    ensures var q, back, fee := BookWithdrawal(was, m, report).value, Reported(report.amount, amount),
                                Reported(report.fee, 0);
      if report.reused || back <= 0 then q.book == was.book
      else ReturnMovesMoney(was.book, q.book, t, back, if fee > 0 then fee else 0)
  {
    WithdrawalMoves(was, m, report);
  }

  /** A withdrawal begun: its movement in flight and the book as it was. */
  ghost predicate Begun(db: Db, was: Db, idem: string, acc: Login, t: TraderId, amount: int) {
    && OthersKept(db, was, idem) && was.book == db.book && idem in was.moves
    && was.moves[idem] == Movement(Withdrawal, Some(acc), Some(t), amount, InFlight, None, 0, 0, false)
  }

  lemma WithdrawalBooked(db: Db, was: Db, idem: string, acc: Login, t: TraderId, amount: int, report: Report)
    requires DbInv(was) && Begun(db, was, idem, acc, t, amount)
    ensures BookWithdrawal(was, idem, report).Ok? && DbInv(BookWithdrawal(was, idem, report).value)
    ensures WithdrawalEnds(db, BookWithdrawal(was, idem, report).value, idem, acc, t, amount, Done(report))
  {
    BooksAlways(was, idem, report);
    BookKeeps(was, idem, report);
    ReturnsMoney(was, idem, t, amount, report);
    BookedMovement(was, idem, report);
  }

  lemma WithdrawalCloses(db: Db, was: Db, r: Request)
    requires DbInv(was) && Begun(db, was, r.idem, r.account, r.trader, r.amount)
    requires r.direction.Withdrawal? && r.phase.Heard? && Tracked(was, r)
    ensures var q := Closing(was, r);
      DbInv(q) && WithdrawalEnds(db, q, r.idem, r.account, r.trader, r.amount, r.phase.answer)
  {
    match r.phase.answer
    case Done(report) => WithdrawalBooked(db, was, r.idem, r.account, r.trader, r.amount, report);
    case Refusal => FailWithdrawalKeeps(was, r.idem);
    case Unknown => AmbiguousKeeps(was, r.idem);
  }

  // ── funding ──

  /** Funding under a new key brings the whole cents of what was asked from outside; a
      used key, or less than a cent, changes nothing. */
  ghost predicate FundingOutcome(db: Db, q: Db, idem: string, requested: int)
    requires DbInv(db)
  {
    if requested < CENT || idem in db.moves then q == db
    else
      && DbInv(q) && OthersKept(db, q, idem) && idem in q.moves
      && var mv := q.moves[idem];
         && mv.direction.Funding? && mv.status.Completed? && mv.account.None? && mv.trader.None?
         && mv.amount == Cents(requested)
         && MovesTo(db.book, q.book, ExternalFunding, MasterAccount, Cents(requested))
         && FreeFunds(q.book) == FreeFunds(db.book) + Cents(requested)
  }

  lemma FundingServes(db: Db, idem: string, requested: int)
    requires DbInv(db)
    ensures FundMaster(db, idem, requested).Ok? <==> requested >= CENT
    ensures requested >= CENT ==> FundingOutcome(db, FundMaster(db, idem, requested).value, idem, requested)
  {
    if requested >= CENT && idem !in db.moves {
      assert Row(db.book, LdgKey(idem)).None?;
      FundingAnswers(db.book, Cents(requested), LdgKey(idem));
      FundingCommits(db, idem, requested);
    }
  }

  lemma FundingCommits(db: Db, idem: string, requested: int)
    requires DbInv(db) && FundMaster(db, idem, requested).Ok? && idem !in db.moves && requested >= CENT
    ensures FundingOutcome(db, FundMaster(db, idem, requested).value, idem, requested)
  {
    FundKeeps(db, idem, requested);
    FundedRow(db, idem, requested);
    FundingMovesIn(db.book, Cents(requested), LdgKey(idem));
  }

  lemma FundedRow(db: Db, idem: string, requested: int)
    requires FundMaster(db, idem, requested).Ok? && idem !in db.moves
    ensures var q, o := FundMaster(db, idem, requested).value,
                        Ledger.FundMasterAccount(db.book, Cents(requested), LdgKey(idem));
      && o.result.Ok? && q.book == o.book && OthersKept(db, q, idem) && idem in q.moves
      && q.moves[idem]
         == Movement(Funding, None, None, Cents(requested), Completed, Some(o.result.value), 0, 0, false)
  {
  }
}
