/** Capital movements between the master account and the engine's MT5 accounts.
    Each function here is one database transaction: what it commits, or why it is
    rolled back. The protocol that strings them together is in CapitalProtocol. */
module Capital {
  import opened Common
  import opened Ledger

  type Login = string

  datatype Direction = Deposit | Withdrawal | Funding

  datatype MovementStatus = InFlight | Completed | Failed | Ambiguous | Rejected

  /** A row of the movements table, keyed by its idempotency key. */
  datatype Movement = Movement(
    direction: Direction, account: Option<Login>, trader: Option<TraderId>, amount: int,
    status: MovementStatus, ledgerTx: Option<nat>, effective: int, fee: int, reused: bool)

  datatype Db = Db(book: Book, moves: map<string, Movement>)

  datatype CapitalError =
    | IntegrityError
    | InsufficientFunds
    | LedgerInconsistent

  /** What the engine says about an operation it carried out; an absent field is None. */
  datatype Report = Report(amount: Option<int>, fee: Option<int>, reused: bool)

  // ── idempotency keys: one family per kind of caller ──

  function LdgKey(idem: string): string { "ldg-" + idem }

  function PfKey(idem: string): string { "pf-" + idem }

  function RegKey(id: int): string { "regularize:mam:" + IntStr(id) }

  function CryptoKey(hash: string): string { "crypto-deposit:" + hash }

  function FeeKey(pid: int): string { "mam-pf-" + IntStr(pid) }

  // ── amounts ──

  /** One cent in ledger units. */
  const CENT := 1_000_000

  /** `_normalize`: two decimals, truncated; nothing left is an error. */
  function Normalize(amount: int): (r: Option<int>)
    ensures r.Some? ==> 0 < r.value <= amount < r.value + CENT && r.value % CENT == 0
    ensures r.None? <==> amount < CENT
  {
    if amount < CENT then None else Some(amount - amount % CENT)
  }

  /** `_dec(x) or fallback`: an absent value and a reported zero both fall back. */
  function Or(x: Option<int>, fallback: int): int {
    if x.Some? && x.value != 0 then x.value else fallback
  }

  // ── the unique indexes on the movements table ──

  predicate PendingOn(moves: map<string, Movement>, acc: Login) {
    exists m | m in moves :: moves[m].status.InFlight? && moves[m].account == Some(acc)
  }

  predicate Conflicts(moves: map<string, Movement>, idem: string, acc: Login) {
    idem in moves || PendingOn(moves, acc)
  }

  // ── deposit ──

  /** First commit of a deposit: the movement and the hold, or nothing. */
  function ReserveDeposit(db: Db, idem: string, acc: Login, t: TraderId, amount: int): Result<Db, CapitalError> {
    if Conflicts(db.moves, idem, acc) then Err(IntegrityError)
    else
      var o := CreateDepositHold(db.book, t, amount, LdgKey(idem));
      match o.result
      case Ok(id) =>
        var mv := Movement(Deposit, Some(acc), Some(t), amount, InFlight, Some(id), 0, 0, false);
        Ok(Db(o.book, db.moves[idem := mv]))
      case Err(InsufficientMasterAccount) => Err(InsufficientFunds)
      case Err(DuplicateKey) => Err(IntegrityError)
      case Err(_) => Err(LedgerInconsistent)
  }

  /** Last commit of a deposit the engine carried out. */
  function SettleDeposit(db: Db, idem: string, reported: Option<int>): Result<Db, CapitalError>
    requires idem in db.moves && db.moves[idem].ledgerTx.Some?
  {
    var mv := db.moves[idem];
    var o := Ledger.CommitDeposit(db.book, mv.ledgerTx.value);
    if o.result.Err? then Err(LedgerInconsistent)
    else Ok(Db(o.book, db.moves[idem := mv.(status := Completed, effective := Or(reported, mv.amount))]))
  }

  /** Last commit of a deposit the engine refused: the hold goes back. */
  function AbortDeposit(db: Db, idem: string): Db
    requires idem in db.moves && db.moves[idem].ledgerTx.Some?
  {
    var mv := db.moves[idem];
    Db(Ledger.ReleaseDeposit(db.book, mv.ledgerTx.value).book, db.moves[idem := mv.(status := MovementStatus.Failed)])
  }

  /** Last commit of an operation whose fate is unknown. */
  function MarkAmbiguous(db: Db, idem: string): Db
    requires idem in db.moves
  {
    db.(moves := db.moves[idem := db.moves[idem].(status := Ambiguous)])
  }

  // ── withdrawal ──

  /** First commit of a withdrawal: only the movement, there is nothing to hold. */
  function OpenWithdrawal(db: Db, idem: string, acc: Login, t: TraderId, amount: int): Result<Db, CapitalError> {
    if Conflicts(db.moves, idem, acc) then Err(IntegrityError)
    else
      var mv := Movement(Withdrawal, Some(acc), Some(t), amount, InFlight, None, 0, 0, false);
      Ok(db.(moves := db.moves[idem := mv]))
  }

  function FailWithdrawal(db: Db, idem: string): Db
    requires idem in db.moves
  {
    db.(moves := db.moves[idem := db.moves[idem].(status := MovementStatus.Failed)])
  }

  /** Last commit of a withdrawal the engine carried out. The fee it charged goes
      to the leader, so it is booked apart from what came back. */
  function BookWithdrawal(db: Db, idem: string, report: Report): Result<Db, CapitalError>
    requires idem in db.moves && db.moves[idem].trader.Some?
  {
    var asked := db.moves[idem];
    var t := asked.trader.value;
    var mv := asked.(effective := Or(report.amount, asked.amount), fee := Or(report.fee, 0), reused := report.reused);
    if report.reused then
      Ok(db.(moves := db.moves[idem := mv.(status := Completed)]))
    else if mv.effective <= 0 then
      Ok(db.(moves := db.moves[idem := mv.(status := Rejected)]))
    else
      var w := PostWithdrawal(db.book, t, mv.effective, LdgKey(idem));
      if w.result.Err? then Err(LedgerInconsistent)
      else
        var f := if mv.fee > 0 then PostPerfFee(w.book, t, mv.fee, PfKey(idem)) else w;
        if f.result.Err? then Err(LedgerInconsistent)
        else
          Ok(Db(f.book, db.moves[idem := mv.(status := Completed, ledgerTx := Some(w.result.value))]))
  }

  // ── funding ──

  /** `TraderService.fund_master_account`: movement and posting in one commit. A key
      already used returns whatever movement has it and changes nothing. */
  function FundMaster(db: Db, idem: string, requested: int): Result<Db, CapitalError> {
    if Normalize(requested).None? then Err(LedgerInconsistent)
    else if idem in db.moves then Ok(db)
    else
      var amount := Normalize(requested).value;
      var o := Ledger.FundMasterAccount(db.book, amount, LdgKey(idem));
      match o.result
      case Ok(id) =>
        Ok(Db(o.book, db.moves[idem := Movement(Funding, None, None, amount, Completed, Some(id), 0, 0, false)]))
      case Err(DuplicateKey) => Err(IntegrityError)
      case Err(_) => Err(LedgerInconsistent)
  }
}
