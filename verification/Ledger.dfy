/** The double-entry book and the operations of the ledger service, as functions
    from a book to a book. A caller that gets an error rolls its transaction back;
    the book returned with the error is the state the session is left in.

    Amounts are integers in the unit of the money columns (10^-8). */
module Ledger {
  import opened Common

  type TraderId = string

  datatype AccountId =
    | MasterAccount
    | ExternalFunding
    | PerfFeePaid
    | Holdings(owner: TraderId)

  datatype Account = Account(balance: int, pendingDebit: int, active: bool)

  const NewAccount := Account(0, 0, true)

  datatype Kind = TraderDeposit | TraderWithdrawal | MasterAccountFunding | PerfFee

  datatype Status = Pending | Posted | Failed

  /** A journal row; its id is its position in the journal. */
  datatype Tx = Tx(kind: Kind, status: Status, key: string, trader: Option<TraderId>, amount: int)

  datatype Entry = Entry(tx: nat, account: AccountId, debit: int, credit: int)

  datatype Book = Book(accounts: map<AccountId, Account>, txs: seq<Tx>, entries: seq<Entry>)

  datatype LedgerError =
    | AccountsMissing
    | InsufficientMasterAccount
    | TxNotFound
    | TxNotCommittable
    | DuplicateKey

  datatype Outcome = Outcome(book: Book, result: Result<nat, LedgerError>)

  const EmptyBook := Book(map[], [], [])

  // ── queries ──

  /** `account_for_update`: the row exists and is active. */
  predicate Usable(b: Book, a: AccountId) {
    a in b.accounts && b.accounts[a].active
  }

  /** The journal row with an idempotency key. */
  function FindTx(txs: seq<Tx>, key: string): (r: Option<nat>)
    ensures r.Some? ==> r.value < |txs| && txs[r.value].key == key
    ensures r.None? ==> forall i | 0 <= i < |txs| :: txs[i].key != key
  {
    if txs == [] then None
    else if txs[|txs| - 1].key == key then Some(|txs| - 1)
    else FindTx(txs[..|txs| - 1], key)
  }

  /** The row a key names, if any. */
  function Row(b: Book, key: string): Option<Tx> {
    match FindTx(b.txs, key)
    case None => None
    case Some(i) => Some(b.txs[i])
  }

  /** `recompute_balance`: debits minus credits over the entries of an account. */
  function BalanceOf(entries: seq<Entry>, a: AccountId): int {
    if entries == [] then 0
    else
      var e := entries[|entries| - 1];
      BalanceOf(entries[..|entries| - 1], a) + if e.account == a then e.debit - e.credit else 0
  }

  /** Balance, holds and what is left, as `master_account_available` reads them. */
  function Available(b: Book): (int, int, int) {
    if !Usable(b, MasterAccount) then (0, 0, 0)
    else
      var balance := BalanceOf(b.entries, MasterAccount);
      var pending := b.accounts[MasterAccount].pendingDebit;
      (balance, pending, balance - pending)
  }

  // ── provisioning ──

  function Ensure(b: Book, a: AccountId): Book {
    if a in b.accounts then b else b.(accounts := b.accounts[a := NewAccount])
  }

  function EnsureGlobalAccounts(b: Book): Book {
    Ensure(Ensure(Ensure(b, MasterAccount), ExternalFunding), PerfFeePaid)
  }

  function EnsureAll(b: Book, t: TraderId): Book {
    Ensure(EnsureGlobalAccounts(b), Holdings(t))
  }

  // ── entries ──

  /** `_apply_entry`: append the entry and move the cached balance. */
  function ApplyEntry(b: Book, e: Entry): Book
    requires e.account in b.accounts
  {
    var acc := b.accounts[e.account];
    b.(entries := b.entries + [e],
       accounts := b.accounts[e.account := acc.(balance := acc.balance + e.debit - e.credit)])
  }

  predicate HasTrader(tx: Tx) {
    tx.kind.MasterAccountFunding? <==> tx.trader.None?
  }

  /** The account an operation debits and the account it credits. */
  function DebitSide(kind: Kind, t: Option<TraderId>): AccountId
    requires kind.MasterAccountFunding? <==> t.None?
  {
    match kind
    case MasterAccountFunding => MasterAccount
    case TraderDeposit => Holdings(t.value)
    case TraderWithdrawal => MasterAccount
    case PerfFee => PerfFeePaid
  }

  function CreditSide(kind: Kind, t: Option<TraderId>): AccountId
    requires kind.MasterAccountFunding? <==> t.None?
  {
    match kind
    case MasterAccountFunding => ExternalFunding
    case TraderDeposit => MasterAccount
    case TraderWithdrawal => Holdings(t.value)
    case PerfFee => Holdings(t.value)
  }

  /** The two entries of a posted row, in the order the service appends them:
      a deposit writes its credit first, every other operation its debit. */
  function Legs(kind: Kind, t: Option<TraderId>, amount: int, id: nat): (legs: (Entry, Entry))
    requires kind.MasterAccountFunding? <==> t.None?
  {
    var d := Entry(id, DebitSide(kind, t), amount, 0);
    var c := Entry(id, CreditSide(kind, t), 0, amount);
    if kind.TraderDeposit? then (c, d) else (d, c)
  }

  function ApplyLegs(b: Book, legs: (Entry, Entry)): Book
    requires legs.0.account in b.accounts && legs.1.account in b.accounts
  {
    ApplyEntry(ApplyEntry(b, legs.0), legs.1)
  }

  // ── operations ──

  function FundMasterAccount(b: Book, amount: int, key: string): Outcome {
    var p := EnsureGlobalAccounts(b);
    if !Usable(p, MasterAccount) || !Usable(p, ExternalFunding) then
      Outcome(p, Err(AccountsMissing))
    else if FindTx(p.txs, key).Some? then
      Outcome(p, Err(DuplicateKey))
    else
      var id := |p.txs|;
      var tx := Tx(MasterAccountFunding, Posted, key, None, amount);
      Outcome(ApplyLegs(p.(txs := p.txs + [tx]), Legs(MasterAccountFunding, None, amount, id)), Ok(id))
  }

  function CreateDepositHold(b: Book, t: TraderId, amount: int, key: string): Outcome {
    var p := EnsureAll(b, t);
    if !Usable(p, MasterAccount) then
      Outcome(p, Err(AccountsMissing))
    else if Available(p).2 < amount then
      Outcome(p, Err(InsufficientMasterAccount))
    else if FindTx(p.txs, key).Some? then
      Outcome(p, Err(DuplicateKey))
    else
      var tx := Tx(TraderDeposit, Pending, key, Some(t), amount);
      Outcome(AddHeld(p.(txs := p.txs + [tx]), amount), Ok(|p.txs|))
  }

  function AddHeld(b: Book, amount: int): Book
    requires MasterAccount in b.accounts
  {
    var acc := b.accounts[MasterAccount];
    b.(accounts := b.accounts[MasterAccount := acc.(pendingDebit := acc.pendingDebit + amount)])
  }

  function CommitDeposit(b: Book, id: nat): Outcome {
    if id >= |b.txs| then Outcome(b, Err(TxNotFound))
    else
      var tx := b.txs[id];
      if tx.status.Posted? then Outcome(b, Ok(id))
      else if !tx.status.Pending? then Outcome(b, Err(TxNotCommittable))
      else if tx.trader.None? || !Usable(b, MasterAccount) || !Usable(b, Holdings(tx.trader.value)) then
        Outcome(b, Err(AccountsMissing))
      else
        var q := ApplyLegs(b, Legs(TraderDeposit, tx.trader, tx.amount, id));
        Outcome(AddHeld(q.(txs := q.txs[id := tx.(status := Posted)]), -tx.amount), Ok(id))
  }

  function ReleaseDeposit(b: Book, id: nat): Outcome {
    if id >= |b.txs| then Outcome(b, Err(TxNotFound))
    else
      var tx := b.txs[id];
      if !tx.status.Pending? then Outcome(b, Ok(id))
      else
        var q := if Usable(b, MasterAccount) then AddHeld(b, -tx.amount) else b;
        Outcome(q.(txs := q.txs[id := tx.(status := Failed)]), Ok(id))
  }

  /** The direct postings. A row that already carries the key is reused: returned
      untouched when POSTED, given the entries of this call otherwise. */
  function PostDirect(b: Book, kind: Kind, t: TraderId, amount: int, key: string, guarded: bool): Outcome
    requires !kind.MasterAccountFunding?
  {
    var existing := FindTx(b.txs, key);
    if existing.Some? && b.txs[existing.value].status.Posted? then Outcome(b, Ok(existing.value))
    else
      var p := EnsureAll(b, t);
      if !Usable(p, DebitSide(kind, Some(t))) || !Usable(p, CreditSide(kind, Some(t))) then
        Outcome(p, Err(AccountsMissing))
      else if guarded && Available(p).2 < amount then
        Outcome(p, Err(InsufficientMasterAccount))
      else
        var (id, txs) :=
          if existing.Some? then
            (existing.value, p.txs[existing.value := p.txs[existing.value].(status := Posted)])
          else
            (|p.txs|, p.txs + [Tx(kind, Posted, key, Some(t), amount)]);
        Outcome(ApplyLegs(p.(txs := txs), Legs(kind, Some(t), amount, id)), Ok(id))
  }

  function PostPerfFee(b: Book, t: TraderId, amount: int, key: string): Outcome {
    PostDirect(b, PerfFee, t, amount, key, false)
  }

  function PostWithdrawal(b: Book, t: TraderId, amount: int, key: string): Outcome {
    PostDirect(b, TraderWithdrawal, t, amount, key, false)
  }

  /** Money that came in is paid by the master account, which must have it free. */
  function PostRegularization(b: Book, t: TraderId, amount: int, key: string, incoming: bool): Outcome {
    PostDirect(b, if incoming then TraderDeposit else TraderWithdrawal, t, amount, key, incoming)
  }
}
