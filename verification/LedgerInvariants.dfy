/** What every ledger operation keeps: the journal determines the entries, the
    cached balances are the recomputed ones, the hold is the sum of the pending
    deposits, and the master account can pay what it has promised. */
module LedgerInvariants {
  import opened Common
  import opened Ledger

  // ── the invariant ──

  /** The entries one journal row owns, in posting order. */
  function EntriesOf(entries: seq<Entry>, id: nat): seq<Entry> {
    if entries == [] then []
    else
      var e := entries[|entries| - 1];
      EntriesOf(entries[..|entries| - 1], id) + if e.tx == id then [e] else []
  }

  /** Only a deposit hold waits or fails, and it holds something; nobody books a
      negative amount. */
  predicate WellFormedTx(tx: Tx) {
    && HasTrader(tx)
    && tx.amount >= 0
    && (!tx.status.Posted? ==> tx.kind.TraderDeposit? && tx.amount > 0)
  }

  function LegSeq(kind: Kind, t: Option<TraderId>, amount: int, id: nat): seq<Entry>
    requires kind.MasterAccountFunding? <==> t.None?
  {
    var legs := Legs(kind, t, amount, id);
    [legs.0, legs.1]
  }

  function Expected(tx: Tx, id: nat): seq<Entry>
    requires HasTrader(tx)
  {
    if tx.status.Posted? then LegSeq(tx.kind, tx.trader, tx.amount, id) else []
  }

  ghost predicate UniqueKeys(txs: seq<Tx>) {
    forall i, j | 0 <= i < j < |txs| :: txs[i].key != txs[j].key
  }

  ghost predicate JournalOk(txs: seq<Tx>, entries: seq<Entry>) {
    && UniqueKeys(txs)
    && (forall i | 0 <= i < |txs| :: WellFormedTx(txs[i]))
    && (forall i | 0 <= i < |txs| :: EntriesOf(entries, i) == Expected(txs[i], i))
    && (forall k | 0 <= k < |entries| :: entries[k].tx < |txs|)
  }

  ghost predicate Journaled(b: Book) {
    JournalOk(b.txs, b.entries)
  }

  ghost predicate BalancesOk(accounts: map<AccountId, Account>, entries: seq<Entry>) {
    && (forall k | 0 <= k < |entries| :: entries[k].account in accounts)
    && (forall a {:trigger BalanceOf(entries, a)} | a in accounts :: accounts[a].balance == BalanceOf(entries, a))
  }

  ghost predicate Balanced(b: Book) {
    BalancesOk(b.accounts, b.entries)
  }

  /** What is summed over a journal. */
  datatype Measure =
    | Held
    | NetOf(account: AccountId)
    | PostedOf(kind: Kind, trader: Option<TraderId>)
    | PostedKind(what: Kind)

  function Weigh(m: Measure, tx: Tx): int
    requires HasTrader(tx)
  {
    match m
    case Held => if tx.status.Pending? then tx.amount else 0
    case NetOf(a) =>
      if !tx.status.Posted? then 0
      else if DebitSide(tx.kind, tx.trader) == a then tx.amount
      else if CreditSide(tx.kind, tx.trader) == a then -tx.amount
      else 0
    case PostedOf(k, t) => if tx.status.Posted? && tx.kind == k && tx.trader == t then tx.amount else 0
    case PostedKind(k) => if tx.status.Posted? && tx.kind == k then tx.amount else 0
  }

  predicate AllTraders(txs: seq<Tx>) {
    forall i | 0 <= i < |txs| :: HasTrader(txs[i])
  }

  function Total(m: Measure, txs: seq<Tx>): int
    requires AllTraders(txs)
  {
    if txs == [] then 0 else Total(m, txs[..|txs| - 1]) + Weigh(m, txs[|txs| - 1])
  }

  ghost predicate HoldsExact(b: Book)
    requires AllTraders(b.txs)
  {
    (if MasterAccount in b.accounts then b.accounts[MasterAccount].pendingDebit else 0)
      == Total(Held, b.txs)
  }

  ghost predicate Solvent(b: Book) {
    MasterAccount in b.accounts ==>
      0 <= b.accounts[MasterAccount].pendingDebit <= b.accounts[MasterAccount].balance
  }

  ghost predicate Sound(b: Book) {
    Journaled(b) && Balanced(b) && HoldsExact(b) && Solvent(b)
  }

  // ── sums under a change of the journal ──

  lemma TotalAppend(m: Measure, txs: seq<Tx>, tx: Tx)
    requires AllTraders(txs) && HasTrader(tx)
    ensures AllTraders(txs + [tx])
    ensures Total(m, txs + [tx]) == Total(m, txs) + Weigh(m, tx)
  {
    assert (txs + [tx])[..|txs|] == txs;
  }

  lemma {:induction false} TotalUpdate(m: Measure, txs: seq<Tx>, i: nat, tx: Tx)
    requires AllTraders(txs) && HasTrader(tx) && i < |txs|
    ensures AllTraders(txs[i := tx])
    ensures Total(m, txs[i := tx]) == Total(m, txs) - Weigh(m, txs[i]) + Weigh(m, tx)
  {
    var n := |txs| - 1;
    if i == n {
      assert txs[i := tx][..n] == txs[..n];
    } else {
      TotalUpdate(m, txs[..n], i, tx);
      assert txs[i := tx][..n] == txs[..n][i := tx];
    }
  }

  lemma {:induction false} HeldBounds(txs: seq<Tx>, i: nat)
    requires AllTraders(txs) && i < |txs|
    requires forall j | 0 <= j < |txs| :: txs[j].amount >= 0
    ensures 0 <= Weigh(Held, txs[i]) <= Total(Held, txs)
  {
    var n := |txs| - 1;
    if n > 0 {
      HeldBounds(txs[..n], if i < n then i else 0);
    }
  }

  // ── entries under an append ──

  lemma EntriesOfOne(entries: seq<Entry>, x: Entry, id: nat)
    ensures EntriesOf(entries + [x], id) == EntriesOf(entries, id) + if x.tx == id then [x] else []
  {
    assert (entries + [x])[..|entries|] == entries;
  }

  lemma BalanceOfOne(entries: seq<Entry>, x: Entry, a: AccountId)
    ensures BalanceOf(entries + [x], a)
         == BalanceOf(entries, a) + if x.account == a then x.debit - x.credit else 0
  {
    assert (entries + [x])[..|entries|] == entries;
  }

  lemma EntriesOfTwo(entries: seq<Entry>, x: Entry, y: Entry, id: nat)
    ensures EntriesOf(entries + [x] + [y], id)
         == EntriesOf(entries, id) + (if x.tx == id then [x] else []) + (if y.tx == id then [y] else [])
  {
    EntriesOfOne(entries, x, id);
    EntriesOfOne(entries + [x], y, id);
  }

  lemma BalanceOfTwo(entries: seq<Entry>, x: Entry, y: Entry, a: AccountId)
    ensures BalanceOf(entries + [x] + [y], a)
         == BalanceOf(entries, a) + (if x.account == a then x.debit - x.credit else 0)
                                  + (if y.account == a then y.debit - y.credit else 0)
  {
    BalanceOfOne(entries, x, a);
    BalanceOfOne(entries + [x], y, a);
  }

  lemma {:induction false} NoEntriesBeyond(entries: seq<Entry>, id: nat)
    requires forall k | 0 <= k < |entries| :: entries[k].tx != id
    ensures EntriesOf(entries, id) == []
  {
    if entries != [] {
      NoEntriesBeyond(entries[..|entries| - 1], id);
    }
  }

  /** A key is in the journal exactly at the place where it is found. */
  lemma FindTxUnique(txs: seq<Tx>, i: nat)
    requires UniqueKeys(txs) && i < |txs|
    ensures FindTx(txs, txs[i].key) == Some(i)
  {
    var j := FindTx(txs, txs[i].key).value;
    if i < j { assert false; }
    if j < i { assert false; }
  }

  // ── provisioning changes no amount ──

  ghost predicate SameBooks(b: Book, p: Book) {
    && p.txs == b.txs && p.entries == b.entries
    && (forall a | a in b.accounts :: a in p.accounts && p.accounts[a] == b.accounts[a])
    && (forall a | a in p.accounts && a !in b.accounts :: p.accounts[a] == NewAccount)
  }

  lemma EnsureAllProvisions(b: Book, t: TraderId)
    ensures SameBooks(b, EnsureGlobalAccounts(b)) && SameBooks(b, EnsureAll(b, t))
    ensures {MasterAccount, ExternalFunding, PerfFeePaid} <= EnsureGlobalAccounts(b).accounts.Keys
    ensures {MasterAccount, ExternalFunding, PerfFeePaid, Holdings(t)} <= EnsureAll(b, t).accounts.Keys
  {
  }

  lemma {:induction false} UntouchedIsZero(entries: seq<Entry>, a: AccountId)
    requires forall k | 0 <= k < |entries| :: entries[k].account != a
    ensures BalanceOf(entries, a) == 0
  {
    if entries != [] {
      UntouchedIsZero(entries[..|entries| - 1], a);
    }
  }

  lemma ProvisioningKeepsSound(b: Book, p: Book)
    requires Sound(b) && SameBooks(b, p)
    ensures Sound(p)
  {
    forall a | a in p.accounts
      ensures p.accounts[a].balance == BalanceOf(p.entries, a)
    {
      if a !in b.accounts {
        UntouchedIsZero(b.entries, a);
      }
    }
    if MasterAccount in p.accounts && MasterAccount !in b.accounts {
      UntouchedIsZero(b.entries, MasterAccount);
    }
  }

  // ── posting ──

  function PutTx(txs: seq<Tx>, id: nat, tx: Tx): seq<Tx>
    requires id <= |txs|
  {
    if id < |txs| then txs[id := tx] else txs + [tx]
  }

  /** The place a posting may take: a new row, or an unposted one with its key. */
  ghost predicate Free(txs: seq<Tx>, id: nat, tx: Tx) {
    || (id == |txs| && FindTx(txs, tx.key).None?)
    || (id < |txs| && txs[id].key == tx.key && !txs[id].status.Posted?)
  }

  function PostedBook(b: Book, id: nat, tx: Tx): Book
    requires HasTrader(tx) && id <= |b.txs|
    requires DebitSide(tx.kind, tx.trader) in b.accounts && CreditSide(tx.kind, tx.trader) in b.accounts
  {
    ApplyLegs(b.(txs := PutTx(b.txs, id, tx)), Legs(tx.kind, tx.trader, tx.amount, id))
  }

  ghost predicate CanPost(b: Book, id: nat, tx: Tx) {
    && WellFormedTx(tx) && tx.status.Posted?
    && id <= |b.txs| && Free(b.txs, id, tx)
    && DebitSide(tx.kind, tx.trader) in b.accounts && CreditSide(tx.kind, tx.trader) in b.accounts
  }

  lemma PostedBookFields(b: Book, id: nat, tx: Tx)
    requires CanPost(b, id, tx)
    ensures var legs := Legs(tx.kind, tx.trader, tx.amount, id);
      PostedBook(b, id, tx).entries == b.entries + [legs.0] + [legs.1]
    ensures PostedBook(b, id, tx).txs == PutTx(b.txs, id, tx)
    ensures PostedBook(b, id, tx).accounts.Keys == b.accounts.Keys
  {
  }

  /** The posted row gets its two entries, every other row keeps its own. */
  lemma PostingEntries(entries: seq<Entry>, tx: Tx, id: nat, i: nat)
    requires HasTrader(tx) && tx.status.Posted? && EntriesOf(entries, id) == []
    ensures var legs := Legs(tx.kind, tx.trader, tx.amount, id);
      EntriesOf(entries + [legs.0] + [legs.1], i) == if i == id then Expected(tx, id) else EntriesOf(entries, i)
  {
    var legs := Legs(tx.kind, tx.trader, tx.amount, id);
    EntriesOfTwo(entries, legs.0, legs.1, i);
  }

  lemma PutKeepsKeys(txs: seq<Tx>, id: nat, tx: Tx)
    requires UniqueKeys(txs) && id <= |txs| && Free(txs, id, tx)
    ensures UniqueKeys(PutTx(txs, id, tx))
  {
  }

  lemma PostingKeepsJournal(b: Book, id: nat, tx: Tx)
    requires Journaled(b) && CanPost(b, id, tx)
    ensures Journaled(PostedBook(b, id, tx))
  {
    var q := PostedBook(b, id, tx);
    PostedBookFields(b, id, tx);
    if id == |b.txs| {
      NoEntriesBeyond(b.entries, id);
    }
    forall i | 0 <= i < |q.txs|
      ensures WellFormedTx(q.txs[i]) && EntriesOf(q.entries, i) == Expected(q.txs[i], i)
    {
      PostingEntries(b.entries, tx, id, i);
    }
    PutKeepsKeys(b.txs, id, tx);
  }

  lemma PostingKeepsBalances(b: Book, id: nat, tx: Tx)
    requires Balanced(b) && CanPost(b, id, tx)
    ensures Balanced(PostedBook(b, id, tx))
  {
    var q := PostedBook(b, id, tx);
    var legs := Legs(tx.kind, tx.trader, tx.amount, id);
    PostedBookFields(b, id, tx);
    forall a | a in q.accounts
      ensures q.accounts[a].balance == BalanceOf(q.entries, a)
    {
      BalanceOfTwo(b.entries, legs.0, legs.1, a);
      PostedBalance(b, id, tx, a);
    }
  }

  /** Both legs of a posting move the cached balance of an account. */
  lemma PostedBalance(b: Book, id: nat, tx: Tx, a: AccountId)
    requires CanPost(b, id, tx) && a in b.accounts
    ensures var legs := Legs(tx.kind, tx.trader, tx.amount, id);
      && a in PostedBook(b, id, tx).accounts
      && PostedBook(b, id, tx).accounts[a].balance == b.accounts[a].balance
           + (if legs.0.account == a then legs.0.debit - legs.0.credit else 0)
           + (if legs.1.account == a then legs.1.debit - legs.1.credit else 0)
  {
  }

  lemma PostingHeld(b: Book, id: nat, tx: Tx)
    requires Journaled(b) && CanPost(b, id, tx)
    ensures AllTraders(PostedBook(b, id, tx).txs)
    ensures Total(Held, PostedBook(b, id, tx).txs)
         == Total(Held, b.txs) - if id < |b.txs| then Weigh(Held, b.txs[id]) else 0
  {
    if id < |b.txs| {
      TotalUpdate(Held, b.txs, id, tx);
    } else {
      TotalAppend(Held, b.txs, tx);
    }
  }

  // ── each operation ──

  lemma FundingKeepsSound(b: Book, amount: int, key: string)
    requires Sound(b) && amount >= 0
    ensures Sound(FundMasterAccount(b, amount, key).book)
  {
    var p := EnsureGlobalAccounts(b);
    EnsureAllProvisions(b, "");
    ProvisioningKeepsSound(b, p);
    if FundMasterAccount(b, amount, key).result.Ok? {
      var tx := Tx(MasterAccountFunding, Posted, key, None, amount);
      assert FundMasterAccount(b, amount, key).book == PostedBook(p, |p.txs|, tx);
      PostingKeepsSound(p, |p.txs|, tx);
    }
  }

  lemma AppendKeepsKeys(txs: seq<Tx>, tx: Tx)
    requires UniqueKeys(txs) && FindTx(txs, tx.key).None?
    ensures UniqueKeys(txs + [tx])
  {
  }

  /** A new waiting row has no entries yet. */
  lemma WaitingRowKeepsJournal(b: Book, tx: Tx)
    requires Journaled(b) && WellFormedTx(tx) && tx.status.Pending? && FindTx(b.txs, tx.key).None?
    ensures Journaled(b.(txs := b.txs + [tx]))
  {
    var q := b.(txs := b.txs + [tx]);
    NoEntriesBeyond(b.entries, |b.txs|);
    AppendKeepsKeys(b.txs, tx);
    forall i | 0 <= i < |q.txs|
      ensures WellFormedTx(q.txs[i]) && EntriesOf(q.entries, i) == Expected(q.txs[i], i)
    {
      if i < |b.txs| {
        assert q.txs[i] == b.txs[i];
      }
    }
  }

  /** Moving the hold touches neither the journal nor a balance. */
  lemma AddHeldKeeps(b: Book, amount: int)
    requires Journaled(b) && Balanced(b) && MasterAccount in b.accounts
    ensures Journaled(AddHeld(b, amount)) && Balanced(AddHeld(b, amount))
  {
  }

  lemma HoldKeepsSound(b: Book, t: TraderId, amount: int, key: string)
    requires Sound(b) && amount > 0
    ensures Sound(CreateDepositHold(b, t, amount, key).book)
  {
    var p := EnsureAll(b, t);
    EnsureAllProvisions(b, t);
    ProvisioningKeepsSound(b, p);
    if CreateDepositHold(b, t, amount, key).result.Ok? {
      var tx := Tx(TraderDeposit, Pending, key, Some(t), amount);
      WaitingRowKeepsJournal(p, tx);
      TotalAppend(Held, p.txs, tx);
      AddHeldKeeps(p.(txs := p.txs + [tx]), amount);
    }
  }

  lemma CommitIsPosting(b: Book, id: nat)
    requires id < |b.txs| && b.txs[id].status.Pending? && WellFormedTx(b.txs[id])
    requires CommitDeposit(b, id).result.Ok?
    ensures var tx := b.txs[id].(status := Posted);
      CanPost(b, id, tx) && CommitDeposit(b, id).book == AddHeld(PostedBook(b, id, tx), -tx.amount)
  {
  }

  lemma CommitKeepsSound(b: Book, id: nat)
    requires Sound(b)
    ensures Sound(CommitDeposit(b, id).book)
  {
    if id < |b.txs| && b.txs[id].status.Pending? && CommitDeposit(b, id).result.Ok? {
      var tx := b.txs[id].(status := Posted);
      CommitIsPosting(b, id);
      var q := PostedBook(b, id, tx);
      PostingKeepsJournal(b, id, tx);
      PostingKeepsBalances(b, id, tx);
      PostingHeld(b, id, tx);
      HeldBounds(b.txs, id);
      AddHeldKeeps(q, -tx.amount);
    }
  }

  lemma FailingKeepsJournal(b: Book, id: nat)
    requires Journaled(b) && id < |b.txs| && b.txs[id].status.Pending?
    ensures Journaled(b.(txs := b.txs[id := b.txs[id].(status := Failed)]))
  {
    var q := b.(txs := b.txs[id := b.txs[id].(status := Failed)]);
    forall i | 0 <= i < |q.txs|
      ensures WellFormedTx(q.txs[i]) && EntriesOf(q.entries, i) == Expected(q.txs[i], i)
    {
      assert WellFormedTx(b.txs[i]) && EntriesOf(b.entries, i) == Expected(b.txs[i], i);
    }
  }

  lemma ReleaseIsFailing(b: Book, id: nat)
    requires id < |b.txs| && b.txs[id].status.Pending? && Usable(b, MasterAccount)
    ensures ReleaseDeposit(b, id).book
         == AddHeld(b.(txs := b.txs[id := b.txs[id].(status := Failed)]), -b.txs[id].amount)
  {
  }

  lemma FailingKeepsSound(b: Book, id: nat)
    requires Sound(b) && id < |b.txs| && b.txs[id].status.Pending? && MasterAccount in b.accounts
    ensures Sound(AddHeld(b.(txs := b.txs[id := b.txs[id].(status := Failed)]), -b.txs[id].amount))
  {
    var tx := b.txs[id].(status := Failed);
    HeldBounds(b.txs, id);
    TotalUpdate(Held, b.txs, id, tx);
    FailingKeepsJournal(b, id);
    AddHeldKeeps(b.(txs := b.txs[id := tx]), -b.txs[id].amount);
  }

  /** A release of an active master account gives the amount back and nothing else. */
  lemma ReleaseKeepsSound(b: Book, id: nat)
    requires Sound(b) && (MasterAccount in b.accounts ==> b.accounts[MasterAccount].active)
    ensures Sound(ReleaseDeposit(b, id).book)
  {
    if id < |b.txs| && b.txs[id].status.Pending? {
      HeldBounds(b.txs, id);
      assert b.txs[id].amount > 0 by { assert WellFormedTx(b.txs[id]); }
      ReleaseIsFailing(b, id);
      FailingKeepsSound(b, id);
    }
  }

  /** No row waits or failed under the key: what the callers' key families ensure. */
  ghost predicate KeyClear(b: Book, key: string) {
    Row(b, key).Some? ==> Row(b, key).value.status.Posted?
  }

  lemma DirectPostIsPosting(b: Book, kind: Kind, t: TraderId, amount: int, key: string, guarded: bool)
    requires !kind.MasterAccountFunding? && FindTx(b.txs, key).None? && amount >= 0
    requires PostDirect(b, kind, t, amount, key, guarded).result.Ok?
    ensures var p, tx := EnsureAll(b, t), Tx(kind, Posted, key, Some(t), amount);
      && p.txs == b.txs && CanPost(p, |p.txs|, tx)
      && (guarded ==> Available(p).2 >= amount)
      && PostDirect(b, kind, t, amount, key, guarded).book == PostedBook(p, |p.txs|, tx)
  {
  }

  /** The master account after a posting. */
  lemma PostedMaster(b: Book, id: nat, tx: Tx)
    requires CanPost(b, id, tx) && MasterAccount in b.accounts
    ensures var m, n := b.accounts[MasterAccount], PostedBook(b, id, tx).accounts[MasterAccount];
      && n.pendingDebit == m.pendingDebit
      && n.balance == m.balance + (if DebitSide(tx.kind, tx.trader) == MasterAccount then tx.amount else 0)
                                - (if CreditSide(tx.kind, tx.trader) == MasterAccount then tx.amount else 0)
  {
  }

  lemma DirectPostKeepsSound(b: Book, kind: Kind, t: TraderId, amount: int, key: string, guarded: bool)
    requires Sound(b) && amount >= 0 && !kind.MasterAccountFunding? && KeyClear(b, key)
    requires kind.TraderDeposit? ==> guarded
    ensures Sound(PostDirect(b, kind, t, amount, key, guarded).book)
  {
    var p := EnsureAll(b, t);
    EnsureAllProvisions(b, t);
    ProvisioningKeepsSound(b, p);
    if FindTx(b.txs, key).None? && PostDirect(b, kind, t, amount, key, guarded).result.Ok? {
      DirectPostIsPosting(b, kind, t, amount, key, guarded);
      PostingKeepsSound(p, |p.txs|, Tx(kind, Posted, key, Some(t), amount));
    }
  }

  /** A posting of a new row, which the master account can pay if it must. */
  lemma PostingKeepsSound(p: Book, id: nat, tx: Tx)
    requires Sound(p) && CanPost(p, id, tx) && id == |p.txs| && MasterAccount in p.accounts
    requires tx.kind.TraderDeposit? ==>
      p.accounts[MasterAccount].balance - p.accounts[MasterAccount].pendingDebit >= tx.amount
    ensures Sound(PostedBook(p, id, tx))
  {
    PostingKeepsJournal(p, id, tx);
    PostingKeepsBalances(p, id, tx);
    PostingHeld(p, id, tx);
    PostedMaster(p, id, tx);
    PostedBookFields(p, id, tx);
  }
}
