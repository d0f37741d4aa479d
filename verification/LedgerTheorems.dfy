/** What follows from a sound book: balances in closed form, conservation, the
    exact limits of the two operations that trust their callers, and the effect
    of each operation on the row its key names. */
module LedgerTheorems {
  import opened Common
  import opened Ledger
  import opened LedgerInvariants

  // ── the journal determines every balance ──

  /** Net of an account over the entries of one row. */
  function OwnNet(entries: seq<Entry>, a: AccountId, i: nat): int {
    BalanceOf(EntriesOf(entries, i), a)
  }

  /** Net of an account, taken row by row instead of entry by entry. */
  function NetByRow(entries: seq<Entry>, a: AccountId, n: nat): int {
    if n == 0 then 0
    else NetByRow(entries, a, n - 1) + OwnNet(entries, a, n - 1)
  }

  lemma OwnNetAppend(entries: seq<Entry>, e: Entry, a: AccountId, i: nat)
    ensures OwnNet(entries + [e], a, i)
         == OwnNet(entries, a, i) + if e.tx == i && e.account == a then e.debit - e.credit else 0
  {
    EntriesOfOne(entries, e, i);
    var own := EntriesOf(entries, i);
    BalanceOfOne(own, e, a);
    assert own + [] == own;
  }

  lemma {:induction false} NetByRowAppend(entries: seq<Entry>, e: Entry, a: AccountId, n: nat)
    ensures NetByRow(entries + [e], a, n)
         == NetByRow(entries, a, n) + if e.tx < n && e.account == a then e.debit - e.credit else 0
  {
    if n > 0 {
      NetByRowAppend(entries, e, a, n - 1);
      OwnNetAppend(entries, e, a, n - 1);
    }
  }

  lemma {:induction false} NetByRowEmpty(a: AccountId, n: nat)
    ensures NetByRow([], a, n) == 0
  {
    if n > 0 { NetByRowEmpty(a, n - 1); }
  }

  lemma {:induction false} EntriesPartition(entries: seq<Entry>, a: AccountId, n: nat)
    requires forall k | 0 <= k < |entries| :: entries[k].tx < n
    ensures BalanceOf(entries, a) == NetByRow(entries, a, n)
  {
    if entries == [] {
      NetByRowEmpty(a, n);
    } else {
      var init, e := entries[..|entries| - 1], entries[|entries| - 1];
      assert entries == init + [e];
      EntriesPartition(init, a, n);
      NetByRowAppend(init, e, a, n);
      BalanceOfOne(init, e, a);
    }
  }

  lemma PairNet(x: Entry, y: Entry, a: AccountId)
    ensures BalanceOf([x, y], a) == (if x.account == a then x.debit - x.credit else 0)
                                  + (if y.account == a then y.debit - y.credit else 0)
  {
    BalanceOfOne([], x, a);
    BalanceOfOne([x], y, a);
    assert [] + [x] == [x] && [x] + [y] == [x, y];
  }

  lemma ExpectedNet(tx: Tx, id: nat, a: AccountId)
    requires HasTrader(tx)
    ensures BalanceOf(Expected(tx, id), a) == Weigh(NetOf(a), tx)
  {
    if tx.status.Posted? {
      var legs := Legs(tx.kind, tx.trader, tx.amount, id);
      PairNet(legs.0, legs.1, a);
    }
  }

  lemma {:induction false} RowsDetermine(entries: seq<Entry>, txs: seq<Tx>, a: AccountId, n: nat)
    requires AllTraders(txs) && n <= |txs|
    requires forall i {:trigger OwnNet(entries, a, i)} | 0 <= i < n :: OwnNet(entries, a, i) == Weigh(NetOf(a), txs[i])
    ensures NetByRow(entries, a, n) == Total(NetOf(a), txs[..n])
  {
    if n > 0 {
      RowsDetermine(entries, txs, a, n - 1);
      TotalAppend(NetOf(a), txs[..n - 1], txs[n - 1]);
      assert txs[..n] == txs[..n - 1] + [txs[n - 1]];
    }
  }

  /** The recomputed balance of any account is what the posted rows say. */
  lemma JournalDeterminesBalance(b: Book, a: AccountId)
    requires Journaled(b)
    ensures BalanceOf(b.entries, a) == Total(NetOf(a), b.txs)
  {
    EntriesPartition(b.entries, a, |b.txs|);
    forall i | 0 <= i < |b.txs|
      ensures OwnNet(b.entries, a, i) == Weigh(NetOf(a), b.txs[i])
    {
      ExpectedNet(b.txs[i], i, a);
    }
    RowsDetermine(b.entries, b.txs, a, |b.txs|);
    assert b.txs[..|b.txs|] == b.txs;
  }

  lemma {:induction false} NetByKind(txs: seq<Tx>, t: TraderId)
    requires AllTraders(txs)
    ensures Total(NetOf(Holdings(t)), txs)
         == Total(PostedOf(TraderDeposit, Some(t)), txs)
          - Total(PostedOf(TraderWithdrawal, Some(t)), txs)
          - Total(PostedOf(PerfFee, Some(t)), txs)
    ensures Total(NetOf(MasterAccount), txs)
         == Total(PostedKind(MasterAccountFunding), txs)
          - Total(PostedKind(TraderDeposit), txs)
          + Total(PostedKind(TraderWithdrawal), txs)
    ensures Total(NetOf(ExternalFunding), txs) == -Total(PostedKind(MasterAccountFunding), txs)
    ensures Total(NetOf(PerfFeePaid), txs) == Total(PostedKind(PerfFee), txs)
  {
    if txs != [] {
      NetByKind(txs[..|txs| - 1], t);
    }
  }

  /** Cached balance = recomputed balance = closed form by kind of operation. */
  lemma ClosedForms(b: Book, t: TraderId)
    requires Sound(b)
    ensures forall a | a in b.accounts :: b.accounts[a].balance == BalanceOf(b.entries, a)
    ensures BalanceOf(b.entries, Holdings(t))
         == Total(PostedOf(TraderDeposit, Some(t)), b.txs)
          - Total(PostedOf(TraderWithdrawal, Some(t)), b.txs)
          - Total(PostedOf(PerfFee, Some(t)), b.txs)
    ensures BalanceOf(b.entries, MasterAccount)
         == Total(PostedKind(MasterAccountFunding), b.txs)
          - Total(PostedKind(TraderDeposit), b.txs)
          + Total(PostedKind(TraderWithdrawal), b.txs)
    ensures BalanceOf(b.entries, ExternalFunding) == -Total(PostedKind(MasterAccountFunding), b.txs)
    ensures BalanceOf(b.entries, PerfFeePaid) == Total(PostedKind(PerfFee), b.txs)
  {
    JournalDeterminesBalance(b, Holdings(t));
    JournalDeterminesBalance(b, MasterAccount);
    JournalDeterminesBalance(b, ExternalFunding);
    JournalDeterminesBalance(b, PerfFeePaid);
    NetByKind(b.txs, t);
  }

  /** Every posted row is one debit and one credit of its amount; any other row
      has no entry. */
  lemma OneDebitOneCredit(b: Book, i: nat)
    requires Sound(b) && i < |b.txs|
    ensures b.txs[i].status.Posted? ==>
      var own := EntriesOf(b.entries, i);
      && |own| == 2
      && (exists d, c | {d, c} == {0, 1} ::
            && own[d].debit == b.txs[i].amount && own[d].credit == 0
            && own[c].credit == b.txs[i].amount && own[c].debit == 0
            && own[d].account == DebitSide(b.txs[i].kind, b.txs[i].trader)
            && own[c].account == CreditSide(b.txs[i].kind, b.txs[i].trader))
    ensures !b.txs[i].status.Posted? ==> EntriesOf(b.entries, i) == []
  {
    if b.txs[i].status.Posted? {
      var own := EntriesOf(b.entries, i);
      assert own == Expected(b.txs[i], i);
      if b.txs[i].kind.TraderDeposit? {
        assert own[1].debit == b.txs[i].amount && own[0].credit == b.txs[i].amount && {1, 0} == {0, 1};
      } else {
        assert own[0].debit == b.txs[i].amount && own[1].credit == b.txs[i].amount && {0, 1} == {0, 1};
      }
    }
  }

  // ── conservation ──

  function CachedBalance(b: Book): AccountId -> int {
    a => if a in b.accounts then b.accounts[a].balance else 0
  }

  ghost function NetFn(txs: seq<Tx>): AccountId -> int
    requires AllTraders(txs)
  {
    a => Total(NetOf(a), txs)
  }

  ghost predicate SidesIn(txs: seq<Tx>, s: set<AccountId>)
    requires AllTraders(txs)
  {
    forall i | 0 <= i < |txs| && txs[i].status.Posted? ::
      DebitSide(txs[i].kind, txs[i].trader) in s && CreditSide(txs[i].kind, txs[i].trader) in s
  }

  lemma {:induction false} SumOverAdd(s: set<AccountId>, f: AccountId -> int, g: AccountId -> int, h: AccountId -> int)
    requires forall a | a in s :: h(a) == f(a) + g(a)
    ensures SumOver(s, h) == SumOver(s, f) + SumOver(s, g)
    decreases s
  {
    if s != {} {
      var x :| x in s;
      SumOverPick(s, f, x);
      SumOverPick(s, g, x);
      SumOverPick(s, h, x);
      SumOverAdd(s - {x}, f, g, h);
    }
  }

  lemma {:induction false} SumOverZero(s: set<AccountId>, f: AccountId -> int)
    requires forall a | a in s :: f(a) == 0
    ensures SumOver(s, f) == 0
    decreases s
  {
    if s != {} {
      var x :| x in s;
      SumOverPick(s, f, x);
      SumOverZero(s - {x}, f);
    }
  }

  lemma RowNetsToZero(s: set<AccountId>, tx: Tx)
    requires HasTrader(tx) && SidesIn([tx], s)
    ensures SumOver(s, a => Weigh(NetOf(a), tx)) == 0
  {
    var g: AccountId -> int := a => Weigh(NetOf(a), tx);
    if tx.status.Posted? {
      assert [tx][0] == tx;
      var d, c := DebitSide(tx.kind, tx.trader), CreditSide(tx.kind, tx.trader);
      SumOverPick(s, g, d);
      SumOverPick(s - {d}, g, c);
      SumOverZero(s - {d} - {c}, g);
    } else {
      SumOverZero(s, g);
    }
  }

  lemma {:induction false} RowsNetToZero(s: set<AccountId>, txs: seq<Tx>)
    requires AllTraders(txs) && SidesIn(txs, s)
    ensures SumOver(s, NetFn(txs)) == 0
  {
    if txs == [] {
      SumOverZero(s, NetFn(txs));
    } else {
      var init, tx := txs[..|txs| - 1], txs[|txs| - 1];
      RowsNetToZero(s, init);
      RowNetsToZero(s, tx);
      SumOverAdd(s, NetFn(init), a => Weigh(NetOf(a), tx), NetFn(txs));
    }
  }

  lemma {:induction false} OwnEntriesAreEntries(entries: seq<Entry>, id: nat, k: nat)
    requires k < |EntriesOf(entries, id)|
    ensures EntriesOf(entries, id)[k] in entries
  {
    var init := entries[..|entries| - 1];
    if k < |EntriesOf(init, id)| {
      OwnEntriesAreEntries(init, id, k);
    }
  }

  /** Money is conserved: the cached balances of all accounts sum to zero. */
  lemma BalancesSumToZero(b: Book)
    requires Sound(b)
    ensures SumOver(b.accounts.Keys, CachedBalance(b)) == 0
  {
    forall i | 0 <= i < |b.txs| && b.txs[i].status.Posted?
      ensures DebitSide(b.txs[i].kind, b.txs[i].trader) in b.accounts.Keys
           && CreditSide(b.txs[i].kind, b.txs[i].trader) in b.accounts.Keys
    {
      assert EntriesOf(b.entries, i) == Expected(b.txs[i], i);
      OwnEntriesAreEntries(b.entries, i, 0);
      OwnEntriesAreEntries(b.entries, i, 1);
    }
    RowsNetToZero(b.accounts.Keys, b.txs);
    forall a | a in b.accounts
      ensures CachedBalance(b)(a) == NetFn(b.txs)(a)
    {
      JournalDeterminesBalance(b, a);
    }
    SumOverSame(b.accounts.Keys, CachedBalance(b), NetFn(b.txs));
  }

  // ── the two operations that trust their callers, exactly ──

  /** Posting over a row that waits or failed keeps the book sound only when the
      row is a failed deposit of the same trader and amount. */
  lemma DirectPostSoundIff(b: Book, kind: Kind, t: TraderId, amount: int, key: string, guarded: bool)
    requires Sound(b) && amount >= 0 && !kind.MasterAccountFunding?
    requires kind.TraderDeposit? ==> guarded
    requires PostDirect(b, kind, t, amount, key, guarded).result.Ok?
    ensures Sound(PostDirect(b, kind, t, amount, key, guarded).book) <==>
      || KeyClear(b, key)
      || Row(b, key) == Some(Tx(kind, Failed, key, Some(t), amount))
  {
    if KeyClear(b, key) {
      DirectPostKeepsSound(b, kind, t, amount, key, guarded);
    } else {
      RepostSoundIff(b, kind, t, amount, key, guarded);
    }
  }

  /** Entries of another operation never read as those of the deposit row. */
  lemma LegsTell(kind: Kind, t: TraderId, amount: int, row: Tx, i: nat)
    requires !kind.MasterAccountFunding? && row.kind.TraderDeposit? && row.trader.Some? && row.amount > 0
    requires LegSeq(kind, Some(t), amount, i) == LegSeq(row.kind, row.trader, row.amount, i)
    ensures kind == row.kind && Some(t) == row.trader && amount == row.amount
  {
    var ours, its := LegSeq(kind, Some(t), amount, i), LegSeq(row.kind, row.trader, row.amount, i);
    assert ours[0] == its[0] && ours[1] == its[1];
  }

  lemma RepostTells(p: Book, i: nat, kind: Kind, t: TraderId, amount: int)
    requires Sound(p) && i < |p.txs| && !p.txs[i].status.Posted? && !kind.MasterAccountFunding?
    requires DebitSide(kind, Some(t)) in p.accounts && CreditSide(kind, Some(t)) in p.accounts
    requires Sound(ApplyLegs(p.(txs := p.txs[i := p.txs[i].(status := Posted)]), Legs(kind, Some(t), amount, i)))
    ensures kind == p.txs[i].kind && Some(t) == p.txs[i].trader && amount == p.txs[i].amount
    ensures p.txs[i].status.Failed?
  {
    var row := p.txs[i];
    var q := ApplyLegs(p.(txs := p.txs[i := row.(status := Posted)]), Legs(kind, Some(t), amount, i));
    assert WellFormedTx(row);
    var legs := Legs(kind, Some(t), amount, i);
    EntriesOfTwo(p.entries, legs.0, legs.1, i);
    assert EntriesOf(p.entries, i) == Expected(row, i) == [];
    assert q.txs[i] == row.(status := Posted);
    assert EntriesOf(q.entries, i) == Expected(q.txs[i], i);
    LegsTell(kind, t, amount, row, i);
    TotalUpdate(Held, p.txs, i, row.(status := Posted));
    HeldBounds(p.txs, i);
  }

  lemma RepostSameRow(p: Book, i: nat, tx: Tx)
    requires Sound(p) && CanPost(p, i, tx) && i < |p.txs| && p.txs[i] == tx.(status := Failed)
    requires MasterAccount in p.accounts
    requires p.accounts[MasterAccount].balance - p.accounts[MasterAccount].pendingDebit >= tx.amount
    ensures Sound(PostedBook(p, i, tx))
  {
    PostingKeepsJournal(p, i, tx);
    PostingKeepsBalances(p, i, tx);
    PostingHeld(p, i, tx);
    PostedMaster(p, i, tx);
    PostedBookFields(p, i, tx);
  }

  lemma RepostSoundIff(b: Book, kind: Kind, t: TraderId, amount: int, key: string, guarded: bool)
    requires Sound(b) && amount >= 0 && !kind.MasterAccountFunding?
    requires kind.TraderDeposit? ==> guarded
    requires PostDirect(b, kind, t, amount, key, guarded).result.Ok? && !KeyClear(b, key)
    ensures Sound(PostDirect(b, kind, t, amount, key, guarded).book)
       <==> Row(b, key) == Some(Tx(kind, Failed, key, Some(t), amount))
  {
    var i, p := FindTx(b.txs, key).value, EnsureAll(b, t);
    EnsureAllProvisions(b, t);
    ProvisioningKeepsSound(b, p);
    var row := b.txs[i];
    var tx := row.(status := Posted);
    var q := ApplyLegs(p.(txs := p.txs[i := tx]), Legs(kind, Some(t), amount, i));
    assert q == PostDirect(b, kind, t, amount, key, guarded).book;
    if row == Tx(kind, Failed, key, Some(t), amount) {
      assert WellFormedTx(row);
      assert q == PostedBook(p, i, tx);
      RepostSameRow(p, i, tx);
    } else if Sound(q) {
      RepostTells(p, i, kind, t, amount);
      assert false;
    }
  }

  /** Releasing a pending hold keeps the hold exact only while the master account
      is active: an inactive one keeps its hold though the row fails. */
  lemma ReleaseSoundIff(b: Book, id: nat)
    requires Sound(b) && id < |b.txs| && b.txs[id].status.Pending?
    ensures Sound(ReleaseDeposit(b, id).book) <==> Usable(b, MasterAccount)
  {
    HeldBounds(b.txs, id);
    TotalUpdate(Held, b.txs, id, b.txs[id].(status := Failed));
    if Usable(b, MasterAccount) {
      ReleaseKeepsSound(b, id);
    }
  }

  // ── the effect of an operation on the journal, key by key ──

  ghost predicate OnlyKey(b: Book, q: Book, key: string) {
    forall k | k != key :: FindTx(q.txs, k) == FindTx(b.txs, k) && Row(q, k) == Row(b, k)
  }

  ghost predicate AllActive(b: Book) {
    forall a | a in b.accounts :: b.accounts[a].active
  }

  lemma FindTxAppend(txs: seq<Tx>, tx: Tx, key: string)
    ensures FindTx(txs + [tx], key) == if tx.key == key then Some(|txs|) else FindTx(txs, key)
  {
    assert (txs + [tx])[..|txs|] == txs;
  }

  lemma {:induction false} FindTxUpdate(txs: seq<Tx>, i: nat, tx: Tx, key: string)
    requires i < |txs| && tx.key == txs[i].key
    ensures FindTx(txs[i := tx], key) == FindTx(txs, key)
  {
    var n := |txs| - 1;
    if i == n {
      assert txs[i := tx][..n] == txs[..n];
    } else {
      assert txs[i := tx][..n] == txs[..n][i := tx];
      FindTxUpdate(txs[..n], i, tx, key);
    }
  }

  /** A new row is seen under its own key and hides no other. */
  lemma AppendEffect(b: Book, q: Book, tx: Tx)
    requires q.txs == b.txs + [tx]
    ensures OnlyKey(b, q, tx.key) && Row(q, tx.key) == Some(tx) && FindTx(q.txs, tx.key) == Some(|b.txs|)
  {
    forall k
      ensures FindTx(q.txs, k) == if tx.key == k then Some(|b.txs|) else FindTx(b.txs, k)
    {
      FindTxAppend(b.txs, tx, k);
    }
  }

  /** A rewritten row stays where its key finds it. */
  lemma UpdateEffect(b: Book, q: Book, i: nat, tx: Tx)
    requires UniqueKeys(b.txs) && i < |b.txs| && tx.key == b.txs[i].key && q.txs == b.txs[i := tx]
    ensures OnlyKey(b, q, tx.key) && Row(q, tx.key) == Some(tx) && FindTx(q.txs, tx.key) == Some(i)
  {
    FindTxUnique(b.txs, i);
    forall k
      ensures FindTx(q.txs, k) == FindTx(b.txs, k)
    {
      FindTxUpdate(b.txs, i, tx, k);
    }
  }

  lemma FundingEffect(b: Book, amount: int, key: string)
    ensures var o := FundMasterAccount(b, amount, key);
      match o.result
      case Ok(id) =>
        && Row(b, key).None? && OnlyKey(b, o.book, key) && FindTx(o.book.txs, key) == Some(id)
        && Row(o.book, key) == Some(Tx(MasterAccountFunding, Posted, key, None, amount))
      case Err(_) => SameBooks(b, o.book)
    ensures AllActive(b) ==> AllActive(FundMasterAccount(b, amount, key).book)
  {
    EnsureAllProvisions(b, "");
    if FundMasterAccount(b, amount, key).result.Ok? {
      AppendEffect(b, FundMasterAccount(b, amount, key).book, Tx(MasterAccountFunding, Posted, key, None, amount));
    }
  }

  lemma HoldEffect(b: Book, t: TraderId, amount: int, key: string)
    ensures var o := CreateDepositHold(b, t, amount, key);
      match o.result
      case Ok(id) =>
        && Row(b, key).None? && OnlyKey(b, o.book, key) && FindTx(o.book.txs, key) == Some(id)
        && Row(o.book, key) == Some(Tx(TraderDeposit, Pending, key, Some(t), amount))
      case Err(_) => SameBooks(b, o.book)
    ensures AllActive(b) ==> AllActive(CreateDepositHold(b, t, amount, key).book)
  {
    EnsureAllProvisions(b, t);
    if CreateDepositHold(b, t, amount, key).result.Ok? {
      AppendEffect(b, CreateDepositHold(b, t, amount, key).book, Tx(TraderDeposit, Pending, key, Some(t), amount));
    }
  }

  lemma CommitEffect(b: Book, id: nat)
    requires UniqueKeys(b.txs) && id < |b.txs| && b.txs[id].status.Pending?
    ensures var o := CommitDeposit(b, id);
      match o.result
      case Ok(_) =>
        && OnlyKey(b, o.book, b.txs[id].key) && FindTx(o.book.txs, b.txs[id].key) == Some(id)
        && Row(o.book, b.txs[id].key) == Some(b.txs[id].(status := Posted))
      case Err(_) => o.book == b
    ensures AllActive(b) ==> AllActive(CommitDeposit(b, id).book)
  {
    if CommitDeposit(b, id).result.Ok? {
      UpdateEffect(b, CommitDeposit(b, id).book, id, b.txs[id].(status := Posted));
    }
  }

  lemma ReleaseEffect(b: Book, id: nat)
    requires UniqueKeys(b.txs) && id < |b.txs| && b.txs[id].status.Pending?
    ensures var o := ReleaseDeposit(b, id);
      && o.result == Ok(id)
      && OnlyKey(b, o.book, b.txs[id].key) && FindTx(o.book.txs, b.txs[id].key) == Some(id)
      && Row(o.book, b.txs[id].key) == Some(b.txs[id].(status := Failed))
    ensures AllActive(b) ==> AllActive(ReleaseDeposit(b, id).book)
  {
    UpdateEffect(b, ReleaseDeposit(b, id).book, id, b.txs[id].(status := Failed));
  }

  lemma DirectPostEffect(b: Book, kind: Kind, t: TraderId, amount: int, key: string, guarded: bool)
    requires !kind.MasterAccountFunding? && KeyClear(b, key)
    ensures var o := PostDirect(b, kind, t, amount, key, guarded);
      match o.result
      case Ok(id) =>
        && OnlyKey(b, o.book, key) && FindTx(o.book.txs, key) == Some(id)
        && (Row(b, key).Some? ==> o.book == b)
        && (Row(b, key).None? ==> Row(o.book, key) == Some(Tx(kind, Posted, key, Some(t), amount)))
      case Err(_) => Row(b, key).None? && SameBooks(b, o.book)
    ensures AllActive(b) ==> AllActive(PostDirect(b, kind, t, amount, key, guarded).book)
  {
    EnsureAllProvisions(b, t);
    var o := PostDirect(b, kind, t, amount, key, guarded);
    if o.result.Ok? && FindTx(b.txs, key).None? {
      AppendEffect(b, o.book, Tx(kind, Posted, key, Some(t), amount));
    }
  }

  // ── the money an operation moves ──

  /** Money moved into an account between two books. */
  function Moved(b: Book, q: Book, a: AccountId): int {
    BalanceOf(q.entries, a) - BalanceOf(b.entries, a)
  }

  /** A direct posting of a new row moves its amount from its credit to its debit side. */
  lemma PostMoves(b: Book, kind: Kind, t: TraderId, amount: int, key: string, guarded: bool)
    requires !kind.MasterAccountFunding? && Row(b, key).None? && PostDirect(b, kind, t, amount, key, guarded).result.Ok?
    ensures forall a :: (Moved(b, PostDirect(b, kind, t, amount, key, guarded).book, a)
      == (if a == DebitSide(kind, Some(t)) then amount else 0) - (if a == CreditSide(kind, Some(t)) then amount else 0))
  {
    EnsureAllProvisions(b, t);
    var q, legs := PostDirect(b, kind, t, amount, key, guarded).book, Legs(kind, Some(t), amount, |b.txs|);
    assert q.entries == b.entries + [legs.0] + [legs.1];
    forall a ensures Moved(b, q, a) == (if a == DebitSide(kind, Some(t)) then amount else 0)
                                     - (if a == CreditSide(kind, Some(t)) then amount else 0) {
      BalanceOfTwo(b.entries, legs.0, legs.1, a);
    }
  }

  /** A fee goes from the trader's holdings to the fees paid. */
  lemma FeeMoves(b: Book, t: TraderId, fee: int, key: string)
    requires Row(b, key).None? && PostPerfFee(b, t, fee, key).result.Ok?
    ensures forall a :: Moved(b, PostPerfFee(b, t, fee, key).book, a)
                     == (if a == PerfFeePaid then fee else 0) - (if a == Holdings(t) then fee else 0)
  {
    PostMoves(b, PerfFee, t, fee, key, false);
  }
}
