/** Which rows a sweep takes, when its apply goes through, and what it books: told from
    the rows themselves and from what is free when each is reached. */
module RegularizationAnswers {
  import opened Common
  import opened Ledger
  import opened LedgerInvariants
  import opened LedgerTheorems
  import opened LedgerAnswers
  import opened Capital
  import opened Regularization

  // ── the rows a sweep takes ──

  /** Equal but for the case of the letters; `u` is in capitals. */
  predicate SameLetters(s: string, u: string) {
    |s| == |u| && forall i | 0 <= i < |u| :: s[i] == u[i] || ('A' <= u[i] <= 'Z' && s[i] as int == u[i] as int + 32)
  }

  predicate Capitals(u: string) {
    forall i | 0 <= i < |u| :: 'A' <= u[i] <= 'Z'
  }

  lemma UpperIsCapitals(s: string, u: string)
    requires Capitals(u)
    ensures Upper(s) == u <==> SameLetters(s, u)
  {
    if Upper(s) == u {
      forall i | 0 <= i < |u| ensures s[i] == u[i] || s[i] as int == u[i] as int + 32 {
        assert Upper(s)[i] == UpperChar(s[i]);
      }
    }
  }

  predicate StartsExternal(kind: string) {
    |kind| >= 8 && SameLetters(kind[..8], "EXTERNAL")
  }

  lemma ExternalStarts(kind: string)
    ensures IsExternal(kind) <==> StartsExternal(kind)
  {
    if |kind| >= 8 {
      UpperIsCapitals(kind[..8], "EXTERNAL");
      assert Upper(kind)[..8] == Upper(kind[..8]);
    }
  }

  /** What the sweep takes: executed rows of outside capital, and the engine's own
      deposits and withdrawals when asked for, with an id and an amount. */
  predicate Takes(row: CashRow, includeInternal: bool) {
    && (StartsExternal(row.kind)
        || (includeInternal && (SameLetters(row.kind, "DEPOSIT") || SameLetters(row.kind, "WITHDRAWAL"))))
    && SameLetters(row.status, "EXECUTED") && row.id.Some? && row.amount.Some? && row.amount.value != 0
  }

  lemma PickTakes(row: CashRow, includeInternal: bool)
    ensures Pick(row, includeInternal).Some? <==> Takes(row, includeInternal)
    ensures Takes(row, includeInternal) ==>
      var item, x := Pick(row, includeInternal).value, row.amount.value;
      && Some(item.id) == row.id && (item.incoming <==> x > 0)
      && item.amount % CENT == 0 && item.amount <= (if x > 0 then x else -x) < item.amount + CENT
  {
    ExternalStarts(row.kind);
    UpperIsCapitals(row.kind, "DEPOSIT");
    UpperIsCapitals(row.kind, "WITHDRAWAL");
    UpperIsCapitals(row.status, "EXECUTED");
    if row.amount.Some? {
      var size := if row.amount.value < 0 then -row.amount.value else row.amount.value;
      assert (size - size % CENT) % CENT == 0;
    }
  }

  /** A listing is taken row by row, in its order. */
  lemma {:induction false} SelectAppends(xs: seq<CashRow>, ys: seq<CashRow>, includeInternal: bool)
    ensures Select(xs + ys, includeInternal) == Select(xs, includeInternal) + Select(ys, includeInternal)
  {
    if ys == [] {
      assert xs + ys == xs;
    } else {
      var n := |ys| - 1;
      assert (xs + ys)[..|xs + ys| - 1] == xs + ys[..n];
      SelectAppends(xs, ys[..n], includeInternal);
    }
  }

  lemma SelectOne(row: CashRow, includeInternal: bool)
    ensures Select([row], includeInternal)
         == if Takes(row, includeInternal) then [Pick(row, includeInternal).value] else []
  {
    PickTakes(row, includeInternal);
    assert [row][..0] == [];
  }

  // ── when an apply goes through ──

  /** Item k is to be booked: not posted before, nor named earlier. */
  predicate DueAt(b: Book, items: seq<Item>, k: nat)
    requires k < |items|
  {
    !IsPosted(b, RegKey(items[k].id)) && !Names(items[..k], items[k].id)
  }

  /** What the items to be booked add up to, each row once. */
  function NewNet(b: Book, items: seq<Item>): int {
    if items == [] then 0
    else NewNet(b, items[..|items| - 1]) + if DueAt(b, items, |items| - 1) then Signed(items[|items| - 1]) else 0
  }

  function NewCount(b: Book, items: seq<Item>): (n: nat)
    ensures n <= |items|
  {
    if items == [] then 0
    else NewCount(b, items[..|items| - 1]) + if DueAt(b, items, |items| - 1) then 1 else 0
  }

  /** Item i, if it is money that came in and is to be booked, is free when reached. */
  ghost predicate PaidAt(b: Book, items: seq<Item>, i: nat)
    requires AllTraders(b.txs) && i < |items|
  {
    items[i].incoming && DueAt(b, items, i) ==> items[i].amount <= FreeFunds(b) - NewNet(b, items[..i])
  }

  ghost predicate CanPay(b: Book, items: seq<Item>)
    requires AllTraders(b.txs)
  {
    forall i | 0 <= i < |items| :: PaidAt(b, items, i)
  }

  lemma PaidAtPrefix(b: Book, items: seq<Item>, n: nat, i: nat)
    requires AllTraders(b.txs) && i < n <= |items|
    ensures PaidAt(b, items[..n], i) <==> PaidAt(b, items, i)
  {
    assert items[..n][..i + 1] == items[..i + 1] && items[..n][..i] == items[..i];
  }

  lemma CanPayPrefix(b: Book, items: seq<Item>, n: nat)
    requires AllTraders(b.txs) && n <= |items|
    ensures CanPay(b, items[..n]) <==> forall i | 0 <= i < n :: PaidAt(b, items, i)
  {
    forall i | 0 <= i < n ensures PaidAt(b, items[..n], i) <==> PaidAt(b, items, i) {
      PaidAtPrefix(b, items, n, i);
    }
  }

  lemma CanPayLast(b: Book, items: seq<Item>)
    requires AllTraders(b.txs) && items != []
    ensures CanPay(b, items) <==> CanPay(b, items[..|items| - 1]) && PaidAt(b, items, |items| - 1)
  {
    CanPayPrefix(b, items, |items| - 1);
  }

  /** What a clean sweep has done so far. */
  ghost predicate Swept(b: Book, items: seq<Item>, s: Sweep)
    requires AllTraders(b.txs)
  {
    && Sound(s.book) && RegClear(s.book) && AllActive(s.book)
    && s.net == NewNet(b, items) && s.posted == NewCount(b, items) && s.already == |items| - NewCount(b, items)
    && FreeFunds(s.book) == FreeFunds(b) - NewNet(b, items)
  }

  /** One item more, from a sweep that is clean so far. */
  lemma ItemAnswers(s: Sweep, t: TraderId, item: Item)
    requires Sound(s.book) && RegClear(s.book) && AllActive(s.book) && s.failure.None? && item.amount >= 0
    ensures var q, due := SweepOne(s, t, item, true), !IsPosted(s.book, RegKey(item.id));
      if due && item.incoming && item.amount > FreeFunds(s.book) then
        q.failure == Some(InsufficientMasterAccount)
      else
        && q.failure.None? && Sound(q.book)
        && q.net == s.net + (if due then Signed(item) else 0) && q.posted == s.posted + (if due then 1 else 0)
        && q.already == s.already + (if due then 0 else 1)
        && FreeFunds(q.book) == FreeFunds(s.book) - (if due then Signed(item) else 0)
  {
    var key := RegKey(item.id);
    assert KeyClear(s.book, key);
    StepKeeps(s, t, item);
    if !IsPosted(s.book, key) {
      RegularizationAnswers(s.book, t, item.amount, key, item.incoming);
      if PostRegularization(s.book, t, item.amount, key, item.incoming).result.Ok? {
        FreeAfterPosting(s.book, if item.incoming then TraderDeposit else TraderWithdrawal, t, item.amount, key,
                         item.incoming);
      }
    }
  }

  lemma NextAnswers(b: Book, t: TraderId, items: seq<Item>)
    requires Sound(b) && RegClear(b) && AllActive(b) && Amounts(items) && items != []
    requires SweepAll(b, t, items[..|items| - 1], true).failure.None?
    requires Swept(b, items[..|items| - 1], SweepAll(b, t, items[..|items| - 1], true))
    ensures var s := SweepAll(b, t, items, true);
      if PaidAt(b, items, |items| - 1) then s.failure.None? && Swept(b, items, s)
      else s.failure == Some(InsufficientMasterAccount)
  {
    var n := |items| - 1;
    var s, item := SweepAll(b, t, items[..n], true), items[n];
    assert items[..n + 1] == items;
    ApplyPosts(b, t, items[..n], item.id);
    ItemAnswers(s, t, item);
    StepKeeps(s, t, item);
  }

  /** An apply goes through if and only if each incoming row to be booked is free when it
      is reached. It then books each row that was not posted, once, and reports their net;
      otherwise the master account is short. */
  lemma {:induction false} ApplyGoesThroughIff(b: Book, t: TraderId, items: seq<Item>)
    requires Sound(b) && RegClear(b) && AllActive(b) && Amounts(items)
    ensures var s := SweepAll(b, t, items, true);
      if CanPay(b, items) then s.failure.None? && Swept(b, items, s)
      else s.failure == Some(InsufficientMasterAccount)
  {
    if items != [] {
      ApplyGoesThroughIff(b, t, items[..|items| - 1]);
      CanPayLast(b, items);
      if CanPay(b, items[..|items| - 1]) {
        NextAnswers(b, t, items);
      }
    }
  }

  lemma ApplyReports(b: Book, t: TraderId, items: seq<Item>)
    requires Sound(b) && RegClear(b) && AllActive(b) && Amounts(items)
    ensures var s := SweepAll(b, t, items, true);
      if CanPay(b, items) then
        && s.failure.None? && s.net == NewNet(b, items) && s.posted == NewCount(b, items)
        && s.already == |items| - NewCount(b, items)
      else s.failure == Some(InsufficientMasterAccount)
  {
    ApplyGoesThroughIff(b, t, items);
  }

  lemma {:induction false} NothingDueIsZero(b: Book, items: seq<Item>)
    requires NewCount(b, items) == 0
    ensures NewNet(b, items) == 0
  {
    if items != [] {
      NothingDueIsZero(b, items[..|items| - 1]);
    }
  }

  /** What an apply commits: its net goes from the master account to the trader, or
      nothing moves. */
  lemma ApplyCommits(b: Book, t: TraderId, items: seq<Item>)
    requires Sound(b) && RegClear(b) && AllActive(b) && Amounts(items)
    ensures var q := Committed(b, SweepAll(b, t, items, true));
      var net := if CanPay(b, items) then NewNet(b, items) else 0;
      && Moved(b, q, Holdings(t)) == net && Moved(b, q, MasterAccount) == -net
      && (!CanPay(b, items) ==> q == b)
  {
    ApplyGoesThroughIff(b, t, items);
    ApplyMovesNet(b, t, items);
    if NewCount(b, items) == 0 {
      NothingDueIsZero(b, items);
    }
  }

  // ── what it books ──

  function RowOf(item: Item, t: TraderId): Tx {
    Tx(if item.incoming then TraderDeposit else TraderWithdrawal, Posted, RegKey(item.id), Some(t), item.amount)
  }

  /** The book after the first k items. */
  function BookAt(b: Book, t: TraderId, items: seq<Item>, k: nat): Book
    requires k <= |items|
  {
    SweepAll(b, t, items[..k], true).book
  }

  lemma {:induction false} CleanPrefix(b: Book, t: TraderId, items: seq<Item>, k: nat)
    requires k <= |items| && SweepAll(b, t, items, true).failure.None?
    ensures SweepAll(b, t, items[..k], true).failure.None?
    decreases |items|
  {
    if k == |items| {
      assert items[..k] == items;
    } else {
      var n := |items| - 1;
      assert items[..n][..k] == items[..k];
      CleanPrefix(b, t, items[..n], k);
    }
  }

  lemma StepBooks(s: Sweep, t: TraderId, item: Item, id: int)
    requires RegClear(s.book) && s.failure.None? && SweepOne(s, t, item, true).failure.None?
    ensures var q := SweepOne(s, t, item, true).book;
      Row(q, RegKey(id)) == if id == item.id && !IsPosted(s.book, RegKey(id)) then Some(RowOf(item, t))
                            else Row(s.book, RegKey(id))
  {
    var kind := if item.incoming then TraderDeposit else TraderWithdrawal;
    assert KeyClear(s.book, RegKey(item.id));
    DirectPostEffect(s.book, kind, t, item.amount, RegKey(item.id), item.incoming);
    if RegKey(id) == RegKey(item.id) {
      RegKeyInjective(id, item.id);
    }
  }

  /** What item k of a clean sweep finds, and the sweep it leaves. */
  lemma SweepAt(b: Book, t: TraderId, items: seq<Item>, k: nat)
    requires Sound(b) && RegClear(b) && Amounts(items) && SweepAll(b, t, items, true).failure.None? && k < |items|
    ensures var s, q := SweepAll(b, t, items[..k], true), SweepAll(b, t, items[..k + 1], true);
      && s.failure.None? && RegClear(s.book) && q.failure.None? && q == SweepOne(s, t, items[k], true)
      && (IsPosted(s.book, RegKey(items[k].id)) <==> !DueAt(b, items, k))
  {
    CleanPrefix(b, t, items, k);
    CleanPrefix(b, t, items, k + 1);
    assert items[..k + 1][..k] == items[..k];
    ApplyMovesNet(b, t, items[..k]);
    ApplyPosts(b, t, items[..k], items[k].id);
  }

  lemma BooksAt(b: Book, t: TraderId, items: seq<Item>, k: nat, id: int)
    requires Sound(b) && RegClear(b) && Amounts(items) && SweepAll(b, t, items, true).failure.None? && k < |items|
    ensures Row(BookAt(b, t, items, k + 1), RegKey(id))
         == if id == items[k].id && DueAt(b, items, k) then Some(RowOf(items[k], t))
            else Row(BookAt(b, t, items, k), RegKey(id))
  {
    SweepAt(b, t, items, k);
    StepBooks(SweepAll(b, t, items[..k], true), t, items[k], id);
  }

  lemma {:induction false} RowStays(b: Book, t: TraderId, items: seq<Item>, key: string, first: nat, last: nat)
    requires first <= last <= |items|
    requires forall k: nat | first <= k < last ::
      Row(BookAt(b, t, items, k + 1), key) == Row(BookAt(b, t, items, k), key)
    ensures Row(BookAt(b, t, items, last), key) == Row(BookAt(b, t, items, first), key)
    decreases last
  {
    if first < last {
      RowStays(b, t, items, key, first, last - 1);
    }
  }

  lemma NamedIsNotDue(b: Book, items: seq<Item>, i: nat, k: nat)
    requires i < k < |items|
    ensures DueAt(b, items, k) ==> items[k].id != items[i].id
  {
    assert items[..k][i] == items[i];
  }

  /** After a clean apply the row of each item booked has its sign, amount and trader. */
  lemma ApplyBooks(b: Book, t: TraderId, items: seq<Item>, i: nat)
    requires Sound(b) && RegClear(b) && Amounts(items) && SweepAll(b, t, items, true).failure.None?
    requires i < |items| && DueAt(b, items, i)
    ensures Row(SweepAll(b, t, items, true).book, RegKey(items[i].id)) == Some(RowOf(items[i], t))
  {
    BooksAt(b, t, items, i, items[i].id);
    forall k: nat | i < k < |items|
      ensures Row(BookAt(b, t, items, k + 1), RegKey(items[i].id)) == Row(BookAt(b, t, items, k), RegKey(items[i].id))
    {
      BooksAt(b, t, items, k, items[i].id);
      NamedIsNotDue(b, items, i, k);
    }
    RowStays(b, t, items, RegKey(items[i].id), i + 1, |items|);
    assert items[..|items|] == items;
  }

  /** A dry run counts every row that is not posted, repeated ones each time, whether or
      not the apply would go through. */
  lemma {:induction false} DryRunCounts(b: Book, t: TraderId, items: seq<Item>)
    ensures SweepAll(b, t, items, false).net == NewNet(b, items) + RepeatNet(b, items)
  {
    if items != [] {
      DryRunCounts(b, t, items[..|items| - 1]);
      DryRunWritesNothing(b, t, items[..|items| - 1]);
    }
  }
}
