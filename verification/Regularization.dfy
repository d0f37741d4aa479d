/** Booking capital that reached an MT5 account without passing through here. */
module Regularization {
  import opened Common
  import opened Ledger
  import opened LedgerInvariants
  import opened LedgerTheorems
  import opened Capital

  /** One row of the engine's balance history; a missing field is None. */
  datatype CashRow = CashRow(kind: string, status: string, amount: Option<int>, id: Option<int>)

  datatype Item = Item(id: int, kind: string, amount: int, incoming: bool)

  function UpperChar(c: char): char {
    if 'a' <= c <= 'z' then (c as int - 32) as char else c
  }

  function Upper(s: string): string {
    seq(|s|, i requires 0 <= i < |s| => UpperChar(s[i]))
  }

  predicate IsInternal(kind: string) {
    Upper(kind) == "DEPOSIT" || Upper(kind) == "WITHDRAWAL"
  }

  predicate IsExternal(kind: string) {
    "EXTERNAL" <= Upper(kind)
  }

  /** Which rows a sweep takes, and how it reads them. */
  function Pick(row: CashRow, includeInternal: bool): Option<Item> {
    if !(IsExternal(row.kind) || (includeInternal && IsInternal(row.kind))) then None
    else if Upper(row.status) != "EXECUTED" then None
    else if row.amount.None? || row.amount.value == 0 || row.id.None? then None
    else
      var size := if row.amount.value < 0 then -row.amount.value else row.amount.value;
      Some(Item(row.id.value, Upper(row.kind), size - size % CENT, row.amount.value > 0))
  }

  function Select(rows: seq<CashRow>, includeInternal: bool): (items: seq<Item>)
    ensures forall i | 0 <= i < |items| :: items[i].amount >= 0
  {
    if rows == [] then []
    else
      var rest := Select(rows[..|rows| - 1], includeInternal);
      match Pick(rows[|rows| - 1], includeInternal)
      case None => rest
      case Some(item) => rest + [item]
  }

  /** What the sweep has done so far. */
  datatype Sweep = Sweep(book: Book, posted: nat, already: nat, net: int, failure: Option<LedgerError>)

  function Signed(item: Item): int {
    if item.incoming then item.amount else -item.amount
  }

  predicate IsPosted(b: Book, key: string) {
    Row(b, key).Some? && Row(b, key).value.status.Posted?
  }

  function SweepOne(s: Sweep, t: TraderId, item: Item, write: bool): Sweep {
    if s.failure.Some? then s
    else if IsPosted(s.book, RegKey(item.id)) then s.(already := s.already + 1)
    else if !write then s.(net := s.net + Signed(item))
    else
      var o := PostRegularization(s.book, t, item.amount, RegKey(item.id), item.incoming);
      match o.result
      case Ok(_) => s.(book := o.book, posted := s.posted + 1, net := s.net + Signed(item))
      case Err(e) => s.(book := o.book, failure := Some(e))
  }

  function SweepAll(b: Book, t: TraderId, items: seq<Item>, write: bool): Sweep {
    if items == [] then Sweep(b, 0, 0, 0, None)
    else SweepOne(SweepAll(b, t, items[..|items| - 1], write), t, items[|items| - 1], write)
  }

  /** What is committed: everything, or nothing when one posting fails. */
  function Committed(b: Book, s: Sweep): Book {
    if s.failure.Some? || s.posted == 0 then b else s.book
  }

  // ── theorems ──

  /** A row is booked with the sign it has, cut to whole cents, never rounded away from
      zero; an internal movement only when asked for. */
  lemma PickCutsToCents(row: CashRow, includeInternal: bool)
    requires Pick(row, includeInternal).Some?
    ensures var item := Pick(row, includeInternal).value;
      && row.amount.Some? && Some(item.id) == row.id
      && Signed(item) % CENT == 0
      && (row.amount.value > 0 ==> 0 <= Signed(item) <= row.amount.value < Signed(item) + CENT)
      && (row.amount.value < 0 ==> Signed(item) - CENT < row.amount.value <= Signed(item) <= 0)
      && (IsInternal(row.kind) && !IsExternal(row.kind) ==> includeInternal)
  {
    var size := if row.amount.value < 0 then -row.amount.value else row.amount.value;
    assert (size - size % CENT) % CENT == 0;
  }

  /** Every item of a clean apply is posted by it or was posted already. */
  lemma {:induction false} ApplyCounts(b: Book, t: TraderId, items: seq<Item>, write: bool)
    requires SweepAll(b, t, items, write).failure.None?
    ensures var s := SweepAll(b, t, items, write);
      s.posted + s.already <= |items| && (write ==> s.posted + s.already == |items|)
  {
    if items != [] {
      ApplyCounts(b, t, items[..|items| - 1], write);
    }
  }

  ghost predicate RegClear(b: Book) {
    forall id :: KeyClear(b, RegKey(id))
  }

  ghost predicate Amounts(items: seq<Item>) {
    forall i | 0 <= i < |items| :: items[i].amount >= 0
  }

  lemma RegKeyInjective(a: int, b: int)
    requires RegKey(a) == RegKey(b)
    ensures a == b
  {
    assert RegKey(a)[15..] == IntStr(a) && RegKey(b)[15..] == IntStr(b);
    IntStrInjective(a, b);
  }

  /** One posting moves its signed amount from the master account to the trader. */
  lemma PostedMoves(b: Book, t: TraderId, item: Item)
    requires Row(b, RegKey(item.id)).None?
    requires PostRegularization(b, t, item.amount, RegKey(item.id), item.incoming).result.Ok?
    ensures var q := PostRegularization(b, t, item.amount, RegKey(item.id), item.incoming).book;
      && BalanceOf(q.entries, Holdings(t)) == BalanceOf(b.entries, Holdings(t)) + Signed(item)
      && BalanceOf(q.entries, MasterAccount) == BalanceOf(b.entries, MasterAccount) - Signed(item)
  {
    var kind := if item.incoming then TraderDeposit else TraderWithdrawal;
    PostMoves(b, kind, t, item.amount, RegKey(item.id), item.incoming);
    var q := PostRegularization(b, t, item.amount, RegKey(item.id), item.incoming).book;
    assert Moved(b, q, Holdings(t)) == Signed(item) && Moved(b, q, MasterAccount) == -Signed(item);
  }

  lemma RegClearKept(b: Book, q: Book, id: int)
    requires RegClear(b) && OnlyKey(b, q, RegKey(id)) && KeyClear(q, RegKey(id))
    ensures RegClear(q)
  {
    forall j ensures KeyClear(q, RegKey(j)) {
      assert KeyClear(b, RegKey(j));
    }
  }

  /** A sweep step keeps the book sound and touches only the row of its item. */
  lemma StepKeeps(s: Sweep, t: TraderId, item: Item)
    requires Sound(s.book) && RegClear(s.book) && item.amount >= 0
    ensures var q := SweepOne(s, t, item, true).book;
      && Sound(q) && RegClear(q) && OnlyKey(s.book, q, RegKey(item.id))
      && (AllActive(s.book) ==> AllActive(q))
  {
    var key, q := RegKey(item.id), SweepOne(s, t, item, true).book;
    var kind := if item.incoming then TraderDeposit else TraderWithdrawal;
    assert KeyClear(s.book, key);
    if q != s.book {
      assert q == PostDirect(s.book, kind, t, item.amount, key, item.incoming).book;
      DirectPostKeepsSound(s.book, kind, t, item.amount, key, item.incoming);
      DirectPostEffect(s.book, kind, t, item.amount, key, item.incoming);
      RegClearKept(s.book, q, item.id);
    }
  }

  /** Whatever the listing, an apply moves exactly the net it reports, and only
      rows of swept ids appear. */
  lemma {:induction false} ApplyMovesNet(b: Book, t: TraderId, items: seq<Item>)
    requires Sound(b) && RegClear(b) && Amounts(items)
    ensures var s := SweepAll(b, t, items, true);
      && Sound(s.book) && RegClear(s.book) && (AllActive(b) ==> AllActive(s.book))
      && BalanceOf(s.book.entries, Holdings(t)) == BalanceOf(b.entries, Holdings(t)) + s.net
      && BalanceOf(s.book.entries, MasterAccount) == BalanceOf(b.entries, MasterAccount) - s.net
  {
    if items != [] {
      var init, item := items[..|items| - 1], items[|items| - 1];
      ApplyMovesNet(b, t, init);
      var s := SweepAll(b, t, init, true);
      StepKeeps(s, t, item);
      var key := RegKey(item.id);
      assert KeyClear(s.book, key);
      if s.failure.None? && Row(s.book, key).None? {
        var o := PostRegularization(s.book, t, item.amount, key, item.incoming);
        if o.result.Ok? {
          PostedMoves(s.book, t, item);
        } else {
          DirectPostEffect(s.book, if item.incoming then TraderDeposit else TraderWithdrawal, t, item.amount,
                           key, item.incoming);
        }
      }
    }
  }

  /** The ids a prefix of the listing names. */
  predicate Names(items: seq<Item>, id: int) {
    exists i | 0 <= i < |items| :: items[i].id == id
  }

  lemma NamesLast(items: seq<Item>, id: int)
    requires items != []
    ensures Names(items, id) <==> Names(items[..|items| - 1], id) || items[|items| - 1].id == id
  {
    var init := items[..|items| - 1];
    if Names(init, id) {
      var i :| 0 <= i < |init| && init[i].id == id;
      assert items[i].id == id;
    }
    if Names(items, id) {
      var i :| 0 <= i < |items| && items[i].id == id;
      assert i < |init| ==> init[i].id == id;
    }
  }

  lemma StepPosts(s: Sweep, t: TraderId, item: Item, id: int)
    requires RegClear(s.book) && s.failure.None? && SweepOne(s, t, item, true).failure.None?
    ensures IsPosted(SweepOne(s, t, item, true).book, RegKey(id))
       <==> IsPosted(s.book, RegKey(id)) || id == item.id
  {
    var kind := if item.incoming then TraderDeposit else TraderWithdrawal;
    assert KeyClear(s.book, RegKey(item.id));
    DirectPostEffect(s.book, kind, t, item.amount, RegKey(item.id), item.incoming);
    if RegKey(id) == RegKey(item.id) {
      RegKeyInjective(id, item.id);
    }
  }

  /** After a clean apply a row is posted when it already was or was listed. */
  lemma {:induction false} ApplyPosts(b: Book, t: TraderId, items: seq<Item>, id: int)
    requires Sound(b) && RegClear(b) && Amounts(items)
    requires SweepAll(b, t, items, true).failure.None?
    ensures IsPosted(SweepAll(b, t, items, true).book, RegKey(id))
       <==> IsPosted(b, RegKey(id)) || Names(items, id)
  {
    if items != [] {
      var init, item := items[..|items| - 1], items[|items| - 1];
      var s := SweepAll(b, t, init, true);
      assert s.failure.None? && SweepOne(s, t, item, true) == SweepAll(b, t, items, true);
      ApplyPosts(b, t, init, id);
      assert RegClear(s.book) by { ApplyMovesNet(b, t, init); }
      StepPosts(s, t, item, id);
      NamesLast(items, id);
    }
  }

  /** What a dry run counts twice: unposted rows whose id the listing repeats. */
  function RepeatNet(b: Book, items: seq<Item>): int {
    if items == [] then 0
    else
      var init, item := items[..|items| - 1], items[|items| - 1];
      RepeatNet(b, init) + if !IsPosted(b, RegKey(item.id)) && Names(init, item.id) then Signed(item) else 0
  }

  lemma {:induction false} DryRunWritesNothing(b: Book, t: TraderId, items: seq<Item>)
    ensures var d := SweepAll(b, t, items, false);
      d.book == b && d.posted == 0 && d.failure.None?
  {
    if items != [] {
      DryRunWritesNothing(b, t, items[..|items| - 1]);
    }
  }

  /** The dry run's net exceeds the apply's by exactly the repeated rows. */
  lemma {:induction false} DryRunExcess(b: Book, t: TraderId, items: seq<Item>)
    requires Sound(b) && RegClear(b) && Amounts(items)
    requires SweepAll(b, t, items, true).failure.None?
    ensures SweepAll(b, t, items, false).net == SweepAll(b, t, items, true).net + RepeatNet(b, items)
  {
    if items != [] {
      var init, item := items[..|items| - 1], items[|items| - 1];
      DryRunExcess(b, t, init);
      ApplyPosts(b, t, init, item.id);
      DryRunWritesNothing(b, t, init);
    }
  }

  ghost predicate DistinctIds(items: seq<Item>) {
    forall i, j | 0 <= i < j < |items| :: items[i].id != items[j].id
  }

  lemma {:induction false} DistinctNoRepeat(b: Book, items: seq<Item>)
    requires DistinctIds(items)
    ensures RepeatNet(b, items) == 0
  {
    if items != [] {
      DistinctNoRepeat(b, items[..|items| - 1]);
    }
  }

  /** The simulation tells the truth: its net is what a successful apply adds to the
      trader's holdings and takes from the master account, exactly when the repeated
      rows of the listing net to nothing; in particular when no id repeats. */
  lemma DryRunPredictsApply(b: Book, t: TraderId, items: seq<Item>)
    requires Sound(b) && RegClear(b) && Amounts(items)
    requires SweepAll(b, t, items, true).failure.None?
    ensures var d, q := SweepAll(b, t, items, false), SweepAll(b, t, items, true).book;
      && (BalanceOf(q.entries, Holdings(t)) - BalanceOf(b.entries, Holdings(t)) == d.net <==> RepeatNet(b, items) == 0)
      && (BalanceOf(b.entries, MasterAccount) - BalanceOf(q.entries, MasterAccount) == d.net
          <==> RepeatNet(b, items) == 0)
    ensures DistinctIds(items) ==> RepeatNet(b, items) == 0
  {
    ApplyMovesNet(b, t, items);
    DryRunExcess(b, t, items);
    if DistinctIds(items) {
      DistinctNoRepeat(b, items);
    }
  }

  lemma {:induction false} AllPostedIsIdle(q: Book, t: TraderId, items: seq<Item>)
    requires forall i | 0 <= i < |items| :: IsPosted(q, RegKey(items[i].id))
    ensures SweepAll(q, t, items, true) == Sweep(q, 0, |items|, 0, None)
  {
    if items != [] {
      var init := items[..|items| - 1];
      assert forall i | 0 <= i < |init| :: init[i] == items[i];
      AllPostedIsIdle(q, t, init);
    }
  }

  /** Applying the same listing again posts nothing and moves nothing. */
  lemma SecondApplyIsIdle(b: Book, t: TraderId, items: seq<Item>)
    requires Sound(b) && RegClear(b) && Amounts(items)
    requires SweepAll(b, t, items, true).failure.None?
    ensures var q := SweepAll(b, t, items, true).book;
      SweepAll(q, t, items, true) == Sweep(q, 0, |items|, 0, None)
  {
    var q := SweepAll(b, t, items, true).book;
    forall i | 0 <= i < |items|
      ensures IsPosted(q, RegKey(items[i].id))
    {
      ApplyPosts(b, t, items, items[i].id);
      assert Names(items, items[i].id);
    }
    AllPostedIsIdle(q, t, items);
  }

  // ── a listing that repeats a row ──

  /** A withdrawal of one cent made outside, listed on two pages. */
  const TWICE := [CashRow("EXTERNAL_WITHDRAWAL", "EXECUTED", Some(-CENT), Some(1)),
                  CashRow("EXTERNAL_WITHDRAWAL", "EXECUTED", Some(-CENT), Some(1))]

  lemma TwiceIsSelected()
    ensures Select(TWICE, false)
         == [Item(1, "EXTERNAL_WITHDRAWAL", CENT, false), Item(1, "EXTERNAL_WITHDRAWAL", CENT, false)]
  {
    assert Upper("EXTERNAL_WITHDRAWAL") == "EXTERNAL_WITHDRAWAL" && Upper("EXECUTED") == "EXECUTED";
    assert "EXTERNAL_WITHDRAWAL"[..8] == "EXTERNAL";
    var item := Item(1, "EXTERNAL_WITHDRAWAL", CENT, false);
    assert Pick(TWICE[0], false) == Some(item) && Pick(TWICE[1], false) == Some(item);
    assert TWICE[..1] == [TWICE[0]] && TWICE[..1][..0] == [];
    assert Select(TWICE[..1], false) == Select([], false) + [item];
  }

  const ONCE := Item(1, "EXTERNAL_WITHDRAWAL", CENT, false)

  /** The first posting goes through, and the second finds it. */
  lemma FirstIsPosted()
    ensures var o := PostRegularization(EmptyBook, "t", CENT, RegKey(1), false);
      && o.result.Ok? && IsPosted(o.book, RegKey(1)) && BalanceOf(o.book.entries, MasterAccount) == CENT
  {
    EnsureAllProvisions(EmptyBook, "t");
    DirectPostEffect(EmptyBook, TraderWithdrawal, "t", CENT, RegKey(1), false);
    PostedMoves(EmptyBook, "t", ONCE);
  }

  lemma SweepTwice(b: Book, t: TraderId, item: Item, write: bool)
    ensures SweepAll(b, t, [item, item], write)
         == SweepOne(SweepOne(Sweep(b, 0, 0, 0, None), t, item, write), t, item, write)
  {
    assert [item, item][..1] == [item] && [item][..0] == [];
    assert SweepAll(b, t, [], write) == Sweep(b, 0, 0, 0, None);
    assert SweepAll(b, t, [item], write) == SweepOne(Sweep(b, 0, 0, 0, None), t, item, write);
  }

  /** The simulation says two cents, and the apply of an empty ledger moves one. */
  lemma RepeatedRowMisleads()
    ensures var items := Select(TWICE, false);
      var d, s := SweepAll(EmptyBook, "t", items, false), SweepAll(EmptyBook, "t", items, true);
      && s.failure.None? && d.net == -2 * CENT && s.net == -CENT
      && BalanceOf(s.book.entries, MasterAccount) == CENT
  {
    TwiceIsSelected();
    FirstIsPosted();
    SweepTwice(EmptyBook, "t", ONCE, false);
    SweepTwice(EmptyBook, "t", ONCE, true);
  }
}
