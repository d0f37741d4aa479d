/** What the sweeps of a run have booked is what the engine's history shows. */
module CapitalSwept {
  import opened Common
  import opened Ledger
  import opened LedgerInvariants
  import opened Capital
  import opened Regularization
  import opened RegularizationAnswers
  import opened CapitalInvariants
  import opened CapitalProtocol
  import opened CapitalRuns
  import opened CapitalFamilies
  import opened CapitalEngine

  /** A journal row and the row of the engine's history it books: executed, of a kind that
      is booked, with its sign and the whole cents of its size. */
  predicate Books(row: Tx, shown: Cash) {
    && row.status.Posted? && row.trader.Some? && SameLetters(shown.status, "EXECUTED")
    && (StartsExternal(shown.kind) || SameLetters(shown.kind, "DEPOSIT") || SameLetters(shown.kind, "WITHDRAWAL"))
    && row.amount % CENT == 0
    && (if shown.amount > 0 then row.kind.TraderDeposit? && row.amount <= shown.amount < row.amount + CENT
        else shown.amount < 0 && row.kind.TraderWithdrawal? && row.amount <= -shown.amount < row.amount + CENT)
  }

  ghost predicate SweepsBook(b: Book, cash: seq<Cash>) {
    forall id {:trigger RegKey(id)} | Row(b, RegKey(id)).Some? ::
      0 <= id < |cash| && Books(Row(b, RegKey(id)).value, cash[id])
  }

  // ── a sweep ──

  lemma {:induction false} FirstNamed(items: seq<Item>, id: int) returns (i: nat)
    requires Names(items, id)
    ensures i < |items| && items[i].id == id && !Names(items[..i], id)
  {
    var n := |items| - 1;
    NamesLast(items, id);
    if Names(items[..n], id) {
      i := FirstNamed(items[..n], id);
      assert items[..n][..i] == items[..i];
    } else {
      i := n;
    }
  }

  /** After a clean apply a sweep's row is as it was, or is that of an item it booked. */
  lemma RowIsBooked(b: Book, t: TraderId, items: seq<Item>, id: int) returns (i: nat)
    requires Sound(b) && RegClear(b) && Amounts(items) && SweepAll(b, t, items, true).failure.None?
    requires Row(SweepAll(b, t, items, true).book, RegKey(id)) != Row(b, RegKey(id))
    ensures i < |items| && items[i].id == id
    ensures Row(SweepAll(b, t, items, true).book, RegKey(id)) == Some(RowOf(items[i], t))
  {
    if !Names(items, id) {
      SweepLeavesOthers(b, t, items, id);
    }
    i := FirstNamed(items, id);
    if IsPosted(b, RegKey(id)) {
      PostedStays(b, t, items, id);
    }
    ApplyBooks(b, t, items, i);
  }

  lemma PostedStays(b: Book, t: TraderId, items: seq<Item>, id: int)
    requires Sound(b) && RegClear(b) && Amounts(items) && SweepAll(b, t, items, true).failure.None?
    requires IsPosted(b, RegKey(id))
    ensures Row(SweepAll(b, t, items, true).book, RegKey(id)) == Row(b, RegKey(id))
  {
    forall k: nat | 0 <= k < |items|
      ensures Row(BookAt(b, t, items, k + 1), RegKey(id)) == Row(BookAt(b, t, items, k), RegKey(id))
    {
      BooksAt(b, t, items, k, id);
    }
    RowStays(b, t, items, RegKey(id), 0, |items|);
    assert items[..|items|] == items;
  }

  /** An item of the listing is booked as the engine shows its row. */
  lemma ItemBooks(s: System, acc: Login, listing: seq<nat>, includeInternal: bool, i: nat, t: TraderId)
    requires forall k | 0 <= k < |listing| :: listing[k] < |s.cash| && s.cash[listing[k]].account == acc
    requires i < |Select(Listed(s.cash, listing), includeInternal)|
    ensures var item := Select(Listed(s.cash, listing), includeInternal)[i];
      0 <= item.id < |s.cash| && Books(RowOf(item, t), s.cash[item.id])
  {
    var rows := Listed(s.cash, listing);
    var j := SelectOrigin(rows, includeInternal, i);
    PickTakes(rows[j], includeInternal);
  }

  lemma SweepKeepsBooks(s: System, step: Step)
    requires LocalInv(s) && step.Regularize? && SweepsBook(s.db.book, s.cash)
    ensures SweepsBook(DoRegularize(s, step).db.book, s.cash)
  {
    var q := DoRegularize(s, step).db.book;
    if q != s.db.book {
      var b, items := s.db.book, Select(Listed(s.cash, step.listing), step.includeInternal);
      WritesOnly(s, step);
      AllRegClear(b);
      forall id | Row(q, RegKey(id)).Some? ensures 0 <= id < |s.cash| && Books(Row(q, RegKey(id)).value, s.cash[id]) {
        if Row(q, RegKey(id)) != Row(b, RegKey(id)) {
          var i := RowIsBooked(b, step.trader, items, id);
          ItemBooks(s, step.account, step.listing, step.includeInternal, i, step.trader);
        }
      }
    }
  }

  /** A sweep that changes the book is a clean apply of a listing of the account. */
  lemma WritesOnly(s: System, step: Step)
    requires step.Regularize? && DoRegularize(s, step).db.book != s.db.book
    ensures forall k | 0 <= k < |step.listing| ::
      step.listing[k] < |s.cash| && s.cash[step.listing[k]].account == step.account
    ensures var items := Select(Listed(s.cash, step.listing), step.includeInternal);
      && SweepAll(s.db.book, step.trader, items, true).failure.None?
      && DoRegularize(s, step).db.book == SweepAll(s.db.book, step.trader, items, true).book
  {
    var items := Select(Listed(s.cash, step.listing), step.includeInternal);
    if !step.write {
      DryRunWritesNothing(s.db.book, step.trader, items);
    }
  }

  // ── every run ──

  lemma CashGrows(s: System, step: Step)
    ensures |s.cash| <= |Exec(s, step).cash| && forall i | 0 <= i < |s.cash| :: Exec(s, step).cash[i] == s.cash[i]
  {
  }

  lemma SweepStepKeepsBooks(s: System, step: Step)
    requires LocalInv(s) && step.Regularize? && SweepsBook(s.db.book, s.cash)
    ensures SweepsBook(Exec(s, step).db.book, Exec(s, step).cash)
  {
    SweepKeepsBooks(s, step);
    assert Exec(s, step) == DoRegularize(s, step);
  }

  lemma FamilyStepKeepsBooks(s: System, step: Step)
    requires LocalInv(s) && !step.Regularize? && SweepsBook(s.db.book, s.cash)
    ensures SweepsBook(Exec(s, step).db.book, Exec(s, step).cash)
  {
    StepKeepsFamily(s, step, 'r');
    OtherStepKeepsBooks(s, step);
  }

  lemma StepKeepsBooks(s: System, step: Step)
    requires LocalInv(s) && SweepsBook(s.db.book, s.cash)
    ensures SweepsBook(Exec(s, step).db.book, Exec(s, step).cash)
  {
    if step.Regularize? {
      SweepStepKeepsBooks(s, step);
    } else {
      FamilyStepKeepsBooks(s, step);
    }
  }

  lemma OtherStepKeepsBooks(s: System, step: Step)
    requires FamilyKept(s.db.book, Exec(s, step).db.book, 'r') && SweepsBook(s.db.book, s.cash)
    ensures SweepsBook(Exec(s, step).db.book, Exec(s, step).cash)
  {
    CashGrows(s, step);
    KeptSweeps(s.db.book, Exec(s, step).db.book, s.cash, Exec(s, step).cash);
  }

  lemma KeptSweeps(b: Book, q: Book, cash: seq<Cash>, after: seq<Cash>)
    requires SweepsBook(b, cash) && FamilyKept(b, q, 'r')
    requires |cash| <= |after| && forall i | 0 <= i < |cash| :: after[i] == cash[i]
    ensures SweepsBook(q, after)
  {
    forall id | Row(q, RegKey(id)).Some? ensures 0 <= id < |after| && Books(Row(q, RegKey(id)).value, after[id]) {
      assert Family(RegKey(id)) == 'r';
      assert Row(q, RegKey(id)) == Row(b, RegKey(id));
    }
  }

  lemma {:induction false} RunKeepsBooks(s: System, steps: seq<Step>)
    requires LocalInv(s) && SweepsBook(s.db.book, s.cash)
    ensures SweepsBook(Run(s, steps).db.book, Run(s, steps).cash)
    decreases |steps|
  {
    if steps != [] {
      StepKeepsLocal(s, steps[0]);
      StepKeepsBooks(s, steps[0]);
      RunKeepsBooks(Exec(s, steps[0]), steps[1..]);
    }
  }

  /** In every run the row a sweep booked under an id is that of the engine's row of the
      id: executed, with its sign and the whole cents of its size. */
  lemma SweptIsShown(steps: seq<Step>, id: int)
    requires Row(Run(Initial, steps).db.book, RegKey(id)).Some?
    ensures var s := Run(Initial, steps);
      0 <= id < |s.cash| && Books(Row(s.db.book, RegKey(id)).value, s.cash[id])
  {
    InitialLocal();
    RunKeepsBooks(Initial, steps);
  }
}
