/** Why the keys must be told apart, exactly: for any two keys that strip to the same
    text there is a run in which the engine carries out one deposit and the books
    post two. */
module CapitalCollisions {
  import opened Common
  import opened Ledger
  import opened LedgerInvariants
  import opened LedgerTheorems
  import opened Capital
  import opened CapitalInvariants
  import opened CapitalProtocol
  import opened CapitalRuns
  import opened CapitalEngine
  import opened CapitalEffects
  import opened CapitalCompletes
  import opened CapitalTheorems

  const ACCEPTED := Done(Report(None, None, false))

  /** A deposit of one cent, asked for and served: the engine carries it out unless it
      knows the key, and accepts. */
  function Deposit6(rid: nat, m: string): seq<Step> {
    [Ask(rid, Deposit, m, "1", "t", CENT, false), Begin(rid), Send(rid),
     Execute(EngineKey(m)), Hear(rid, ACCEPTED), Finish(rid)]
  }

  function Asked1(m: string, phase: Phase): Request {
    Request(Deposit, m, "1", "t", CENT, phase)
  }

  /** Enough money free, nothing under way, and a key new here that the engine does not
      know, or has carried out. */
  ghost predicate Ready(s: System, m: string) {
    && LocalInv(s) && OwnersExist(s.db.book) && s.requests == map[]
    && m != "" && EngineKey(m) != "" && m !in s.db.moves && !PendingOn(s.db.moves, "1")
    && Available(s.db.book).2 >= CENT
    && (EngineKey(m) in s.calls ==> s.calls[EngineKey(m)].status.Executed?)
  }

  /** The last of the six steps, taken apart. */
  function Held(s: System, m: string): System
    requires ReserveDeposit(s.db, m, "1", "t", CENT).Ok?
  {
    s.(db := ReserveDeposit(s.db, m, "1", "t", CENT).value, requests := map[0 := Asked1(m, Reserved)])
  }

  lemma ReservesWhenFree(db: Db, m: string)
    requires DbInv(db) && m !in db.moves && !PendingOn(db.moves, "1") && Available(db.book).2 >= CENT
    ensures ReserveDeposit(db, m, "1", "t", CENT).Ok?
  {
    EnsureAllProvisions(db.book, "t");
    assert Row(db.book, LdgKey(m)).None?;
  }

  lemma AskIsTaken(s: System, m: string)
    requires m != "" && m !in s.db.moves && s.requests == map[]
    ensures DoAsk(s, Ask(0, Deposit, m, "1", "t", CENT, false)) == s.(requests := map[0 := Asked1(m, Checked)])
  {
    assert Normalize(CENT) == Some(CENT);
  }

  lemma BeginReserves(s: System, m: string)
    requires s.requests == map[0 := Asked1(m, Checked)] && ReserveDeposit(s.db, m, "1", "t", CENT).Ok?
    ensures DoBegin(s, 0) == Held(s, m)
  {
    assert s.requests[0 := Asked1(m, Reserved)] == map[0 := Asked1(m, Reserved)];
  }

  /** What the engine knows and did once it carried the deposit out. */
  function CallsAfter(s: System, m: string): map<string, Call> {
    if EngineKey(m) in s.calls then s.calls else s.calls[EngineKey(m) := Call(Deposit, "1", CENT, Executed)]
  }

  function CashAfter(s: System, m: string): seq<Cash> {
    if EngineKey(m) in s.calls then s.cash
    else s.cash + [Cash("1", "DEPOSIT", "EXECUTED", CENT, Some(EngineKey(m)))]
  }

  lemma SentAndHeard(h: System, m: string)
    requires h.requests == map[0 := Asked1(m, Reserved)] && EngineKey(m) != ""
    requires EngineKey(m) in h.calls ==> h.calls[EngineKey(m)].status.Executed?
    ensures var q := DoHear(DoExecute(DoSend(h, 0), EngineKey(m)), 0, ACCEPTED);
      && q.db == h.db && q.requests == map[0 := Asked1(m, Heard(ACCEPTED))]
      && q.calls == CallsAfter(h, m) && q.cash == CashAfter(h, m)
  {
    var sent := DoSend(h, 0);
    assert sent.requests == map[0 := Asked1(m, Waiting)];
    var done := DoExecute(sent, EngineKey(m));
    assert done.calls == CallsAfter(h, m) && done.requests == sent.requests;
  }

  /** The two last facts about the books: the deposit is posted, nothing else moved. */
  lemma AcceptedCloses(db: Db, m: string)
    requires DbInv(db) && OwnersExist(db.book) && Tracked(db, Asked1(m, Heard(ACCEPTED)))
    ensures var q := Closing(db, Asked1(m, Heard(ACCEPTED)));
      && DbInv(q) && m in q.moves && !q.moves[m].status.InFlight? && !q.moves[m].direction.Funding?
      && q.moves == db.moves[m := q.moves[m]]
      && Row(q.book, LdgKey(m)).Some? && Row(q.book, LdgKey(m)).value.status.Posted?
      && OwnersKept(db.book, q.book) && OnlyKey(db.book, q.book, LdgKey(m))
      && Available(q.book).2 == Available(db.book).2
  {
    SettlesAlways(db, m, None);
    SettleKeeps(db, m, None);
    SettlePays(db, m, None);
    CommitOwners(db.book, db.moves[m].ledgerTx.value);
    HeldRow(db, m);
    CommitEffect(db.book, db.moves[m].ledgerTx.value);
    var q := SettleDeposit(db, m, None).value;
    assert Agrees(q.book, m, q.moves[m]);
  }

  /** The reserved books. */
  lemma Reserves(db: Db, m: string)
    requires DbInv(db) && OwnersExist(db.book) && ReserveDeposit(db, m, "1", "t", CENT).Ok?
    ensures var h := ReserveDeposit(db, m, "1", "t", CENT).value;
      && DbInv(h) && OwnersExist(h.book) && Tracked(h, Asked1(m, Heard(ACCEPTED)))
      && h.moves == db.moves[m := h.moves[m]] && OnlyKey(db.book, h.book, LdgKey(m))
      && Available(h.book).2 == Available(db.book).2 - CENT
  {
    ReserveKeeps(db, m, "1", "t", CENT);
    ReserveHolds(db, m, "1", "t", CENT);
    HoldOwners(db.book, "t", CENT, LdgKey(m));
    HoldEffect(db.book, "t", CENT, LdgKey(m));
    KeptExist(db.book, CreateDepositHold(db.book, "t", CENT, LdgKey(m)).book);
  }

  /** The deposit is posted, and nothing else moved. */
  ghost predicate DbAfter(db: Db, q: Db, m: string) {
    && OwnersExist(q.book) && !PendingOn(q.moves, "1")
    && m in q.moves && !q.moves[m].direction.Funding? && q.moves == db.moves[m := q.moves[m]]
    && Row(q.book, LdgKey(m)).Some? && Row(q.book, LdgKey(m)).value.status.Posted?
    && (forall k | k != LdgKey(m) :: Row(q.book, k) == Row(db.book, k))
    && Available(q.book).2 == Available(db.book).2 - CENT
  }

  /** After the six steps: and the engine has carried it out, or another of the same
      key before. */
  ghost predicate Served(s: System, q: System, m: string) {
    && DbAfter(s.db, q.db, m) && q.requests == map[]
    && q.calls == CallsAfter(s, m) && q.cash == CashAfter(s, m)
  }

  lemma DepositRuns(s: System, m: string)
    requires Ready(s, m)
    ensures Served(s, Run(s, Deposit6(0, m)), m)
  {
    ReservesWhenFree(s.db, m);
    AskIsTaken(s, m);
    BeginReserves(s.(requests := map[0 := Asked1(m, Checked)]), m);
    SixSteps(s, m);
    Reserves(s.db, m);
    SentAndHeard(Held(s, m), m);
    DbServed(s.db, Held(s, m).db, m);
    HeardServes(s, Held(s, m).db, DoHear(DoExecute(DoSend(Held(s, m), 0), EngineKey(m)), 0, ACCEPTED), m);
  }

  lemma BooksServed(b: Book, h: Book, q: Book, key: string)
    requires OnlyKey(b, h, key) && OnlyKey(h, q, key)
    ensures forall k | k != key :: Row(q, k) == Row(b, k)
  {
    forall k | k != key ensures Row(q, k) == Row(b, k) {
      assert Row(h, k) == Row(b, k);
    }
  }

  lemma MovesServed(moves: map<string, Movement>, h: map<string, Movement>, q: map<string, Movement>, m: string)
    requires !PendingOn(moves, "1") && m in h && h == moves[m := h[m]] && m in q && q == h[m := q[m]]
    requires !q[m].status.InFlight?
    ensures q == moves[m := q[m]] && !PendingOn(q, "1")
  {
  }

  /** The database a deposit goes through: as it was, held, and closed. */
  lemma DbServed(db: Db, h: Db, m: string)
    requires !PendingOn(db.moves, "1")
    requires DbInv(h) && OwnersExist(h.book) && Tracked(h, Asked1(m, Heard(ACCEPTED)))
    requires h.moves == db.moves[m := h.moves[m]] && OnlyKey(db.book, h.book, LdgKey(m))
    requires Available(h.book).2 == Available(db.book).2 - CENT
    ensures DbAfter(db, Closing(h, Asked1(m, Heard(ACCEPTED))), m)
  {
    AcceptedCloses(h, m);
    var q := Closing(h, Asked1(m, Heard(ACCEPTED)));
    KeptExist(h.book, q.book);
    BooksServed(db.book, h.book, q.book, LdgKey(m));
    MovesServed(db.moves, h.moves, q.moves, m);
  }

  lemma HeardServes(s: System, h: Db, heard: System, m: string)
    requires Tracked(h, Asked1(m, Heard(ACCEPTED)))
    requires DbAfter(s.db, Closing(h, Asked1(m, Heard(ACCEPTED))), m)
    requires heard.db == h && heard.requests == map[0 := Asked1(m, Heard(ACCEPTED))]
    requires heard.calls == CallsAfter(s, m) && heard.cash == CashAfter(s, m)
    ensures Served(s, DoFinish(heard, 0), m)
  {
    FinishCloses(heard, m);
  }

  lemma FinishCloses(s: System, m: string)
    requires s.requests == map[0 := Asked1(m, Heard(ACCEPTED))] && Tracked(s.db, Asked1(m, Heard(ACCEPTED)))
    ensures DoFinish(s, 0) == s.(db := Closing(s.db, Asked1(m, Heard(ACCEPTED))), requests := map[])
  {
    assert s.requests - {0} == map[];
  }

  lemma SixSteps(s: System, m: string)
    ensures var asked := DoAsk(s, Ask(0, Deposit, m, "1", "t", CENT, false));
      Run(s, Deposit6(0, m))
      == DoFinish(DoHear(DoExecute(DoSend(DoBegin(asked, 0), 0), EngineKey(m)), 0, ACCEPTED), 0)
  {
    FoldSix(Exec, s, Ask(0, Deposit, m, "1", "t", CENT, false), Begin(0), Send(0), Execute(EngineKey(m)),
            Hear(0, ACCEPTED), Finish(0));
  }

  // ── the run ──

  /** Two cents, under a key that is neither of the two. */
  function Funding(a: string, b: string): Step {
    Fund(a + b + ".", 2 * CENT)
  }

  function CollidingRun(a: string, b: string): seq<Step> {
    [Funding(a, b)] + Deposit6(0, a) + Deposit6(0, b)
  }

  /** The ledger after the first funding, in a sound state. */
  lemma FundsTwoCents(m: string)
    ensures var q := Exec(Initial, Fund(m, 2 * CENT));
      && LocalInv(q) && OwnersExist(q.db.book) && q.requests == map[] && q.calls == map[] && q.cash == []
      && q.db.moves.Keys == {m} && !PendingOn(q.db.moves, "1") && Available(q.db.book).2 == 2 * CENT
  {
    InitialLocal();
    StepKeepsLocal(Initial, Fund(m, 2 * CENT));
    FundedOwners(m);
    FirstFunding(m);
    FundedDb(m);
  }

  lemma FundedDb(m: string)
    requires FundMaster(Initial.db, m, 2 * CENT).Ok?
    ensures Exec(Initial, Fund(m, 2 * CENT)) == Initial.(db := FundMaster(Initial.db, m, 2 * CENT).value)
  {
  }

  lemma FundedOwners(m: string)
    ensures OwnersExist(Exec(Initial, Fund(m, 2 * CENT)).db.book)
  {
    StepOwners(Initial, Fund(m, 2 * CENT));
    KeptExist(Initial.db.book, Exec(Initial, Fund(m, 2 * CENT)).db.book);
  }

  lemma FirstFunding(m: string)
    ensures var o := FundMaster(Initial.db, m, 2 * CENT);
      && o.Ok?
      && o.value.moves
         == map[m := Movement(Direction.Funding, None, None, 2 * CENT, Completed, Some(0), 0, 0, false)]
      && Available(o.value.book).2 == 2 * CENT
  {
    assert Normalize(2 * CENT) == Some(2 * CENT);
    EnsureAllProvisions(EmptyBook, "");
    var p := EnsureGlobalAccounts(EmptyBook);
    var legs := Legs(MasterAccountFunding, None, 2 * CENT, 0);
    BalanceOfTwo(p.entries, legs.0, legs.1, MasterAccount);
  }

  lemma ReadyAgain(s: System, q: System, a: string, b: string)
    requires Served(s, q, a) && LocalInv(q) && Available(s.db.book).2 >= 2 * CENT
    requires b != a && EngineKey(b) == EngineKey(a) != "" && b !in s.db.moves
    requires EngineKey(a) !in s.calls
    ensures Ready(q, b)
  {
    assert EngineKey("") == "";
  }

  lemma RunInParts(a: string, b: string)
    ensures After(CollidingRun(a, b)) == Run(Run(Exec(Initial, Funding(a, b)), Deposit6(0, a)), Deposit6(0, b))
  {
    var start, first := [Funding(a, b)], Deposit6(0, a);
    FoldAppend(Exec, Initial, start + first, Deposit6(0, b));
    FoldAppend(Exec, Initial, start, first);
    assert start[1..] == [];
    assert Run(Initial, start) == Run(Exec(Initial, start[0]), []);
  }

  /** For any two keys that strip to the same text: the engine carries out one deposit,
      and both are posted. */
  lemma {:induction false} CollidingKeysPostTwice(a: string, b: string)
    requires a != b && EngineKey(a) == EngineKey(b) != ""
    ensures var q := After(CollidingRun(a, b));
      && |q.cash| == 1 && q.cash[0].source == Some(EngineKey(a))
      && a in q.db.moves && !q.db.moves[a].direction.Funding? && b in q.db.moves && !q.db.moves[b].direction.Funding?
      && Row(q.db.book, LdgKey(a)).Some? && Row(q.db.book, LdgKey(a)).value.status.Posted?
      && Row(q.db.book, LdgKey(b)).Some? && Row(q.db.book, LdgKey(b)).value.status.Posted?
  {
    RunInParts(a, b);
    var s := Exec(Initial, Funding(a, b));
    FundsTwoCents(a + b + ".");
    assert |a + b + "."| > |a| && |a + b + "."| > |b|;
    assert EngineKey("") == "";
    DepositRuns(s, a);
    var t := Run(s, Deposit6(0, a));
    RunKeepsLocal(s, Deposit6(0, a));
    ReadyAgain(s, t, a, b);
    DepositRuns(t, b);
    KeyFamilies(a, b, 0);
    var q := Run(t, Deposit6(0, b));
    assert q.cash == t.cash && Row(q.db.book, LdgKey(a)) == Row(t.db.book, LdgKey(a));
  }

  lemma KeysOfCollidingRun(a: string, b: string)
    ensures KeysOf(CollidingRun(a, b)) <= iset{a, b}
  {
    var steps := CollidingRun(a, b);
    forall m | m in KeysOf(steps) ensures m in iset{a, b} {
      var i :| 0 <= i < |steps| && Asks(steps[i], m);
    }
  }

  lemma PostedTwiceIsBookedTwice(s: System, a: string, b: string)
    requires a != b && EngineKey(a) == EngineKey(b) && |s.cash| == 1 && s.cash[0].source == Some(EngineKey(a))
    requires a in s.db.moves && !s.db.moves[a].direction.Funding? && b in s.db.moves
    requires !s.db.moves[b].direction.Funding?
    requires Row(s.db.book, LdgKey(a)).Some? && Row(s.db.book, LdgKey(b)).Some?
    ensures !BookedOnce(s)
  {
    var p, q := FindTx(s.db.book.txs, LdgKey(a)).value, FindTx(s.db.book.txs, LdgKey(b)).value;
    KeyFamilies(a, b, 0);
    assert BooksCall(s, p, 0, a) && BooksCall(s, q, 0, b);
    assert Books(s, p, 0) && Books(s, q, 0) && p != q;
  }

  /** Nothing is booked twice in the runs over a family of keys if and only if no two
      keys of the family strip to the same text, unless they strip to nothing. */
  lemma BookedOnceIffApart(keys: iset<string>)
    ensures Apart(keys) <==> forall steps | KeysOf(steps) <= keys :: BookedOnce(After(steps))
  {
    if Apart(keys) {
      forall steps | KeysOf(steps) <= keys ensures BookedOnce(After(steps)) {
        BookedAtMostOnce(steps);
      }
    } else {
      var a, b :| a in keys && b in keys && EngineKey(a) == EngineKey(b) != "" && a != b;
      CollidingKeysPostTwice(a, b);
      KeysOfCollidingRun(a, b);
      PostedTwiceIsBookedTwice(After(CollidingRun(a, b)), a, b);
      assert KeysOf(CollidingRun(a, b)) <= keys;
    }
  }
}
