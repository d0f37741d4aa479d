/** What holds besides when no two keys asked for strip to the same text: the engine
    then knows each operation under a key of its own, and the two histories agree. A
    key that strips to nothing never leaves, and collides with none. */
module CapitalEngine {
  import opened Common
  import opened Ledger
  import opened LedgerInvariants
  import opened Capital
  import opened Regularization
  import opened CapitalInvariants
  import opened CapitalProtocol
  import opened CapitalRuns

  // ── the invariant ──

  /** Keys the engine tells apart. */
  ghost predicate Apart(keys: iset<string>) {
    forall m, n | m in keys && n in keys && EngineKey(m) == EngineKey(n) != "" :: m == n
  }

  /** Requests and movements come from these keys. */
  ghost predicate Asked(keys: iset<string>, moves: map<string, Movement>, requests: map<nat, Request>) {
    && (forall i | i in requests :: requests[i].idem in keys)
    && (forall m | m in moves && !moves[m].direction.Funding? :: m in keys)
  }

  /** Movement m is the one a call was sent for. */
  ghost predicate SentFor(moves: map<string, Movement>, m: string, k: string, call: Call) {
    && m in moves && EngineKey(m) == k && moves[m].direction == call.direction && !call.direction.Funding?
    && moves[m].account == Some(call.account) && moves[m].amount == call.amount
  }

  ghost predicate CallsOk(moves: map<string, Movement>, calls: map<string, Call>) {
    forall k | k in calls :: k != "" && exists m :: SentFor(moves, m, k, calls[k])
  }

  /** Where a request stands with the engine. */
  ghost predicate Informed(calls: map<string, Call>, r: Request) {
    var key := EngineKey(r.idem);
    match r.phase
    case Checked => true
    case Reserved => key !in calls
    case Waiting => key in calls
    case Heard(answer) =>
      if key == "" then answer.Refusal?
      else
        && key in calls
        && (answer.Done? ==> calls[key].status.Executed?)
        && (answer.Refusal? ==> calls[key].status.Refused?)
  }

  /** A final status is what the engine did. */
  ghost predicate Fated(calls: map<string, Call>, m: string, mv: Movement) {
    var key := EngineKey(m);
    mv.direction.Funding? ||
    (&& (mv.status.Completed? || mv.status.Rejected? ==> key in calls && calls[key].status.Executed?)
     && (mv.status.Failed? ==> key == "" || (key in calls && calls[key].status.Refused?)))
  }

  ghost predicate AllInformed(calls: map<string, Call>, requests: map<nat, Request>) {
    forall i | i in requests :: Informed(calls, requests[i])
  }

  ghost predicate AllFated(calls: map<string, Call>, moves: map<string, Movement>) {
    forall m | m in moves :: Fated(calls, m, moves[m])
  }

  /** Rows of the engine's history that answer a call of ours, told apart from the
      rest, and the swept rows, which never are. */
  ghost predicate CashOk(calls: map<string, Call>, cash: seq<Cash>) {
    && (forall i | 0 <= i < |cash| && cash[i].source.Some? ::
          && cash[i].source.value in calls && calls[cash[i].source.value].status.Executed?
          && cash[i].account == calls[cash[i].source.value].account
          && IsInternal(cash[i].kind) && !IsExternal(cash[i].kind))
    && (forall i, j | 0 <= i < j < |cash| && cash[i].source.Some? :: cash[i].source != cash[j].source)
  }

  ghost predicate SweptOk(b: Book, cash: seq<Cash>) {
    forall id {:trigger RegKey(id)} | Row(b, RegKey(id)).Some? :: 0 <= id < |cash| && cash[id].source.None?
  }

  ghost predicate EngineInv(keys: iset<string>, s: System) {
    && Asked(keys, s.db.moves, s.requests)
    && CallsOk(s.db.moves, s.calls)
    && AllInformed(s.calls, s.requests) && AllFated(s.calls, s.db.moves)
    && CashOk(s.calls, s.cash)
    && SweptOk(s.db.book, s.cash)
  }

  ghost predicate Inv(keys: iset<string>, s: System) {
    Apart(keys) && LocalInv(s) && EngineInv(keys, s)
  }

  // ── requests ──

  lemma SweptKept(b: Book, q: Book, cash: seq<Cash>)
    requires SweptOk(b, cash) && SameSweeps(b, q)
    ensures SweptOk(q, cash)
  {
    forall id | Row(q, RegKey(id)).Some? ensures 0 <= id < |cash| && cash[id].source.None? {
      assert Row(q, RegKey(id)) == Row(b, RegKey(id));
    }
  }

  /** Movements kept with what identifies them keep the calls they were sent for. */
  lemma CallsKept(moves: map<string, Movement>, after: map<string, Movement>, calls: map<string, Call>)
    requires CallsOk(moves, calls)
    requires forall m | m in moves ::
      && m in after && after[m].direction == moves[m].direction
      && after[m].account == moves[m].account && after[m].amount == moves[m].amount
    ensures CallsOk(after, calls)
  {
    forall k | k in calls ensures exists m :: SentFor(after, m, k, calls[k]) {
      var m :| SentFor(moves, m, k, calls[k]);
      assert SentFor(after, m, k, calls[k]);
    }
  }

  lemma NewMovement(moves: map<string, Movement>, calls: map<string, Call>, m: string, mv: Movement)
    requires CallsOk(moves, calls) && AllFated(calls, moves) && m !in moves && Fated(calls, m, mv)
    ensures CallsOk(moves[m := mv], calls) && AllFated(calls, moves[m := mv])
  {
    var after := moves[m := mv];
    CallsKept(moves, after, calls);
    forall n | n in after ensures Fated(calls, n, after[n]) {
      assert n != m ==> Fated(calls, n, moves[n]);
    }
  }

  /** A key asked for is known to the engine only once it has a movement. */
  lemma KnownKeyIsUsed(keys: iset<string>, moves: map<string, Movement>, calls: map<string, Call>,
        requests: map<nat, Request>, m: string)
    requires Apart(keys) && Asked(keys, moves, requests) && CallsOk(moves, calls) && m in keys
    ensures EngineKey(m) in calls ==> m in moves
  {
    if EngineKey(m) in calls {
      var n :| SentFor(moves, n, EngineKey(m), calls[EngineKey(m)]);
      assert n == m;
    }
  }

  lemma ReservedInformed(calls: map<string, Call>, requests: map<nat, Request>, rid: nat)
    requires AllInformed(calls, requests) && rid in requests && EngineKey(requests[rid].idem) !in calls
    ensures AllInformed(calls, requests[rid := requests[rid].(phase := Reserved)])
  {
    var pool := requests[rid := requests[rid].(phase := Reserved)];
    forall i | i in pool ensures Informed(calls, pool[i]) {
      assert Informed(calls, requests[i]);
    }
  }

  lemma BeginKeepsEngine(keys: iset<string>, s: System, rid: nat)
    requires Inv(keys, s)
    ensures EngineInv(keys, DoBegin(s, rid))
  {
    if rid in s.requests && s.requests[rid].phase.Checked? && Opening(s.db, s.requests[rid]).Ok? {
      var r := s.requests[rid];
      var db := Opening(s.db, r).value;
      OpeningKeeps(s.db, r);
      BeganKeepsEngine(keys, s, rid, db);
    }
  }

  lemma BeganKeepsEngine(keys: iset<string>, s: System, rid: nat, db: Db)
    requires Apart(keys) && EngineInv(keys, s) && rid in s.requests && s.requests[rid].idem !in s.db.moves
    requires SameSweeps(s.db.book, db.book) && Tracked(db, s.requests[rid])
    requires db.moves == s.db.moves[s.requests[rid].idem := db.moves[s.requests[rid].idem]]
    ensures EngineInv(keys, s.(db := db, requests := s.requests[rid := s.requests[rid].(phase := Reserved)]))
  {
    var m := s.requests[rid].idem;
    SweptKept(s.db.book, db.book, s.cash);
    KnownKeyIsUsed(keys, s.db.moves, s.calls, s.requests, m);
    NewMovement(s.db.moves, s.calls, m, db.moves[m]);
    ReservedInformed(s.calls, s.requests, rid);
  }

  lemma SendKeepsEngine(keys: iset<string>, s: System, rid: nat)
    requires Inv(keys, s)
    ensures EngineInv(keys, DoSend(s, rid))
  {
    if rid in s.requests && s.requests[rid].phase.Reserved? {
      var r := s.requests[rid];
      assert Tracked(s.db, r) && Informed(s.calls, r);
      if EngineKey(r.idem) == "" {
        UnsentInforms(s.calls, s.requests, rid);
      } else {
        var call := Call(r.direction, r.account, r.amount, Received);
        SentInforms(keys, s.db, s.calls, s.requests, rid, call);
        SentIsKnown(s.db, s.calls, r, call);
        CashKept(s.calls, s.cash, EngineKey(r.idem), call);
      }
    }
  }

  lemma UnsentInforms(calls: map<string, Call>, requests: map<nat, Request>, rid: nat)
    requires AllInformed(calls, requests) && rid in requests && EngineKey(requests[rid].idem) == ""
    ensures AllInformed(calls, requests[rid := requests[rid].(phase := Heard(Refusal))])
  {
    var pool := requests[rid := requests[rid].(phase := Heard(Refusal))];
    forall i | i in pool ensures Informed(calls, pool[i]) {
      assert Informed(calls, requests[i]);
    }
  }

  lemma SentIsKnown(db: Db, calls: map<string, Call>, r: Request, call: Call)
    requires CallsOk(db.moves, calls) && Tracked(db, r) && EngineKey(r.idem) != ""
    requires call.direction == r.direction && call.account == r.account && call.amount == r.amount
    ensures CallsOk(db.moves, calls[EngineKey(r.idem) := call])
  {
    var after := calls[EngineKey(r.idem) := call];
    assert SentFor(db.moves, r.idem, EngineKey(r.idem), call);
    forall k | k in after ensures k != "" && exists m :: SentFor(db.moves, m, k, after[k]) {
      if k != EngineKey(r.idem) {
        var m :| SentFor(db.moves, m, k, calls[k]);
        assert SentFor(db.moves, m, k, after[k]);
      }
    }
  }

  lemma CashKept(calls: map<string, Call>, cash: seq<Cash>, key: string, call: Call)
    requires CashOk(calls, cash) && key !in calls
    ensures CashOk(calls[key := call], cash)
  {
  }

  lemma SentInforms(keys: iset<string>, db: Db, calls: map<string, Call>, requests: map<nat, Request>, rid: nat,
        call: Call)
    requires Apart(keys) && Asked(keys, db.moves, requests)
    requires RequestsOk(db, requests) && AllInformed(calls, requests) && AllFated(calls, db.moves)
    requires rid in requests && requests[rid].phase.Reserved? && EngineKey(requests[rid].idem) != ""
    requires call.status.Received?
    ensures var after := calls[EngineKey(requests[rid].idem) := call];
      && AllInformed(after, requests[rid := requests[rid].(phase := Waiting)])
      && AllFated(after, db.moves)
  {
    var r := requests[rid];
    var after, pool := calls[EngineKey(r.idem) := call], requests[rid := r.(phase := Waiting)];
    assert Informed(calls, r);
    forall i | i in pool ensures Informed(after, pool[i]) {
      assert Informed(calls, requests[i]);
      if i != rid && PastFirstCommit(requests[i]) {
        assert requests[i].idem != r.idem;
      }
    }
    forall m | m in db.moves ensures Fated(after, m, db.moves[m]) {
      assert Fated(calls, m, db.moves[m]);
    }
  }

  lemma HeardInforms(calls: map<string, Call>, requests: map<nat, Request>, rid: nat, answer: Answer)
    requires AllInformed(calls, requests) && rid in requests && requests[rid].phase.Waiting?
    requires var key := EngineKey(requests[rid].idem);
      && key != "" && (answer.Done? ==> key in calls && calls[key].status.Executed?)
      && (answer.Refusal? ==> key in calls && calls[key].status.Refused?)
    ensures AllInformed(calls, requests[rid := requests[rid].(phase := Heard(answer))])
  {
    var pool := requests[rid := requests[rid].(phase := Heard(answer))];
    assert Informed(calls, requests[rid]);
    forall i | i in pool ensures Informed(calls, pool[i]) {
      assert Informed(calls, requests[i]);
    }
  }

  lemma HearKeepsEngine(keys: iset<string>, s: System, rid: nat, answer: Answer)
    requires Inv(keys, s)
    ensures EngineInv(keys, DoHear(s, rid, answer))
  {
    if DoHear(s, rid, answer) != s {
      HeardInforms(s.calls, s.requests, rid, answer);
    }
  }

  lemma ClosedFates(calls: map<string, Call>, db: Db, q: Db, r: Request)
    requires r.phase.Heard? && Informed(calls, r) && AllFated(calls, db.moves) && Closed(db, q, r)
    ensures AllFated(calls, q.moves)
  {
    forall m | m in q.moves ensures Fated(calls, m, q.moves[m]) {
      assert m != r.idem ==> Fated(calls, m, db.moves[m]);
    }
  }

  lemma FinishKeepsEngine(keys: iset<string>, s: System, rid: nat)
    requires Inv(keys, s)
    ensures EngineInv(keys, DoFinish(s, rid))
  {
    if rid in s.requests && s.requests[rid].phase.Heard? && Tracked(s.db, s.requests[rid]) {
      var r, db := s.requests[rid], Closing(s.db, s.requests[rid]);
      ClosingKeeps(s.db, r);
      SweptKept(s.db.book, db.book, s.cash);
      assert Informed(s.calls, r);
      ClosedFates(s.calls, s.db, db, r);
      CallsKept(s.db.moves, db.moves, s.calls);
    }
  }

  // ── the engine's own moves ──

  /** The engine's verdict is final, so nothing learnt before it changes. */
  lemma VerdictInforms(calls: map<string, Call>, requests: map<nat, Request>, moves: map<string, Movement>,
        key: string, status: CallStatus)
    requires AllInformed(calls, requests) && AllFated(calls, moves)
    requires key in calls && calls[key].status.Received?
    ensures var after := calls[key := calls[key].(status := status)];
      AllInformed(after, requests) && AllFated(after, moves)
  {
    var after := calls[key := calls[key].(status := status)];
    forall i | i in requests ensures Informed(after, requests[i]) {
      assert Informed(calls, requests[i]);
    }
    forall m | m in moves ensures Fated(after, m, moves[m]) {
      assert Fated(calls, m, moves[m]);
    }
  }

  lemma VerdictKnown(moves: map<string, Movement>, calls: map<string, Call>, key: string, status: CallStatus)
    requires CallsOk(moves, calls) && key in calls
    ensures CallsOk(moves, calls[key := calls[key].(status := status)])
  {
    var after := calls[key := calls[key].(status := status)];
    forall k | k in after ensures k != "" && exists m :: SentFor(moves, m, k, after[k]) {
      var m :| SentFor(moves, m, k, calls[k]);
      assert SentFor(moves, m, k, after[k]);
    }
  }

  lemma ExecuteKeepsEngine(keys: iset<string>, s: System, key: string)
    requires EngineInv(keys, s)
    ensures EngineInv(keys, DoExecute(s, key))
  {
    if key in s.calls && s.calls[key].status.Received? {
      VerdictKnown(s.db.moves, s.calls, key, Executed);
      VerdictInforms(s.calls, s.requests, s.db.moves, key, Executed);
      var row := DoExecute(s, key).cash[|s.cash|];
      OwnKinds();
      ExecutedCash(s.calls, s.cash, key, row);
      NewCashSwept(s.db.book, s.cash, row);
    }
  }

  lemma ExecutedCash(calls: map<string, Call>, cash: seq<Cash>, key: string, row: Cash)
    requires CashOk(calls, cash) && key in calls && calls[key].status.Received?
    requires row.source == Some(key) && row.account == calls[key].account
    requires IsInternal(row.kind) && !IsExternal(row.kind)
    ensures CashOk(calls[key := calls[key].(status := Executed)], cash + [row])
  {
  }

  lemma NewCashSwept(b: Book, cash: seq<Cash>, row: Cash)
    requires SweptOk(b, cash)
    ensures SweptOk(b, cash + [row])
  {
  }

  lemma RefuseKeepsEngine(keys: iset<string>, s: System, key: string)
    requires EngineInv(keys, s)
    ensures EngineInv(keys, DoRefuse(s, key))
  {
    if key in s.calls && s.calls[key].status.Received? {
      VerdictKnown(s.db.moves, s.calls, key, Refused);
      VerdictInforms(s.calls, s.requests, s.db.moves, key, Refused);
    }
  }

  lemma OwnKinds()
    ensures IsInternal("DEPOSIT") && !IsExternal("DEPOSIT")
    ensures IsInternal("WITHDRAWAL") && !IsExternal("WITHDRAWAL")
  {
    assert Upper("DEPOSIT") == "DEPOSIT" && Upper("WITHDRAWAL") == "WITHDRAWAL";
    assert "DEPOSIT"[0] == 'D' && "WITHDRAWAL"[0] == 'W' && "EXTERNAL"[0] == 'E';
  }

  // ── a sweep of the engine's history ──

  /** A row the engine made for a call of ours is never picked: its kind enters
      only when the account has no movement, and then no such row exists. */
  lemma OwnRowNotPicked(keys: iset<string>, s: System, acc: Login, i: nat, includeInternal: bool)
    requires EngineInv(keys, s) && i < |s.cash| && s.cash[i].account == acc
    requires includeInternal ==> !HasMovements(s.db.moves, acc)
    ensures s.cash[i].source.Some? ==>
      var row := CashRow(s.cash[i].kind, s.cash[i].status, Some(s.cash[i].amount), Some(i));
      Pick(row, includeInternal).None?
  {
    if s.cash[i].source.Some? {
      var k := s.cash[i].source.value;
      var m :| SentFor(s.db.moves, m, k, s.calls[k]);
      assert s.db.moves[m].account == Some(acc);
    }
  }

  lemma {:induction false} SelectOrigin(rows: seq<CashRow>, includeInternal: bool, i: nat) returns (j: nat)
    requires i < |Select(rows, includeInternal)|
    ensures j < |rows| && Pick(rows[j], includeInternal) == Some(Select(rows, includeInternal)[i])
  {
    var n := |rows| - 1;
    if i < |Select(rows[..n], includeInternal)| {
      j := SelectOrigin(rows[..n], includeInternal, i);
    } else {
      j := n;
    }
  }

  /** No item names a row of the engine that answers a call of ours. */
  ghost predicate ForeignItems(cash: seq<Cash>, items: seq<Item>) {
    forall i {:trigger items[i]} | 0 <= i < |items| :: 0 <= items[i].id < |cash| && cash[items[i].id].source.None?
  }

  lemma SweepTakesForeign(keys: iset<string>, s: System, acc: Login, listing: seq<nat>, includeInternal: bool)
    requires EngineInv(keys, s)
    requires includeInternal ==> !HasMovements(s.db.moves, acc)
    requires forall i | 0 <= i < |listing| :: listing[i] < |s.cash| && s.cash[listing[i]].account == acc
    ensures ForeignItems(s.cash, Select(Listed(s.cash, listing), includeInternal))
  {
    var rows := Listed(s.cash, listing);
    var items := Select(rows, includeInternal);
    forall i | 0 <= i < |items| ensures 0 <= items[i].id < |s.cash| && s.cash[items[i].id].source.None? {
      var j := SelectOrigin(rows, includeInternal, i);
      assert items[i].id == listing[j];
      OwnRowNotPicked(keys, s, acc, listing[j], includeInternal);
    }
  }

  lemma {:induction false} SweepLeavesOthers(b: Book, t: TraderId, items: seq<Item>, id: int)
    requires Sound(b) && RegClear(b) && Amounts(items)
    requires forall i | 0 <= i < |items| :: items[i].id != id
    ensures Row(SweepAll(b, t, items, true).book, RegKey(id)) == Row(b, RegKey(id))
  {
    if items != [] {
      var init, item := items[..|items| - 1], items[|items| - 1];
      SweepLeavesOthers(b, t, init, id);
      ApplyMovesNet(b, t, init);
      StepKeeps(SweepAll(b, t, init, true), t, item);
      ProviderKeyFamilies(item.id, id);
    }
  }

  lemma SweepKeepsSwept(b: Book, t: TraderId, items: seq<Item>, cash: seq<Cash>)
    requires Sound(b) && OthersPosted(b) && Amounts(items) && SweptOk(b, cash)
    requires ForeignItems(cash, items)
    ensures SweptOk(Committed(b, SweepAll(b, t, items, true)), cash)
  {
    AllRegClear(b);
    var q := SweepAll(b, t, items, true).book;
    forall id | Row(q, RegKey(id)).Some? ensures 0 <= id < |cash| && cash[id].source.None? {
      if forall i | 0 <= i < |items| :: items[i].id != id {
        SweepLeavesOthers(b, t, items, id);
      }
    }
  }

  lemma RegularizeKeepsEngine(keys: iset<string>, s: System, step: Step)
    requires Inv(keys, s) && step.Regularize?
    ensures EngineInv(keys, DoRegularize(s, step))
  {
    if DoRegularize(s, step) != s {
      var items := Select(Listed(s.cash, step.listing), step.includeInternal);
      if step.write {
        SweepTakesForeign(keys, s, step.account, step.listing, step.includeInternal);
        SweepKeepsSwept(s.db.book, step.trader, items, s.cash);
      } else {
        DryRunWritesNothing(s.db.book, step.trader, items);
      }
    }
  }

  // ── postings of other services ──

  /** A movement that the engine never hears of, with a book of the same sweeps. */
  lemma FundedKeepsEngine(keys: iset<string>, s: System, idem: string, db: Db)
    requires EngineInv(keys, s) && SameSweeps(s.db.book, db.book)
    requires idem !in s.db.moves && idem in db.moves && db.moves == s.db.moves[idem := db.moves[idem]]
    requires db.moves[idem].direction.Funding?
    ensures EngineInv(keys, s.(db := db))
  {
    SweptKept(s.db.book, db.book, s.cash);
    NewMovement(s.db.moves, s.calls, idem, db.moves[idem]);
  }

  lemma FundKeepsEngine(keys: iset<string>, s: System, idem: string, requested: int)
    requires Inv(keys, s)
    ensures EngineInv(keys, DoFund(s, idem, requested))
  {
    if FundMaster(s.db, idem, requested).Ok? && idem !in s.db.moves {
      FundKeeps(s.db, idem, requested);
      FundedKeepsEngine(keys, s, idem, FundMaster(s.db, idem, requested).value);
    }
  }

  /** A new book with the same sweeps. */
  lemma BookKeepsEngine(keys: iset<string>, s: System, b: Book)
    requires EngineInv(keys, s) && SameSweeps(s.db.book, b)
    ensures EngineInv(keys, WithBook(s, b))
  {
    SweptKept(s.db.book, b, s.cash);
  }

  lemma PostedKeepsEngine(keys: iset<string>, s: System, o: Outcome)
    requires EngineInv(keys, s) && SameSweeps(s.db.book, o.book)
    ensures EngineInv(keys, DoPost(s, o))
  {
    BookKeepsEngine(keys, s, o.book);
  }

  lemma CreditKeepsEngine(keys: iset<string>, s: System, hash: string, onchain: nat)
    requires EngineInv(keys, s) && DbInv(s.db)
    ensures EngineInv(keys, DoPost(s, Ledger.FundMasterAccount(s.db.book, onchain, CryptoKey(hash))))
  {
    CreditKeeps(s.db, hash, onchain);
    PostedKeepsEngine(keys, s, Ledger.FundMasterAccount(s.db.book, onchain, CryptoKey(hash)));
  }

  lemma FeeSweepsNothing(db: Db, pid: int, t: TraderId, charged: nat)
    requires DbInv(db)
    ensures SameSweeps(db.book, PostPerfFee(db.book, t, charged, FeeKey(pid)).book)
  {
    FeeKeeps(db, pid, t, charged);
  }

  lemma {:induction false} FeeKeepsEngine(keys: iset<string>, s: System, pid: int, t: TraderId, charged: nat)
    requires EngineInv(keys, s) && DbInv(s.db)
    ensures EngineInv(keys, DoPost(s, PostPerfFee(s.db.book, t, charged, FeeKey(pid))))
  {
    FeeSweepsNothing(s.db, pid, t, charged);
    PostedKeepsEngine(keys, s, PostPerfFee(s.db.book, t, charged, FeeKey(pid)));
  }

  lemma OutsideKeepsEngine(keys: iset<string>, s: System, step: Step)
    requires EngineInv(keys, s) && step.OutsideCash?
    ensures EngineInv(keys, Exec(s, step))
  {
    NewCashSwept(s.db.book, s.cash, Cash(step.account, step.kind, step.status, step.amount, None));
  }

  ghost predicate FromKeys(keys: iset<string>, step: Step) {
    step.Ask? ==> step.idem in keys
  }

  lemma AskOrCrashKeepsEngine(keys: iset<string>, s: System, step: Step)
    requires EngineInv(keys, s) && (step.Ask? || step.Crash?) && FromKeys(keys, step)
    ensures EngineInv(keys, Exec(s, step))
  {
  }

  // ── every run ──

  lemma RequestStepKeepsEngine(keys: iset<string>, s: System, step: Step)
    requires Inv(keys, s) && FromKeys(keys, step) && OfRequest(step)
    ensures EngineInv(keys, Exec(s, step))
  {
    match step
    case Begin(rid) => BeginKeepsEngine(keys, s, rid);
    case Send(rid) => SendKeepsEngine(keys, s, rid);
    case Hear(rid, answer) => HearKeepsEngine(keys, s, rid, answer);
    case Finish(rid) => FinishKeepsEngine(keys, s, rid);
    case _ => AskOrCrashKeepsEngine(keys, s, step);
  }

  lemma EngineStepKeepsEngine(keys: iset<string>, s: System, step: Step)
    requires Inv(keys, s) && OfEngine(step)
    ensures EngineInv(keys, Exec(s, step))
  {
    match step
    case Execute(key) => ExecuteKeepsEngine(keys, s, key);
    case Refuse(key) => RefuseKeepsEngine(keys, s, key);
    case OutsideCash(_, _, _, _) => OutsideKeepsEngine(keys, s, step);
  }

  lemma PostingStepKeepsEngine(keys: iset<string>, s: System, step: Step)
    requires Inv(keys, s) && !OfRequest(step) && !OfEngine(step)
    ensures EngineInv(keys, Exec(s, step))
  {
    match step
    case Regularize(_, _, _, _, _) => RegularizeKeepsEngine(keys, s, step);
    case Fund(idem, requested) => FundKeepsEngine(keys, s, idem, requested);
    case Credit(hash, onchain) => CreditKeepsEngine(keys, s, hash, onchain);
    case Fee(pid, t, charged) => FeeKeepsEngine(keys, s, pid, t, charged);
  }

  lemma StepKeepsEngine(keys: iset<string>, s: System, step: Step)
    requires Inv(keys, s) && FromKeys(keys, step)
    ensures EngineInv(keys, Exec(s, step))
  {
    if OfRequest(step) {
      RequestStepKeepsEngine(keys, s, step);
    } else if OfEngine(step) {
      EngineStepKeepsEngine(keys, s, step);
    } else {
      PostingStepKeepsEngine(keys, s, step);
    }
  }

  lemma InitialEngine(keys: iset<string>)
    ensures EngineInv(keys, Initial)
  {
  }

  predicate Asks(step: Step, m: string) {
    step.Ask? && step.idem == m
  }

  /** The keys a run asks for. */
  ghost function KeysOf(steps: seq<Step>): iset<string> {
    iset m | AsksFor(steps, m)
  }

  ghost predicate AsksFor(steps: seq<Step>, m: string) {
    exists i :: 0 <= i < |steps| && Asks(steps[i], m)
  }

  ghost predicate AllFromKeys(keys: iset<string>, steps: seq<Step>) {
    forall i | 0 <= i < |steps| :: FromKeys(keys, steps[i])
  }

  lemma {:induction false} RunKeepsEngine(keys: iset<string>, s: System, steps: seq<Step>)
    requires Inv(keys, s) && AllFromKeys(keys, steps)
    ensures Inv(keys, Run(s, steps))
    decreases |steps|
  {
    if steps != [] {
      StepKeepsEngine(keys, s, steps[0]);
      StepKeepsLocal(s, steps[0]);
      RunKeepsEngine(keys, Exec(s, steps[0]), steps[1..]);
    }
  }

  /** Runs over keys the engine tells apart. */
  lemma EveryRunEngine(steps: seq<Step>)
    requires Apart(KeysOf(steps))
    ensures Inv(KeysOf(steps), Run(Initial, steps))
  {
    var keys := KeysOf(steps);
    forall i | 0 <= i < |steps| ensures FromKeys(keys, steps[i]) {
      assert steps[i].Ask? ==> Asks(steps[i], steps[i].idem) && AsksFor(steps, steps[i].idem);
    }
    InitialLocal();
    InitialEngine(keys);
    RunKeepsEngine(keys, Initial, steps);
  }
}
