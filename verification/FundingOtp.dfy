/** Funding the master account behind a one-time code. A verification commits
    twice, first the funding and then the OTP row, and any request can die or be
    overtaken between what it read and what it writes.

    A code stands for its hash: two codes match when they are equal. */
module FundingOtps {
  import opened Common
  import opened Capital
  import P = CapitalProtocol

  datatype OtpStatus = Open | Verified | Cancelled

  datatype Otp = Otp(
    amount: int, code: string, status: OtpStatus, attempts: nat, expiresAt: int, movement: Option<string>)

  datatype Config = Config(maxAttempts: nat, expiry: nat)

  /** What a commit writes of a row: the columns whose value changed since it was read. */
  datatype Patch = Patch(
    status: Option<OtpStatus>, attempts: Option<nat>, code: Option<string>, expiresAt: Option<int>,
    movement: Option<string>)

  datatype Reason = Guess | Renewal | Expiry | Confirmation

  datatype Plan = Write(patch: Patch, reason: Reason) | Pay

  /** A request between what it read and its commit. */
  datatype Session = Session(id: string, seen: Otp, plan: Plan)

  /** The capital side, the OTP rows, the requests under way and the history: credits
      created, wrong guesses answered and codes renewed, by OTP. */
  datatype World = World(
    cfg: Config, capital: P.System, otps: map<string, Otp>, sessions: map<nat, Session>,
    credits: multiset<string>, guesses: multiset<string>, renewals: multiset<string>)

  datatype Step =
    | RequestFunding(id: string, requested: int, code: string, now: int)
    | ReadResend(sid: nat, id: string, code: string, now: int)
    | ReadVerify(sid: nat, id: string, code: string, now: int)
    | PayMaster(sid: nat, raced: bool)
    | Commit(sid: nat)
    | Die(sid: nat)
    | CapitalStep(step: P.Step)

  function Initially(cfg: Config): World {
    World(cfg, P.Initial, map[], map[], multiset{}, multiset{}, multiset{})
  }

  function OtpKey(id: string): string { "fund-otp-" + id }

  predicate IsOtpKey(key: string) { "fund-otp-" <= key }

  function Changed<T(==)>(was: T, now: T): Option<T> {
    if was == now then None else Some(now)
  }

  function Apply(otp: Otp, patch: Patch): Otp {
    Otp(otp.amount,
        if patch.code.Some? then patch.code.value else otp.code,
        if patch.status.Some? then patch.status.value else otp.status,
        if patch.attempts.Some? then patch.attempts.value else otp.attempts,
        if patch.expiresAt.Some? then patch.expiresAt.value else otp.expiresAt,
        if patch.movement.Some? then patch.movement else otp.movement)
  }

  // ── what a request decides from the row it read ──

  function ResendPlan(cfg: Config, otp: Otp, code: string, now: int): Option<Plan> {
    if otp.status.Verified? then None
    else
      Some(Write(Patch(Changed(otp.status, Open), Changed(otp.attempts, 0), Some(code), Some(now + cfg.expiry),
                       None), Renewal))
  }

  function VerifyPlan(cfg: Config, otp: Otp, code: string, now: int): Option<Plan> {
    if !otp.status.Open? then None
    else if now >= otp.expiresAt || otp.attempts >= cfg.maxAttempts then
      Some(Write(Patch(Some(Cancelled), None, None, None, None), Expiry))
    else if code != otp.code then
      var last := otp.attempts + 1 >= cfg.maxAttempts;
      Some(Write(Patch(if last then Some(Cancelled) else None, Some(otp.attempts + 1), None, None, None), Guess))
    else Some(Pay)
  }

  const VERIFY := Patch(Some(Verified), None, None, None, None)

  // ── the steps ──

  function DoRequest(w: World, id: string, requested: int, code: string, now: int): World {
    if id in w.otps || Normalize(requested).None? then w
    else
      var otp := Otp(Normalize(requested).value, code, Open, 0, now + w.cfg.expiry, None);
      w.(otps := w.otps[id := otp])
  }

  function DoRead(w: World, sid: nat, id: string, plan: Option<Plan>): World
    requires id in w.otps
  {
    if sid in w.sessions || plan.None? then w
    else w.(sessions := w.sessions[sid := Session(id, w.otps[id], plan.value)])
  }

  /** After the funding commit the request holds the movement of its key. */
  function Paid(w: World, sid: nat, db: Db): World
    requires sid in w.sessions
  {
    var s := w.sessions[sid];
    var key := OtpKey(s.id);
    w.(capital := w.capital.(db := db),
       credits := w.credits + if key in w.capital.db.moves then multiset{} else multiset{s.id},
       sessions := w.sessions[sid := s.(plan := Write(VERIFY.(movement := Some(key)), Confirmation))])
  }

  /** The funding step and its own commit. `raced`: the key was free when looked up
      and taken when written. */
  function DoPay(w: World, sid: nat, raced: bool): World {
    if sid !in w.sessions || !w.sessions[sid].plan.Pay? then w
    else
      var key := OtpKey(w.sessions[sid].id);
      var o := FundMaster(w.capital.db, key, w.sessions[sid].seen.amount);
      if o.Err? || (raced && key in w.capital.db.moves) then w.(sessions := w.sessions - {sid})
      else Paid(w, sid, o.value)
  }

  function DoCommit(w: World, sid: nat): World {
    if sid !in w.sessions || !w.sessions[sid].plan.Write? || w.sessions[sid].id !in w.otps then w
    else
      var s := w.sessions[sid];
      w.(otps := w.otps[s.id := Apply(w.otps[s.id], s.plan.patch)],
         sessions := w.sessions - {sid},
         guesses := w.guesses + if s.plan.reason.Guess? then multiset{s.id} else multiset{},
         renewals := w.renewals + if s.plan.reason.Renewal? then multiset{s.id} else multiset{})
  }

  function Exec(w: World, step: Step): World {
    match step
    case RequestFunding(id, requested, code, now) => DoRequest(w, id, requested, code, now)
    case ReadResend(sid, id, code, now) =>
      if id in w.otps then DoRead(w, sid, id, ResendPlan(w.cfg, w.otps[id], code, now)) else w
    case ReadVerify(sid, id, code, now) =>
      if id in w.otps then DoRead(w, sid, id, VerifyPlan(w.cfg, w.otps[id], code, now)) else w
    case PayMaster(sid, raced) => DoPay(w, sid, raced)
    case Commit(sid) => DoCommit(w, sid)
    case Die(sid) => w.(sessions := w.sessions - {sid})
    case CapitalStep(s) => OnCapital(w, P.Exec(w.capital, s))
  }

  function OnCapital(w: World, s: P.System): World {
    w.(capital := s)
  }

  function Run(w: World, steps: seq<Step>): World {
    Fold(Exec, w, steps)
  }

  // ── one request at a time ──

  datatype Op =
    | Fund(id: string, requested: int, code: string, now: int)
    | Resend(id: string, code: string, now: int)
    | Verify(id: string, code: string, now: int, dies: bool)
    | Other(step: P.Step)

  /** An operation that nothing interleaves; `dies` stops a verification before its
      last commit, after the funding is committed if it came that far. */
  function Serve(w: World, op: Op): World {
    match op
    case Fund(id, requested, code, now) => Exec(w, RequestFunding(id, requested, code, now))
    case Resend(id, code, now) => Exec(Exec(w, ReadResend(0, id, code, now)), Commit(0))
    case Verify(id, code, now, dies) =>
      var paid := Exec(Exec(w, ReadVerify(0, id, code, now)), PayMaster(0, false));
      if dies then Exec(paid, Die(0)) else Exec(paid, Commit(0))
    case Other(step) => Exec(w, CapitalStep(step))
  }
}

/** What the OTP promises, in any interleaving and one request at a time. */
module FundingOtpTheorems {
  import opened Common
  import opened Ledger
  import opened Capital
  import opened LedgerInvariants
  import opened CapitalInvariants
  import opened CapitalRuns
  import opened FundingOtps
  import P = CapitalProtocol

  // ── the capital side under any step ──

  /** Movements never go away, and fundings never change. */
  ghost predicate MovesKept(moves: map<string, Movement>, after: map<string, Movement>) {
    forall m | m in moves :: m in after && (moves[m].direction.Funding? ==> after[m] == moves[m])
  }

  /** Only a commit under its own key adds a movement. */
  ghost predicate CameFrom(s: P.System, step: P.Step, m: string) {
    || (step.Fund? && step.idem == m)
    || (exists rid | rid in s.requests :: s.requests[rid].idem == m)
  }

  lemma OpeningMoves(db: Db, r: P.Request)
    requires P.Opening(db, r).Ok?
    ensures r.idem !in db.moves && P.Opening(db, r).value.moves.Keys == db.moves.Keys + {r.idem}
    ensures MovesKept(db.moves, P.Opening(db, r).value.moves)
  {
  }

  lemma ClosingMoves(db: Db, r: P.Request)
    requires r.phase.Heard? && P.Tracked(db, r)
    ensures MovesKept(db.moves, P.Closing(db, r).moves) && P.Closing(db, r).moves.Keys == db.moves.Keys
  {
  }

  lemma FundingMoves(db: Db, key: string, amount: int)
    requires FundMaster(db, key, amount).Ok?
    ensures var after := FundMaster(db, key, amount).value.moves;
      && MovesKept(db.moves, after) && after.Keys == db.moves.Keys + {key}
      && (key !in db.moves ==> after[key].direction.Funding? && Some(after[key].amount) == Normalize(amount))
      && (key in db.moves ==> FundMaster(db, key, amount).value == db)
  {
  }

  /** The steps that do not touch the movements. */
  predicate Idle(step: P.Step) {
    !step.Begin? && !step.Finish? && !step.Fund?
  }

  lemma IdleMoves(s: P.System, step: P.Step)
    requires Idle(step)
    ensures P.Exec(s, step).db.moves == s.db.moves
  {
  }

  /** Movements kept, and new ones from the requests and the step. */
  ghost predicate MovesGrow(s: P.System, step: P.Step, after: map<string, Movement>) {
    MovesKept(s.db.moves, after) && forall m | m in after && m !in s.db.moves :: CameFrom(s, step, m)
  }

  lemma BeginGrows(s: P.System, rid: nat)
    ensures MovesGrow(s, P.Begin(rid), P.DoBegin(s, rid).db.moves)
  {
    if rid in s.requests && P.Opening(s.db, s.requests[rid]).Ok? {
      OpeningMoves(s.db, s.requests[rid]);
    }
    assert P.DoBegin(s, rid).db == s.db || P.DoBegin(s, rid).db == P.Opening(s.db, s.requests[rid]).value;
  }

  lemma FinishGrows(s: P.System, rid: nat)
    ensures MovesGrow(s, P.Finish(rid), P.DoFinish(s, rid).db.moves)
  {
    if rid in s.requests && s.requests[rid].phase.Heard? && P.Tracked(s.db, s.requests[rid]) {
      ClosingMoves(s.db, s.requests[rid]);
    }
    assert P.DoFinish(s, rid).db == s.db || P.DoFinish(s, rid).db == P.Closing(s.db, s.requests[rid]);
  }

  lemma FundGrows(s: P.System, key: string, amount: int)
    ensures MovesGrow(s, P.Fund(key, amount), P.DoFund(s, key, amount).db.moves)
  {
    if FundMaster(s.db, key, amount).Ok? {
      FundingMoves(s.db, key, amount);
    }
    assert P.DoFund(s, key, amount).db == s.db || P.DoFund(s, key, amount).db == FundMaster(s.db, key, amount).value;
  }

  lemma CapitalKeeps(s: P.System, step: P.Step)
    requires LocalInv(s)
    ensures MovesKept(s.db.moves, P.Exec(s, step).db.moves)
    ensures forall m | m in P.Exec(s, step).db.moves && m !in s.db.moves :: CameFrom(s, step, m)
  {
    match step
    case Begin(rid) => BeginGrows(s, rid);
    case Finish(rid) => FinishGrows(s, rid);
    case Fund(key, amount) => FundGrows(s, key, amount);
    case _ => IdleMoves(s, step);
  }

  lemma CapitalRequests(s: P.System, step: P.Step, rid: nat)
    requires rid in P.Exec(s, step).requests
    ensures (rid in s.requests && P.Exec(s, step).requests[rid].idem == s.requests[rid].idem)
         || (step.Ask? && P.Exec(s, step).requests[rid].idem == step.idem)
  {
  }

  // ── the invariant of every interleaving ──

  /** The movement under the OTP's key is its own funding. */
  predicate Funded(moves: map<string, Movement>, id: string, otp: Otp) {
    OtpKey(id) in moves && moves[OtpKey(id)].direction.Funding? && moves[OtpKey(id)].amount == otp.amount
  }

  ghost predicate OtpOk(moves: map<string, Movement>, id: string, otp: Otp) {
    && Normalize(otp.amount) == Some(otp.amount)
    && (otp.movement.Some? ==> otp.movement == Some(OtpKey(id)) && OtpKey(id) in moves)
    && (otp.status.Verified? ==> otp.movement.Some?)
  }

  ghost predicate SessionOk(moves: map<string, Movement>, otps: map<string, Otp>, s: Session) {
    && s.id in otps && s.seen.amount == otps[s.id].amount
    && (s.plan.Write? ==>
          if s.plan.reason.Confirmation? then
            s.plan.patch == VERIFY.(movement := Some(OtpKey(s.id))) && OtpKey(s.id) in moves
          else s.plan.patch.status != Some(Verified) && s.plan.patch.movement.None?)
  }

  ghost predicate CreditOk(w: World, id: string) {
    w.credits[id] <= 1 && (w.credits[id] == 1 ==> id in w.otps && Funded(w.capital.db.moves, id, w.otps[id]))
  }

  ghost predicate OtpInv(w: World) {
    && LocalInv(w.capital)
    && (forall id | id in w.otps :: OtpOk(w.capital.db.moves, id, w.otps[id]))
    && (forall sid | sid in w.sessions :: SessionOk(w.capital.db.moves, w.otps, w.sessions[sid]))
    && (forall id :: CreditOk(w, id))
  }

  lemma SameCredits(w: World, q: World)
    requires (forall id :: CreditOk(w, id)) && q.credits == w.credits
    requires MovesKept(w.capital.db.moves, q.capital.db.moves)
    requires forall id | id in w.otps :: id in q.otps && q.otps[id].amount == w.otps[id].amount
    ensures forall id :: CreditOk(q, id)
  {
    forall id ensures CreditOk(q, id) {
      assert CreditOk(w, id);
    }
  }

  lemma CapitalMoved(w: World, s: P.System)
    requires OtpInv(w) && LocalInv(s) && MovesKept(w.capital.db.moves, s.db.moves)
    ensures OtpInv(OnCapital(w, s))
  {
    SameCredits(w, OnCapital(w, s));
  }

  lemma CapitalMovesKept(s: P.System, step: P.Step)
    requires LocalInv(s)
    ensures LocalInv(P.Exec(s, step)) && MovesKept(s.db.moves, P.Exec(s, step).db.moves)
  {
    StepKeepsLocal(s, step);
    CapitalKeeps(s, step);
  }

  lemma CapitalStepKeeps(w: World, step: P.Step)
    requires OtpInv(w)
    ensures OtpInv(OnCapital(w, P.Exec(w.capital, step)))
  {
    CapitalMovesKept(w.capital, step);
    CapitalMoved(w, P.Exec(w.capital, step));
  }

  lemma NormalizeTwice(requested: int)
    requires Normalize(requested).Some?
    ensures Normalize(Normalize(requested).value) == Normalize(requested)
  {
  }

  lemma IssuedKeeps(w: World, id: string, otp: Otp)
    requires OtpInv(w) && id !in w.otps && OtpOk(w.capital.db.moves, id, otp)
    ensures OtpInv(w.(otps := w.otps[id := otp]))
  {
    SameCredits(w, w.(otps := w.otps[id := otp]));
  }

  lemma DoRequestKeeps(w: World, id: string, requested: int, code: string, now: int)
    requires OtpInv(w)
    ensures OtpInv(DoRequest(w, id, requested, code, now))
  {
    if id !in w.otps && Normalize(requested).Some? {
      NormalizeTwice(requested);
      IssuedKeeps(w, id, Otp(Normalize(requested).value, code, Open, 0, now + w.cfg.expiry, None));
    }
  }

  /** A session just opened has not written anything. */
  lemma DoReadKeeps(w: World, sid: nat, id: string, plan: Option<Plan>)
    requires OtpInv(w) && id in w.otps
    requires plan.Some? && plan.value.Write? ==>
      !plan.value.reason.Confirmation? && plan.value.patch.status != Some(Verified) && plan.value.patch.movement.None?
    ensures OtpInv(DoRead(w, sid, id, plan))
  {
    SameCredits(w, DoRead(w, sid, id, plan));
  }

  lemma RequestKeeps(w: World, step: Step)
    requires OtpInv(w) && (step.RequestFunding? || step.ReadResend? || step.ReadVerify? || step.Die?)
    ensures OtpInv(Exec(w, step))
  {
    match step
    case RequestFunding(id, requested, code, now) => DoRequestKeeps(w, id, requested, code, now);
    case ReadResend(sid, id, code, now) =>
      if id in w.otps { DoReadKeeps(w, sid, id, ResendPlan(w.cfg, w.otps[id], code, now)); }
    case ReadVerify(sid, id, code, now) =>
      if id in w.otps { DoReadKeeps(w, sid, id, VerifyPlan(w.cfg, w.otps[id], code, now)); }
    case Die(sid) => SameCredits(w, Exec(w, step));
  }

  lemma CommitKeeps(w: World, sid: nat)
    requires OtpInv(w)
    ensures OtpInv(Exec(w, Commit(sid)))
  {
    var q := Exec(w, Commit(sid));
    forall id ensures CreditOk(q, id) {
      assert CreditOk(w, id);
    }
  }

  lemma PaidKeepsCapital(s: P.System, key: string, amount: int)
    requires LocalInv(s) && FundMaster(s.db, key, amount).Ok?
    ensures LocalInv(s.(db := FundMaster(s.db, key, amount).value))
  {
    StepKeepsLocal(s, P.Fund(key, amount));
    assert P.Exec(s, P.Fund(key, amount)) == P.DoFund(s, key, amount);
  }

  /** A funding that arrives is the OTP's own, and its first. */
  lemma PaidKeepsCredits(w: World, sid: nat, db: Db)
    requires forall id :: CreditOk(w, id)
    requires sid in w.sessions && w.sessions[sid].id in w.otps && MovesKept(w.capital.db.moves, db.moves)
    requires var id := w.sessions[sid].id;
      OtpKey(id) !in w.capital.db.moves ==> Funded(db.moves, id, w.otps[id])
    ensures forall id :: CreditOk(Paid(w, sid, db), id)
  {
    var q, own := Paid(w, sid, db), w.sessions[sid].id;
    forall id ensures CreditOk(q, id) {
      assert CreditOk(w, id);
    }
  }

  lemma PaidKeeps(w: World, sid: nat, db: Db)
    requires OtpInv(w) && sid in w.sessions && w.sessions[sid].plan.Pay?
    requires LocalInv(w.capital.(db := db)) && MovesKept(w.capital.db.moves, db.moves)
    requires OtpKey(w.sessions[sid].id) in db.moves
    requires OtpKey(w.sessions[sid].id) !in w.capital.db.moves ==>
      Funded(db.moves, w.sessions[sid].id, w.sessions[sid].seen)
    ensures OtpInv(Paid(w, sid, db))
  {
    var q := Paid(w, sid, db);
    assert SessionOk(w.capital.db.moves, w.otps, w.sessions[sid]);
    PaidKeepsCredits(w, sid, db);
    forall i | i in q.sessions ensures SessionOk(db.moves, q.otps, q.sessions[i]) {
      assert SessionOk(w.capital.db.moves, w.otps, w.sessions[i]);
    }
    forall id | id in q.otps ensures OtpOk(db.moves, id, q.otps[id]) {
      assert OtpOk(w.capital.db.moves, id, w.otps[id]);
    }
  }

  lemma PayKeeps(w: World, sid: nat, raced: bool)
    requires OtpInv(w)
    ensures OtpInv(DoPay(w, sid, raced))
  {
    if sid in w.sessions && w.sessions[sid].plan.Pay? {
      var key, amount := OtpKey(w.sessions[sid].id), w.sessions[sid].seen.amount;
      var o := FundMaster(w.capital.db, key, amount);
      SessionEnds(w, sid);
      if o.Ok? {
        SessionAmount(w, sid);
        FundingMoves(w.capital.db, key, amount);
        PaidKeepsCapital(w.capital, key, amount);
        PaidKeeps(w, sid, o.value);
      }
    }
  }

  lemma SessionAmount(w: World, sid: nat)
    requires OtpInv(w) && sid in w.sessions
    ensures Normalize(w.sessions[sid].seen.amount) == Some(w.sessions[sid].seen.amount)
  {
    assert SessionOk(w.capital.db.moves, w.otps, w.sessions[sid]);
    assert OtpOk(w.capital.db.moves, w.sessions[sid].id, w.otps[w.sessions[sid].id]);
  }

  lemma SessionEnds(w: World, sid: nat)
    requires OtpInv(w)
    ensures OtpInv(w.(sessions := w.sessions - {sid}))
  {
    RequestKeeps(w, Die(sid));
  }

  lemma StepKeeps(w: World, step: Step)
    requires OtpInv(w)
    ensures OtpInv(Exec(w, step))
  {
    match step
    case CapitalStep(s) => CapitalStepKeeps(w, s);
    case PayMaster(sid, raced) => PayKeeps(w, sid, raced);
    case Commit(sid) => CommitKeeps(w, sid);
    case _ => RequestKeeps(w, step);
  }

  lemma {:induction false} RunKeeps(w: World, steps: seq<Step>)
    requires OtpInv(w)
    ensures OtpInv(Run(w, steps))
    decreases |steps|
  {
    if steps != [] {
      StepKeeps(w, steps[0]);
      RunKeeps(Exec(w, steps[0]), steps[1..]);
    }
  }

  lemma EveryRun(cfg: Config, steps: seq<Step>)
    ensures OtpInv(Run(Initially(cfg), steps))
  {
    InitialLocal();
    RunKeeps(Initially(cfg), steps);
  }

  /** The ledger has the funding of an OTP: one posted row of exactly its amount. */
  ghost predicate PaidInLedger(w: World, id: string)
    requires id in w.otps
  {
    Row(w.capital.db.book, LdgKey(OtpKey(id)))
      == Some(Tx(MasterAccountFunding, Posted, LdgKey(OtpKey(id)), None, w.otps[id].amount))
  }

  lemma PaidIffFunded(w: World, id: string)
    requires OtpInv(w) && id in w.otps
    ensures PaidInLedger(w, id) <==> Funded(w.capital.db.moves, id, w.otps[id])
  {
    var db := w.capital.db;
    if OtpKey(id) in db.moves {
      assert Agrees(db.book, OtpKey(id), db.moves[OtpKey(id)]);
    } else {
      assert Row(db.book, LdgKey(OtpKey(id))).None?;
    }
  }

  /** However requests interleave, expire, repeat or die between commits, an OTP
      credits the master account at most once, with exactly its amount. */
  lemma CreditedAtMostOnce(cfg: Config, steps: seq<Step>, id: string)
    ensures var w := Run(Initially(cfg), steps);
      w.credits[id] <= 1 && (w.credits[id] == 1 ==> id in w.otps && PaidInLedger(w, id))
  {
    EveryRun(cfg, steps);
    var w := Run(Initially(cfg), steps);
    assert CreditOk(w, id);
    if w.credits[id] == 1 {
      PaidIffFunded(w, id);
    }
  }

  // ── keys of their own ──

  /** No other caller uses a key of the OTP family. */
  predicate OwnKeys(step: Step) {
    step.CapitalStep? ==>
      && (step.step.Ask? ==> !IsOtpKey(step.step.idem))
      && (step.step.Fund? ==> !IsOtpKey(step.step.idem))
  }

  ghost predicate KeysInv(w: World) {
    && (forall rid | rid in w.capital.requests :: !IsOtpKey(w.capital.requests[rid].idem))
    && (forall m | m in w.capital.db.moves && IsOtpKey(m) :: w.credits[m[9..]] == 1)
  }

  lemma OwnCapitalStepKeeps(w: World, step: P.Step)
    requires OtpInv(w) && KeysInv(w) && OwnKeys(CapitalStep(step))
    ensures KeysInv(w.(capital := P.Exec(w.capital, step)))
  {
    var s := P.Exec(w.capital, step);
    CapitalKeeps(w.capital, step);
    forall rid | rid in s.requests ensures !IsOtpKey(s.requests[rid].idem) {
      CapitalRequests(w.capital, step, rid);
    }
    forall m | m in s.db.moves && IsOtpKey(m) ensures w.credits[m[9..]] == 1 {
      assert m !in w.capital.db.moves ==> CameFrom(w.capital, step, m);
    }
  }

  lemma OwnPayKeeps(w: World, sid: nat, raced: bool)
    requires OtpInv(w) && KeysInv(w)
    ensures KeysInv(DoPay(w, sid, raced))
  {
    if sid in w.sessions && w.sessions[sid].plan.Pay? {
      var id, db := w.sessions[sid].id, w.capital.db;
      var key, o := OtpKey(id), FundMaster(db, OtpKey(id), w.sessions[sid].seen.amount);
      assert key[9..] == id;
      assert CreditOk(w, id);
      if o.Ok? {
        FundingMoves(db, key, w.sessions[sid].seen.amount);
        OwnPaidKeeps(w, sid, o.value);
      }
    }
  }

  lemma OwnPaidKeeps(w: World, sid: nat, db: Db)
    requires KeysInv(w) && sid in w.sessions && CreditOk(w, w.sessions[sid].id)
    requires db.moves.Keys == w.capital.db.moves.Keys + {OtpKey(w.sessions[sid].id)}
    ensures KeysInv(Paid(w, sid, db))
  {
    var q, id := Paid(w, sid, db), w.sessions[sid].id;
    assert OtpKey(id)[9..] == id;
    forall m | m in q.capital.db.moves && IsOtpKey(m) ensures q.credits[m[9..]] == 1 {
      assert m == OtpKey(m[9..]);
      assert m in w.capital.db.moves ==> w.credits[m[9..]] == 1;
    }
  }

  lemma OwnStepKeeps(w: World, step: Step)
    requires OtpInv(w) && KeysInv(w) && OwnKeys(step)
    ensures KeysInv(Exec(w, step))
  {
    match step
    case CapitalStep(s) => OwnCapitalStepKeeps(w, s);
    case PayMaster(sid, raced) => OwnPayKeeps(w, sid, raced);
    case _ =>
  }

  lemma {:induction false} OwnRunKeeps(w: World, steps: seq<Step>)
    requires OtpInv(w) && KeysInv(w) && forall i | 0 <= i < |steps| :: OwnKeys(steps[i])
    ensures KeysInv(Run(w, steps))
    decreases |steps|
  {
    if steps != [] {
      StepKeeps(w, steps[0]);
      OwnStepKeeps(w, steps[0]);
      OwnRunKeeps(Exec(w, steps[0]), steps[1..]);
    }
  }

  /** When the family is its own, a verified OTP has been credited: once, in full. */
  lemma VerifiedIsPaid(cfg: Config, steps: seq<Step>, id: string)
    requires forall i | 0 <= i < |steps| :: OwnKeys(steps[i])
    requires id in Run(Initially(cfg), steps).otps && Run(Initially(cfg), steps).otps[id].status.Verified?
    ensures var w := Run(Initially(cfg), steps); w.credits[id] == 1 && PaidInLedger(w, id)
  {
    EveryRun(cfg, steps);
    InitialLocal();
    OwnRunKeeps(Initially(cfg), steps);
    var w := Run(Initially(cfg), steps);
    assert OtpOk(w.capital.db.moves, id, w.otps[id]);
    assert OtpKey(id)[9..] == id;
    CreditedAtMostOnce(cfg, steps, id);
  }

  /** A live code, correctly given, in time and within its attempts. */
  predicate Accepts(w: World, id: string, code: string, now: int) {
    && w.sessions == map[] && id in w.otps
    && w.otps[id].status.Open? && now < w.otps[id].expiresAt && w.otps[id].attempts < w.cfg.maxAttempts
    && code == w.otps[id].code
  }

  /** A correct code verifies the OTP; it is paid exactly when its movement key was
      free, or held by its own funding. A deposit made under that key is taken for
      the funding, and nothing is credited. */
  lemma VerifyPaysIff(w: World, id: string, code: string, now: int)
    requires OtpInv(w) && Accepts(w, id, code, now)
    ensures var q := Serve(w, Verify(id, code, now, false));
      && id in q.otps && q.otps[id].status.Verified? && q.otps[id].amount == w.otps[id].amount
      && (PaidInLedger(q, id) <==> OtpKey(id) !in w.capital.db.moves || Funded(w.capital.db.moves, id, w.otps[id]))
      && (OtpKey(id) in w.capital.db.moves ==> q.capital == w.capital && q.credits == w.credits)
  {
    assert OtpOk(w.capital.db.moves, id, w.otps[id]);
    FundMasterSucceeds(w.capital.db, OtpKey(id), w.otps[id].amount);
    AcceptedVerify(w, id, code, now);
    ServeKeeps(w, Verify(id, code, now, false));
    PaidAfter(w, Serve(w, Verify(id, code, now, false)), id);
  }

  lemma PaidAfter(w: World, q: World, id: string)
    requires OtpInv(w) && OtpInv(q) && id in w.otps && id in q.otps && q.otps[id].amount == w.otps[id].amount
    requires FundMaster(w.capital.db, OtpKey(id), w.otps[id].amount).Ok?
    requires q.capital == w.capital.(db := FundMaster(w.capital.db, OtpKey(id), w.otps[id].amount).value)
    ensures PaidInLedger(q, id) <==> OtpKey(id) !in w.capital.db.moves || Funded(w.capital.db.moves, id, w.otps[id])
    ensures OtpKey(id) in w.capital.db.moves ==> q.capital == w.capital
  {
    assert OtpOk(w.capital.db.moves, id, w.otps[id]);
    FundingMoves(w.capital.db, OtpKey(id), w.otps[id].amount);
    PaidIffFunded(q, id);
  }

  lemma ServeKeeps(w: World, op: Op)
    requires OtpInv(w)
    ensures OtpInv(Serve(w, op))
  {
    match op
    case Fund(id, requested, code, now) => StepKeeps(w, RequestFunding(id, requested, code, now));
    case Resend(id, code, now) =>
      StepKeeps(w, ReadResend(0, id, code, now));
      StepKeeps(Exec(w, ReadResend(0, id, code, now)), Commit(0));
    case Verify(id, code, now, dies) =>
      var w1 := Exec(w, ReadVerify(0, id, code, now));
      var w2 := Exec(w1, PayMaster(0, false));
      StepKeeps(w, ReadVerify(0, id, code, now));
      StepKeeps(w1, PayMaster(0, false));
      StepKeeps(w2, Die(0));
      StepKeeps(w2, Commit(0));
    case Other(step) => StepKeeps(w, CapitalStep(step));
  }

  /** The confirmation of a request that has paid. */
  lemma PaidCommits(w: World, id: string, db: Db)
    requires id in w.otps && w.sessions == map[0 := Session(id, w.otps[id], Pay)]
    ensures var q := DoCommit(Paid(w, 0, db), 0);
      && q.capital == w.capital.(db := db)
      && q.otps == w.otps[id := w.otps[id].(status := Verified, movement := Some(OtpKey(id)))]
      && q.credits == w.credits + (if OtpKey(id) in w.capital.db.moves then multiset{} else multiset{id})
      && q.sessions == map[] && q.cfg == w.cfg && q.guesses == w.guesses && q.renewals == w.renewals
  {
    assert Paid(w, 0, db).sessions - {0} == map[];
  }

  lemma AcceptedVerify(w: World, id: string, code: string, now: int)
    requires Accepts(w, id, code, now) && FundMaster(w.capital.db, OtpKey(id), w.otps[id].amount).Ok?
    ensures var q := Serve(w, Verify(id, code, now, false));
      && q.capital == w.capital.(db := FundMaster(w.capital.db, OtpKey(id), w.otps[id].amount).value)
      && q.otps == w.otps[id := w.otps[id].(status := Verified, movement := Some(OtpKey(id)))]
      && q.credits == w.credits + (if OtpKey(id) in w.capital.db.moves then multiset{} else multiset{id})
      && q.sessions == map[] && q.cfg == w.cfg && q.guesses == w.guesses && q.renewals == w.renewals
  {
    var db := FundMaster(w.capital.db, OtpKey(id), w.otps[id].amount).value;
    var w1 := w.(sessions := map[0 := Session(id, w.otps[id], Pay)]);
    assert Exec(w, ReadVerify(0, id, code, now)) == w1;
    assert DoPay(w1, 0, false) == Paid(w1, 0, db);
    PaidCommits(w1, id, db);
  }

  lemma FundMasterSucceeds(db: Db, key: string, amount: int)
    requires DbInv(db) && Normalize(amount).Some?
    ensures FundMaster(db, key, amount).Ok?
  {
    if key !in db.moves {
      assert Row(db.book, LdgKey(key)).None?;
      EnsureAllProvisions(db.book, "");
    }
  }
}
