/** The OTP with one request at a time, and what interleaved requests can undo. */
module FundingOtpSequential {
  import opened Common
  import opened Capital
  import opened FundingOtps
  import opened FundingOtpTheorems
  import CapitalRuns
  import P = CapitalProtocol

  function ServeAll(w: World, ops: seq<Op>): World {
    Fold(Serve, w, ops)
  }

  // ── what one operation does to the rows ──

  /** Between operations no request is under way. */
  predicate Idle(w: World) {
    w.sessions == map[]
  }

  /** Only this row and its counters moved. */
  ghost predicate OnlyOtp(w: World, q: World, id: string) {
    && Idle(q) && q.cfg == w.cfg && q.otps.Keys == w.otps.Keys
    && (forall i | i != id && i in w.otps :: q.otps[i] == w.otps[i])
    && (forall i | i != id ::
          q.guesses[i] == w.guesses[i] && q.renewals[i] == w.renewals[i] && q.credits[i] == w.credits[i])
  }

  lemma ResendEffect(w: World, id: string, code: string, now: int)
    requires Idle(w) && id in w.otps
    ensures var q, otp := Serve(w, Resend(id, code, now)), w.otps[id];
      && OnlyOtp(w, q, id) && q.credits == w.credits && q.guesses == w.guesses && q.capital == w.capital
      && if otp.status.Verified? then q.otps[id] == otp && q.renewals == w.renewals
         else
           && q.renewals == w.renewals + multiset{id}
           && q.otps[id] == Otp(otp.amount, code, Open, 0, now + w.cfg.expiry, otp.movement)
  {
    var w1 := Exec(w, ReadResend(0, id, code, now));
    if !w.otps[id].status.Verified? {
      assert w1.sessions == map[0 := Session(id, w.otps[id], ResendPlan(w.cfg, w.otps[id], code, now).value)];
      assert w1.sessions - {0} == map[];
    } else {
      assert w1 == w;
    }
  }

  /** A verification that does not reach the funding. */
  lemma RefusalEffect(w: World, id: string, code: string, now: int)
    requires Idle(w) && id in w.otps && VerifyPlan(w.cfg, w.otps[id], code, now) != Some(Pay)
    ensures var q, otp := Serve(w, Verify(id, code, now, false)), w.otps[id];
      && OnlyOtp(w, q, id) && q.credits == w.credits && q.renewals == w.renewals && q.capital == w.capital
      && match VerifyPlan(w.cfg, otp, code, now)
         case None => q.otps[id] == otp && q.guesses == w.guesses
         case Some(plan) =>
           && q.otps[id] == Apply(otp, plan.patch)
           && q.guesses == w.guesses + if plan.reason.Guess? then multiset{id} else multiset{}
  {
    var plan := VerifyPlan(w.cfg, w.otps[id], code, now);
    var w1 := Exec(w, ReadVerify(0, id, code, now));
    if plan.Some? {
      assert w1 == w.(sessions := map[0 := Session(id, w.otps[id], plan.value)]);
      assert w1.sessions - {0} == map[];
    } else {
      assert w1 == w;
    }
  }

  /** A verification that does: it pays and confirms, or pays nothing and the row
      stays. */
  lemma PaymentOutcome(w: World, id: string, code: string, now: int)
    requires Idle(w) && id in w.otps && VerifyPlan(w.cfg, w.otps[id], code, now) == Some(Pay)
    ensures var q, otp := Serve(w, Verify(id, code, now, false)), w.otps[id];
      && OnlyOtp(w, q, id) && q.renewals == w.renewals && q.guesses == w.guesses
      && match FundMaster(w.capital.db, OtpKey(id), otp.amount)
         case Ok(db) =>
           && q.otps == w.otps[id := otp.(status := Verified, movement := Some(OtpKey(id)))]
           && q.capital == w.capital.(db := db)
         case Err(_) => q.otps == w.otps && q.capital == w.capital
  {
    var w1 := Exec(w, ReadVerify(0, id, code, now));
    assert w1 == w.(sessions := map[0 := Session(id, w.otps[id], Pay)]);
    assert w1.sessions - {0} == map[];
    var o := FundMaster(w.capital.db, OtpKey(id), w.otps[id].amount);
    if o.Ok? {
      assert DoPay(w1, 0, false) == Paid(w1, 0, o.value);
      assert Paid(w1, 0, o.value).sessions - {0} == map[];
    }
  }

  /** The funding step touches no row and no counter of guesses or renewals. */
  lemma PayLeavesRows(w: World, sid: nat)
    ensures var q := DoPay(w, sid, false);
      && q.cfg == w.cfg && q.otps == w.otps && q.renewals == w.renewals && q.guesses == w.guesses
      && q.sessions.Keys <= w.sessions.Keys
      && forall i | sid in w.sessions && i != w.sessions[sid].id :: q.credits[i] == w.credits[i]
  {
  }

  /** A verification that dies leaves the rows alone, paid or not. */
  lemma DeathEffect(w: World, id: string, code: string, now: int)
    requires Idle(w) && id in w.otps
    ensures var q := Serve(w, Verify(id, code, now, true));
      OnlyOtp(w, q, id) && q.otps == w.otps && q.renewals == w.renewals && q.guesses == w.guesses
  {
    var w1 := Exec(w, ReadVerify(0, id, code, now));
    var w2 := DoPay(w1, 0, false);
    assert w1.sessions.Keys <= {0} && (0 in w1.sessions ==> w1.sessions[0].id == id);
    PayLeavesRows(w1, 0);
    assert w2.sessions - {0} == map[];
  }

  /** What a verification can do to its row. */
  lemma VerifyEffect(w: World, id: string, code: string, now: int, dies: bool)
    requires Idle(w) && id in w.otps
    ensures var q, otp := Serve(w, Verify(id, code, now, dies)), w.otps[id];
      && OnlyOtp(w, q, id) && q.renewals == w.renewals
      && (|| (q.otps[id] == otp && q.guesses == w.guesses)
          || (q.otps[id].attempts == otp.attempts && !otp.status.Verified? && q.guesses == w.guesses)
          || (q.otps[id].attempts == otp.attempts + 1 <= w.cfg.maxAttempts && !otp.status.Verified?
              && q.guesses == w.guesses + multiset{id}))
  {
    if dies {
      DeathEffect(w, id, code, now);
    } else if VerifyPlan(w.cfg, w.otps[id], code, now) == Some(Pay) {
      PaymentOutcome(w, id, code, now);
    } else {
      RefusalEffect(w, id, code, now);
    }
  }

  lemma CodeIsAcceptedIff(cfg: Config, otp: Otp, code: string, now: int)
    ensures VerifyPlan(cfg, otp, code, now) == Some(Pay)
       <==> otp.status.Open? && now < otp.expiresAt && otp.attempts < cfg.maxAttempts && code == otp.code
    ensures VerifyPlan(cfg, otp, code, now) == None <==> !otp.status.Open?
  {
  }

  // ── wrong guesses ──

  /** Attempts count the wrong guesses since the last renewal. */
  ghost predicate Counted(w: World, id: string) {
    if id in w.otps then
      && w.otps[id].attempts <= w.cfg.maxAttempts
      && w.guesses[id] <= w.cfg.maxAttempts * w.renewals[id] + w.otps[id].attempts
    else w.guesses[id] == 0 && w.renewals[id] == 0
  }

  ghost predicate SeqInv(w: World) {
    Idle(w) && forall id :: Counted(w, id)
  }

  lemma OthersCounted(w: World, q: World, id: string)
    requires SeqInv(w) && OnlyOtp(w, q, id) && Counted(q, id)
    ensures SeqInv(q)
  {
    forall i ensures Counted(q, i) {
      assert Counted(w, i);
    }
  }

  lemma OneMoreCode(m: nat, r: nat)
    ensures m * (r + 1) == m * r + m >= m * r >= 0
  {
  }

  lemma ResendKeepsSeq(w: World, id: string, code: string, now: int)
    requires SeqInv(w) && id in w.otps
    ensures SeqInv(Serve(w, Resend(id, code, now)))
  {
    ResendEffect(w, id, code, now);
    assert Counted(w, id);
    OneMoreCode(w.cfg.maxAttempts, w.renewals[id]);
    OthersCounted(w, Serve(w, Resend(id, code, now)), id);
  }

  lemma VerifyKeepsSeq(w: World, id: string, code: string, now: int, dies: bool)
    requires SeqInv(w) && id in w.otps
    ensures SeqInv(Serve(w, Verify(id, code, now, dies)))
  {
    assert Counted(w, id);
    VerifyEffect(w, id, code, now, dies);
    OthersCounted(w, Serve(w, Verify(id, code, now, dies)), id);
  }

  lemma OtherKeepsSeq(w: World, op: Op)
    requires SeqInv(w) && (op.Fund? || op.Other?)
    ensures SeqInv(Serve(w, op)) && Serve(w, op).cfg == w.cfg
  {
    forall i ensures Counted(Serve(w, op), i) {
      assert Counted(w, i);
    }
  }

  /** Nothing is known of an OTP that does not exist. */
  lemma UnknownOtp(w: World, op: Op)
    requires Idle(w) && (op.Resend? || op.Verify?) && op.id !in w.otps
    ensures Serve(w, op) == w
  {
    assert w.sessions - {0} == w.sessions;
  }

  lemma ServeKeepsSeq(w: World, op: Op)
    requires SeqInv(w)
    ensures SeqInv(Serve(w, op)) && Serve(w, op).cfg == w.cfg
  {
    match op {
      case Resend(id, code, now) =>
        if id in w.otps {
          ResendKeepsSeq(w, id, code, now);
          ResendEffect(w, id, code, now);
        } else {
          UnknownOtp(w, op);
        }
      case Verify(id, code, now, dies) =>
        if id in w.otps {
          VerifyKeepsSeq(w, id, code, now, dies);
          VerifyEffect(w, id, code, now, dies);
        } else {
          UnknownOtp(w, op);
        }
      case _ => OtherKeepsSeq(w, op);
    }
  }

  lemma {:induction false} ServeAllKeepsSeq(w: World, ops: seq<Op>)
    requires SeqInv(w)
    ensures SeqInv(ServeAll(w, ops)) && ServeAll(w, ops).cfg == w.cfg
    decreases |ops|
  {
    if ops != [] {
      ServeKeepsSeq(w, ops[0]);
      ServeAllKeepsSeq(Serve(w, ops[0]), ops[1..]);
    }
  }

  /** Requests one at a time answer at most OTP_MAX_ATTEMPTS wrong guesses per code. */
  lemma WrongGuessesBounded(cfg: Config, ops: seq<Op>, id: string)
    ensures var w := ServeAll(Initially(cfg), ops);
      w.guesses[id] <= cfg.maxAttempts * (w.renewals[id] + 1)
  {
    ServeAllKeepsSeq(Initially(cfg), ops);
    var w := ServeAll(Initially(cfg), ops);
    assert Counted(w, id);
    OneMoreCode(cfg.maxAttempts, w.renewals[id]);
  }

  // ── VERIFIED is final ──

  lemma ServeKeepsVerified(w: World, op: Op, id: string)
    requires Idle(w) && id in w.otps && w.otps[id].status.Verified?
    ensures var q := Serve(w, op); id in q.otps && q.otps[id] == w.otps[id]
  {
    match op {
      case Resend(i, code, now) =>
        if i in w.otps { ResendEffect(w, i, code, now); } else { UnknownOtp(w, op); }
      case Verify(i, code, now, dies) =>
        if i in w.otps { VerifyEffect(w, i, code, now, dies); } else { UnknownOtp(w, op); }
      case _ =>
    }
  }

  /** Requests one at a time never move a verified OTP. */
  lemma {:induction false} VerifiedIsFinal(w: World, ops: seq<Op>, id: string)
    requires SeqInv(w) && id in w.otps && w.otps[id].status.Verified?
    ensures var q := ServeAll(w, ops); id in q.otps && q.otps[id] == w.otps[id]
    decreases |ops|
  {
    if ops != [] {
      ServeKeepsSeq(w, ops[0]);
      ServeKeepsVerified(w, ops[0], id);
      VerifiedIsFinal(Serve(w, ops[0]), ops[1..], id);
    }
  }

  /** What a request will write of the status, from the row it read. */
  predicate PlanOk(cfg: Config, s: Session) {
    && !s.seen.status.Verified?
    && (s.plan.Write? ==>
          && s.plan.patch.status == Writes(cfg, s.seen, s.plan.reason)
          && s.plan.patch.attempts == Counts(s.seen, s.plan.reason)
          && (s.plan.reason.Guess? ==> s.seen.attempts < cfg.maxAttempts))
  }

  /** What it will write of the attempts. */
  function Counts(seen: Otp, reason: Reason): Option<nat> {
    match reason
    case Guess => Some(seen.attempts + 1)
    case Renewal => Changed(seen.attempts, 0)
    case _ => None
  }

  function Writes(cfg: Config, seen: Otp, reason: Reason): Option<OtpStatus> {
    match reason
    case Expiry => Some(Cancelled)
    case Guess => if seen.attempts + 1 >= cfg.maxAttempts then Some(Cancelled) else None
    case Renewal => if seen.status.Open? then None else Some(Open)
    case Confirmation => Some(Verified)
  }

  ghost predicate PlansOk(w: World) {
    forall sid | sid in w.sessions :: PlanOk(w.cfg, w.sessions[sid])
  }

  lemma PayKeepsPlans(w: World, sid: nat, raced: bool)
    requires PlansOk(w)
    ensures PlansOk(DoPay(w, sid, raced)) && DoPay(w, sid, raced).cfg == w.cfg
  {
  }

  lemma StepKeepsPlans(w: World, step: Step)
    requires PlansOk(w)
    ensures PlansOk(Exec(w, step)) && Exec(w, step).cfg == w.cfg
  {
    match step
    case CapitalStep(s) =>
    case PayMaster(sid, raced) => PayKeepsPlans(w, sid, raced);
    case _ =>
  }

  lemma {:induction false} RunKeepsPlans(w: World, steps: seq<Step>)
    requires PlansOk(w)
    ensures PlansOk(Run(w, steps)) && Run(w, steps).cfg == w.cfg
    decreases |steps|
  {
    if steps != [] {
      StepKeepsPlans(w, steps[0]);
      RunKeepsPlans(Exec(w, steps[0]), steps[1..]);
    }
  }

  /** A request that read its row past its expiry, at its last guess, or cancelled and
      to be renewed. */
  predicate Overtaken(w: World, step: Step, id: string) {
    && step.Commit? && step.sid in w.sessions && w.sessions[step.sid].id == id && w.sessions[step.sid].plan.Write?
    && var s := w.sessions[step.sid];
       || s.plan.reason.Expiry?
       || (s.plan.reason.Guess? && s.seen.attempts + 1 >= w.cfg.maxAttempts)
       || (s.plan.reason.Renewal? && s.seen.status.Cancelled?)
  }

  /** Interleaved ones can: in any run a verified OTP stays verified through a step,
      unless the step is the commit of such a request, overtaken by the verification. */
  lemma VerifiedStaysIff(cfg: Config, steps: seq<Step>, step: Step, id: string)
    requires id in Run(Initially(cfg), steps).otps && Run(Initially(cfg), steps).otps[id].status.Verified?
    ensures var w := Run(Initially(cfg), steps);
      id in Exec(w, step).otps && (Exec(w, step).otps[id].status.Verified? <==> !Overtaken(w, step, id))
  {
    RunKeepsPlans(Initially(cfg), steps);
    StaysVerified(Run(Initially(cfg), steps), step, id);
  }

  lemma StaysVerified(w: World, step: Step, id: string)
    requires PlansOk(w) && id in w.otps && w.otps[id].status.Verified?
    ensures id in Exec(w, step).otps && (Exec(w, step).otps[id].status.Verified? <==> !Overtaken(w, step, id))
  {
    match step
    case CapitalStep(s) =>
    case PayMaster(sid, raced) => PayLeavesOtps(w, sid, raced);
    case Commit(sid) =>
      if sid in w.sessions {
        assert PlanOk(w.cfg, w.sessions[sid]);
      }
    case _ =>
  }

  lemma PayLeavesOtps(w: World, sid: nat, raced: bool)
    ensures DoPay(w, sid, raced).otps == w.otps
  {
  }

  /** Such a run: a second request reads the row after its code expired and before the
      first one, which had the right code, confirms. */
  lemma TwoReads(w: World, id: string, code: string, now: int, later: int)
    requires Accepts(w, id, code, now) && later >= w.otps[id].expiresAt
    ensures Exec(Exec(w, ReadVerify(1, id, code, now)), ReadVerify(2, id, code, later))
         == w.(sessions := map[1 := Session(id, w.otps[id], Pay), 2 := LateSession(w, id)])
  {
  }

  function LateSession(w: World, id: string): Session
    requires id in w.otps
  {
    Session(id, w.otps[id], Write(Patch(Some(Cancelled), None, None, None, None), Expiry))
  }

  /** From there the first pays and verifies, and the second cancels what was verified
      and paid. */
  lemma VerifiedIsCancelled(w: World, id: string, db: Db)
    requires id in w.otps && w.sessions == map[1 := Session(id, w.otps[id], Pay), 2 := LateSession(w, id)]
    requires FundMaster(w.capital.db, OtpKey(id), w.otps[id].amount) == Ok(db)
    ensures var verified := DoCommit(DoPay(w, 1, false), 1);
      var q := DoCommit(verified, 2);
      && verified.otps[id].status.Verified? && verified.capital.db == db
      && q.otps[id].status.Cancelled? && q.capital.db == db
  {
    assert DoPay(w, 1, false) == Paid(w, 1, db);
    var verified := DoCommit(Paid(w, 1, db), 1);
    assert 2 in verified.sessions && verified.sessions[2] == LateSession(w, id);
  }

  // ── wrong guesses that interleave ──

  /** Commits of wrong guesses. */
  predicate CommitsGuess(w: World, step: Step, id: string) {
    && step.Commit? && step.sid in w.sessions && w.sessions[step.sid].id == id && id in w.otps
    && w.sessions[step.sid].plan.Write? && w.sessions[step.sid].plan.reason.Guess?
  }

  /** In any run a wrong guess counts as one more attempt if and only if, when it
      commits, the row has the attempts it read. */
  lemma GuessCountsIff(cfg: Config, steps: seq<Step>, step: Step, id: string)
    requires CommitsGuess(Run(Initially(cfg), steps), step, id)
    ensures var w := Run(Initially(cfg), steps);
      && id in Exec(w, step).otps
      && Exec(w, step).guesses[id] == w.guesses[id] + 1
      && (Exec(w, step).otps[id].attempts == w.otps[id].attempts + 1
          <==> w.otps[id].attempts == w.sessions[step.sid].seen.attempts)
  {
    RunKeepsPlans(Initially(cfg), steps);
    GuessCounts(Run(Initially(cfg), steps), step, id);
  }

  lemma GuessCounts(w: World, step: Step, id: string)
    requires PlansOk(w) && CommitsGuess(w, step, id)
    ensures id in Exec(w, step).otps && Exec(w, step).guesses[id] == w.guesses[id] + 1
    ensures Exec(w, step).otps[id].attempts == w.sessions[step.sid].seen.attempts + 1
  {
    assert PlanOk(w.cfg, w.sessions[step.sid]);
  }

  /** How many counted attempts the commit of an overtaken guess takes back. */
  function Lost(w: World, step: Step, id: string): nat {
    if CommitsGuess(w, step, id) && w.otps[id].attempts > w.sessions[step.sid].seen.attempts then
      w.otps[id].attempts - w.sessions[step.sid].seen.attempts
    else 0
  }

  function LostIn(w: World, steps: seq<Step>, id: string): nat
    decreases |steps|
  {
    if steps == [] then 0 else Lost(w, steps[0], id) + LostIn(Exec(w, steps[0]), steps[1..], id)
  }

  ghost predicate CountedBut(w: World, id: string, lost: nat) {
    if id in w.otps then
      && w.otps[id].attempts <= w.cfg.maxAttempts
      && w.guesses[id] <= w.cfg.maxAttempts * w.renewals[id] + w.otps[id].attempts + lost
    else w.guesses[id] == 0 && w.renewals[id] == 0
  }

  lemma CommitCounts(w: World, sid: nat, id: string, lost: nat)
    requires PlansOk(w) && CountedBut(w, id, lost)
    ensures CountedBut(DoCommit(w, sid), id, lost + Lost(w, Commit(sid), id))
  {
    if sid in w.sessions {
      assert PlanOk(w.cfg, w.sessions[sid]);
      OneMoreCode(w.cfg.maxAttempts, w.renewals[id]);
    }
  }

  lemma PayCounts(w: World, sid: nat, raced: bool, id: string, lost: nat)
    requires CountedBut(w, id, lost)
    ensures CountedBut(DoPay(w, sid, raced), id, lost)
  {
  }

  lemma StepCounts(w: World, step: Step, id: string, lost: nat)
    requires PlansOk(w) && CountedBut(w, id, lost)
    ensures CountedBut(Exec(w, step), id, lost + Lost(w, step, id))
  {
    match step
    case Commit(sid) => CommitCounts(w, sid, id, lost);
    case PayMaster(sid, raced) => PayCounts(w, sid, raced, id, lost);
    case CapitalStep(s) =>
    case _ =>
  }

  lemma {:induction false} RunCounts(w: World, steps: seq<Step>, id: string, lost: nat)
    requires PlansOk(w) && CountedBut(w, id, lost)
    ensures CountedBut(Run(w, steps), id, lost + LostIn(w, steps, id))
    decreases |steps|
  {
    if steps != [] {
      StepKeepsPlans(w, steps[0]);
      StepCounts(w, steps[0], id, lost);
      RunCounts(Exec(w, steps[0]), steps[1..], id, lost + Lost(w, steps[0], id));
    }
  }

  /** In any run wrong guesses are at most OTP_MAX_ATTEMPTS times the codes issued, and
      those that overlapping commits took back. */
  lemma GuessesBoundedButForLost(cfg: Config, steps: seq<Step>, id: string)
    ensures var w := Run(Initially(cfg), steps);
      w.guesses[id] <= cfg.maxAttempts * (w.renewals[id] + 1) + LostIn(Initially(cfg), steps, id)
  {
    RunCounts(Initially(cfg), steps, id, 0);
    RunKeepsPlans(Initially(cfg), steps);
    OneMoreCode(cfg.maxAttempts, Run(Initially(cfg), steps).renewals[id]);
  }

  /** Two requests that read the same row before either counts its wrong guess. */
  function BothGuess(w: World, id: string): World
    requires id in w.otps
  {
    var guess := Write(Patch(None, Some(w.otps[id].attempts + 1), None, None, None), Guess);
    w.(sessions := map[1 := Session(id, w.otps[id], guess), 2 := Session(id, w.otps[id], guess)])
  }

  lemma BothGuessesRead(w: World, id: string, one: string, two: string, now: int)
    requires Idle(w) && id in w.otps && w.otps[id].status.Open? && now < w.otps[id].expiresAt
    requires w.otps[id].attempts + 1 < w.cfg.maxAttempts && one != w.otps[id].code && two != w.otps[id].code
    ensures Exec(Exec(w, ReadVerify(1, id, one, now)), ReadVerify(2, id, two, now)) == BothGuess(w, id)
  {
  }

  lemma BothGuessesCommit(w: World, id: string)
    requires id in w.otps
    ensures var q := Exec(Exec(BothGuess(w, id), Commit(1)), Commit(2));
      && id in q.otps && q.otps[id].attempts == w.otps[id].attempts + 1 && q.guesses[id] == w.guesses[id] + 2
  {
    var w1 := DoCommit(BothGuess(w, id), 1);
    assert 2 in w1.sessions && w1.sessions[2] == BothGuess(w, id).sessions[2];
  }

  /** Two wrong guesses read before either is counted count as one. */
  lemma OverlappingGuessesCountOnce(w: World, id: string, one: string, two: string, now: int)
    requires Idle(w) && id in w.otps && w.otps[id].status.Open? && now < w.otps[id].expiresAt
    requires w.otps[id].attempts + 1 < w.cfg.maxAttempts && one != w.otps[id].code && two != w.otps[id].code
    ensures var read := Exec(Exec(w, ReadVerify(1, id, one, now)), ReadVerify(2, id, two, now));
      var q := Exec(Exec(read, Commit(1)), Commit(2));
      && id in q.otps && q.otps[id].attempts == w.otps[id].attempts + 1 && q.guesses[id] == w.guesses[id] + 2
  {
    BothGuessesRead(w, id, one, two, now);
    BothGuessesCommit(w, id);
  }

  // ── both, in runs from the beginning ──

  /** After the first request: a live code "c" for one cent. */
  function Issued(cfg: Config): World {
    Initially(cfg).(otps := map["o" := Otp(CENT, "c", Open, 0, cfg.expiry, None)])
  }

  lemma FirstIsIssued(cfg: Config)
    ensures Exec(Initially(cfg), RequestFunding("o", CENT, "c", 0)) == Issued(cfg)
  {
    assert Normalize(CENT) == Some(CENT);
  }

  /** A run that loses a guess. */
  lemma GuessIsLost(cfg: Config)
    requires cfg.expiry > 0 && cfg.maxAttempts >= 2
    ensures var q := Run(Initially(cfg),
        [RequestFunding("o", CENT, "c", 0), ReadVerify(1, "o", "x", 0), ReadVerify(2, "o", "y", 0),
         Commit(1), Commit(2)]);
      "o" in q.otps && q.otps["o"].attempts == 1 && q.guesses["o"] == 2
  {
    FoldFive(Exec, Initially(cfg), RequestFunding("o", CENT, "c", 0), ReadVerify(1, "o", "x", 0),
             ReadVerify(2, "o", "y", 0), Commit(1), Commit(2));
    FirstIsIssued(cfg);
    OverlappingGuessesCountOnce(Issued(cfg), "o", "x", "y", 0);
  }

  /** The first funding of an empty ledger. */
  lemma FirstFundingSucceeds()
    ensures FundMaster(P.Initial.db, OtpKey("o"), CENT).Ok?
  {
    CapitalRuns.InitialLocal();
    assert Normalize(CENT) == Some(CENT);
    FundMasterSucceeds(P.Initial.db, OtpKey("o"), CENT);
  }

  /** Two requests with the right code, one of them read too late. */
  function TwoSessions(cfg: Config): World {
    Issued(cfg).(sessions := map[1 := Session("o", Issued(cfg).otps["o"], Pay), 2 := LateSession(Issued(cfg), "o")])
  }

  lemma ReadsTwice(cfg: Config)
    requires cfg.expiry > 0 && cfg.maxAttempts > 0
    ensures var first := Exec(Exec(Initially(cfg), RequestFunding("o", CENT, "c", 0)), ReadVerify(1, "o", "c", 0));
      Exec(first, ReadVerify(2, "o", "c", cfg.expiry)) == TwoSessions(cfg)
  {
    FirstIsIssued(cfg);
    TwoReads(Issued(cfg), "o", "c", 0, cfg.expiry);
  }

  lemma BothCommit(cfg: Config)
    ensures var verified := DoCommit(DoPay(TwoSessions(cfg), 1, false), 1);
      var q := DoCommit(verified, 2);
      && "o" in verified.otps && verified.otps["o"].status.Verified?
      && "o" in q.otps && q.otps["o"].status.Cancelled? && OtpKey("o") in q.capital.db.moves
  {
    FirstFundingSucceeds();
    FundingMoves(P.Initial.db, OtpKey("o"), CENT);
    VerifiedIsCancelled(TwoSessions(cfg), "o", FundMaster(P.Initial.db, OtpKey("o"), CENT).value);
  }

  /** The run in which what was verified and paid is cancelled. */
  function CancellingRun(cfg: Config): seq<Step> {
    [RequestFunding("o", CENT, "c", 0), ReadVerify(1, "o", "c", 0), ReadVerify(2, "o", "c", cfg.expiry),
     PayMaster(1, false), Commit(1), Commit(2)]
  }

  /** A run of six steps, from what its first three leave. */
  lemma AfterThree<S, A>(step: (S, A) -> S, s: S, t: S, a: A, b: A, c: A, d: A, e: A, f: A)
    requires step(step(step(s, a), b), c) == t
    ensures Fold(step, s, [a, b, c, d, e, f][..5]) == step(step(t, d), e)
    ensures Fold(step, s, [a, b, c, d, e, f]) == step(step(step(t, d), e), f)
  {
    assert [a, b, c, d, e, f][..5] == [a, b, c, d, e];
    FoldFive(step, s, a, b, c, d, e);
    FoldSix(step, s, a, b, c, d, e, f);
  }

  lemma CancellingRunInParts(cfg: Config)
    requires cfg.expiry > 0 && cfg.maxAttempts > 0
    ensures Run(Initially(cfg), CancellingRun(cfg)[..5]) == Exec(Exec(TwoSessions(cfg), PayMaster(1, false)), Commit(1))
    ensures Run(Initially(cfg), CancellingRun(cfg))
         == Exec(Exec(Exec(TwoSessions(cfg), PayMaster(1, false)), Commit(1)), Commit(2))
  {
    ReadsTwice(cfg);
    AfterThree(Exec, Initially(cfg), TwoSessions(cfg), RequestFunding("o", CENT, "c", 0), ReadVerify(1, "o", "c", 0),
               ReadVerify(2, "o", "c", cfg.expiry), PayMaster(1, false), Commit(1), Commit(2));
  }

  lemma VerifiedThenCancelled(cfg: Config)
    requires cfg.expiry > 0 && cfg.maxAttempts > 0
    ensures var verified, q := Run(Initially(cfg), CancellingRun(cfg)[..5]), Run(Initially(cfg), CancellingRun(cfg));
      && "o" in verified.otps && verified.otps["o"].status.Verified?
      && "o" in q.otps && q.otps["o"].status.Cancelled? && OtpKey("o") in q.capital.db.moves
  {
    CancellingRunInParts(cfg);
    BothCommit(cfg);
  }
}
