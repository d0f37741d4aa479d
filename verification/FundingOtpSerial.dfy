/** Runs in which requests on one OTP do not overlap, whatever the others do: no guess
    is lost and VERIFIED is final. And what each payment step of any run credits. */
module FundingOtpSerial {
  import opened Capital
  import opened FundingOtps
  import opened FundingOtpTheorems
  import opened FundingOtpSequential

  /** At most one request on the OTP is under way. */
  ghost predicate Alone(w: World, id: string) {
    forall i, j | i in w.sessions && j in w.sessions && w.sessions[i].id == id && w.sessions[j].id == id :: i == j
  }

  /** At every moment of the run. */
  ghost predicate Serial(w: World, steps: seq<Step>, id: string)
    decreases |steps|
  {
    Alone(w, id) && (steps == [] || Serial(Exec(w, steps[0]), steps[1..], id))
  }

  /** A request under way has read the row as it is. */
  ghost predicate UpToDate(w: World, id: string) {
    forall sid | sid in w.sessions && w.sessions[sid].id == id :: id in w.otps && w.sessions[sid].seen == w.otps[id]
  }

  lemma PayStaysUpToDate(w: World, sid: nat, raced: bool, id: string)
    requires UpToDate(w, id)
    ensures UpToDate(DoPay(w, sid, raced), id)
  {
    if sid in w.sessions && w.sessions[sid].plan.Pay? {
      var o := FundMaster(w.capital.db, OtpKey(w.sessions[sid].id), w.sessions[sid].seen.amount);
      assert o.Ok? ==> UpToDate(Paid(w, sid, o.value), id);
    }
  }

  lemma CommitStaysUpToDate(w: World, sid: nat, id: string)
    requires Alone(w, id) && UpToDate(w, id)
    ensures UpToDate(DoCommit(w, sid), id)
  {
  }

  lemma StepStaysUpToDate(w: World, step: Step, id: string)
    requires Alone(w, id) && UpToDate(w, id)
    ensures UpToDate(Exec(w, step), id) && Lost(w, step, id) == 0
  {
    match step
    case PayMaster(sid, raced) => PayStaysUpToDate(w, sid, raced, id);
    case Commit(sid) => CommitStaysUpToDate(w, sid, id);
    case _ =>
  }

  lemma {:induction false} SerialLosesNothing(w: World, steps: seq<Step>, id: string)
    requires UpToDate(w, id) && Serial(w, steps, id)
    ensures UpToDate(Run(w, steps), id) && LostIn(w, steps, id) == 0
    decreases |steps|
  {
    if steps != [] {
      StepStaysUpToDate(w, steps[0], id);
      SerialLosesNothing(Exec(w, steps[0]), steps[1..], id);
    }
  }

  /** Requests on other OTPs may overlap: if those on this one do not, its wrong guesses
      are at most OTP_MAX_ATTEMPTS times the codes issued. */
  lemma SerialGuessesBounded(cfg: Config, steps: seq<Step>, id: string)
    requires Serial(Initially(cfg), steps, id)
    ensures var w := Run(Initially(cfg), steps); w.guesses[id] <= cfg.maxAttempts * (w.renewals[id] + 1)
  {
    SerialLosesNothing(Initially(cfg), steps, id);
    GuessesBoundedButForLost(cfg, steps, id);
  }

  // ── VERIFIED under the same condition ──

  /** Nobody is under way on a verified OTP who has read it. */
  lemma VerifiedIsLeftAlone(w: World, id: string)
    requires PlansOk(w) && UpToDate(w, id) && id in w.otps && w.otps[id].status.Verified?
    ensures forall sid | sid in w.sessions :: w.sessions[sid].id != id
  {
    forall sid | sid in w.sessions ensures w.sessions[sid].id != id {
      assert PlanOk(w.cfg, w.sessions[sid]);
    }
  }

  lemma StepLeavesVerified(w: World, step: Step, id: string)
    requires PlansOk(w) && UpToDate(w, id) && id in w.otps && w.otps[id].status.Verified?
    ensures id in Exec(w, step).otps && Exec(w, step).otps[id] == w.otps[id]
  {
    VerifiedIsLeftAlone(w, id);
    match step
    case PayMaster(sid, raced) => PayLeavesOtps(w, sid, raced);
    case _ =>
  }

  lemma {:induction false} RunLeavesVerified(w: World, steps: seq<Step>, id: string)
    requires PlansOk(w) && UpToDate(w, id) && Serial(w, steps, id) && id in w.otps && w.otps[id].status.Verified?
    ensures id in Run(w, steps).otps && Run(w, steps).otps[id] == w.otps[id]
    decreases |steps|
  {
    if steps != [] {
      StepKeepsPlans(w, steps[0]);
      StepStaysUpToDate(w, steps[0], id);
      StepLeavesVerified(w, steps[0], id);
      RunLeavesVerified(Exec(w, steps[0]), steps[1..], id);
    }
  }

  /** If the requests on an OTP never overlap, a verified one never changes. */
  lemma SerialVerifiedIsFinal(cfg: Config, steps: seq<Step>, more: seq<Step>, id: string)
    requires Serial(Initially(cfg), steps, id) && Serial(Run(Initially(cfg), steps), more, id)
    requires id in Run(Initially(cfg), steps).otps && Run(Initially(cfg), steps).otps[id].status.Verified?
    ensures var w, q := Run(Initially(cfg), steps), Run(Run(Initially(cfg), steps), more);
      id in q.otps && q.otps[id] == w.otps[id]
  {
    SerialLosesNothing(Initially(cfg), steps, id);
    RunKeepsPlans(Initially(cfg), steps);
    RunLeavesVerified(Run(Initially(cfg), steps), more, id);
  }

  // ── what a payment credits ──

  /** The world a payment leaves: the request ended, or its funding committed. */
  lemma PaymentShape(w: World, sid: nat, raced: bool)
    requires OtpInv(w) && sid in w.sessions && w.sessions[sid].plan.Pay?
    ensures var s := w.sessions[sid];
      var known, o := OtpKey(s.id) in w.capital.db.moves, FundMaster(w.capital.db, OtpKey(s.id), s.seen.amount);
      && o.Ok?
      && DoPay(w, sid, raced) == if raced && known then w.(sessions := w.sessions - {sid}) else Paid(w, sid, o.value)
  {
    SessionAmount(w, sid);
    FundMasterSucceeds(w.capital.db, OtpKey(w.sessions[sid].id), w.sessions[sid].seen.amount);
  }

  lemma PaymentCredits(w: World, sid: nat, raced: bool)
    requires OtpInv(w) && sid in w.sessions && w.sessions[sid].plan.Pay?
    ensures var id, q := w.sessions[sid].id, DoPay(w, sid, raced);
      && id in w.otps && id in q.otps && q.otps == w.otps
      && (PaidInLedger(q, id) <==> OtpKey(id) !in w.capital.db.moves || Funded(w.capital.db.moves, id, w.otps[id]))
      && q.credits[id] == w.credits[id] + if OtpKey(id) in w.capital.db.moves then 0 else 1
  {
    var s, q := w.sessions[sid], DoPay(w, sid, raced);
    assert SessionOk(w.capital.db.moves, w.otps, s);
    PaymentShape(w, sid, raced);
    FundingMoves(w.capital.db, OtpKey(s.id), s.seen.amount);
    SessionAmount(w, sid);
    PayKeeps(w, sid, raced);
    PaidIffFunded(q, s.id);
  }

  /** In any run, however requests interleave, the OTP is paid after a payment step if and
      only if the movement key was free at its commit, or held by the OTP's own funding;
      and the step credits it if and only if the key was free. */
  lemma PaymentPaysIff(cfg: Config, steps: seq<Step>, sid: nat, raced: bool)
    requires sid in Run(Initially(cfg), steps).sessions && Run(Initially(cfg), steps).sessions[sid].plan.Pay?
    ensures var w := Run(Initially(cfg), steps);
      var id, q := w.sessions[sid].id, Exec(w, PayMaster(sid, raced));
      && id in w.otps && id in q.otps
      && (PaidInLedger(q, id) <==> OtpKey(id) !in w.capital.db.moves || Funded(w.capital.db.moves, id, w.otps[id]))
      && q.credits[id] == w.credits[id] + if OtpKey(id) in w.capital.db.moves then 0 else 1
  {
    EveryRun(cfg, steps);
    PaymentCredits(Run(Initially(cfg), steps), sid, raced);
  }
}
