/** The amount an OTP pays is the one its request asked for. */
module FundingOtpAsked {
  import opened Common
  import opened Ledger
  import opened Capital
  import opened FundingOtps
  import opened FundingOtpTheorems

  /** Some request of the family issued the OTP, for the whole cents of what it asked. */
  ghost predicate IssuedFor(asks: iset<Step>, id: string, amount: int) {
    exists step :: step in asks && step.RequestFunding? && step.id == id && Normalize(step.requested) == Some(amount)
  }

  ghost predicate AllIssued(asks: iset<Step>, otps: map<string, Otp>) {
    forall id | id in otps :: IssuedFor(asks, id, otps[id].amount)
  }

  /** Rows stay, with their amounts. */
  ghost predicate AmountsStay(otps: map<string, Otp>, after: map<string, Otp>) {
    after.Keys == otps.Keys && forall id | id in otps :: after[id].amount == otps[id].amount
  }

  lemma PayStays(w: World, sid: nat, raced: bool)
    ensures DoPay(w, sid, raced).otps == w.otps
  {
  }

  lemma OtherStepStays(w: World, step: Step)
    requires !step.RequestFunding?
    ensures AmountsStay(w.otps, Exec(w, step).otps)
  {
    match step
    case PayMaster(sid, raced) => PayStays(w, sid, raced);
    case _ =>
  }

  lemma RequestIssues(w: World, id: string, requested: int, code: string, now: int)
    ensures DoRequest(w, id, requested, code, now).otps
         == if id in w.otps || requested < CENT then w.otps
            else w.otps[id := Otp(requested - requested % CENT, code, Open, 0, now + w.cfg.expiry, None)]
  {
  }

  lemma StepIssued(asks: iset<Step>, w: World, step: Step)
    requires AllIssued(asks, w.otps) && step in asks
    ensures AllIssued(asks, Exec(w, step).otps)
  {
    if step.RequestFunding? {
      RequestIssues(w, step.id, step.requested, step.code, step.now);
    } else {
      OtherStepStays(w, step);
    }
    forall id | id in Exec(w, step).otps ensures IssuedFor(asks, id, Exec(w, step).otps[id].amount) {
      if id in w.otps {
        assert IssuedFor(asks, id, w.otps[id].amount);
      }
    }
  }

  lemma {:induction false} RunIssued(asks: iset<Step>, w: World, steps: seq<Step>)
    requires AllIssued(asks, w.otps) && forall i | 0 <= i < |steps| :: steps[i] in asks
    ensures AllIssued(asks, Run(w, steps).otps)
    decreases |steps|
  {
    if steps != [] {
      StepIssued(asks, w, steps[0]);
      RunIssued(asks, Exec(w, steps[0]), steps[1..]);
    }
  }

  /** Step i of the run asked for this OTP, and for at least a cent. */
  ghost predicate RequestedAt(steps: seq<Step>, i: nat, id: string, amount: int) {
    && i < |steps| && steps[i].RequestFunding? && steps[i].id == id
    && amount > 0 && amount % CENT == 0 && amount <= steps[i].requested < amount + CENT
  }

  /** In every run an OTP is for the whole cents of what its request asked. */
  lemma OtpsWereAsked(cfg: Config, steps: seq<Step>, id: string) returns (i: nat)
    requires id in Run(Initially(cfg), steps).otps
    ensures RequestedAt(steps, i, id, Run(Initially(cfg), steps).otps[id].amount)
  {
    var otp, asks := Run(Initially(cfg), steps).otps[id], iset step | step in steps;
    RunIssued(asks, Initially(cfg), steps);
    assert IssuedFor(asks, id, otp.amount);
    var step :| step in asks && step.RequestFunding? && step.id == id && Normalize(step.requested) == Some(otp.amount);
    i :| 0 <= i < |steps| && steps[i] == step;
  }

  /** The one row an OTP that credited has in the ledger is worth the whole cents of what
      was asked for it. */
  lemma CreditIsWhatWasAsked(cfg: Config, steps: seq<Step>, id: string) returns (i: nat, amount: int)
    requires Run(Initially(cfg), steps).credits[id] > 0
    ensures RequestedAt(steps, i, id, amount)
    ensures Row(Run(Initially(cfg), steps).capital.db.book, LdgKey(OtpKey(id)))
         == Some(Tx(MasterAccountFunding, Posted, LdgKey(OtpKey(id)), None, amount))
  {
    CreditedAtMostOnce(cfg, steps, id);
    amount := Run(Initially(cfg), steps).otps[id].amount;
    i := OtpsWereAsked(cfg, steps, id);
  }

  /** A verified OTP of keys that are its own has paid them. */
  lemma VerifiedPaidWhatWasAsked(cfg: Config, steps: seq<Step>, id: string) returns (i: nat, amount: int)
    requires forall k | 0 <= k < |steps| :: OwnKeys(steps[k])
    requires id in Run(Initially(cfg), steps).otps && Run(Initially(cfg), steps).otps[id].status.Verified?
    ensures RequestedAt(steps, i, id, amount)
    ensures Row(Run(Initially(cfg), steps).capital.db.book, LdgKey(OtpKey(id)))
         == Some(Tx(MasterAccountFunding, Posted, LdgKey(OtpKey(id)), None, amount))
  {
    VerifiedIsPaid(cfg, steps, id);
    i, amount := CreditIsWhatWasAsked(cfg, steps, id);
  }
}
