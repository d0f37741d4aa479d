/** Where the credits of a run come from, and the run in which a verified OTP has
    none. */
module FundingOtpCredits {
  import opened Common
  import opened Capital
  import opened FundingOtps
  import opened FundingOtpTheorems
  import opened FundingOtpSequential
  import P = CapitalProtocol

  // ── a credit needs the code ──

  /** At step n of the run the code of a live OTP was given, right and in time. */
  ghost predicate GivenAt(cfg: Config, steps: seq<Step>, n: nat, id: string)
    requires n < |steps|
  {
    var w := Run(Initially(cfg), steps[..n]);
    && steps[n].ReadVerify? && steps[n].id == id && id in w.otps
    && var otp := w.otps[id];
       otp.status.Open? && steps[n].code == otp.code && steps[n].now < otp.expiresAt && otp.attempts < cfg.maxAttempts
  }

  ghost predicate Given(cfg: Config, steps: seq<Step>, k: nat, id: string)
    requires k <= |steps|
  {
    exists n :: 0 <= n < k && GivenAt(cfg, steps, n, id)
  }

  /** Requests about to pay, or that paid, and credits come from a code given. */
  ghost predicate FromCodes(cfg: Config, steps: seq<Step>, k: nat, w: World)
    requires k <= |steps|
  {
    && (forall sid | sid in w.sessions && w.sessions[sid].plan.Pay? :: Given(cfg, steps, k, w.sessions[sid].id))
    && (forall id | w.credits[id] > 0 :: Given(cfg, steps, k, id))
  }

  lemma GivenStays(cfg: Config, steps: seq<Step>, k: nat, id: string)
    requires k < |steps| && Given(cfg, steps, k, id)
    ensures Given(cfg, steps, k + 1, id)
  {
    var n :| 0 <= n < k && GivenAt(cfg, steps, n, id);
    assert GivenAt(cfg, steps, n, id);
  }

  lemma ReadIsGiven(cfg: Config, steps: seq<Step>, k: nat, sid: nat)
    requires k < |steps| && steps[k].ReadVerify?
    requires var w := Run(Initially(cfg), steps[..k]);
      && w.cfg == cfg && steps[k].id in w.otps
      && VerifyPlan(cfg, w.otps[steps[k].id], steps[k].code, steps[k].now) == Some(Pay)
    ensures Given(cfg, steps, k + 1, steps[k].id)
  {
    CodeIsAcceptedIff(cfg, Run(Initially(cfg), steps[..k]).otps[steps[k].id], steps[k].code, steps[k].now);
    assert GivenAt(cfg, steps, k, steps[k].id);
  }

  /** A request that ends unpaid takes its session away. */
  lemma EndFromCodes(cfg: Config, steps: seq<Step>, k: nat, w: World, sid: nat)
    requires k < |steps| && FromCodes(cfg, steps, k, w)
    ensures FromCodes(cfg, steps, k + 1, w.(sessions := w.sessions - {sid}))
  {
    var q := w.(sessions := w.sessions - {sid});
    forall i | i in q.sessions && q.sessions[i].plan.Pay? ensures Given(cfg, steps, k + 1, q.sessions[i].id) {
      GivenStays(cfg, steps, k, w.sessions[i].id);
    }
    forall id | q.credits[id] > 0 ensures Given(cfg, steps, k + 1, id) {
      GivenStays(cfg, steps, k, id);
    }
  }

  /** One that pays came from a code given. */
  lemma PaidFromCodes(cfg: Config, steps: seq<Step>, k: nat, w: World, sid: nat, db: Db)
    requires k < |steps| && FromCodes(cfg, steps, k, w) && sid in w.sessions && w.sessions[sid].plan.Pay?
    ensures FromCodes(cfg, steps, k + 1, Paid(w, sid, db))
  {
    var q := Paid(w, sid, db);
    forall i | i in q.sessions && q.sessions[i].plan.Pay? ensures Given(cfg, steps, k + 1, q.sessions[i].id) {
      assert i != sid && q.sessions[i] == w.sessions[i];
      GivenStays(cfg, steps, k, w.sessions[i].id);
    }
    forall id | q.credits[id] > 0 ensures Given(cfg, steps, k + 1, id) {
      assert w.credits[id] > 0 || id == w.sessions[sid].id;
      GivenStays(cfg, steps, k, id);
    }
  }

  lemma SameFromCodes(cfg: Config, steps: seq<Step>, k: nat, w: World)
    requires k < |steps| && FromCodes(cfg, steps, k, w)
    ensures FromCodes(cfg, steps, k + 1, w)
  {
    forall i | i in w.sessions && w.sessions[i].plan.Pay? ensures Given(cfg, steps, k + 1, w.sessions[i].id) {
      GivenStays(cfg, steps, k, w.sessions[i].id);
    }
    forall id | w.credits[id] > 0 ensures Given(cfg, steps, k + 1, id) {
      GivenStays(cfg, steps, k, id);
    }
  }

  lemma PayFromCodes(cfg: Config, steps: seq<Step>, k: nat, w: World, sid: nat, raced: bool)
    requires k < |steps| && FromCodes(cfg, steps, k, w)
    ensures FromCodes(cfg, steps, k + 1, DoPay(w, sid, raced))
  {
    if sid in w.sessions && w.sessions[sid].plan.Pay? {
      var o := FundMaster(w.capital.db, OtpKey(w.sessions[sid].id), w.sessions[sid].seen.amount);
      if o.Ok? {
        PaidFromCodes(cfg, steps, k, w, sid, o.value);
      }
      EndFromCodes(cfg, steps, k, w, sid);
    } else {
      SameFromCodes(cfg, steps, k, w);
    }
  }

  lemma OtherFromCodes(cfg: Config, steps: seq<Step>, k: nat, w: World, step: Step)
    requires k < |steps| && FromCodes(cfg, steps, k, w) && !step.PayMaster? && !step.ReadVerify?
    ensures FromCodes(cfg, steps, k + 1, Exec(w, step))
  {
    var q := Exec(w, step);
    forall i | i in q.sessions && q.sessions[i].plan.Pay? ensures Given(cfg, steps, k + 1, q.sessions[i].id) {
      assert i in w.sessions && w.sessions[i] == q.sessions[i];
      GivenStays(cfg, steps, k, w.sessions[i].id);
    }
    forall id | q.credits[id] > 0 ensures Given(cfg, steps, k + 1, id) {
      GivenStays(cfg, steps, k, id);
    }
  }

  lemma ReadFromCodes(cfg: Config, steps: seq<Step>, k: nat)
    requires k < |steps| && steps[k].ReadVerify?
    requires var w := Run(Initially(cfg), steps[..k]); w.cfg == cfg && FromCodes(cfg, steps, k, w)
    ensures FromCodes(cfg, steps, k + 1, Exec(Run(Initially(cfg), steps[..k]), steps[k]))
  {
    var w, step := Run(Initially(cfg), steps[..k]), steps[k];
    var q := Exec(w, step);
    forall i | i in q.sessions && q.sessions[i].plan.Pay? ensures Given(cfg, steps, k + 1, q.sessions[i].id) {
      if i in w.sessions {
        GivenStays(cfg, steps, k, w.sessions[i].id);
      } else {
        ReadIsGiven(cfg, steps, k, i);
      }
    }
    forall id | q.credits[id] > 0 ensures Given(cfg, steps, k + 1, id) {
      GivenStays(cfg, steps, k, id);
    }
  }

  lemma StepFromCodes(cfg: Config, steps: seq<Step>, k: nat, w: World)
    requires k < |steps| && w == Run(Initially(cfg), steps[..k]) && w.cfg == cfg && FromCodes(cfg, steps, k, w)
    ensures FromCodes(cfg, steps, k + 1, Exec(w, steps[k]))
  {
    if steps[k].ReadVerify? {
      ReadFromCodes(cfg, steps, k);
    } else if steps[k].PayMaster? {
      PayFromCodes(cfg, steps, k, w, steps[k].sid, steps[k].raced);
    } else {
      OtherFromCodes(cfg, steps, k, w, steps[k]);
    }
  }

  lemma StartFromCodes(cfg: Config, steps: seq<Step>)
    ensures FromCodes(cfg, steps, 0, Initially(cfg))
  {
  }

  lemma NextFromCodes(cfg: Config, steps: seq<Step>, k: nat)
    requires k < |steps| && FromCodes(cfg, steps, k, Run(Initially(cfg), steps[..k]))
    ensures FromCodes(cfg, steps, k + 1, Run(Initially(cfg), steps[..k + 1]))
  {
    RunKeepsPlans(Initially(cfg), steps[..k]);
    FoldLast(Exec, Initially(cfg), steps, k);
    StepFromCodes(cfg, steps, k, Run(Initially(cfg), steps[..k]));
  }

  lemma {:induction false} PrefixFromCodes(cfg: Config, steps: seq<Step>, k: nat)
    requires k <= |steps|
    ensures FromCodes(cfg, steps, k, Run(Initially(cfg), steps[..k]))
  {
    if k == 0 {
      assert steps[..0] == [];
      StartFromCodes(cfg, steps);
    } else {
      PrefixFromCodes(cfg, steps, k - 1);
      NextFromCodes(cfg, steps, k - 1);
    }
  }

  /** In every run an OTP that credited the master account had its own code given, while
      it was open, before it expired and within its attempts. */
  lemma CreditNeedsTheCode(cfg: Config, steps: seq<Step>, id: string) returns (n: nat)
    requires Run(Initially(cfg), steps).credits[id] > 0
    ensures n < |steps| && GivenAt(cfg, steps, n, id)
  {
    PrefixFromCodes(cfg, steps, |steps|);
    assert steps[..|steps|] == steps;
    assert Given(cfg, steps, |steps|, id);
    n :| 0 <= n < |steps| && GivenAt(cfg, steps, n, id);
  }

  // ── verified and not paid ──

  /** A withdrawal asked for under the OTP's movement key, before its code is given. */
  function TakenKeyRun(): seq<Step> {
    [RequestFunding("o", CENT, "c", 0),
     CapitalStep(P.Ask(0, Withdrawal, OtpKey("o"), "1", "t", CENT, false)), CapitalStep(P.Begin(0))]
  }

  lemma KeyIsTaken(cfg: Config)
    requires cfg.expiry > 0 && cfg.maxAttempts > 0
    ensures var w := Run(Initially(cfg), TakenKeyRun());
      && Accepts(w, "o", "c", 0) && OtpKey("o") in w.capital.db.moves
      && w.capital.db.moves[OtpKey("o")].direction.Withdrawal? && w.credits == multiset{}
  {
    FoldThree(Exec, Initially(cfg), TakenKeyRun()[0], TakenKeyRun()[1], TakenKeyRun()[2]);
    FirstIsIssued(cfg);
    AskAndOpen();
  }

  lemma AskAndOpen()
    ensures var q := P.DoBegin(P.DoAsk(P.Initial, P.Ask(0, Withdrawal, OtpKey("o"), "1", "t", CENT, false)), 0);
      OtpKey("o") in q.db.moves && q.db.moves[OtpKey("o")].direction.Withdrawal?
  {
    assert Normalize(CENT) == Some(CENT);
  }

  /** From there the right code verifies the OTP, and the ledger has no funding for it. */
  lemma VerifiedNotPaid(cfg: Config)
    requires cfg.expiry > 0 && cfg.maxAttempts > 0
    ensures var q := Serve(Run(Initially(cfg), TakenKeyRun()), Verify("o", "c", 0, false));
      && "o" in q.otps && q.otps["o"].status.Verified? && !PaidInLedger(q, "o") && q.credits["o"] == 0
  {
    var w := Run(Initially(cfg), TakenKeyRun());
    KeyIsTaken(cfg);
    EveryRun(cfg, TakenKeyRun());
    VerifyPaysIff(w, "o", "c", 0);
  }
}
