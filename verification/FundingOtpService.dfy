/** The OTP service as the program has it: the row is updated in place, around the
    funding step of the capital side. */
module FundingOtpServices {
  import opened Common
  import opened Capital
  import opened CapitalServices
  import opened CapitalInvariants
  import opened CapitalOutcomes
  import opened FundingOtps
  import opened FundingOtpSequential
  import P = CapitalProtocol

  datatype OtpError =
    | AmountInvalid
    | OtpNotFound
    | OtpAlreadyUsed
    | OtpExpired
    | OtpMaxAttempts
    | OtpInvalid(remaining: nat)
    | FundingFailed
    | MovementNotFound

  class FundingOtpService {
    const cfg: Config
    const capital: MamCapitalService
    var otps: map<string, Otp>

    constructor (cfg: Config, capital: MamCapitalService)
      ensures this.cfg == cfg && this.capital == capital && otps == map[]
    {
      this.cfg, this.capital, otps := cfg, capital, map[];
    }

    /** The service as a world in which nothing is under way. */
    ghost function View(): World
      reads this, capital, capital.ledger
    {
      World(cfg, P.System(capital.Db(), map[], [], multiset{}, map[]), otps, map[], multiset{}, multiset{}, multiset{})
    }

    ghost predicate Shows(w: World)
      reads this, capital, capital.ledger
    {
      otps == w.otps && capital.Db() == w.capital.db
    }

    predicate RightCode(otp: Otp, code: string, now: int) {
      otp.status.Open? && now < otp.expiresAt && otp.attempts < cfg.maxAttempts && code == otp.code
    }

    /** The answer of a verification that does not pay. */
    function Refusal(otp: Otp, code: string, now: int): Result<Movement, OtpError>
      reads capital
    {
      if otp.status.Verified? && otp.movement.Some? then
        if otp.movement.value in capital.movements then Ok(capital.movements[otp.movement.value])
        else Err(MovementNotFound)
      else if !otp.status.Open? then Err(OtpAlreadyUsed)
      else if now >= otp.expiresAt then Err(OtpExpired)
      else if otp.attempts >= cfg.maxAttempts then Err(OtpMaxAttempts)
      else Err(OtpInvalid(cfg.maxAttempts - otp.attempts - 1))
    }

    /** The row it leaves: late or exhausted ones are cancelled, a wrong code costs an
        attempt, and the last one cancels. */
    function RowLeft(otp: Otp, code: string, now: int): Otp {
      if !otp.status.Open? then otp
      else if now >= otp.expiresAt || otp.attempts >= cfg.maxAttempts then otp.(status := Cancelled)
      else
        otp.(attempts := otp.attempts + 1,
             status := if otp.attempts + 1 == cfg.maxAttempts then Cancelled else Open)
    }

    method RequestFunding(id: string, requested: int, code: string, now: int) returns (r: Result<Otp, OtpError>)
      requires id !in otps
      modifies this
      ensures Shows(Serve(old(View()), Fund(id, requested, code, now)))
      ensures r.Ok? <==> requested >= CENT
      ensures r.Ok? ==>
        && id in otps && otps[id] == r.value
        && r.value == Otp(requested - requested % CENT, code, Open, 0, now + cfg.expiry, None)
      ensures r.Err? ==> r == Err(OtpError.AmountInvalid) && otps == old(otps)
    {
      var amount := Normalize(requested);
      if amount.None? {
        return Err(OtpError.AmountInvalid);
      }
      otps := otps[id := Otp(amount.value, code, Open, 0, now + cfg.expiry, None)];
      return Ok(otps[id]);
    }

    method ResendFunding(id: string, code: string, now: int) returns (r: Result<Otp, OtpError>)
      modifies this
      ensures Shows(Serve(old(View()), Resend(id, code, now)))
      ensures r == if id !in old(otps) then Err(OtpNotFound)
                   else if old(otps)[id].status.Verified? then Err(OtpAlreadyUsed)
                   else Ok(otps[id])
      ensures r.Ok? ==> r.value == old(otps)[id].(code := code, expiresAt := now + cfg.expiry, attempts := 0,
                                                  status := Open)
    {
      if id !in otps {
        return Err(OtpNotFound);
      }
      var otp := otps[id];
      if otp.status.Verified? {
        return Err(OtpAlreadyUsed);
      }
      otps := otps[id := otp.(code := code, expiresAt := now + cfg.expiry, attempts := 0, status := Open)];
      return Ok(otps[id]);
    }

    /** What a verification answers, from the row it found. A right code in time pays the
        OTP's amount under its own key, unless the key is used. */
    method VerifyFunding(id: string, code: string, now: int) returns (r: Result<Movement, OtpError>)
      modifies this, capital, capital.ledger
      ensures Shows(Serve(old(View()), Verify(id, code, now, false)))
      ensures id !in old(otps) ==> r == Err(OtpNotFound) && otps == old(otps)
      ensures id in old(otps) && !RightCode(old(otps)[id], code, now) ==>
        && capital.Db() == old(capital.Db()) && r == Refusal(old(otps)[id], code, now)
        && otps == old(otps)[id := RowLeft(old(otps)[id], code, now)]
      ensures id in old(otps) && RightCode(old(otps)[id], code, now) && DbInv(old(capital.Db())) ==>
        var otp := old(otps)[id];
        && FundingOutcome(old(capital.Db()), capital.Db(), OtpKey(id), otp.amount)
        && if otp.amount < CENT then r == Err(FundingFailed) && otps == old(otps)
           else
             && OtpKey(id) in capital.movements && r == Ok(capital.movements[OtpKey(id)])
             && otps == old(otps)[id := otp.(status := Verified, movement := Some(OtpKey(id)))]
    {
      ghost var w := View();
      if id !in otps {
        UnknownOtp(w, Verify(id, code, now, false));
        return Err(OtpNotFound);
      }
      if RightCode(otps[id], code, now) {
        PaymentOutcome(w, id, code, now);
        r := Pay(id);
      } else {
        RefusalEffect(w, id, code, now);
        r := TurnDown(id, code, now);
      }
    }

    /** A verification that does not pay. */
    method TurnDown(id: string, code: string, now: int) returns (r: Result<Movement, OtpError>)
      requires id in otps && !RightCode(otps[id], code, now)
      modifies this
      ensures r == Refusal(old(otps)[id], code, now)
      ensures otps == old(otps)[id := RowLeft(old(otps)[id], code, now)]
    {
      var otp := otps[id];
      if otp.status.Verified? && otp.movement.Some? {
        return if otp.movement.value in capital.movements then Ok(capital.movements[otp.movement.value])
               else Err(MovementNotFound);
      }
      if !otp.status.Open? {
        return Err(OtpAlreadyUsed);
      }
      if now >= otp.expiresAt {
        otps := otps[id := otp.(status := Cancelled)];
        return Err(OtpExpired);
      }
      if otp.attempts >= cfg.maxAttempts {
        otps := otps[id := otp.(status := Cancelled)];
        return Err(OtpMaxAttempts);
      }
      otp := otp.(attempts := otp.attempts + 1);
      var remaining := cfg.maxAttempts - otp.attempts;
      if otp.attempts >= cfg.maxAttempts {
        otp := otp.(status := Cancelled);
      }
      otps := otps[id := otp];
      return Err(OtpInvalid(remaining));
    }

    /** The funding and its commit, then the row's. */
    method Pay(id: string) returns (r: Result<Movement, OtpError>)
      requires id in otps
      modifies this, capital, capital.ledger
      ensures match FundMaster(old(capital.Db()), OtpKey(id), old(otps)[id].amount)
              case Ok(db) =>
                && capital.Db() == db && OtpKey(id) in capital.movements && r == Ok(capital.movements[OtpKey(id)])
                && otps == old(otps)[id := old(otps)[id].(status := Verified, movement := Some(OtpKey(id)))]
              case Err(_) => capital.Db() == old(capital.Db()) && r == Err(FundingFailed) && otps == old(otps)
      ensures DbInv(old(capital.Db())) ==>
        && (r.Ok? <==> old(otps)[id].amount >= CENT)
        && FundingOutcome(old(capital.Db()), capital.Db(), OtpKey(id), old(otps)[id].amount)
    {
      var otp := otps[id];
      var paid := capital.FundMaster(OtpKey(id), otp.amount);
      if paid.Err? {
        return Err(FundingFailed);
      }
      otps := otps[id := otp.(status := Verified, movement := Some(OtpKey(id)))];
      return Ok(paid.value);
    }
  }
}
