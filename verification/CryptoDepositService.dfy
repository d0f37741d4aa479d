/** The deposit service as the program has it. */
module CryptoDepositServices {
  import opened Common
  import opened Capital
  import opened EvmLogs
  import opened TokenAmounts
  import opened CryptoDeposits
  import opened LedgerServices

  class CryptoDepositService {
    const cfg: Config
    const ledger: LedgerService
    var deposits: seq<Deposit>

    constructor (cfg: Config, ledger: LedgerService)
      ensures this.cfg == cfg && this.ledger == ledger && deposits == []
    {
      this.cfg, this.ledger, deposits := cfg, ledger, [];
    }

    /** The transfers that count, and what they add up to. */
    method ReadMatches(transfers: seq<TokenTransfer>, contract: string, receiver: string)
        returns (matches: seq<TokenTransfer>, total: int)
      ensures matches == Matches(transfers, contract, receiver) && total == RawTotal(matches)
    {
      matches, total := [], 0;
      for i := 0 to |transfers|
        invariant matches == Matches(transfers[..i], contract, receiver) && total == RawTotal(matches)
      {
        assert transfers[..i + 1][..i] == transfers[..i];
        var t := transfers[i];
        if t.contract == contract && t.receiver == receiver {
          assert (matches + [t])[..|matches|] == matches;
          matches, total := matches + [t], total + t.rawAmount;
        }
      }
      assert transfers[..|transfers|] == transfers;
    }

    /** The checks on what the node answered. */
    method JudgeOnChain(hash: string, contract: string, receiver: string, s: Submission) returns (v: Verdict)
      ensures v == VerifyOnChain(cfg, hash, contract, receiver, s)
    {
      if s.receipt.RpcError? { return Raise(NodeUnavailable); }
      var receipt := GetReceipt(s.receipt.value, hash);
      if receipt.None? { return Reject(hash, Reason.TxNotFound); }
      if !receipt.value.success { return Reject(hash, TxFailedOnChain); }
      if s.latest.RpcError? { return Raise(NodeUnavailable); }
      if Confirmations(receipt.value.block, s.latest.value) < cfg.minConfirmations {
        return Reject(hash, TxNotConfirmed);
      }
      var matches, total := ReadMatches(receipt.value.transfers, contract, receiver);
      if matches == [] { return Reject(hash, TransferNotFound); }
      var onchain := ToDecimal(total, cfg.decimals, cfg.precision);
      if onchain != s.declared { return Reject(hash, AmountMismatch); }
      return Accept(hash, onchain, total);
    }

    method Judge(s: Submission) returns (v: Verdict)
      ensures v == Verify(cfg, deposits, s)
    {
      var receiver, contract := NormalizeAddress(cfg.receiver), NormalizeAddress(cfg.contract);
      var hash := NormalizeTxHash(s.txHash);
      if receiver.None? || contract.None? { return Raise(EvmConfigMissing); }
      if hash.None? { return Raise(TxHashInvalid); }
      if s.declared <= 0.0 { return Raise(AmountMismatch); }
      if IsConfirmed(deposits, hash.value) { return Raise(DepositAlreadyRegistered); }
      if s.chainId != cfg.chainId { return Reject(hash.value, ChainMismatch); }
      v := JudgeOnChain(hash.value, contract.value, receiver.value, s);
    }

    /** The commit of an accepted submission; any failure rolls it back. */
    method Save(v: Verdict) returns (r: Result<Deposit, Reason>)
      requires v.Accept?
      modifies this, ledger
      ensures match Record(cfg, old(deposits), old(ledger.Book()), v)
              case Ok(q) =>
                deposits == q.0 && ledger.Book() == q.1 && deposits != [] && r == Ok(deposits[|deposits| - 1])
              case Err(e) => deposits == old(deposits) && ledger.Book() == old(ledger.Book()) && r == Err(e)
    {
      if IsConfirmed(deposits, v.hash) {
        return Err(DepositAlreadyRegistered);
      }
      var link := None;
      if cfg.autoCredit {
        var before := ledger.Book();
        var posted := ledger.FundMasterAccount(Units(v.onchain), CryptoKey(v.hash));
        if posted.Err? {
          ledger.Restore(before);
          return Err(if posted.error.DuplicateKey? then DepositAlreadyRegistered else Reason.LedgerInconsistent);
        }
        link := Some(posted.value);
      }
      deposits := deposits + [Confirmed(v.hash, v.onchain, v.raw, link)];
      return Ok(deposits[|deposits| - 1]);
    }

    /** A submission that nothing interleaves. A rejection is noted and credits
        nothing. */
    method Submit(s: Submission) returns (r: Result<Deposit, Reason>)
      modifies this, ledger
      ensures match Verify(cfg, old(deposits), s)
              case Raise(e) => r == Err(e) && deposits == old(deposits) && ledger.Book() == old(ledger.Book())
              case Reject(hash, e) =>
                r == Err(e) && deposits == old(deposits) + [Turned(hash, e)] && ledger.Book() == old(ledger.Book())
              case Accept(hash, onchain, raw) =>
                match Record(cfg, old(deposits), old(ledger.Book()), Accept(hash, onchain, raw))
                case Ok(q) =>
                  deposits == q.0 && ledger.Book() == q.1 && deposits != [] && r == Ok(deposits[|deposits| - 1])
                case Err(e) => deposits == old(deposits) && ledger.Book() == old(ledger.Book()) && r == Err(e)
    {
      var v := Judge(s);
      match v {
        case Raise(e) =>
          return Err(e);
        case Reject(hash, e) =>
          deposits := deposits + [Turned(hash, e)];
          return Err(e);
        case Accept(_, _, _) =>
          r := Save(v);
      }
    }
  }
}
