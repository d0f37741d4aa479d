/** What a submission is answered, told from what the node wrote and what the transfers
    of the transaction paid; and what an accepted one records. */
module CryptoDepositAnswers {
  import opened Common
  import opened Ledger
  import opened LedgerTheorems
  import opened LedgerAnswers
  import opened Capital
  import opened EvmLogs
  import opened TokenAmounts
  import opened CryptoDeposits
  import opened CryptoDepositTheorems

  /** Event i is a transfer of the token to the address. */
  predicate PaysAt(events: seq<Event>, contract: string, receiver: string, i: nat) {
    && i < |events| && events[i].Erc20?
    && events[i].transfer.contract == contract && events[i].transfer.receiver == receiver
  }

  ghost predicate SomePays(events: seq<Event>, contract: string, receiver: string) {
    exists i: nat :: PaysAt(events, contract, receiver, i)
  }

  lemma SomePaysLast(events: seq<Event>, contract: string, receiver: string)
    requires events != []
    ensures SomePays(events, contract, receiver)
       <==> SomePays(events[..|events| - 1], contract, receiver) || PaysAt(events, contract, receiver, |events| - 1)
  {
    var init := events[..|events| - 1];
    if i: nat :| PaysAt(init, contract, receiver, i) {
      assert PaysAt(events, contract, receiver, i);
    }
    if i: nat :| PaysAt(events, contract, receiver, i) && i < |init| {
      assert PaysAt(init, contract, receiver, i);
    }
  }

  lemma {:induction false} MatchesIfPays(events: seq<Event>, contract: string, receiver: string)
    ensures Matches(Transfers(events), contract, receiver) != [] <==> SomePays(events, contract, receiver)
  {
    if events != [] {
      var n := |events| - 1;
      var ts := Transfers(events[..n]);
      MatchesIfPays(events[..n], contract, receiver);
      SomePaysLast(events, contract, receiver);
      if events[n].Erc20? {
        assert (ts + [events[n].transfer])[..|ts|] == ts;
      }
    }
  }

  /** A submission of a mined transaction: what the node wrote, as numbers and events. */
  ghost predicate Wrote(s: Submission, block: nat, status: nat, latest: nat, events: seq<Event>) {
    && s.receipt.Reply? && s.receipt.value.RawReceipt? && s.latest.Reply?
    && SpellsQuantity(s.receipt.value.block, block) && SpellsQuantity(s.receipt.value.status, status)
    && SpellsQuantity(s.latest.value, latest) && LogsOf(s.receipt.value.logs, events)
  }

  ghost predicate Registered(deposits: seq<Deposit>, hash: string) {
    exists i | 0 <= i < |deposits| :: deposits[i].Confirmed? && deposits[i].hash == hash
  }

  /** What the chain decides, of a hash that is new. */
  ghost function ChainVerdict(cfg: Config, hash: string, contract: string, receiver: string, declared: real,
      block: nat, status: nat, latest: nat, events: seq<Event>): Verdict
  {
    if status != 1 then Reject(hash, TxFailedOnChain)
    else if latest - block + 1 < cfg.minConfirmations then Reject(hash, TxNotConfirmed)
    else if !SomePays(events, contract, receiver) then Reject(hash, TransferNotFound)
    else if ToDecimal(PaidTo(events, contract, receiver), cfg.decimals, cfg.precision) != declared then
      Reject(hash, AmountMismatch)
    else Accept(hash, declared, PaidTo(events, contract, receiver))
  }

  lemma ChainAnswers(cfg: Config, hash: string, contract: string, receiver: string, s: Submission,
        block: nat, status: nat, latest: nat, events: seq<Event>)
    requires Wrote(s, block, status, latest, events)
    ensures VerifyOnChain(cfg, hash, contract, receiver, s)
         == ChainVerdict(cfg, hash, contract, receiver, s.declared, block, status, latest, events)
  {
    ReceiptReadsBack(s.receipt.value, hash, block, status, "", "", "", events);
    QuantityReadsBack(s.latest.value, latest);
    MatchesIfPays(events, contract, receiver);
    TotalIsPaid(events, contract, receiver);
  }

  /** The whole answer to a submission of a mined transaction: accepted for what the
      transfers paid, or the first reason it is not. */
  lemma SubmissionAnswers(cfg: Config, deposits: seq<Deposit>, s: Submission, hash: string, contract: string,
        receiver: string, block: nat, status: nat, latest: nat, events: seq<Event>)
    requires NormalizeAddress(cfg.contract) == Some(contract) && NormalizeAddress(cfg.receiver) == Some(receiver)
    requires NormalizeTxHash(s.txHash) == Some(hash) && Wrote(s, block, status, latest, events)
    ensures Verify(cfg, deposits, s)
         == if s.declared <= 0.0 then Raise(AmountMismatch)
            else if Registered(deposits, hash) then Raise(DepositAlreadyRegistered)
            else if s.chainId != cfg.chainId then Reject(hash, ChainMismatch)
            else ChainVerdict(cfg, hash, contract, receiver, s.declared, block, status, latest, events)
  {
    ChainAnswers(cfg, hash, contract, receiver, s, block, status, latest, events);
  }

  /** What is answered without looking at a mined transaction. */
  lemma EarlyAnswers(cfg: Config, deposits: seq<Deposit>, s: Submission)
    ensures NormalizeAddress(cfg.contract).None? || NormalizeAddress(cfg.receiver).None? ==>
      Verify(cfg, deposits, s) == Raise(EvmConfigMissing)
    ensures NormalizeAddress(cfg.contract).Some? && NormalizeAddress(cfg.receiver).Some? ==>
      && (NormalizeTxHash(s.txHash).None? ==> Verify(cfg, deposits, s) == Raise(TxHashInvalid))
      && (NormalizeTxHash(s.txHash).Some? && s.declared > 0.0 && s.chainId == cfg.chainId
          && !Registered(deposits, NormalizeTxHash(s.txHash).value) ==>
            && (s.receipt.RpcError? ==> Verify(cfg, deposits, s) == Raise(NodeUnavailable))
            && (s.receipt.Reply? && (s.receipt.value.NoReceipt? || s.receipt.value.block.Null?) ==>
                  Verify(cfg, deposits, s) == Reject(NormalizeTxHash(s.txHash).value, Reason.TxNotFound)))
  {
  }

  // ── what an accepted submission records ──

  /** An accepted submission is recorded unless its hash is registered by then, and its
      credit brings the amount from outside. */
  lemma AcceptedIsRecorded(d: Desk, v: Verdict)
    requires DeskInv(d) && v.Accept?
    ensures var o, b := Record(d.cfg, d.deposits, d.capital.db.book, v), d.capital.db.book;
      if Registered(d.deposits, v.hash) then o == Err(DepositAlreadyRegistered)
      else
        && o.Ok? && o.value.0 == d.deposits + [Confirmed(v.hash, v.onchain, v.raw, o.value.0[|d.deposits|].link)]
        && if !d.cfg.autoCredit then o.value.1 == b && o.value.0[|d.deposits|].link.None?
           else
             && o.value.0[|d.deposits|].link == Some(|b.txs|)
             && forall a :: Moved(b, o.value.1, a) == (if a == MasterAccount then Units(v.onchain)
                                                       else if a == ExternalFunding then -Units(v.onchain) else 0)
  {
    if !Registered(d.deposits, v.hash) {
      assert Row(d.capital.db.book, CryptoKey(v.hash)).None?;
      FundingAnswers(d.capital.db.book, Units(v.onchain), CryptoKey(v.hash));
      FundingMovesIn(d.capital.db.book, Units(v.onchain), CryptoKey(v.hash));
    }
  }

  /** A submission served alone is a run of the interleaved steps. */
  lemma SubmissionIsARun(d: Desk, sid: nat, s: Submission)
    requires sid !in d.waiting
    ensures var v, q := Verify(d.cfg, d.deposits, s), Run(d, [Submit(sid, s), Save(sid)]);
      match v
      case Accept(_, _, _) =>
        (match Record(d.cfg, d.deposits, d.capital.db.book, v)
         case Ok(o) => q.deposits == o.0 && q.capital.db.book == o.1
         case Err(_) => q.deposits == d.deposits && q.capital.db.book == d.capital.db.book)
      case Reject(hash, why) =>
        q.deposits == d.deposits + [Turned(hash, why)] && q.capital.db.book == d.capital.db.book
      case Raise(_) => q.deposits == d.deposits && q.capital.db.book == d.capital.db.book
  {
    FoldTwo(Exec, d, Submit(sid, s), Save(sid));
  }
}
