/** Crediting the master account with what a transaction paid on chain: the checks a
    submission goes through, and the commit that records and credits it. */
module CryptoDeposits {
  import opened Common
  import opened Ledger
  import opened Capital
  import opened EvmLogs
  import opened TokenAmounts
  import P = CapitalProtocol

  datatype Config = Config(
    receiver: string, contract: string, chainId: int, decimals: nat, minConfirmations: int,
    autoCredit: bool, precision: nat)

  datatype Reason =
    | EvmConfigMissing
    | TxHashInvalid
    | DepositAlreadyRegistered
    | ChainMismatch
    | TxNotFound
    | TxFailedOnChain
    | TxNotConfirmed
    | TransferNotFound
    | AmountMismatch
    | NodeUnavailable
    | LedgerInconsistent

  /** A row of the deposits table; a rejected one keeps the evidence of an attempt. */
  datatype Deposit =
    | Confirmed(hash: string, onchain: real, raw: int, link: Option<nat>)
    | Turned(hash: string, reason: Reason)

  /** What the node answers, when it does. */
  datatype Answer<T> = Reply(value: T) | RpcError

  /** What a caller presents, and what the node says about it. */
  datatype Submission = Submission(
    txHash: string, chainId: int, declared: real, receipt: Answer<RawReceipt>, latest: Answer<Field>)

  datatype Verdict =
    | Raise(error: Reason)
    | Reject(hash: string, why: Reason)
    | Accept(hash: string, onchain: real, raw: int)

  // ── verification ──

  predicate IsConfirmed(deposits: seq<Deposit>, hash: string) {
    exists i | 0 <= i < |deposits| :: deposits[i].Confirmed? && deposits[i].hash == hash
  }

  function Matches(transfers: seq<TokenTransfer>, contract: string, receiver: string): seq<TokenTransfer> {
    if transfers == [] then []
    else
      var before := Matches(transfers[..|transfers| - 1], contract, receiver);
      var t := transfers[|transfers| - 1];
      if t.contract == contract && t.receiver == receiver then before + [t] else before
  }

  function RawTotal(transfers: seq<TokenTransfer>): int {
    if transfers == [] then 0 else RawTotal(transfers[..|transfers| - 1]) + transfers[|transfers| - 1].rawAmount
  }

  function Confirmations(block: int, latest: Field): int {
    match ToInt(latest)
    case Some(n) => n - block + 1
    case None => 0
  }

  /** The checks on what the node knows of a transaction, in the order they are made. */
  function VerifyReceipt(cfg: Config, hash: string, contract: string, receiver: string, declared: real,
      receipt: Option<TxReceipt>, latest: Answer<Field>): Verdict
  {
    if receipt.None? then Reject(hash, Reason.TxNotFound)
    else if !receipt.value.success then Reject(hash, TxFailedOnChain)
    else if latest.RpcError? then Raise(NodeUnavailable)
    else if Confirmations(receipt.value.block, latest.value) < cfg.minConfirmations then Reject(hash, TxNotConfirmed)
    else
      var matches := Matches(receipt.value.transfers, contract, receiver);
      if matches == [] then Reject(hash, TransferNotFound)
      else
        var onchain := ToDecimal(RawTotal(matches), cfg.decimals, cfg.precision);
        if onchain != declared then Reject(hash, AmountMismatch)
        else Accept(hash, onchain, RawTotal(matches))
  }

  function VerifyOnChain(cfg: Config, hash: string, contract: string, receiver: string, s: Submission): Verdict {
    if s.receipt.RpcError? then Raise(NodeUnavailable)
    else VerifyReceipt(cfg, hash, contract, receiver, s.declared, ReceiptOf(s.receipt.value, hash), s.latest)
  }

  /** All the checks. */
  function Verify(cfg: Config, deposits: seq<Deposit>, s: Submission): Verdict {
    var receiver, contract := NormalizeAddress(cfg.receiver), NormalizeAddress(cfg.contract);
    var hash := NormalizeTxHash(s.txHash);
    if receiver.None? || contract.None? then Raise(EvmConfigMissing)
    else if hash.None? then Raise(TxHashInvalid)
    else if s.declared <= 0.0 then Raise(AmountMismatch)
    else if IsConfirmed(deposits, hash.value) then Raise(DepositAlreadyRegistered)
    else if s.chainId != cfg.chainId then Reject(hash.value, ChainMismatch)
    else VerifyOnChain(cfg, hash.value, contract.value, receiver.value, s)
  }

  // ── the commits ──

  /** The row and the credit enter together; a hash already confirmed, or a posting
      that fails, leaves nothing. */
  function Record(cfg: Config, deposits: seq<Deposit>, b: Book, v: Verdict): Result<(seq<Deposit>, Book), Reason>
    requires v.Accept?
  {
    if IsConfirmed(deposits, v.hash) then Err(DepositAlreadyRegistered)
    else if !cfg.autoCredit then Ok((deposits + [Confirmed(v.hash, v.onchain, v.raw, None)], b))
    else
      var o := FundMasterAccount(b, Units(v.onchain), CryptoKey(v.hash));
      match o.result
      case Ok(id) => Ok((deposits + [Confirmed(v.hash, v.onchain, v.raw, Some(id))], o.book))
      case Err(DuplicateKey) => Err(DepositAlreadyRegistered)
      case Err(_) => Err(Reason.LedgerInconsistent)
  }

  /** What an attempt leaves on record besides an acceptance. */
  function Noted(deposits: seq<Deposit>, v: Verdict): seq<Deposit> {
    if v.Reject? then deposits + [Turned(v.hash, v.why)] else deposits
  }

  // ── submissions that interleave ──

  /** The capital side, the deposits and the submissions accepted but not recorded. */
  datatype Desk = Desk(cfg: Config, capital: P.System, deposits: seq<Deposit>, waiting: map<nat, Verdict>)

  datatype Step =
    | Submit(sid: nat, submission: Submission)
    | Save(sid: nat)
    | Die(sid: nat)
    | CapitalStep(step: P.Step)

  function Initially(cfg: Config): Desk {
    Desk(cfg, P.Initial, [], map[])
  }

  function DoSave(d: Desk, sid: nat): Desk {
    if sid !in d.waiting || !d.waiting[sid].Accept? then d
    else
      match Record(d.cfg, d.deposits, d.capital.db.book, d.waiting[sid])
      case Err(_) => d.(waiting := d.waiting - {sid})
      case Ok(q) => d.(deposits := q.0, capital := P.WithBook(d.capital, q.1), waiting := d.waiting - {sid})
  }

  /** A submission, once judged: it waits to be saved, or leaves at most a note. */
  function Judged(d: Desk, sid: nat, v: Verdict): Desk {
    if v.Accept? then (if sid in d.waiting then d else d.(waiting := d.waiting[sid := v]))
    else d.(deposits := Noted(d.deposits, v))
  }

  /** On-chain credits come from here and from nowhere else. */
  function Exec(d: Desk, step: Step): Desk {
    match step
    case Submit(sid, s) => Judged(d, sid, Verify(d.cfg, d.deposits, s))
    case Save(sid) => DoSave(d, sid)
    case Die(sid) => d.(waiting := d.waiting - {sid})
    case CapitalStep(s) => if s.Credit? then d else d.(capital := P.Exec(d.capital, s))
  }

  function Run(d: Desk, steps: seq<Step>): Desk {
    Fold(Exec, d, steps)
  }
}

/** What a hash can do, in any interleaving. */
module CryptoDepositTheorems {
  import opened Common
  import opened Ledger
  import opened LedgerTheorems
  import opened Capital
  import opened CapitalInvariants
  import opened CapitalRuns
  import opened CapitalFamilies
  import opened EvmLogs
  import opened TokenAmounts
  import opened CryptoDeposits
  import P = CapitalProtocol

  // ── the amount ──

  /** What the transfers of one token paid to one address. */
  function PaidTo(events: seq<Event>, contract: string, receiver: string): int {
    if events == [] then 0
    else
      PaidTo(events[..|events| - 1], contract, receiver) +
      match events[|events| - 1]
      case Erc20(t) => if t.contract == contract && t.receiver == receiver then t.rawAmount else 0
      case Else => 0
  }

  lemma {:induction false} TotalIsPaid(events: seq<Event>, contract: string, receiver: string)
    ensures RawTotal(Matches(Transfers(events), contract, receiver)) == PaidTo(events, contract, receiver)
  {
    if events != [] {
      var init, ts := events[..|events| - 1], Transfers(events[..|events| - 1]);
      TotalIsPaid(init, contract, receiver);
      match events[|events| - 1]
      case Erc20(t) =>
        assert (ts + [t])[..|ts|] == ts;
        var m := Matches(ts, contract, receiver);
        assert (m + [t])[..|m|] == m;
      case Else =>
    }
  }

  lemma AcceptReceipt(cfg: Config, hash: string, contract: string, receiver: string, declared: real,
      receipt: Option<TxReceipt>, latest: Answer<Field>)
    ensures var v := VerifyReceipt(cfg, hash, contract, receiver, declared, receipt, latest);
      && (v.Accept? <==>
            && receipt.Some? && receipt.value.success && latest.Reply?
            && Confirmations(receipt.value.block, latest.value) >= cfg.minConfirmations
            && Matches(receipt.value.transfers, contract, receiver) != []
            && var total := RawTotal(Matches(receipt.value.transfers, contract, receiver));
               declared == ToDecimal(total, cfg.decimals, cfg.precision))
      && (v.Accept? ==>
            && v.hash == hash && v.raw == RawTotal(Matches(receipt.value.transfers, contract, receiver))
            && v.onchain == ToDecimal(v.raw, cfg.decimals, cfg.precision) == declared)
  {
  }

  lemma ReceiptLogs(raw: RawReceipt, hash: string)
    requires ReceiptOf(raw, hash).Some?
    ensures raw.RawReceipt? && ReceiptOf(raw, hash).value.transfers == DecodeLogs(raw.logs)
  {
  }

  lemma AcceptOnChain(cfg: Config, hash: string, contract: string, receiver: string, s: Submission)
    requires VerifyOnChain(cfg, hash, contract, receiver, s).Accept?
    ensures s.receipt.Reply? && s.receipt.value.RawReceipt?
    ensures var v := VerifyOnChain(cfg, hash, contract, receiver, s);
      && v.hash == hash && v.raw == RawTotal(Matches(DecodeLogs(s.receipt.value.logs), contract, receiver))
      && v.onchain == ToDecimal(v.raw, cfg.decimals, cfg.precision) == s.declared
    ensures Settled(cfg, hash, s)
  {
    var receipt := ReceiptOf(s.receipt.value, hash);
    AcceptReceipt(cfg, hash, contract, receiver, s.declared, receipt, s.latest);
    ReceiptLogs(s.receipt.value, hash);
  }

  /** The node knows the transaction, mined long enough ago, successful. */
  predicate Settled(cfg: Config, hash: string, s: Submission) {
    && s.receipt.Reply? && s.latest.Reply? && ReceiptOf(s.receipt.value, hash).Some?
    && ReceiptOf(s.receipt.value, hash).value.success
    && Confirmations(ReceiptOf(s.receipt.value, hash).value.block, s.latest.value) >= cfg.minConfirmations
  }

  lemma AcceptedOnlyIf(cfg: Config, deposits: seq<Deposit>, s: Submission)
    ensures Verify(cfg, deposits, s).Accept? <==>
      && NormalizeTxHash(s.txHash).Some? && NormalizeAddress(cfg.contract).Some? && NormalizeAddress(cfg.receiver).Some?
      && s.declared > 0.0 && s.chainId == cfg.chainId && !IsConfirmed(deposits, NormalizeTxHash(s.txHash).value)
      && VerifyOnChain(cfg, NormalizeTxHash(s.txHash).value, NormalizeAddress(cfg.contract).value,
                       NormalizeAddress(cfg.receiver).value, s).Accept?
  {
  }

  /** What an acceptance says of the chain, whatever rows the table has. */
  lemma AcceptShape(cfg: Config, deposits: seq<Deposit>, s: Submission)
    requires Verify(cfg, deposits, s).Accept?
    ensures s.receipt.Reply? && s.receipt.value.RawReceipt?
    ensures NormalizeAddress(cfg.contract).Some? && NormalizeAddress(cfg.receiver).Some?
    ensures var v := Verify(cfg, deposits, s);
      && v.raw == RawTotal(Matches(DecodeLogs(s.receipt.value.logs),
                                   NormalizeAddress(cfg.contract).value, NormalizeAddress(cfg.receiver).value))
      && v.onchain == ToDecimal(v.raw, cfg.decimals, cfg.precision) == s.declared > 0.0
      && NormalizeTxHash(s.txHash) == Some(v.hash) && !IsConfirmed(deposits, v.hash)
      && Settled(cfg, v.hash, s) && s.chainId == cfg.chainId
    ensures Verify(cfg, [], s) == Verify(cfg, deposits, s)
  {
    AcceptedOnlyIf(cfg, deposits, s);
    AcceptOnChain(cfg, NormalizeTxHash(s.txHash).value,
                  NormalizeAddress(cfg.contract).value, NormalizeAddress(cfg.receiver).value, s);
  }

  lemma PaidIsRead(logs: seq<Log>, events: seq<Event>, contract: string, receiver: string)
    requires LogsOf(logs, events)
    ensures RawTotal(Matches(DecodeLogs(logs), contract, receiver)) == PaidTo(events, contract, receiver)
  {
    DecodingRoundTrip(logs, events);
    TotalIsPaid(events, contract, receiver);
  }

  // ── one credit per hash ──

  ghost predicate UniqueConfirmed(deposits: seq<Deposit>) {
    forall i, j | 0 <= i < |deposits| && 0 <= j < |deposits| && deposits[i].Confirmed? && deposits[j].Confirmed?
      && deposits[i].hash == deposits[j].hash :: i == j
  }

  /** A confirmed deposit and its posting, when deposits are credited. */
  ghost predicate DepositOk(b: Book, auto: bool, d: Deposit) {
    d.Confirmed? ==>
      var row := Row(b, CryptoKey(d.hash));
      if auto then
        && d.link.Some? && d.link == FindTx(b.txs, CryptoKey(d.hash))
        && row == Some(Tx(MasterAccountFunding, Posted, CryptoKey(d.hash), None, Units(d.onchain)))
      else d.link.None? && row.None?
  }

  ghost predicate DepositsOk(b: Book, auto: bool, deposits: seq<Deposit>) {
    && (forall i | 0 <= i < |deposits| :: DepositOk(b, auto, deposits[i]))
    && (forall hash {:trigger CryptoKey(hash)} :: !IsConfirmed(deposits, hash) ==> Row(b, CryptoKey(hash)).None?)
  }

  ghost predicate DeskInv(d: Desk) {
    && LocalInv(d.capital)
    && UniqueConfirmed(d.deposits)
    && DepositsOk(d.capital.db.book, d.cfg.autoCredit, d.deposits)
    && (forall sid | sid in d.waiting && d.waiting[sid].Accept? :: d.waiting[sid].onchain > 0.0)
  }

  lemma TurnedKeeps(b: Book, auto: bool, deposits: seq<Deposit>, d: Deposit)
    requires UniqueConfirmed(deposits) && DepositsOk(b, auto, deposits) && d.Turned?
    ensures UniqueConfirmed(deposits + [d]) && DepositsOk(b, auto, deposits + [d])
  {
    var all := deposits + [d];
    forall i | 0 <= i < |all| && all[i].Confirmed? ensures i < |deposits| && all[i] == deposits[i] {}
    forall hash | !IsConfirmed(all, hash) ensures Row(b, CryptoKey(hash)).None? {
      AddedConfirmed(deposits, d, hash);
    }
  }

  lemma SubmitKeeps(d: Desk, sid: nat, s: Submission)
    requires DeskInv(d)
    ensures DeskInv(Exec(d, Submit(sid, s)))
  {
    if Verify(d.cfg, d.deposits, s).Accept? {
      AcceptShape(d.cfg, d.deposits, s);
    }
    VerdictKeeps(d, sid, Verify(d.cfg, d.deposits, s));
  }

  lemma VerdictKeeps(d: Desk, sid: nat, v: Verdict)
    requires DeskInv(d) && (v.Accept? ==> v.onchain > 0.0)
    ensures DeskInv(Judged(d, sid, v))
  {
    if v.Reject? {
      TurnedKeeps(d.capital.db.book, d.cfg.autoCredit, d.deposits, Turned(v.hash, v.why));
    }
  }

  lemma AddedConfirmed(deposits: seq<Deposit>, d: Deposit, hash: string)
    ensures IsConfirmed(deposits + [d], hash) <==> IsConfirmed(deposits, hash) || (d.Confirmed? && d.hash == hash)
  {
    var all := deposits + [d];
    if IsConfirmed(deposits, hash) {
      var i :| 0 <= i < |deposits| && deposits[i].Confirmed? && deposits[i].hash == hash;
      assert all[i] == deposits[i];
    }
    if d.Confirmed? && d.hash == hash {
      assert all[|deposits|] == d;
    }
    if IsConfirmed(all, hash) {
      var i :| 0 <= i < |all| && all[i].Confirmed? && all[i].hash == hash;
      assert i < |deposits| ==> deposits[i] == all[i];
    }
  }

  lemma CapitalStepKeeps(d: Desk, step: P.Step)
    requires DeskInv(d) && !step.Credit?
    ensures DeskInv(d.(capital := P.Exec(d.capital, step)))
  {
    StepKeepsLocal(d.capital, step);
    StepKeepsFamily(d.capital, step, 'c');
    FamilyKeepsDeposits(d.capital.db.book, P.Exec(d.capital, step).db.book, d.cfg.autoCredit, d.deposits);
  }

  lemma FamilyKeepsDeposits(b: Book, q: Book, auto: bool, deposits: seq<Deposit>)
    requires FamilyKept(b, q, 'c') && DepositsOk(b, auto, deposits)
    ensures DepositsOk(q, auto, deposits)
  {
    forall hash ensures Row(q, CryptoKey(hash)) == Row(b, CryptoKey(hash))
                     && FindTx(q.txs, CryptoKey(hash)) == FindTx(b.txs, CryptoKey(hash)) {
      assert Family(CryptoKey(hash)) == 'c';
    }
    forall i | 0 <= i < |deposits| ensures DepositOk(q, auto, deposits[i]) {
      assert DepositOk(b, auto, deposits[i]);
    }
  }

  lemma NewDepositOk(b: Book, q: Book, auto: bool, deposits: seq<Deposit>, d: Deposit)
    requires DepositsOk(b, auto, deposits) && d.Confirmed? && !IsConfirmed(deposits, d.hash)
    requires OnlyKey(b, q, CryptoKey(d.hash)) && DepositOk(q, auto, d)
    ensures DepositsOk(q, auto, deposits + [d])
  {
    var all := deposits + [d];
    forall i | 0 <= i < |all| ensures DepositOk(q, auto, all[i]) {
      if i < |deposits| {
        assert DepositOk(b, auto, deposits[i]);
        if all[i].Confirmed? {
          KeyFamilies(all[i].hash, d.hash, 0);
        }
      }
    }
    forall hash | !IsConfirmed(all, hash) ensures Row(q, CryptoKey(hash)).None? {
      AddedConfirmed(deposits, d, hash);
      KeyFamilies(hash, d.hash, 0);
      assert Row(b, CryptoKey(hash)).None?;
    }
  }

  lemma NewConfirmed(deposits: seq<Deposit>, d: Deposit)
    requires UniqueConfirmed(deposits) && d.Confirmed? && !IsConfirmed(deposits, d.hash)
    ensures UniqueConfirmed(deposits + [d])
  {
    var all := deposits + [d];
    forall i, j | 0 <= i < |all| && 0 <= j < |all| && all[i].Confirmed? && all[j].Confirmed?
      && all[i].hash == all[j].hash
      ensures i == j
    {
      assert i < |deposits| ==> all[i] == deposits[i];
      assert j < |deposits| ==> all[j] == deposits[j];
    }
  }

  lemma RecordKeeps(cfg: Config, s: P.System, deposits: seq<Deposit>, v: Verdict)
    requires LocalInv(s) && UniqueConfirmed(deposits) && DepositsOk(s.db.book, cfg.autoCredit, deposits)
    requires v.Accept? && v.onchain > 0.0 && Record(cfg, deposits, s.db.book, v).Ok?
    ensures var q := Record(cfg, deposits, s.db.book, v).value;
      LocalInv(P.WithBook(s, q.1)) && UniqueConfirmed(q.0) && DepositsOk(q.1, cfg.autoCredit, q.0)
  {
    var b := s.db.book;
    if cfg.autoCredit {
      var o := Ledger.FundMasterAccount(b, Units(v.onchain), CryptoKey(v.hash));
      var d := Confirmed(v.hash, v.onchain, v.raw, Some(o.result.value));
      FundingEffect(b, Units(v.onchain), CryptoKey(v.hash));
      NewConfirmed(deposits, d);
      NewDepositOk(b, o.book, true, deposits, d);
      CreditKeeps(s.db, v.hash, Units(v.onchain));
      BookKeepsLocal(s, o.book);
    } else {
      var d := Confirmed(v.hash, v.onchain, v.raw, None);
      NewConfirmed(deposits, d);
      assert Row(b, CryptoKey(v.hash)).None?;
      NewDepositOk(b, b, false, deposits, d);
      assert P.WithBook(s, b) == s;
    }
  }

  lemma StepKeeps(d: Desk, step: Step)
    requires DeskInv(d)
    ensures DeskInv(Exec(d, step)) && Exec(d, step).cfg == d.cfg
  {
    match step
    case Submit(sid, s) => SubmitKeeps(d, sid, s);
    case Save(sid) =>
      if sid in d.waiting && d.waiting[sid].Accept?
        && Record(d.cfg, d.deposits, d.capital.db.book, d.waiting[sid]).Ok?
      {
        RecordKeeps(d.cfg, d.capital, d.deposits, d.waiting[sid]);
      }
    case Die(sid) =>
    case CapitalStep(s) =>
      if !s.Credit? {
        CapitalStepKeeps(d, s);
      }
  }

  lemma {:induction false} RunKeeps(d: Desk, steps: seq<Step>)
    requires DeskInv(d)
    ensures DeskInv(Run(d, steps)) && Run(d, steps).cfg == d.cfg
    decreases |steps|
  {
    if steps != [] {
      StepKeeps(d, steps[0]);
      RunKeeps(Exec(d, steps[0]), steps[1..]);
    }
  }

  /** However submissions interleave, a hash has at most one confirmed deposit, and the
      journal at most one row for it: there when deposits are credited and the hash is
      confirmed, with the amount read from the chain. */
  lemma OneCreditPerHash(cfg: Config, steps: seq<Step>, i: nat)
    requires i < |Run(Initially(cfg), steps).deposits| && Run(Initially(cfg), steps).deposits[i].Confirmed?
    ensures var d := Run(Initially(cfg), steps);
      var b, dep := d.capital.db.book, d.deposits[i];
      && (forall j | 0 <= j < |d.deposits| && d.deposits[j].Confirmed? && d.deposits[j].hash == dep.hash :: j == i)
      && (forall j, k | 0 <= j < |b.txs| && 0 <= k < |b.txs| && b.txs[j].key == CryptoKey(dep.hash) == b.txs[k].key ::
            j == k)
      && Row(b, CryptoKey(dep.hash)) ==
           (if cfg.autoCredit then
              Some(Tx(MasterAccountFunding, Posted, CryptoKey(dep.hash), None, Units(dep.onchain)))
            else None)
  {
    InitialDesk(cfg);
    RunKeeps(Initially(cfg), steps);
    var d := Run(Initially(cfg), steps);
    assert DepositOk(d.capital.db.book, cfg.autoCredit, d.deposits[i]);
  }

  /** A hash with no confirmed deposit has moved nothing, whatever was rejected. */
  lemma UnconfirmedMovesNothing(cfg: Config, steps: seq<Step>, hash: string)
    requires !IsConfirmed(Run(Initially(cfg), steps).deposits, hash)
    ensures forall j | 0 <= j < |Run(Initially(cfg), steps).capital.db.book.txs| ::
      Run(Initially(cfg), steps).capital.db.book.txs[j].key != CryptoKey(hash)
  {
    InitialDesk(cfg);
    RunKeeps(Initially(cfg), steps);
    assert Row(Run(Initially(cfg), steps).capital.db.book, CryptoKey(hash)).None?;
  }

  lemma InitialDesk(cfg: Config)
    ensures DeskInv(Initially(cfg))
  {
    InitialLocal();
  }

  // ── the credit and the chain ──

  /** Some submission of the family was accepted with this verdict. */
  ghost predicate Backed(subs: iset<Submission>, cfg: Config, v: Verdict) {
    exists s :: s in subs && Verify(cfg, [], s) == v
  }

  /** What waits and what is confirmed was accepted. */
  ghost predicate AllBacked(subs: iset<Submission>, d: Desk) {
    && (forall sid | sid in d.waiting :: Backed(subs, d.cfg, d.waiting[sid]))
    && (forall i | 0 <= i < |d.deposits| && d.deposits[i].Confirmed? ::
          Backed(subs, d.cfg, Accept(d.deposits[i].hash, d.deposits[i].onchain, d.deposits[i].raw)))
  }

  lemma SubmitBacked(subs: iset<Submission>, d: Desk, sid: nat, s: Submission)
    requires AllBacked(subs, d) && s in subs
    ensures AllBacked(subs, Exec(d, Submit(sid, s)))
  {
    var v := Verify(d.cfg, d.deposits, s);
    if v.Accept? {
      AcceptShape(d.cfg, d.deposits, s);
    }
    JudgedBacked(subs, d, sid, v, s);
  }

  lemma JudgedBacked(subs: iset<Submission>, d: Desk, sid: nat, v: Verdict, s: Submission)
    requires AllBacked(subs, d) && s in subs && (v.Accept? ==> Verify(d.cfg, [], s) == v)
    ensures AllBacked(subs, Judged(d, sid, v))
  {
    var q := Judged(d, sid, v);
    forall i | 0 <= i < |q.deposits| && q.deposits[i].Confirmed?
      ensures Backed(subs, d.cfg, Accept(q.deposits[i].hash, q.deposits[i].onchain, q.deposits[i].raw))
    {
      assert i < |d.deposits| && q.deposits[i] == d.deposits[i];
    }
  }

  lemma SaveBacked(subs: iset<Submission>, d: Desk, sid: nat)
    requires AllBacked(subs, d)
    ensures AllBacked(subs, DoSave(d, sid))
  {
    var q := DoSave(d, sid);
    forall i | 0 <= i < |q.deposits| && q.deposits[i].Confirmed?
      ensures Backed(subs, d.cfg, Accept(q.deposits[i].hash, q.deposits[i].onchain, q.deposits[i].raw))
    {
      assert i < |d.deposits| ==> q.deposits[i] == d.deposits[i];
    }
  }

  ghost predicate FromFamily(subs: iset<Submission>, step: Step) {
    step.Submit? ==> step.submission in subs
  }

  lemma StepBacked(subs: iset<Submission>, d: Desk, step: Step)
    requires AllBacked(subs, d) && FromFamily(subs, step)
    ensures AllBacked(subs, Exec(d, step))
  {
    match step
    case Submit(sid, s) => SubmitBacked(subs, d, sid, s);
    case Save(sid) => SaveBacked(subs, d, sid);
    case _ =>
  }

  lemma {:induction false} RunBacked(subs: iset<Submission>, d: Desk, steps: seq<Step>)
    requires AllBacked(subs, d) && forall i | 0 <= i < |steps| :: FromFamily(subs, steps[i])
    ensures AllBacked(subs, Run(d, steps))
    decreases |steps|
  {
    if steps != [] {
      StepBacked(subs, d, steps[0]);
      RunBacked(subs, Exec(d, steps[0]), steps[1..]);
    }
  }

  ghost predicate Presented(steps: seq<Step>, s: Submission) {
    exists i :: 0 <= i < |steps| && steps[i].Submit? && steps[i].submission == s
  }

  /** Behind every confirmed deposit of a run there is a submission of the run, accepted
      for that hash, amount and sum. */
  lemma ConfirmedWasAccepted(cfg: Config, steps: seq<Step>, i: nat) returns (s: Submission)
    requires i < |Run(Initially(cfg), steps).deposits| && Run(Initially(cfg), steps).deposits[i].Confirmed?
    ensures var dep := Run(Initially(cfg), steps).deposits[i];
      Presented(steps, s) && Verify(cfg, [], s) == Accept(dep.hash, dep.onchain, dep.raw)
  {
    var subs := iset s | Presented(steps, s);
    forall k | 0 <= k < |steps| ensures FromFamily(subs, steps[k]) {
      assert steps[k].Submit? ==> Presented(steps, steps[k].submission);
    }
    RunBacked(subs, Initially(cfg), steps);
    InitialDesk(cfg);
    RunKeeps(Initially(cfg), steps);
    var dep := Run(Initially(cfg), steps).deposits[i];
    assert Backed(subs, cfg, Accept(dep.hash, dep.onchain, dep.raw));
    s :| s in subs && Verify(cfg, [], s) == Accept(dep.hash, dep.onchain, dep.raw);
  }

  lemma {:induction false} PaidIsNotNegative(logs: seq<Log>, events: seq<Event>, contract: string, receiver: string)
    requires LogsOf(logs, events)
    ensures PaidTo(events, contract, receiver) >= 0
  {
    if events != [] {
      var n := |events| - 1;
      assert LogsOf(logs[..n], events[..n]);
      PaidIsNotNegative(logs[..n], events[..n], contract, receiver);
      assert events[n].Erc20? ==> Emittable(events[n].transfer);
    }
  }

  /** The events behind the logs a submission was judged by. */
  ghost predicate Saw(s: Submission, events: seq<Event>) {
    s.receipt.Reply? && s.receipt.value.RawReceipt? && LogsOf(s.receipt.value.logs, events)
  }

  /** What the configured token's transfers to the configured address add up to. */
  function PaidHere(cfg: Config, events: seq<Event>): int
    requires NormalizeAddress(cfg.contract).Some? && NormalizeAddress(cfg.receiver).Some?
  {
    PaidTo(events, NormalizeAddress(cfg.contract).value, NormalizeAddress(cfg.receiver).value)
  }

  /** An accepted submission is worth what the transfers add up to. */
  lemma AcceptedIsPaid(cfg: Config, deposits: seq<Deposit>, s: Submission, events: seq<Event>)
    requires Verify(cfg, deposits, s).Accept? && Saw(s, events)
    ensures NormalizeAddress(cfg.contract).Some? && NormalizeAddress(cfg.receiver).Some?
    ensures var v := Verify(cfg, deposits, s);
      v.raw == PaidHere(cfg, events) >= 0 && v.onchain == ToDecimal(PaidHere(cfg, events), cfg.decimals, cfg.precision)
  {
    AcceptShape(cfg, deposits, s);
    PaidIsRead(s.receipt.value.logs, events, NormalizeAddress(cfg.contract).value,
               NormalizeAddress(cfg.receiver).value);
    PaidIsNotNegative(s.receipt.value.logs, events, NormalizeAddress(cfg.contract).value,
                      NormalizeAddress(cfg.receiver).value);
  }

  /** The amount of a row is worth the sum, when the sum can be written down. */
  predicate PaysExactly(cfg: Config, amount: int, paid: nat) {
    amount * Pow10(cfg.decimals) == paid * UNITS
  }

  lemma CreditedSum(cfg: Config, dep: Deposit, paid: nat)
    requires cfg.precision > 0 && dep.Confirmed? && dep.onchain == ToDecimal(paid, cfg.decimals, cfg.precision)
    ensures PaysExactly(cfg, Units(dep.onchain), paid)
       <==> Significant(paid, cfg.precision) && paid * UNITS % Pow10(cfg.decimals) == 0
  {
    CreditIsExactIff(paid, cfg.decimals, cfg.precision);
  }

  /** What the node wrote: status 1, and enough blocks since. */
  ghost predicate MinedWell(cfg: Config, s: Submission) {
    && s.receipt.Reply? && s.receipt.value.RawReceipt? && s.latest.Reply?
    && (forall k: nat | SpellsQuantity(s.receipt.value.status, k) :: k == 1) && !s.receipt.value.status.Null?
    && forall n: nat, m: nat | SpellsQuantity(s.receipt.value.block, n) && SpellsQuantity(s.latest.value, m) ::
         m - n + 1 >= cfg.minConfirmations
  }

  lemma SettledIsMined(cfg: Config, hash: string, s: Submission)
    requires Settled(cfg, hash, s)
    ensures MinedWell(cfg, s)
  {
    var raw := s.receipt.value;
    MissingFields(raw, hash);
    forall k: nat | SpellsQuantity(raw.status, k) ensures k == 1 {
      QuantityReadsBack(raw.status, k);
    }
    forall n: nat, m: nat | SpellsQuantity(raw.block, n) && SpellsQuantity(s.latest.value, m)
      ensures m - n + 1 >= cfg.minConfirmations
    {
      QuantityReadsBack(raw.block, n);
      QuantityReadsBack(s.latest.value, m);
    }
  }

  /** In every run a confirmed deposit comes from an accepted submission, for a successful
      transaction of the right chain, confirmed enough; and the one posting of its hash
      is worth exactly what the token's transfers paid to the receiver, if and only if
      that sum fits the decimal context and is a whole number of ledger units. */
  lemma CreditIsWhatWasPaid(cfg: Config, steps: seq<Step>, i: nat, events: seq<Event>) returns (s: Submission)
    requires cfg.precision > 0 && cfg.autoCredit
    requires i < |Run(Initially(cfg), steps).deposits| && Run(Initially(cfg), steps).deposits[i].Confirmed?
    ensures Presented(steps, s)
    ensures var d := Run(Initially(cfg), steps);
      NormalizeTxHash(s.txHash) == Some(d.deposits[i].hash) && s.chainId == cfg.chainId && Settled(cfg,
          d.deposits[i].hash, s)
    ensures MinedWell(cfg, s)
    ensures NormalizeAddress(cfg.contract).Some? && NormalizeAddress(cfg.receiver).Some?
    ensures var d := Run(Initially(cfg), steps);
      var row := Row(d.capital.db.book, CryptoKey(d.deposits[i].hash));
      && row.Some? && row.value.kind.MasterAccountFunding? && row.value.status.Posted?
      && (Saw(s, events) ==>
            var paid := PaidHere(cfg, events);
            && paid >= 0
            && (PaysExactly(cfg, row.value.amount, paid)
                <==> Significant(paid, cfg.precision) && paid * UNITS % Pow10(cfg.decimals) == 0))
  {
    s := ConfirmedWasAccepted(cfg, steps, i);
    OneCreditPerHash(cfg, steps, i);
    AcceptShape(cfg, [], s);
    SettledIsMined(cfg, Run(Initially(cfg), steps).deposits[i].hash, s);
    if Saw(s, events) {
      AcceptedIsPaid(cfg, [], s, events);
      CreditedSum(cfg, Run(Initially(cfg), steps).deposits[i], PaidHere(cfg, events));
    }
  }
}
