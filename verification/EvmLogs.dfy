/** Reading ERC-20 transfers out of a transaction receipt, and the proof that what
    EIP-20 says is emitted is what is read back. */
module EvmLogs {
  import opened Common

  /** A JSON value as the node sends it. `Other` is an array or an object, by the text
      Python prints for it. */
  datatype Field = Null | Str(text: string) | Num(n: int) | Bool(b: bool) | Other(text: string)

  datatype Log = NotAnObject | Log(topics: seq<Field>, data: Field, address: Field, logIndex: Field)

  datatype RawReceipt = NoReceipt | RawReceipt(
    block: Field, status: Field, hash: Field, sender: Field, receiver: Field, logs: seq<Log>)

  datatype TokenTransfer = TokenTransfer(
    contract: string, sender: string, receiver: string, rawAmount: int, logIndex: int)

  datatype TxReceipt = TxReceipt(
    hash: string, success: bool, block: int, sender: Option<string>, receiver: Option<string>,
    transfers: seq<TokenTransfer>)

  /** The hash of the event's signature. */
  const TRANSFER_TOPIC :=
    "0x" + "ddf252ad" + "1be2c89b" + "69c2b068" + "fc378daa" + "952ba7f1" + "63c4a116" + "28f55a4d" + "f523b3ef"

  // ── Python's text and numbers ──

  function LowerChar(c: char): char {
    if 'A' <= c <= 'Z' then (c as int + 32) as char else c
  }

  function Lower(s: string): (r: string)
    ensures |r| == |s| && forall i | 0 <= i < |s| :: r[i] == LowerChar(s[i])
  {
    seq(|s|, i requires 0 <= i < |s| => LowerChar(s[i]))
  }

  /** `str(x)` */
  function Text(f: Field): string {
    match f
    case Null => "None"
    case Str(s) => s
    case Num(n) => IntStr(n)
    case Bool(b) => if b then "True" else "False"
    case Other(s) => s
  }

  predicate Falsy(f: Field) {
    match f
    case Null => true
    case Str(s) => s == ""
    case Num(n) => n == 0
    case Bool(b) => !b
    case Other(s) => s == "[]" || s == "{}"
  }

  /** `str(x or "")` */
  function TextOrEmpty(f: Field): string {
    if Falsy(f) then "" else Text(f)
  }

  predicate IsHexDigit(c: char) {
    '0' <= c <= '9' || 'a' <= c <= 'f' || 'A' <= c <= 'F'
  }

  function HexDigit(c: char): (d: nat)
    requires IsHexDigit(c)
    ensures d < 16
  {
    if c <= '9' then c as int - '0' as int
    else if c <= 'F' then c as int - 'A' as int + 10
    else c as int - 'a' as int + 10
  }

  /** Digits with single underscores between them, as `int` accepts them. */
  function HexDigits(s: string): Option<int> {
    var n := |s| - 1;
    if s == "" || !IsHexDigit(s[n]) then None
    else if n == 0 then Some(HexDigit(s[0]))
    else
      match HexDigits(if s[n - 1] == '_' then s[..n - 1] else s[..n])
      case None => None
      case Some(high) => Some(16 * high + HexDigit(s[n]))
  }

  function Unprefixed(s: string): Option<int> {
    if |s| >= 2 && s[0] == '0' && (s[1] == 'x' || s[1] == 'X') then
      HexDigits(if |s| > 2 && s[2] == '_' then s[3..] else s[2..])
    else HexDigits(s)
  }

  /** `int(s, 16)`; None stands for ValueError. */
  function HexInt(s: string): Option<int> {
    var t := Strip(s);
    if t == "" then None
    else if t[0] == '-' then
      match Unprefixed(t[1..]) case Some(n) => Some(-n) case None => None
    else if t[0] == '+' then Unprefixed(t[1..])
    else Unprefixed(t)
  }

  /** `_to_int` */
  function ToInt(f: Field): Option<int> {
    match f
    case Null => None
    case Str(s) => HexInt(s)
    case Num(n) => Some(n)
    case Bool(b) => Some(if b then 1 else 0)
    case Other(_) => None
  }

  // ── hashes and addresses ──

  predicate LowerHex(s: string) {
    forall i | 0 <= i < |s| :: '0' <= s[i] <= '9' || 'a' <= s[i] <= 'f'
  }

  /** `^0x[0-9a-f]{n}$` after trimming, lowering and prefixing. */
  function NormalizeHex(s: string, n: nat): Option<string> {
    var t := Lower(Strip(s));
    var v := if "0x" <= t then t else "0x" + t;
    if |v| == n + 2 && LowerHex(v[2..]) then Some(v) else None
  }

  function NormalizeTxHash(s: string): Option<string> { NormalizeHex(s, 64) }

  function NormalizeAddress(s: string): Option<string> { NormalizeHex(s, 40) }

  function AddressFromTopic(topic: string): Option<string> {
    var t := Lower(Strip(topic));
    if |t| < 42 then None else Some("0x" + t[|t| - 40..])
  }

  // ── the decoder ──

  function DecodeLog(log: Log): Option<TokenTransfer> {
    if log.NotAnObject? || |log.topics| != 3 || Lower(Text(log.topics[0])) != TRANSFER_TOPIC then None
    else
      var sender := AddressFromTopic(Lower(Text(log.topics[1])));
      var receiver := AddressFromTopic(Lower(Text(log.topics[2])));
      var amount := ToInt(log.data);
      var contract := NormalizeAddress(TextOrEmpty(log.address));
      if sender.None? || receiver.None? || contract.None? || amount.None? then None
      else
        var index := ToInt(log.logIndex);
        Some(TokenTransfer(contract.value, sender.value, receiver.value, amount.value,
                           if index.Some? then index.value else 0))
  }

  function DecodeLogs(logs: seq<Log>): seq<TokenTransfer> {
    if logs == [] then []
    else
      var decoded := DecodeLogs(logs[..|logs| - 1]);
      match DecodeLog(logs[|logs| - 1])
      case None => decoded
      case Some(t) => decoded + [t]
  }

  function ReceiptOf(raw: RawReceipt, txHash: string): Option<TxReceipt> {
    if raw.NoReceipt? || ToInt(raw.block).None? then None
    else
      Some(TxReceipt(
        Lower(if Falsy(raw.hash) then txHash else Text(raw.hash)), ToInt(raw.status) == Some(1), ToInt(raw.block).value,
        NormalizeAddress(TextOrEmpty(raw.sender)), NormalizeAddress(TextOrEmpty(raw.receiver)), DecodeLogs(raw.logs)))
  }

  /** The loop over the logs. */
  method ReadTransfers(logs: seq<Log>) returns (transfers: seq<TokenTransfer>)
    ensures transfers == DecodeLogs(logs)
  {
    transfers := [];
    for i := 0 to |logs|
      invariant transfers == DecodeLogs(logs[..i])
    {
      assert logs[..i + 1][..i] == logs[..i];
      var t := DecodeLog(logs[i]);
      if t.Some? {
        transfers := transfers + [t.value];
      }
    }
    assert logs[..|logs|] == logs;
  }

  /** `get_receipt`, from what the node answered. */
  method GetReceipt(raw: RawReceipt, txHash: string) returns (r: Option<TxReceipt>)
    ensures r == ReceiptOf(raw, txHash)
  {
    if raw.NoReceipt? {
      return None;
    }
    var block := ToInt(raw.block);
    if block.None? {
      return None;
    }
    var transfers := ReadTransfers(raw.logs);
    return Some(TxReceipt(
      Lower(if Falsy(raw.hash) then txHash else Text(raw.hash)), ToInt(raw.status) == Some(1), block.value,
      NormalizeAddress(TextOrEmpty(raw.sender)), NormalizeAddress(TextOrEmpty(raw.receiver)), transfers));
  }

  // ── what EIP-20 emits ──

  /** A number on `width` hexadecimal digits. */
  function Hex(n: nat, width: nat): (s: string)
    ensures |s| == width && LowerHex(s)
  {
    if width == 0 then "" else Hex(n / 16, width - 1) + [HexChar(n % 16)]
  }

  function Pow16(k: nat): (p: nat)
    ensures p > 0
  {
    if k == 0 then 1 else 16 * Pow16(k - 1)
  }

  predicate IsAddress(s: string) {
    |s| == 42 && "0x" <= s && LowerHex(s[2..])
  }

  /** A transfer an ERC-20 token can emit: addresses and a uint256. */
  predicate Emittable(t: TokenTransfer) {
    IsAddress(t.contract) && IsAddress(t.sender) && IsAddress(t.receiver)
    && 0 <= t.rawAmount < Pow16(64) && 0 <= t.logIndex
  }

  /** An address as an indexed topic: 32 bytes, zeros to the left. */
  function Padded(address: string): string
    requires IsAddress(address)
  {
    "0x" + Zeros(24) + address[2..]
  }

  /** Two spellings of the same hexadecimal text; nodes may send either case. */
  predicate Spells(f: Field, s: string) {
    f.Str? && Lower(f.text) == s
  }

  /** A quantity on so many digits, in either case. */
  predicate SpellsOn(f: Field, n: nat, width: nat) {
    width > 0 && n < Pow16(width) && Spells(f, "0x" + Hex(n, width))
  }

  /** On any number of digits: nodes send quantities without leading zeros. */
  ghost predicate SpellsQuantity(f: Field, n: nat) {
    exists width :: SpellsOn(f, n, width)
  }

  /** The log of a transfer, in any case: the amount on 32 bytes, the index a quantity. */
  ghost predicate Emits(log: Log, t: TokenTransfer)
    requires Emittable(t)
  {
    && log.Log? && |log.topics| == 3
    && Spells(log.topics[0], TRANSFER_TOPIC)
    && Spells(log.topics[1], Padded(t.sender)) && Spells(log.topics[2], Padded(t.receiver))
    && Spells(log.data, "0x" + Hex(t.rawAmount, 64))
    && Spells(log.address, t.contract)
    && SpellsQuantity(log.logIndex, t.logIndex)
  }

  /** Events that are not ERC-20 transfers: another signature, or another number of
      topics, as the four of an ERC-721 transfer. */
  predicate Foreign(log: Log) {
    log.NotAnObject? || |log.topics| != 3 || Lower(Text(log.topics[0])) != TRANSFER_TOPIC
  }

  datatype Event = Erc20(transfer: TokenTransfer) | Else

  /** A receipt's logs are those of these events, one for one. */
  ghost predicate LogsOf(logs: seq<Log>, events: seq<Event>) {
    && |logs| == |events|
    && forall i | 0 <= i < |logs| ::
         match events[i]
         case Erc20(t) => Emittable(t) && Emits(logs[i], t)
         case Else => Foreign(logs[i])
  }

  function Transfers(events: seq<Event>): seq<TokenTransfer> {
    if events == [] then []
    else
      var before := Transfers(events[..|events| - 1]);
      match events[|events| - 1]
      case Erc20(t) => before + [t]
      case Else => before
  }

  // ── lemmas ──

  lemma LowerHexNoSpace(s: string)
    requires |s| > 2 && Lower(s)[..2] == "0x" && LowerHex(Lower(s)[2..])
    ensures Strip(s) == s
  {
    var l := Lower(s);
    assert l[0] == '0' && l[2..][|s| - 3] == l[|s| - 1];
    assert !IsSpace(s[0]) && !IsSpace(s[|s| - 1]);
  }

  lemma LowerTwice(s: string)
    ensures Lower(Lower(s)) == Lower(s)
  {
  }

  lemma EitherCaseReads(c: char, d: nat)
    requires d < 16 && LowerChar(c) == HexChar(d)
    ensures IsHexDigit(c) && c != '_' && HexDigit(c) == d
  {
  }

  lemma HexEnds(n: nat, width: nat)
    requires width > 0
    ensures Hex(n, width)[..width - 1] == Hex(n / 16, width - 1) && Hex(n, width)[width - 1] == HexChar(n % 16)
  {
  }

  /** One digit more. */
  lemma HexDigitsStep(s: string, k: nat, high: nat)
    requires 0 < k == |s| - 1 && IsHexDigit(s[k]) && s[k - 1] != '_' && HexDigits(s[..k]) == Some(high)
    ensures HexDigits(s) == Some(16 * high + HexDigit(s[k]))
  {
  }

  lemma HexFits(n: nat, width: nat)
    requires width > 1 && n < Pow16(width)
    ensures n / 16 < Pow16(width - 1)
  {
    assert Pow16(width) == 16 * Pow16(width - 1);
  }

  lemma OneHexDigit(s: string, d: nat)
    requires |s| == 1 && d < 16 && LowerChar(s[0]) == HexChar(d)
    ensures HexDigits(s) == Some(d)
  {
  }

  /** Two spellings of the same digits. */
  predicate SameDigits(s: string, h: string) {
    |s| == |h| && forall i | 0 <= i < |s| :: LowerChar(s[i]) == h[i]
  }

  lemma SameFront(s: string, h: string, k: nat)
    requires SameDigits(s, h) && k <= |s|
    ensures SameDigits(s[..k], h[..k])
  {
  }

  lemma {:induction false} OneDigitMore(s: string, n: nat, k: nat)
    requires 0 < k == |s| - 1 && LowerChar(s[k]) == HexChar(n % 16)
    requires HexDigits(s[..k]) == Some(n / 16) && s[..k][k - 1] != '_'
    ensures HexDigits(s) == Some(n)
  {
    EitherCaseReads(s[k], n % 16);
    HexDigitsStep(s, k, n / 16);
  }

  /** All digits but the last, and the last. */
  lemma DigitsApart(s: string, n: nat, width: nat)
    requires width > 1 && n < Pow16(width) && SameDigits(s, Hex(n, width))
    ensures |s| == width && LowerChar(s[width - 1]) == HexChar(n % 16)
    ensures n / 16 < Pow16(width - 1) && SameDigits(s[..width - 1], Hex(n / 16, width - 1))
  {
    HexEnds(n, width);
    SameFront(s, Hex(n, width), width - 1);
    HexFits(n, width);
  }

  lemma SingleDigit(s: string, n: nat)
    requires n < Pow16(1) && SameDigits(s, Hex(n, 1))
    ensures HexDigits(s) == Some(n) && s[0] != '_'
  {
    assert n < 16 by { assert Pow16(1) == 16 * Pow16(0); }
    HexEnds(n, 1);
    EitherCaseReads(s[0], n);
    OneHexDigit(s, n);
  }

  /** Digits in either case read the same. */
  lemma {:induction false} HexDigitsInEitherCase(s: string, n: nat, width: nat)
    requires width > 0 && n < Pow16(width) && SameDigits(s, Hex(n, width))
    ensures HexDigits(s) == Some(n) && s[width - 1] != '_'
  {
    var k := width - 1;
    if k == 0 {
      SingleDigit(s, n);
    } else {
      DigitsApart(s, n, width);
      EitherCaseReads(s[k], n % 16);
      HexDigitsInEitherCase(s[..k], n / 16, k);
      OneDigitMore(s, n, k);
    }
  }

  /** A number on any width reads back as itself. */
  lemma HexReadsBack(s: string, n: nat, width: nat)
    requires width > 0 && n < Pow16(width) && Lower(s) == "0x" + Hex(n, width)
    ensures HexInt(s) == Some(n)
  {
    var digits := Hex(n, width);
    assert Lower(s)[2..] == digits && Lower(s)[..2] == "0x";
    LowerHexNoSpace(s);
    assert SameDigits(s[2..], digits);
    HexDigitsInEitherCase(s[2..], n, width);
    PrefixSkipped(s, digits);
  }

  lemma PrefixSkipped(s: string, digits: string)
    requires |digits| > 0 && LowerHex(digits) && Lower(s) == "0x" + digits
    ensures s[0] == '0' && Unprefixed(s) == HexDigits(s[2..])
  {
    var l := "0x" + digits;
    assert LowerChar(s[0]) == l[0] && LowerChar(s[1]) == l[1] && LowerChar(s[2]) == l[2] == digits[0];
  }

  /** A uint256 on the wire reads back as itself. */
  lemma WordReadsBack(f: Field, n: nat)
    requires n < Pow16(64) && Spells(f, "0x" + Hex(n, 64))
    ensures ToInt(f) == Some(n)
  {
    HexReadsBack(f.text, n, 64);
  }

  /** A quantity reads back as itself, however many digits it comes with. */
  lemma QuantityReadsBack(f: Field, n: nat)
    requires SpellsQuantity(f, n)
    ensures ToInt(f) == Some(n)
  {
    var width :| SpellsOn(f, n, width);
    HexReadsBack(f.text, n, width);
  }

  lemma TopicReadsBack(f: Field, address: string)
    requires IsAddress(address) && Spells(f, Padded(address))
    ensures AddressFromTopic(Lower(Text(f))) == Some(address)
  {
    var t := Lower(f.text);
    assert t == Padded(address) && |t| == 66;
    forall i | 0 <= i < |t[2..]| ensures '0' <= t[2..][i] <= '9' || 'a' <= t[2..][i] <= 'f' {
      if i < 24 { assert t[2..][i] == '0'; } else { assert t[2..][i] == address[2..][i - 24]; }
    }
    LowerTwice(f.text);
    LowerHexNoSpace(t);
    assert t[26..] == address[2..];
    assert "0x" + address[2..] == address;
  }

  lemma AddressReadsBack(f: Field, address: string)
    requires IsAddress(address) && Spells(f, address)
    ensures NormalizeAddress(TextOrEmpty(f)) == Some(address)
  {
    var s := f.text;
    assert Lower(s)[2..] == address[2..] && Lower(s)[..2] == "0x";
    LowerHexNoSpace(s);
  }

  /** One event: a transfer decodes to itself, anything else to nothing. */
  lemma TransferReadsBack(log: Log, t: TokenTransfer)
    requires Emittable(t) && Emits(log, t)
    ensures DecodeLog(log) == Some(t)
  {
    TopicReadsBack(log.topics[1], t.sender);
    TopicReadsBack(log.topics[2], t.receiver);
    WordReadsBack(log.data, t.rawAmount);
    QuantityReadsBack(log.logIndex, t.logIndex);
    AddressReadsBack(log.address, t.contract);
  }

  /** The logs of any events decode to exactly the transfers among them, in order. */
  lemma {:induction false} DecodingRoundTrip(logs: seq<Log>, events: seq<Event>)
    requires LogsOf(logs, events)
    ensures DecodeLogs(logs) == Transfers(events)
  {
    if logs != [] {
      var n := |logs| - 1;
      assert LogsOf(logs[..n], events[..n]);
      DecodingRoundTrip(logs[..n], events[..n]);
      match events[n]
      case Erc20(t) => TransferReadsBack(logs[n], t);
      case Else => assert Foreign(logs[n]);
    }
  }

  // ── receipts read back ──

  lemma StatusReads(raw: RawReceipt, txHash: string, status: nat)
    requires ReceiptOf(raw, txHash).Some? && SpellsQuantity(raw.status, status)
    ensures ReceiptOf(raw, txHash).value.success <==> status == 1
  {
    QuantityReadsBack(raw.status, status);
  }

  lemma PartiesRead(raw: RawReceipt, txHash: string, sender: string, receiver: string)
    requires ReceiptOf(raw, txHash).Some?
    ensures IsAddress(sender) && Spells(raw.sender, sender) ==> ReceiptOf(raw, txHash).value.sender == Some(sender)
    ensures IsAddress(receiver) && Spells(raw.receiver, receiver) ==>
      ReceiptOf(raw, txHash).value.receiver == Some(receiver)
  {
    if IsAddress(sender) && Spells(raw.sender, sender) {
      AddressReadsBack(raw.sender, sender);
    }
    if IsAddress(receiver) && Spells(raw.receiver, receiver) {
      AddressReadsBack(raw.receiver, receiver);
    }
  }

  /** A mined receipt reads back as what the node wrote: its block, a success if and only
      if its status is 1, its hash, its parties, and the ERC-20 transfers of its logs. */
  lemma ReceiptReadsBack(raw: RawReceipt, txHash: string, block: nat, status: nat, hash: string, sender: string,
        receiver: string, events: seq<Event>)
    requires raw.RawReceipt? && SpellsQuantity(raw.block, block) && SpellsQuantity(raw.status, status)
    requires LogsOf(raw.logs, events)
    ensures var r := ReceiptOf(raw, txHash);
      && r.Some? && r.value.block == block && (r.value.success <==> status == 1)
      && r.value.transfers == Transfers(events)
      && (hash != "" && Spells(raw.hash, hash) ==> r.value.hash == hash)
      && (IsAddress(sender) && Spells(raw.sender, sender) ==> r.value.sender == Some(sender))
      && (IsAddress(receiver) && Spells(raw.receiver, receiver) ==> r.value.receiver == Some(receiver))
  {
    QuantityReadsBack(raw.block, block);
    StatusReads(raw, txHash, status);
    PartiesRead(raw, txHash, sender, receiver);
    DecodingRoundTrip(raw.logs, events);
  }

  /** A transaction the node does not know or has not mined has none, and one without a
      status did not succeed. */
  lemma MissingFields(raw: RawReceipt, txHash: string)
    ensures raw.NoReceipt? || raw.block.Null? ==> ReceiptOf(raw, txHash).None?
    ensures raw.RawReceipt? && raw.status.Null? && ReceiptOf(raw, txHash).Some? ==>
      !ReceiptOf(raw, txHash).value.success
  {
  }

  /** A hash or an address is accepted with spaces around it, in either case, and with its
      prefix or without; what comes out is its lower-case text. */
  lemma NormalizeHexIff(s: string, n: nat, v: string)
    ensures NormalizeHex(s, n) == Some(v) <==>
      && |v| == n + 2 && v[..2] == "0x" && LowerHex(v[2..])
      && (Lower(Strip(s)) == v || "0x" + Lower(Strip(s)) == v)
  {
    var t := Lower(Strip(s));
    if |v| == n + 2 && v[..2] == "0x" && LowerHex(v[2..]) && "0x" + t == v {
      assert v[2..] == t;
      assert |t| >= 2 ==> t[1] != 'x';
    }
  }

  // ── every emittable transfer has a log ──

  /** The digits of a quantity without leading zeros. */
  function Width(n: nat): (w: nat)
    ensures w > 0
  {
    if n < 16 then 1 else 1 + Width(n / 16)
  }

  lemma {:induction false} WidthIsMinimal(n: nat)
    ensures n < Pow16(Width(n)) && (n > 0 ==> Pow16(Width(n) - 1) <= n)
  {
    if n < 16 {
      assert Pow16(1) == 16 * Pow16(0);
    } else {
      WidthIsMinimal(n / 16);
      assert Pow16(Width(n)) == 16 * Pow16(Width(n) - 1) && Pow16(Width(n / 16)) == 16 * Pow16(Width(n / 16) - 1);
    }
  }

  function Quantity(n: nat): string {
    "0x" + Hex(n, Width(n))
  }

  function Encode(t: TokenTransfer): Log
    requires Emittable(t)
  {
    Log([Str(TRANSFER_TOPIC), Str(Padded(t.sender)), Str(Padded(t.receiver))],
        Str("0x" + Hex(t.rawAmount, 64)), Str(t.contract), Str(Quantity(t.logIndex)))
  }

  lemma LowerOfHex(s: string)
    requires |s| >= 2 && s[..2] == "0x" && LowerHex(s[2..])
    ensures Lower(s) == s
  {
    forall i | 0 <= i < |s| ensures LowerChar(s[i]) == s[i] {
      if i < 2 { assert s[i] == s[..2][i]; } else { assert s[i] == s[2..][i - 2]; }
    }
  }

  lemma LowerOfDigits(n: nat, width: nat)
    ensures Lower("0x" + Hex(n, width)) == "0x" + Hex(n, width)
  {
    var w := "0x" + Hex(n, width);
    assert w[..2] == "0x" && w[2..] == Hex(n, width);
    LowerOfHex(w);
  }

  lemma LowerOfConcat(a: string, b: string)
    requires Lower(a) == a && Lower(b) == b
    ensures Lower(a + b) == a + b
  {
  }

  lemma LowerOfEight(s: string)
    requires |s| == 8 && forall c | c in s :: LowerChar(c) == c
    ensures Lower(s) == s
  {
  }

  lemma TopicIsLower()
    ensures Lower(TRANSFER_TOPIC) == TRANSFER_TOPIC
  {
    var words := ["ddf252ad", "1be2c89b", "69c2b068", "fc378daa", "952ba7f1", "63c4a116", "28f55a4d", "f523b3ef"];
    forall i | 0 <= i < 8 ensures Lower(words[i]) == words[i] {
      LowerOfEight(words[i]);
    }
    LowerOfConcat("0x", words[0]);
    LowerOfConcat("0x" + words[0], words[1]);
    LowerOfConcat("0x" + words[0] + words[1], words[2]);
    LowerOfConcat("0x" + words[0] + words[1] + words[2], words[3]);
    LowerOfConcat("0x" + words[0] + words[1] + words[2] + words[3], words[4]);
    LowerOfConcat("0x" + words[0] + words[1] + words[2] + words[3] + words[4], words[5]);
    LowerOfConcat("0x" + words[0] + words[1] + words[2] + words[3] + words[4] + words[5], words[6]);
    LowerOfConcat("0x" + words[0] + words[1] + words[2] + words[3] + words[4] + words[5] + words[6], words[7]);
  }

  lemma EncodeEmits(t: TokenTransfer)
    requires Emittable(t)
    ensures Emits(Encode(t), t)
    ensures DecodeLog(Encode(t)) == Some(t)
  {
    TopicIsLower();
    forall address | address in [t.sender, t.receiver] ensures Lower(Padded(address)) == Padded(address) {
      var p := Padded(address);
      assert p[..2] == "0x" && p[2..] == Zeros(24) + address[2..];
      LowerOfHex(p);
    }
    LowerOfDigits(t.rawAmount, 64);
    LowerOfDigits(t.logIndex, Width(t.logIndex));
    WidthIsMinimal(t.logIndex);
    assert SpellsOn(Str(Quantity(t.logIndex)), t.logIndex, Width(t.logIndex));
    LowerOfHex(t.contract);
    TransferReadsBack(Encode(t), t);
  }
}
