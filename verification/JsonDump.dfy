/** Printing a payload as JSON with decimals as exact numbers: each decimal is printed
    as a string between two marks, and the marks and quotes are then cut out. */
module JsonDump {
  import opened Common

  // ── values ──

  datatype Decimal =
    | Finite(negative: bool, coefficient: nat, exponent: int)
    | NonFinite(negative: bool, name: string)

  datatype Json =
    | Null
    | Bool(b: bool)
    | Int(n: int)
    | Text(s: string)
    | Dec(d: Decimal)
    | Array(items: seq<Json>)
    | Object(fields: seq<(string, Json)>)

  /** Infinity, NaN, sNaN and their payloads: a letter, then no mark and no quote. */
  predicate IsName(name: string) {
    name != "" && ('A' <= name[0] <= 'Z' || 'a' <= name[0] <= 'z')
    && forall i | 0 <= i < |name| :: IsDigit(name[i]) || 'A' <= name[i] <= 'Z' || 'a' <= name[i] <= 'z'
  }

  // ── `format(d, 'f')` ──

  function Sign(negative: bool): string {
    if negative then "-" else ""
  }

  /** The digits of a number, with enough zeros to the left. */
  function Padded(n: nat, width: nat): (s: string)
    ensures |s| >= width && |s| > 0 && AllDigits(s)
  {
    var d := Digits(n);
    if |d| >= width then d else Zeros(width - |d|) + d
  }

  function FixedDigits(coefficient: nat, exponent: int): string {
    if exponent >= 0 then
      if coefficient == 0 then "0" else Digits(coefficient) + Zeros(exponent)
    else
      var d := Padded(coefficient, 1 - exponent);
      d[..|d| + exponent] + "." + d[|d| + exponent..]
  }

  function Fixed(d: Decimal): string {
    match d
    case Finite(negative, coefficient, exponent) => Sign(negative) + FixedDigits(coefficient, exponent)
    case NonFinite(negative, name) => Sign(negative) + name
  }

  // ── the ordinary printer ──

  predicate IsPlain(c: char) {
    ' ' <= c <= '~' && c != '"' && c != '\\'
  }

  function Hex4(n: nat): (s: string)
    requires n < 0x10000
    ensures |s| == 4 && forall i | 0 <= i < 4 :: s[i] != '@'
  {
    [HexChar(n / 16 / 16 / 16), HexChar(n / 16 / 16 % 16), HexChar(n / 16 % 16), HexChar(n % 16)]
  }

  function Unit(n: nat): (s: string)
    requires n < 0x10000
    ensures |s| == 6 && s[0] == '\\' && forall i | 0 <= i < 6 :: s[i] != '@'
  {
    ['\\', 'u'] + Hex4(n)
  }

  /** A character beyond four digits, as a pair of units. */
  function Pair(m: nat): (s: string)
    requires m < 0x100000
    ensures |s| == 12 && s[0] == '\\' && forall i | 0 <= i < 12 :: s[i] != '@'
  {
    Unit(0xd800 + m / 1024 % 1024) + Unit(0xdc00 + m % 1024)
  }

  function EscapeChar(c: char): (s: string)
    ensures |s| > 0
    ensures IsPlain(c) ==> s == [c]
    ensures !IsPlain(c) ==> s[0] == '\\' && forall i | 0 <= i < |s| :: s[i] != '@'
  {
    if IsPlain(c) then [c]
    else if c == '"' then ['\\', '"']
    else if c == '\\' then ['\\', '\\']
    else if c == '\n' then ['\\', 'n']
    else if c == '\r' then ['\\', 'r']
    else if c == '\t' then ['\\', 't']
    else if c == '\U{c}' then ['\\', 'f']
    else if c == '\U{8}' then ['\\', 'b']
    else
      var n := c as int;
      if n < 0x10000 then Unit(n) else Pair(n - 0x10000)
  }

  function Escape(s: string): string {
    if s == "" then "" else EscapeChar(s[0]) + Escape(s[1..])
  }

  function Quote(s: string): string {
    ['"'] + Escape(s) + ['"']
  }

  function Comma(k: nat): string {
    if k == 0 then "" else ", "
  }

  /** `json.dumps`, given how a decimal is printed. */
  function Print(j: Json, p: Decimal -> string): string
    decreases j, 1, 0
  {
    match j
    case Null => "null"
    case Bool(b) => if b then "true" else "false"
    case Int(n) => IntStr(n)
    case Text(s) => Quote(s)
    case Dec(d) => p(d)
    case Array(items) => "[" + PrintItems(j, 0, p)
    case Object(fields) => "{" + PrintFields(j, 0, p)
  }

  function PrintItems(j: Json, k: nat, p: Decimal -> string): string
    requires j.Array? && k <= |j.items|
    decreases j, 0, |j.items| - k
  {
    if k == |j.items| then "]" else Comma(k) + Print(j.items[k], p) + PrintItems(j, k + 1, p)
  }

  function PrintFields(j: Json, k: nat, p: Decimal -> string): string
    requires j.Object? && k <= |j.fields|
    decreases j, 0, |j.fields| - k
  {
    if k == |j.fields| then "}"
    else Comma(k) + Quote(j.fields[k].0) + ": " + Print(j.fields[k].1, p) + PrintFields(j, k + 1, p)
  }

  // ── the marks ──

  /** `@dec-`, thirty-two hexadecimal digits, `@`. */
  predicate IsMark(mark: string) {
    && |mark| == 38 && mark[..5] == "@dec-" && mark[37] == '@'
    && forall i | 5 <= i < 37 :: '0' <= mark[i] <= '9' || 'a' <= mark[i] <= 'f'
  }

  function Wrapped(mark: string): Decimal -> string {
    (d: Decimal) => Quote(mark + Fixed(d) + mark)
  }

  predicate StartsWith(s: string, p: string) {
    |p| <= |s| && s[..|p|] == p
  }

  predicate Contains(s: string, p: string) {
    exists i | 0 <= i <= |s| :: StartsWith(s[i..], p)
  }

  predicate IsNumberChar(c: char) {
    IsDigit(c) || c == '-' || c == '.'
  }

  /** The longest run of such characters at the front. */
  function Run(s: string): (r: string)
    ensures |r| <= |s| && r == s[..|r|]
  {
    if s == "" || !IsNumberChar(s[0]) then "" else [s[0]] + Run(s[1..])
  }

  /** `\d+(?:\.\d+)?` */
  predicate IsUnsigned(s: string) {
    || (s != "" && AllDigits(s))
    || exists k | 0 < k < |s| - 1 :: s[k] == '.' && AllDigits(s[..k]) && AllDigits(s[k + 1..])
  }

  /** `-?\d+(?:\.\d+)?` */
  predicate IsNumber(s: string) {
    if s != "" && s[0] == '-' then IsUnsigned(s[1..]) else IsUnsigned(s)
  }

  /** The number the pattern captures when it matches at the front. The mark is no
      number, so the run before it is all there is to capture. */
  function Captured(s: string, mark: string): Option<string> {
    var open := ['"'] + mark;
    if !StartsWith(s, open) then None
    else
      var number := Run(s[|open|..]);
      if IsNumber(number) && StartsWith(s[|open| + |number|..], mark + ['"']) then Some(number) else None
  }

  /** The substitution, leftmost match first. */
  function Unwrap(s: string, mark: string): string
    decreases |s|
  {
    if s == "" then ""
    else
      match Captured(s, mark)
      case None => [s[0]] + Unwrap(s[1..], mark)
      case Some(number) => number + Unwrap(s[2 * |mark| + |number| + 2..], mark)
  }

  datatype Error = ProviderPayloadError

  /** `_dumps` */
  function Dumps(j: Json, mark: string): Result<string, Error> {
    var out := Unwrap(Print(j, Wrapped(mark)), mark);
    if Contains(out, mark) then Err(ProviderPayloadError) else Ok(out)
  }
}

/** The printer raises on a decimal that is not finite, and otherwise prints what the
    ordinary printer would if it knew decimals. */
module JsonDumpTheorems {
  import opened Common
  import opened JsonDump

  type Mark = m: string | IsMark(m) witness SomeMark()

  function SomeMark(): (m: string)
    ensures IsMark(m)
  {
    "@dec-" + Zeros(32) + "@"
  }

  // ── the payloads it is for ──

  /** No string of the payload contains the mark. */
  ghost predicate Clean(j: Json, mark: string) {
    match j
    case Text(s) => !Contains(s, mark)
    case Dec(d) => d.NonFinite? ==> IsName(d.name)
    case Array(items) => forall i | 0 <= i < |items| :: Clean(items[i], mark)
    case Object(fields) => forall i | 0 <= i < |fields| :: !Contains(fields[i].0, mark) && Clean(fields[i].1, mark)
    case _ => true
  }

  ghost predicate HasNonFinite(j: Json) {
    match j
    case Dec(d) => d.NonFinite?
    case Array(items) => exists i | 0 <= i < |items| :: HasNonFinite(items[i])
    case Object(fields) => exists i | 0 <= i < |fields| :: HasNonFinite(fields[i].1)
    case _ => false
  }

  /** What the substitution makes of a decimal. */
  function Unwrapped(mark: string): Decimal -> string {
    (d: Decimal) => if d.Finite? then Fixed(d) else Wrapped(mark)(d)
  }

  // ── decimals are exact ──

  lemma TenTimes(a: nat, b: nat)
    ensures a * (10 * b) == 10 * (a * b)
  {
  }

  lemma {:induction false} LastDigit(s: string)
    requires s != "" && AllDigits(s)
    ensures AllDigits(s[..|s| - 1])
    ensures DigitsValue(s) == 10 * DigitsValue(s[..|s| - 1]) + DigitsValue([s[|s| - 1]])
  {
  }

  lemma ShiftSum(a: nat, p: nat, q: nat, low: nat, digit: nat, total: nat)
    requires q == 10 * p && total == 10 * (a * p + low) + digit
    ensures total == a * q + (10 * low + digit)
  {
    TenTimes(a, p);
  }

  lemma {:induction false} ValueOfConcat(s: string, t: string)
    requires AllDigits(s) && AllDigits(t)
    ensures AllDigits(s + t)
    ensures DigitsValue(s + t) == DigitsValue(s) * Pow10(|t|) + DigitsValue(t)
  {
    if t == "" {
      assert s + t == s;
    } else {
      var n := |t| - 1;
      ValueOfConcat(s, t[..n]);
      LastDigit(t);
      LastDigit(s + t);
      assert (s + t)[..|s + t| - 1] == s + t[..n];
      ShiftSum(DigitsValue(s), Pow10(n), Pow10(|t|), DigitsValue(t[..n]), DigitsValue([t[n]]), DigitsValue(s + t));
    }
  }

  lemma {:induction false} ValueOfZeros(n: nat)
    ensures DigitsValue(Zeros(n)) == 0
  {
    if n > 0 {
      assert Zeros(n)[..n - 1] == Zeros(n - 1);
      ValueOfZeros(n - 1);
    }
  }

  lemma PaddedValue(n: nat, width: nat)
    ensures DigitsValue(Padded(n, width)) == n
  {
    DigitsRoundTrip(n);
    if |Digits(n)| < width {
      ValueOfZeros(width - |Digits(n)|);
      ValueOfConcat(Zeros(width - |Digits(n)|), Digits(n));
    }
  }

  /** The printed text is the number: its sign, and its coefficient with the point at
      the exponent, no digit lost and no exponent written. */
  lemma FixedIsExact(negative: bool, coefficient: nat, exponent: int) returns (whole: string, fraction: string)
    ensures AllDigits(whole) && AllDigits(fraction) && whole != ""
    ensures Fixed(Finite(negative, coefficient, exponent))
         == Sign(negative) + whole + (if exponent < 0 then "." + fraction else "")
    ensures |fraction| == (if exponent < 0 then -exponent else 0)
    ensures DigitsValue(whole + fraction) == coefficient * Pow10(if exponent > 0 then exponent else 0)
  {
    if exponent >= 0 {
      whole, fraction := FixedDigits(coefficient, exponent), "";
      WholeIsExact(coefficient, exponent);
      assert whole + fraction == whole;
    } else {
      whole, fraction := PointIsExact(coefficient, exponent);
      assert Pow10(0) == 1;
    }
  }

  lemma WholeIsExact(coefficient: nat, exponent: nat)
    ensures var whole := FixedDigits(coefficient, exponent);
      AllDigits(whole) && whole != "" && DigitsValue(whole) == coefficient * Pow10(exponent)
  {
    if coefficient != 0 {
      DigitsRoundTrip(coefficient);
      ValueOfZeros(exponent);
      ValueOfConcat(Digits(coefficient), Zeros(exponent));
    } else {
      assert DigitsValue("0") == 0;
    }
  }

  lemma PointIsExact(coefficient: nat, exponent: int) returns (whole: string, fraction: string)
    requires exponent < 0
    ensures AllDigits(whole) && AllDigits(fraction) && whole != "" && |fraction| == -exponent
    ensures FixedDigits(coefficient, exponent) == whole + "." + fraction
    ensures DigitsValue(whole + fraction) == coefficient
  {
    var d := Padded(coefficient, 1 - exponent);
    whole, fraction := SplitDigits(d, |d| + exponent);
    PaddedValue(coefficient, 1 - exponent);
  }

  lemma SplitDigits(d: string, k: nat) returns (front: string, back: string)
    requires AllDigits(d) && 0 < k <= |d|
    ensures front == d[..k] && back == d[k..] && front + back == d
    ensures AllDigits(front) && AllDigits(back) && front != "" && |back| == |d| - k
  {
    front, back := d[..k], d[k..];
  }

  lemma PointIsNumber(whole: string, fraction: string)
    requires AllDigits(whole) && AllDigits(fraction) && whole != "" && fraction != ""
    ensures var u := whole + "." + fraction;
      IsUnsigned(u) && IsDigit(u[0]) && forall i | 0 <= i < |u| :: IsNumberChar(u[i])
  {
    var u, k := whole + "." + fraction, |whole|;
    assert u[..k] == whole && u[k] == '.' && u[k + 1..] == fraction;
  }

  lemma WholeIsNumber(u: string)
    requires AllDigits(u) && u != ""
    ensures IsUnsigned(u) && IsDigit(u[0]) && forall i | 0 <= i < |u| :: IsNumberChar(u[i])
  {
  }

  /** The printed digits are a number as the pattern reads one. */
  lemma FixedDigitsIsNumber(coefficient: nat, exponent: int)
    ensures var u := FixedDigits(coefficient, exponent);
      IsUnsigned(u) && IsDigit(u[0]) && forall i | 0 <= i < |u| :: IsNumberChar(u[i])
  {
    if exponent < 0 {
      var whole, fraction := PointIsExact(coefficient, exponent);
      PointIsNumber(whole, fraction);
    } else {
      WholeIsExact(coefficient, exponent);
      WholeIsNumber(FixedDigits(coefficient, exponent));
    }
  }

  lemma FixedIsNumber(d: Decimal)
    requires d.Finite?
    ensures IsNumber(Fixed(d)) && forall i | 0 <= i < |Fixed(d)| :: IsNumberChar(Fixed(d)[i])
  {
    FixedDigitsIsNumber(d.coefficient, d.exponent);
    var u := FixedDigits(d.coefficient, d.exponent);
    if d.negative {
      assert Fixed(d)[1..] == u;
    } else {
      assert Fixed(d) == u;
    }
  }

  lemma FixedIsPlain(d: Decimal)
    requires d.NonFinite? ==> IsName(d.name)
    ensures forall i | 0 <= i < |Fixed(d)| :: IsPlain(Fixed(d)[i])
  {
    if d.Finite? {
      FixedIsNumber(d);
    } else {
      var sign := Sign(d.negative);
      forall i | 0 <= i < |Fixed(d)| ensures IsPlain(Fixed(d)[i]) {
        if i >= |sign| { assert Fixed(d)[i] == d.name[i - |sign|]; }
      }
    }
  }

  // ── escaping ──

  lemma {:induction false} EscapePlain(s: string)
    requires forall i | 0 <= i < |s| :: IsPlain(s[i])
    ensures Escape(s) == s
  {
    if s != "" {
      EscapePlain(s[1..]);
    }
  }

  lemma MarkIsPlain(mark: Mark)
    ensures forall i | 0 <= i < |mark| :: IsPlain(mark[i])
    ensures mark[0] == '@'
    ensures forall i | 0 < i < 37 :: mark[i] != '@'
  {
    forall i | 0 <= i < |mark| ensures IsPlain(mark[i]) && (0 < i < 37 ==> mark[i] != '@') {
      if i < 5 { assert mark[i] == mark[..5][i]; }
    }
    assert mark[0] == mark[..5][0];
  }

  /** A plain text at the front of an escaped one is at the front of the original. */
  lemma {:induction false} PlainPrefix(s: string, m: string)
    requires (forall i | 0 <= i < |m| :: IsPlain(m[i])) && StartsWith(Escape(s), m)
    ensures StartsWith(s, m)
  {
    if m != "" {
      var e, rest := EscapeChar(s[0]), Escape(s[1..]);
      assert Escape(s)[..|m|][0] == m[0];
      assert m[0] == (e + rest)[0] == e[0];
      assert e == [s[0]];
      assert Escape(s)[1..] == rest;
      assert rest[..|m| - 1] == Escape(s)[..|m|][1..] == m[1..];
      PlainPrefix(s[1..], m[1..]);
      assert s[..|m|] == [s[0]] + s[1..][..|m| - 1];
    }
  }

  /** A mark that starts in the escape of a character starts with the character. */
  lemma MarkAtFirst(s: string, mark: Mark, i: nat)
    requires s != "" && i < |EscapeChar(s[0])| && StartsWith(Escape(s)[i..], mark)
    ensures StartsWith(s, mark)
  {
    var e, rest, at := EscapeChar(s[0]), Escape(s[1..]), Escape(s)[i..];
    MarkIsPlain(mark);
    assert at[..|mark|] == mark && at[0] == at[..|mark|][0];
    assert at[0] == (e + rest)[i] == e[i];
    assert Escape(s)[0..] == Escape(s);
    PlainPrefix(s, mark);
  }

  lemma TailOfConcat(a: string, b: string, i: nat)
    requires |a| <= i <= |a + b|
    ensures (a + b)[i..] == b[i - |a|..]
  {
  }

  /** Escaping does not create the mark. */
  lemma {:induction false} EscapedMark(s: string, mark: Mark)
    requires Contains(Escape(s), mark)
    ensures Contains(s, mark)
  {
    var i :| 0 <= i <= |Escape(s)| && StartsWith(Escape(s)[i..], mark);
    if s != "" {
      var e, rest := EscapeChar(s[0]), Escape(s[1..]);
      if i < |e| {
        MarkAtFirst(s, mark, i);
        assert s[0..] == s;
      } else {
        TailOfConcat(e, rest, i);
        EscapedMark(s[1..], mark);
        SuffixMark(s, mark, 1);
      }
    }
  }

  lemma SuffixMark(s: string, mark: string, i: nat)
    requires i <= |s|
    ensures Contains(s[i..], mark) ==> Contains(s, mark)
  {
    if k :| 0 <= k <= |s[i..]| && StartsWith(s[i..][k..], mark) {
      assert s[i..][k..] == s[i + k..];
    }
  }

  // ── what is escaped reads back ──

  function HexValue(c: char): Option<nat> {
    if '0' <= c <= '9' then Some(c as nat - '0' as nat)
    else if 'a' <= c <= 'f' then Some(c as nat - 'a' as nat + 10)
    else None
  }

  /** Four hexadecimal digits at the front. */
  function Hex4Value(s: string): Option<nat>
  {
    if |s| < 4 then None
    else
      var a, b, c, d := HexValue(s[0]), HexValue(s[1]), HexValue(s[2]), HexValue(s[3]);
      if a.None? || b.None? || c.None? || d.None? then None
      else Some(((a.value * 16 + b.value) * 16 + c.value) * 16 + d.value)
  }

  /** The character an escape sequence stands for, and its length: the reader's side of
      section 7 of RFC 8259. */
  function ReadEscape(s: string): Option<(char, nat)>
    ensures ReadEscape(s).Some? ==> 0 < ReadEscape(s).value.1 <= |s|
  {
    if |s| < 2 || s[0] != '\\' then None
    else if s[1] == '"' || s[1] == '\\' then Some((s[1], 2))
    else if s[1] == 'n' then Some(('\n', 2))
    else if s[1] == 'r' then Some(('\r', 2))
    else if s[1] == 't' then Some(('\t', 2))
    else if s[1] == 'f' then Some(('\U{c}', 2))
    else if s[1] == 'b' then Some(('\U{8}', 2))
    else if s[1] != 'u' then None
    else
      match Hex4Value(s[2..])
      case None => None
      case Some(n) =>
        if n < 0xd800 || 0xe000 <= n < 0x10000 then Some((n as char, 6))
        else if n < 0xdc00 && |s| >= 12 && s[6] == '\\' && s[7] == 'u' then
          match Hex4Value(s[8..])
          case Some(low) =>
            if 0xdc00 <= low < 0xe000 then
              Some(((0x10000 + (n - 0xd800) * 1024 + (low - 0xdc00)) as char, 12))
            else None
          case None => None
        else None
  }

  function Unescape(s: string): Option<string>
    decreases |s|
  {
    if s == "" then Some("")
    else if s[0] != '\\' then
      match Unescape(s[1..]) case Some(t) => Some([s[0]] + t) case None => None
    else
      match ReadEscape(s)
      case None => None
      case Some(r) => match Unescape(s[r.1..]) case Some(t) => Some([r.0] + t) case None => None
  }

  lemma Hex4ReadsBack(n: nat, rest: string)
    requires n < 0x10000
    ensures Hex4Value(Hex4(n) + rest) == Some(n)
  {
    var s := Hex4(n) + rest;
    assert s[0] == Hex4(n)[0] && s[1] == Hex4(n)[1] && s[2] == Hex4(n)[2] && s[3] == Hex4(n)[3];
    DigitReadsBack(n / 16 / 16 / 16);
    DigitReadsBack(n / 16 / 16 % 16);
    DigitReadsBack(n / 16 % 16);
    DigitReadsBack(n % 16);
  }

  lemma DigitReadsBack(d: nat)
    requires d < 16
    ensures HexValue(HexChar(d)) == Some(d)
  {
  }

  /** Characters printed by their code. */
  predicate IsCoded(c: char) {
    !IsPlain(c) && c !in ['"', '\\', '\n', '\r', '\t', '\U{c}', '\U{8}']
  }

  /** Up to four digits, one escape. */
  lemma UnitReadsBack(c: char, rest: string)
    requires IsCoded(c) && (c as int) < 0x10000
    ensures ReadEscape(EscapeChar(c) + rest) == Some((c, 6))
  {
    var n := c as int;
    var s := EscapeChar(c) + rest;
    assert EscapeChar(c) == ['\\', 'u'] + Hex4(n);
    assert s[0] == '\\' && s[1] == 'u' && s[2..] == Hex4(n) + rest;
    Hex4ReadsBack(n, rest);
  }

  /** The two halves of a character beyond. */
  lemma PairHalves(m: nat) returns (high: nat, low: nat)
    requires m < 0x100000
    ensures high == m / 1024 % 1024 && low == m % 1024 && high < 0x400 && low < 0x400
    ensures m == high * 1024 + low
  {
    high, low := m / 1024 % 1024, m % 1024;
  }

  /** The text of a pair of units, and what follows. */
  function PairText(high: string, low: string, rest: string): string {
    ['\\', 'u'] + (high + (['\\', 'u'] + (low + rest)))
  }

  lemma PairSplits(high: string, low: string, rest: string)
    requires |high| == |low| == 4
    ensures var s := PairText(high, low, rest);
      && |s| >= 12 && s[0] == '\\' && s[1] == 'u' && s[2..] == high + (['\\', 'u'] + (low + rest))
      && s[6] == '\\' && s[7] == 'u' && s[8..] == low + rest
  {
  }

  lemma UnitsRead(high: nat, low: nat, rest: string)
    requires high < 0x400 && low < 0x400
    ensures var s := PairText(Hex4(0xd800 + high), Hex4(0xdc00 + low), rest);
      && |s| >= 12 && Hex4Value(s[2..]) == Some(0xd800 + high) && Hex4Value(s[8..]) == Some(0xdc00 + low)
  {
    PairSplits(Hex4(0xd800 + high), Hex4(0xdc00 + low), rest);
    Hex4ReadsBack(0xd800 + high, ['\\', 'u'] + (Hex4(0xdc00 + low) + rest));
    Hex4ReadsBack(0xdc00 + low, rest);
  }

  /** Two units, at their places, read as the character they stand for. */
  lemma PairReads(s: string, c: char, high: nat, low: nat)
    requires high < 0x400 && low < 0x400 && c as int == 0x10000 + high * 1024 + low
    requires |s| >= 12 && s[0] == '\\' && s[1] == 'u' && s[6] == '\\' && s[7] == 'u'
    requires Hex4Value(s[2..]) == Some(0xd800 + high) && Hex4Value(s[8..]) == Some(0xdc00 + low)
    ensures ReadEscape(s) == Some((c, 12))
  {
  }

  lemma EscapeIsPair(c: char)
    requires (c as int) >= 0x10000
    ensures EscapeChar(c) == Pair(c as int - 0x10000)
  {
  }

  lemma UnitsText(high: nat, low: nat, rest: string)
    requires high < 0x10000 && low < 0x10000
    ensures Unit(high) + Unit(low) + rest == PairText(Hex4(high), Hex4(low), rest)
  {
    Regroup(Hex4(high), Hex4(low), rest);
  }

  lemma Regroup(high: string, low: string, rest: string)
    ensures ['\\', 'u'] + high + (['\\', 'u'] + low) + rest == PairText(high, low, rest)
  {
  }

  lemma PairUnits(m: nat, high: nat, low: nat)
    requires m < 0x100000 && high == m / 1024 % 1024 && low == m % 1024
    ensures Pair(m) == Unit(0xd800 + high) + Unit(0xdc00 + low)
  {
  }

  lemma PairIsText(m: nat, rest: string, high: nat, low: nat)
    requires m < 0x100000 && high == m / 1024 % 1024 && low == m % 1024 && high < 0x400 && low < 0x400
    ensures Pair(m) + rest == PairText(Hex4(0xd800 + high), Hex4(0xdc00 + low), rest)
  {
    PairUnits(m, high, low);
    UnitsText(0xd800 + high, 0xdc00 + low, rest);
  }

  /** Beyond, a pair of escapes. */
  lemma PairReadsBack(c: char, rest: string)
    requires (c as int) >= 0x10000
    ensures ReadEscape(EscapeChar(c) + rest) == Some((c, 12)) && |EscapeChar(c)| == 12
  {
    var high, low := PairHalves(c as int - 0x10000);
    EscapeIsPair(c);
    PairIsText(c as int - 0x10000, rest, high, low);
    UnitsRead(high, low, rest);
    PairSplits(Hex4(0xd800 + high), Hex4(0xdc00 + low), rest);
    PairReads(PairText(Hex4(0xd800 + high), Hex4(0xdc00 + low), rest), c, high, low);
  }

  lemma CharReadsBack(c: char, rest: string)
    requires !IsPlain(c)
    ensures ReadEscape(EscapeChar(c) + rest) == Some((c, |EscapeChar(c)|))
  {
    if (c as int) >= 0x10000 {
      PairReadsBack(c, rest);
    } else if IsCoded(c) {
      UnitReadsBack(c, rest);
    }
  }

  /** Any string, printed and read back, is itself. */
  lemma {:induction false} EscapeRoundTrip(s: string)
    ensures Unescape(Escape(s)) == Some(s)
  {
    if s != "" {
      var e, rest := EscapeChar(s[0]), Escape(s[1..]);
      EscapeRoundTrip(s[1..]);
      assert s == [s[0]] + s[1..];
      assert (e + rest)[0] == e[0] && (e + rest)[|e|..] == rest;
      if !IsPlain(s[0]) {
        CharReadsBack(s[0], rest);
      }
    }
  }

  // ── the substitution ──

  predicate NotAt(rest: string) {
    rest == "" || rest[0] != '@'
  }

  /** The pattern does not match at position i of a text and what follows. */
  predicate NoMatch(a: string, i: nat, rest: string, mark: string)
    requires i <= |a|
  {
    Captured(a[i..] + rest, mark).None?
  }

  /** Text in which the pattern never matches is copied. */
  lemma Copied(a: string, rest: string, mark: string)
    requires forall i | 0 <= i < |a| :: NoMatch(a, i, rest, mark)
    ensures Unwrap(a + rest, mark) == a + Unwrap(rest, mark)
  {
    CopiedFrom(a, 0, rest, mark);
    assert a[0..] == a;
  }

  lemma {:induction false} UnwrapFirst(s: string, mark: string)
    requires s != "" && Captured(s, mark).None?
    ensures Unwrap(s, mark) == [s[0]] + Unwrap(s[1..], mark)
  {
  }

  lemma FirstApart(a: string, k: nat, rest: string)
    requires k < |a|
    ensures a[k..] + rest == [a[k]] + (a[k + 1..] + rest) && (a[k..] + rest)[1..] == a[k + 1..] + rest
  {
  }

  lemma {:induction false} FirstIsKept(a: string, k: nat, rest: string, mark: string)
    requires k < |a| && NoMatch(a, k, rest, mark)
    ensures Unwrap(a[k..] + rest, mark) == [a[k]] + Unwrap(a[k + 1..] + rest, mark)
  {
    FirstApart(a, k, rest);
    UnwrapFirst(a[k..] + rest, mark);
  }

  lemma {:induction false} CopiedFrom(a: string, k: nat, rest: string, mark: string)
    requires k <= |a| && forall i | k <= i < |a| :: NoMatch(a, i, rest, mark)
    ensures Unwrap(a[k..] + rest, mark) == a[k..] + Unwrap(rest, mark)
    decreases |a| - k
  {
    if k == |a| {
      assert a[k..] + rest == rest;
    } else {
      CopiedFrom(a, k + 1, rest, mark);
      FirstIsKept(a, k, rest, mark);
      FirstApart(a, k, Unwrap(rest, mark));
    }
  }

  /** A match starts with a quote and the mark. */
  lemma MatchStarts(s: string, mark: string)
    ensures Captured(s, mark).Some? ==> s != "" && s[0] == '"' && StartsWith(s[1..], mark)
  {
    var open := ['"'] + mark;
    if StartsWith(s, open) {
      assert s[0] == s[..|open|][0];
      assert s[1..][..|mark|] == s[..|open|][1..];
    }
  }

  /** Punctuation, numbers and names have no quote. */
  lemma SymbolCopied(a: string, rest: string, mark: string)
    requires forall i | 0 <= i < |a| :: a[i] != '"'
    ensures Unwrap(a + rest, mark) == a + Unwrap(rest, mark)
  {
    forall i | 0 <= i < |a| ensures NoMatch(a, i, rest, mark) {
      MatchStarts(a[i..] + rest, mark);
    }
    Copied(a, rest, mark);
  }

  /** A mark that starts in a text ends in it: it does not run over the closing quote. */
  lemma MarkBeforeQuote(e: string, rest: string, mark: Mark)
    ensures StartsWith(e + ['"'] + rest, mark) ==> Contains(e, mark)
  {
    var all := e + ['"'] + rest;
    MarkIsPlain(mark);
    assert |e| < |mark| <= |all| ==> all[..|mark|][|e|] == '"';
    assert |mark| <= |e| ==> all[..|mark|] == e[0..][..|mark|];
  }

  lemma MarkAtFront(rest: string, mark: Mark)
    requires NotAt(rest)
    ensures !StartsWith(rest, mark)
  {
    MarkIsPlain(mark);
    assert |mark| <= |rest| ==> rest[..|mark|][0] == rest[0];
  }

  /** A text without the mark, up to its closing quote, is copied. */
  lemma BodyCopied(e: string, rest: string, mark: Mark)
    requires !Contains(e, mark) && NotAt(rest)
    ensures Unwrap(e + ['"'] + rest, mark) == e + ['"'] + Unwrap(rest, mark)
  {
    var a := e + ['"'];
    forall i | 0 <= i < |a| ensures NoMatch(a, i, rest, mark) {
      var s := a[i..] + rest;
      MatchStarts(s, mark);
      if i < |e| {
        assert s[1..] == e[i + 1..] + ['"'] + rest;
        MarkBeforeQuote(e[i + 1..], rest, mark);
        SuffixMark(e, mark, i + 1);
      } else {
        assert s[1..] == rest;
        MarkAtFront(rest, mark);
      }
    }
    Copied(a, rest, mark);
  }

  lemma FirstCopied(c: char, tail: string, mark: string)
    requires Captured([c] + tail, mark).None?
    ensures Unwrap([c] + tail, mark) == [c] + Unwrap(tail, mark)
  {
    assert ([c] + tail)[1..] == tail;
  }

  lemma TokenCopied(e: string, rest: string, mark: Mark)
    requires !Contains(e, mark) && NotAt(rest)
    ensures Unwrap(['"'] + (e + ['"'] + rest), mark) == ['"'] + (e + ['"'] + Unwrap(rest, mark))
  {
    var tail := e + ['"'] + rest;
    BodyCopied(e, rest, mark);
    MatchStarts(['"'] + tail, mark);
    assert (['"'] + tail)[1..] == tail;
    MarkBeforeQuote(e, rest, mark);
    FirstCopied('"', tail, mark);
  }

  lemma QuoteCopied(s: string, rest: string, mark: Mark)
    requires !Contains(s, mark) && NotAt(rest)
    ensures Unwrap(Quote(s) + rest, mark) == Quote(s) + Unwrap(rest, mark)
  {
    var e := Escape(s);
    if Contains(e, mark) { EscapedMark(s, mark); }
    TokenCopied(e, rest, mark);
    QuoteThen(e, rest);
    QuoteThen(e, Unwrap(rest, mark));
  }

  lemma QuoteThen(e: string, rest: string)
    ensures ['"'] + e + ['"'] + rest == ['"'] + (e + ['"'] + rest)
  {
  }

  lemma {:induction false} RunOf(number: string, rest: string)
    requires forall i | 0 <= i < |number| :: IsNumberChar(number[i])
    requires rest == "" || !IsNumberChar(rest[0])
    ensures Run(number + rest) == number
  {
    if number == "" {
      assert number + rest == rest;
    } else {
      assert (number + rest)[1..] == number[1..] + rest;
      RunOf(number[1..], rest);
    }
  }

  lemma WrappedIsPlain(d: Decimal, mark: Mark, i: nat)
    requires (d.NonFinite? ==> IsName(d.name)) && i < |mark + Fixed(d) + mark|
    ensures IsPlain((mark + Fixed(d) + mark)[i])
  {
    MarkIsPlain(mark);
    FixedIsPlain(d);
    PlainConcat(mark, Fixed(d));
    PlainConcat(mark + Fixed(d), mark);
  }

  predicate AllPlain(s: string) {
    forall i | 0 <= i < |s| :: IsPlain(s[i])
  }

  lemma PlainConcat(s: string, t: string)
    requires AllPlain(s) && AllPlain(t)
    ensures AllPlain(s + t)
  {
  }

  lemma WrappedText(d: Decimal, mark: Mark)
    requires (d.NonFinite? ==> IsName(d.name))
    ensures Wrapped(mark)(d) == ['"'] + (mark + Fixed(d) + mark) + ['"']
  {
    var s := mark + Fixed(d) + mark;
    forall i | 0 <= i < |s| ensures IsPlain(s[i]) {
      WrappedIsPlain(d, mark, i);
    }
    EscapePlain(s);
  }

  /** The pattern captures a number between two marks. */
  lemma NumberCaptured(number: string, rest: string, mark: Mark)
    requires IsNumber(number) && forall i | 0 <= i < |number| :: IsNumberChar(number[i])
    ensures Captured(['"'] + mark + (number + (mark + ['"'] + rest)), mark) == Some(number)
  {
    var open, close := ['"'] + mark, mark + ['"'];
    var tail := number + (close + rest);
    var all := open + tail;
    MarkIsPlain(mark);
    RunOf(number, close + rest);
    assert all[..|open|] == open && all[|open|..] == tail;
    assert all[|open| + |number|..] == close + rest;
    assert (close + rest)[..|close|] == close;
  }

  lemma AfterMatch(number: string, rest: string, mark: string)
    ensures (['"'] + mark + (number + (mark + ['"'] + rest)))[2 * |mark| + |number| + 2..] == rest
  {
  }

  /** A finite decimal loses its marks and quotes. */
  lemma FiniteUnwraps(d: Decimal, rest: string, mark: Mark)
    requires d.Finite?
    ensures Unwrap(Wrapped(mark)(d) + rest, mark) == Fixed(d) + Unwrap(rest, mark)
  {
    var number := Fixed(d);
    WrappedText(d, mark);
    FixedIsNumber(d);
    NumberCaptured(number, rest, mark);
    AfterMatch(number, rest, mark);
    WrappedThen(mark, number, rest);
  }

  lemma WrappedThen(mark: string, number: string, rest: string)
    ensures ['"'] + (mark + number + mark) + ['"'] + rest == ['"'] + mark + (number + (mark + ['"'] + rest))
  {
  }

  /** The name of a decimal that is not finite is no number. */
  lemma NameNotCaptured(negative: bool, name: string, rest: string, mark: string)
    requires IsName(name)
    ensures Captured(['"'] + mark + (Sign(negative) + name) + rest, mark).None?
  {
    var open, sign := ['"'] + mark, Sign(negative);
    var all := open + (sign + name) + rest;
    assert all[|open|..] == sign + (name + rest);
    RunOf(sign, name + rest);
  }

  /** One that is not finite keeps them. */
  lemma NonFiniteStays(d: Decimal, rest: string, mark: Mark)
    requires d.NonFinite? && IsName(d.name) && NotAt(rest)
    ensures Unwrap(Wrapped(mark)(d) + rest, mark) == Wrapped(mark)(d) + Unwrap(rest, mark)
  {
    WrappedText(d, mark);
    var body := mark + Fixed(d) + mark;
    forall i | 0 <= i < |body| ensures body[i] != '"' {
      WrappedIsPlain(d, mark, i);
    }
    StaysAfterQuote(body, rest, mark);
    var tail := body + ['"'] + rest;
    NameNotCaptured(d.negative, d.name, mark + ['"'] + rest, mark);
    BodyThen(mark, Sign(d.negative) + d.name, rest);
    FirstCopied('"', tail, mark);
    QuoteThen(body, rest);
    QuoteThen(body, Unwrap(rest, mark));
  }

  lemma BodyThen(mark: string, text: string, rest: string)
    ensures ['"'] + (mark + text + mark + ['"'] + rest) == ['"'] + mark + text + (mark + ['"'] + rest)
  {
  }

  /** A body without quotes is copied whatever it contains. */
  lemma StaysAfterQuote(body: string, rest: string, mark: Mark)
    requires NotAt(rest) && forall i | 0 <= i < |body| :: body[i] != '"'
    ensures Unwrap(body + ['"'] + rest, mark) == body + ['"'] + Unwrap(rest, mark)
  {
    var a := body + ['"'];
    forall i | 0 <= i < |a| ensures NoMatch(a, i, rest, mark) {
      var s := a[i..] + rest;
      MatchStarts(s, mark);
      if i == |body| {
        assert s[1..] == rest;
        MarkAtFront(rest, mark);
      }
    }
    Copied(a, rest, mark);
  }

  // ── the whole payload ──

  lemma {:induction false} IntStrIsSymbol(n: int)
    ensures forall i | 0 <= i < |IntStr(n)| :: IntStr(n)[i] != '"' && IntStr(n)[i] != '@'
  {
    forall i | 0 <= i < |IntStr(n)| ensures IntStr(n)[i] != '"' && IntStr(n)[i] != '@' {
      var d := if n < 0 then Digits(-n) else Digits(n);
      assert i >= |IntStr(n)| - |d| ==> IntStr(n)[i] == d[i - (|IntStr(n)| - |d|)];
    }
  }

  lemma ItemsNotAt(j: Json, k: nat, p: Decimal -> string, rest: string)
    requires j.Array? && k <= |j.items| && (k == 0 ==> k == |j.items|)
    ensures NotAt(PrintItems(j, k, p) + rest)
  {
  }

  lemma FieldsNotAt(j: Json, k: nat, p: Decimal -> string, rest: string)
    requires j.Object? && k <= |j.fields| && (k == 0 ==> k == |j.fields|)
    ensures NotAt(PrintFields(j, k, p) + rest)
  {
  }

  lemma Reassociate(a: string, b: string, c: string)
    ensures (a + b) + c == a + (b + c)
  {
  }

  /** The substitution takes each decimal out and leaves the rest alone. */
  lemma {:induction false} PrintUnwraps(j: Json, rest: string, mark: Mark)
    requires Clean(j, mark) && NotAt(rest)
    ensures Unwrap(Print(j, Wrapped(mark)) + rest, mark) == Print(j, Unwrapped(mark)) + Unwrap(rest, mark)
    decreases j, 1
  {
    match j
    case Null => SymbolCopied("null", rest, mark);
    case Bool(b) => SymbolCopied(if b then "true" else "false", rest, mark);
    case Int(n) =>
      IntStrIsSymbol(n);
      SymbolCopied(IntStr(n), rest, mark);
    case Text(s) => QuoteCopied(s, rest, mark);
    case Dec(d) => if d.Finite? { FiniteUnwraps(d, rest, mark); } else { NonFiniteStays(d, rest, mark); }
    case Array(items) =>
      forall i | 0 <= i < |items| ensures ItemOk(j, i, rest, mark) {
        ItemUnwraps(j, i, rest, mark);
      }
      ItemsUnwrap(j, 0, rest, mark);
      Reassociate("[", PrintItems(j, 0, Wrapped(mark)), rest);
      SymbolCopied("[", PrintItems(j, 0, Wrapped(mark)) + rest, mark);
      Reassociate("[", PrintItems(j, 0, Unwrapped(mark)), Unwrap(rest, mark));
    case Object(fields) =>
      forall i | 0 <= i < |fields| ensures FieldOk(j, i, rest, mark) {
        FieldUnwraps(j, i, rest, mark);
      }
      FieldsUnwrap(j, 0, rest, mark);
      Reassociate("{", PrintFields(j, 0, Wrapped(mark)), rest);
      SymbolCopied("{", PrintFields(j, 0, Wrapped(mark)) + rest, mark);
      Reassociate("{", PrintFields(j, 0, Unwrapped(mark)), Unwrap(rest, mark));
  }

  lemma ItemThen(j: Json, k: nat, p: Decimal -> string, rest: string)
    requires j.Array? && k < |j.items|
    ensures PrintItems(j, k, p) + rest == Comma(k) + (Print(j.items[k], p) + (PrintItems(j, k + 1, p) + rest))
  {
    ThreeThen(Comma(k), Print(j.items[k], p), PrintItems(j, k + 1, p), rest);
  }

  /** One item, once it is known to unwrap with what follows. */
  lemma ItemCopied(lead: string, w: string, u: string, more: string, mark: string)
    requires forall i | 0 <= i < |lead| :: lead[i] != '"'
    requires Unwrap(w + more, mark) == u + Unwrap(more, mark)
    ensures Unwrap(lead + (w + more), mark) == lead + (u + Unwrap(more, mark))
  {
    SymbolCopied(lead, w + more, mark);
  }

  lemma {:induction false} ItemsStep(j: Json, k: nat, rest: string, mark: string)
    requires j.Array? && k < |j.items|
    requires var item, more := j.items[k], PrintItems(j, k + 1, Wrapped(mark)) + rest;
      && Unwrap(Print(item, Wrapped(mark)) + more, mark) == Print(item, Unwrapped(mark)) + Unwrap(more, mark)
      && Unwrap(more, mark) == PrintItems(j, k + 1, Unwrapped(mark)) + Unwrap(rest, mark)
    ensures Unwrap(PrintItems(j, k, Wrapped(mark)) + rest, mark)
         == PrintItems(j, k, Unwrapped(mark)) + Unwrap(rest, mark)
  {
    var w, u := Wrapped(mark), Unwrapped(mark);
    ItemCopied(Comma(k), Print(j.items[k], w), Print(j.items[k], u), PrintItems(j, k + 1, w) + rest, mark);
    ItemThen(j, k, w, rest);
    ItemThen(j, k, u, Unwrap(rest, mark));
  }

  /** Item k, with the items after it. */
  ghost predicate ItemOk(j: Json, k: nat, rest: string, mark: string)
    requires j.Array? && k < |j.items|
  {
    var item, more := j.items[k], PrintItems(j, k + 1, Wrapped(mark)) + rest;
    Unwrap(Print(item, Wrapped(mark)) + more, mark) == Print(item, Unwrapped(mark)) + Unwrap(more, mark)
  }

  lemma {:induction false} ItemUnwraps(j: Json, k: nat, rest: string, mark: Mark)
    requires Clean(j, mark) && NotAt(rest) && j.Array? && k < |j.items|
    ensures ItemOk(j, k, rest, mark)
    decreases j, 0
  {
    ItemsNotAt(j, k + 1, Wrapped(mark), rest);
    PrintUnwraps(j.items[k], PrintItems(j, k + 1, Wrapped(mark)) + rest, mark);
  }

  /** The items from k on, with what follows. */
  ghost predicate ItemsOk(j: Json, k: nat, rest: string, mark: string)
    requires j.Array? && k <= |j.items|
  {
    Unwrap(PrintItems(j, k, Wrapped(mark)) + rest, mark) == PrintItems(j, k, Unwrapped(mark)) + Unwrap(rest, mark)
  }

  lemma {:induction false} NoItemLeft(j: Json, rest: string, mark: string)
    requires j.Array?
    ensures ItemsOk(j, |j.items|, rest, mark)
  {
    SymbolCopied("]", rest, mark);
  }

  lemma {:induction false} OneMoreItem(j: Json, k: nat, rest: string, mark: Mark)
    requires j.Array? && k < |j.items| && ItemOk(j, k, rest, mark) && ItemsOk(j, k + 1, rest, mark)
    ensures ItemsOk(j, k, rest, mark)
  {
    ItemsStep(j, k, rest, mark);
  }

  /** Items that unwrap, from k on. */
  lemma {:induction false} ItemsUnwrap(j: Json, k: nat, rest: string, mark: Mark)
    requires j.Array? && k <= |j.items| && forall i | k <= i < |j.items| :: ItemOk(j, i, rest, mark)
    ensures ItemsOk(j, k, rest, mark)
    decreases |j.items| - k
  {
    if k == |j.items| {
      NoItemLeft(j, rest, mark);
    } else {
      ItemsUnwrap(j, k + 1, rest, mark);
      OneMoreItem(j, k, rest, mark);
    }
  }

  lemma ThreeThen(a: string, b: string, c: string, rest: string)
    ensures a + b + c + rest == a + (b + (c + rest))
  {
  }

  lemma FiveThen(a: string, b: string, c: string, d: string, e: string, rest: string)
    ensures a + b + c + d + e + rest == a + (b + (c + (d + (e + rest))))
  {
  }

  lemma FieldThen(j: Json, k: nat, p: Decimal -> string, rest: string)
    requires j.Object? && k < |j.fields|
    ensures PrintFields(j, k, p) + rest
         == Comma(k) + (Quote(j.fields[k].0) + (": " + (Print(j.fields[k].1, p) + (PrintFields(j, k + 1, p) + rest))))
  {
    FiveThen(Comma(k), Quote(j.fields[k].0), ": ", Print(j.fields[k].1, p), PrintFields(j, k + 1, p), rest);
  }

  /** One field, once its value is known to unwrap. */
  lemma FieldCopied(lead: string, key: string, w: string, u: string, more: string, mark: Mark)
    requires !Contains(key, mark) && forall i | 0 <= i < |lead| :: lead[i] != '"'
    requires Unwrap(w + more, mark) == u + Unwrap(more, mark)
    ensures Unwrap(lead + (Quote(key) + (": " + (w + more))), mark)
         == lead + (Quote(key) + (": " + (u + Unwrap(more, mark))))
  {
    var tail := w + more;
    SymbolCopied(": ", tail, mark);
    QuoteCopied(key, ": " + tail, mark);
    SymbolCopied(lead, Quote(key) + (": " + tail), mark);
  }

  lemma {:induction false} FieldsStep(j: Json, k: nat, rest: string, mark: Mark)
    requires j.Object? && k < |j.fields| && !Contains(j.fields[k].0, mark)
    requires var value, more := j.fields[k].1, PrintFields(j, k + 1, Wrapped(mark)) + rest;
      && Unwrap(Print(value, Wrapped(mark)) + more, mark) == Print(value, Unwrapped(mark)) + Unwrap(more, mark)
      && Unwrap(more, mark) == PrintFields(j, k + 1, Unwrapped(mark)) + Unwrap(rest, mark)
    ensures Unwrap(PrintFields(j, k, Wrapped(mark)) + rest, mark)
         == PrintFields(j, k, Unwrapped(mark)) + Unwrap(rest, mark)
  {
    var w, u := Wrapped(mark), Unwrapped(mark);
    FieldCopied(Comma(k), j.fields[k].0, Print(j.fields[k].1, w), Print(j.fields[k].1, u),
                PrintFields(j, k + 1, w) + rest, mark);
    FieldThen(j, k, w, rest);
    FieldThen(j, k, u, Unwrap(rest, mark));
  }

  /** The value of field k, with the fields after it. */
  ghost predicate FieldOk(j: Json, k: nat, rest: string, mark: string)
    requires j.Object? && k < |j.fields|
  {
    var value, more := j.fields[k].1, PrintFields(j, k + 1, Wrapped(mark)) + rest;
    && !Contains(j.fields[k].0, mark)
    && Unwrap(Print(value, Wrapped(mark)) + more, mark) == Print(value, Unwrapped(mark)) + Unwrap(more, mark)
  }

  lemma {:induction false} FieldUnwraps(j: Json, k: nat, rest: string, mark: Mark)
    requires Clean(j, mark) && NotAt(rest) && j.Object? && k < |j.fields|
    ensures FieldOk(j, k, rest, mark)
    decreases j, 0
  {
    FieldsNotAt(j, k + 1, Wrapped(mark), rest);
    PrintUnwraps(j.fields[k].1, PrintFields(j, k + 1, Wrapped(mark)) + rest, mark);
  }

  /** The fields from k on, with what follows. */
  ghost predicate FieldsOk(j: Json, k: nat, rest: string, mark: string)
    requires j.Object? && k <= |j.fields|
  {
    Unwrap(PrintFields(j, k, Wrapped(mark)) + rest, mark) == PrintFields(j, k, Unwrapped(mark)) + Unwrap(rest, mark)
  }

  lemma {:induction false} NoFieldLeft(j: Json, rest: string, mark: string)
    requires j.Object?
    ensures FieldsOk(j, |j.fields|, rest, mark)
  {
    SymbolCopied("}", rest, mark);
  }

  lemma {:induction false} OneMoreField(j: Json, k: nat, rest: string, mark: Mark)
    requires j.Object? && k < |j.fields| && FieldOk(j, k, rest, mark) && FieldsOk(j, k + 1, rest, mark)
    ensures FieldsOk(j, k, rest, mark)
  {
    FieldsStep(j, k, rest, mark);
  }

  /** Fields whose values unwrap, from k on. */
  lemma {:induction false} FieldsUnwrap(j: Json, k: nat, rest: string, mark: Mark)
    requires j.Object? && k <= |j.fields| && forall i | k <= i < |j.fields| :: FieldOk(j, i, rest, mark)
    ensures FieldsOk(j, k, rest, mark)
    decreases |j.fields| - k
  {
    if k == |j.fields| {
      NoFieldLeft(j, rest, mark);
    } else {
      FieldsUnwrap(j, k + 1, rest, mark);
      OneMoreField(j, k, rest, mark);
    }
  }

  // ── the final check ──

  /** After an `@` comes a quote, so no mark runs over the end. */
  ghost predicate Sealed(s: string) {
    forall i | 0 <= i < |s| && s[i] == '@' :: exists k :: i < k < |s| && s[k] == '"'
  }

  ghost predicate Unmarked(s: string, mark: string) {
    !Contains(s, mark) && Sealed(s)
  }

  lemma NoMarkOver(s: string, mark: Mark, i: nat, k: nat)
    requires i < k < |s| && s[k] == '"' && k - i < |mark|
    ensures !StartsWith(s[i..], mark)
  {
    MarkIsPlain(mark);
    assert |mark| <= |s[i..]| ==> s[i..][..|mark|][k - i] == '"';
  }

  lemma NoMarkFrom(s: string, mark: Mark, i: nat)
    requires i < |s| && s[i] != '@'
    ensures !StartsWith(s[i..], mark)
  {
    MarkAtFront(s[i..], mark);
  }

  lemma ConcatUnmarked(a: string, b: string, mark: Mark)
    requires Unmarked(a, mark) && Unmarked(b, mark)
    ensures Unmarked(a + b, mark)
  {
    var s := a + b;
    forall i | 0 <= i < |s| && s[i] == '@' ensures exists k :: i < k < |s| && s[k] == '"' {
      if i < |a| {
        var k :| i < k < |a| && a[k] == '"';
        assert s[k] == '"';
      } else {
        var k :| i - |a| < k < |b| && b[k] == '"';
        assert s[k + |a|] == '"';
      }
    }
    forall i | 0 <= i <= |s| ensures !StartsWith(s[i..], mark) {
      NoMarkIn(a, b, mark, i);
    }
  }

  lemma NoMarkIn(a: string, b: string, mark: Mark, i: nat)
    requires Unmarked(a, mark) && !Contains(b, mark) && i <= |a + b|
    ensures !StartsWith((a + b)[i..], mark)
  {
    var s := a + b;
    if i >= |a| {
      assert s[i..] == b[i - |a|..];
    } else if a[i] != '@' {
      NoMarkFrom(s, mark, i);
    } else {
      var k :| i < k < |a| && a[k] == '"';
      if k - i < |mark| {
        NoMarkOver(s, mark, i, k);
      } else {
        assert s[i..][..|mark|] == a[i..][..|mark|];
        assert !StartsWith(a[i..], mark);
      }
    }
  }

  lemma SymbolUnmarked(s: string, mark: Mark)
    requires forall i | 0 <= i < |s| :: s[i] != '@'
    ensures Unmarked(s, mark)
  {
    forall i | 0 <= i <= |s| ensures !StartsWith(s[i..], mark) {
      MarkAtFront(s[i..], mark);
    }
  }

  lemma QuoteUnmarked(s: string, mark: Mark)
    requires !Contains(s, mark)
    ensures Unmarked(Quote(s), mark)
  {
    var e := Escape(s);
    var q := Quote(s);
    if Contains(e, mark) { EscapedMark(s, mark); }
    forall i | 0 <= i < |q| && q[i] == '@' ensures exists k :: i < k < |q| && q[k] == '"' {
      assert q[|q| - 1] == '"';
    }
    forall i | 0 <= i <= |q| ensures !StartsWith(q[i..], mark) {
      if i == 0 {
        NoMarkFrom(q, mark, 0);
      } else if i <= |e| {
        assert q[i..] == e[i - 1..] + ['"'] + "";
        MarkBeforeQuote(e[i - 1..], "", mark);
        SuffixMark(e, mark, i - 1);
      } else {
        MarkAtFront(q[i..], mark);
      }
    }
  }

  /** The ideal text has no mark. */
  lemma {:induction false} IdealUnmarked(j: Json, mark: Mark)
    requires Clean(j, mark) && !HasNonFinite(j)
    ensures Unmarked(Print(j, Fixed), mark)
    decreases j, 1, 0
  {
    match j
    case Null => SymbolUnmarked("null", mark);
    case Bool(b) => SymbolUnmarked(if b then "true" else "false", mark);
    case Int(n) =>
      IntStrIsSymbol(n);
      SymbolUnmarked(IntStr(n), mark);
    case Text(s) => QuoteUnmarked(s, mark);
    case Dec(d) =>
      FixedIsNumber(d);
      SymbolUnmarked(Fixed(d), mark);
    case Array(items) =>
      ItemsUnmarked(j, 0, mark);
      SymbolUnmarked("[", mark);
      ConcatUnmarked("[", PrintItems(j, 0, Fixed), mark);
    case Object(fields) =>
      FieldsUnmarked(j, 0, mark);
      SymbolUnmarked("{", mark);
      ConcatUnmarked("{", PrintFields(j, 0, Fixed), mark);
  }

  lemma {:induction false} ItemsUnmarked(j: Json, k: nat, mark: Mark)
    requires Clean(j, mark) && !HasNonFinite(j) && j.Array? && k <= |j.items|
    ensures Unmarked(PrintItems(j, k, Fixed), mark)
    decreases j, 0, |j.items| - k
  {
    if k == |j.items| {
      SymbolUnmarked("]", mark);
    } else {
      SymbolUnmarked(Comma(k), mark);
      IdealUnmarked(j.items[k], mark);
      ItemsUnmarked(j, k + 1, mark);
      ConcatUnmarked(Comma(k), Print(j.items[k], Fixed), mark);
      ConcatUnmarked(Comma(k) + Print(j.items[k], Fixed), PrintItems(j, k + 1, Fixed), mark);
    }
  }

  lemma FieldUnmarked(lead: string, key: string, value: string, more: string, mark: Mark)
    requires !Contains(key, mark) && Unmarked(lead, mark) && Unmarked(value, mark) && Unmarked(more, mark)
    ensures Unmarked(lead + Quote(key) + ": " + value + more, mark)
  {
    QuoteUnmarked(key, mark);
    SymbolUnmarked(": ", mark);
    ConcatUnmarked(lead, Quote(key), mark);
    ConcatUnmarked(lead + Quote(key), ": ", mark);
    ConcatUnmarked(lead + Quote(key) + ": ", value, mark);
    ConcatUnmarked(lead + Quote(key) + ": " + value, more, mark);
  }

  lemma {:induction false} FieldsUnmarked(j: Json, k: nat, mark: Mark)
    requires Clean(j, mark) && !HasNonFinite(j) && j.Object? && k <= |j.fields|
    ensures Unmarked(PrintFields(j, k, Fixed), mark)
    decreases j, 0, |j.fields| - k
  {
    if k == |j.fields| {
      SymbolUnmarked("}", mark);
    } else {
      IdealUnmarked(j.fields[k].1, mark);
      FieldsUnmarked(j, k + 1, mark);
      SymbolUnmarked(Comma(k), mark);
      FieldUnmarked(Comma(k), j.fields[k].0, Print(j.fields[k].1, Fixed), PrintFields(j, k + 1, Fixed), mark);
    }
  }

  /** With finite decimals only, the text is the ideal one. */
  lemma {:induction false} FinitePrintsIdeal(j: Json, mark: string)
    requires !HasNonFinite(j)
    ensures Print(j, Unwrapped(mark)) == Print(j, Fixed)
    decreases j, 1, 0
  {
    match j
    case Array(items) => FiniteItemsPrintIdeal(j, 0, mark);
    case Object(fields) => FiniteFieldsPrintIdeal(j, 0, mark);
    case _ =>
  }

  lemma {:induction false} FiniteItemsPrintIdeal(j: Json, k: nat, mark: string)
    requires !HasNonFinite(j) && j.Array? && k <= |j.items|
    ensures PrintItems(j, k, Unwrapped(mark)) == PrintItems(j, k, Fixed)
    decreases j, 0, |j.items| - k
  {
    if k < |j.items| {
      FinitePrintsIdeal(j.items[k], mark);
      FiniteItemsPrintIdeal(j, k + 1, mark);
    }
  }

  lemma {:induction false} FiniteFieldsPrintIdeal(j: Json, k: nat, mark: string)
    requires !HasNonFinite(j) && j.Object? && k <= |j.fields|
    ensures PrintFields(j, k, Unwrapped(mark)) == PrintFields(j, k, Fixed)
    decreases j, 0, |j.fields| - k
  {
    if k < |j.fields| {
      FinitePrintsIdeal(j.fields[k].1, mark);
      FiniteFieldsPrintIdeal(j, k + 1, mark);
    }
  }

  lemma MarkInConcat(a: string, b: string, mark: string)
    ensures Contains(a, mark) || Contains(b, mark) ==> Contains(a + b, mark)
  {
    if i :| 0 <= i <= |a| && StartsWith(a[i..], mark) {
      assert (a + b)[i..][..|mark|] == a[i..][..|mark|];
      assert StartsWith((a + b)[i..], mark);
    }
    if i :| 0 <= i <= |b| && StartsWith(b[i..], mark) {
      assert (a + b)[|a| + i..] == b[i..];
    }
  }

  /** A decimal that is not finite leaves its marks behind. */
  lemma {:induction false} NonFiniteShows(j: Json, mark: Mark)
    requires Clean(j, mark) && HasNonFinite(j)
    ensures Contains(Print(j, Unwrapped(mark)), mark)
    decreases j, 1, 0
  {
    match j
    case Dec(d) =>
      WrappedText(d, mark);
      var s := Wrapped(mark)(d);
      assert s[1..][..|mark|] == mark;
      assert StartsWith(s[1..], mark);
    case Array(items) =>
      var i :| 0 <= i < |items| && HasNonFinite(items[i]);
      ItemsShow(j, 0, i, mark);
      MarkInConcat("[", PrintItems(j, 0, Unwrapped(mark)), mark);
    case Object(fields) =>
      var i :| 0 <= i < |fields| && HasNonFinite(fields[i].1);
      FieldsShow(j, 0, i, mark);
      MarkInConcat("{", PrintFields(j, 0, Unwrapped(mark)), mark);
  }

  lemma {:induction false} ItemsShow(j: Json, k: nat, i: nat, mark: Mark)
    requires Clean(j, mark) && j.Array? && k <= i < |j.items| && HasNonFinite(j.items[i])
    ensures Contains(PrintItems(j, k, Unwrapped(mark)), mark)
    decreases j, 0, |j.items| - k
  {
    var u := Unwrapped(mark);
    if k == i {
      NonFiniteShows(j.items[k], mark);
      MarkInConcat(Comma(k), Print(j.items[k], u), mark);
    } else {
      ItemsShow(j, k + 1, i, mark);
    }
    MarkInConcat(Comma(k) + Print(j.items[k], u), PrintItems(j, k + 1, u), mark);
  }

  lemma {:induction false} FieldsShow(j: Json, k: nat, i: nat, mark: Mark)
    requires Clean(j, mark) && j.Object? && k <= i < |j.fields| && HasNonFinite(j.fields[i].1)
    ensures Contains(PrintFields(j, k, Unwrapped(mark)), mark)
    decreases j, 0, |j.fields| - k
  {
    var u := Unwrapped(mark);
    var front := Comma(k) + Quote(j.fields[k].0) + ": ";
    if k == i {
      NonFiniteShows(j.fields[k].1, mark);
      MarkInConcat(front, Print(j.fields[k].1, u), mark);
    } else {
      FieldsShow(j, k + 1, i, mark);
    }
    MarkInConcat(front + Print(j.fields[k].1, u), PrintFields(j, k + 1, u), mark);
  }

  /** When no string of the payload contains the mark, the printer raises if and only if
      some decimal is not finite, and otherwise gives the ideal text. */
  lemma DumpsOutcome(j: Json, mark: Mark)
    requires Clean(j, mark)
    ensures Dumps(j, mark) == if HasNonFinite(j) then Err(ProviderPayloadError) else Ok(Print(j, Fixed))
  {
    var raw := Print(j, Wrapped(mark));
    PrintUnwraps(j, "", mark);
    assert raw + "" == raw && Unwrap("", mark) == "";
    assert Print(j, Unwrapped(mark)) + "" == Print(j, Unwrapped(mark));
    if HasNonFinite(j) {
      NonFiniteShows(j, mark);
    } else {
      FinitePrintsIdeal(j, mark);
      IdealUnmarked(j, mark);
    }
  }
}
