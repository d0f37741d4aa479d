/** Vocabulary shared by every module: optional and failing values, the decimal
    rendering of an integer inside an idempotency key, and sums over finite sets. */
module Common {

  datatype Option<+T> = None | Some(value: T)

  datatype Result<+T, +E> = Ok(value: T) | Err(error: E)

  // ── runs ──

  /** A run of a state machine: one step after another. */
  function Fold<S, A>(step: (S, A) -> S, s: S, run: seq<A>): S
    decreases |run|
  {
    if run == [] then s else Fold(step, step(s, run[0]), run[1..])
  }

  lemma {:induction false} FoldAppend<S, A>(step: (S, A) -> S, s: S, xs: seq<A>, ys: seq<A>)
    ensures Fold(step, s, xs + ys) == Fold(step, Fold(step, s, xs), ys)
    decreases |xs|
  {
    if xs == [] {
      assert xs + ys == ys;
    } else {
      assert (xs + ys)[0] == xs[0] && (xs + ys)[1..] == xs[1..] + ys;
      FoldAppend(step, step(s, xs[0]), xs[1..], ys);
    }
  }

  /** The last step of a run. */
  lemma FoldLast<S, A>(step: (S, A) -> S, s: S, run: seq<A>, k: nat)
    requires k < |run|
    ensures Fold(step, s, run[..k + 1]) == step(Fold(step, s, run[..k]), run[k])
  {
    assert run[..k + 1] == run[..k] + [run[k]];
    FoldAppend(step, s, run[..k], [run[k]]);
    assert [run[k]][1..] == [];
    assert Fold(step, Fold(step, s, run[..k]), [run[k]]) == Fold(step, step(Fold(step, s, run[..k]), run[k]), []);
  }

  lemma FoldTwo<S, A>(step: (S, A) -> S, s: S, a: A, b: A)
    ensures Fold(step, s, [a, b]) == step(step(s, a), b)
  {
    assert [a, b][1..] == [b] && [b][1..] == [];
    assert Fold(step, step(s, a), [b]) == Fold(step, step(step(s, a), b), []);
  }

  lemma FoldThree<S, A>(step: (S, A) -> S, s: S, a: A, b: A, c: A)
    ensures Fold(step, s, [a, b, c]) == step(step(step(s, a), b), c)
  {
    assert [a, b, c] == [a] + [b, c];
    FoldAppend(step, s, [a], [b, c]);
    FoldTwo(step, step(s, a), b, c);
    assert [a][1..] == [];
  }

  lemma FoldFive<S, A>(step: (S, A) -> S, s: S, a: A, b: A, c: A, d: A, e: A)
    ensures Fold(step, s, [a, b, c, d, e][..3]) == step(step(step(s, a), b), c)
    ensures Fold(step, s, [a, b, c, d, e]) == step(step(step(step(step(s, a), b), c), d), e)
  {
    assert [a, b, c, d, e][..3] == [a, b, c] && [a, b, c, d, e] == [a, b, c] + [d, e];
    FoldThree(step, s, a, b, c);
    FoldAppend(step, s, [a, b, c], [d, e]);
    FoldTwo(step, step(step(step(s, a), b), c), d, e);
  }

  lemma FoldSix<S, A>(step: (S, A) -> S, s: S, a: A, b: A, c: A, d: A, e: A, f: A)
    ensures Fold(step, s, [a, b, c, d, e, f]) == step(step(step(step(step(step(s, a), b), c), d), e), f)
  {
    assert [a, b, c, d, e, f] == [a, b, c] + [d, e, f];
    FoldThree(step, s, a, b, c);
    FoldAppend(step, s, [a, b, c], [d, e, f]);
    FoldThree(step, step(step(step(s, a), b), c), d, e, f);
  }

  // ── decimal rendering ──

  predicate IsDigit(c: char) {
    '0' <= c <= '9'
  }

  predicate AllDigits(s: string) {
    forall i | 0 <= i < |s| :: IsDigit(s[i])
  }

  function Digits(n: nat): (s: string)
    ensures |s| > 0 && AllDigits(s)
  {
    var last := [('0' as int + n % 10) as char];
    if n < 10 then last else Digits(n / 10) + last
  }

  function DigitsValue(s: string): nat
    requires AllDigits(s)
  {
    if s == "" then 0
    else 10 * DigitsValue(s[..|s| - 1]) + (s[|s| - 1] as int - '0' as int)
  }

  /** The text of an integer as Python's `f"{n}"` writes it. */
  function IntStr(n: int): string {
    if n < 0 then "-" + Digits(-n) else Digits(n)
  }

  lemma {:induction false} DigitsRoundTrip(n: nat)
    ensures DigitsValue(Digits(n)) == n
  {
    if n >= 10 {
      DigitsRoundTrip(n / 10);
      assert Digits(n)[..|Digits(n)| - 1] == Digits(n / 10);
    }
  }

  lemma IntStrSign(n: int)
    ensures n < 0 <==> IntStr(n)[..1] == "-"
  {
    if n >= 0 {
      assert IsDigit(Digits(n)[0]);
    }
  }

  /** Two different provider ids never share an idempotency key. */
  lemma IntStrInjective(a: int, b: int)
    requires IntStr(a) == IntStr(b)
    ensures a == b
  {
    IntStrSign(a);
    IntStrSign(b);
    DigitsRoundTrip(if a < 0 then -a else a);
    DigitsRoundTrip(if b < 0 then -b else b);
    if a < 0 {
      assert Digits(-a) == IntStr(a)[1..] == Digits(-b);
    }
  }

  function Zeros(n: nat): (s: string)
    ensures |s| == n && AllDigits(s)
  {
    seq(n, _ => '0')
  }

  function Pow10(k: nat): (p: nat)
    ensures p > 0
  {
    if k == 0 then 1 else 10 * Pow10(k - 1)
  }

  // ── hexadecimal ──

  /** A digit as lower-case hexadecimal text writes it. */
  function HexChar(d: nat): (c: char)
    requires d < 16
    ensures '0' <= c <= '9' || 'a' <= c <= 'f'
  {
    if d < 10 then ('0' as int + d) as char else ('a' as int + d - 10) as char
  }

  // ── surrounding whitespace ──

  predicate IsSpace(c: char) {
    c == ' ' || '\t' <= c <= '\r' || '\U{1c}' <= c <= '\U{1f}' || c == '\U{85}' || c == '\U{a0}'
  }

  function StripLeft(s: string): string {
    if s != "" && IsSpace(s[0]) then StripLeft(s[1..]) else s
  }

  function StripRight(s: string): string {
    if s != "" && IsSpace(s[|s| - 1]) then StripRight(s[..|s| - 1]) else s
  }

  /** `str.strip()`, on the spaces of the Latin-1 range. */
  function Strip(s: string): string {
    StripRight(StripLeft(s))
  }

  predicate AllSpaces(s: string) {
    forall i | 0 <= i < |s| :: IsSpace(s[i])
  }

  lemma {:induction false} LeftTrims(s: string) returns (front: string)
    ensures s == front + StripLeft(s) && AllSpaces(front)
    ensures StripLeft(s) != "" ==> !IsSpace(StripLeft(s)[0])
  {
    front := "";
    if s != "" && IsSpace(s[0]) {
      front := LeftTrims(s[1..]);
      front := [s[0]] + front;
    }
  }

  lemma {:induction false} RightTrims(s: string) returns (back: string)
    ensures s == StripRight(s) + back && AllSpaces(back)
    ensures var r := StripRight(s); r != "" ==> r[0] == s[0] && !IsSpace(r[|r| - 1])
  {
    back := "";
    if s != "" && IsSpace(s[|s| - 1]) {
      back := RightTrims(s[..|s| - 1]);
      back := back + [s[|s| - 1]];
    }
  }

  /** What is stripped is spaces, at the ends, and all of them. */
  lemma StripTrims(s: string) returns (front: string, back: string)
    ensures s == front + Strip(s) + back && AllSpaces(front) && AllSpaces(back)
    ensures var r := Strip(s); r != "" ==> !IsSpace(r[0]) && !IsSpace(r[|r| - 1])
  {
    front := LeftTrims(s);
    back := RightTrims(StripLeft(s));
  }

  // ── sums over finite sets ──

  ghost function SumOver<T(!new)>(s: set<T>, f: T -> int): int {
    if s == {} then 0
    else
      var x :| x in s;
      f(x) + SumOver(s - {x}, f)
  }

  /** A sum does not depend on the element taken out first. */
  lemma {:induction false} SumOverPick<T(!new)>(s: set<T>, f: T -> int, x: T)
    requires x in s
    ensures SumOver(s, f) == f(x) + SumOver(s - {x}, f)
    decreases s
  {
    var y :| y in s && SumOver(s, f) == f(y) + SumOver(s - {y}, f);
    if y != x {
      SumOverPick(s - {y}, f, x);
      SumOverPick(s - {x}, f, y);
      assert s - {y} - {x} == s - {x} - {y};
    }
  }

  lemma {:induction false} SumOverSame<T(!new)>(s: set<T>, f: T -> int, g: T -> int)
    requires forall x | x in s :: f(x) == g(x)
    ensures SumOver(s, f) == SumOver(s, g)
    decreases s
  {
    if s != {} {
      var x :| x in s;
      SumOverPick(s, f, x);
      SumOverPick(s, g, x);
      SumOverSame(s - {x}, f, g);
    }
  }
}
