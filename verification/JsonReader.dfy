/** A reader of JSON, written apart from the printer: what is sent reads back as the
    payload, with every number as it was written. */
module JsonReader {
  import opened Common
  import opened JsonDump
  import opened JsonDumpTheorems

  /** A JSON value, its numbers by their text. */
  datatype Value =
    | NullValue
    | BoolValue(b: bool)
    | NumberValue(text: string)
    | TextValue(s: string)
    | ArrayValue(items: seq<Value>)
    | ObjectValue(fields: seq<(string, Value)>)

  // ── the reader ──

  function SkipSpaces(s: string): (r: string)
    ensures |r| <= |s|
  {
    if s != "" && s[0] in " \t\r\n" then SkipSpaces(s[1..]) else s
  }

  /** The rest of a string, after its opening quote, up to the closing one. */
  function ReadText(s: string): (r: Option<(string, string)>)
    ensures r.Some? ==> |r.value.1| < |s|
    decreases |s|
  {
    if s == "" then None
    else if s[0] == '"' then Some(("", s[1..]))
    else if s[0] != '\\' then
      match ReadText(s[1..]) case Some(t) => Some(([s[0]] + t.0, t.1)) case None => None
    else
      match ReadEscape(s)
      case None => None
      case Some(c) =>
        match ReadText(s[c.1..]) case Some(t) => Some(([c.0] + t.0, t.1)) case None => None
  }

  function ReadValue(s: string): (r: Option<(Value, string)>)
    ensures r.Some? ==> |r.value.1| < |s|
    decreases |s|, 0
  {
    if s == "" then None
    else if "null" <= s then Some((NullValue, s[4..]))
    else if "true" <= s then Some((BoolValue(true), s[4..]))
    else if "false" <= s then Some((BoolValue(false), s[5..]))
    else if s[0] == '"' then
      match ReadText(s[1..]) case Some(t) => Some((TextValue(t.0), t.1)) case None => None
    else if s[0] == '[' then
      var t := SkipSpaces(s[1..]);
      if t != "" && t[0] == ']' then Some((ArrayValue([]), t[1..]))
      else match ReadItems(t) case Some(vs) => Some((ArrayValue(vs.0), vs.1)) case None => None
    else if s[0] == '{' then
      var t := SkipSpaces(s[1..]);
      if t != "" && t[0] == '}' then Some((ObjectValue([]), t[1..]))
      else match ReadFields(t) case Some(fs) => Some((ObjectValue(fs.0), fs.1)) case None => None
    else
      var number := NumberText(s);
      if number == "" then None else Some((NumberValue(number), s[|number|..]))
  }

  /** The longest run of digits, signs and points. */
  function NumberText(s: string): (r: string)
    ensures |r| <= |s|
  {
    if s != "" && (IsDigit(s[0]) || s[0] == '-' || s[0] == '.') then [s[0]] + NumberText(s[1..]) else ""
  }

  /** One item or more, and the bracket. */
  function ReadItems(s: string): (r: Option<(seq<Value>, string)>)
    ensures r.Some? ==> |r.value.1| < |s|
    decreases |s|, 1
  {
    match ReadValue(s)
    case None => None
    case Some(v) =>
      if v.1 != "" && v.1[0] == ']' then Some(([v.0], v.1[1..]))
      else if v.1 != "" && v.1[0] == ',' then
        match ReadItems(SkipSpaces(v.1[1..])) case Some(vs) => Some(([v.0] + vs.0, vs.1)) case None => None
      else None
  }

  /** A key, a colon and a value. */
  function ReadField(s: string): (r: Option<((string, Value), string)>)
    ensures r.Some? ==> |r.value.1| < |s|
    decreases |s|, 1
  {
    if s == "" || s[0] != '"' then None
    else
      match ReadText(s[1..])
      case None => None
      case Some(key) =>
        if key.1 == "" || key.1[0] != ':' then None
        else
          match ReadValue(SkipSpaces(key.1[1..])) case Some(v) => Some(((key.0, v.0), v.1)) case None => None
  }

  function ReadFields(s: string): (r: Option<(seq<(string, Value)>, string)>)
    ensures r.Some? ==> |r.value.1| < |s|
    decreases |s|, 2
  {
    match ReadField(s)
    case None => None
    case Some(f) =>
      if f.1 != "" && f.1[0] == '}' then Some(([f.0], f.1[1..]))
      else if f.1 != "" && f.1[0] == ',' then
        match ReadFields(SkipSpaces(f.1[1..])) case Some(fs) => Some(([f.0] + fs.0, fs.1)) case None => None
      else None
  }

  // ── the payload as a reader sees it ──

  function Shown(j: Json): Value
    decreases j, 1, 0
  {
    match j
    case Null => NullValue
    case Bool(b) => BoolValue(b)
    case Int(n) => NumberValue(IntStr(n))
    case Text(s) => TextValue(s)
    case Dec(d) => NumberValue(Fixed(d))
    case Array(items) => ArrayValue(ShownItems(j, 0))
    case Object(fields) => ObjectValue(ShownFields(j, 0))
  }

  function ShownItems(j: Json, k: nat): (vs: seq<Value>)
    requires j.Array? && k <= |j.items|
    ensures |vs| == |j.items| - k
    decreases j, 0, |j.items| - k
  {
    if k == |j.items| then [] else [Shown(j.items[k])] + ShownItems(j, k + 1)
  }

  function ShownFields(j: Json, k: nat): (fs: seq<(string, Value)>)
    requires j.Object? && k <= |j.fields|
    ensures |fs| == |j.fields| - k
    decreases j, 0, |j.fields| - k
  {
    if k == |j.fields| then [] else [(j.fields[k].0, Shown(j.fields[k].1))] + ShownFields(j, k + 1)
  }

  // ── one step of the reader ──

  lemma {:induction false} QuoteStep(s: string, text: string, rest: string)
    requires s != "" && s[0] == '"' && ReadText(s[1..]) == Some((text, rest))
    ensures ReadValue(s) == Some((TextValue(text), rest))
  {
  }

  lemma {:induction false} ArrayStep(s: string, t: string)
    requires s != "" && s[0] == '[' && SkipSpaces(s[1..]) == t && t != ""
    ensures ReadValue(s) == if t[0] == ']' then Some((ArrayValue([]), t[1..]))
                            else match ReadItems(t) case Some(vs) => Some((ArrayValue(vs.0), vs.1)) case None => None
  {
  }

  lemma {:induction false} ObjectStep(s: string, t: string)
    requires s != "" && s[0] == '{' && SkipSpaces(s[1..]) == t && t != ""
    ensures ReadValue(s) == if t[0] == '}' then Some((ObjectValue([]), t[1..]))
                            else match ReadFields(t) case Some(fs) => Some((ObjectValue(fs.0), fs.1)) case None => None
  {
  }

  lemma {:induction false} ItemStep(s: string, v: Value, rest: string)
    requires ReadValue(s) == Some((v, rest)) && rest != "" && (rest[0] == ']' || rest[0] == ',')
    ensures ReadItems(s) == if rest[0] == ']' then Some(([v], rest[1..]))
                            else match ReadItems(SkipSpaces(rest[1..]))
                                 case Some(vs) => Some(([v] + vs.0, vs.1))
                                 case None => None
  {
  }

  lemma {:induction false} PairStep(s: string, key: string, after: string, v: Value, rest: string)
    requires s != "" && s[0] == '"' && ReadText(s[1..]) == Some((key, after))
    requires after != "" && after[0] == ':' && ReadValue(SkipSpaces(after[1..])) == Some((v, rest))
    ensures ReadField(s) == Some(((key, v), rest))
  {
  }

  lemma {:induction false} FieldStep(s: string, f: (string, Value), rest: string)
    requires ReadField(s) == Some((f, rest)) && rest != "" && (rest[0] == '}' || rest[0] == ',')
    ensures ReadFields(s) == if rest[0] == '}' then Some(([f], rest[1..]))
                             else match ReadFields(SkipSpaces(rest[1..]))
                                  case Some(fs) => Some(([f] + fs.0, fs.1))
                                  case None => None
  {
  }

  // ── what reads back ──

  /** What may follow a value. */
  predicate Follows(rest: string) {
    rest == "" || rest[0] == ',' || rest[0] == ']' || rest[0] == '}'
  }

  lemma {:induction false} TextReadsBack(s: string, rest: string)
    ensures ReadText(Escape(s) + (['"'] + rest)) == Some((s, rest))
  {
    var tail := ['"'] + rest;
    if s == "" {
      assert Escape(s) + tail == tail && tail[1..] == rest;
    } else {
      TextReadsBack(s[1..], rest);
      CharThenText(s[0], s[1..], tail, rest);
      assert [s[0]] + s[1..] == s;
    }
  }

  lemma {:induction false} PlainStep(s: string, t: string, rest: string)
    requires s != "" && s[0] != '"' && s[0] != '\\' && ReadText(s[1..]) == Some((t, rest))
    ensures ReadText(s) == Some(([s[0]] + t, rest))
  {
  }

  lemma {:induction false} EscapedStep(s: string, c: char, n: nat, t: string, rest: string)
    requires s != "" && s[0] == '\\' && n <= |s| && ReadEscape(s) == Some((c, n)) && ReadText(s[n..]) == Some((t, rest))
    ensures ReadText(s) == Some(([c] + t, rest))
  {
  }

  lemma EscapedFirst(c: char, t: string, tail: string)
    ensures Escape([c] + t) + tail == EscapeChar(c) + (Escape(t) + tail)
    ensures (EscapeChar(c) + (Escape(t) + tail))[0] == EscapeChar(c)[0]
    ensures (EscapeChar(c) + (Escape(t) + tail))[|EscapeChar(c)|..] == Escape(t) + tail
  {
    assert ([c] + t)[1..] == t;
    var e, more := EscapeChar(c), Escape(t) + tail;
    assert (e + more)[0] == e[0] && (e + more)[|e|..] == more;
  }

  lemma CharThenText(c: char, t: string, tail: string, rest: string)
    requires ReadText(Escape(t) + tail) == Some((t, rest))
    ensures ReadText(Escape([c] + t) + tail) == Some(([c] + t, rest))
  {
    var s := EscapeChar(c) + (Escape(t) + tail);
    EscapedFirst(c, t, tail);
    if IsPlain(c) {
      PlainStep(s, t, rest);
    } else {
      CharReadsBack(c, Escape(t) + tail);
      EscapedStep(s, c, |EscapeChar(c)|, t, rest);
    }
  }

  lemma {:induction false} NumberRuns(a: string, rest: string)
    requires forall i | 0 <= i < |a| :: IsNumberChar(a[i])
    requires Follows(rest)
    ensures NumberText(a + rest) == a
    decreases |a|
  {
    if a == "" {
      assert a + rest == rest;
    } else {
      assert (a + rest)[1..] == a[1..] + rest;
      NumberRuns(a[1..], rest);
    }
  }

  lemma {:induction false} NumberReadsBack(a: string, rest: string)
    requires a != "" && (forall i | 0 <= i < |a| :: IsNumberChar(a[i])) && Follows(rest)
    ensures ReadValue(a + rest) == Some((NumberValue(a), rest))
  {
    NumberRuns(a, rest);
    var s := a + rest;
    assert s[0] == a[0] && s[|a|..] == rest;
    assert IsNumberChar(a[0]);
  }

  lemma IntIsNumber(n: int)
    ensures IntStr(n) != "" && forall i | 0 <= i < |IntStr(n)| :: IsNumberChar(IntStr(n)[i])
  {
  }

  lemma {:induction false} NullStep(s: string)
    requires "null" <= s
    ensures ReadValue(s) == Some((NullValue, s[4..]))
  {
  }

  lemma {:induction false} TrueStep(s: string)
    requires "true" <= s
    ensures ReadValue(s) == Some((BoolValue(true), s[4..]))
  {
    assert s[0] == 't';
  }

  lemma {:induction false} FalseStep(s: string)
    requires "false" <= s
    ensures ReadValue(s) == Some((BoolValue(false), s[5..]))
  {
    assert s[0] == 'f';
  }

  lemma WordThen(word: string, rest: string)
    ensures word <= word + rest && (word + rest)[|word|..] == rest
  {
  }

  lemma WordReadsBack(j: Json, rest: string)
    requires j.Null? || j.Bool?
    ensures ReadsBack(j, rest)
  {
    WordThen(Print(j, Fixed), rest);
    if j.Null? {
      NullStep("null" + rest);
    } else if j.b {
      TrueStep("true" + rest);
    } else {
      FalseStep("false" + rest);
    }
  }

  lemma QuoteOpens(text: string, rest: string)
    ensures Quote(text) + rest == ['"'] + (Escape(text) + (['"'] + rest))
    ensures (Quote(text) + rest)[0] == '"' && (Quote(text) + rest)[1..] == Escape(text) + (['"'] + rest)
  {
    var s := ['"'] + (Escape(text) + (['"'] + rest));
    assert Quote(text) + rest == s && s[1..] == Escape(text) + (['"'] + rest);
  }

  lemma QuoteReadsBack(text: string, rest: string)
    ensures ReadValue(Quote(text) + rest) == Some((TextValue(text), rest))
  {
    QuoteOpens(text, rest);
    TextReadsBack(text, rest);
    QuoteStep(Quote(text) + rest, text, rest);
  }

  /** A printed value starts with no space and no closing bracket. */
  lemma PrintStarts(j: Json)
    requires !HasNonFinite(j)
    ensures Print(j, Fixed) != "" && Print(j, Fixed)[0] !in " \t\r\n]}"
  {
    match j
    case Int(n) => IntIsNumber(n);
    case Dec(d) =>
      FixedIsNumber(d);
    case _ =>
  }

  /** After a comma and a space comes what follows them. */
  lemma {:induction false} AfterComma(x: string)
    requires x != "" && x[0] !in " \t\r\n"
    ensures SkipSpaces(x) == x && SkipSpaces((", " + x)[1..]) == x && SkipSpaces((": " + x)[1..]) == x
  {
    assert (", " + x)[1..] == " " + x && (": " + x)[1..] == " " + x && (" " + x)[1..] == x;
  }

  /** What follows item k. */
  lemma ItemsFollow(j: Json, k: nat, rest: string)
    requires j.Array? && k <= |j.items|
    ensures k > 0 ==> Follows(PrintItems(j, k, Fixed) + rest)
  {
    if 0 < k < |j.items| {
      assert PrintItems(j, k, Fixed)[0] == ',';
    }
  }

  lemma FieldsFollow(j: Json, k: nat, rest: string)
    requires j.Object? && k <= |j.fields|
    ensures k > 0 ==> Follows(PrintFields(j, k, Fixed) + rest)
  {
    if 0 < k < |j.fields| {
      assert PrintFields(j, k, Fixed)[0] == ',';
    }
  }

  /** A printed value, and what follows it, reads back. */
  ghost predicate ReadsBack(j: Json, rest: string) {
    ReadValue(Print(j, Fixed) + rest) == Some((Shown(j), rest))
  }

  /** Item k and those after it read back. */
  ghost predicate ItemsRead(j: Json, k: nat, rest: string)
    requires j.Array? && k < |j.items|
  {
    ReadItems(Print(j.items[k], Fixed) + (PrintItems(j, k + 1, Fixed) + rest)) == Some((ShownItems(j, k), rest))
  }

  lemma ClosesWith(close: string, rest: string)
    requires |close| == 1
    ensures (close + rest)[0] == close[0] && (close + rest)[1..] == rest
  {
  }

  lemma {:induction false} ItemsOf(j: Json, k: nat)
    requires j.Array? && k < |j.items|
    ensures ShownItems(j, k) == [Shown(j.items[k])] + ShownItems(j, k + 1)
    ensures k + 1 == |j.items| ==> ShownItems(j, k) == [Shown(j.items[k])] && PrintItems(j, k + 1, Fixed) == "]"
  {
  }

  lemma LastItemReads(j: Json, k: nat, rest: string)
    requires j.Array? && k + 1 == |j.items| && ReadsBack(j.items[k], PrintItems(j, k + 1, Fixed) + rest)
    ensures ItemsRead(j, k, rest)
  {
    ItemsOf(j, k);
    ClosesWith("]", rest);
    ItemStep(Print(j.items[k], Fixed) + ("]" + rest), Shown(j.items[k]), "]" + rest);
  }

  lemma {:induction false} NextItem(j: Json, k: nat, rest: string)
    requires j.Array? && 0 < k < |j.items|
    ensures PrintItems(j, k, Fixed) + rest == ", " + (Print(j.items[k], Fixed) + (PrintItems(j, k + 1, Fixed) + rest))
  {
    ItemThen(j, k, Fixed, rest);
  }

  lemma ItemThenItems(j: Json, k: nat, rest: string)
    requires j.Array? && k + 1 < |j.items| && !HasNonFinite(j.items[k + 1])
    requires ReadsBack(j.items[k], PrintItems(j, k + 1, Fixed) + rest) && ItemsRead(j, k + 1, rest)
    ensures ItemsRead(j, k, rest)
  {
    var next := Print(j.items[k + 1], Fixed) + (PrintItems(j, k + 2, Fixed) + rest);
    PrintStarts(j.items[k + 1]);
    NextItem(j, k + 1, rest);
    AfterComma(next);
    ItemsOf(j, k);
    ItemStep(Print(j.items[k], Fixed) + (", " + next), Shown(j.items[k]), ", " + next);
  }

  lemma {:induction false} ItemsReadBack(j: Json, k: nat, rest: string)
    requires j.Array? && k < |j.items| && !HasNonFinite(j)
    requires forall i | k <= i < |j.items| :: ReadsBack(j.items[i], PrintItems(j, i + 1, Fixed) + rest)
    ensures ItemsRead(j, k, rest)
    decreases |j.items| - k
  {
    if k + 1 == |j.items| {
      LastItemReads(j, k, rest);
    } else {
      ItemsReadBack(j, k + 1, rest);
      ItemThenItems(j, k, rest);
    }
  }

  lemma Opens(bracket: string, body: string, rest: string)
    requires |bracket| == 1
    ensures (bracket + body) + rest == bracket + (body + rest)
    ensures (bracket + (body + rest))[0] == bracket[0] && (bracket + (body + rest))[1..] == body + rest
  {
    var s := bracket + (body + rest);
    assert (bracket + body) + rest == s && s[1..] == body + rest;
  }

  lemma EmptyArrayReads(j: Json, rest: string)
    requires j.Array? && j.items == []
    ensures ReadsBack(j, rest)
  {
    Opens("[", "]", rest);
    ClosesWith("]", rest);
    ArrayStep("[" + ("]" + rest), "]" + rest);
  }

  lemma ArrayReads(j: Json, rest: string)
    requires j.Array? && j.items != [] && !HasNonFinite(j) && ItemsRead(j, 0, rest)
    ensures ReadsBack(j, rest)
  {
    var body := PrintItems(j, 0, Fixed);
    Opens("[", body, rest);
    FirstItem(j, rest);
    PrintStarts(j.items[0]);
    AfterComma(body + rest);
    ArrayStep("[" + (body + rest), body + rest);
  }

  lemma {:induction false} FirstItem(j: Json, rest: string)
    requires j.Array? && j.items != []
    ensures PrintItems(j, 0, Fixed) + rest == Print(j.items[0], Fixed) + (PrintItems(j, 1, Fixed) + rest)
  {
    ItemThen(j, 0, Fixed, rest);
    assert "" + (Print(j.items[0], Fixed) + (PrintItems(j, 1, Fixed) + rest))
        == Print(j.items[0], Fixed) + (PrintItems(j, 1, Fixed) + rest);
  }

  /** Field k and those after it read back. */
  ghost predicate FieldsRead(j: Json, k: nat, rest: string)
    requires j.Object? && k < |j.fields|
  {
    ReadFields(FieldText(j, k, rest)) == Some((ShownFields(j, k), rest))
  }

  lemma FieldReads(key: string, j: Json, rest: string)
    requires ReadsBack(j, rest) && !HasNonFinite(j)
    ensures ReadField(Quote(key) + (": " + (Print(j, Fixed) + rest))) == Some(((key, Shown(j)), rest))
  {
    var value := Print(j, Fixed) + rest;
    QuoteOpens(key, ": " + value);
    TextReadsBack(key, ": " + value);
    PrintStarts(j);
    AfterComma(value);
    PairStep(Quote(key) + (": " + value), key, ": " + value, Shown(j), rest);
  }

  lemma {:induction false} FieldsOf(j: Json, k: nat)
    requires j.Object? && k < |j.fields|
    ensures ShownFields(j, k) == [(j.fields[k].0, Shown(j.fields[k].1))] + ShownFields(j, k + 1)
    ensures k + 1 == |j.fields| ==>
      ShownFields(j, k) == [(j.fields[k].0, Shown(j.fields[k].1))] && PrintFields(j, k + 1, Fixed) == "}"
  {
  }

  /** Field k with what follows it. */
  function FieldText(j: Json, k: nat, rest: string): string
    requires j.Object? && k < |j.fields|
  {
    Quote(j.fields[k].0) + (": " + (Print(j.fields[k].1, Fixed) + (PrintFields(j, k + 1, Fixed) + rest)))
  }

  lemma LastFieldReads(j: Json, k: nat, rest: string)
    requires j.Object? && k + 1 == |j.fields| && !HasNonFinite(j.fields[k].1)
    requires ReadsBack(j.fields[k].1, PrintFields(j, k + 1, Fixed) + rest)
    ensures FieldsRead(j, k, rest)
  {
    FieldsOf(j, k);
    FieldReads(j.fields[k].0, j.fields[k].1, "}" + rest);
    ClosesWith("}", rest);
    FieldStep(FieldText(j, k, rest), (j.fields[k].0, Shown(j.fields[k].1)), "}" + rest);
  }

  lemma FieldTextStarts(j: Json, k: nat, rest: string)
    requires j.Object? && k < |j.fields|
    ensures FieldText(j, k, rest) != "" && FieldText(j, k, rest)[0] == '"'
    ensures PrintFields(j, k, Fixed) + rest == Comma(k) + FieldText(j, k, rest)
  {
    FieldThen(j, k, Fixed, rest);
    QuoteOpens(j.fields[k].0, ": " + (Print(j.fields[k].1, Fixed) + (PrintFields(j, k + 1, Fixed) + rest)));
  }

  lemma FieldThenFields(j: Json, k: nat, rest: string)
    requires j.Object? && k + 1 < |j.fields| && !HasNonFinite(j.fields[k].1)
    requires ReadsBack(j.fields[k].1, PrintFields(j, k + 1, Fixed) + rest) && FieldsRead(j, k + 1, rest)
    ensures FieldsRead(j, k, rest)
  {
    var next := FieldText(j, k + 1, rest);
    FieldReads(j.fields[k].0, j.fields[k].1, PrintFields(j, k + 1, Fixed) + rest);
    FieldTextStarts(j, k + 1, rest);
    AfterComma(next);
    FieldsOf(j, k);
    FieldStep(FieldText(j, k, rest), (j.fields[k].0, Shown(j.fields[k].1)), ", " + next);
  }

  lemma {:induction false} FieldsReadBack(j: Json, k: nat, rest: string)
    requires j.Object? && k < |j.fields| && !HasNonFinite(j)
    requires forall i | k <= i < |j.fields| :: ReadsBack(j.fields[i].1, PrintFields(j, i + 1, Fixed) + rest)
    ensures FieldsRead(j, k, rest)
    decreases |j.fields| - k
  {
    if k + 1 == |j.fields| {
      LastFieldReads(j, k, rest);
    } else {
      FieldsReadBack(j, k + 1, rest);
      FieldThenFields(j, k, rest);
    }
  }

  lemma EmptyObjectReads(j: Json, rest: string)
    requires j.Object? && j.fields == []
    ensures ReadsBack(j, rest)
  {
    Opens("{", "}", rest);
    ClosesWith("}", rest);
    ObjectStep("{" + ("}" + rest), "}" + rest);
  }

  /** An object that has fields. */
  lemma ObjectStarts(j: Json, rest: string)
    requires j.Object? && j.fields != []
    ensures Print(j, Fixed) + rest == "{" + FieldText(j, 0, rest)
    ensures ("{" + FieldText(j, 0, rest))[0] == '{' && ("{" + FieldText(j, 0, rest))[1..] == FieldText(j, 0, rest)
  {
    var text := FieldText(j, 0, rest);
    FieldTextStarts(j, 0, rest);
    assert "" + text == text;
    Opens("{", PrintFields(j, 0, Fixed), rest);
  }

  lemma ObjectReads(j: Json, rest: string)
    requires j.Object? && j.fields != [] && FieldsRead(j, 0, rest)
    ensures ReadsBack(j, rest)
  {
    ObjectStarts(j, rest);
    FieldTextStarts(j, 0, rest);
    AfterComma(FieldText(j, 0, rest));
    ObjectStep("{" + FieldText(j, 0, rest), FieldText(j, 0, rest));
  }

  /** What is printed reads back as the payload: the same nulls, booleans and texts, every
      number as written, the same items and fields in the same order. */
  lemma {:induction false} PrintReadsBack(j: Json, rest: string)
    requires !HasNonFinite(j) && Follows(rest)
    ensures ReadsBack(j, rest)
    decreases j
  {
    match j
    case Int(n) =>
      IntIsNumber(n);
      NumberReadsBack(IntStr(n), rest);
    case Dec(d) =>
      FixedIsNumber(d);
      NumberReadsBack(Fixed(d), rest);
    case Text(s) => QuoteReadsBack(s, rest);
    case Array(items) =>
      forall i | 0 <= i < |items| ensures ReadsBack(items[i], PrintItems(j, i + 1, Fixed) + rest) {
        ItemsFollow(j, i + 1, rest);
        PrintReadsBack(items[i], PrintItems(j, i + 1, Fixed) + rest);
      }
      if items == [] {
        EmptyArrayReads(j, rest);
      } else {
        ItemsReadBack(j, 0, rest);
        ArrayReads(j, rest);
      }
    case Object(fields) =>
      forall i | 0 <= i < |fields| ensures ReadsBack(fields[i].1, PrintFields(j, i + 1, Fixed) + rest) {
        FieldsFollow(j, i + 1, rest);
        PrintReadsBack(fields[i].1, PrintFields(j, i + 1, Fixed) + rest);
      }
      if fields == [] {
        EmptyObjectReads(j, rest);
      } else {
        FieldsReadBack(j, 0, rest);
        ObjectReads(j, rest);
      }
    case _ => WordReadsBack(j, rest);
  }

  /** What the service sends, when it sends it, a JSON reader reads as the payload. */
  lemma DumpsReadsBack(j: Json, mark: Mark)
    requires Clean(j, mark) && !HasNonFinite(j)
    ensures var sent := Dumps(j, mark); sent.Ok? && ReadValue(sent.value) == Some((Shown(j), ""))
  {
    DumpsOutcome(j, mark);
    PrintReadsBack(j, "");
    assert Print(j, Fixed) + "" == Print(j, Fixed);
  }
}
