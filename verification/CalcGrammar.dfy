/** The calculator's language: tokens, trees that respect the binding powers, and the parse of a token sequence. */
module CalcGrammar {
  import opened Wrappers

  datatype UnaryOperator = Neg | Pos
  datatype BinaryOperator = Pow | Mul | Div | Add | Sub

  /** An expression; a number is kept as the characters it was parsed from. */
  datatype Expression =
    | Number(text: string)
    | Covered(inner: Expression)
    | Binary(left: Expression, op: BinaryOperator, right: Expression)
    | Unary(sign: UnaryOperator, expr: Expression)

  /** A run of number characters, the operator `**`, or any other character that is not blank. */
  datatype Token = Num(run: string) | Power | Sym(c: char)

  datatype Parsed = Parsed(e: Expression, rest: seq<Token>)

  // Characters

  predicate IsBlank(c: char) { c == ' ' || c == '\t' || c == '\n' || c == '\r' || c == 12 as char }
  predicate IsDigit(c: char) { '0' <= c <= '9' }
  predicate IsMark(c: char) { c == 'e' || c == 'E' }
  predicate IsNumberChar(c: char) { IsDigit(c) || c == '.' || IsMark(c) }

  // Numerals

  /** The length of the run of number characters in front. */
  function RunLength(s: string): (n: nat)
    ensures n <= |s| && (forall i :: 0 <= i < n ==> IsNumberChar(s[i])) && (n < |s| ==> !IsNumberChar(s[n]))
  {
    if s == "" || !IsNumberChar(s[0]) then 0 else 1 + RunLength(s[1..])
  }

  /**
   What is handed to the conversion for a run of number characters: an exponent mark that follows any
   character but the first is there twice, once when it is seen ahead and once when it is read.
   */
  function TextOf(run: string): string {
    if |run| <= 2 then run
    else TextOf(run[..|run| - 1]) + (if IsMark(run[|run| - 1]) then [run[|run| - 1]] else []) + [run[|run| - 1]]
  }

  function Digits(s: string): nat {
    if s == "" then 0 else Digits(s[1..]) + if IsDigit(s[0]) then 1 else 0
  }

  function Dots(s: string): nat {
    if s == "" then 0 else Dots(s[1..]) + if s[0] == '.' then 1 else 0
  }

  /** The position of the first exponent mark, or the length. */
  function MarkAt(s: string): (m: nat)
    ensures m <= |s| && (forall i :: 0 <= i < m ==> !IsMark(s[i])) && (m < |s| ==> IsMark(s[m]))
  {
    if s == "" || IsMark(s[0]) then 0 else 1 + MarkAt(s[1..])
  }

  /** A number without sign as the conversion accepts it: digits with at most one dot, and digits after a mark. */
  predicate ValidNumeral(s: string) {
    var m := MarkAt(s);
    && Digits(s[..m]) >= 1 && Dots(s[..m]) <= 1
    && (forall i :: 0 <= i < m ==> IsDigit(s[i]) || s[i] == '.')
    && (m < |s| ==> m + 1 < |s| && forall i :: m < i < |s| ==> IsDigit(s[i]))
  }

  /** The runs the parser takes as numbers. */
  predicate Accepted(run: string) { ValidNumeral(TextOf(run)) }

  ghost predicate MarkIsEarly(run: string) {
    forall i :: 2 <= i < |run| ==> !IsMark(run[i])
  }

  lemma {:induction false} TextIsRun(run: string)
    requires MarkIsEarly(run)
    ensures TextOf(run) == run
  {
    if |run| > 2 {
      TextIsRun(run[..|run| - 1]);
    }
  }

  /** Two marks side by side. */
  ghost predicate Doubled(s: string, i: int) {
    0 <= i < |s| - 1 && IsMark(s[i]) && IsMark(s[i + 1])
  }

  lemma {:induction false} LateMarkIsDoubled(run: string) returns (i: int)
    requires !MarkIsEarly(run)
    ensures Doubled(TextOf(run), i)
  {
    var n := |run| - 1;
    if IsMark(run[n]) {
      i := |TextOf(run[..n])|;
    } else {
      i := LateMarkIsDoubled(run[..n]);
    }
  }

  /**
   A run is taken as a number exactly when it is one and its exponent mark, if any, comes right after
   its first character; and then the number is the run as it was written.
   */
  lemma {:induction false} AcceptedIff(run: string)
    ensures Accepted(run) <==> ValidNumeral(run) && MarkIsEarly(run)
    ensures Accepted(run) ==> TextOf(run) == run
  {
    if MarkIsEarly(run) {
      TextIsRun(run);
    } else {
      var i := LateMarkIsDoubled(run);
      DoubledIsInvalid(TextOf(run), i);
    }
  }

  lemma {:induction false} DoubledIsInvalid(s: string, i: int)
    requires Doubled(s, i)
    ensures !ValidNumeral(s)
  {
    var m := MarkAt(s);
    assert m <= i;
    assert !IsDigit(s[i + 1]);
  }

  /** An exponent after two digits is refused. */
  lemma {:induction false} LateExponentIsRefused()
    ensures ValidNumeral("12e5") && !Accepted("12e5")
  {
    var s := "12e5";
    assert MarkAt(s) == 2 by {
      assert s[1..] == "2e5" && s[1..][1..] == "e5";
    }
    assert s[..2] == "12" && "12"[1..] == "2" && "2"[1..] == "";
    assert !MarkIsEarly(s);
    AcceptedIff(s);
  }

  // Tokens

  function Lex(s: string): seq<Token> {
    if s == "" then []
    else if IsBlank(s[0]) then Lex(s[1..])
    else if IsNumberChar(s[0]) then
      var n := RunLength(s);
      assert n > 0;
      [Num(s[..n])] + Lex(s[n..])
    else if s[0] == '*' && |s| > 1 && s[1] == '*' then [Power] + Lex(s[2..])
    else [Sym(s[0])] + Lex(s[1..])
  }

  function OperatorOf(t: Token): Option<BinaryOperator> {
    match t
    case Num(_) => None
    case Power => Some(Pow)
    case Sym(c) =>
      if c == '*' then Some(Mul)
      else if c == '/' then Some(Div)
      else if c == '+' then Some(Add)
      else if c == '-' then Some(Sub)
      else None
  }

  function TokenOf(op: BinaryOperator): (t: Token)
    ensures OperatorOf(t) == Some(op)
  {
    match op
    case Pow => Power
    case Mul => Sym('*')
    case Div => Sym('/')
    case Add => Sym('+')
    case Sub => Sym('-')
  }

  function SignToken(op: UnaryOperator): Token {
    match op
    case Neg => Sym('-')
    case Pos => Sym('+')
  }

  /** A run that ends in an exponent mark is no number, so an exponent with a sign is always refused. */
  lemma {:induction false} SignedExponentIsRefused(s: string, bound: nat)
    requires RunLength(s) > 0 && IsMark(s[RunLength(s) - 1])
    ensures ParseTokens(Lex(s), bound).None?
  {
    var run := s[..RunLength(s)];
    MarkedEndIsInvalid(run);
    AcceptedIff(run);
    assert Lex(s)[0] == Num(run);
  }

  lemma {:induction false} MarkedEndIsInvalid(run: string)
    requires run != "" && IsMark(run[|run| - 1])
    ensures !ValidNumeral(run)
  {
    assert !IsDigit(run[|run| - 1]);
  }

  /** A number with its mark right after the first character, refused because the mark is followed by a sign. */
  lemma {:induction false} SignedExponent()
    ensures ParseTokens(Lex("1e-5"), 0).None?
  {
    var s := "1e-5";
    assert s[1..] == "e-5" && s[1..][1..] == "-5";
    SignedExponentIsRefused(s, 0);
  }

  // Binding powers

  function LeftPower(op: BinaryOperator): (p: nat)
    ensures 1 <= p <= 5
  {
    match op
    case Pow => 5
    case Mul => 3
    case Div => 3
    case Add => 1
    case Sub => 1
  }

  const UNARY: nat := 7

  /** The tokens of a tree, from left to right. */
  function Flat(e: Expression): seq<Token> {
    match e
    case Number(text) => [Num(text)]
    case Covered(inner) => [Sym('(')] + Flat(inner) + [Sym(')')]
    case Binary(left, op, right) => Flat(left) + [TokenOf(op)] + Flat(right)
    case Unary(sign, expr) => [SignToken(sign)] + Flat(expr)
  }

  /**
   The tree respects the binding powers: every operator in it is at least as strong as the bound asks,
   binds its left operand at its own power and its right operand one above, so that equals associate to
   the left. Numbers are runs the parser takes.
   */
  ghost predicate Respects(e: Expression, bound: nat) {
    match e
    case Number(text) => Accepted(text)
    case Covered(inner) => Respects(inner, 0)
    case Binary(left, op, right) =>
      LeftPower(op) >= bound && Respects(left, LeftPower(op)) && Respects(right, LeftPower(op) + 1)
    case Unary(_, expr) => Respects(expr, UNARY)
  }

  /** The next token is no operator as strong as the bound. */
  ghost predicate Stops(ts: seq<Token>, bound: nat) {
    ts != [] && OperatorOf(ts[0]).Some? ==> LeftPower(OperatorOf(ts[0]).value) < bound
  }

  /** The tree reads a front part of the tokens and leaves the rest. */
  ghost predicate Reads(ts: seq<Token>, bound: nat, e: Expression, rest: seq<Token>) {
    ts == Flat(e) + rest && Respects(e, bound) && Stops(rest, bound)
  }

  // The parse of a token sequence

  function ParseTokens(ts: seq<Token>, bound: nat): (r: Option<Parsed>)
    ensures r.Some? ==> |r.value.rest| < |ts|
    decreases |ts|, 2
  {
    var p := Operand(ts);
    if p.None? then None else Operators(p.value.e, p.value.rest, bound)
  }

  function Operand(ts: seq<Token>): (r: Option<Parsed>)
    ensures r.Some? ==> |r.value.rest| < |ts|
    decreases |ts|, 0
  {
    if ts == [] then None
    else if ts[0].Num? then
      if Accepted(ts[0].run) then Some(Parsed(Number(TextOf(ts[0].run)), ts[1..])) else None
    else if ts[0] == Sym('+') || ts[0] == Sym('-') then
      var p := ParseTokens(ts[1..], UNARY);
      if p.None? then None
      else Some(Parsed(Unary(if ts[0] == Sym('+') then Pos else Neg, p.value.e), p.value.rest))
    else if ts[0] == Sym('(') then
      var p := ParseTokens(ts[1..], 0);
      if p.None? || p.value.rest == [] || p.value.rest[0] != Sym(')') then None
      else Some(Parsed(Covered(p.value.e), p.value.rest[1..]))
    else None
  }

  function Operators(lhs: Expression, ts: seq<Token>, bound: nat): (r: Option<Parsed>)
    ensures r.Some? ==> |r.value.rest| <= |ts|
    decreases |ts|, 1
  {
    if ts == [] || OperatorOf(ts[0]).None? || LeftPower(OperatorOf(ts[0]).value) < bound then Some(Parsed(lhs, ts))
    else
      var op := OperatorOf(ts[0]).value;
      var p := ParseTokens(ts[1..], LeftPower(op) + 1);
      if p.None? then None else Operators(Binary(lhs, op, p.value.e), p.value.rest, bound)
  }

  // Soundness: what the parse gives reads the tokens

  lemma {:induction false} ParseReads(ts: seq<Token>, bound: nat)
    requires ParseTokens(ts, bound).Some?
    ensures var r := ParseTokens(ts, bound).value; Reads(ts, bound, r.e, r.rest)
    decreases |ts|, 2
  {
    var p := Operand(ts).value;
    OperandReads(ts, bound);
    OperatorsRead(p.e, p.rest, bound);
  }

  lemma {:induction false} OperandReads(ts: seq<Token>, bound: nat)
    requires Operand(ts).Some?
    ensures var r := Operand(ts).value; ts == Flat(r.e) + r.rest && !r.e.Binary? && Respects(r.e, bound)
    decreases |ts|, 0
  {
    if ts[0].Num? {
      AcceptedIff(ts[0].run);
    } else if ts[0] == Sym('(') {
      ParseReads(ts[1..], 0);
      var p := ParseTokens(ts[1..], 0).value;
      assert ts == [Sym('(')] + ts[1..] && p.rest == [Sym(')')] + p.rest[1..];
    } else {
      ParseReads(ts[1..], UNARY);
      assert ts == [ts[0]] + ts[1..];
    }
  }

  /** What has been read so far can stand to the left of the next operator. */
  ghost predicate CanBeLeft(lhs: Expression, ts: seq<Token>) {
    ts != [] && OperatorOf(ts[0]).Some? && lhs.Binary? ==> LeftPower(OperatorOf(ts[0]).value) <= LeftPower(lhs.op)
  }

  lemma {:induction false} OperatorsRead(lhs: Expression, ts: seq<Token>, bound: nat)
    requires Operators(lhs, ts, bound).Some? && Respects(lhs, bound) && CanBeLeft(lhs, ts)
    ensures var r := Operators(lhs, ts, bound).value;
      Flat(lhs) + ts == Flat(r.e) + r.rest && Respects(r.e, bound) && Stops(r.rest, bound)
    decreases |ts|, 1
  {
    if ts != [] && OperatorOf(ts[0]).Some? && LeftPower(OperatorOf(ts[0]).value) >= bound {
      var op := OperatorOf(ts[0]).value;
      var p := ParseTokens(ts[1..], LeftPower(op) + 1).value;
      ParseReads(ts[1..], LeftPower(op) + 1);
      Extended(lhs, ts, p.e, p.rest, bound);
      hide Respects, Flat;
      OperatorsRead(Binary(lhs, op, p.e), p.rest, bound);
    }
  }

  /** One more operator and its right operand. */
  lemma {:induction false} Extended(lhs: Expression, ts: seq<Token>, right: Expression, rest: seq<Token>, bound: nat)
    requires ts != [] && OperatorOf(ts[0]).Some? && LeftPower(OperatorOf(ts[0]).value) >= bound
    requires Respects(lhs, bound) && CanBeLeft(lhs, ts)
    requires Reads(ts[1..], LeftPower(OperatorOf(ts[0]).value) + 1, right, rest)
    ensures var e := Binary(lhs, OperatorOf(ts[0]).value, right);
      Flat(e) + rest == Flat(lhs) + ts && Respects(e, bound) && CanBeLeft(e, rest)
  {
    var op := OperatorOf(ts[0]).value;
    TokenOfOperator(ts[0]);
    assert ts == [TokenOf(op)] + (Flat(right) + rest);
    assert Flat(Binary(lhs, op, right)) == Flat(lhs) + [TokenOf(op)] + Flat(right);
    assert Respects(lhs, LeftPower(op));
  }

  lemma {:induction false} TokenOfOperator(t: Token)
    requires OperatorOf(t).Some?
    ensures TokenOf(OperatorOf(t).value) == t
  {
  }

  // Completeness: a tree that reads the tokens is the one the parse gives

  lemma {:induction false} RespectsLess(e: Expression, bound: nat, less: nat)
    requires Respects(e, bound) && less <= bound
    ensures Respects(e, less)
  {
  }

  lemma {:induction false} TreeIsParsed(e: Expression, bound: nat, rest: seq<Token>)
    requires Respects(e, bound) && CanBeLeft(e, rest)
    ensures ParseTokens(Flat(e) + rest, bound) == Operators(e, rest, bound)
    decreases e, 1
  {
    match e
    case Binary(left, op, right) =>
      var p := LeftPower(op);
      var ts := [TokenOf(op)] + (Flat(right) + rest);
      assert Flat(e) + rest == Flat(left) + ts;
      RespectsLess(left, p, bound);
      TreeIsParsed(left, bound, ts);
      TreeIsParsed(right, p + 1, rest);
      assert ts[1..] == Flat(right) + rest;
    case Number(_) => OperandIsParsed(e, rest);
    case Covered(_) => OperandIsParsed(e, rest);
    case Unary(_, _) => OperandIsParsed(e, rest);
  }

  lemma {:induction false} OperandIsParsed(e: Expression, rest: seq<Token>)
    requires !e.Binary? && Respects(e, 0)
    ensures Operand(Flat(e) + rest) == Some(Parsed(e, rest))
    decreases e, 0
  {
    match e
    case Number(text) =>
      AcceptedIff(text);
      assert (Flat(e) + rest)[1..] == rest;
    case Covered(inner) =>
      var after := [Sym(')')] + rest;
      TreeIsParsed(inner, 0, after);
      CoveredFlat(inner, rest);
      assert Operators(inner, after, 0) == Some(Parsed(inner, after));
    case Unary(sign, expr) =>
      TreeIsParsed(expr, UNARY, rest);
      assert (Flat(e) + rest)[1..] == Flat(expr) + rest;
  }

  lemma {:induction false} CoveredFlat(inner: Expression, rest: seq<Token>)
    ensures var ts := Flat(Covered(inner)) + rest; var after := [Sym(')')] + rest;
      ts[0] == Sym('(') && ts[1..] == Flat(inner) + after && after[1..] == rest
  {
  }

  /** The parse gives a tree exactly when the tree reads the tokens; so there is at most one such tree. */
  lemma {:induction false} ParseIsTheReading(ts: seq<Token>, bound: nat, e: Expression, rest: seq<Token>)
    ensures ParseTokens(ts, bound) == Some(Parsed(e, rest)) <==> Reads(ts, bound, e, rest)
  {
    if ParseTokens(ts, bound) == Some(Parsed(e, rest)) {
      ParseReads(ts, bound);
    }
    if Reads(ts, bound, e, rest) {
      TreeIsParsed(e, bound, rest);
    }
  }

  lemma {:induction false} ReadingIsUnique(ts: seq<Token>, bound: nat, e: Expression, rest: seq<Token>, e': Expression, rest': seq<Token>)
    requires Reads(ts, bound, e, rest) && Reads(ts, bound, e', rest')
    ensures e == e' && rest == rest'
  {
    ParseIsTheReading(ts, bound, e, rest);
    ParseIsTheReading(ts, bound, e', rest');
  }
}
