/** How the calculator reads operators side by side, and that it reads back every expression that is written out. */
module CalcReading {
  import opened Wrappers
  import opened CalcGrammar

  predicate IsSum(e: Expression) { e.Binary? && (e.op.Add? || e.op.Sub?) }
  predicate IsProduct(e: Expression) { e.Binary? && (e.op.Mul? || e.op.Div?) }

  /**
   The tree has no parentheses left out that the reader would need. Powers go before products, these
   before sums; equals associate to the left, powers too; a sign goes before any operator.
   */
  ghost predicate Ordered(e: Expression) {
    match e
    case Number(_) => true
    case Covered(inner) => Ordered(inner)
    case Unary(_, expr) => Ordered(expr) && !expr.Binary?
    case Binary(left, op, right) =>
      && Ordered(left) && Ordered(right)
      && (match op
          case Add => !IsSum(right)
          case Sub => !IsSum(right)
          case Mul => !IsSum(left) && !IsSum(right) && !IsProduct(right)
          case Div => !IsSum(left) && !IsSum(right) && !IsProduct(right)
          case Pow => !IsSum(left) && !IsProduct(left) && !right.Binary?)
  }

  /** Every number in the tree is one that the parser takes. */
  ghost predicate NumbersTaken(e: Expression) {
    match e
    case Number(text) => ValidNumeral(text) && MarkIsEarly(text)
    case Covered(inner) => NumbersTaken(inner)
    case Unary(_, expr) => NumbersTaken(expr)
    case Binary(left, _, right) => NumbersTaken(left) && NumbersTaken(right)
  }

  lemma {:induction false} RespectsBound(e: Expression, bound: nat)
    ensures Respects(e, bound) <==> Respects(e, 0) && (e.Binary? ==> LeftPower(e.op) >= bound)
  {
  }

  lemma {:induction false} OrderedIff(e: Expression)
    ensures Respects(e, 0) <==> Ordered(e) && NumbersTaken(e)
  {
    match e
    case Number(text) => AcceptedIff(text);
    case Covered(inner) => OrderedIff(inner);
    case Unary(_, expr) =>
      OrderedIff(expr);
      RespectsBound(expr, UNARY);
    case Binary(left, op, right) =>
      OrderedIff(left);
      OrderedIff(right);
      RespectsBound(left, LeftPower(op));
      RespectsBound(right, LeftPower(op) + 1);
  }

  /**
   The parse gives a tree exactly when the tree is spelled by a front part of the tokens, has its
   operators in order, and no operator comes next.
   */
  lemma ParsedIsOrdered(ts: seq<Token>, e: Expression, rest: seq<Token>)
    ensures ParseTokens(ts, 0) == Some(Parsed(e, rest)) <==>
              && ts == Flat(e) + rest && Ordered(e) && NumbersTaken(e)
              && (rest != [] ==> OperatorOf(rest[0]).None?)
  {
    ParseIsTheReading(ts, 0, e, rest);
    OrderedIff(e);
  }

  // An expression written out

  function Spelling(t: Token): string {
    match t
    case Num(run) => run
    case Power => "**"
    case Sym(c) => [c]
  }

  /** The tokens with a blank after each. */
  function Written(ts: seq<Token>, blank: char): string {
    if ts == [] then "" else Spelling(ts[0]) + [blank] + Written(ts[1..], blank)
  }

  ghost predicate Writable(t: Token) {
    match t
    case Num(run) => run != "" && forall i :: 0 <= i < |run| ==> IsNumberChar(run[i])
    case Power => true
    case Sym(c) => c in "+-*/()"
  }

  lemma {:induction false} RunEnds(run: string, s: string)
    requires (forall i :: 0 <= i < |run| ==> IsNumberChar(run[i])) && s != "" && !IsNumberChar(s[0])
    ensures RunLength(run + s) == |run|
  {
    if run == "" {
      assert run + s == s;
    } else {
      RunEnds(run[1..], s);
      assert (run + s)[1..] == run[1..] + s;
    }
  }

  lemma LexOfBlank(blank: char, s: string)
    requires blank in " \t\n\r\U{000C}"
    ensures Lex([blank] + s) == Lex(s) && IsBlank(blank) && !IsNumberChar(blank)
  {
    assert ([blank] + s)[1..] == s;
  }

  lemma LexOfToken(t: Token, after: string)
    requires Writable(t) && after != "" && IsBlank(after[0]) && !IsNumberChar(after[0])
    ensures Lex(Spelling(t) + after) == [t] + Lex(after)
  {
    var whole := Spelling(t) + after;
    match t
    case Num(run) =>
      RunEnds(run, after);
      assert whole[..|run|] == run && whole[|run|..] == after;
    case Power => assert whole[2..] == after;
    case Sym(c) => assert whole[1..] == after;
  }

  lemma LexOfBoth(t: Token, blank: char, s: string)
    requires Writable(t) && blank in " \t\n\r\U{000C}"
    ensures Lex(Spelling(t) + ([blank] + s)) == [t] + Lex(s)
  {
    hide Lex, IsBlank, IsNumberChar, Writable, Spelling;
    LexOfBlank(blank, s);
    LexOfToken(t, [blank] + s);
  }

  lemma WrittenGrows(ts: seq<Token>, blank: char)
    requires ts != []
    ensures Written(ts, blank) == Spelling(ts[0]) + ([blank] + Written(ts[1..], blank))
  {
    hide Spelling;
  }

  /** Whatever blank is between them, written tokens are read back. */
  lemma {:induction false} WrittenIsLexed(ts: seq<Token>, blank: char)
    requires (forall i :: 0 <= i < |ts| ==> Writable(ts[i])) && blank in " \t\n\r\U{000C}"
    ensures Lex(Written(ts, blank)) == ts
  {
    if ts != [] {
      hide Lex, IsBlank, IsNumberChar, Writable, Spelling, Written;
      WrittenGrows(ts, blank);
      WrittenIsLexed(ts[1..], blank);
      LexOfBoth(ts[0], blank, Written(ts[1..], blank));
    } else {
      EmptyIsLexed(blank);
    }
  }

  lemma EmptyIsLexed(blank: char)
    ensures Lex(Written([], blank)) == []
  {
  }

  lemma {:induction false} NumeralChars(s: string)
    requires ValidNumeral(s)
    ensures s != "" && forall i :: 0 <= i < |s| ==> IsNumberChar(s[i])
  {
    forall i | 0 <= i < |s|
      ensures IsNumberChar(s[i])
    {
      if i > MarkAt(s) {
        assert IsDigit(s[i]);
      }
    }
  }

  lemma {:induction false} FlatIsWritable(e: Expression)
    requires NumbersTaken(e)
    ensures forall i :: 0 <= i < |Flat(e)| ==> Writable(Flat(e)[i])
  {
    match e
    case Number(text) => NumeralChars(text);
    case Covered(inner) => FlatIsWritable(inner);
    case Unary(_, expr) => FlatIsWritable(expr);
    case Binary(left, op, right) => FlatIsWritable(left); FlatIsWritable(right);
  }

  /** Every expression, written out with blanks of any kind, is read back as it was: the parser loses nothing. */
  lemma WrittenIsParsed(e: Expression, blank: char)
    requires Ordered(e) && NumbersTaken(e) && blank in " \t\n\r\U{000C}"
    ensures ParseTokens(Lex(Written(Flat(e), blank)), 0) == Some(Parsed(e, []))
  {
    FlatIsWritable(e);
    WrittenIsLexed(Flat(e), blank);
    assert Flat(e) + [] == Flat(e);
    ParsedIsOrdered(Flat(e), e, []);
  }

  // Numerals

  ghost predicate AllDigits(s: string) {
    forall i :: 0 <= i < |s| ==> IsDigit(s[i])
  }

  /** Digits before and after the dot at `i`. */
  ghost predicate DotAt(s: string, i: int) {
    0 <= i < |s| && s[i] == '.' && AllDigits(s[..i]) && AllDigits(s[i + 1..])
  }

  /** Digits with or without one dot, before, between or behind them; a dot alone is none. */
  ghost predicate IsMantissa(s: string) {
    (s != "" && AllDigits(s)) || (|s| > 1 && exists i :: DotAt(s, i))
  }

  ghost predicate DigitsAndDots(s: string) {
    forall i :: 0 <= i < |s| ==> IsDigit(s[i]) || s[i] == '.'
  }

  lemma {:induction false} DotsAndDigits(s: string)
    requires DigitsAndDots(s)
    ensures Digits(s) + Dots(s) == |s| && (Dots(s) == 0 <==> AllDigits(s))
  {
    if s != "" {
      DotsAndDigits(s[1..]);
    }
  }

  lemma {:induction false} OneDot(s: string)
    requires DigitsAndDots(s)
    ensures Dots(s) == 1 <==> exists i :: DotAt(s, i)
  {
    if s != "" {
      OneDot(s[1..]);
      DotsAndDigits(s[1..]);
      if i :| DotAt(s[1..], i) {
        assert s[1..][i + 1..] == s[i + 2..];
        if s[0] != '.' {
          FrontGrows(s, i);
          assert DotAt(s, i + 1);
        }
      }
      if i :| DotAt(s, i) {
        if i > 0 {
          assert s[1..][..i - 1] == s[..i][1..] && s[1..][i..] == s[i + 1..];
          assert DotAt(s[1..], i - 1);
        }
      }
      assert s[0] == '.' && AllDigits(s[1..]) ==> DotAt(s, 0);
    }
  }

  lemma FrontGrows(s: string, i: nat)
    requires s != "" && i < |s| - 1 && AllDigits(s[1..][..i]) && IsDigit(s[0])
    ensures AllDigits(s[..i + 1])
  {
    assert s[..i + 1] == [s[0]] + s[1..][..i];
  }

  /** What the conversion takes: a mantissa, and behind a mark, if there is one, nothing but digits. */
  lemma {:induction false} NumeralIff(s: string)
    ensures ValidNumeral(s) <==>
              var m := MarkAt(s); IsMantissa(s[..m]) && (m < |s| ==> m + 1 < |s| && AllDigits(s[m + 1..]))
  {
    var front := s[..MarkAt(s)];
    if DigitsAndDots(front) {
      DotsAndDigits(front);
      OneDot(front);
    } else {
      assert !IsMantissa(front);
    }
  }

  /** The digits, as they are written. */
  ghost predicate Figures(s: string) {
    forall i :: 0 <= i < |s| ==> s[i] in "0123456789"
  }

  lemma {:induction false} NoMark(s: string, t: string)
    requires (forall i :: 0 <= i < |s| ==> s[i] in "0123456789.") && (t == "" || t[0] in "eE")
    ensures MarkAt(s + t) == |s|
  {
    assert forall i :: 0 <= i < |s| ==> (s + t)[i] == s[i];
    if t != "" {
      assert (s + t)[|s|] == t[0] && IsMark(t[0]);
    }
  }

  lemma FiguresAreDigits(s: string)
    requires Figures(s)
    ensures AllDigits(s) && forall i :: 0 <= i < |s| ==> s[i] in "0123456789."
  {
  }

  /** Decimals of any length are taken, with the dot before, between or behind the digits or without it. */
  lemma DecimalsAreTaken(whole: string, fraction: string)
    requires Figures(whole) && Figures(fraction) && whole + fraction != ""
    ensures whole != "" ==> Accepted(whole)
    ensures Accepted(whole + "." + fraction)
  {
    FiguresAreDigits(whole);
    FiguresAreDigits(fraction);
    WholeIsTaken(whole);
    var s := whole + "." + fraction;
    hide Figures, AllDigits, ValidNumeral;
    assert s[..|whole|] == whole && s[|whole| + 1..] == fraction && s[|whole|] == '.';
    assert DotAt(s, |whole|);
    NumeralWithoutMark(s);
  }

  lemma WholeIsTaken(s: string)
    requires Figures(s)
    ensures s != "" ==> Accepted(s)
  {
    FiguresAreDigits(s);
    if s != "" {
      assert IsMantissa(s);
      NumeralWithoutMark(s);
    }
  }

  lemma NumeralWithoutMark(s: string)
    requires IsMantissa(s) && forall i :: 0 <= i < |s| ==> s[i] in "0123456789."
    ensures Accepted(s)
  {
    NoMark(s, "");
    assert s + "" == s && s[..|s|] == s;
    NumeralIff(s);
    assert MarkIsEarly(s);
    AcceptedIff(s);
  }

  /** An exponent right after one digit is taken, with either mark. */
  lemma ExponentIsTaken(digit: char, mark: char, exponent: string)
    requires digit in "0123456789" && mark in "eE" && Figures(exponent) && exponent != ""
    ensures Accepted([digit, mark] + exponent)
  {
    var s := [digit, mark] + exponent;
    FiguresAreDigits(exponent);
    NoMark([digit], [mark] + exponent);
    assert [digit] + ([mark] + exponent) == s && s[..1] == [digit] && s[2..] == exponent;
    assert IsMantissa([digit]);
    NumeralIff(s);
    assert MarkIsEarly(s) by { assert forall i :: 2 <= i < |s| ==> IsDigit(s[i]); }
    AcceptedIff(s);
  }

  /** Any other character is refused where an operand has to begin. */
  lemma StrangeIsRefused(c: char, s: string, bound: nat)
    requires c !in "0123456789.eE+-(" && c !in " \t\n\r\U{000C}"
    ensures ParseTokens(Lex([c] + s), bound).None?
  {
    assert !IsBlank(c) && !IsNumberChar(c);
    var ts := Lex([c] + s);
    assert ts != [] && (ts[0] == Power || ts[0] == Sym(c));
  }
}
