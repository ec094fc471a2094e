/** The parser of the calculator as it runs: a buffer consumed in place by two loops and their recursive calls. */
module CalcParser {
  import opened Wrappers
  import opened CalcGrammar

  datatype Result = Ok(e: Expression) | Err

  class Buffer {
    var rest: string

    constructor (s: string)
      ensures rest == s
    {
      rest := s;
    }

    method Next() returns (c: Option<char>)
      modifies this
      ensures old(rest) == "" ==> c == None && rest == ""
      ensures old(rest) != "" ==> c == Some(old(rest)[0]) && rest == old(rest)[1..]
    {
      if rest == "" {
        return None;
      }
      c := Some(rest[0]);
      rest := rest[1..];
    }

    function Get(i: nat): (c: Option<char>)
      reads this
      ensures c == if i < |rest| then Some(rest[i]) else None
    {
      if i < |rest| then Some(rest[i]) else None
    }
  }

  ghost predicate StartsSolid(s: string) {
    s == "" || !IsBlank(s[0])
  }

  /** The method has done what the parse of the tokens says, and stands before no blank. */
  ghost predicate Agrees(r: Result, left: string, p: Option<Parsed>) {
    match p
    case None => r == Err
    case Some(x) => r == Ok(x.e) && Lex(left) == x.rest && StartsSolid(left)
  }

  // The tokens seen from the characters in front

  lemma {:induction false} LexSym(s: string)
    requires s != "" && !IsBlank(s[0]) && !IsNumberChar(s[0]) && s[0] != '*'
    ensures Lex(s) == [Sym(s[0])] + Lex(s[1..]) && Lex(s)[1..] == Lex(s[1..])
  {
  }

  lemma {:induction false} LexClose(s: string)
    requires StartsSolid(s)
    ensures (Lex(s) != [] && Lex(s)[0] == Sym(')')) <==> (s != "" && s[0] == ')')
    ensures s != "" && s[0] == ')' ==> Lex(s)[1..] == Lex(s[1..])
  {
  }

  lemma {:induction false} LexOperator(s: string, op: BinaryOperator)
    requires s != "" && match op
      case Pow => s[0] == '*' && |s| > 1 && s[1] == '*'
      case Mul => s[0] == '*' && !(|s| > 1 && s[1] == '*')
      case Div => s[0] == '/'
      case Add => s[0] == '+'
      case Sub => s[0] == '-'
    ensures Lex(s) != [] && OperatorOf(Lex(s)[0]) == Some(op)
    ensures Lex(s)[1..] == Lex(s[if op == Pow then 2 else 1..])
  {
  }

  lemma {:induction false} LexNoOperator(s: string)
    requires StartsSolid(s) && (s == "" || s[0] !in "*/+-")
    ensures Lex(s) == [] || OperatorOf(Lex(s)[0]).None?
  {
  }

  lemma {:induction false} LexNumber(s: string)
    requires s != "" && IsNumberChar(s[0])
    ensures var n := RunLength(s); Lex(s) == [Num(s[..n])] + Lex(s[n..]) && Lex(s)[1..] == Lex(s[n..])
  {
  }

  /** What has been collected once `k` characters of the run are consumed: a mark ahead is already there. */
  ghost function TextSoFar(run: string, k: nat): string
    requires k <= |run|
  {
    TextOf(run[..k]) + if 2 <= k < |run| && IsMark(run[k]) then [run[k]] else []
  }

  lemma {:induction false} TextGrows(run: string, k: nat)
    requires 1 <= k < |run|
    ensures TextSoFar(run, k + 1) ==
      TextSoFar(run, k) + [run[k]] + if k + 1 < |run| && IsMark(run[k + 1]) then [run[k + 1]] else []
  {
    assert run[..k + 1][..k] == run[..k];
    if k == 1 {
      assert run[..2] == run[..1] + [run[1]];
    }
  }

  method Parse(bytes: Buffer, binding_power: nat) returns (r: Result)
    modifies bytes
    ensures Agrees(r, bytes.rest, ParseTokens(Lex(old(bytes.rest)), binding_power))
    ensures |bytes.rest| <= |old(bytes.rest)|
    decreases |bytes.rest|, 2
  {
    var lhs := ParseOperand(bytes);
    if lhs.Err? {
      return Err;
    }
    r := ParseOperators(bytes, lhs.e, binding_power);
  }

  /** The first loop: blanks, then a signed, covered or plain operand. */
  method ParseOperand(bytes: Buffer) returns (r: Result)
    modifies bytes
    ensures match Operand(Lex(old(bytes.rest)))
      case None => r == Err
      case Some(x) => r == Ok(x.e) && Lex(bytes.rest) == x.rest
    ensures |bytes.rest| <= |old(bytes.rest)|
    decreases |bytes.rest|, 1
  {
    var peek := bytes.Get(0);
    while peek.Some? && IsBlank(peek.value)
      invariant peek == bytes.Get(0) && |bytes.rest| <= |old(bytes.rest)|
      invariant Lex(bytes.rest) == Lex(old(bytes.rest))
      decreases |bytes.rest|
    {
      var _ := bytes.Next();
      peek := bytes.Get(0);
    }
    match peek
    case None => return Err;
    case Some(c) =>
      if c == '+' || c == '-' {
        r := ParseSigned(bytes, if c == '+' then Pos else Neg);
      } else if c == '(' {
        r := ParseCovered(bytes);
      } else if IsNumberChar(c) {
        LexNumber(bytes.rest);
        var number := ReadNumber(bytes);
        r := if ValidNumeral(number) then Ok(Number(number)) else Err;
      } else {
        r := Err;
      }
  }

  /** A sign, then an operand bound more strongly than any operator. */
  method ParseSigned(bytes: Buffer, sign: UnaryOperator) returns (r: Result)
    requires bytes.rest != "" && bytes.rest[0] == if sign == Pos then '+' else '-'
    modifies bytes
    ensures match Operand(Lex(old(bytes.rest)))
      case None => r == Err
      case Some(x) => r == Ok(x.e) && Lex(bytes.rest) == x.rest
    ensures |bytes.rest| <= |old(bytes.rest)|
    decreases |bytes.rest|, 0
  {
    LexSym(bytes.rest);
    var _ := bytes.Next();
    var expr := Parse(bytes, UNARY);
    r := if expr.Ok? then Ok(Unary(sign, expr.e)) else Err;
  }

  /** An opening parenthesis, an expression, and the parenthesis that closes it. */
  method ParseCovered(bytes: Buffer) returns (r: Result)
    requires bytes.rest != "" && bytes.rest[0] == '('
    modifies bytes
    ensures match Operand(Lex(old(bytes.rest)))
      case None => r == Err
      case Some(x) => r == Ok(x.e) && Lex(bytes.rest) == x.rest
    ensures |bytes.rest| <= |old(bytes.rest)|
    decreases |bytes.rest|, 0
  {
    LexSym(bytes.rest);
    var _ := bytes.Next();
    var expr := Parse(bytes, 0);
    if expr.Err? {
      return Err;
    }
    LexClose(bytes.rest);
    var close := bytes.Next();
    if close != Some(')') {
      return Err;
    }
    return Ok(Covered(expr.e));
  }

  /** The characters handed to the conversion, and the buffer after the run they come from. */
  method ReadNumber(bytes: Buffer) returns (number: string)
    requires bytes.rest != "" && IsNumberChar(bytes.rest[0])
    modifies bytes
    ensures var n := RunLength(old(bytes.rest));
      n > 0 && number == TextOf(old(bytes.rest)[..n]) && bytes.rest == old(bytes.rest)[n..]
  {
    ghost var run := bytes.rest[..RunLength(bytes.rest)];
    number := [bytes.rest[0]];
    var _ := bytes.Next();
    ghost var k := 1;
    while bytes.Get(0).Some? && IsNumberChar(bytes.Get(0).value)
      invariant 1 <= k <= |run| && bytes.rest == old(bytes.rest)[k..] && number == TextSoFar(run, k)
      decreases |bytes.rest|
    {
      TextGrows(run, k);
      var c := bytes.Next();
      number := number + [c.value];
      var n := bytes.Get(0);
      if n.Some? && IsMark(n.value) {
        number := number + [n.value];
        n := bytes.Get(0);
        if n == Some('-') || n == Some('+') {
          assert false;  // it still is the mark
        }
      }
      k := k + 1;
    }
    assert k == |run| && run[..k] == run;
  }

  /** The second loop: operators at least as strong as the bound, and their right operands. */
  method ParseOperators(bytes: Buffer, first: Expression, binding_power: nat) returns (r: Result)
    modifies bytes
    ensures Agrees(r, bytes.rest, Operators(first, Lex(old(bytes.rest)), binding_power))
    ensures |bytes.rest| <= |old(bytes.rest)|
    decreases |bytes.rest|, 1
  {
    var lhs := first;
    while true
      invariant |bytes.rest| <= |old(bytes.rest)|
      invariant Operators(lhs, Lex(bytes.rest), binding_power) == Operators(first, Lex(old(bytes.rest)), binding_power)
      decreases |bytes.rest|
    {
      var op;
      match bytes.Get(0)
      case None => break;
      case Some(c) =>
        if c == '*' {
          op := if bytes.Get(1) == Some('*') then Pow else Mul;
        } else if c == '/' {
          op := Div;
        } else if c == '+' {
          op := Add;
        } else if c == '-' {
          op := Sub;
        } else if IsBlank(c) {
          var _ := bytes.Next();
          continue;
        } else {
          LexNoOperator(bytes.rest);
          break;
        }
      LexOperator(bytes.rest, op);
      if LeftPower(op) < binding_power {
        break;
      }
      var _ := bytes.Next();
      if op == Pow {
        var _ := bytes.Next();
      }
      var rhs := Parse(bytes, LeftPower(op) + 1);
      if rhs.Err? {
        return Err;
      }
      lhs := Binary(lhs, op, rhs.e);
    }
    return Ok(lhs);
  }
}
