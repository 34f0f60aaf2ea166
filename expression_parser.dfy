/** Expression parsing (parser/expression.go): recursive descent over a token
    sequence, one binary level per precedence class, each level folding its
    operands to the left. Every function returns the node together with the
    tokens it did not consume. A Go runtime panic on `tokens[0]` of an empty
    slice is the error IndexOutOfRange. */
module ExpressionParser {
  import opened Common
  import opened LexerTypes
  import opened AstTypes
  import opened Ast
  import Buffer

  /** Why parsing stops; the statement parser shares these. */
  datatype ParseError =
    | IndexOutOfRange
    | ExpectedAssign
    | ExpectedCloseParen
    | UnexpectedFactor
    | ExpectedIdentifier
    | ExpectedStart
    | ExpectedPunctuator(punctuator: char)
    | Scan(scanError: Buffer.ScanError)

  datatype Parsed = Parsed(node: Expression, rest: seq<Token>)

  /** The binary levels, loosest first. */
  type Level = l: nat | l < 6

  const LogicalOrLevel: Level := 0
  const LogicalAndLevel: Level := 1
  const EqualityLevel: Level := 2
  const RelationalLevel: Level := 3
  const AdditiveLevel: Level := 4
  const TermLevel: Level := 5
  /** The precedence of factors: tighter than every binary level. */
  const FactorLevel: nat := 6

  /** isValidToken of each level's parser: the operators the precedence
      table puts at that level. */
  predicate IsValidToken(level: Level, t: Token)
  {
    LevelOf(Text(t.value)) == level
  }

  predicate IsUnaryOp(t: Token)
  {
    var s := Text(t.value);
    s == "-" || s == "!" || s == "~"
  }

  predicate IsConstant(t: Token)
  {
    t.tokenType == NumericToken
  }

  /** What is left is a suffix of the tokens: parsing only reads forward. */
  predicate Suffix(tokens: seq<Token>, rest: seq<Token>)
  {
    |rest| <= |tokens| && rest == tokens[|tokens| - |rest|..]
  }

  /** At least one token was read, and what is left is the tokens after it. */
  predicate Consumes(tokens: seq<Token>, rest: seq<Token>)
  {
    |rest| < |tokens| && Suffix(tokens, rest)
  }

  /** A level's loop ends at the end of the tokens or at a token it rejects. */
  predicate Stops(level: Level, rest: seq<Token>)
  {
    |rest| == 0 || !IsValidToken(level, rest[0])
  }

  /** ParseExpression: `id "=" exp` (right-associative) or a logical-or
      expression. An identifier is accepted alone only as the last token;
      followed by anything but "=" it is an error. The assignment node is
      built with the "=" token as its operator. */
  function ParseExpression(tokens: seq<Token>): (r: Result<Parsed, ParseError>)
    ensures r.Ok? ==> Consumes(tokens, r.value.rest)
    decreases |tokens|, 20
  {
    if |tokens| == 0 then Err(IndexOutOfRange)
    else if tokens[0].tokenType == IdentifierToken && |tokens| > 1 then
      if Text(tokens[1].value) != "=" then Err(ExpectedAssign)
      else
        match ParseExpression(tokens[2..])
        case Err(e) => Err(e)
        case Ok(p) => Ok(Parsed(NewAssignExpression(tokens[1], tokens[0], p.node), p.rest))
    else ParseLevel(LogicalOrLevel, tokens)
  }

  /** The operand of a level (parseExpression of its parser): the next
      tighter level, or a factor under the multiplicative level. */
  function ParseOperand(level: Level, tokens: seq<Token>): (r: Result<Parsed, ParseError>)
    ensures r.Ok? ==> Consumes(tokens, r.value.rest)
    decreases |tokens|, 17 - 2 * level
  {
    if level < TermLevel then ParseLevel(level + 1, tokens) else ParseFactor(tokens)
  }

  /** GetExpressionFromParser as a function: one operand, then the fold. */
  function ParseLevel(level: Level, tokens: seq<Token>): (r: Result<Parsed, ParseError>)
    ensures r.Ok? ==> Consumes(tokens, r.value.rest) && Stops(level, r.value.rest)
    decreases |tokens|, 18 - 2 * level
  {
    match ParseOperand(level, tokens)
    case Err(e) => Err(e)
    case Ok(p) => FoldLevel(level, p.node, p.rest)
  }

  /** The loop of GetExpressionFromParser: while the next token is one of
      the level's operators, parse another operand and make the expression so
      far its left child. */
  function FoldLevel(level: Level, exp: Expression, tokens: seq<Token>): (r: Result<Parsed, ParseError>)
    ensures r.Ok? ==> Suffix(tokens, r.value.rest) && Stops(level, r.value.rest)
    decreases |tokens|, 0
  {
    if |tokens| == 0 || !IsValidToken(level, tokens[0]) then Ok(Parsed(exp, tokens))
    else
      match ParseOperand(level, tokens[1..])
      case Err(e) => Err(e)
      case Ok(p) =>
        FoldLevel(level, NewInfixExpression(tokens[0], exp, p.node), p.rest)
  }

  /** ParseFactor: "(" exp ")", a unary operator applied to a factor, a
      numeric constant or an identifier; anything else is an error. */
  function ParseFactor(tokens: seq<Token>): (r: Result<Parsed, ParseError>)
    ensures r.Ok? ==> Consumes(tokens, r.value.rest)
    decreases |tokens|, 1
  {
    if |tokens| == 0 then Err(IndexOutOfRange)
    else
      var t := tokens[0];
      if Text(t.value) == "(" then
        match ParseExpression(tokens[1..])
        case Err(e) => Err(e)
        case Ok(p) =>
          if |p.rest| == 0 then Err(IndexOutOfRange)
          else if Text(p.rest[0].value) != ")" then Err(ExpectedCloseParen)
          else Ok(Parsed(p.node, p.rest[1..]))
      else if IsUnaryOp(t) then
        match ParseFactor(tokens[1..])
        case Err(e) => Err(e)
        case Ok(p) => Ok(Parsed(NewPrefixExpression(t, p.node), p.rest))
      else if IsConstant(t) then Ok(Parsed(NewIntegerLiteral(t), tokens[1..]))
      else if t.tokenType == IdentifierToken then Ok(Parsed(NewIdentifier(t), tokens[1..]))
      else Err(UnexpectedFactor)
  }

  /** GetExpressionFromParser, with its loop over the remaining tokens. */
  method GetExpressionFromParser(level: Level, tokens: seq<Token>) returns (r: Result<Parsed, ParseError>)
    ensures r == ParseLevel(level, tokens)
  {
    var first := ParseOperand(level, tokens);
    if first.Err? {
      return Err(first.error);
    }
    var exp, toks := first.value.node, first.value.rest;
    while true
      invariant FoldLevel(level, exp, toks) == ParseLevel(level, tokens)
      decreases |toks|
    {
      if |toks| == 0 {
        return Ok(Parsed(exp, toks));
      }
      var t := toks[0];
      if !IsValidToken(level, t) {
        break;
      }
      toks := toks[1..];
      var next := ParseOperand(level, toks);
      if next.Err? {
        return Err(next.error);
      }
      exp := NewInfixExpression(t, exp, next.value.node);
      toks := next.value.rest;
    }
    return Ok(Parsed(exp, toks));
  }

  /** An identifier that is not the last token starts an assignment: the
      next token must be "=", and the result assigns to that identifier. */
  lemma IdentifierStartsAssignment(tokens: seq<Token>)
    requires |tokens| >= 2 && tokens[0].tokenType == IdentifierToken
    ensures Text(tokens[1].value) != "=" ==> ParseExpression(tokens) == Err(ExpectedAssign)
    ensures ParseExpression(tokens).Ok? ==>
              var n := ParseExpression(tokens).value.node;
              n.AssignExpression? && n.operator == "=" && n.left.value == Text(tokens[0].value)
  {
  }

  /** What a factor is made of depends on its first token alone. */
  lemma FactorShapes(tokens: seq<Token>)
    requires |tokens| > 0
    ensures var r := ParseFactor(tokens); var t := tokens[0];
            && (Text(t.value) != "(" && IsUnaryOp(t) && r.Ok? ==>
                  r.value.node.PrefixExpression? && r.value.node.operator == Text(t.value))
            && (Text(t.value) != "(" && !IsUnaryOp(t) && IsConstant(t) ==>
                  r == Ok(Parsed(IntegerLiteral(Text(t.value)), tokens[1..])))
            && (Text(t.value) != "(" && !IsUnaryOp(t) && !IsConstant(t) && t.tokenType == IdentifierToken ==>
                  r == Ok(Parsed(IdentifierNode(Identifier(Text(t.value))), tokens[1..])))
            && (Text(t.value) != "(" && !IsUnaryOp(t) && !IsConstant(t) && t.tokenType != IdentifierToken ==>
                  r == Err(UnexpectedFactor))
  {
  }

  // ---------------------------------------------------------------------
  // Precedence and associativity, stated as a round trip: a tree printed
  // with the fewest parentheses parses back to itself.

  /** The precedence table: the level of a binary operator, FactorLevel for
      any other text. */
  function LevelOf(op: string): (l: nat)
    ensures l <= FactorLevel
  {
    if op == "||" then LogicalOrLevel
    else if op == "&&" then LogicalAndLevel
    else if op == "!=" || op == "==" then EqualityLevel
    else if op == "<" || op == ">" || op == "<=" || op == ">=" then RelationalLevel
    else if op == "+" || op == "-" then AdditiveLevel
    else if op == "*" || op == "/" || op == "%" then TermLevel
    else FactorLevel
  }

  /** Trees the expression grammar can spell without identifiers: decimal
      literals, the three unary operators and the binary operators. */
  predicate Arithmetic(e: Expression)
  {
    match e
    case IntegerLiteral(v) => |v| > 0 && AllDigits(v)
    case PrefixExpression(op, x) => (op == "-" || op == "!" || op == "~") && IsByteString(op) && Arithmetic(x)
    case InfixExpression(op, l, r) => LevelOf(op) < FactorLevel && IsByteString(op) && Arithmetic(l) && Arithmetic(r)
    case _ => false
  }

  function Precedence(e: Expression): (p: nat)
    ensures p <= FactorLevel
  {
    if e.InfixExpression? then LevelOf(e.operator) else FactorLevel
  }

  function OperatorToken(op: string): (t: Token)
    requires IsByteString(op)
    ensures Text(t.value) == op && t.tokenType == PunctuatorToken
  {
    Token(PunctuatorToken, Bytes(op))
  }

  /** `e` printed where level `level` is expected: in parentheses when it
      binds more loosely, a left operand at its own level, a right operand
      one level tighter (so that the fold makes it the right child). */
  function Emit(e: Expression, level: nat): (ts: seq<Token>)
    requires Arithmetic(e) && level <= FactorLevel
    ensures |ts| > 0 && ts[0].tokenType != IdentifierToken
    decreases e, if Precedence(e) < level then 1 else 0
  {
    if Precedence(e) < level then [OperatorToken("(")] + Emit(e, 0) + [OperatorToken(")")]
    else
      match e
      case IntegerLiteral(v) => [Token(NumericToken, Bytes(v))]
      case PrefixExpression(op, x) => [OperatorToken(op)] + Emit(x, FactorLevel)
      case InfixExpression(op, l, r) =>
        Emit(l, LevelOf(op)) + [OperatorToken(op)] + Emit(r, LevelOf(op) + 1)
  }

  /** No operator of `level` or of a tighter level comes next. */
  predicate Ends(level: nat, rest: seq<Token>)
  {
    |rest| == 0 || !(level <= LevelOf(Text(rest[0].value)) < FactorLevel)
  }

  function Phase(level: nat, e: Expression): nat
    requires level <= FactorLevel
  {
    if level <= Precedence(e) then 3 * (FactorLevel - level) else 30 + 3 * (FactorLevel - level)
  }

  /** After the printed form of `e`, the fold of `level` holds `e` as its
      expression so far. */
  lemma {:induction false} FoldEmitted(level: Level, e: Expression, rest: seq<Token>)
    requires Arithmetic(e) && Ends(level + 1, rest)
    ensures ParseLevel(level, Emit(e, level) + rest) == FoldLevel(level, e, rest)
    decreases e, Phase(level, e)
  {
    if Precedence(e) == level {
      var op, l, r := e.operator, e.lhs, e.rhs;
      var tail := [OperatorToken(op)] + Emit(r, level + 1) + rest;
      EmitInfixSplits(level, e, rest);
      FoldEmitted(level, l, tail);
      FoldOperator(level, l, r, op, rest);
    } else {
      assert Emit(e, level) == Emit(e, level + 1);
      OperandEmitted(level, e, rest);
      FoldAfterOperand(level, Emit(e, level) + rest, e, rest);
    }
  }

  /** An operation of `level` printed at its own level is its left operand
      at that level, the operator, and its right operand one level tighter. */
  lemma EmitInfixSplits(level: Level, e: Expression, rest: seq<Token>)
    requires Arithmetic(e) && e.InfixExpression? && LevelOf(e.operator) == level
    ensures Emit(e, level) + rest
            == Emit(e.lhs, level) + ([OperatorToken(e.operator)] + Emit(e.rhs, level + 1) + rest)
  {
  }

  /** A level whose operand reads `e` continues with the fold from `e`. */
  lemma FoldAfterOperand(level: Level, tokens: seq<Token>, e: Expression, rest: seq<Token>)
    requires ParseOperand(level, tokens) == Ok(Parsed(e, rest))
    ensures ParseLevel(level, tokens) == FoldLevel(level, e, rest)
  {
  }

  /** One turn of the fold of `level` over `op r`. */
  lemma {:induction false} FoldOperator(level: Level, l: Expression, r: Expression, op: string, rest: seq<Token>)
    requires Arithmetic(r) && IsByteString(op) && LevelOf(op) == level && Ends(level + 1, rest)
    ensures FoldLevel(level, l, [OperatorToken(op)] + Emit(r, level + 1) + rest)
            == FoldLevel(level, InfixExpression(op, l, r), rest)
    decreases r, 50
  {
    var tail := [OperatorToken(op)] + Emit(r, level + 1) + rest;
    assert tail[1..] == Emit(r, level + 1) + rest;
    OperandEmitted(level, r, rest);
    assert NewInfixExpression(tail[0], l, r) == InfixExpression(op, l, r);
  }

  /** The operand parser of `level` reads back the printed form of `e`. */
  lemma {:induction false} OperandEmitted(level: Level, e: Expression, rest: seq<Token>)
    requires Arithmetic(e) && Ends(level + 1, rest)
    ensures ParseOperand(level, Emit(e, level + 1) + rest) == Ok(Parsed(e, rest))
    decreases e, Phase(level + 1, e) + 2
  {
    if level < TermLevel {
      LevelEmitted(level + 1, e, rest);
    } else {
      FactorEmitted(e, rest);
    }
  }

  /** A level parses the printed form of `e` back to `e` when nothing of
      its own or a tighter level follows. */
  lemma {:induction false} LevelEmitted(level: Level, e: Expression, rest: seq<Token>)
    requires Arithmetic(e) && Ends(level, rest)
    ensures ParseLevel(level, Emit(e, level) + rest) == Ok(Parsed(e, rest))
    decreases e, Phase(level, e) + 1
  {
    FoldEmitted(level, e, rest);
  }

  /** A factor parses back to itself whatever follows it. */
  lemma {:induction false} FactorEmitted(e: Expression, rest: seq<Token>)
    requires Arithmetic(e)
    ensures ParseFactor(Emit(e, FactorLevel) + rest) == Ok(Parsed(e, rest))
    decreases e, if e.InfixExpression? then 25 else 1
  {
    match e
    case IntegerLiteral(v) => LiteralEmitted(v, rest);
    case PrefixExpression(op, x) => PrefixEmitted(op, x, rest);
    case InfixExpression(_, _, _) => ParenthesisedEmitted(e, rest);
  }

  lemma LiteralEmitted(v: string, rest: seq<Token>)
    requires Arithmetic(IntegerLiteral(v))
    ensures ParseFactor(Emit(IntegerLiteral(v), FactorLevel) + rest) == Ok(Parsed(IntegerLiteral(v), rest))
  {
    var ts := Emit(IntegerLiteral(v), FactorLevel) + rest;
    assert v[0] != "("[0] && v[0] != "-"[0] && v[0] != "!"[0] && v[0] != "~"[0];
    assert Text(ts[0].value) == v;
  }

  lemma {:induction false} PrefixEmitted(op: string, x: Expression, rest: seq<Token>)
    requires Arithmetic(PrefixExpression(op, x))
    ensures ParseFactor(Emit(PrefixExpression(op, x), FactorLevel) + rest) == Ok(Parsed(PrefixExpression(op, x), rest))
    decreases PrefixExpression(op, x), 0
  {
    var ts := Emit(PrefixExpression(op, x), FactorLevel) + rest;
    assert ts[1..] == Emit(x, FactorLevel) + rest;
    FactorEmitted(x, rest);
  }

  lemma {:induction false} ParenthesisedEmitted(e: Expression, rest: seq<Token>)
    requires Arithmetic(e) && e.InfixExpression?
    ensures ParseFactor(Emit(e, FactorLevel) + rest) == Ok(Parsed(e, rest))
    decreases e, 24
  {
    var ts := Emit(e, FactorLevel) + rest;
    var inner := [OperatorToken(")")] + rest;
    assert ts[1..] == Emit(e, 0) + inner;
    LevelEmitted(LogicalOrLevel, e, inner);
    assert inner[1..] == rest;
  }

  /** Precedence and associativity in one statement: an identifier-free
      tree printed with the fewest parentheses parses back to exactly that
      tree, when what follows is no binary operator. */
  lemma ParseEmitted(e: Expression, rest: seq<Token>)
    requires Arithmetic(e) && Ends(0, rest)
    ensures ParseExpression(Emit(e, 0) + rest) == Ok(Parsed(e, rest))
  {
    LevelEmitted(LogicalOrLevel, e, rest);
  }

  function Literal(v: string): Expression
  {
    IntegerLiteral(v)
  }

  /** `a - b - c` is `(a - b) - c`. */
  lemma SubtractionLeftAssociative(a: string, b: string, c: string)
    requires |a| > 0 && AllDigits(a) && |b| > 0 && AllDigits(b) && |c| > 0 && AllDigits(c)
    ensures var minus := OperatorToken("-");
            ParseExpression([Token(NumericToken, Bytes(a)), minus, Token(NumericToken, Bytes(b)), minus, Token(NumericToken, Bytes(c))])
            == Ok(Parsed(InfixExpression("-", InfixExpression("-", Literal(a), Literal(b)), Literal(c)), []))
  {
    var e := InfixExpression("-", InfixExpression("-", Literal(a), Literal(b)), Literal(c));
    ParseEmitted(e, []);
    assert Emit(InfixExpression("-", Literal(a), Literal(b)), AdditiveLevel)
        == [Token(NumericToken, Bytes(a)), OperatorToken("-"), Token(NumericToken, Bytes(b))];
    assert Emit(e, 0) + [] == [Token(NumericToken, Bytes(a)), OperatorToken("-"), Token(NumericToken, Bytes(b)), OperatorToken("-"), Token(NumericToken, Bytes(c))];
  }

  /** `a + b * c` is `a + (b * c)`. */
  lemma ProductRightOfSum(a: string, b: string, c: string)
    requires |a| > 0 && AllDigits(a) && |b| > 0 && AllDigits(b) && |c| > 0 && AllDigits(c)
    ensures var ta, tb, tc := Token(NumericToken, Bytes(a)), Token(NumericToken, Bytes(b)), Token(NumericToken, Bytes(c));
            ParseExpression([ta, OperatorToken("+"), tb, OperatorToken("*"), tc])
            == Ok(Parsed(InfixExpression("+", Literal(a), InfixExpression("*", Literal(b), Literal(c))), []))
  {
    var ta, tb, tc := Token(NumericToken, Bytes(a)), Token(NumericToken, Bytes(b)), Token(NumericToken, Bytes(c));
    var e := InfixExpression("+", Literal(a), InfixExpression("*", Literal(b), Literal(c)));
    ParseEmitted(e, []);
    assert Emit(InfixExpression("*", Literal(b), Literal(c)), AdditiveLevel + 1) == [tb, OperatorToken("*"), tc];
    assert Emit(e, 0) + [] == [ta, OperatorToken("+"), tb, OperatorToken("*"), tc];
  }

  /** `a * b + c` is `(a * b) + c`. */
  lemma ProductLeftOfSum(a: string, b: string, c: string)
    requires |a| > 0 && AllDigits(a) && |b| > 0 && AllDigits(b) && |c| > 0 && AllDigits(c)
    ensures var ta, tb, tc := Token(NumericToken, Bytes(a)), Token(NumericToken, Bytes(b)), Token(NumericToken, Bytes(c));
            ParseExpression([ta, OperatorToken("*"), tb, OperatorToken("+"), tc])
            == Ok(Parsed(InfixExpression("+", InfixExpression("*", Literal(a), Literal(b)), Literal(c)), []))
  {
    var ta, tb, tc := Token(NumericToken, Bytes(a)), Token(NumericToken, Bytes(b)), Token(NumericToken, Bytes(c));
    var e := InfixExpression("+", InfixExpression("*", Literal(a), Literal(b)), Literal(c));
    ParseEmitted(e, []);
    assert Emit(InfixExpression("*", Literal(a), Literal(b)), AdditiveLevel) == [ta, OperatorToken("*"), tb];
    assert Emit(e, 0) + [] == [ta, OperatorToken("*"), tb, OperatorToken("+"), tc];
  }
}
