/** The statement parser (parser/parser.go). The lexer is seen through what
    it hands the parser: the tokens `Next` returns while `Err()` is still nil,
    and the error `Err()` reports once they are used up (io.EOF, or a read
    failure). A one-token pushback buffer sits in front of that stream.

    Each parsing method is proved equal to a function over the pending
    non-layout tokens (`Pending`): the function gives the result and the
    tokens left over, and the method returns that result and leaves exactly
    those tokens pending. */
module Parser {
  import opened Common
  import opened LexerTypes
  import opened AstTypes
  import opened Ast
  import opened ExpressionParser
  import Buffer

  /** A parsed value and the valid tokens after it. */
  datatype Step<T> = Step(value: T, rest: seq<Token>)

  /** Whitespace and line terminators, which NextValidToken skips. */
  predicate IsLayout(t: Token)
  {
    t.tokenType == WhitespaceToken || t.tokenType == LineTerminatorToken
  }

  function NonLayout(ts: seq<Token>): (r: seq<Token>)
    ensures |r| <= |ts|
    ensures forall k :: 0 <= k < |r| ==> !IsLayout(r[k])
  {
    if ts == [] then []
    else if IsLayout(ts[0]) then NonLayout(ts[1..])
    else [ts[0]] + NonLayout(ts[1..])
  }

  /** A method result agrees with a specification result: the same value or
      error, and on success exactly the specified tokens left pending. */
  predicate Agrees<T(==)>(r: Result<T, ParseError>, s: Result<Step<T>, ParseError>, pending: seq<Token>)
  {
    if s.Err? then r == Err(s.error) else r == Ok(s.value.value) && pending == s.value.rest
  }

  function PrependAll<T>(acc: seq<T>, r: Result<Step<seq<T>>, ParseError>): Result<Step<seq<T>>, ParseError>
  {
    match r
    case Err(e) => Err(e)
    case Ok(s) => Ok(Step(acc + s.value, s.rest))
  }

  lemma PrependNothing<T>(r: Result<Step<seq<T>>, ParseError>)
    ensures PrependAll([], r) == r
  {
    if r.Ok? {
      assert [] + r.value.value == r.value.value;
    }
  }

  lemma PrependAllDone<T>(acc: seq<T>, rest: seq<Token>)
    ensures PrependAll(acc, Ok(Step([], rest))) == Ok(Step(acc, rest))
  {
    assert acc + [] == acc;
  }

  lemma PrependAllTwice<T>(a: seq<T>, b: seq<T>, r: Result<Step<seq<T>>, ParseError>)
    ensures PrependAll(a, PrependAll(b, r)) == PrependAll(a + b, r)
  {
    if r.Ok? {
      assert a + (b + r.value.value) == (a + b) + r.value.value;
    }
  }

  /** NextValidToken over the pending valid tokens. */
  function NextValid(ts: seq<Token>, final: Buffer.ScanError): (r: Result<Step<Token>, ParseError>)
  {
    if |ts| == 0 then Err(Scan(final)) else Ok(Step(ts[0], ts[1..]))
  }

  // ---------------------------------------------------------------------
  // Token collectors

  /** The position of the first token whose text is `val`, or |ts|. */
  function FindText(ts: seq<Token>, val: string): (i: nat)
    ensures i <= |ts|
    ensures i < |ts| ==> Text(ts[i].value) == val
    ensures forall k :: 0 <= k < i ==> Text(ts[k].value) != val
  {
    if ts == [] then 0
    else if Text(ts[0].value) == val then 0
    else 1 + FindText(ts[1..], val)
  }

  /** GetTokensUntil: the tokens before the first `val`, with `val` itself
      when `inclusive` is set; `val` is consumed either way. Without a `val`
      the stream runs dry and the lexer's error is returned. */
  function TokensUntil(ts: seq<Token>, val: string, inclusive: bool, final: Buffer.ScanError): (r: Result<Step<seq<Token>>, ParseError>)
    ensures r.Ok? ==> |r.value.rest| < |ts|
  {
    var i := FindText(ts, val);
    if i == |ts| then Err(Scan(final))
    else Ok(Step(ts[..i] + (if inclusive then [ts[i]] else []), ts[i + 1..]))
  }

  /** GetTokensUntil succeeds exactly when a `val` is pending, and then cuts
      the stream at the first one. */
  lemma TokensUntilFindsFirst(ts: seq<Token>, val: string, inclusive: bool, final: Buffer.ScanError, j: nat)
    requires j < |ts| && Text(ts[j].value) == val
    requires forall k :: 0 <= k < j ==> Text(ts[k].value) != val
    ensures TokensUntil(ts, val, inclusive, final)
            == Ok(Step(ts[..j] + (if inclusive then [ts[j]] else []), ts[j + 1..]))
  {
  }

  /** TokensUntil one token at a time, as the loop of GetTokensUntil reads
      them. */
  lemma TokensUntilStep(ts: seq<Token>, val: string, inclusive: bool, final: Buffer.ScanError)
    requires |ts| > 0
    ensures TokensUntil(ts, val, inclusive, final)
            == if Text(ts[0].value) == val then Ok(Step(if inclusive then [ts[0]] else [], ts[1..]))
               else PrependAll([ts[0]], TokensUntil(ts[1..], val, inclusive, final))
  {
    if Text(ts[0].value) == val {
      var x: seq<Token> := if inclusive then [ts[0]] else [];
      assert ts[..0] + x == x;
    } else {
      var i := FindText(ts[1..], val);
      assert FindText(ts, val) == i + 1;
      if i < |ts[1..]| {
        var x: seq<Token> := if inclusive then [ts[i + 1]] else [];
        assert ts[..i + 1] == [ts[0]] + ts[1..][..i];
        assert ts[i + 2..] == ts[1..][i + 1..];
        assert ts[..i + 1] + x == [ts[0]] + (ts[1..][..i] + x);
      }
    }
  }

  lemma TokensUntilFails(ts: seq<Token>, val: string, inclusive: bool, final: Buffer.ScanError)
    requires forall k :: 0 <= k < |ts| ==> Text(ts[k].value) != val
    ensures TokensUntil(ts, val, inclusive, final) == Err(Scan(final))
  {
  }

  /** The loop of GetTokensBetween at nesting depth `depth`: a nested
      `start` goes one level deeper, an `end` at depth 0 closes, any other
      `end` goes one level up. */
  function BetweenLoop(ts: seq<Token>, start: string, end: string, depth: int, final: Buffer.ScanError): (r: Result<Step<seq<Token>>, ParseError>)
    ensures r.Ok? ==> |r.value.rest| < |ts|
  {
    if |ts| == 0 then Err(Scan(final))
    else
      var t := ts[0];
      if Text(t.value) == start then PrependAll([t], BetweenLoop(ts[1..], start, end, depth + 1, final))
      else if Text(t.value) == end && depth == 0 then Ok(Step([], ts[1..]))
      else if Text(t.value) == end then PrependAll([t], BetweenLoop(ts[1..], start, end, depth - 1, final))
      else PrependAll([t], BetweenLoop(ts[1..], start, end, depth, final))
  }

  /** One token of the GetTokensBetween loop: either the closing `end`, or a
      token that is kept and moves the depth by its weight. */
  lemma BetweenLoopStep(ts: seq<Token>, start: string, end: string, depth: int, final: Buffer.ScanError, acc: seq<Token>)
    requires |ts| > 0
    ensures Text(ts[0].value) != start && Text(ts[0].value) == end && depth == 0 ==>
              PrependAll(acc, BetweenLoop(ts, start, end, depth, final)) == Ok(Step(acc, ts[1..]))
    ensures !(Text(ts[0].value) != start && Text(ts[0].value) == end && depth == 0) ==>
              PrependAll(acc, BetweenLoop(ts, start, end, depth, final))
              == PrependAll(acc + [ts[0]], BetweenLoop(ts[1..], start, end, depth + Weight(ts[0], start, end), final))
  {
    if Text(ts[0].value) != start && Text(ts[0].value) == end && depth == 0 {
      PrependAllDone(acc, ts[1..]);
    } else {
      PrependAllTwice(acc, [ts[0]], BetweenLoop(ts[1..], start, end, depth + Weight(ts[0], start, end), final));
    }
  }

  /** GetTokensBetween: the first token must be `start`; the result is
      everything up to the matching `end`, which is consumed. */
  function TokensBetween(ts: seq<Token>, start: string, end: string, final: Buffer.ScanError): (r: Result<Step<seq<Token>>, ParseError>)
    ensures r.Ok? ==> |r.value.rest| < |ts|
  {
    if |ts| == 0 then Err(Scan(final))
    else if Text(ts[0].value) != start then Err(ExpectedStart)
    else BetweenLoop(ts[1..], start, end, 0, final)
  }

  function Weight(t: Token, start: string, end: string): int
  {
    if Text(t.value) == start then 1 else if Text(t.value) == end then -1 else 0
  }

  /** Opened minus closed pairs in `s`. */
  function Nesting(s: seq<Token>, start: string, end: string): int
  {
    if s == [] then 0 else Weight(s[0], start, end) + Nesting(s[1..], start, end)
  }

  /** What GetTokensBetween collects is balanced: no prefix closes more
      pairs than it opened, and the whole closes them all. */
  lemma {:induction false} BetweenLoopBalanced(ts: seq<Token>, start: string, end: string, depth: int, final: Buffer.ScanError)
    requires start != end && depth >= 0
    ensures var r := BetweenLoop(ts, start, end, depth, final);
            r.Ok? ==>
              && depth + Nesting(r.value.value, start, end) == 0
              && forall k :: 0 <= k <= |r.value.value| ==> depth + Nesting(r.value.value[..k], start, end) >= 0
    decreases |ts|
  {
    var r := BetweenLoop(ts, start, end, depth, final);
    if |ts| > 0 && r.Ok? {
      var t := ts[0];
      if Text(t.value) != start && Text(t.value) == end && depth == 0 {
        assert r.value.value == [];
      } else {
        var d := depth + Weight(t, start, end);
        var inner := BetweenLoop(ts[1..], start, end, d, final);
        assert r == PrependAll([t], inner);
        BetweenLoopBalanced(ts[1..], start, end, d, final);
        var v, w := r.value.value, inner.value.value;
        assert v == [t] + w;
        assert v[1..] == w;
        forall k | 0 <= k <= |v|
          ensures depth + Nesting(v[..k], start, end) >= 0
        {
          if k > 0 {
            assert v[..k][1..] == w[..k - 1];
          }
        }
      }
    }
  }

  /** Nothing is lost: the collected tokens, the closing `end` and the rest
      make up the input, and the token after the collected ones is `end`. */
  lemma {:induction false} BetweenLoopSplits(ts: seq<Token>, start: string, end: string, depth: int, final: Buffer.ScanError)
    ensures var r := BetweenLoop(ts, start, end, depth, final);
            r.Ok? ==>
              && |r.value.value| < |ts| && Text(ts[|r.value.value|].value) == end
              && r.value.value + [ts[|r.value.value|]] + r.value.rest == ts
    decreases |ts|
  {
    var r := BetweenLoop(ts, start, end, depth, final);
    if |ts| > 0 && r.Ok? {
      var t := ts[0];
      if !(Text(t.value) != start && Text(t.value) == end && depth == 0) {
        var d := depth + Weight(t, start, end);
        var inner := BetweenLoop(ts[1..], start, end, d, final);
        assert r == PrependAll([t], inner);
        BetweenLoopSplits(ts[1..], start, end, d, final);
        var v, w := r.value.value, inner.value.value;
        assert v == [t] + w;
        assert ts[|v|] == ts[1..][|w|];
        assert ts == [t] + ts[1..];
      }
    }
  }

  // ---------------------------------------------------------------------
  // Statements, as functions of the pending valid tokens

  /** ParseReturnStatement: the tokens up to ";" must start with an
      expression; tokens after the expression are dropped. */
  function ReturnStatementFrom(ts: seq<Token>, final: Buffer.ScanError): (r: Result<Step<Statement>, ParseError>)
    ensures r.Ok? ==> |r.value.rest| < |ts|
  {
    match TokensUntil(ts, ";", false, final)
    case Err(e) => Err(e)
    case Ok(u) =>
      match ParseExpression(u.value)
      case Err(e) => Err(e)
      case Ok(p) => Ok(Step(NewReturnStatement(p.node), u.rest))
  }

  /** ParseExpressionStatement: the first token followed by the tokens up to
      ";". */
  function ExpressionStatementFrom(token: Token, ts: seq<Token>, final: Buffer.ScanError): (r: Result<Step<Statement>, ParseError>)
    ensures r.Ok? ==> |r.value.rest| < |ts|
  {
    match TokensUntil(ts, ";", false, final)
    case Err(e) => Err(e)
    case Ok(u) =>
      match ParseExpression([token] + u.value)
      case Err(e) => Err(e)
      case Ok(p) => Ok(Step(NewExpStatement(p.node), u.rest))
  }

  /** ParseDeclStatement: `int id ;` or `int id = exp ;`. */
  function DeclStatementFrom(token: Token, ts: seq<Token>, final: Buffer.ScanError): (r: Result<Step<Statement>, ParseError>)
    ensures r.Ok? ==> |r.value.rest| < |ts|
  {
    match TokensUntil(ts, ";", false, final)
    case Err(e) => Err(e)
    case Ok(u) =>
      var toks := u.value;
      if |toks| == 0 then Err(IndexOutOfRange)
      else if toks[0].tokenType != IdentifierToken then Err(ExpectedIdentifier)
      else if |toks| == 1 then Ok(Step(NewDeclStatement(token, toks[0], None), u.rest))
      else if Text(toks[1].value) != "=" then Err(ExpectedAssign)
      else
        match ParseExpression(toks[2..])
        case Err(e) => Err(e)
        case Ok(p) => Ok(Step(NewDeclStatement(token, toks[0], Some(p.node)), u.rest))
  }

  /** ParseIfStatement: the condition between parentheses, a statement, then
      a peek: an "else" right after the statement belongs to this `if`. */
  function IfStatementFrom(ts: seq<Token>, final: Buffer.ScanError): (r: Result<Step<Statement>, ParseError>)
    ensures r.Ok? ==> |r.value.rest| < |ts|
    decreases |ts|, 2
  {
    match TokensBetween(ts, "(", ")", final)
    case Err(e) => Err(e)
    case Ok(b) =>
      match ParseExpression(b.value)
      case Err(e) => Err(e)
      case Ok(c) =>
        if |b.rest| == 0 then Err(Scan(final))
        else
          match StatementFrom(b.rest[0], b.rest[1..], final)
          case Err(e) => Err(e)
          case Ok(s) =>
            if |s.rest| == 0 then Err(Scan(final))
            else if Text(s.rest[0].value) != "else" then Ok(Step(NewIfStatement(c.node, s.value, None), s.rest))
            else if |s.rest| == 1 then Err(Scan(final))
            else
              match StatementFrom(s.rest[1], s.rest[2..], final)
              case Err(e) => Err(e)
              case Ok(e) => Ok(Step(NewIfStatement(c.node, s.value, Some(e.value)), e.rest))
  }

  /** ParseStatement: a block, an `if`, a `return` or an expression
      statement, chosen by the text of the token already read. */
  function StatementFrom(t: Token, ts: seq<Token>, final: Buffer.ScanError): (r: Result<Step<Statement>, ParseError>)
    ensures r.Ok? ==> |r.value.rest| < |ts|
    decreases |ts|, 3
  {
    var s := Text(t.value);
    if s == "{" then
      match BlockStatementFrom(ts, final)
      case Err(e) => Err(e)
      case Ok(b) => Ok(Step(Block(b.value), b.rest))
    else if s == "if" then IfStatementFrom(ts, final)
    else if s == "return" then ReturnStatementFrom(ts, final)
    else ExpressionStatementFrom(t, ts, final)
  }

  /** ParseBlockStatement: statements up to the closing "}". */
  function BlockStatementFrom(ts: seq<Token>, final: Buffer.ScanError): (r: Result<Step<BlockStatement>, ParseError>)
    ensures r.Ok? ==> |r.value.rest| < |ts|
    decreases |ts|, 2
  {
    match BlockFrom(ts, final)
    case Err(e) => Err(e)
    case Ok(b) => Ok(Step(NewBlockStatement(b.value), b.rest))
  }

  /** The loop of ParseBlockStatement. */
  function BlockFrom(ts: seq<Token>, final: Buffer.ScanError): (r: Result<Step<seq<Statement>>, ParseError>)
    ensures r.Ok? ==> |r.value.rest| < |ts|
    decreases |ts|, 1
  {
    if |ts| == 0 then Err(Scan(final))
    else if Text(ts[0].value) == "}" then Ok(Step([], ts[1..]))
    else
      match StatementFrom(ts[0], ts[1..], final)
      case Err(e) => Err(e)
      case Ok(s) => PrependAll([s.value], BlockFrom(s.rest, final))
  }

  /** One iteration of the ParseBlockStatement loop. */
  lemma BlockStep(ts: seq<Token>, final: Buffer.ScanError, acc: seq<Statement>)
    requires |ts| > 0
    ensures Text(ts[0].value) == "}" ==> PrependAll(acc, BlockFrom(ts, final)) == Ok(Step(acc, ts[1..]))
    ensures var s := StatementFrom(ts[0], ts[1..], final);
            Text(ts[0].value) != "}" && s.Err? ==> BlockFrom(ts, final) == Err(s.error)
    ensures var s := StatementFrom(ts[0], ts[1..], final);
            Text(ts[0].value) != "}" && s.Ok? ==>
              PrependAll(acc, BlockFrom(ts, final)) == PrependAll(acc + [s.value.value], BlockFrom(s.value.rest, final))
  {
    var s := StatementFrom(ts[0], ts[1..], final);
    if Text(ts[0].value) == "}" {
      PrependAllDone(acc, ts[1..]);
    } else if s.Ok? {
      PrependAllTwice(acc, [s.value.value], BlockFrom(s.value.rest, final));
    }
  }

  /** ParseBlockItem: "int" starts a declaration, anything else a
      statement. */
  function BlockItemFrom(t: Token, ts: seq<Token>, final: Buffer.ScanError): (r: Result<Step<Statement>, ParseError>)
    ensures r.Ok? ==> |r.value.rest| < |ts|
  {
    if Text(t.value) == "int" then DeclStatementFrom(t, ts, final) else StatementFrom(t, ts, final)
  }

  /** The loop of ParseFunction over the body's block items. */
  function FunctionBodyFrom(ts: seq<Token>, final: Buffer.ScanError): (r: Result<Step<seq<Statement>>, ParseError>)
    ensures r.Ok? ==> |r.value.rest| < |ts|
    decreases |ts|
  {
    if |ts| == 0 then Err(Scan(final))
    else if Text(ts[0].value) == "}" then Ok(Step([], ts[1..]))
    else
      match BlockItemFrom(ts[0], ts[1..], final)
      case Err(e) => Err(e)
      case Ok(s) => PrependAll([s.value], FunctionBodyFrom(s.rest, final))
  }

  /** One iteration of the ParseFunction body loop. */
  lemma FunctionBodyStep(ts: seq<Token>, final: Buffer.ScanError, acc: seq<Statement>)
    requires |ts| > 0
    ensures Text(ts[0].value) == "}" ==> PrependAll(acc, FunctionBodyFrom(ts, final)) == Ok(Step(acc, ts[1..]))
    ensures var s := BlockItemFrom(ts[0], ts[1..], final);
            Text(ts[0].value) != "}" && s.Err? ==> FunctionBodyFrom(ts, final) == Err(s.error)
    ensures var s := BlockItemFrom(ts[0], ts[1..], final);
            Text(ts[0].value) != "}" && s.Ok? ==>
              PrependAll(acc, FunctionBodyFrom(ts, final)) == PrependAll(acc + [s.value.value], FunctionBodyFrom(s.value.rest, final))
  {
    var s := BlockItemFrom(ts[0], ts[1..], final);
    if Text(ts[0].value) == "}" {
      PrependAllDone(acc, ts[1..]);
    } else if s.Ok? {
      PrependAllTwice(acc, [s.value.value], FunctionBodyFrom(s.value.rest, final));
    }
  }

  /** The next token, whose first byte must be `c`. */
  function Punctuator(ts: seq<Token>, c: char, final: Buffer.ScanError): (r: Result<Step<Token>, ParseError>)
    ensures r.Ok? ==> |r.value.rest| < |ts|
  {
    if |ts| == 0 then Err(Scan(final))
    else if |ts[0].value| == 0 then Err(IndexOutOfRange)
    else if ts[0].value[0] != c as int then Err(ExpectedPunctuator(c))
    else Ok(Step(ts[0], ts[1..]))
  }

  /** ParseFunction: `<type> <name> ( ) { <block items> }`, where only the
      first byte of the three punctuators is checked. The function has no
      parameters and its return type is the text of the first token. */
  function FunctionFrom(token: Token, ts: seq<Token>, final: Buffer.ScanError): (r: Result<Step<Statement>, ParseError>)
    ensures r.Ok? ==> |r.value.rest| < |ts|
    ensures r.Ok? ==> && r.value.value.FunctionStatement? && r.value.value.parameters == []
                      && r.value.value.returnType == Text(token.value) && r.value.value.name == Text(ts[0].value)
  {
    if token.tokenType != IdentifierToken then Err(ExpectedIdentifier)
    else if |ts| == 0 then Err(Scan(final))
    else if ts[0].tokenType != IdentifierToken then Err(ExpectedIdentifier)
    else
      match Punctuator(ts[1..], '(', final)
      case Err(e) => Err(e)
      case Ok(open) =>
        match Punctuator(open.rest, ')', final)
        case Err(e) => Err(e)
        case Ok(close) =>
          match Punctuator(close.rest, '{', final)
          case Err(e) => Err(e)
          case Ok(brace) =>
            match FunctionBodyFrom(brace.rest, final)
            case Err(e) => Err(e)
            case Ok(body) =>
              Ok(Step(NewFunctionStatement(ts[0], None, token, NewBlockStatement(body.value)), body.rest))
  }

  /** The loop of ParseProgram: functions while the next token is "int";
      the end of the input ends the program when the lexer reports io.EOF,
      and any other token ends it too. */
  /** A function as ParseFunction builds it. */
  predicate IsIntFunction(f: Statement)
  {
    f.FunctionStatement? && f.returnType == "int" && f.parameters == []
  }

  function ProgramLoop(ts: seq<Token>, final: Buffer.ScanError): (r: Result<Step<seq<Statement>>, ParseError>)
    ensures r.Ok? ==> forall k :: 0 <= k < |r.value.value| ==> IsIntFunction(r.value.value[k])
    decreases |ts|
  {
    if |ts| == 0 then (if final == Buffer.EOF then Ok(Step([], [])) else Err(Scan(final)))
    else if Text(ts[0].value) == "int" then
      match FunctionFrom(ts[0], ts[1..], final)
      case Err(e) => Err(e)
      case Ok(f) => PrependAll([f.value], ProgramLoop(f.rest, final))
    else Ok(Step([], ts[1..]))
  }

  /** One iteration of the ParseProgram loop. */
  lemma ProgramStep(ts: seq<Token>, final: Buffer.ScanError, acc: seq<Statement>)
    requires |ts| > 0
    ensures Text(ts[0].value) != "int" ==> PrependAll(acc, ProgramLoop(ts, final)) == Ok(Step(acc, ts[1..]))
    ensures var f := FunctionFrom(ts[0], ts[1..], final);
            Text(ts[0].value) == "int" && f.Err? ==> ProgramLoop(ts, final) == Err(f.error)
    ensures var f := FunctionFrom(ts[0], ts[1..], final);
            Text(ts[0].value) == "int" && f.Ok? ==>
              PrependAll(acc, ProgramLoop(ts, final)) == PrependAll(acc + [f.value.value], ProgramLoop(f.value.rest, final))
  {
    var f := FunctionFrom(ts[0], ts[1..], final);
    if Text(ts[0].value) != "int" {
      PrependAllDone(acc, ts[1..]);
    } else if f.Ok? {
      PrependAllTwice(acc, [f.value.value], ProgramLoop(f.value.rest, final));
    }
  }

  /** ParseProgram fills only the function list, and every function in it
      returns "int" and takes no parameters. */
  function ProgramFrom(ts: seq<Token>, final: Buffer.ScanError): (r: Result<Program, ParseError>)
    ensures r.Ok? ==> r.value.statements == [] &&
                      forall k :: 0 <= k < |r.value.functions| ==> IsIntFunction(r.value.functions[k])
  {
    match ProgramLoop(ts, final)
    case Err(e) => Err(e)
    case Ok(fns) => Ok(NewProgram(fns.value, NewStatementList()))
  }

  // ---------------------------------------------------------------------
  // Properties of the statement grammar

  /** A return statement is the expression parsed from the tokens before the
      first ";", which is consumed. Whatever tokens that expression leaves
      unparsed are dropped without an error. */
  lemma ReturnStatementShape(ts: seq<Token>, final: Buffer.ScanError)
    ensures var i := FindText(ts, ";"); var r := ReturnStatementFrom(ts, final);
      && (i == |ts| ==> r == Err(Scan(final)))
      && (i < |ts| && ParseExpression(ts[..i]).Err? ==> r == Err(ParseExpression(ts[..i]).error))
      && (i < |ts| && ParseExpression(ts[..i]).Ok? ==>
            r == Ok(Step(ReturnStatement(ParseExpression(ts[..i]).value.node), ts[i + 1..])))
  {
    var i := FindText(ts, ";");
    if i < |ts| {
      assert ts[..i] + [] == ts[..i];
    }
  }

  /** An expression statement is the expression parsed from the token already
      read and the tokens before the first ";"; unparsed tokens are dropped. */
  lemma ExpressionStatementShape(t: Token, ts: seq<Token>, final: Buffer.ScanError)
    ensures var i := FindText(ts, ";"); var r := ExpressionStatementFrom(t, ts, final);
      && (i == |ts| ==> r == Err(Scan(final)))
      && (i < |ts| && ParseExpression([t] + ts[..i]).Err? ==> r == Err(ParseExpression([t] + ts[..i]).error))
      && (i < |ts| && ParseExpression([t] + ts[..i]).Ok? ==>
            r == Ok(Step(ExpStatement(ParseExpression([t] + ts[..i]).value.node), ts[i + 1..])))
  {
    var i := FindText(ts, ";");
    if i < |ts| {
      assert ts[..i] + [] == ts[..i];
    }
  }

  /** A declaration is `id ;` or `id = exp ;` after the type token: the name
      must be an identifier, a second token must be "=", and what the
      initialiser leaves unparsed before ";" is dropped. */
  lemma DeclStatementShape(token: Token, ts: seq<Token>, final: Buffer.ScanError)
    ensures var i := FindText(ts, ";"); var r := DeclStatementFrom(token, ts, final);
      && (i == |ts| ==> r == Err(Scan(final)))
      && (i == 0 < |ts| ==> r == Err(IndexOutOfRange))
      && (0 < i < |ts| && ts[0].tokenType != IdentifierToken ==> r == Err(ExpectedIdentifier))
      && (i == 1 < |ts| && ts[0].tokenType == IdentifierToken ==>
            r == Ok(Step(DeclStatement(Identifier(Text(ts[0].value)), None, Text(token.value)), ts[2..])))
      && (1 < i < |ts| && ts[0].tokenType == IdentifierToken && Text(ts[1].value) != "=" ==>
            r == Err(ExpectedAssign))
      && (1 < i < |ts| && ts[0].tokenType == IdentifierToken && Text(ts[1].value) == "=" &&
          ParseExpression(ts[2..i]).Ok? ==>
            r == Ok(Step(DeclStatement(Identifier(Text(ts[0].value)), Some(ParseExpression(ts[2..i]).value.node),
                                       Text(token.value)), ts[i + 1..])))
  {
    var i := FindText(ts, ";");
    if i < |ts| {
      var toks := ts[..i] + [];
      assert toks == ts[..i];
      if i > 1 {
        assert toks[2..] == ts[2..i];
      }
    }
  }

  /** ExpectPunctuator takes the next token exactly when its first byte is
      `c`, and returns that token unchanged. */
  lemma PunctuatorShape(ts: seq<Token>, c: char, final: Buffer.ScanError)
    ensures var r := Punctuator(ts, c, final);
      && (r.Ok? <==> |ts| > 0 && |ts[0].value| > 0 && ts[0].value[0] == c as int)
      && (r.Ok? ==> r.value == Step(ts[0], ts[1..]))
      && (|ts| == 0 ==> r == Err(Scan(final)))
  {
  }

  /** A block item is a declaration exactly when its first token is "int":
      any other statement holds no declaration at any depth. */
  lemma BlockItemKinds(t: Token, ts: seq<Token>, final: Buffer.ScanError)
    ensures var r := BlockItemFrom(t, ts, final);
      r.Ok? ==> (r.value.value.DeclStatement? <==> Text(t.value) == "int")
  {
    if Text(t.value) != "int" {
      StatementHasNoDecl(t, ts, final);
    }
  }

  /** An `if` without an else branch is followed by a token that is not
      "else". */
  lemma IfWithoutElseStops(ts: seq<Token>, final: Buffer.ScanError)
    ensures var r := IfStatementFrom(ts, final);
            r.Ok? && r.value.value.elseBody.None? ==> |r.value.rest| > 0 && Text(r.value.rest[0].value) != "else"
  {
  }

  /** The dangling else belongs to the innermost `if`: when the then-branch
      is an `if` that took no else, the outer `if` takes none either. */
  lemma ElseBindsInnermost(ts: seq<Token>, final: Buffer.ScanError)
    ensures var r := IfStatementFrom(ts, final);
            r.Ok? && r.value.value.thenBody.IfStatement? && r.value.value.thenBody.elseBody.None? ==>
              r.value.value.elseBody.None?
  {
    var r := IfStatementFrom(ts, final);
    if r.Ok? && r.value.value.thenBody.IfStatement? && r.value.value.thenBody.elseBody.None? {
      var b := TokensBetween(ts, "(", ")", final).value;
      var s := StatementFrom(b.rest[0], b.rest[1..], final);
      assert Text(b.rest[0].value) == "if";
      IfWithoutElseStops(b.rest[1..], final);
    }
  }

  /** No declaration at any depth. */
  predicate NoDecl(s: Statement)
  {
    match s
    case DeclStatement(_, _, _) => false
    case Block(b) => forall k :: 0 <= k < |b.statements| ==> NoDecl(b.statements[k])
    case IfStatement(_, t, e) => NoDecl(t) && (e.Some? ==> NoDecl(e.value))
    case FunctionStatement(_, _, b, _) => forall k :: 0 <= k < |b.statements| ==> NoDecl(b.statements[k])
    case _ => true
  }

  /** Declarations are recognised only directly in a function body: what
      ParseStatement builds holds none, however deeply nested. */
  lemma {:induction false} StatementHasNoDecl(t: Token, ts: seq<Token>, final: Buffer.ScanError)
    ensures var r := StatementFrom(t, ts, final); r.Ok? ==> NoDecl(r.value.value)
    decreases |ts|, 3
  {
    var s := Text(t.value);
    if s == "{" {
      BlockHasNoDecl(ts, final);
      var r := StatementFrom(t, ts, final);
      if r.Ok? {
        var b := BlockFrom(ts, final).value.value;
        assert r.value.value == Block(NewBlockStatement(b));
        assert forall k :: 0 <= k < |b| ==> NoDecl(b[k]);
        assert NoDecl(Block(BlockStatement(b)));
      }
    } else if s == "if" {
      IfHasNoDecl(ts, final);
    }
  }

  lemma {:induction false} BlockHasNoDecl(ts: seq<Token>, final: Buffer.ScanError)
    ensures var r := BlockFrom(ts, final);
            r.Ok? ==> forall k :: 0 <= k < |r.value.value| ==> NoDecl(r.value.value[k])
    decreases |ts|, 1
  {
    if |ts| > 0 && Text(ts[0].value) != "}" {
      var s := StatementFrom(ts[0], ts[1..], final);
      if s.Ok? {
        StatementHasNoDecl(ts[0], ts[1..], final);
        BlockHasNoDecl(s.value.rest, final);
      }
    }
  }

  lemma {:induction false} IfHasNoDecl(ts: seq<Token>, final: Buffer.ScanError)
    ensures var r := IfStatementFrom(ts, final); r.Ok? ==> NoDecl(r.value.value)
    decreases |ts|, 2
  {
    var r := IfStatementFrom(ts, final);
    if r.Ok? {
      var b := TokensBetween(ts, "(", ")", final).value;
      StatementHasNoDecl(b.rest[0], b.rest[1..], final);
      var s := StatementFrom(b.rest[0], b.rest[1..], final).value;
      if r.value.value.elseBody.Some? {
        StatementHasNoDecl(s.rest[1], s.rest[2..], final);
      }
    }
  }

  /** At the end of the input io.EOF ends the program; any other error is
      returned. */
  lemma ProgramAtEnd(final: Buffer.ScanError)
    ensures ProgramFrom([], final) == (if final == Buffer.EOF then Ok(Program([], [])) else Err(Scan(final)))
  {
  }

  // ---------------------------------------------------------------------
  // The parser object

  class Parser {
    /** What the lexer will still produce before it reports `final`. */
    var lexed: seq<Token>
    var tokenBuffer: seq<Token>
    /** The error the lexer reports once `lexed` is used up. */
    const final: Buffer.ScanError

    /** The valid tokens still to be read: the pushback buffer, then the
        lexer's non-layout tokens. */
    ghost function Pending(): seq<Token>
      reads this`lexed, this`tokenBuffer
    {
      tokenBuffer + NonLayout(lexed)
    }

    /** The pushback buffer holds at most one token, and no layout token. */
    ghost predicate Valid()
      reads this`tokenBuffer
    {
      |tokenBuffer| <= 1 && forall k :: 0 <= k < |tokenBuffer| ==> !IsLayout(tokenBuffer[k])
    }

    constructor NewParser(lexed: seq<Token>, final: Buffer.ScanError)
      ensures Valid() && this.lexed == lexed && tokenBuffer == [] && this.final == final
      ensures Pending() == NonLayout(lexed)
    {
      this.lexed, tokenBuffer, this.final := lexed, [], final;
    }

    /** NextValidToken: the buffered token if any, else the next token of
        the lexer that is not layout, else the lexer's error. */
    method NextValidToken() returns (r: Result<Token, ParseError>)
      requires Valid()
      modifies this
      ensures Valid() && Agrees(r, NextValid(old(Pending()), final), Pending())
      ensures r.Ok? ==> !IsLayout(r.value)
      ensures tokenBuffer == []
    {
      if |tokenBuffer| != 0 {
        r := Ok(tokenBuffer[0]);
        tokenBuffer := tokenBuffer[1..];
        assert tokenBuffer == [] && Pending() == old(Pending())[1..];
        return;
      }
      assert Pending() == NonLayout(lexed);
      while true
        invariant tokenBuffer == [] && NonLayout(lexed) == old(Pending())
        decreases |lexed|
      {
        if |lexed| == 0 {
          return Err(Scan(final));
        }
        var t := lexed[0];
        lexed := lexed[1..];
        assert Pending() == NonLayout(lexed);
        if !IsLayout(t) {
          return Ok(t);
        }
      }
    }

    /** PeekNextValidToken: the next valid token, left pending in the
        buffer. */
    method PeekNextValidToken() returns (r: Result<Token, ParseError>)
      requires Valid()
      modifies this
      ensures Valid()
      ensures r == (if old(Pending()) == [] then Err(Scan(final)) else Ok(old(Pending())[0]))
      ensures r.Ok? ==> Pending() == old(Pending()) && tokenBuffer == [r.value]
    {
      if |tokenBuffer| != 0 {
        return Ok(tokenBuffer[0]);
      }
      r := NextValidToken();
      if r.Err? {
        return;
      }
      tokenBuffer := [r.value] + tokenBuffer;
      assert old(Pending()) == [r.value] + old(Pending())[1..];
    }

    method GetTokensUntil(val: string, inclusive: bool) returns (r: Result<seq<Token>, ParseError>)
      requires Valid()
      modifies this
      ensures Valid() && Agrees(r, TokensUntil(old(Pending()), val, inclusive, final), Pending())
    {
      var tokens: seq<Token> := [];
      PrependNothing(TokensUntil(Pending(), val, inclusive, final));
      while true
        invariant Valid()
        invariant TokensUntil(old(Pending()), val, inclusive, final) == PrependAll(tokens, TokensUntil(Pending(), val, inclusive, final))
        decreases |Pending()|
      {
        ghost var p := Pending();
        var t := NextValidToken();
        if t.Err? {
          return Err(t.error);
        }
        TokensUntilStep(p, val, inclusive, final);
        if Text(t.value.value) == val {
          if inclusive {
            tokens := tokens + [t.value];
          } else {
            assert tokens + [] == tokens;
          }
          return Ok(tokens);
        }
        PrependAllTwice(tokens, [t.value], TokensUntil(Pending(), val, inclusive, final));
        tokens := tokens + [t.value];
      }
    }

    method GetStatementTokens() returns (r: Result<seq<Token>, ParseError>)
      requires Valid()
      modifies this
      ensures Valid() && Agrees(r, TokensUntil(old(Pending()), ";", false, final), Pending())
    {
      r := GetTokensUntil(";", false);
    }

    method GetTokensBetween(start: string, end: string) returns (r: Result<seq<Token>, ParseError>)
      requires Valid()
      modifies this
      ensures Valid() && Agrees(r, TokensBetween(old(Pending()), start, end, final), Pending())
    {
      var first := NextValidToken();
      if first.Err? {
        return Err(first.error);
      }
      if Text(first.value.value) != start {
        return Err(ExpectedStart);
      }
      r := CollectBetween(start, end);
    }

    /** The depth-counting loop of GetTokensBetween, after the opening
        token. */
    method CollectBetween(start: string, end: string) returns (r: Result<seq<Token>, ParseError>)
      requires Valid()
      modifies this
      ensures Valid() && Agrees(r, BetweenLoop(old(Pending()), start, end, 0, final), Pending())
    {
      PrependNothing(BetweenLoop(Pending(), start, end, 0, final));
      var tokens: seq<Token> := [];
      var depth := 0;
      while true
        invariant Valid()
        invariant BetweenLoop(old(Pending()), start, end, 0, final) == PrependAll(tokens, BetweenLoop(Pending(), start, end, depth, final))
        decreases |Pending()|
      {
        ghost var p := Pending();
        var t := NextValidToken();
        if t.Err? {
          return Err(t.error);
        }
        var tok := t.value;
        BetweenLoopStep(p, start, end, depth, final, tokens);
        if Text(tok.value) == start {
          depth := depth + 1;
        } else if Text(tok.value) == end {
          if depth == 0 {
            return Ok(tokens);
          }
          depth := depth - 1;
        }
        tokens := tokens + [tok];
      }
    }

    method ParseReturnStatement(token: Token) returns (r: Result<Statement, ParseError>)
      requires Valid()
      modifies this
      ensures Valid() && Agrees(r, ReturnStatementFrom(old(Pending()), final), Pending())
    {
      var tokens := GetTokensUntil(";", false);
      if tokens.Err? {
        return Err(tokens.error);
      }
      var exp := ParseExpression(tokens.value);
      if exp.Err? {
        return Err(exp.error);
      }
      return Ok(NewReturnStatement(exp.value.node));
    }

    method ParseExpressionStatement(token: Token) returns (r: Result<Statement, ParseError>)
      requires Valid()
      modifies this
      ensures Valid() && Agrees(r, ExpressionStatementFrom(token, old(Pending()), final), Pending())
    {
      var tokens := GetTokensUntil(";", false);
      if tokens.Err? {
        return Err(tokens.error);
      }
      var exp := ParseExpression([token] + tokens.value);
      if exp.Err? {
        return Err(exp.error);
      }
      return Ok(NewExpStatement(exp.value.node));
    }

    method ParseDeclStatement(token: Token) returns (r: Result<Statement, ParseError>)
      requires Valid()
      modifies this
      ensures Valid() && Agrees(r, DeclStatementFrom(token, old(Pending()), final), Pending())
    {
      var tokens := GetTokensUntil(";", false);
      if tokens.Err? {
        return Err(tokens.error);
      }
      var toks := tokens.value;
      if |toks| == 0 {
        return Err(IndexOutOfRange);
      }
      var tName := toks[0];
      toks := toks[1..];
      if tName.tokenType != IdentifierToken {
        return Err(ExpectedIdentifier);
      }
      if |toks| == 0 {
        return Ok(NewDeclStatement(token, tName, None));
      }
      var t := toks[0];
      toks := toks[1..];
      if Text(t.value) != "=" {
        return Err(ExpectedAssign);
      }
      var exp := ParseExpression(toks);
      if exp.Err? {
        return Err(exp.error);
      }
      return Ok(NewDeclStatement(token, tName, Some(exp.value.node)));
    }

    method ParseIfStatement() returns (r: Result<Statement, ParseError>)
      requires Valid()
      modifies this
      ensures Valid() && Agrees(r, IfStatementFrom(old(Pending()), final), Pending())
      decreases |Pending()|, 2
    {
      var tokens := GetTokensBetween("(", ")");
      if tokens.Err? {
        return Err(tokens.error);
      }
      var exp := ParseExpression(tokens.value);
      if exp.Err? {
        return Err(exp.error);
      }
      var t := NextValidToken();
      if t.Err? {
        return Err(t.error);
      }
      var s := ParseStatement(t.value);
      if s.Err? {
        return Err(s.error);
      }
      var stmt := NewIfStatement(exp.value.node, s.value, None);
      var peeked := PeekNextValidToken();
      if peeked.Err? {
        return Err(peeked.error);
      }
      if Text(peeked.value.value) != "else" {
        return Ok(stmt);
      }
      // The "else" is in the pushback buffer, so reading it cannot fail.
      var elseToken := NextValidToken();
      t := NextValidToken();
      if t.Err? {
        return Err(t.error);
      }
      var elseS := ParseStatement(t.value);
      if elseS.Err? {
        return Err(elseS.error);
      }
      return Ok(NewIfStatement(exp.value.node, s.value, Some(elseS.value)));
    }

    method ParseBlockItem(t: Token) returns (r: Result<Statement, ParseError>)
      requires Valid()
      modifies this
      ensures Valid() && Agrees(r, BlockItemFrom(t, old(Pending()), final), Pending())
    {
      if Text(t.value) == "int" {
        r := ParseDeclStatement(t);
      } else {
        r := ParseStatement(t);
      }
    }

    method ParseStatement(t: Token) returns (r: Result<Statement, ParseError>)
      requires Valid()
      modifies this
      ensures Valid() && Agrees(r, StatementFrom(t, old(Pending()), final), Pending())
      decreases |Pending()|, 3
    {
      var s := Text(t.value);
      if s == "{" {
        var b := ParseBlockStatement();
        if b.Err? {
          return Err(b.error);
        }
        return Ok(Block(b.value));
      } else if s == "if" {
        r := ParseIfStatement();
      } else if s == "return" {
        r := ParseReturnStatement(t);
      } else {
        r := ParseExpressionStatement(t);
      }
    }

    method ParseBlockStatement() returns (r: Result<BlockStatement, ParseError>)
      requires Valid()
      modifies this
      ensures Valid() && Agrees(r, BlockStatementFrom(old(Pending()), final), Pending())
      decreases |Pending()|, 2
    {
      var stmts := NewStatementList();
      PrependNothing(BlockFrom(Pending(), final));
      while true
        invariant Valid() && |Pending()| <= |old(Pending())|
        invariant BlockFrom(old(Pending()), final) == PrependAll(stmts, BlockFrom(Pending(), final))
        decreases |Pending()|
      {
        ghost var p := Pending();
        var t := NextValidToken();
        if t.Err? {
          return Err(t.error);
        }
        BlockStep(p, final, stmts);
        if Text(t.value.value) == "}" {
          return Ok(NewBlockStatement(stmts));
        }
        var stmt := ParseStatement(t.value);
        if stmt.Err? {
          return Err(stmt.error);
        }
        stmts := AppendStatement(stmts, stmt.value);
      }
    }

    /** The next token, whose first byte must be `c` (the three punctuator
        checks of ParseFunction). */
    method ExpectPunctuator(c: char) returns (r: Result<Token, ParseError>)
      requires Valid()
      modifies this
      ensures Valid() && Agrees(r, Punctuator(old(Pending()), c, final), Pending())
    {
      r := NextValidToken();
      if r.Err? {
        return;
      }
      if |r.value.value| == 0 {
        return Err(IndexOutOfRange);
      }
      if r.value.value[0] != c as int {
        return Err(ExpectedPunctuator(c));
      }
    }

    method ParseFunction(token: Token) returns (r: Result<Statement, ParseError>)
      requires Valid()
      modifies this
      ensures Valid() && Agrees(r, FunctionFrom(token, old(Pending()), final), Pending())
    {
      if token.tokenType != IdentifierToken {
        return Err(ExpectedIdentifier);
      }
      var nameToken := NextValidToken();
      if nameToken.Err? {
        return Err(nameToken.error);
      }
      if nameToken.value.tokenType != IdentifierToken {
        return Err(ExpectedIdentifier);
      }
      var t := ExpectPunctuator('(');
      if t.Err? {
        return Err(t.error);
      }
      t := ExpectPunctuator(')');
      if t.Err? {
        return Err(t.error);
      }
      t := ExpectPunctuator('{');
      if t.Err? {
        return Err(t.error);
      }
      var body := ParseFunctionBody();
      if body.Err? {
        return Err(body.error);
      }
      return Ok(NewFunctionStatement(nameToken.value, None, token, NewBlockStatement(body.value)));
    }

    /** The block-item loop of ParseFunction, up to the closing "}". */
    method ParseFunctionBody() returns (r: Result<seq<Statement>, ParseError>)
      requires Valid()
      modifies this
      ensures Valid() && Agrees(r, FunctionBodyFrom(old(Pending()), final), Pending())
    {
      var stmts := NewStatementList();
      PrependNothing(FunctionBodyFrom(Pending(), final));
      while true
        invariant Valid()
        invariant FunctionBodyFrom(old(Pending()), final) == PrependAll(stmts, FunctionBodyFrom(Pending(), final))
        decreases |Pending()|
      {
        ghost var p := Pending();
        var t := NextValidToken();
        if t.Err? {
          return Err(t.error);
        }
        FunctionBodyStep(p, final, stmts);
        if Text(t.value.value) == "}" {
          return Ok(stmts);
        }
        var blockItem := ParseBlockItem(t.value);
        if blockItem.Err? {
          return Err(blockItem.error);
        }
        stmts := AppendStatement(stmts, blockItem.value);
      }
    }

    method ParseProgram() returns (r: Result<Program, ParseError>)
      requires Valid()
      modifies this
      ensures Valid() && r == ProgramFrom(old(Pending()), final)
    {
      var fns := NewStatementList();
      var stmts := NewStatementList();
      PrependNothing(ProgramLoop(Pending(), final));
      while true
        invariant Valid()
        invariant ProgramLoop(old(Pending()), final) == PrependAll(fns, ProgramLoop(Pending(), final))
        decreases |Pending()|
      {
        ghost var p := Pending();
        var t := NextValidToken();
        if t.Err? {
          if t.error == Scan(Buffer.EOF) {
            PrependAllDone(fns, []);
            return Ok(NewProgram(fns, stmts));
          }
          return Err(t.error);
        }
        ProgramStep(p, final, fns);
        if Text(t.value.value) != "int" {
          return Ok(NewProgram(fns, stmts));
        }
        var f := ParseFunction(t.value);
        if f.Err? {
          return Err(f.error);
        }
        fns := AppendStatement(fns, f.value);
      }
    }
  }
}
