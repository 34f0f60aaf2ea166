/** The tokenizer (lexer/lexer.go): a state machine over the byte scanner with
    a `state` field and a stack of parsing contexts, classifying greedy runs of
    bytes into tokens. */
module Lexer {
  import opened Common
  import opened LexerTypes
  import Buffer

  // ---------------------------------------------------------------------
  // Byte and rune classes

  predicate IsAsciiLetter(c: byte)
  {
    'a' as int <= c <= 'z' as int || 'A' as int <= c <= 'Z' as int
  }

  predicate IsDigit(c: byte)
  {
    '0' as int <= c <= '9' as int
  }

  predicate IsIdentifierStart(c: byte)
  {
    IsAsciiLetter(c) || c == '$' as int || c == '_' as int
  }

  predicate IsIdentifierPart(c: byte)
  {
    IsIdentifierStart(c) || IsDigit(c)
  }

  /** Space, tab, vertical tab, form feed. */
  predicate IsSpaceByte(c: byte)
  {
    c == ' ' as int || c == '\t' as int || c == 0x0B || c == 0x0C
  }

  predicate IsLineTerminatorByte(c: byte)
  {
    c == '\n' as int || c == '\r' as int
  }

  /** The single-byte punctuators that set ExprState (`[ ; , ~ ? :`). */
  predicate IsSeparator(c: byte)
  {
    c == '[' as int || c == ';' as int || c == ',' as int || c == '~' as int || c == '?' as int || c == ':' as int
  }

  /** The operator bytes handled by consumePunctuatorToken. */
  predicate IsOperator(c: byte)
  {
    c == '-' as int || c == '!' as int || c == '+' as int || c == '*' as int || c == '%' as int || c == '/' as int
  }

  /** Every byte that forms a one-byte PunctuatorToken. */
  predicate IsPunctuatorByte(c: byte)
  {
    c == '(' as int || c == ')' as int || c == '{' as int || c == '}' as int || c == ']' as int || c == '.' as int
    || IsSeparator(c) || IsOperator(c)
  }

  /** Unicode general category Zs (space separators). */
  predicate IsSpaceSeparator(r: int)
  {
    r == 0x20 || r == 0xA0 || r == 0x1680 || 0x2000 <= r <= 0x200A || r == 0x202F || r == 0x205F || r == 0x3000
  }

  /** The runes consumeWhitespace accepts after a lead byte above 0xC0:
      U+00A0, U+FFEF (as written, not U+FEFF) and the Zs category. */
  predicate IsWhitespaceRune(r: int)
  {
    r == 0xA0 || r == 0xFFEF || IsSpaceSeparator(r)
  }

  predicate IsLineSeparatorRune(r: int)
  {
    r == 0x2028 || r == 0x2029
  }

  // ---------------------------------------------------------------------
  // What one consume* call advances over

  /** consumeWhitespace: how far one call moves the cursor (0 when it fails). */
  function WhitespaceWidth(buf: seq<byte>, i: nat): (w: nat)
    requires Buffer.Terminated(buf) && i < |buf|
    ensures w <= 4 && i + w <= |buf| - 1
    ensures IsSpaceByte(buf[i]) ==> w == 1
    ensures w > 0 && !IsSpaceByte(buf[i]) ==> buf[i] > 0xC0
  {
    if IsSpaceByte(buf[i]) then 1
    else if buf[i] > 0xC0 then
      var (r, n) := Buffer.DecodeRune(buf, i);
      if IsWhitespaceRune(r as int) then n else 0
    else 0
  }

  /** consumeLineTerminator: `\n`, `\r\n` or a lone `\r`, or U+2028/U+2029
      as PeekRune decodes them. */
  function LineTerminatorWidth(buf: seq<byte>, i: nat): (w: nat)
    requires Buffer.Terminated(buf) && i < |buf|
    ensures w <= 4 && i + w <= |buf| - 1
    ensures buf[i] == '\n' as int ==> w == 1
    ensures buf[i] == '\r' as int ==> w == (if buf[i + 1] == '\n' as int then 2 else 1)
    ensures w > 0 && !IsLineTerminatorByte(buf[i]) ==> buf[i] > 0xC0
  {
    if buf[i] == '\n' as int then 1
    else if buf[i] == '\r' as int then
      if buf[i + 1] == '\n' as int then 2 else 1
    else if buf[i] > 0xC0 then
      var (r, n) := Buffer.DecodeRune(buf, i);
      if IsLineSeparatorRune(r as int) then n else 0
    else 0
  }

  /** Where `for l.consumeWhitespace() {}` started at `i` stops. */
  function WhitespaceRunEnd(buf: seq<byte>, i: nat): (e: nat)
    requires Buffer.Terminated(buf) && i < |buf|
    ensures i <= e < |buf| && WhitespaceWidth(buf, e) == 0
    decreases |buf| - i
  {
    var w := WhitespaceWidth(buf, i);
    if w == 0 then i else WhitespaceRunEnd(buf, i + w)
  }

  /** A successful call continues the same run. */
  lemma WhitespaceRunStep(buf: seq<byte>, i: nat)
    requires Buffer.Terminated(buf) && i < |buf|
    ensures WhitespaceRunEnd(buf, i) == (if WhitespaceWidth(buf, i) > 0 then WhitespaceRunEnd(buf, i + WhitespaceWidth(buf, i)) else i)
  {
  }

  function LineTerminatorRunEnd(buf: seq<byte>, i: nat): (e: nat)
    requires Buffer.Terminated(buf) && i < |buf|
    ensures i <= e < |buf| && LineTerminatorWidth(buf, e) == 0
    decreases |buf| - i
  {
    var w := LineTerminatorWidth(buf, i);
    if w == 0 then i else LineTerminatorRunEnd(buf, i + w)
  }

  /** A successful call continues the same run. */
  lemma LineTerminatorRunStep(buf: seq<byte>, i: nat)
    requires Buffer.Terminated(buf) && i < |buf|
    ensures LineTerminatorRunEnd(buf, i) == (if LineTerminatorWidth(buf, i) > 0 then LineTerminatorRunEnd(buf, i + LineTerminatorWidth(buf, i)) else i)
  {
  }

  /** The end of the longest run of digits starting at `i`. */
  function DigitRunEnd(buf: seq<byte>, i: nat): (e: nat)
    requires Buffer.Terminated(buf) && i < |buf|
    ensures i <= e < |buf| && !IsDigit(buf[e])
    decreases |buf| - i
  {
    if IsDigit(buf[i]) then DigitRunEnd(buf, i + 1) else i
  }

  /** Everything a digit run covers is a digit. */
  lemma {:induction false} DigitRunAllDigits(buf: seq<byte>, i: nat)
    requires Buffer.Terminated(buf) && i < |buf|
    ensures forall k :: i <= k < DigitRunEnd(buf, i) ==> IsDigit(buf[k])
    decreases |buf| - i
  {
    if IsDigit(buf[i]) {
      DigitRunAllDigits(buf, i + 1);
    }
  }

  /** The end of the longest run of identifier characters starting at `i`. */
  function IdentifierRunEnd(buf: seq<byte>, i: nat): (e: nat)
    requires Buffer.Terminated(buf) && i < |buf|
    ensures i <= e < |buf| && !IsIdentifierPart(buf[e])
    decreases |buf| - i
  {
    if IsIdentifierPart(buf[i]) then IdentifierRunEnd(buf, i + 1) else i
  }

  /** Everything an identifier run covers is an identifier character. */
  lemma {:induction false} IdentifierRunAllParts(buf: seq<byte>, i: nat)
    requires Buffer.Terminated(buf) && i < |buf|
    ensures forall k :: i <= k < IdentifierRunEnd(buf, i) ==> IsIdentifierPart(buf[k])
    decreases |buf| - i
  {
    if IsIdentifierPart(buf[i]) {
      IdentifierRunAllParts(buf, i + 1);
    }
  }

  // ---------------------------------------------------------------------
  // One call of Next, as a function of the buffer and the lexer state

  /** leaveContext: pops the top context, or reports GlobalContext on an
      empty stack. */
  function Leave(stack: seq<ParsingContext>): (r: (ParsingContext, seq<ParsingContext>))
    ensures stack == [] ==> r == (GlobalContext, [])
    ensures stack != [] ==> r.1 + [r.0] == stack
  {
    if |stack| > 0 then (stack[|stack| - 1], stack[..|stack| - 1]) else (GlobalContext, [])
  }

  datatype Scan = Scan(tokenType: TokenType, end: nat, stack: seq<ParsingContext>, state: TokenState)

  /** Next on one of the punctuator bytes other than `.`. */
  function PunctuatorScan(c: byte, pos: nat, stack: seq<ParsingContext>, state: TokenState): (s: Scan)
    requires IsPunctuatorByte(c) && c != '.' as int
    ensures s.tokenType == PunctuatorToken && s.end == pos + 1
  {
    if c == '(' as int then
      var ctx := if state == StmtParensState then StmtParensContext else ExprParensContext;
      Scan(PunctuatorToken, pos + 1, stack + [ctx], ExprState)
    else if c == ')' as int then
      var (ctx, rest) := Leave(stack);
      Scan(PunctuatorToken, pos + 1, rest, if ctx == StmtParensContext then ExprState else SubscriptState)
    else if c == '{' as int then
      Scan(PunctuatorToken, pos + 1, stack + [BracesContext], ExprState)
    else if c == '}' as int then
      // the template branch is never taken: consumeTemplateToken always fails
      Scan(PunctuatorToken, pos + 1, Leave(stack).1, ExprState)
    else if c == ']' as int then
      Scan(PunctuatorToken, pos + 1, stack, SubscriptState)
    else
      Scan(PunctuatorToken, pos + 1, stack, ExprState)
  }

  /** Next on a digit or `.`. */
  function NumericScan(buf: seq<byte>, pos: nat, stack: seq<ParsingContext>, state: TokenState): (s: Scan)
    requires Buffer.Terminated(buf) && pos < |buf| - 1
    requires IsDigit(buf[pos]) || buf[pos] == '.' as int
    ensures pos < s.end <= |buf| - 1 && s.stack == stack
  {
    if IsDigit(buf[pos]) then Scan(NumericToken, DigitRunEnd(buf, pos), stack, SubscriptState)
    else Scan(PunctuatorToken, pos + 1, stack, PropNameState)
  }

  /** Next on any byte the switch has no case for: an identifier, a
      multi-byte space, or one rune of UnknownToken. */
  function DefaultScan(buf: seq<byte>, pos: nat, stack: seq<ParsingContext>, state: TokenState): (s: Scan)
    requires Buffer.Terminated(buf) && pos < |buf|
    ensures pos < s.end <= |buf| && s.stack == stack && s.state == state
    ensures pos < |buf| - 1 ==> s.end <= |buf| - 1
  {
    var c := buf[pos];
    if IsIdentifierStart(c) then
      Scan(IdentifierToken, IdentifierRunEnd(buf, pos + 1), stack, state)
    else if c >= 0xC0 && WhitespaceWidth(buf, pos) > 0 then
      Scan(WhitespaceToken, WhitespaceRunEnd(buf, pos), stack, state)
    else
      Scan(UnknownToken, pos + Buffer.DecodeRune(buf, pos).1, stack, state)
  }

  /** Next, starting at `pos`: the token's kind and end, and the new context
      stack and state. Every call consumes at least one byte, and only the
      call at the sentinel reaches past it. */
  function NextScan(buf: seq<byte>, pos: nat, stack: seq<ParsingContext>, state: TokenState): (s: Scan)
    requires Buffer.Terminated(buf) && pos < |buf|
    ensures pos < s.end <= |buf|
    ensures pos < |buf| - 1 ==> s.end <= |buf| - 1
    ensures pos == |buf| - 1 ==> s == Scan(UnknownToken, |buf|, stack, state)
  {
    var c := buf[pos];
    if IsPunctuatorByte(c) && c != '.' as int then PunctuatorScan(c, pos, stack, state)
    else if IsDigit(c) || c == '.' as int then NumericScan(buf, pos, stack, state)
    else if IsSpaceByte(c) then Scan(WhitespaceToken, WhitespaceRunEnd(buf, pos + 1), stack, state)
    else if IsLineTerminatorByte(c) then Scan(LineTerminatorToken, LineTerminatorRunEnd(buf, pos + 1), stack, state)
    else DefaultScan(buf, pos, stack, state)
  }

  /** The states and stacks Next can reach from NewLexer: StmtParensState is
      never assigned, so `(` always pushes ExprParensContext, and nothing
      pushes StmtParensContext or TemplateContext. */
  ghost predicate Reachable(stack: seq<ParsingContext>, state: TokenState)
  {
    (state == ExprState || state == SubscriptState || state == PropNameState)
    && forall i :: 0 <= i < |stack| ==> stack[i] == ExprParensContext || stack[i] == BracesContext
  }

  lemma NextScanReachable(buf: seq<byte>, pos: nat, stack: seq<ParsingContext>, state: TokenState)
    requires Buffer.Terminated(buf) && pos < |buf| && Reachable(stack, state)
    ensures Reachable(NextScan(buf, pos, stack, state).stack, NextScan(buf, pos, stack, state).state)
    ensures buf[pos] == '(' as int ==> NextScan(buf, pos, stack, state).stack == stack + [ExprParensContext]
    ensures buf[pos] == ')' as int ==> NextScan(buf, pos, stack, state).state == SubscriptState
  {
  }

  /** The shape of the token Next returns, by kind. */
  lemma NextScanToken(buf: seq<byte>, pos: nat, stack: seq<ParsingContext>, state: TokenState)
    requires Buffer.Terminated(buf) && pos < |buf|
    ensures var s := NextScan(buf, pos, stack, state);
      && (s.tokenType == PunctuatorToken <==> IsPunctuatorByte(buf[pos]))
      && (s.tokenType == PunctuatorToken ==> s.end == pos + 1)
      && (s.tokenType == NumericToken <==> IsDigit(buf[pos]))
      && (s.tokenType == NumericToken ==>
            s.state == SubscriptState && !IsDigit(buf[s.end]) && forall k :: pos <= k < s.end ==> IsDigit(buf[k]))
      && (s.tokenType == IdentifierToken <==> IsIdentifierStart(buf[pos]))
      && (s.tokenType == IdentifierToken ==>
            s.state == state && !IsIdentifierPart(buf[s.end]) && forall k :: pos <= k < s.end ==> IsIdentifierPart(buf[k]))
      && (s.tokenType == LineTerminatorToken <==> IsLineTerminatorByte(buf[pos]))
      && (s.tokenType == LineTerminatorToken ==>
            s.state == state && s.stack == stack && LineTerminatorWidth(buf, s.end) == 0)
      && (s.tokenType == WhitespaceToken ==>
            s.state == state && s.stack == stack && WhitespaceWidth(buf, pos) > 0 && WhitespaceWidth(buf, s.end) == 0)
      && (IsSpaceByte(buf[pos]) ==> s.tokenType == WhitespaceToken)
      && (s.tokenType == UnknownToken ==>
            s.state == state && s.stack == stack && s.end == pos + Buffer.DecodeRune(buf, pos).1)
      && s.tokenType in {PunctuatorToken, NumericToken, IdentifierToken, LineTerminatorToken, WhitespaceToken, UnknownToken}
  {
    if IsDigit(buf[pos]) {
      DigitRunAllDigits(buf, pos);
    } else if IsIdentifierStart(buf[pos]) {
      IdentifierRunAllParts(buf, pos + 1);
    }
  }

  /** `=`, `<`, `>`, `&` and `|` (and so `==`, `<=`, `&&`, `||`) are never
      a single token: each byte is a one-byte UnknownToken. */
  lemma OperatorBytesAreUnknown(buf: seq<byte>, pos: nat, stack: seq<ParsingContext>, state: TokenState)
    requires Buffer.Terminated(buf) && pos < |buf|
    requires buf[pos] in {'=' as int, '<' as int, '>' as int, '&' as int, '|' as int}
    ensures NextScan(buf, pos, stack, state) == Scan(UnknownToken, pos + 1, stack, state)
  {
  }

  // ---------------------------------------------------------------------
  // Repeated calls

  /** Every token Next produces from `pos` up to and including the one that
      consumes the sentinel. */
  function Tokenize(buf: seq<byte>, pos: nat, stack: seq<ParsingContext>, state: TokenState): (ts: seq<Token>)
    requires Buffer.Terminated(buf) && pos <= |buf|
    ensures pos < |buf| ==> |ts| >= 1
    decreases |buf| - pos
  {
    if pos == |buf| then []
    else
      var s := NextScan(buf, pos, stack, state);
      [Token(s.tokenType, buf[pos..s.end])] + Tokenize(buf, s.end, s.stack, s.state)
  }

  function Values(ts: seq<Token>): (vs: seq<seq<byte>>)
    ensures |vs| == |ts| && forall i :: 0 <= i < |ts| ==> vs[i] == ts[i].value
  {
    if ts == [] then [] else [ts[0].value] + Values(ts[1..])
  }

  /** The tokens put back together are exactly the bytes scanned: no byte is
      lost or duplicated. */
  lemma {:induction false} TokenizeLossless(buf: seq<byte>, pos: nat, stack: seq<ParsingContext>, state: TokenState)
    requires Buffer.Terminated(buf) && pos <= |buf|
    ensures Flatten(Values(Tokenize(buf, pos, stack, state))) == buf[pos..]
    decreases |buf| - pos
  {
    if pos < |buf| {
      var s := NextScan(buf, pos, stack, state);
      var head := Token(s.tokenType, buf[pos..s.end]);
      var tail := Tokenize(buf, s.end, s.stack, s.state);
      TokenizeLossless(buf, s.end, s.stack, s.state);
      JoinLexemes(buf, pos, s.end, head, tail);
    }
  }

  /** One lexeme in front of the lexemes of the rest of the buffer. */
  lemma JoinLexemes(buf: seq<byte>, pos: nat, end: nat, head: Token, tail: seq<Token>)
    requires pos <= end <= |buf| && head.value == buf[pos..end]
    requires Flatten(Values(tail)) == buf[end..]
    ensures Flatten(Values([head] + tail)) == buf[pos..]
  {
    assert ([head] + tail)[1..] == tail;
    assert Values([head] + tail) == [head.value] + Values(tail);
    FlattenCons(head.value, Values(tail));
    assert buf[pos..] == buf[pos..end] + buf[end..];
  }

  /** The tokens the parser receives: Next's results while Err() is nil. The
      token whose call moves the cursor onto the sentinel is returned together
      with EOF and so never reaches the parser. */
  function Lexed(buf: seq<byte>, pos: nat, stack: seq<ParsingContext>, state: TokenState): (ts: seq<Token>)
    requires Buffer.Terminated(buf) && pos <= |buf|
    decreases |buf| - pos
  {
    if pos >= |buf| - 1 then []
    else
      var s := NextScan(buf, pos, stack, state);
      if s.end >= |buf| - 1 then []
      else [Token(s.tokenType, buf[pos..s.end])] + Lexed(buf, s.end, s.stack, s.state)
  }

  /** What the parser receives is a proper prefix of everything Next
      produces: at least the last token is dropped. */
  lemma {:induction false} LexedIsProperPrefix(buf: seq<byte>, pos: nat, stack: seq<ParsingContext>, state: TokenState)
    requires Buffer.Terminated(buf) && pos < |buf|
    ensures var ts := Tokenize(buf, pos, stack, state);
      var ls := Lexed(buf, pos, stack, state);
      |ls| < |ts| && ls == ts[..|ls|]
    decreases |buf| - pos
  {
    if pos < |buf| - 1 {
      var s := NextScan(buf, pos, stack, state);
      if s.end < |buf| - 1 {
        LexedIsProperPrefix(buf, s.end, s.stack, s.state);
      }
    }
  }

  // ---------------------------------------------------------------------
  // The imperative lexer

  class Lexer {
    var r: Buffer.Lexer
    var stack: seq<ParsingContext>
    var state: TokenState
    var emptyLine: bool

    /** The buffer is terminated; the cursor bounds are stated separately,
        so moving the cursor keeps this. */
    ghost predicate Valid()
      reads this`r, r`size, r`data, r.data
    {
      r.Valid() && Buffer.Terminated(r.Buf())
    }

    /** NewLexer over the bytes `b[..n]` (through NewLexerBytes). */
    constructor NewLexer(b: array<byte>, n: nat)
      requires n <= b.Length
      modifies b
      ensures Valid() && r.Buf() == old(b[..n]) + [0] && r.pos == 0 && r.start == 0
      ensures stack == [] && state == ExprState && emptyLine && Reachable(stack, state)
    {
      r := new Buffer.Lexer.NewLexerBytes(b, n);
      stack := [];
      state := ExprState;
      emptyLine := true;
    }

    /** Err: the buffer's error, which Next's callers test after each token. */
    function Err(): (e: Option<Buffer.ScanError>)
      reads this, r
      ensures r.err.Some? ==> e == r.err
      ensures r.err.None? ==> (e.Some? <==> r.pos >= r.size - 1)
    ensures r.err.None? && e.Some? ==> e.value == Buffer.EOF
    {
      r.Err()
    }

    method EnterContext(context: ParsingContext)
      modifies this`stack
      ensures stack == old(stack) + [context]
    {
      stack := stack + [context];
    }

    method LeaveContext() returns (ctx: ParsingContext)
      modifies this`stack
      ensures (ctx, stack) == Leave(old(stack))
    {
      ctx := GlobalContext;
      if |stack| > 0 {
        ctx, stack := stack[|stack| - 1], stack[..|stack| - 1];
      }
    }

    /** consumePunctuatorToken: moves over an operator byte, and reports
        success whatever the byte. */
    method ConsumePunctuator() returns (ok: bool)
      requires Valid() && 0 <= r.start <= r.pos < r.size
      modifies r`pos
      ensures ok
      ensures r.pos == old(r.pos) + (if IsOperator(r.Buf()[old(r.pos)]) then 1 else 0)
    {
      var c := r.Peek(0);
      if c == '!' as int || c == '-' as int || c == '*' as int || c == '+' as int || c == '/' as int || c == '%' as int {
        r.Move(1);
      }
      ok := true;
    }

    method ConsumeWhitespace() returns (ok: bool)
      requires Valid() && 0 <= r.start <= r.pos < r.size
      modifies r`pos
      ensures r.Buf() == old(r.Buf())
      ensures r.pos == old(r.pos) + WhitespaceWidth(r.Buf(), old(r.pos))
      ensures ok == (r.pos > old(r.pos))
      ensures WhitespaceRunEnd(r.Buf(), old(r.pos)) == (if ok then WhitespaceRunEnd(r.Buf(), r.pos) else r.pos)
    {
      WhitespaceRunStep(r.Buf(), r.pos);
      var c := r.Peek(0);
      ok := false;
      if c == ' ' as int || c == '\t' as int || c == 0x0B || c == 0x0C {
        r.Move(1);
        ok := true;
      } else if c > 0xC0 {
        var (rn, n) := r.PeekRune(0);
        if rn as int == 0xA0 || rn as int == 0xFFEF || IsSpaceSeparator(rn as int) {
          r.Move(n);
          ok := true;
        }
      }
    }

    /** `for l.consumeWhitespace() {}` */
    method ConsumeWhitespaceRun()
      requires Valid() && 0 <= r.start <= r.pos < r.size
      modifies r`pos
      ensures Valid() && r.pos == WhitespaceRunEnd(r.Buf(), old(r.pos))
    {
      ghost var buf := r.Buf();
      ghost var target := WhitespaceRunEnd(buf, r.pos);
      var more := ConsumeWhitespace();
      while more
        invariant Valid() && 0 <= r.start <= r.pos < r.size && r.Buf() == buf
        invariant WhitespaceRunEnd(buf, r.pos) == target
        invariant !more ==> target == r.pos
        decreases r.size - r.pos, more
      {
        more := ConsumeWhitespace();
      }
    }

    method ConsumeLineTerminator() returns (ok: bool)
      requires Valid() && 0 <= r.start <= r.pos < r.size
      modifies r`pos
      ensures r.Buf() == old(r.Buf())
      ensures r.pos == old(r.pos) + LineTerminatorWidth(r.Buf(), old(r.pos))
      ensures ok == (r.pos > old(r.pos))
      ensures LineTerminatorRunEnd(r.Buf(), old(r.pos)) == (if ok then LineTerminatorRunEnd(r.Buf(), r.pos) else r.pos)
    {
      LineTerminatorRunStep(r.Buf(), r.pos);
      var c := r.Peek(0);
      ok := false;
      if c == '\n' as int {
        r.Move(1);
        ok := true;
      } else if c == '\r' as int {
        if r.Peek(1) == '\n' as int {
          r.Move(2);
        } else {
          r.Move(1);
        }
        ok := true;
      } else if c > 0xC0 {
        var (rn, n) := r.PeekRune(0);
        if rn as int == 0x2028 || rn as int == 0x2029 {
          r.Move(n);
          ok := true;
        }
      }
    }

    /** `for l.consumeLineTerminator() {}` */
    method ConsumeLineTerminatorRun()
      requires Valid() && 0 <= r.start <= r.pos < r.size
      modifies r`pos
      ensures Valid() && r.pos == LineTerminatorRunEnd(r.Buf(), old(r.pos))
    {
      ghost var buf := r.Buf();
      ghost var target := LineTerminatorRunEnd(buf, r.pos);
      var more := ConsumeLineTerminator();
      while more
        invariant Valid() && 0 <= r.start <= r.pos < r.size && r.Buf() == buf
        invariant LineTerminatorRunEnd(buf, r.pos) == target
        invariant !more ==> target == r.pos
        decreases r.size - r.pos, more
      {
        more := ConsumeLineTerminator();
      }
    }

    method ConsumeDigit() returns (ok: bool)
      requires Valid() && 0 <= r.start <= r.pos < r.size
      modifies r`pos
      ensures r.Buf() == old(r.Buf())
      ensures ok == IsDigit(r.Buf()[old(r.pos)])
      ensures r.pos == old(r.pos) + (if ok then 1 else 0)
      ensures DigitRunEnd(r.Buf(), old(r.pos)) == (if ok then DigitRunEnd(r.Buf(), r.pos) else r.pos)
    {
      var c := r.Peek(0);
      ok := false;
      if c >= '0' as int && c <= '9' as int {
        r.Move(1);
        ok := true;
      }
    }

    /** consumeNumericToken: a greedy run of at least one digit. */
    method ConsumeNumeric() returns (ok: bool)
      requires Valid() && 0 <= r.start <= r.pos < r.size
      modifies r`pos
      ensures Valid() && ok == IsDigit(r.Buf()[old(r.pos)])
      ensures r.pos == (if ok then DigitRunEnd(r.Buf(), old(r.pos)) else old(r.pos))
    {
      ghost var buf := r.Buf();
      ghost var target := DigitRunEnd(buf, r.pos);
      ok := ConsumeDigit();
      if ok {
        var more := ConsumeDigit();
        while more
          invariant Valid() && 0 <= r.start <= r.pos < r.size && r.Buf() == buf
          invariant DigitRunEnd(buf, r.pos) == target
          invariant !more ==> target == r.pos
          decreases r.size - r.pos, more
        {
          more := ConsumeDigit();
        }
      }
    }

    /** consumeIdentifierToken: `[A-Za-z$_][A-Za-z0-9$_]*`, greedy. */
    method ConsumeIdentifier() returns (ok: bool)
      requires Valid() && 0 <= r.start <= r.pos < r.size
      modifies r`pos
      ensures Valid() && ok == IsIdentifierStart(r.Buf()[old(r.pos)])
      ensures r.pos == (if ok then IdentifierRunEnd(r.Buf(), old(r.pos) + 1) else old(r.pos))
    {
      var c := r.Peek(0);
      if IsAsciiLetter(c) || c == '$' as int || c == '_' as int {
        r.Move(1);
      } else {
        return false;
      }
      ghost var buf := r.Buf();
      ghost var target := IdentifierRunEnd(buf, r.pos);
      while true
        invariant r.Valid() && 0 <= r.start <= r.pos < r.size && r.Buf() == buf && Buffer.Terminated(buf)
        invariant IdentifierRunEnd(buf, r.pos) == target
        decreases r.size - r.pos
      {
        c := r.Peek(0);
        if IsIdentifierPart(c) {
          r.Move(1);
        } else {
          break;
        }
      }
      ok := true;
    }

    /** What a case of Next has done before the shared tail: the kind,
        stack and state are those of `s`, and the cursor is at the token's end
        unless the kind is still UnknownToken. */
    ghost predicate Dispatched(tt: TokenType, s: Scan, pos0: int)
      reads this, r
    {
      tt == s.tokenType && stack == s.stack && state == s.state
      && r.pos == (if tt == UnknownToken then pos0 else s.end)
    }

    /** The punctuator cases of Next's switch. */
    method PunctuatorCase(c: byte) returns (tt: TokenType)
      requires Valid() && 0 <= r.start <= r.pos < r.size - 1 && c == r.Buf()[r.pos]
      requires IsPunctuatorByte(c) && c != '.' as int
      modifies this`stack, this`state, r`pos
      ensures r.Buf() == old(r.Buf())
      ensures Valid() && Dispatched(tt, PunctuatorScan(c, old(r.pos), old(stack), old(state)), old(r.pos))
    {
      if c == '(' as int {
        if state == StmtParensState {
          EnterContext(StmtParensContext);
        } else {
          EnterContext(ExprParensContext);
        }
        state := ExprState;
        r.Move(1);
        tt := PunctuatorToken;
      } else if c == ')' as int {
        var ctx := LeaveContext();
        if ctx == StmtParensContext {
          state := ExprState;
        } else {
          state := SubscriptState;
        }
        r.Move(1);
        tt := PunctuatorToken;
      } else if c == '{' as int {
        EnterContext(BracesContext);
        state := ExprState;
        r.Move(1);
        tt := PunctuatorToken;
      } else if c == '}' as int {
        // consumeTemplateToken always fails, so only the punctuator branch remains
        var _ := LeaveContext();
        state := ExprState;
        r.Move(1);
        tt := PunctuatorToken;
      } else if c == ']' as int {
        state := SubscriptState;
        r.Move(1);
        tt := PunctuatorToken;
      } else if IsSeparator(c) {
        state := ExprState;
        r.Move(1);
        tt := PunctuatorToken;
      } else {
        var ok := ConsumePunctuator();
        tt := UnknownToken;
        if ok {
          state := ExprState;
          tt := PunctuatorToken;
        }
      }
    }

    /** The digit and `.` case of Next's switch. */
    method NumericCase(c: byte) returns (tt: TokenType)
      requires Valid() && 0 <= r.start <= r.pos < r.size - 1 && c == r.Buf()[r.pos]
      requires IsDigit(c) || c == '.' as int
      modifies this`state, r`pos
      ensures r.Buf() == old(r.Buf())
      ensures Valid() && Dispatched(tt, NumericScan(r.Buf(), old(r.pos), stack, old(state)), old(r.pos))
    {
      tt := UnknownToken;
      var ok := ConsumeNumeric();
      if ok {
        tt := NumericToken;
        state := SubscriptState;
      } else if c == '.' as int {
        state := PropNameState;
        r.Move(1);
        tt := PunctuatorToken;
      }
    }

    /** The default case of Next's switch. A multi-byte space returns its
        token at once in the source; falling through to the shared tail with
        WhitespaceToken yields the same token. */
    method DefaultCase(c: byte) returns (tt: TokenType)
      requires Valid() && 0 <= r.start <= r.pos < r.size && c == r.Buf()[r.pos]
      modifies r`pos
      ensures r.Buf() == old(r.Buf())
      ensures Valid() && Dispatched(tt, DefaultScan(r.Buf(), old(r.pos), stack, state), old(r.pos))
    {
      tt := UnknownToken;
      var ok := ConsumeIdentifier();
      if ok {
        tt := IdentifierToken;
      } else if c >= 0xC0 {
        ok := ConsumeWhitespace();
        if ok {
          ConsumeWhitespaceRun();
          tt := WhitespaceToken;
        }
      }
    }

    /** The space, tab, vertical-tab and form-feed case of Next's switch.
        The source returns the token at once; falling through to the shared
        tail with WhitespaceToken yields the same token. */
    method SpaceCase() returns (tt: TokenType)
      requires Valid() && 0 <= r.start <= r.pos < r.size - 1 && IsSpaceByte(r.Buf()[r.pos])
      modifies r`pos
      ensures r.Buf() == old(r.Buf())
      ensures Valid()
      ensures Dispatched(tt, Scan(WhitespaceToken, WhitespaceRunEnd(r.Buf(), old(r.pos) + 1), stack, state), old(r.pos))
    {
      r.Move(1);
      ConsumeWhitespaceRun();
      tt := WhitespaceToken;
    }

    /** The `\n` and `\r` case of Next's switch. */
    method LineTerminatorCase() returns (tt: TokenType)
      requires Valid() && 0 <= r.start <= r.pos < r.size - 1 && IsLineTerminatorByte(r.Buf()[r.pos])
      modifies r`pos
      ensures r.Buf() == old(r.Buf())
      ensures Valid()
      ensures Dispatched(tt, Scan(LineTerminatorToken, LineTerminatorRunEnd(r.Buf(), old(r.pos) + 1), stack, state), old(r.pos))
    {
      r.Move(1);
      ConsumeLineTerminatorRun();
      tt := LineTerminatorToken;
    }

    /** The tail of Next: an UnknownToken spans one rune; the token's bytes
        are everything since the previous token. */
    method Finish(tt: TokenType, ghost s: Scan, ghost pos0: int) returns (tok: Token)
      requires Valid() && 0 <= r.start <= pos0 < r.size && Dispatched(tt, s, pos0)
      requires tt == UnknownToken ==> s.end == pos0 + Buffer.DecodeRune(r.Buf(), pos0).1
      requires pos0 < s.end <= r.size
      modifies r`pos, r`start
      ensures r.Buf() == old(r.Buf())
      ensures Valid() && tok == Token(tt, r.Buf()[old(r.start)..s.end])
      ensures r.pos == s.end && r.start == r.pos
    {
      if tt == UnknownToken {
        var (_, n) := r.PeekRune(0);
        r.Move(n);
      }
      var value := r.Shift();
      tok := Token(tt, value);
    }

    /** Next: reads one token and updates the context stack and state, as
        NextScan describes. */
    method Next() returns (tok: Token)
      requires Valid() && 0 <= r.start <= r.pos < r.size
      modifies this`stack, this`state, r`pos, r`start
      ensures Valid() && r.Buf() == old(r.Buf())
      ensures Reachable(old(stack), old(state)) ==> Reachable(stack, state)
      ensures var s := NextScan(old(r.Buf()), old(r.pos), old(stack), old(state));
        && tok == Token(s.tokenType, old(r.Buf())[old(r.start)..s.end])
        && r.pos == s.end && r.start == r.pos && stack == s.stack && state == s.state
    {
      ghost var s := NextScan(r.Buf(), r.pos, stack, state);
      ghost var pos0 := r.pos;
      var tt := UnknownToken;
      var c := r.Peek(0);
      if IsPunctuatorByte(c) && c != '.' as int {
        tt := PunctuatorCase(c);
      } else if IsDigit(c) || c == '.' as int {
        tt := NumericCase(c);
      } else if IsSpaceByte(c) {
        tt := SpaceCase();
      } else if IsLineTerminatorByte(c) {
        tt := LineTerminatorCase();
      } else {
        tt := DefaultCase(c);
      }
      tok := Finish(tt, s, pos0);
      if Reachable(old(stack), old(state)) {
        NextScanReachable(old(r.Buf()), pos0, old(stack), old(state));
      }
    }
  }
}
