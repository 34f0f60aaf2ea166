# compiler-experiments, modelled in Dafny

A model of the compilation pipeline of `compiler-experiments`, a toy
compiler for a C-like language written in Go. The command-line driver is not
part of the model. The pipeline has five stages:

- **Byte buffer** (`Buffer`, from buffer/lexer.go). It holds the source
  bytes followed by a NUL sentinel, a cursor (`pos`) and the start of the
  current lexeme (`start`). It can peek bytes and UTF-8 runes, move and
  rewind the cursor, and shift out the lexeme.
- **Lexer** (`LexerTypes`, `Lexer`, from lexer/types.go and lexer/lexer.go).
  `Next` reads one token: punctuators, numerics, identifiers, whitespace,
  line terminators, or one rune of `UnknownToken`. It also keeps a stack of
  parsing contexts and a token state.
  - The pure function `NextScan` describes one call to `Next`.
  - `Tokenize` describes repeated calls to `Next`.
  - `Lexed` is the token stream the parser actually sees.
- **AST** (`AstTypes`, `Ast`, from ast/types.go and ast/ast.go). There is a
  datatype per node kind, the constructor functions, and the
  `TokenLiteral` strings.
- **Parser** (`ExpressionParser`, `Parser`, from parser/expression.go and
  parser/parser.go).
  - The expression grammar is a set of recursive functions, one per
    precedence level. `GetExpressionFromParser` keeps its loop, and that loop
    is proved equal to the fold function.
  - The statement parser is a class over the pending valid tokens. Each of
    its methods is proved equal to a pure function (`...From`) of those
    tokens. The parser's errors, including Go's index-out-of-range panics,
    are error values.
- **Code generator** (`Label`, `Variable`, `Generator`,
  `ExpressionGenerator`, from the generator/ files). It emits x86-64 AT&T
  assembly text.
  - The stateless generator handles the program, functions, blocks,
    returns, integer literals, prefix operators and arithmetic.
  - `AssemblyGenerator` adds comparisons, and `&&`/`||`, which draw labels
    from a shared `LabelGenerator`.
  - `VariableManager` assigns stack slots.

Main results:

- **Lexer.**
  - The tokens put back together give exactly the scanned bytes.
  - Only reachable context states occur.
- **Expression parser.** Printing an arithmetic tree with the fewest
  parentheses and parsing the result gives back the same tree. This fixes
  precedence and left associativity at every level.
- **Statement parser.**
  - A dangling `else` binds to the innermost `if`.
  - Declarations occur only directly in a function body.
  - Every parsed function returns `int` and takes no parameters.
- **Token collection.** What `GetTokensBetween` collects is balanced, and
  nothing is lost.
- **Code generator.**
  - Generation succeeds exactly on the supported trees, and the code always
    starts by loading a constant.
  - The trimming in the templates removes only padding, so each template is its lines in order.
  - Each `&&`/`||` draws exactly two labels, after the labels of its
    operands.
  - The labelled generator agrees with the stateless one wherever the
    stateless one applies.
  - Labels and stack slots are pairwise distinct.

## Model

| member | source | states |
|---|---|---|
| Common.FlattenAppend | buffer/lexer.go:122-126 | concatenating the pieces of two sequences of lexemes is concatenating the two results |
| Common.Text | ast/ast.go:123-125 | Go's string([]byte) conversion: same length, and each character has the byte's code |
| Common.Bytes | ast/ast.go:123-125 | []byte of a byte string inverts Text |
| Common.NatToString | lexer/types.go:63 | strconv.Itoa of a non-negative number is a non-empty run of decimal digits |
| Common.IntToString | lexer/types.go:63 | strconv.Itoa is non-empty, and its digits follow a '-' exactly when the number is negative |
| Common.NatToStringValue | lexer/types.go:63 | the digits strconv.Itoa prints read back as the number |
| Common.NatToStringInjective | generator/label.go:16 | different counts print differently |
| Common.IntToStringInjective | lexer/types.go:63 | different integers print differently |
| Buffer.DecodeRune | buffer/lexer.go:90-100 | the rune width is 1 to 4 and stays inside the buffer; width 1 exactly when the lead byte is below 0xC0 or the next byte is the NUL sentinel, and then the rune is the byte |
| Buffer.High4 | buffer/lexer.go:94-98 | the source's `c & 0xF0` mask keeps a multiple of 16 no larger than the byte |
| Buffer.Pieces | buffer/lexer.go:122-126 | the lexemes shifted out between successive cursor positions are the buffer slices between them |
| Buffer.ShiftsConcatenate | buffer/lexer.go:122-126 | the lexemes shifted out one after another concatenate to the buffer from the first start to the last position |
| Buffer.Lexer.Buf | buffer/lexer.go:11-17 | the buffer view has `size` bytes |
| Buffer.Lexer.NewLexerBytes | buffer/lexer.go:40-62 | the buffer is the n input bytes plus a NUL; it reuses the caller's slice (saving the overwritten byte for Restore) when there is room and otherwise copies; the cursor starts at 0 with no error |
| Buffer.Lexer.FromReadFailure | buffer/lexer.go:19-38 | a failed read leaves an empty buffer holding the read error |
| Buffer.Lexer.PeekErr | buffer/lexer.go:76-83 | a stored error is returned first; otherwise EOF exactly when pos+k reaches the sentinel |
| Buffer.Lexer.Err | buffer/lexer.go:64-67 | a stored error is returned as it is; without one, the result is EOF exactly when the cursor is at the sentinel, and nothing otherwise |
| Buffer.Lexer.Restore | buffer/lexer.go:69-74 | the byte overwritten by the sentinel is put back, once |
| Buffer.Lexer.Peek | buffer/lexer.go:85-88 | the byte at pos+k |
| Buffer.Lexer.PeekRune | buffer/lexer.go:90-100 | the rune at pos+k has width 1 to 4 within the buffer; width 1 exactly for a byte below 0xC0 or one before the sentinel |
| Buffer.Lexer.Move | buffer/lexer.go:102-104 | the cursor advances by n |
| Buffer.Lexer.Pos | buffer/lexer.go:106-108 | the length of the current lexeme; Rewind and Lexeme state it in terms of the cursor and the lexeme start |
| Buffer.Lexer.Rewind | buffer/lexer.go:110-112 | the cursor returns to start+p, so Pos() is p |
| Buffer.Lexer.Lexeme | buffer/lexer.go:114-116 | the bytes from start to the cursor, Pos() of them |
| Buffer.Lexer.Skip | buffer/lexer.go:118-120 | the lexeme is dropped: start moves to the cursor |
| Buffer.Lexer.Shift | buffer/lexer.go:122-126 | returns the lexeme and starts a new one at the cursor |
| Buffer.Lexer.Offset | buffer/lexer.go:128-130 | the cursor itself; no caller in the pipeline reads it |
| Buffer.Lexer.Bytes | buffer/lexer.go:132-134 | the buffer without its sentinel |
| Buffer.NewLexerBytesRoundTrip | buffer/lexer.go:40-62 | Bytes() of a new lexer is the input, and Err() is EOF exactly for empty input |
| LexerTypes.KindName | lexer/types.go:44-62 | every named kind has a name that does not start with "In" |
| LexerTypes.TokenTypeString | lexer/types.go:44-64 | named kinds print their name; any other value prints "Invalid(" + its decimal digits + ")", and the digits read back as the value |
| LexerTypes.TokenTypeStringInjective | lexer/types.go:44-64 | two token types with the same String() are equal |
| Lexer.WhitespaceWidth | lexer/lexer.go:144-157 | consumeWhitespace moves over one space byte, or one whitespace rune after a lead byte above 0xC0, or nothing, and never past the sentinel |
| Lexer.LineTerminatorWidth | lexer/lexer.go:159-178 | consumeLineTerminator moves over `\n`, `\r\n`, a lone `\r`, a U+2028/U+2029 rune, or nothing |
| Lexer.WhitespaceRunEnd | lexer/lexer.go:106-110 | the whitespace loop stops before the sentinel at a position where no whitespace starts |
| Lexer.WhitespaceRunStep | lexer/lexer.go:106-110 | one call of the whitespace loop leaves the loop's end where it was |
| Lexer.LineTerminatorRunEnd | lexer/lexer.go:111-115 | the line-terminator loop stops at a position where no terminator starts |
| Lexer.LineTerminatorRunStep | lexer/lexer.go:111-115 | one call of the line-terminator loop leaves the loop's end where it was |
| Lexer.DigitRunEnd | lexer/lexer.go:184-199 | consumeNumericToken stops at the first non-digit |
| Lexer.DigitRunAllDigits | lexer/lexer.go:184-199 | every byte consumeNumericToken takes is a digit |
| Lexer.IdentifierRunEnd | lexer/lexer.go:201-220 | consumeIdentifierToken stops at the first byte that cannot continue an identifier |
| Lexer.IdentifierRunAllParts | lexer/lexer.go:201-220 | every byte after the identifier's start is an identifier part |
| Lexer.Leave | lexer/lexer.go:36-42 | leaveContext pops the last context, or gives GlobalContext on an empty stack |
| Lexer.PunctuatorScan | lexer/lexer.go:49-96 | every punctuator case returns a one-byte PunctuatorToken |
| Lexer.NumericScan | lexer/lexer.go:97-105 | the digit and `.` case consumes at least one byte and leaves the stack unchanged |
| Lexer.DefaultScan | lexer/lexer.go:116-131 | the default case consumes at least one byte and changes neither stack nor state |
| Lexer.NextScan | lexer/lexer.go:45-134 | Next consumes at least one byte; only the call at the sentinel reaches past it, and that call returns an UnknownToken |
| Lexer.NextScanReachable | lexer/lexer.go:49-65 | from a reachable state Next reaches only reachable states: `(` always pushes ExprParensContext, and `)` sets SubscriptState |
| Lexer.NextScanToken | lexer/lexer.go:45-134 | the kind of a token is decided by its first byte (punctuator, digit, identifier start, line terminator, space), and each kind consumes what its consume function promises |
| Lexer.OperatorBytesAreUnknown | lexer/lexer.go:116-131 | `=`, `<`, `>`, `&` and `\|` are each a one-byte UnknownToken, so `==`, `&&` and the like are never one token |
| Lexer.Tokenize | lexer/lexer.go:45-134 | calling Next from any position before the end yields at least one token |
| Lexer.TokenizeLossless | lexer/lexer.go:45-134 | the values of the tokens Next returns, concatenated, are exactly the bytes scanned |
| Lexer.LexedIsProperPrefix | lexer/lexer.go:28-30 | the tokens returned while Err() is nil are a proper prefix of all tokens: the last one comes with EOF |
| Lexer.Lexed | lexer/lexer.go:28-30 | the tokens Next returns while Err() is nil; LexedIsProperPrefix states that they are all tokens but the last |
| Lexer.Lexer.NewLexer | lexer/lexer.go:18-25 | an empty context stack in ExprState over the input plus its sentinel |
| Lexer.Lexer.Err | lexer/lexer.go:28-30 | the buffer's error: a stored read error as it is, otherwise EOF exactly when the cursor is at the sentinel |
| Lexer.Lexer.EnterContext | lexer/lexer.go:32-34 | the context is pushed |
| Lexer.Lexer.LeaveContext | lexer/lexer.go:36-42 | pops as Leave says |
| Lexer.Lexer.ConsumePunctuator | lexer/lexer.go:136-142 | always succeeds, and moves over one byte exactly when it is an operator byte |
| Lexer.Lexer.ConsumeWhitespace | lexer/lexer.go:144-157 | moves by WhitespaceWidth and reports whether it moved |
| Lexer.Lexer.ConsumeWhitespaceRun | lexer/lexer.go:106-110 | the loop ends at WhitespaceRunEnd |
| Lexer.Lexer.ConsumeLineTerminator | lexer/lexer.go:159-178 | moves by LineTerminatorWidth and reports whether it moved |
| Lexer.Lexer.ConsumeLineTerminatorRun | lexer/lexer.go:111-115 | the loop ends at LineTerminatorRunEnd |
| Lexer.Lexer.ConsumeDigit | lexer/lexer.go:193-199 | moves over one digit, if there is one |
| Lexer.Lexer.ConsumeNumeric | lexer/lexer.go:184-191 | succeeds on a digit and moves to DigitRunEnd |
| Lexer.Lexer.ConsumeIdentifier | lexer/lexer.go:201-220 | succeeds on an identifier start and moves to IdentifierRunEnd |
| Lexer.Lexer.PunctuatorCase | lexer/lexer.go:49-96 | the punctuator cases set the kind, stack, state and cursor as PunctuatorScan says |
| Lexer.Lexer.NumericCase | lexer/lexer.go:97-105 | the digit and `.` case does what NumericScan says |
| Lexer.Lexer.DefaultCase | lexer/lexer.go:116-125 | the default case does what DefaultScan says |
| Lexer.Lexer.SpaceCase | lexer/lexer.go:106-110 | a whitespace token up to the end of the whitespace run |
| Lexer.Lexer.LineTerminatorCase | lexer/lexer.go:111-115 | a line-terminator token up to the end of the terminator run |
| Lexer.Lexer.Finish | lexer/lexer.go:128-133 | an unknown rune is consumed, and the token is the shifted lexeme |
| Lexer.Lexer.Next | lexer/lexer.go:45-134 | the token, new cursor, context stack and state are those NextScan gives, and reachability is preserved |
| Ast.ExpressionLiteral | ast/ast.go:12-43 | every expression has a non-empty TokenLiteral |
| Ast.StatementLiteral | ast/ast.go:12-43 | every statement has a non-empty TokenLiteral |
| Ast.LiteralsNameKinds | ast/ast.go:8-43 | two nodes have the same TokenLiteral exactly when they are of the same kind, and expression, statement and program literals never coincide |
| Ast.ProgramString | ast/ast.go:8-10 | the text "Program"; LiteralsNameKinds states that it differs from every node literal |
| Ast.NewProgram | ast/ast.go:45-55 | the program holds the given functions and statements |
| Ast.NewStatementList | ast/ast.go:57-59 | the list is empty |
| Ast.AppendStatement | ast/ast.go:61-67 | the statement is added at the end and the rest is kept |
| Ast.NewBlockStatement | ast/ast.go:69-75 | the block holds the statements |
| Ast.NewReturnStatement | ast/ast.go:77-83 | a return of the expression |
| Ast.NewDeclStatement | ast/ast.go:85-105 | a declaration of the identifier's text with the type's text, with an initializer exactly when one is given |
| Ast.NewAssignExpression | ast/ast.go:107-121 | an assignment with the operator's text, the identifier's text and the right-hand side |
| Ast.NewIdentifier | ast/ast.go:123-125 | an identifier named by the token's text |
| Ast.NewExpStatement | ast/ast.go:127-133 | a statement wrapping the expression |
| Ast.NewIntegerLiteral | ast/ast.go:135-141 | a literal with the token's text |
| Ast.NewPrefixExpression | ast/ast.go:143-153 | a prefix node with the operator's text and the operand |
| Ast.NewInfixExpression | ast/ast.go:155-169 | an infix node with the operator's text and both operands in order |
| Ast.NewFunctionStatement | ast/ast.go:171-193 | a function with the name, return type and body; no parameters without an argument list |
| Ast.NewIfStatement | ast/ast.go:195-214 | an if with the condition and then-branch, and an else-branch exactly when one is given |
| ExpressionParser.ParseExpression | parser/expression.go:128-153 | on success some tokens were consumed, and the rest is a suffix of the input |
| ExpressionParser.ParseOperand | parser/expression.go:157-192 | on success some tokens were consumed, and the rest is a suffix of the input |
| ExpressionParser.ParseLevel | parser/expression.go:89-124 | on success some tokens were consumed, the rest is a suffix of the input, and it is empty or starts with a token the level rejects |
| ExpressionParser.FoldLevel | parser/expression.go:96-123 | what the loop leaves is a suffix of the tokens it was given, and it stops at a token the level rejects |
| ExpressionParser.ParseFactor | parser/expression.go:197-246 | on success some tokens were consumed, and the rest is a suffix of the input |
| ExpressionParser.IsValidToken | parser/expression.go:23-86 | the isValidToken of each level: a token is valid at the one level LevelOf gives its text; ParseLevel and FoldLevel state that a level stops at a token it rejects |
| ExpressionParser.IsUnaryOp | parser/expression.go:250-253 | the text is `-`, `!` or `~`; FactorShapes states that such a token starts a prefix node |
| ExpressionParser.IsConstant | parser/expression.go:257-260 | the token is a NumericToken; FactorShapes and LiteralEmitted state that it parses as a literal |
| ExpressionParser.GetExpressionFromParser | parser/expression.go:89-124 | the loop computes ParseLevel: one operand, then the left-leaning fold over the level's operators |
| ExpressionParser.IdentifierStartsAssignment | parser/expression.go:128-153 | an identifier not at the end must be followed by "=", else ExpectedAssign; a success is an assignment to that identifier |
| ExpressionParser.FactorShapes | parser/expression.go:197-246 | a factor is a prefix node, a literal or an identifier according to its first token; anything else is UnexpectedFactor |
| ExpressionParser.LevelOf | parser/expression.go:23-86 | operator levels lie between logical-or and factor |
| ExpressionParser.Precedence | parser/expression.go:23-86 | node precedences lie in the same range |
| ExpressionParser.OperatorToken | parser/expression.go:23-86 | the token of an operator is a punctuator with that text |
| ExpressionParser.Emit | parser/expression.go:197-246 | printed expressions are non-empty and never start with an identifier |
| ExpressionParser.FoldEmitted | parser/expression.go:89-124 | parsing a printed tree at its own level reaches the fold with that tree |
| ExpressionParser.FoldOperator | parser/expression.go:101-121 | one more operator and operand at a level builds the infix node with the tree so far as its left child |
| ExpressionParser.OperandEmitted | parser/expression.go:157-192 | the operand of a level parses back a tree printed one level tighter |
| ExpressionParser.LevelEmitted | parser/expression.go:89-124 | a level parses back a tree printed at that level, leaving the rest |
| ExpressionParser.FactorEmitted | parser/expression.go:197-246 | a factor parses back a tree printed as a factor |
| ExpressionParser.LiteralEmitted | parser/expression.go:230-238 | a numeric token parses back as its literal |
| ExpressionParser.PrefixEmitted | parser/expression.go:216-229 | a unary operator before a factor parses back as the prefix node |
| ExpressionParser.ParenthesisedEmitted | parser/expression.go:202-215 | a parenthesised tree parses back as that tree |
| ExpressionParser.ParseEmitted | parser/expression.go:128-246 | parse after print is the identity on arithmetic trees, whatever follows that is not a binary operator |
| ExpressionParser.SubtractionLeftAssociative | parser/expression.go:89-124 | `a - b - c` parses as `(a - b) - c` |
| ExpressionParser.ProductRightOfSum | parser/expression.go:157-192 | `a + b * c` parses as `a + (b * c)` |
| ExpressionParser.ProductLeftOfSum | parser/expression.go:157-192 | `a * b + c` parses as `(a * b) + c` |
| Parser.NonLayout | parser/parser.go:39-56 | the valid tokens contain no whitespace or line-terminator tokens |
| Parser.PrependNothing | parser/parser.go:253-281 | prepending nothing to a loop's result changes nothing |
| Parser.PrependAllDone | parser/parser.go:253-281 | a finished loop returns what it accumulated |
| Parser.PrependAllTwice | parser/parser.go:253-281 | accumulating in two steps is accumulating once |
| Parser.FindText | parser/parser.go:399-415 | the position of the first token with the text, or the end |
| Parser.TokensUntil | parser/parser.go:399-415 | on success at least one token was consumed |
| Parser.TokensUntilFindsFirst | parser/parser.go:399-415 | GetTokensUntil cuts at the first token with the text and includes it exactly when asked |
| Parser.TokensUntilStep | parser/parser.go:399-415 | GetTokensUntil one token at a time, as its loop reads them |
| Parser.TokensUntilFails | parser/parser.go:399-415 | without the text, the lexer's final error is returned |
| Parser.BetweenLoop | parser/parser.go:120-150 | on success at least one token was consumed |
| Parser.BetweenLoopStep | parser/parser.go:120-150 | one token of the depth-counting loop: the closing token at depth 0 ends it, any other is collected |
| Parser.TokensBetween | parser/parser.go:120-150 | on success at least one token was consumed |
| Parser.BetweenLoopBalanced | parser/parser.go:120-150 | the collected tokens are balanced: no prefix closes more pairs than it opened, and the whole closes them all |
| Parser.BetweenLoopSplits | parser/parser.go:120-150 | the collected tokens, the closing token and the rest are exactly the input, and the token after the collected ones closes the pair |
| Parser.ReturnStatementFrom | parser/parser.go:61-75 | on success at least one token was consumed |
| Parser.ExpressionStatementFrom | parser/parser.go:80-92 | on success at least one token was consumed |
| Parser.DeclStatementFrom | parser/parser.go:97-118 | on success at least one token was consumed |
| Parser.IfStatementFrom | parser/parser.go:152-199 | on success at least one token was consumed |
| Parser.StatementFrom | parser/parser.go:222-249 | on success at least one token was consumed |
| Parser.BlockStatementFrom | parser/parser.go:253-281 | on success at least one token was consumed |
| Parser.BlockFrom | parser/parser.go:253-281 | on success at least one token was consumed |
| Parser.BlockStep | parser/parser.go:253-281 | one iteration of the block loop: `}` ends it, otherwise a statement is parsed and appended, and an error ends the loop |
| Parser.BlockItemFrom | parser/parser.go:201-216 | on success at least one token was consumed |
| Parser.ReturnStatementShape | parser/parser.go:61-75 | a return is the expression parsed from the tokens before the first ";"; the ";" is consumed, tokens the expression leaves are dropped, a parse error is returned, and without ";" the lexer's final error is |
| Parser.ExpressionStatementShape | parser/parser.go:80-92 | an expression statement is the expression parsed from the first token and the tokens before ";", with the same error cases and the same dropping of leftover tokens |
| Parser.DeclStatementShape | parser/parser.go:97-118 | a declaration needs an identifier before ";" (IndexOutOfRange when ";" comes first, ExpectedIdentifier otherwise); `id ;` declares it without initializer, a second token other than "=" is ExpectedAssign, and `id = exp ;` takes the expression from the tokens between "=" and ";" |
| Parser.PunctuatorShape | parser/parser.go:341-363 | the next token is taken exactly when its first byte is the punctuator, and it is returned unchanged with the tokens after it |
| Parser.BlockItemKinds | parser/parser.go:201-216 | a block item is a declaration exactly when its first token is "int" |
| Parser.FunctionBodyFrom | parser/parser.go:368-386 | on success at least one token was consumed |
| Parser.FunctionBodyStep | parser/parser.go:368-386 | one iteration of the body loop: `}` ends it, otherwise a block item is parsed and appended |
| Parser.Punctuator | parser/parser.go:341-363 | on success one token was consumed |
| Parser.FunctionFrom | parser/parser.go:329-396 | a parsed function is named by the token after the type, has no parameters, and its return type is the type token's text |
| Parser.ProgramLoop | parser/parser.go:285-325 | every function the loop collects returns "int" and takes no parameters |
| Parser.ProgramStep | parser/parser.go:285-325 | one iteration of the program loop: a token other than "int" is skipped, "int" starts a function |
| Parser.ProgramFrom | parser/parser.go:285-325 | ParseProgram fills only the function list, and every function in it returns "int" and takes no parameters |
| Parser.IfWithoutElseStops | parser/parser.go:152-199 | an if without an else is followed by a token that is not "else" |
| Parser.ElseBindsInnermost | parser/parser.go:152-199 | the dangling else belongs to the innermost if |
| Parser.StatementHasNoDecl | parser/parser.go:222-249 | statements contain no declaration at any depth |
| Parser.BlockHasNoDecl | parser/parser.go:253-281 | blocks contain no declaration at any depth |
| Parser.IfHasNoDecl | parser/parser.go:152-199 | if statements contain no declaration at any depth |
| Parser.ProgramAtEnd | parser/parser.go:296-303 | at the end of the input io.EOF ends an empty program, and any other error is returned |
| Parser.Parser.NewParser | parser/parser.go:18-23 | the pending tokens are the lexer's valid tokens and nothing is buffered |
| Parser.Parser.NextValidToken | parser/parser.go:39-56 | takes the buffered token or the next non-layout token, or returns the lexer's error |
| Parser.Parser.PeekNextValidToken | parser/parser.go:25-36 | returns the next valid token and leaves it pending in the buffer |
| Parser.Parser.GetTokensUntil | parser/parser.go:399-415 | computes TokensUntil over the pending tokens and consumes what it says |
| Parser.Parser.GetStatementTokens | parser/parser.go:417-419 | the tokens up to ";", without it |
| Parser.Parser.GetTokensBetween | parser/parser.go:120-150 | computes TokensBetween over the pending tokens |
| Parser.Parser.CollectBetween | parser/parser.go:120-150 | the depth-counting loop computes BetweenLoop |
| Parser.Parser.ParseReturnStatement | parser/parser.go:61-75 | computes ReturnStatementFrom |
| Parser.Parser.ParseExpressionStatement | parser/parser.go:80-92 | computes ExpressionStatementFrom |
| Parser.Parser.ParseDeclStatement | parser/parser.go:97-118 | computes DeclStatementFrom |
| Parser.Parser.ParseIfStatement | parser/parser.go:152-199 | computes IfStatementFrom |
| Parser.Parser.ParseBlockItem | parser/parser.go:201-216 | computes BlockItemFrom |
| Parser.Parser.ParseStatement | parser/parser.go:222-249 | computes StatementFrom |
| Parser.Parser.ParseBlockStatement | parser/parser.go:253-281 | computes BlockStatementFrom |
| Parser.Parser.ExpectPunctuator | parser/parser.go:341-363 | the next valid token, checked on its first byte |
| Parser.Parser.ParseFunction | parser/parser.go:329-396 | computes FunctionFrom |
| Parser.Parser.ParseFunctionBody | parser/parser.go:368-386 | computes FunctionBodyFrom |
| Parser.Parser.ParseProgram | parser/parser.go:285-325 | computes ProgramFrom over all pending tokens |
| Label.LabelText | generator/label.go:15-19 | a label is its category followed by a non-empty run of decimal digits |
| Label.FirstDigit | generator/label.go:16 | the position of the first digit lies within the string |
| Label.FirstDigitAfter | generator/label.go:16 | in a label of a digit-free category, the digits start right after the category |
| Label.LabelsDistinct | generator/label.go:15-19 | labels differ whenever their categories or their counts differ |
| Label.LabelGenerator.NewLabelGenerator | generator/label.go:11-13 | the count starts at 0 |
| Label.LabelGenerator.GetNextLabel | generator/label.go:15-19 | returns the category with the current count, then increments the count |
| Variable.Slot | generator/variable.go:29-36 | stack slots are negative multiples of 8 |
| Variable.VariableManager.NewVariableManager | generator/variable.go:12-14 | no variables, and the next slot is -8 |
| Variable.VariableManager.VariableExists | generator/variable.go:16-19 | true exactly when the name is declared |
| Variable.VariableManager.GetVariableStackIndex | generator/variable.go:21-27 | the slot of a declared name, and an Undeclared error otherwise |
| Variable.VariableManager.CreateVariable | generator/variable.go:29-36 | a redeclaration is an error and changes nothing; otherwise the name gets the next slot and the next slot moves down by 8 |
| Variable.DistinctCardinality | generator/variable.go:29-36 | the number of names declared equals the number of declarations |
| Variable.StackIndexCountsVariables | generator/variable.go:29-36 | the next slot is -8 times one more than the number of variables |
| Variable.SlotsOrdered | generator/variable.go:29-36 | a variable declared later has a lower slot |
| Variable.SlotsDistinct | generator/variable.go:29-36 | no two variables share a slot |
| Generator.TrimLeftSuffix | generator/generator.go:87-95 | the left trim of strings.TrimSpace drops only a prefix of spaces, and what remains does not start with a space |
| Generator.TrimRightPrefix | generator/generator.go:87-95 | the right trim drops only a suffix of spaces, and what remains does not end with a space |
| Generator.TrimSpaceTrims | generator/generator.go:87-95 | strings.TrimSpace keeps a middle part that has only spaces around it and neither starts nor ends with a space |
| Generator.TrimLeftSkips | generator/generator.go:87-95 | spaces before a text that does not start with a space are trimmed away exactly |
| Generator.TrimRightSkips | generator/generator.go:87-95 | spaces after a text that does not end with a space are trimmed away exactly |
| Generator.TrimSpaceKeeps | generator/generator.go:87-95 | trimming a padded text gives the text back |
| Generator.JoinLinesEnds | generator/generator.go:87-95 | the joined lines start with the first line and end with the last |
| Generator.JoinedLoads | generator/generator.go:69-84 | code that starts with a constant load still does so after lines are appended |
| Generator.GenerateFromIntegerLiteral | generator/generator.go:65-67 | the code of an integer literal starts by loading a constant |
| Generator.IntegerLiteralLine | generator/generator.go:65-67 | the literal's text sits between the load and `, %rax`, so the code is one line exactly when the text has no line break |
| Generator.TrimSpace | generator/generator.go:87-139 | strings.TrimSpace as the templates use it; TrimSpaceTrims states what it removes |
| Generator.NegateAssembly | generator/generator.go:74-76 | the code of `-` and `~` is the operand's code followed by the `neg` line |
| Generator.NotAssembly | generator/generator.go:77-81 | the code of `!` is the operand's code followed by the compare-and-set lines, ending with `sete` |
| Generator.PrefixAssembly | generator/generator.go:74-83 | succeeds exactly for `-`, `~` and `!`, and reports any other operator as unsupported |
| Generator.GenerateFromPrefixExpression | generator/generator.go:69-84 | succeeds only when the operand has code and the operator is `-`, `~` or `!` |
| Generator.GenerateAddAssembly | generator/generator.go:87-95 | once the left operand's code loads a constant, the template is its lines: left operand, push, right operand, pop, add |
| Generator.GenerateSubAssembly | generator/generator.go:98-106 | once the right operand's code loads a constant, the template is its lines: right operand first, then the left, then sub |
| Generator.GenerateMultAssembly | generator/generator.go:109-117 | once the left operand's code loads a constant, the template is its lines: left operand, push, right operand, pop, imul |
| Generator.GenerateDivAssembly | generator/generator.go:120-129 | once the right operand's code loads a constant, the template is its lines: right operand first, then the left, cdq, pop, div |
| Generator.GenerateModuloAssembly | generator/generator.go:132-139 | once the right operand's code loads a constant, the code is the division followed by the move of the remainder into RAX |
| Generator.ArithmeticAssembly | generator/generator.go:153-166 | succeeds exactly for `+`, `*`, `-`, `/` and `%`, and reports any other operator as unsupported |
| Generator.GenerateFromInfixExpression | generator/generator.go:142-167 | succeeds only when both operands have code and the operator is arithmetic; an error of the left operand is returned first |
| Generator.GenerateFromExpression | generator/generator.go:169-180 | identifiers and assignments fail with their literal, and only literal, prefix and infix nodes have code |

| Generator.ExpressionSucceeds | generator/generator.go:169-180 | generation succeeds exactly on the trees made of literals, the prefix operators `-` `~` `!` and the five arithmetic operators |
| Generator.ArithmeticLines | generator/generator.go:87-139 | an arithmetic operator's code has at least one line |
| Generator.TrimmedLoads | generator/generator.go:87-139 | trimming a template whose first line loads a constant removes only the padding |
| Generator.ArithmeticLayout | generator/generator.go:87-139 | each arithmetic template is its lines in order: `+` and `*` evaluate the left operand first, `-` and `/` the right one, and `%` is the division followed by a move of the remainder |
| Generator.ExpressionLoads | generator/generator.go:65-180 | all generated expression code starts by loading a constant |
| Generator.InfixLayout | generator/generator.go:142-167 | the code of an infix node is its operator's lines with the operand codes in template order |
| Generator.StatementSize | generator/generator.go:52-63 | every statement has a positive size, so the statement walk terminates |
| Generator.ElementSize | generator/generator.go:40-50 | a statement is no larger than its list |
| Generator.GenerateFromReturnStatement | generator/generator.go:32-38 | succeeds exactly when the expression is supported, and is the expression's code followed by "ret" |
| Generator.FunctionCode | generator/generator.go:21-30 | a function's code succeeds exactly when its body's does |
| Generator.StatementsCode | generator/generator.go:40-50 | an empty list gives the empty text |
| Generator.StatementsSucceed | generator/generator.go:40-50 | a list has code exactly when every statement does, and otherwise the first failure is the result |
| Generator.StatementsCodeStep | generator/generator.go:40-50 | one iteration of the list loop appends the statement's code and a newline |
| Generator.StatementCode | generator/generator.go:52-63 | only returns, blocks and functions can have code; every other statement fails with its literal |
| Generator.GenerateFromStatement | generator/generator.go:52-63 | computes StatementCode: returns, blocks and functions have code, and every other statement is an error |
| Generator.GenerateFromFunction | generator/generator.go:21-30 | computes FunctionCode: `.globl` name, the label, then the body |
| Generator.GenerateFromBlockStatement | generator/generator.go:40-50 | the loop computes StatementsCode of the block |
| Generator.GenerateFromProgram | generator/generator.go:9-19 | the loop computes StatementsCode of the program's functions; its top-level statements are ignored |
| ExpressionGenerator.ComparatorInstruction | generator/expression.go:155-166 | exactly the six comparison operators have an instruction, and it is a `set` instruction |
| ExpressionGenerator.ComparatorInstructionsDistinct | generator/expression.go:155-166 | no two comparison operators share a set instruction |
| ExpressionGenerator.InfixCode | generator/expression.go:144-173 | the switch on the operator; InfixCodeOutcome states its outcome |
| ExpressionGenerator.InfixCodeOutcome | generator/expression.go:144-173 | the switch succeeds exactly for the arithmetic, comparison and logical operators, reports any other as unsupported, and only `&&` and `\|\|` draw labels, two each |
| ExpressionGenerator.InfixStep | generator/expression.go:133-174 | once both operands have code, an infix node is the switch on its operator at the count the right operand left |
| ExpressionGenerator.ExprCode | generator/expression.go:133-187 | what FromExpression produces with the count it leaves; LabelCount and AgreesWithStateless state its properties |
| ExpressionGenerator.GenerateComparatorAssembly | generator/expression.go:120-130 | once the first operand's code loads a constant, the template is its lines: e1, push, e2, pop, compare, clear RAX, then the set instruction |
| ExpressionGenerator.LogicalAndAssembly | generator/expression.go:85-100 | once the first operand's code loads a constant and the end label is not empty, the `&&` template is its lines in order |
| ExpressionGenerator.LogicalOrAssembly | generator/expression.go:102-118 | once the first operand's code loads a constant and the end label is not empty, the `\|\|` template is its lines in order |

| ExpressionGenerator.LabelCount | generator/expression.go:133-174 | each `&&` and `\|\|` draws exactly two labels on success, and never more in any case |
| ExpressionGenerator.OuterLabelsLast | generator/expression.go:85-118 | the labels of an outer `&&`/`\|\|` are drawn after those of its operands, so they carry the highest numbers |
| ExpressionGenerator.LogicalLabels | generator/expression.go:85-118 | `&&` and `\|\|` always succeed and draw the labels numbered n and n+1 |
| ExpressionGenerator.AgreesWithStateless | generator/expression.go:9-83 | on the trees the stateless generator accepts, this generator produces the same text and draws no label |
| ExpressionGenerator.AssemblyGenerator.GenerateLogicalAndAssembly | generator/expression.go:85-100 | draws "clause" and "end" labels in that order and fills the `&&` template |
| ExpressionGenerator.AssemblyGenerator.GenerateLogicalOrAssembly | generator/expression.go:102-118 | draws "clause" and "end" labels in that order and fills the `\|\|` template |
| ExpressionGenerator.AssemblyGenerator.FromPrefixExpression | generator/expression.go:13-28 | the code and label count are those ExprCode gives |
| ExpressionGenerator.AssemblyGenerator.FromInfixExpression | generator/expression.go:133-174 | the left operand is generated first, then the right one, then the operator's template; the first error ends it |
| ExpressionGenerator.AssemblyGenerator.FromExpression | generator/expression.go:176-187 | the code and label count are those ExprCode gives |

## Left out

- The io.Reader read path of buffer.NewLexer (buffer/lexer.go:19-38) is left out. The model takes the bytes that were read. `FromReadFailure` stands for a read that failed.
- Rune decoding is the source's own arithmetic on the lead byte, as written: its `& 0xF0` masks are not standard UTF-8. Invalid or overlong sequences are not checked, because the source does not check them.
- `unicode.Is(unicode.Zs, r)` is the fixed list of Zs code points. Go's Unicode tables themselves are not modelled.
- Text is a sequence of characters, and Go strings are UTF-8 byte strings. `Text` maps each byte to the character with that code. strings.TrimSpace is modelled on characters: a multi-byte space in a Go string is not decoded into its code point.
- Token offsets are not tracked: tokens carry no position, since the parser never uses one.
- Slices shared between tokens and the buffer are not modelled: token values are copies (`seq<byte>`).
- Go's `int` wrap-around is not modelled. The label count, the stack index and token-type numbers are unbounded integers.
- Error messages are error tags with their data (`ExpectedAssign`, `Undeclared(name)`, …), not the formatted message texts.
- The generator's templates carry trailing `/* ... */` comments, with spaces before them. The model's template lines stop before that padding. All claims about the generated text are about the instructions, not the comments.
- Go panics (indexing an empty token list) are the error value `IndexOutOfRange`. They are not preconditions.
- consumeTemplateToken (lexer/lexer.go:180-182) always fails, so the template branch of `}` is never taken. Nothing in the lexer pushes TemplateContext or StmtParensContext, or sets StmtParensState.
- Ast.NewAssignExpression: the parser calls it with two arguments while it is declared with three (parser/expression.go:146). The model passes the `=` token as the operator.
- Parser.ReturnStatementFrom, ExpressionStatementFrom, DeclStatementFrom, BlockItemFrom and Punctuator: their own contracts state progress only. What they parse is stated by ReturnStatementShape, ExpressionStatementShape, DeclStatementShape, BlockItemKinds and PunctuatorShape.
- Parser.IfStatementFrom, StatementFrom, BlockStatementFrom, BlockFrom, FunctionBodyFrom and TokensBetween: their own contracts state progress only. What they parse is stated by IfWithoutElseStops, ElseBindsInnermost, the NoDecl lemmas, BlockStep, FunctionBodyStep, BetweenLoopBalanced and BetweenLoopSplits.
- The parser's errors do not carry the tokens that remain after them. After an error the parser's state is not specified, because every caller stops there.
- The code generator does not generate if statements, declarations, assignments or variable accesses. The source has no code for them either, and returns its "Failed with" error. `VariableManager` is modelled on its own.
- NewAssemblyGenerator and the assembler entry point that cmd/build.go calls are not part of this model. `AssemblyGenerator` is built around a given `LabelGenerator`.
- What the assembly computes at run time is not modelled: division by zero, `cdq`/`div` semantics, flag settings. Only the text is modelled.
- Lexer.Lexed: which tokens reach the parser is stated as a function of the buffer. The parser takes this token sequence, together with the lexer's final error, as its input.
