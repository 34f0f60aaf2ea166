/** The tokenizer's enumerations and the Token record (lexer/types.go). */
module LexerTypes {
  import opened Common

  /** Go's uint32 enumeration types. */
  newtype uint32 = x: int | 0 <= x < 0x1_0000_0000

  type TokenState = uint32
  const ExprState: TokenState := 0
  const StmtParensState: TokenState := 1
  const SubscriptState: TokenState := 2
  const PropNameState: TokenState := 3

  type ParsingContext = uint32
  const GlobalContext: ParsingContext := 0
  const StmtParensContext: ParsingContext := 1
  const ExprParensContext: ParsingContext := 2
  const BracesContext: ParsingContext := 3
  const TemplateContext: ParsingContext := 4

  type TokenType = uint32
  const ErrToken: TokenType := 0
  const UnknownToken: TokenType := 1
  const IdentifierToken: TokenType := 2
  const WhitespaceToken: TokenType := 3
  const PunctuatorToken: TokenType := 4
  const TemplateToken: TokenType := 5
  const LineTerminatorToken: TokenType := 6
  const NumericToken: TokenType := 7

  /** A token: its kind and its raw bytes, and nothing else (no offset). */
  datatype Token = Token(tokenType: TokenType, value: seq<byte>)

  const InvalidPrefix: string := "Invalid("

  /** The fixed names of the eight defined kinds. */
  function KindName(tt: TokenType): (s: string)
    requires tt <= NumericToken
    ensures |s| >= 2 && (s[0] != 'I' || s[1] != 'n')
  {
    match tt
    case 0 => "Error"
    case 1 => "Unknown"
    case 2 => "Identifier"
    case 3 => "Whitespace"
    case 4 => "Punctuator"
    case 5 => "Template"
    case 6 => "LineTerminator"
    case _ => "Numeric"
  }

  /** TokenType.String: a defined kind renders as its name, any other value
      as "Invalid(" followed by its decimal value and ")". */
  function TokenTypeString(tt: TokenType): (s: string)
    ensures tt <= NumericToken ==> !(|s| >= |InvalidPrefix| && s[..|InvalidPrefix|] == InvalidPrefix)
    ensures tt > NumericToken ==> |s| > |InvalidPrefix| + 1 && s[..|InvalidPrefix|] == InvalidPrefix
    ensures tt > NumericToken ==> s[|s| - 1] == ')' && AllDigits(s[|InvalidPrefix|..|s| - 1])
    ensures tt > NumericToken ==> DigitsValue(s[|InvalidPrefix|..|s| - 1]) == tt as int
  {
    if tt <= NumericToken then
      KindName(tt)
    else
      var digits := NatToString(tt as nat);
      NatToStringValue(tt as nat);
      var s := InvalidPrefix + digits + ")";
      assert s[|InvalidPrefix|..|s| - 1] == digits;
      s
  }

  /** Distinct token types never render to the same text. */
  lemma TokenTypeStringInjective(a: TokenType, b: TokenType)
    requires TokenTypeString(a) == TokenTypeString(b)
    ensures a == b
  {
    var s := TokenTypeString(a);
    if a > NumericToken && b > NumericToken {
      assert DigitsValue(s[|InvalidPrefix|..|s| - 1]) == a as int;
    } else if a <= NumericToken && b <= NumericToken {
      assert KindName(a) == KindName(b);
    }
  }
}
