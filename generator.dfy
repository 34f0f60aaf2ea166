/** The stateless x86-64 code generator (generator/generator.go): assembly
    text templates for literals, prefix and arithmetic infix expressions,
    and the statement walk that concatenates the code of return statements,
    blocks and functions. Errors are tags rather than message texts. */
module Generator {
  import opened Common
  import opened AstTypes
  import opened Ast

  datatype GenError =
    | UnsupportedPrefix(op: string)
    | UnsupportedInfix(op: string)
      /** A node kind the generator has no case for, by its TokenLiteral. */
    | Failed(kind: string)

  /** Go's unicode.IsSpace: the Latin-1 spaces and the Unicode White_Space
      characters above them. */
  predicate IsSpace(c: char)
  {
    c == '\t' || c == '\n' || c == '\U{000B}' || c == '\U{000C}' || c == '\r' || c == ' ' ||
    c == '\U{0085}' || c == '\U{00A0}' || c == '\U{1680}' || ('\U{2000}' <= c <= '\U{200A}') ||
    c == '\U{2028}' || c == '\U{2029}' || c == '\U{202F}' || c == '\U{205F}' || c == '\U{3000}'
  }

  predicate AllSpace(s: string)
  {
    forall i :: 0 <= i < |s| ==> IsSpace(s[i])
  }

  function TrimLeft(s: string): string
  {
    if s != [] && IsSpace(s[0]) then TrimLeft(s[1..]) else s
  }

  function TrimRight(s: string): string
  {
    if s != [] && IsSpace(s[|s| - 1]) then TrimRight(s[..|s| - 1]) else s
  }

  /** strings.TrimSpace. Its properties are stated by TrimSpaceTrims, apart
      from the function, so that the many templates built on it stay cheap
      to unfold. */
  function TrimSpace(s: string): string
  {
    TrimRight(TrimLeft(s))
  }

  /** TrimLeft drops a prefix of spaces, and what is left does not start
      with a space. */
  lemma {:induction false} TrimLeftSuffix(s: string)
    ensures |TrimLeft(s)| <= |s| && TrimLeft(s) == s[|s| - |TrimLeft(s)|..]
    ensures AllSpace(s[..|s| - |TrimLeft(s)|])
    ensures TrimLeft(s) == [] || !IsSpace(TrimLeft(s)[0])
  {
    if s != [] && IsSpace(s[0]) {
      TrimLeftSuffix(s[1..]);
      var k := |s| - |TrimLeft(s)|;
      assert s[..k] == [s[0]] + s[1..][..k - 1];
    }
  }

  /** TrimRight drops a suffix of spaces, and what is left does not end with
      a space. */
  lemma {:induction false} TrimRightPrefix(s: string)
    ensures |TrimRight(s)| <= |s| && TrimRight(s) == s[..|TrimRight(s)|]
    ensures AllSpace(s[|TrimRight(s)|..])
    ensures TrimRight(s) == [] || !IsSpace(TrimRight(s)[|TrimRight(s)| - 1])
  {
    if s != [] && IsSpace(s[|s| - 1]) {
      var init := s[..|s| - 1];
      TrimRightPrefix(init);
      var k := |TrimRight(s)|;
      assert s[k..] == init[k..] + [s[|s| - 1]];
    }
  }

  /** strings.TrimSpace removes a run of spaces at each end and nothing else:
      the input is the result with only spaces before it (the first `i`
      characters) and after it, and the result neither starts nor ends
      with a space. */
  lemma TrimSpaceTrims(s: string) returns (i: nat)
    ensures var r := TrimSpace(s);
      i + |r| <= |s| && r == s[i..i + |r|] &&
      AllSpace(s[..i]) && AllSpace(s[i + |r|..]) &&
      (r == [] || (!IsSpace(r[0]) && !IsSpace(r[|r| - 1])))
  {
    var l := TrimLeft(s);
    TrimLeftSuffix(s);
    TrimRightPrefix(l);
    var r := TrimRight(l);
    i := |s| - |l|;
    assert r == l[..|r|] == s[i..i + |r|];
    assert s[i + |r|..] == l[|r|..];
  }

  lemma {:induction false} TrimLeftSkips(lead: string, x: string)
    requires AllSpace(lead)
    requires |x| > 0 && !IsSpace(x[0])
    ensures TrimLeft(lead + x) == x
  {
    if lead == [] {
      assert lead + x == x;
    } else {
      assert (lead + x)[1..] == lead[1..] + x;
      TrimLeftSkips(lead[1..], x);
    }
  }

  lemma {:induction false} TrimRightSkips(x: string, trail: string)
    requires AllSpace(trail)
    requires |x| > 0 && !IsSpace(x[|x| - 1])
    ensures TrimRight(x + trail) == x
  {
    if trail == [] {
      assert x + trail == x;
    } else {
      var init := trail[..|trail| - 1];
      assert (x + trail)[..|x + trail| - 1] == x + init;
      TrimRightSkips(x, init);
    }
  }

  /** Trimming a text that is padded with spaces on both sides, and that
      neither starts nor ends with a space itself, gives the text back. */
  lemma TrimSpaceKeeps(lead: string, x: string, trail: string)
    requires AllSpace(lead) && AllSpace(trail)
    requires |x| > 0 && !IsSpace(x[0]) && !IsSpace(x[|x| - 1])
    ensures TrimSpace(lead + x + trail) == x
  {
    assert lead + x + trail == lead + (x + trail);
    TrimLeftSkips(lead, x + trail);
    TrimRightSkips(x, trail);
  }

  /** Lines joined with "\n"; a line may itself hold several. */
  function JoinLines(lines: seq<string>): string
    requires |lines| > 0
  {
    if |lines| == 1 then lines[0]
    else
      lines[0] + "\n" + JoinLines(lines[1..])
  }

  /** The joined text starts with the first line and ends with the last. */
  lemma {:induction false} JoinLinesEnds(lines: seq<string>)
    requires |lines| > 0
    ensures var s := JoinLines(lines);
      lines[0] <= s &&
      |s| >= |lines[|lines| - 1]| && s[|s| - |lines[|lines| - 1]|..] == lines[|lines| - 1]
  {
    if |lines| > 1 {
      JoinLinesEnds(lines[1..]);
      var rest := JoinLines(lines[1..]);
      assert JoinLines(lines) == lines[0] + ("\n" + rest);
    }
  }

  /** Every piece of expression code starts by loading a constant. */
  const LoadPrefix := "mov    $"

  predicate Loads(code: string)
  {
    LoadPrefix <= code
  }

  lemma JoinedLoads(lines: seq<string>)
    requires |lines| > 0 && Loads(lines[0])
    ensures Loads(JoinLines(lines))
  {
    JoinLinesEnds(lines);
  }

  /** The lines of the templates, without their trailing comments. */
  const PushFirst := "push   %rax"
  const PopSecond := "pop    %rcx"
  const AddLine := "add    %rcx, %rax"
  const PushSecond := "push   %rax"
  const PopFirst := "pop    %rcx"
  const SubLine := "sub    %rcx, %rax"
  const MultLine := "imul   %rcx, %rax"
  const DivPush := "push   %rax"
  const CdqLine := "cdq"
  const DivPop := "pop    %rcx"
  const DivLine := "div    %rcx"
  const RemainderLine := "mov    %rdx, %rax"
  const NegLine := "neg    %rax"
  const NotCompare := "cmp    $0, %rax"
  const NotClear := "mov    $0, %rax"
  const NotSet := "sete   %al"

  /** A single line loading the literal's decimal text into RAX: the text
      sits between the load and the register, and adds no line break. */
  function GenerateFromIntegerLiteral(value: string): (code: string)
    ensures Loads(code)
  {
    LoadPrefix + value + ", %rax"
  }

  /** The literal's text sits between the load and the register, so the
      code is one line exactly when the text holds no line break. */
  lemma IntegerLiteralLine(value: string)
    ensures var code := GenerateFromIntegerLiteral(value);
      && |code| == |LoadPrefix| + |value| + |", %rax"|
      && code[|LoadPrefix|..|LoadPrefix| + |value|] == value
      && code[|LoadPrefix| + |value|..] == ", %rax"
      && ('\n' in code <==> '\n' in value)
  {
  }

  /** The operand's code followed by `neg`, the code of `-` and `~`: the
      operand's code comes first, the negation last. */
  function NegateAssembly(c: string): (code: string)
    ensures c <= code && |code| >= |NegLine| && code[|code| - |NegLine|..] == NegLine
  {
    JoinLinesEnds([c, NegLine]);
    JoinLines([c, NegLine])
  }

  /** The operand's code followed by the compare-and-set sequence of `!`:
      the operand's code comes first, the set of AL last. */
  function NotAssembly(c: string): (code: string)
    ensures c <= code && |code| >= |NotSet| && code[|code| - |NotSet|..] == NotSet
  {
    JoinLinesEnds([c, NotCompare, NotClear, NotSet]);
    JoinLines([c, NotCompare, NotClear, NotSet])
  }

  /** The addition template: once the left operand's code loads a constant,
      the trimming removes only the padding, and the code is its lines. */
  function GenerateAddAssembly(e1: string, e2: string): (code: string)
    ensures Loads(e1) ==> code == JoinLines([e1, PushFirst, e2, PopSecond, AddLine]) && Loads(code)
  {
    var lines := [e1, PushFirst, e2, PopSecond, AddLine];
    var code := TrimSpace("\n" + JoinLines(lines) + "\n");
    if Loads(e1) then TrimmedLoads(lines, "\n"); code else code
  }

  /** The right operand is evaluated first. */
  function GenerateSubAssembly(e1: string, e2: string): (code: string)
    ensures Loads(e2) ==> code == JoinLines([e2, PushSecond, e1, PopFirst, SubLine]) && Loads(code)
  {
    var lines := [e2, PushSecond, e1, PopFirst, SubLine];
    var code := TrimSpace("\n" + JoinLines(lines) + "\n");
    if Loads(e2) then TrimmedLoads(lines, "\n"); code else code
  }

  function GenerateMultAssembly(e1: string, e2: string): (code: string)
    ensures Loads(e1) ==> code == JoinLines([e1, PushFirst, e2, PopSecond, MultLine]) && Loads(code)
  {
    var lines := [e1, PushFirst, e2, PopSecond, MultLine];
    var code := TrimSpace("\n" + JoinLines(lines) + "\n\t");
    if Loads(e1) then TrimmedLoads(lines, "\n\t"); code else code
  }

  /** The right operand is evaluated first. */
  function GenerateDivAssembly(e1: string, e2: string): (code: string)
    ensures Loads(e2) ==> code == JoinLines([e2, DivPush, e1, CdqLine, DivPop, DivLine]) && Loads(code)
  {
    var lines := [e2, DivPush, e1, CdqLine, DivPop, DivLine];
    var code := TrimSpace("\n" + JoinLines(lines) + "\n\t");
    if Loads(e2) then TrimmedLoads(lines, "\n\t"); code else code
  }

  /** The division followed by a move of the remainder into RAX. */
  function GenerateModuloAssembly(e1: string, e2: string): (code: string)
    ensures Loads(e2) ==> code == JoinLines([GenerateDivAssembly(e1, e2), RemainderLine]) && Loads(code)
  {
    var lines := [GenerateDivAssembly(e1, e2), RemainderLine];
    var code := TrimSpace("\n" + JoinLines(lines) + "\n\t");
    if Loads(e2) then TrimmedLoads(lines, "\n\t"); code else code
  }

  /** The prefix operators the generator knows: `-` and `~` negate, `!`
      compares with zero. */
  predicate IsPrefixOperator(op: string)
  {
    op == "-" || op == "~" || op == "!"
  }

  predicate IsArithmeticOperator(op: string)
  {
    op == "+" || op == "*" || op == "-" || op == "/" || op == "%"
  }

  /** The trees the stateless generator accepts: integer literals, the three
      prefix operators and the five arithmetic infix operators. */
  predicate Supported(e: Expression)
  {
    match e
    case IntegerLiteral(_) => true
    case PrefixExpression(op, x) => IsPrefixOperator(op) && Supported(x)
    case InfixExpression(op, l, r) => IsArithmeticOperator(op) && Supported(l) && Supported(r)
    case _ => false
  }

  /** The switch on the prefix operator once the operand is generated. */
  function PrefixAssembly(op: string, c: string): (r: Result<string, GenError>)
    ensures r.Ok? <==> IsPrefixOperator(op)
    ensures r.Err? ==> r.error == UnsupportedPrefix(op)
  {
    if op == "-" || op == "~" then Ok(NegateAssembly(c))
    else if op == "!" then Ok(NotAssembly(c))
    else Err(UnsupportedPrefix(op))
  }

  /** The operand's code first; its error, or an unknown operator, fails. */
  function GenerateFromPrefixExpression(e: Expression): (r: Result<string, GenError>)
    requires e.PrefixExpression?
    ensures r.Ok? ==> IsPrefixOperator(e.operator) && GenerateFromExpression(e.operand).Ok?
    decreases e, 1
  {
    var c := GenerateFromExpression(e.operand);
    if c.Err? then c else PrefixAssembly(e.operator, c.value)
  }

  /** The switch on the operator once both operands are generated. */
  function ArithmeticAssembly(op: string, l: string, r: string): (c: Result<string, GenError>)
    ensures c.Ok? <==> IsArithmeticOperator(op)
    ensures c.Err? ==> c.error == UnsupportedInfix(op)
  {
    if op == "+" then Ok(GenerateAddAssembly(l, r))
    else if op == "*" then Ok(GenerateMultAssembly(l, r))
    else if op == "-" then Ok(GenerateSubAssembly(l, r))
    else if op == "/" then Ok(GenerateDivAssembly(l, r))
    else if op == "%" then Ok(GenerateModuloAssembly(l, r))
    else Err(UnsupportedInfix(op))
  }

  /** The left operand's code, then the right one's; the first error wins,
      and an unknown operator fails. */
  function GenerateFromInfixExpression(e: Expression): (c: Result<string, GenError>)
    requires e.InfixExpression?
    ensures c.Ok? ==> IsArithmeticOperator(e.operator) &&
                      GenerateFromExpression(e.lhs).Ok? && GenerateFromExpression(e.rhs).Ok?
    ensures GenerateFromExpression(e.lhs).Err? ==> c == GenerateFromExpression(e.lhs)
    decreases e, 1
  {
    var l := GenerateFromExpression(e.lhs);
    if l.Err? then l
    else
      var r := GenerateFromExpression(e.rhs);
      if r.Err? then r
      else ArithmeticAssembly(e.operator, l.value, r.value)
  }

  /** Only literals, prefix and infix nodes have code: an identifier or an
      assignment fails with the node's literal. */
  function GenerateFromExpression(e: Expression): (r: Result<string, GenError>)
    ensures e.IdentifierNode? || e.AssignExpression? ==> r == Err(Failed(ExpressionLiteral(e)))
    ensures r.Ok? ==> e.IntegerLiteral? || e.PrefixExpression? || e.InfixExpression?
    decreases e, 2
  {
    match e
    case IntegerLiteral(v) => Ok(GenerateFromIntegerLiteral(v))
    case PrefixExpression(_, _) => GenerateFromPrefixExpression(e)
    case InfixExpression(_, _, _) => GenerateFromInfixExpression(e)
    case _ => Err(Failed(ExpressionLiteral(e)))
  }

  /** Generation succeeds exactly on the supported trees, and what it produces
      starts by loading a constant. */
  lemma {:induction false} ExpressionSucceeds(e: Expression)
    ensures GenerateFromExpression(e).Ok? <==> Supported(e)
  {
    match e
    case IntegerLiteral(_) =>
    case PrefixExpression(op, x) =>
      ExpressionSucceeds(x);
    case InfixExpression(op, l, r) =>
      ExpressionSucceeds(l);
      ExpressionSucceeds(r);
    case _ =>
  }

  /** The lines of the code of an arithmetic operator, operands included:
      the left operand's code comes first for `+` and `*`, the right one's
      for `-` and `/`, and `%` is the division followed by a move of the
      remainder. */
  function ArithmeticLines(op: string, l: string, r: string): (lines: seq<string>)
    requires IsArithmeticOperator(op)
    ensures |lines| > 0
  {
    if op == "+" then [l, PushFirst, r, PopSecond, AddLine]
    else if op == "*" then [l, PushFirst, r, PopSecond, MultLine]
    else if op == "-" then [r, PushSecond, l, PopFirst, SubLine]
    else if op == "/" then [r, DivPush, l, CdqLine, DivPop, DivLine]
    else [JoinLines([r, DivPush, l, CdqLine, DivPop, DivLine]), RemainderLine]
  }

  lemma TrimmedLoads(lines: seq<string>, trail: string)
    requires |lines| > 0 && Loads(lines[0])
    requires trail == "\n" || trail == "\n\t"
    requires var last := lines[|lines| - 1]; |last| > 0 && !IsSpace(last[|last| - 1])
    ensures TrimSpace("\n" + JoinLines(lines) + trail) == JoinLines(lines)
    ensures Loads(JoinLines(lines))
  {
    var s := JoinLines(lines);
    JoinLinesEnds(lines);
    assert s[0] == lines[0][0] == 'm';
    assert s[|s| - 1] == lines[|lines| - 1][|lines[|lines| - 1]| - 1];
    assert AllSpace("\n") && AllSpace(trail);
    TrimSpaceKeeps("\n", s, trail);
  }

  /** The trimming in the templates removes only the padding around them:
      once both operand codes start by loading a constant, an arithmetic
      template is its lines in order, and starts by loading a constant too. */
  lemma ArithmeticLayout(op: string, l: string, r: string)
    requires Loads(l) && Loads(r) && IsArithmeticOperator(op)
    ensures ArithmeticAssembly(op, l, r) == Ok(JoinLines(ArithmeticLines(op, l, r)))
    ensures Loads(JoinLines(ArithmeticLines(op, l, r)))
  {
    if op == "+" {
      TrimmedLoads([l, PushFirst, r, PopSecond, AddLine], "\n");
    } else if op == "*" {
      TrimmedLoads([l, PushFirst, r, PopSecond, MultLine], "\n\t");
    } else if op == "-" {
      TrimmedLoads([r, PushSecond, l, PopFirst, SubLine], "\n");
    } else if op == "/" {
      TrimmedLoads([r, DivPush, l, CdqLine, DivPop, DivLine], "\n\t");
    } else {
      var div := [r, DivPush, l, CdqLine, DivPop, DivLine];
      TrimmedLoads(div, "\n\t");
      TrimmedLoads([JoinLines(div), RemainderLine], "\n\t");
    }
  }

  lemma {:induction false} ExpressionLoads(e: Expression)
    requires GenerateFromExpression(e).Ok?
    ensures Loads(GenerateFromExpression(e).value)
  {
    match e
    case IntegerLiteral(_) =>
    case PrefixExpression(op, x) =>
      ExpressionLoads(x);
      var c := GenerateFromExpression(x).value;
      if op == "-" || op == "~" {
        JoinedLoads([c, NegLine]);
      } else {
        JoinedLoads([c, NotCompare, NotClear, NotSet]);
      }
    case InfixExpression(op, l, r) =>
      ExpressionLoads(l);
      ExpressionLoads(r);
      ArithmeticLayout(op, GenerateFromExpression(l).value, GenerateFromExpression(r).value);
  }

  /** The code of a supported infix node is the lines of its operator, with
      the operand codes in the order the template gives them. */
  lemma InfixLayout(op: string, l: Expression, r: Expression)
    requires Supported(InfixExpression(op, l, r))
    ensures GenerateFromExpression(l).Ok? && GenerateFromExpression(r).Ok?
    ensures GenerateFromExpression(InfixExpression(op, l, r)) ==
            Ok(JoinLines(ArithmeticLines(op, GenerateFromExpression(l).value, GenerateFromExpression(r).value)))
  {
    ExpressionSucceeds(l);
    ExpressionSucceeds(r);
    ExpressionLoads(l);
    ExpressionLoads(r);
    ArithmeticLayout(op, GenerateFromExpression(l).value, GenerateFromExpression(r).value);
  }

  /** A measure for the statement walk: a function counts one more than the
      block that is its body. */
  function StatementSize(s: Statement): (n: nat)
    ensures n >= 1
  {
    match s
    case Block(b) => 1 + StatementsSize(b.statements)
    case FunctionStatement(_, _, b, _) => 2 + StatementsSize(b.statements)
    case IfStatement(_, t, e) => 1 + StatementSize(t) + (if e.Some? then StatementSize(e.value) else 0)
    case _ => 1
  }

  function StatementsSize(ss: seq<Statement>): nat
  {
    if ss == [] then 0 else StatementSize(ss[0]) + StatementsSize(ss[1..])
  }

  lemma {:induction false} ElementSize(ss: seq<Statement>, i: nat)
    requires i < |ss|
    ensures StatementSize(ss[i]) <= StatementsSize(ss)
  {
    if i > 0 {
      ElementSize(ss[1..], i - 1);
    }
  }

  /** `prefix` put in front of a successful result; an error passes through. */
  function Prepend(prefix: string, r: Result<string, GenError>): Result<string, GenError>
  {
    if r.Ok? then Ok(prefix + r.value) else r
  }

  function GenerateFromReturnStatement(s: Statement): (r: Result<string, GenError>)
    requires s.ReturnStatement?
    ensures r.Ok? <==> Supported(s.returnValue)
    ensures r.Ok? ==> GenerateFromExpression(s.returnValue).Ok? &&
                      r.value == GenerateFromExpression(s.returnValue).value + "\nret"
  {
    ExpressionSucceeds(s.returnValue);
    var c := GenerateFromExpression(s.returnValue);
    if c.Err? then c
    else
      assert JoinLines([c.value, "ret"]) == c.value + "\n" + "ret" == c.value + "\nret";
      Ok(JoinLines([c.value, "ret"]))
  }

  /** What GenerateFromStatement produces: return statements, blocks and
      functions have code; every other statement is an error. */
  function StatementCode(s: Statement): (r: Result<string, GenError>)
    ensures r.Ok? ==> s.ReturnStatement? || s.Block? || s.FunctionStatement?
    ensures !(s.ReturnStatement? || s.Block? || s.FunctionStatement?) ==> r == Err(Failed(StatementLiteral(s)))
    decreases StatementSize(s), 1
  {
    match s
    case ReturnStatement(_) => GenerateFromReturnStatement(s)
    case Block(b) => StatementsCode(b.statements)
    case FunctionStatement(_, _, _, _) => FunctionCode(s)
    case _ => Err(Failed(StatementLiteral(s)))
  }

  /** A function's code: its name declared global, its label, then the code
      of its body. */
  function FunctionCode(f: Statement): (r: Result<string, GenError>)
    requires f.FunctionStatement?
    decreases StatementSize(f), 0
    ensures r.Ok? <==> StatementsCode(f.body.statements).Ok?
  {
    var body := StatementCode(Block(f.body));
    if body.Err? then body
    else Ok(".globl " + f.name + "\n" + f.name + ":\n" + body.value)
  }

  /** The code of a statement list: each statement's code followed by "\n".
      It succeeds exactly when every statement does; the first failure is
      the result. */
  function StatementsCode(ss: seq<Statement>): (r: Result<string, GenError>)
    decreases StatementsSize(ss), 2
    ensures ss == [] ==> r == Ok("")
  {
    if ss == [] then Ok("")
    else
      var head := StatementCode(ss[0]);
      if head.Err? then head
      else
        Prepend(head.value + "\n", StatementsCode(ss[1..]))
  }

  /** A statement list has code exactly when every statement has; otherwise
      the first failure is the result. */
  lemma {:induction false} StatementsSucceed(ss: seq<Statement>)
    ensures StatementsCode(ss).Ok? <==> forall i :: 0 <= i < |ss| ==> StatementCode(ss[i]).Ok?
    ensures StatementsCode(ss).Err? ==>
      exists k :: 0 <= k < |ss| && StatementsCode(ss) == StatementCode(ss[k]) &&
        forall j :: 0 <= j < k ==> StatementCode(ss[j]).Ok?
  {
    if ss != [] {
      StatementsSucceed(ss[1..]);
      assert forall i :: 1 <= i < |ss| ==> ss[1..][i - 1] == ss[i];
      if StatementCode(ss[0]).Ok? && StatementsCode(ss).Err? {
        var k :| 0 <= k < |ss[1..]| && StatementsCode(ss[1..]) == StatementCode(ss[1..][k]) &&
          forall j :: 0 <= j < k ==> StatementCode(ss[1..][j]).Ok?;
        assert StatementsCode(ss) == StatementCode(ss[k + 1]);
      }
    }
  }

  lemma StatementsCodeStep(ss: seq<Statement>, i: nat, src: string)
    requires i < |ss| && StatementCode(ss[i]).Ok?
    ensures Prepend(src, StatementsCode(ss[i..])) ==
            Prepend(src + StatementCode(ss[i]).value + "\n", StatementsCode(ss[i + 1..]))
  {
    assert ss[i..][0] == ss[i] && ss[i..][1..] == ss[i + 1..];
    var x := StatementCode(ss[i]).value + "\n";
    var rest := StatementsCode(ss[i + 1..]);
    if rest.Ok? {
      assert src + (x + rest.value) == src + StatementCode(ss[i]).value + "\n" + rest.value;
    }
  }

  method GenerateFromStatement(s: Statement) returns (r: Result<string, GenError>)
    ensures r == StatementCode(s)
    decreases StatementSize(s), 1
  {
    match s
    case ReturnStatement(_) =>
      r := GenerateFromReturnStatement(s);
    case Block(b) =>
      r := GenerateFromBlockStatement(b);
    case FunctionStatement(_, _, _, _) =>
      r := GenerateFromFunction(s);
    case _ =>
      r := Err(Failed(StatementLiteral(s)));
  }

  method GenerateFromFunction(f: Statement) returns (r: Result<string, GenError>)
    requires f.FunctionStatement?
    ensures r == FunctionCode(f)
    decreases StatementSize(f), 0
  {
    var body := GenerateFromStatement(Block(f.body));
    if body.Err? {
      return body;
    }
    r := Ok(".globl " + f.name + "\n" + f.name + ":\n" + body.value);
  }

  method GenerateFromBlockStatement(block: BlockStatement) returns (r: Result<string, GenError>)
    ensures r == StatementsCode(block.statements)
    decreases StatementsSize(block.statements), 2
  {
    var ss := block.statements;
    var src := "";
    var i := 0;
    assert ss[0..] == ss;
    assert StatementsCode(ss).Ok? ==> "" + StatementsCode(ss).value == StatementsCode(ss).value;
    while i < |ss|
      invariant i <= |ss|
      invariant StatementsCode(ss) == Prepend(src, StatementsCode(ss[i..]))
    {
      ElementSize(ss, i);
      var stmtString := GenerateFromStatement(ss[i]);
      if stmtString.Err? {
        assert ss[i..][0] == ss[i];
        return stmtString;
      }
      StatementsCodeStep(ss, i, src);
      src := src + stmtString.value + "\n";
      i := i + 1;
    }
    assert ss[i..] == [] && src + "" == src;
    r := Ok(src);
  }

  /** Only the functions of the program are generated, each followed by
      "\n"; its top-level statements are ignored. */
  method GenerateFromProgram(p: Program) returns (r: Result<string, GenError>)
    ensures r == StatementsCode(p.functions)
  {
    var fs := p.functions;
    var src := "";
    var i := 0;
    assert fs[0..] == fs;
    assert StatementsCode(fs).Ok? ==> "" + StatementsCode(fs).value == StatementsCode(fs).value;
    while i < |fs|
      invariant i <= |fs|
      invariant StatementsCode(fs) == Prepend(src, StatementsCode(fs[i..]))
    {
      var fnString := GenerateFromStatement(fs[i]);
      if fnString.Err? {
        assert fs[i..][0] == fs[i];
        return fnString;
      }
      StatementsCodeStep(fs, i, src);
      src := src + fnString.value + "\n";
      i := i + 1;
    }
    assert fs[i..] == [] && src + "" == src;
    r := Ok(src);
  }
}
