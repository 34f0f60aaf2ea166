/** The label-drawing code generator (generator/expression.go). It adds the
    comparisons and the short-circuit `&&` and `||` to the stateless
    generator's expressions; the last two draw a "clause" and an "end" label
    from a shared LabelGenerator once both operands are generated. Its
    arithmetic and prefix templates are the same texts as the stateless
    generator's, and are taken from there. */
module ExpressionGenerator {
  import opened Common
  import opened AstTypes
  import opened Ast
  import opened Label
  import opened Generator

  /** A result with the label count once it was produced. */
  datatype Generated = Generated(result: Result<string, GenError>, count: nat)

  const CompareFirst := "cmp   $0, %rax"
  const CompareSecond := "\tcmp   $0, %rax"
  const ResetRax := "\tmov   $0, %rax"
  const SetNotEqual := "\tsetne %al"

  /** The lines of `&&`: jump past the second operand when the first is 0. */
  function LogicalAndLines(e1: string, e2: string, clause: string, end: string): seq<string>
  {
    [e1, CompareFirst,
     "jne   " + clause,
     "jmp   " + end,
     clause + ":",
     "\t" + e2, CompareSecond, ResetRax, SetNotEqual,
     end + ":"]
  }

  /** The lines of `||`: give 1 without the second operand when the first is
      not 0. */
  function LogicalOrLines(e1: string, e2: string, clause: string, end: string): seq<string>
  {
    [e1, CompareFirst,
     "je    " + clause,
     "mov   $1, %rax",
     "jmp   " + end,
     clause + ":",
     "\t" + e2, CompareSecond, ResetRax, SetNotEqual,
     end + ":"]
  }

  /** The lines of a comparison: e1 is pushed, e2 computed, and the set
      instruction turns the flags into 0 or 1. */
  function ComparatorLines(instr: string, e1: string, e2: string): seq<string>
  {
    [e1, "push    %rax", e2, "pop\t\t%rcx",
     "cmp    %rax, %rcx",
     "mov    $0, %rax",
     instr + "    %al"]
  }

  /** The `&&` template: once the first operand's code loads a constant and
      the end label is not empty, the trimming removes only the padding. */
  function LogicalAndAssembly(e1: string, e2: string, clause: string, end: string): (code: string)
    ensures Loads(e1) && |end| > 0 ==> code == JoinLines(LogicalAndLines(e1, e2, clause, end)) && Loads(code)
  {
    var lines := LogicalAndLines(e1, e2, clause, end);
    var code := TrimSpace("\n" + JoinLines(lines) + "\n");
    if Loads(e1) && |end| > 0 then TrimmedLoads(lines, "\n"); code else code
  }

  /** The `||` template, under the same conditions. */
  function LogicalOrAssembly(e1: string, e2: string, clause: string, end: string): (code: string)
    ensures Loads(e1) && |end| > 0 ==> code == JoinLines(LogicalOrLines(e1, e2, clause, end)) && Loads(code)
  {
    var lines := LogicalOrLines(e1, e2, clause, end);
    var code := TrimSpace("\n" + JoinLines(lines) + "\n");
    if Loads(e1) && |end| > 0 then TrimmedLoads(lines, "\n"); code else code
  }

  /** The comparison template: once the first operand's code loads a
      constant, the code is its lines in order. */
  function GenerateComparatorAssembly(instr: string, e1: string, e2: string): (code: string)
    ensures Loads(e1) ==> code == JoinLines(ComparatorLines(instr, e1, e2)) && Loads(code)
  {
    var lines := ComparatorLines(instr, e1, e2);
    var code := TrimSpace("\n" + JoinLines(lines) + "\n\t");
    if Loads(e1) then TrimmedLoads(lines, "\n\t"); code else code
  }

  /** The set instruction of each comparison operator: one per operator, and
      no two operators share one. */
  function ComparatorInstruction(op: string): (instr: Option<string>)
    ensures instr.Some? <==> op in {"==", "!=", ">", ">=", "<", "<="}
    ensures instr.Some? ==> "set" <= instr.value
  {
    if op == "==" then Some("sete")
    else if op == "!=" then Some("setne")
    else if op == ">" then Some("setg")
    else if op == ">=" then Some("setge")
    else if op == "<" then Some("setl")
    else if op == "<=" then Some("setle")
    else None
  }

  /** Two comparison operators never share a set instruction. */
  lemma ComparatorInstructionsDistinct(a: string, b: string)
    requires ComparatorInstruction(a).Some? && ComparatorInstruction(b).Some? && a != b
    ensures ComparatorInstruction(a).value != ComparatorInstruction(b).value
  {
  }

  predicate IsLogicalOperator(op: string)
  {
    op == "&&" || op == "||"
  }

  /** The switch on the infix operator once both operands are generated at
      label count `n`; `&&` and `||` draw the labels numbered n and n + 1. */
  function InfixCode(op: string, l: string, r: string, n: nat): Generated
  {
    if IsArithmeticOperator(op) then Generated(ArithmeticAssembly(op, l, r), n)
    else if ComparatorInstruction(op).Some? then
      Generated(Ok(GenerateComparatorAssembly(ComparatorInstruction(op).value, l, r)), n)
    else if op == "&&" then
      Generated(Ok(LogicalAndAssembly(l, r, LabelText("clause", n), LabelText("end", n + 1))), n + 2)
    else if op == "||" then
      Generated(Ok(LogicalOrAssembly(l, r, LabelText("clause", n), LabelText("end", n + 1))), n + 2)
    else Generated(Err(UnsupportedInfix(op)), n)
  }

  /** The switch knows the arithmetic, comparison and logical operators and
      nothing else; only `&&` and `||` draw labels, two each. */
  lemma InfixCodeOutcome(op: string, l: string, r: string, n: nat)
    ensures var g := InfixCode(op, l, r, n);
      && (g.result.Ok? <==> IsArithmeticOperator(op) || ComparatorInstruction(op).Some? || IsLogicalOperator(op))
      && (g.result.Err? ==> g.result.error == UnsupportedInfix(op))
      && g.count == if IsLogicalOperator(op) then n + 2 else n
  {
  }

  /** What FromExpression produces, and the label count after it, when it
      starts at count `n`: the left operand is generated before the right
      one, and the first error ends the walk. */
  function ExprCode(e: Expression, n: nat): Generated
  {
    match e
    case IntegerLiteral(v) => Generated(Ok(GenerateFromIntegerLiteral(v)), n)
    case PrefixExpression(op, x) =>
      var c := ExprCode(x, n);
      if c.result.Err? then c else Generated(PrefixAssembly(op, c.result.value), c.count)
    case InfixExpression(op, l, r) =>
      var a := ExprCode(l, n);
      if a.result.Err? then a
      else
        var b := ExprCode(r, a.count);
        if b.result.Err? then b else InfixCode(op, a.result.value, b.result.value, b.count)
    case _ => Generated(Err(Failed(ExpressionLiteral(e))), n)
  }

  /** The number of `&&` and `||` nodes in a tree. */
  function LogicalOps(e: Expression): nat
  {
    match e
    case IntegerLiteral(_) => 0
    case IdentifierNode(_) => 0
    case AssignExpression(_, _, right) => LogicalOps(right)
    case PrefixExpression(_, x) => LogicalOps(x)
    case InfixExpression(op, l, r) => (if IsLogicalOperator(op) then 1 else 0) + LogicalOps(l) + LogicalOps(r)
  }

  /** Each `&&` and `||` draws exactly two labels: the count rises by twice
      their number on success and never by more. In particular a tree
      without them leaves the count where it was. */
  lemma {:induction false} LabelCount(e: Expression, n: nat)
    ensures n <= ExprCode(e, n).count <= n + 2 * LogicalOps(e)
    ensures ExprCode(e, n).result.Ok? ==> ExprCode(e, n).count == n + 2 * LogicalOps(e)
  {
    match e
    case PrefixExpression(_, x) =>
      LabelCount(x, n);
    case InfixExpression(op, l, r) =>
      LabelCount(l, n);
      var a := ExprCode(l, n);
      LabelCount(r, a.count);
    case _ =>
  }

  /** The labels of an outer `&&` or `||` are drawn after those of its
      operands, so they carry the highest numbers of the tree. */
  lemma OuterLabelsLast(op: string, l: Expression, r: Expression, n: nat)
    requires IsLogicalOperator(op)
    requires ExprCode(InfixExpression(op, l, r), n).result.Ok?
    ensures ExprCode(l, n).result.Ok?
    ensures ExprCode(r, n + 2 * LogicalOps(l)).result.Ok?
    ensures var m := n + 2 * (LogicalOps(l) + LogicalOps(r));
            var L := ExprCode(l, n).result.value;
            var R := ExprCode(r, n + 2 * LogicalOps(l)).result.value;
            ExprCode(InfixExpression(op, l, r), n).result.value ==
              (if op == "&&" then LogicalAndAssembly(L, R, LabelText("clause", m), LabelText("end", m + 1))
               else LogicalOrAssembly(L, R, LabelText("clause", m), LabelText("end", m + 1)))
  {
    var a := ExprCode(l, n);
    LabelCount(l, n);
    assert a.result.Ok?;
    var b := ExprCode(r, a.count);
    LabelCount(r, a.count);
    assert b.result.Ok?;
    InfixStep(op, l, r, n);
    LogicalLabels(op, a.result.value, b.result.value, b.count);
  }

  /** Once both operands have code, an infix node is the switch on its
      operator at the count the right operand left. */
  lemma InfixStep(op: string, l: Expression, r: Expression, n: nat)
    requires ExprCode(l, n).result.Ok?
    requires ExprCode(r, ExprCode(l, n).count).result.Ok?
    ensures var a := ExprCode(l, n); var b := ExprCode(r, a.count);
      ExprCode(InfixExpression(op, l, r), n) == InfixCode(op, a.result.value, b.result.value, b.count)
  {
  }

  /** `&&` and `||` always succeed and draw the labels numbered n and n + 1. */
  lemma LogicalLabels(op: string, l: string, r: string, n: nat)
    requires IsLogicalOperator(op)
    ensures InfixCode(op, l, r, n) ==
      Generated(Ok(if op == "&&" then LogicalAndAssembly(l, r, LabelText("clause", n), LabelText("end", n + 1))
                   else LogicalOrAssembly(l, r, LabelText("clause", n), LabelText("end", n + 1))), n + 2)
  {
  }

  /** On the trees the stateless generator accepts, this generator produces
      the same text and draws no label. */
  lemma {:induction false} AgreesWithStateless(e: Expression, n: nat)
    requires Supported(e)
    ensures ExprCode(e, n) == Generated(GenerateFromExpression(e), n)
  {
    match e
    case IntegerLiteral(_) =>
    case PrefixExpression(_, x) =>
      AgreesWithStateless(x, n);
    case InfixExpression(_, l, r) =>
      AgreesWithStateless(l, n);
      AgreesWithStateless(r, n);
  }

  class AssemblyGenerator {
    const labelGenerator: LabelGenerator

    constructor (labels: LabelGenerator)
      ensures labelGenerator == labels
    {
      labelGenerator := labels;
    }

    method GenerateLogicalAndAssembly(e1: string, e2: string) returns (code: string)
      modifies labelGenerator
      ensures code == LogicalAndAssembly(e1, e2, LabelText("clause", old(labelGenerator.count)),
                                         LabelText("end", old(labelGenerator.count) + 1))
      ensures labelGenerator.count == old(labelGenerator.count) + 2
    {
      var clauseName := labelGenerator.GetNextLabel("clause");
      var endName := labelGenerator.GetNextLabel("end");
      code := LogicalAndAssembly(e1, e2, clauseName, endName);
    }

    method GenerateLogicalOrAssembly(e1: string, e2: string) returns (code: string)
      modifies labelGenerator
      ensures code == LogicalOrAssembly(e1, e2, LabelText("clause", old(labelGenerator.count)),
                                        LabelText("end", old(labelGenerator.count) + 1))
      ensures labelGenerator.count == old(labelGenerator.count) + 2
    {
      var clauseName := labelGenerator.GetNextLabel("clause");
      var endName := labelGenerator.GetNextLabel("end");
      code := LogicalOrAssembly(e1, e2, clauseName, endName);
    }

    method FromPrefixExpression(e: Expression) returns (code: Result<string, GenError>)
      requires e.PrefixExpression?
      modifies labelGenerator
      ensures Generated(code, labelGenerator.count) == ExprCode(e, old(labelGenerator.count))
      decreases e, 1
    {
      var c := FromExpression(e.operand);
      if c.Err? {
        return c;
      }
      code := PrefixAssembly(e.operator, c.value);
    }

    method FromInfixExpression(e: Expression) returns (code: Result<string, GenError>)
      requires e.InfixExpression?
      modifies labelGenerator
      ensures Generated(code, labelGenerator.count) == ExprCode(e, old(labelGenerator.count))
      decreases e, 1
    {
      var l := FromExpression(e.lhs);
      if l.Err? {
        return l;
      }
      var r := FromExpression(e.rhs);
      if r.Err? {
        return r;
      }
      var op := e.operator;
      if IsArithmeticOperator(op) {
        code := ArithmeticAssembly(op, l.value, r.value);
      } else if ComparatorInstruction(op).Some? {
        code := Ok(GenerateComparatorAssembly(ComparatorInstruction(op).value, l.value, r.value));
      } else if op == "&&" {
        var s := GenerateLogicalAndAssembly(l.value, r.value);
        code := Ok(s);
      } else if op == "||" {
        var s := GenerateLogicalOrAssembly(l.value, r.value);
        code := Ok(s);
      } else {
        code := Err(UnsupportedInfix(op));
      }
    }

    method FromExpression(e: Expression) returns (code: Result<string, GenError>)
      modifies labelGenerator
      ensures Generated(code, labelGenerator.count) == ExprCode(e, old(labelGenerator.count))
      decreases e, 2
    {
      match e
      case IntegerLiteral(v) =>
        code := Ok(GenerateFromIntegerLiteral(v));
      case PrefixExpression(_, _) =>
        code := FromPrefixExpression(e);
      case InfixExpression(_, _, _) =>
        code := FromInfixExpression(e);
      case _ =>
        code := Err(Failed(ExpressionLiteral(e)));
    }
  }
}
