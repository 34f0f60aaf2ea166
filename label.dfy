/** The label counter shared by the code generator (generator/label.go).
    One counter serves every label category, so labels drawn one after the
    other carry consecutive numbers whatever their category. */
module Label {
  import opened Common

  /** A label category with no decimal digit in it, such as "clause" or "end". */
  predicate NoDigits(category: string)
  {
    forall i :: 0 <= i < |category| ==> !IsDigitChar(category[i])
  }

  /** The label `fmt.Sprintf("%s%d", category, n)`: the category followed by
      the decimal digits of the counter. */
  function LabelText(category: string, n: nat): (l: string)
    ensures |l| > |category| && l[..|category|] == category
    ensures AllDigits(l[|category|..])
  {
    category + NatToString(n)
  }

  /** The position of the first decimal digit of `s` (|s| when there is none). */
  function FirstDigit(s: string): (k: nat)
    ensures k <= |s|
  {
    if s == [] || IsDigitChar(s[0]) then 0 else 1 + FirstDigit(s[1..])
  }

  lemma {:induction false} FirstDigitAfter(category: string, digits: string)
    requires NoDigits(category)
    requires |digits| > 0 && IsDigitChar(digits[0])
    ensures FirstDigit(category + digits) == |category|
  {
    if category != [] {
      assert (category + digits)[1..] == category[1..] + digits;
      FirstDigitAfter(category[1..], digits);
    } else {
      assert category + digits == digits;
    }
  }

  /** Labels drawn at different counter values, or in different digit-free
      categories, never coincide. */
  lemma LabelsDistinct(a: string, i: nat, b: string, j: nat)
    requires NoDigits(a) && NoDigits(b)
    requires a != b || i != j
    ensures LabelText(a, i) != LabelText(b, j)
  {
    if LabelText(a, i) == LabelText(b, j) {
      var l := LabelText(a, i);
      FirstDigitAfter(a, NatToString(i));
      FirstDigitAfter(b, NatToString(j));
      assert a == l[..|a|] == b;
      assert NatToString(i) == l[|a|..] == NatToString(j);
      NatToStringInjective(i, j);
    }
  }

  class LabelGenerator {
    /** The number the next label will carry (Go's Count field). */
    var count: nat

    constructor NewLabelGenerator()
      ensures count == 0
    {
      count := 0;
    }

    /** Returns the category followed by the current count, then advances the
        count by exactly one. */
    method GetNextLabel(category: string) returns (l: string)
      modifies this
      ensures l == LabelText(category, old(count))
      ensures count == old(count) + 1
    {
      l := category + NatToString(count);
      count := count + 1;
    }
  }
}
