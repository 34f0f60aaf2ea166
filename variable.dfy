/** The table of local variables and their stack slots
    (generator/variable.go). The n-th variable declared (counting from 0) is
    stored at offset -8 * (n + 1) from the frame base; the declaration order
    is kept as a ghost field so that this layout can be stated. */
module Variable {
  import opened Common

  datatype VariableError =
    | Undeclared(name: string)
    | Redeclared(name: string)

  /** The offset given to the k-th declared variable. */
  function Slot(k: nat): (offset: int)
    ensures offset < 0 && offset % 8 == 0
  {
    -8 * (k + 1)
  }

  predicate Distinct(order: seq<string>)
  {
    forall i, j :: 0 <= i < j < |order| ==> order[i] != order[j]
  }

  /** The map holds exactly the declared names, each at the slot of its
      position in the declaration order. */
  ghost predicate Layout(variables: map<string, int>, order: seq<string>)
  {
    Distinct(order) &&
    (forall name :: name in variables <==> name in order) &&
    (forall k :: 0 <= k < |order| ==> order[k] in variables && variables[order[k]] == Slot(k))
  }

  class VariableManager {
    var variables: map<string, int>
    var stackIndex: int
    /** The names in the order they were declared. */
    ghost var order: seq<string>

    ghost predicate Valid()
      reads this
    {
      Layout(variables, order) && stackIndex == Slot(|order|)
    }

    constructor NewVariableManager()
      ensures Valid()
      ensures variables == map[] && stackIndex == -8 && order == []
    {
      variables := map[];
      stackIndex := -8;
      order := [];
    }

    method VariableExists(name: string) returns (b: bool)
      ensures b <==> name in variables
    {
      b := name in variables;
    }

    /** The stored offset of a declared name, an error for any other name. */
    method GetVariableStackIndex(name: string) returns (r: Result<int, VariableError>)
      ensures name in variables ==> r == Ok(variables[name])
      ensures name !in variables ==> r == Err(Undeclared(name))
    {
      if name in variables {
        r := Ok(variables[name]);
      } else {
        r := Err(Undeclared(name));
      }
    }

    /** Declares a fresh name at the current stack index and moves the index
        down one slot; declaring a name twice is an error that changes
        nothing. */
    method CreateVariable(name: string) returns (err: Option<VariableError>)
      requires Valid()
      modifies this
      ensures Valid()
      ensures old(name in variables) ==> err == Some(Redeclared(name)) && unchanged(this)
      ensures old(name !in variables) ==>
        err == None &&
        variables == old(variables)[name := old(stackIndex)] &&
        stackIndex == old(stackIndex) - 8 &&
        order == old(order) + [name]
    {
      var declared := VariableExists(name);
      if declared {
        return Some(Redeclared(name));
      }
      variables := variables[name := stackIndex];
      stackIndex := stackIndex - 8;
      order := order + [name];
      err := None;
    }
  }

  /** The set of names of a repetition-free sequence has as many elements as
      the sequence. */
  lemma {:induction false} DistinctCardinality(order: seq<string>)
    requires Distinct(order)
    ensures |set name | name in order| == |order|
  {
    if order != [] {
      var init := order[..|order| - 1];
      var last := order[|order| - 1];
      DistinctCardinality(init);
      assert (set name | name in order) == (set name | name in init) + {last} by {
        forall name ensures name in order <==> name in init || name == last {
          if name in order {
            var k :| 0 <= k < |order| && order[k] == name;
            if k < |order| - 1 { assert init[k] == name; }
          }
        }
      }
      assert last !in init;
    }
  }

  /** The stack index stays one slot below the last declared variable:
      `stackIndex == -8 * (number of variables + 1)`. */
  lemma StackIndexCountsVariables(m: VariableManager)
    requires m.Valid()
    ensures m.stackIndex == -8 * (|m.variables| + 1)
  {
    DistinctCardinality(m.order);
    assert m.variables.Keys == set name | name in m.order;
  }

  /** Declared names occupy distinct negative multiples of 8, and a name
      declared earlier sits at a higher offset. */
  lemma SlotsOrdered(variables: map<string, int>, order: seq<string>, i: nat, j: nat)
    requires Layout(variables, order)
    requires i < j < |order|
    ensures order[i] != order[j]
    ensures variables[order[i]] > variables[order[j]]
    ensures variables[order[i]] < 0 && variables[order[i]] % 8 == 0
  {
  }

  /** Two distinct declared names never share a slot. */
  lemma SlotsDistinct(variables: map<string, int>, order: seq<string>, a: string, b: string)
    requires Layout(variables, order)
    requires a in variables && b in variables && a != b
    ensures variables[a] != variables[b]
  {
    var i :| 0 <= i < |order| && order[i] == a;
    var j :| 0 <= j < |order| && order[j] == b;
    if i < j {
      SlotsOrdered(variables, order, i, j);
    } else {
      SlotsOrdered(variables, order, j, i);
    }
  }
}
