/** The where-clause builder of the Apicalypse query language: each
    predicate call appends a fragment of text, `and`/`or` append a joined
    sub-condition, and `build` returns everything appended, in call order. */
module WhereClause {
  import opened Results
  import opened Text

  datatype Comparison =
    | IsEqual | IsNotEqual
    | IsLargerThan | IsLargerThanOrEqualTo
    | IsSmallerThan | IsSmallerThanOrEqualTo

  datatype ListCheck =
    | ContainsAllOf | DoesNotContainAllOf
    | ContainsAnyOf | DoesNotContainAnyOf
    | ContainsExclusivelyAllOf

  /** One call on the builder. `And` and `Or` carry the calls made inside
      the condition lambda they were given. */
  datatype Step =
    | IsTrue(field: string)
    | IsFalse(field: string)
    | IsNull(field: string)
    | IsNotNull(field: string)
    | Compare(field: string, op: Comparison, value: string)
    | ListOf(field: string, check: ListCheck, values: seq<string>)
    | And(condition: seq<Step>)
    | Or(condition: seq<Step>)

  function Symbol(op: Comparison): string {
    match op
    case IsEqual => "="
    case IsNotEqual => "!="
    case IsLargerThan => ">"
    case IsLargerThanOrEqualTo => ">="
    case IsSmallerThan => "<"
    case IsSmallerThanOrEqualTo => "<="
  }

  function Prefix(check: ListCheck): string {
    match check
    case ContainsAllOf => "["
    case DoesNotContainAllOf => "!["
    case ContainsAnyOf => "("
    case DoesNotContainAnyOf => "!("
    case ContainsExclusivelyAllOf => "{"
  }

  function Postfix(check: ListCheck): string {
    match check
    case ContainsAllOf | DoesNotContainAllOf => "]"
    case ContainsAnyOf | DoesNotContainAnyOf => ")"
    case ContainsExclusivelyAllOf => "}"
  }

  /** `field = <prefix>v1, v2, ...<postfix>`; an empty list leaves only the
      brackets. */
  function ListText(field: string, check: ListCheck, values: seq<string>): (r: string)
    ensures |values| == 0 ==> r == field + " = " + Prefix(check) + Postfix(check)
    ensures |values| == 1 ==> r == field + " = " + Prefix(check) + values[0] + Postfix(check)
    ensures |values| >= 2 ==>
              r == field + " = " + Prefix(check) + Join(values[..|values| - 1], ", ") + ", " +
                   values[|values| - 1] + Postfix(check)
  {
    field + " = " + Prefix(check) + Join(values, ", ") + Postfix(check)
  }

  /** Three ids in a "contains any of" check read `id = (1, 2, 3)`. */
  lemma ThreeValuesText()
    ensures ListText("id", ContainsAnyOf, ["1", "2", "3"]) == "id = (1, 2, 3)"
  {
    assert ["1", "2", "3"][..2] == ["1", "2"];
    assert ["1", "2"][..1] == ["1"];
    assert Join(["1", "2"], ", ") == "1, 2";
  }

  /** The text one call appends. */
  function Fragment(step: Step): string
    decreases step, 1
  {
    match step
    case IsTrue(f) => f + " = true"
    case IsFalse(f) => f + " = false"
    case IsNull(f) => f + " = null"
    case IsNotNull(f) => f + " != null"
    case Compare(f, op, v) => f + " " + Symbol(op) + " " + v
    case ListOf(f, check, vs) => ListText(f, check, vs)
    case And(c) => " & " + Build(c)
    case Or(c) => " | " + Build(c)
  }

  /** `build()`: the concatenation of every appended fragment. */
  function Build(steps: seq<Step>): string
    decreases steps, 0
  {
    if |steps| == 0 then "" else Fragment(steps[0]) + Build(steps[1..])
  }

  /** Building two call sequences one after the other gives the two texts
      one after the other: nothing is reordered or dropped. */
  lemma {:induction false} BuildAppend(a: seq<Step>, b: seq<Step>)
    ensures Build(a + b) == Build(a) + Build(b)
  {
    if |a| > 0 {
      assert (a + b)[1..] == a[1..] + b;
      BuildAppend(a[1..], b);
    } else {
      assert a + b == b;
    }
  }

  /** Two conditions chained with `and` read `first & second`, with `or`
      they read `first | second`. */
  lemma AndOrJoin(first: Step, second: Step)
    ensures Build([first, And([second])]) == Fragment(first) + " & " + Fragment(second)
    ensures Build([first, Or([second])]) == Fragment(first) + " | " + Fragment(second)
  {
    assert Build([second]) == Fragment(second) + Build([]);
    assert [first, And([second])][1..] == [And([second])];
    assert Build([And([second])]) == Fragment(And([second])) + Build([]);
    assert [first, Or([second])][1..] == [Or([second])];
    assert Build([Or([second])]) == Fragment(Or([second])) + Build([]);
  }

  /** The comparison fragment determines the comparison: two comparisons on
      one field render alike exactly when operator and value agree. */
  lemma {:induction false} CompareUnambiguous(f: string, op1: Comparison, v1: string, op2: Comparison, v2: string)
    ensures Fragment(Compare(f, op1, v1)) == Fragment(Compare(f, op2, v2)) <==> op1 == op2 && v1 == v2
  {
    var t1 := Fragment(Compare(f, op1, v1));
    var t2 := Fragment(Compare(f, op2, v2));
    if t1 == t2 {
      var s1 := Symbol(op1) + " " + v1;
      var s2 := Symbol(op2) + " " + v2;
      assert t1 == (f + " ") + s1;
      assert t2 == (f + " ") + s2;
      CancelPrefix(f + " ", s1, s2);
      SymbolUnambiguous(op1, v1, op2, v2);
    }
  }

  /** The operator symbol and the space after it give back the operator
      and the value. */
  lemma SymbolUnambiguous(op1: Comparison, v1: string, op2: Comparison, v2: string)
    requires Symbol(op1) + " " + v1 == Symbol(op2) + " " + v2
    ensures op1 == op2 && v1 == v2
  {
    var s1 := Symbol(op1) + " " + v1;
    var s2 := Symbol(op2) + " " + v2;
    assert s1[0] == s2[0] && s1[1] == s2[1];
    assert op1 == op2;
    CancelPrefix(Symbol(op1) + " ", v1, v2);
  }

  /** The opening bracket after `field = ` tells the five list checks
      apart, whatever the values are. */
  lemma {:induction false} ListCheckUnambiguous(f: string, c1: ListCheck, vs1: seq<string>, c2: ListCheck, vs2: seq<string>)
    requires ListText(f, c1, vs1) == ListText(f, c2, vs2)
    ensures c1 == c2
  {
    var j1 := Join(vs1, ", ");
    var j2 := Join(vs2, ", ");
    ListTextShape(f, c1, vs1);
    ListTextShape(f, c2, vs2);
    CancelPrefix(f + " = ", Prefix(c1) + j1 + Postfix(c1), Prefix(c2) + j2 + Postfix(c2));
    BracketsUnambiguous(c1, Join(vs1, ", "), c2, Join(vs2, ", "));
  }

  lemma ListTextShape(f: string, c: ListCheck, vs: seq<string>)
    ensures ListText(f, c, vs) == (f + " = ") + (Prefix(c) + Join(vs, ", ") + Postfix(c))
  {
  }

  lemma CancelPrefix(a: string, x: string, y: string)
    requires a + x == a + y
    ensures x == y
  {
    assert x == (a + x)[|a|..];
    assert y == (a + y)[|a|..];
  }

  /** The opening bracket tells the check apart. */
  lemma BracketsUnambiguous(c1: ListCheck, j1: string, c2: ListCheck, j2: string)
    requires Prefix(c1) + j1 + Postfix(c1) == Prefix(c2) + j2 + Postfix(c2)
    ensures c1 == c2
  {
    var r1 := Prefix(c1) + j1 + Postfix(c1);
    var r2 := Prefix(c2) + j2 + Postfix(c2);
    assert r1[0] == r2[0];
    assert r1[0] == '!' ==> r1[1] == r2[1];
  }
}

/** What a where clause asks of a game: the model's reading of the
    operators, used to compare the remote queries with the in-memory cache.
    A game is seen as its fields, each an integer or null. Only the
    operators the discovery queries use are given a meaning; conditions are
    combined left to right. */
module ClauseMeaning {
  import opened Results
  import opened Text
  import opened WhereClause

  type Row = string -> Option<int>

  predicate Compares(op: Comparison, a: int, b: int) {
    match op
    case IsEqual => a == b
    case IsNotEqual => a != b
    case IsLargerThan => a > b
    case IsLargerThanOrEqualTo => a >= b
    case IsSmallerThan => a < b
    case IsSmallerThanOrEqualTo => a <= b
  }

  /** The meaning of one predicate call; `None` for the ones left
      without a meaning here. A null field satisfies no comparison. */
  function Test(step: Step, row: Row): Option<bool> {
    match step
    case IsNull(f) => Some(row(f).None?)
    case IsNotNull(f) => Some(row(f).Some?)
    case Compare(f, op, v) =>
      (match ParseInt(v)
       case None => None
       case Some(n) => Some(row(f).Some? && Compares(op, row(f).value, n)))
    case ListOf(f, ContainsAnyOf, vs) => Some(row(f).Some? && IntToString(row(f).value) in vs)
    case _ => None
  }

  /** The meaning of a built clause, folding the calls left to right. */
  function Holds(steps: seq<Step>, row: Row): Option<bool>
    decreases steps, 1
  {
    if |steps| == 0 then None
    else
      match Test(steps[0], row)
      case None => None
      case Some(b) => HoldsAfter(b, steps[1..], row)
  }

  function HoldsAfter(acc: bool, steps: seq<Step>, row: Row): Option<bool>
    decreases steps, 2
  {
    if |steps| == 0 then Some(acc)
    else
      match steps[0]
      case And(c) =>
        (match Holds(c, row)
         case None => None
         case Some(b) => HoldsAfter(acc && b, steps[1..], row))
      case Or(c) =>
        (match Holds(c, row)
         case None => None
         case Some(b) => HoldsAfter(acc || b, steps[1..], row))
      case _ => None
  }

  /** `a and { b }` holds exactly when both calls hold. */
  lemma Conjunction(a: Step, b: Step, row: Row)
    requires Test(a, row).Some? && Test(b, row).Some?
    requires !a.And? && !a.Or?
    ensures Holds([a, And([b])], row) == Some(Test(a, row).value && Test(b, row).value)
  {
    var ta := Test(a, row).value;
    var tb := Test(b, row).value;
    assert [b][1..] == [];
    assert Holds([b], row) == HoldsAfter(tb, [], row) == Some(tb);
    assert [And([b])][1..] == [];
    assert HoldsAfter(ta, [And([b])], row) == HoldsAfter(ta && tb, [], row);
    assert [a, And([b])][1..] == [And([b])];
    assert Holds([a, And([b])], row) == HoldsAfter(ta, [And([b])], row);
  }
}
