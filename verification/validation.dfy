/**
 * The two phases every record of the system goes through: first each field
 * must satisfy its declared constraints, then (mode "after") the record's
 * business rules run in a fixed order and the first one that fails decides
 * the reported message.
 */
module Validation {
  import opened Wrappers

  /** A field's value, as far as its declared constraint looks at it. */
  datatype FieldValue =
    | Str(text: string)
    | Items(count: nat)            // a list, by its number of elements
    | Int(number: int)
    | Num(amount: real)
    | OptStr(maybe: Option<string>)

  /** The bounds one `Field(...)` declaration puts on a value. */
  datatype Constraint =
    | Length(minLength: nat, maxLength: nat)   // min_length, max_length on a str or a list
    | IntBetween(ge: int, le: int)             // ge, le on an int
    | RealBetween(low: real, high: real)       // ge, le on a float
    | OptionalMaxLength(maxLength: nat)        // max_length on an Optional[str]; None passes

  predicate Satisfies(v: FieldValue, c: Constraint) {
    match c
    case Length(lo, hi) =>
      (v.Str? && lo <= |v.text| <= hi) || (v.Items? && lo <= v.count <= hi)
    case IntBetween(lo, hi) => v.Int? && lo <= v.number <= hi
    case RealBetween(lo, hi) => v.Num? && lo <= v.amount <= hi
    case OptionalMaxLength(hi) => v.OptStr? && (v.maybe.Some? ==> |v.maybe.value| <= hi)
  }

  /** A declared field: its name, the value it holds and its constraint. */
  datatype Field = Field(name: string, value: FieldValue, constraint: Constraint)

  /** Every declared field satisfies its constraint. */
  predicate AllSatisfied(fields: seq<Field>) {
    forall i :: 0 <= i < |fields| ==> Satisfies(fields[i].value, fields[i].constraint)
  }

  /** One business rule: the condition it demands and the message raised when it fails. */
  datatype Rule<-T> = Rule(holds: T -> bool, message: string)

  /** Rules evaluated in order; the first failing rule's message, or None when all pass. */
  function FirstFailure<T>(rules: seq<Rule<T>>, x: T): (r: Option<string>)
    ensures r.None? <==> forall i :: 0 <= i < |rules| ==> rules[i].holds(x)
    ensures r.Some? ==> exists i :: 0 <= i < |rules| && !rules[i].holds(x) && r.value == rules[i].message
  {
    if rules == [] then None
    else if !rules[0].holds(x) then Some(rules[0].message)
    else FirstFailure(rules[1..], x)
  }

  /** When rule `k` fails and every earlier rule passes, rule `k`'s message is reported, whatever later rules say. */
  lemma {:induction false} FirstFailureAt<T>(rules: seq<Rule<T>>, x: T, k: nat)
    requires k < |rules|
    requires !rules[k].holds(x)
    requires forall j :: 0 <= j < k ==> rules[j].holds(x)
    ensures FirstFailure(rules, x) == Some(rules[k].message)
  {
    if k > 0 {
      assert rules[0].holds(x);
      FirstFailureAt(rules[1..], x, k - 1);
    }
  }

  /** Messages that tell the rules apart. */
  predicate DistinctMessages<T>(rules: seq<Rule<T>>) {
    forall i, j :: 0 <= i < j < |rules| ==> rules[i].message != rules[j].message
  }

  /**
   * With distinct messages, a reported message names the rule that failed,
   * and every rule before it passed.
   */
  lemma {:induction false} FirstFailureIdentifies<T>(rules: seq<Rule<T>>, x: T, k: nat)
    requires DistinctMessages(rules)
    requires k < |rules|
    requires FirstFailure(rules, x) == Some(rules[k].message)
    ensures !rules[k].holds(x)
    ensures forall j :: 0 <= j < k ==> rules[j].holds(x)
  {
    if k > 0 {
      assert DistinctMessages(rules[1..]) by {
        forall i, j | 0 <= i < j < |rules[1..]|
          ensures rules[1..][i].message != rules[1..][j].message
        {
          assert rules[1..][i] == rules[i + 1] && rules[1..][j] == rules[j + 1];
        }
      }
      FirstFailureIdentifies(rules[1..], x, k - 1);
      forall j | 0 <= j < k ensures rules[j].holds(x) {
        if j > 0 { assert rules[1..][j - 1] == rules[j]; }
      }
    }
  }

  /** What constructing a record yields. */
  datatype Outcome<T> =
    | Accepted(value: T)          // the record, unchanged by validation
    | FieldsRejected              // some field constraint failed; no rule ran
    | RuleRejected(message: string)  // every field was valid; this rule message was raised

  /** No business rules: the record is accepted once its fields are valid. */
  function NoRules<T>(x: T): (r: Option<string>)
    ensures r.None?
  {
    None
  }

  /**
   * The two-phase gate: the rules see only records whose fields are all
   * valid, and acceptance returns the record itself.
   */
  function Validate<T>(fieldsValid: T -> bool, rules: T -> Option<string>, x: T): (r: Outcome<T>)
    ensures r.FieldsRejected? <==> !fieldsValid(x)
    ensures r.Accepted? <==> fieldsValid(x) && rules(x).None?
    ensures r.Accepted? ==> r.value == x
    ensures r.RuleRejected? ==> fieldsValid(x) && rules(x) == Some(r.message)
  {
    if !fieldsValid(x) then FieldsRejected
    else match rules(x)
      case None => Accepted(x)
      case Some(msg) => RuleRejected(msg)
  }
}
