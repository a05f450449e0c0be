/**
 * The filter model: the operator union `SoapOperator` and the filter record
 * `{columnName, operator, value}` that a `where` call appends to a query.
 *
 * At run time an operator is nothing but a string. The datatype below names
 * each literal member of the union; the union's first member, the imported
 * `SoapFilterOperator`, is not part of this model and is kept opaque as
 * `Imported(name)`, known only by the string it carries.
 */
module Filters {

  datatype SoapOperator =
    | Imported(name: string)
    | BeginsWith
    | Between
    | Contains
    | EndsWith
    | Equals
    | ExistsInString
    | ExistsInStringAsAWord
    | GreaterThan
    | GreaterThanAnniversary
    | GreaterThanOrEqual
    | In
    | IsAnniversary
    | IsNotAnniversary
    | IsNotNull
    | IsNull
    | LessThan
    | LessThanAnniversary
    | LessThanOrEqual
    | Like
    | NotContains
    | NotEquals
    | NotExistsInString

  /** One comparison of a query; no normalisation, trimming or escaping. */
  datatype Filter = Filter(columnName: string, operator: SoapOperator, value: string)

  /** The string literals that the union lists after `SoapFilterOperator`. */
  const Literals: set<string> := {
    "beginsWith", "between", "contains", "endsWith", "equals", "existsInString",
    "existsInStringAsAWord", "greaterThan", "greaterThanAnniversary",
    "greaterThanOrEqual", "IN", "isAnniversary", "isNotAnniversary", "isNotNull",
    "isNull", "lessThan", "lessThanAnniversary", "lessThanOrEqual", "like",
    "notContains", "notEquals", "notExistsInString"
  }

  /** The string an operator is at run time. */
  function Wire(op: SoapOperator): (s: string)
    ensures !op.Imported? ==> s in Literals
    ensures op.Imported? ==> s == op.name
  {
    match op
    case Imported(name) => name
    case BeginsWith => "beginsWith"
    case Between => "between"
    case Contains => "contains"
    case EndsWith => "endsWith"
    case Equals => "equals"
    case ExistsInString => "existsInString"
    case ExistsInStringAsAWord => "existsInStringAsAWord"
    case GreaterThan => "greaterThan"
    case GreaterThanAnniversary => "greaterThanAnniversary"
    case GreaterThanOrEqual => "greaterThanOrEqual"
    case In => "IN"
    case IsAnniversary => "isAnniversary"
    case IsNotAnniversary => "isNotAnniversary"
    case IsNotNull => "isNotNull"
    case IsNull => "isNull"
    case LessThan => "lessThan"
    case LessThanAnniversary => "lessThanAnniversary"
    case LessThanOrEqual => "lessThanOrEqual"
    case Like => "like"
    case NotContains => "notContains"
    case NotEquals => "notEquals"
    case NotExistsInString => "notExistsInString"
  }

  /** Reads a run-time string back as a member of the union: one of the
      listed literals when it is one, the imported operator otherwise. */
  function Classify(s: string): (op: SoapOperator)
    ensures op.Imported? <==> s !in Literals
  {
    if s == "beginsWith" then BeginsWith
    else if s == "between" then Between
    else if s == "contains" then Contains
    else if s == "endsWith" then EndsWith
    else if s == "equals" then Equals
    else if s == "existsInString" then ExistsInString
    else if s == "existsInStringAsAWord" then ExistsInStringAsAWord
    else if s == "greaterThan" then GreaterThan
    else if s == "greaterThanAnniversary" then GreaterThanAnniversary
    else if s == "greaterThanOrEqual" then GreaterThanOrEqual
    else if s == "IN" then In
    else if s == "isAnniversary" then IsAnniversary
    else if s == "isNotAnniversary" then IsNotAnniversary
    else if s == "isNotNull" then IsNotNull
    else if s == "isNull" then IsNull
    else if s == "lessThan" then LessThan
    else if s == "lessThanAnniversary" then LessThanAnniversary
    else if s == "lessThanOrEqual" then LessThanOrEqual
    else if s == "like" then Like
    else if s == "notContains" then NotContains
    else if s == "notEquals" then NotEquals
    else if s == "notExistsInString" then NotExistsInString
    else Imported(s)
  }

  /** Every string is the run-time form of the member it is read back as. */
  lemma WireClassify(s: string)
    ensures Wire(Classify(s)) == s
  {
  }

  /** Each member of the union is recovered from its run-time string, as
      long as an imported operator does not spell one of the literals. */
  lemma ClassifyWire(op: SoapOperator)
    requires op.Imported? ==> op.name !in Literals
    ensures Classify(Wire(op)) == op
  {
  }

  /** The literal members are pairwise distinct at run time: no two of them
      are the same string. */
  lemma WireInjective(a: SoapOperator, b: SoapOperator)
    requires a.Imported? ==> a.name !in Literals
    requires b.Imported? ==> b.name !in Literals
    ensures Wire(a) == Wire(b) <==> a == b
  {
  }
}
