/**
 The closed vocabularies of a subscription criterion, as enumerations: the four
 transaction categories and the five relational operators. The Go code works
 on free-form strings; these enumerations are the reference against which the
 string-switching code is specified.
 */
module Criteria {
  import opened Wrappers
  import opened GasPrice

  datatype TxType = Fastest | Fast | Average | SafeLow {
    /** The name a user types for this category. */
    function Name(): string {
      match this
      case Fastest => "fastest"
      case Fast => "fast"
      case Average => "average"
      case SafeLow => "safeLow"
    }
  }

  datatype Operator = Lt | Gt | Le | Ge | Eq {
    /** The symbol a user types for this operator. */
    function Symbol(): string {
      match this
      case Lt => "<"
      case Gt => ">"
      case Le => "<="
      case Ge => ">="
      case Eq => "=="
    }
  }

  /** Recognises a category name; names are case-sensitive. */
  function ParseTxType(s: string): (r: Option<TxType>)
    ensures r.Some? ==> r.value.Name() == s
    ensures r.None? <==> forall t: TxType :: t.Name() != s
  {
    if s == "fastest" then Some(Fastest)
    else if s == "fast" then Some(Fast)
    else if s == "average" then Some(Average)
    else if s == "safeLow" then Some(SafeLow)
    else None
  }

  /** Recognises an operator symbol. */
  function ParseOperator(s: string): (r: Option<Operator>)
    ensures r.Some? ==> r.value.Symbol() == s
    ensures r.None? <==> forall o: Operator :: o.Symbol() != s
  {
    if s == "<" then Some(Lt)
    else if s == ">" then Some(Gt)
    else if s == "<=" then Some(Le)
    else if s == ">=" then Some(Ge)
    else if s == "==" then Some(Eq)
    else None
  }

  /** The price the snapshot reports for a category. */
  function Price(t: TxType, g: CurrentGasPrice): real {
    match t
    case Fastest => g.fastest
    case Fast => g.fast
    case Average => g.average
    case SafeLow => g.safeLow
  }

  /** `price o threshold`, with `==` as exact equality. */
  predicate Holds(o: Operator, price: real, threshold: real) {
    match o
    case Lt => price < threshold
    case Gt => price > threshold
    case Le => price <= threshold
    case Ge => price >= threshold
    case Eq => price == threshold
  }

}
