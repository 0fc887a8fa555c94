/**
 A subscriber's criterion (the Go `Payload`) and its evaluation against a gas
 price snapshot. Field and operator stay strings, as in the Go code, so that a
 value outside the closed vocabularies can be represented and is seen to
 evaluate to false.
 */
module Payloads {
  import opened Wrappers
  import opened GasPrice
  import opened Criteria

  /** `kind` is the Go field `Type`; subscriptions made by users leave it empty. */
  datatype Payload = Payload(kind: string, field: string, threshold: real, operator: string)

  /**
   The notification text, kept abstract: either the empty string or a message
   naming the category and the price that was reached.
   */
  datatype Message = Blank | PriceReached(field: string, price: real)

  /** The `checkThreshold` closure: compares a price with the threshold by the operator's symbol. */
  function CheckThreshold(operator: string, threshold: real, price: real): (yes: bool)
    ensures ParseOperator(operator).None? ==> !yes
    ensures ParseOperator(operator).Some? ==> (yes <==> Holds(ParseOperator(operator).value, price, threshold))
  {
    if operator == "<" then price < threshold
    else if operator == ">" then price > threshold
    else if operator == "<=" then price <= threshold
    else if operator == ">=" then price >= threshold
    else if operator == "==" then price == threshold
    else false
  }

  /**
   Whether the snapshot meets the criterion: pick the price the field names and
   compare it with the threshold. An unknown field or operator never matches.
   */
  function SatisfiedBy(p: Payload, g: CurrentGasPrice): (yes: bool)
    ensures ParseTxType(p.field).None? ==> !yes
    ensures ParseOperator(p.operator).None? ==> !yes
    ensures ParseTxType(p.field).Some? && ParseOperator(p.operator).Some? ==>
              (yes <==> Holds(ParseOperator(p.operator).value, Price(ParseTxType(p.field).value, g), p.threshold))
  {
    if p.field == "fastest" then CheckThreshold(p.operator, p.threshold, g.fastest)
    else if p.field == "fast" then CheckThreshold(p.operator, p.threshold, g.fast)
    else if p.field == "average" then CheckThreshold(p.operator, p.threshold, g.average)
    else if p.field == "safeLow" then CheckThreshold(p.operator, p.threshold, g.safeLow)
    else false
  }

  /** The notification for this criterion: the field's name and current price, or blank for an unknown field. */
  function PrepareNotification(p: Payload, g: CurrentGasPrice): (m: Message)
    ensures m.Blank? <==> ParseTxType(p.field).None?
    ensures m.PriceReached? ==> m.field == p.field && m.price == Price(ParseTxType(p.field).value, g)
  {
    if p.field == "fastest" then PriceReached(p.field, g.fastest)
    else if p.field == "fast" then PriceReached(p.field, g.fast)
    else if p.field == "average" then PriceReached(p.field, g.average)
    else if p.field == "safeLow" then PriceReached(p.field, g.safeLow)
    else Blank
  }

  /** A matching criterion always yields a real message, and the price shown is the one that was compared. */
  lemma MatchedPriceIsRendered(p: Payload, g: CurrentGasPrice)
    requires SatisfiedBy(p, g)
    ensures PrepareNotification(p, g).PriceReached?
    ensures PrepareNotification(p, g).field == p.field
    ensures Holds(ParseOperator(p.operator).value, PrepareNotification(p, g).price, p.threshold)
  {
  }

  /** `==` is literal equality: a price one ten-thousandth off the threshold does not match. */
  lemma EqualityHasNoTolerance(p: Payload, g: CurrentGasPrice)
    requires p.operator == "==" && ParseTxType(p.field).Some?
    ensures SatisfiedBy(p, g) <==> Price(ParseTxType(p.field).value, g) == p.threshold
    ensures SatisfiedBy(p.(threshold := Price(ParseTxType(p.field).value, g) + 0.0001), g) == false
  {
  }

  /** The wildcard operator `*` that the feed's own subscription request uses matches nothing here. */
  lemma WildcardNeverMatches(p: Payload, g: CurrentGasPrice)
    requires p.operator == "*" || p.field == "*"
    ensures !SatisfiedBy(p, g)
  {
  }

}
