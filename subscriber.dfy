/**
 One chat user with a subscription. The messaging transport is a parameter: a
 function from recipient and message to the error the send reports, if any.
 */
module Subscribers {
  import opened Wrappers
  import opened GasPrice
  import opened Criteria
  import opened Payloads

  /** The chat user record; the registry keys subscribers by `username`. */
  datatype User = User(id: int, firstName: string, username: string)

  datatype Subscriber = Subscriber(user: User, criteria: Payload)

  datatype SendError = SendError(reason: string)

  /** The messaging channel: what sending `Message` to `User` reports. */
  type Transport = (User, Message) -> Option<SendError>

  /** One send, as the transport saw it: recipient, message and the error it returned. */
  datatype Delivery = Delivery(to: User, message: Message, err: Option<SendError>)

  /** A subscriber is due a notification exactly when its criterion holds for the snapshot. */
  function CanSendNotification(s: Subscriber, g: CurrentGasPrice): (yes: bool)
    ensures yes <==> ParseTxType(s.criteria.field).Some? && ParseOperator(s.criteria.operator).Some? &&
                     Holds(ParseOperator(s.criteria.operator).value, Price(ParseTxType(s.criteria.field).value, g),
                           s.criteria.threshold)
  {
    SatisfiedBy(s.criteria, g)
  }

  /** Sends the prepared notification to the subscriber's own user and hands back the transport's error unchanged. */
  function SendNotification(s: Subscriber, g: CurrentGasPrice, transport: Transport): (d: Delivery)
    ensures d.to == s.user
    ensures d.message == PrepareNotification(s.criteria, g)
    ensures d.message.Blank? <==> ParseTxType(s.criteria.field).None?
    ensures d.message.PriceReached? ==> d.message.price == Price(ParseTxType(s.criteria.field).value, g)
    ensures d.err == transport(s.user, d.message)
  {
    var m := PrepareNotification(s.criteria, g);
    Delivery(s.user, m, transport(s.user, m))
  }

  /** The eligibility check is the criterion check. */
  lemma CanSendIsSatisfiedBy(s: Subscriber, g: CurrentGasPrice)
    ensures CanSendNotification(s, g) == SatisfiedBy(s.criteria, g)
  {
  }

}
