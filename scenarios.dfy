/**
 How the parts fit together: what the command parser leaves to the registry,
 and what a notification pass sees right after a subscription.
 */
module Scenarios {
  import opened Wrappers
  import opened GasPrice
  import opened Criteria
  import opened Payloads
  import opened Subscribers
  import opened Registry
  import opened CommandParser

  /** The parser accepts an unknown category, the wildcard operator and a threshold below 1; only `Subscribe` rejects them. */
  lemma ParserDoesNotValidate(txType: string, operator: string, amount: string, parseFloat: FloatParser)
    requires txType == "avg" && operator == "*" && amount == "0.5" && parseFloat(amount) == Some(0.5)
    ensures ParseSubscriptionPayload(txType + " " + operator + " " + amount, parseFloat) == Parsed(txType, operator, 0.5, None)
    ensures Validate(txType, operator, 0.5) == Some(BadTxType)
    ensures Validate("fast", operator, 0.5) == Some(BadOperator)
    ensures Validate("fast", "<", 0.5) == Some(RegistryError.BadThreshold)
  {
    ParseOfWords(txType, operator, amount, parseFloat);
  }

  /** A doubled space yields an empty middle piece: the payload still has three pieces, with an empty operator. */
  lemma DoubledSpaceGivesEmptyOperator(txType: string, amount: string, parseFloat: FloatParser)
    requires txType == "fast" && amount == "5" && parseFloat(amount) == Some(5.0)
    ensures ParseSubscriptionPayload(txType + "  " + amount, parseFloat) == Parsed(txType, "", 5.0, None)
    ensures Validate(txType, "", 5.0) == Some(BadOperator)
  {
    assert txType + "  " + amount == txType + " " + "" + " " + amount;
    ParseOfWords(txType, "", amount, parseFloat);
  }

  /**
   A successful subscription is seen by the next notification pass: the user is
   attempted exactly when the latest price for the chosen category meets the
   chosen comparison.
   */
  method SubscribeThenNotify(r: Resources, user: User, txType: string, operator: string, threshold: real,
                             transport: Transport)
    returns (err: Option<RegistryError>, attempts: seq<Attempt>)
    modifies r
    ensures err == Validate(txType, operator, threshold)
    ensures err.None? ==>
              (user.username in Recipients(attempts) <==>
                 Holds(ParseOperator(operator).value, Price(ParseTxType(txType).value, r.latest), threshold))
  {
    err := r.Subscribe(user, txType, operator, threshold);
    attempts := r.Notify(transport);
  }

  /**
   A subscriber to `fastest < 150` is notified once, with the fastest price, when
   that price is 120, and not at all when it is 200; a subscription to the
   unknown category `avg` is refused and leaves no entry.
   */
  method NotifyScenario(transport: Transport)
    returns (atLow: seq<Attempt>, atHigh: seq<Attempt>, refused: Option<RegistryError>, bobAbsent: bool)
    ensures |atLow| == 1 && atLow[0].username == "alice"
    ensures atLow[0].delivery.to.username == "alice" && atLow[0].delivery.message == PriceReached("fastest", 120.0)
    ensures atHigh == []
    ensures refused == Some(BadTxType) && bobAbsent
  {
    var r := new Resources();
    var alice := User(1, "Alice", "alice");
    var err := r.Subscribe(alice, "fastest", "<", 150.0);
    r.latest := CurrentGasPrice(100.0, 120.0, 50.0, 80.0);
    atLow := r.Notify(transport);
    assert Eligible(r.subscriptions, r.latest) == {"alice"};
    r.latest := r.latest.(fastest := 200.0);
    atHigh := r.Notify(transport);
    assert Eligible(r.subscriptions, r.latest) == {};
    refused := r.Subscribe(User(2, "Bob", "bob"), "avg", "<", 10.0);
    bobAbsent := "bob" !in r.subscriptions;
  }

}
