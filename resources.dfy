/**
 The shared registry: the latest gas price snapshot and the map from username
 to subscriber. The Go code guards it with a reader-writer lock; here each
 operation is one atomic step, so the model is sequential.
 */
module Registry {
  import opened Wrappers
  import opened GasPrice
  import opened Criteria
  import opened Payloads
  import opened Subscribers

  datatype RegistryError = BadTxType | BadOperator | BadThreshold | NotSubscribed {
    /** The error text the user is shown. */
    function Text(): string {
      match this
      case BadTxType => "txType ∈ {fastest, fast, average, safeLow}"
      case BadOperator => "operator ∈ {<, >, <=, >=, ==}"
      case BadThreshold => "threshold >= 1.0 Gwei"
      case NotSubscribed => "not subscribed yet"
    }
  }

  /**
   The checks `Subscribe` makes before touching the map, in their order: the
   category first, then the operator, then the threshold (at least 1 Gwei).
   */
  function Validate(txType: string, operator: string, threshold: real): (err: Option<RegistryError>)
    ensures err.None? <==> ParseTxType(txType).Some? && ParseOperator(operator).Some? && threshold >= 1.0
    ensures ParseTxType(txType).None? ==> err == Some(BadTxType)
    ensures ParseTxType(txType).Some? && ParseOperator(operator).None? ==> err == Some(BadOperator)
    ensures ParseTxType(txType).Some? && ParseOperator(operator).Some? && threshold < 1.0 ==> err == Some(BadThreshold)
    ensures err.Some? ==>
              err.value.Text() == (if ParseTxType(txType).None? then "txType ∈ {fastest, fast, average, safeLow}"
                                   else if ParseOperator(operator).None? then "operator ∈ {<, >, <=, >=, ==}"
                                   else "threshold >= 1.0 Gwei")
  {
    if !(txType == "fastest" || txType == "fast" || txType == "average" || txType == "safeLow") then
      Some(BadTxType)
    else if !(operator == "<" || operator == ">" || operator == "<=" || operator == ">=" || operator == "==") then
      Some(BadOperator)
    else if !(threshold >= 1.0) then
      Some(BadThreshold)
    else
      None
  }

  /** The usernames a notification pass over `subs` must reach for snapshot `g`. */
  function Eligible(subs: map<string, Subscriber>, g: CurrentGasPrice): set<string> {
    set k | k in subs && CanSendNotification(subs[k], g)
  }

  /** One entry of a notification pass: whom it was for and what the transport did. */
  datatype Attempt = Attempt(username: string, delivery: Delivery)

  /** The usernames a log mentions. */
  function Recipients(log: seq<Attempt>): set<string> {
    if log == [] then {} else Recipients(log[..|log| - 1]) + {log[|log| - 1].username}
  }

  /** A username is a recipient exactly when some entry of the log names it. */
  lemma {:induction false} RecipientsMembers(log: seq<Attempt>, u: string)
    ensures u in Recipients(log) <==> exists i :: 0 <= i < |log| && log[i].username == u
  {
    if log != [] {
      var init := log[..|log| - 1];
      RecipientsMembers(init, u);
      if u in Recipients(init) {
        var i :| 0 <= i < |init| && init[i].username == u;
        assert log[i] == init[i];
      }
      forall i | 0 <= i < |init| ensures log[i] == init[i] { }
    }
  }

  /** No username is attempted twice. */
  predicate Distinct(log: seq<Attempt>) {
    forall i, j :: 0 <= i < j < |log| ==> log[i].username != log[j].username
  }

  /** A log with no repeated username has as many entries as recipients. */
  lemma {:induction false} DistinctLogSize(log: seq<Attempt>)
    requires Distinct(log)
    ensures |Recipients(log)| == |log|
  {
    if log != [] {
      var init := log[..|log| - 1];
      var last := log[|log| - 1];
      assert Distinct(init);
      DistinctLogSize(init);
      RecipientsMembers(init, last.username);
      assert last.username !in Recipients(init);
    }
  }

  /** Appending one attempt adds its username, and keeps the log repetition-free when that name is new. */
  lemma AppendAttempt(log: seq<Attempt>, a: Attempt)
    ensures Recipients(log + [a]) == Recipients(log) + {a.username}
    ensures Distinct(log) && a.username !in Recipients(log) ==> Distinct(log + [a])
  {
    assert (log + [a])[..|log|] == log;
    if Distinct(log) && a.username !in Recipients(log) {
      forall i | 0 <= i < |log| ensures log[i].username != a.username {
        RecipientsMembers(log, log[i].username);
      }
    }
  }

  /** Every entry of the log is the delivery `SendNotification` makes to the subscriber it names. */
  ghost predicate Faithful(log: seq<Attempt>, subs: map<string, Subscriber>, g: CurrentGasPrice, transport: Transport) {
    forall i :: 0 <= i < |log| ==>
      log[i].username in subs && log[i].delivery == SendNotification(subs[log[i].username], g, transport)
  }

  /**
   What a notification pass has established once the keys outside `remaining`
   have been visited: the visited eligible keys are exactly the recipients so far,
   each attempted once, each with the delivery `SendNotification` makes.
   */
  ghost predicate PassSoFar(subs: map<string, Subscriber>, g: CurrentGasPrice, transport: Transport,
                            remaining: set<string>, log: seq<Attempt>)
  {
    && remaining <= subs.Keys
    && Recipients(log) == Eligible(subs, g) - remaining
    && Distinct(log)
    && Faithful(log, subs, g, transport)
  }

  /** Visiting a key whose criterion does not hold leaves the log as it is. */
  lemma SkipKey(subs: map<string, Subscriber>, g: CurrentGasPrice, transport: Transport,
                remaining: set<string>, log: seq<Attempt>, k: string)
    requires PassSoFar(subs, g, transport, remaining, log)
    requires k in remaining && !CanSendNotification(subs[k], g)
    ensures PassSoFar(subs, g, transport, remaining - {k}, log)
  {
    assert Eligible(subs, g) - (remaining - {k}) == Eligible(subs, g) - remaining;
  }

  /** Visiting a key whose criterion holds appends exactly one attempt for it, whatever the transport reports. */
  lemma SendToKey(subs: map<string, Subscriber>, g: CurrentGasPrice, transport: Transport,
                  remaining: set<string>, log: seq<Attempt>, k: string)
    requires PassSoFar(subs, g, transport, remaining, log)
    requires k in remaining && CanSendNotification(subs[k], g)
    ensures PassSoFar(subs, g, transport, remaining - {k},
                      log + [Attempt(k, SendNotification(subs[k], g, transport))])
  {
    var a := Attempt(k, SendNotification(subs[k], g, transport));
    assert Eligible(subs, g) - (remaining - {k}) == (Eligible(subs, g) - remaining) + {k};
    AppendAttempt(log, a);
    var log' := log + [a];
    forall i | 0 <= i < |log'|
      ensures log'[i].username in subs && log'[i].delivery == SendNotification(subs[log'[i].username], g, transport)
    {
      if i < |log| { assert log'[i] == log[i]; }
    }
  }

  class Resources {
    var latest: CurrentGasPrice
    var subscriptions: map<string, Subscriber>

    /** Every entry is stored under its own user's name and holds a criterion that passed validation. */
    ghost predicate Valid()
      reads this
    {
      forall k :: k in subscriptions ==>
        subscriptions[k].user.username == k &&
        Validate(subscriptions[k].criteria.field, subscriptions[k].criteria.operator,
                 subscriptions[k].criteria.threshold).None?
    }

    /** The registry as the process creates it: a zero snapshot and no subscribers. */
    constructor ()
      ensures latest == ZeroGasPrice && subscriptions == map[]
      ensures Valid()
    {
      latest := ZeroGasPrice;
      subscriptions := map[];
    }

    /**
     Validates the criterion, then either overwrites the criterion of an existing
     subscriber in place or inserts a new one. A rejected request changes nothing.
     */
    method Subscribe(user: User, txType: string, operator: string, threshold: real) returns (err: Option<RegistryError>)
      modifies this`subscriptions
      ensures err == Validate(txType, operator, threshold)
      ensures err.Some? ==> subscriptions == old(subscriptions)
      ensures err.None? ==> subscriptions.Keys == old(subscriptions).Keys + {user.username}
      ensures err.None? && user.username in old(subscriptions) ==>
                |subscriptions| == |old(subscriptions)| &&
                subscriptions[user.username].user == old(subscriptions)[user.username].user &&
                subscriptions[user.username].criteria ==
                  Payload(old(subscriptions)[user.username].criteria.kind, txType, threshold, operator)
      ensures err.None? && user.username !in old(subscriptions) ==>
                |subscriptions| == |old(subscriptions)| + 1 &&
                subscriptions[user.username] == Subscriber(user, Payload("", txType, threshold, operator))
      ensures forall k :: k in old(subscriptions) && k != user.username ==>
                k in subscriptions && subscriptions[k] == old(subscriptions)[k]
      ensures old(Valid()) ==> Valid()
    {
      err := Validate(txType, operator, threshold);
      if err.Some? {
        return;
      }
      if user.username in subscriptions {
        var sub := subscriptions[user.username];
        var criteria := sub.criteria.(field := txType, operator := operator, threshold := threshold);
        subscriptions := subscriptions[user.username := sub.(criteria := criteria)];
        return;
      }
      subscriptions := subscriptions[user.username := Subscriber(user, Payload("", txType, threshold, operator))];
    }

    /** Removes the user's entry; a user with no entry gets an error and nothing changes. */
    method Unsubscribe(user: User) returns (err: Option<RegistryError>)
      modifies this`subscriptions
      ensures user.username !in old(subscriptions) ==>
                err == Some(NotSubscribed) && subscriptions == old(subscriptions)
      ensures err.Some? ==> err.value.Text() == "not subscribed yet"
      ensures user.username in old(subscriptions) ==>
                err == None && subscriptions == old(subscriptions) - {user.username} &&
                |subscriptions| == |old(subscriptions)| - 1
      ensures old(Valid()) ==> Valid()
    {
      if user.username !in subscriptions {
        return Some(NotSubscribed);
      }
      subscriptions := subscriptions - {user.username};
      err := None;
    }

    /**
     One notification pass: every subscriber whose criterion the latest snapshot
     meets gets exactly one delivery attempt, in no particular order; a failed
     send is recorded and the pass goes on. Nothing in the registry changes.
     */
    method Notify(transport: Transport) returns (attempts: seq<Attempt>)
      ensures Recipients(attempts) == Eligible(subscriptions, latest)
      ensures Distinct(attempts)
      ensures |attempts| == |Eligible(subscriptions, latest)|
      ensures forall i :: 0 <= i < |attempts| ==>
                attempts[i].username in subscriptions &&
                attempts[i].delivery == SendNotification(subscriptions[attempts[i].username], latest, transport)
      ensures Valid() ==> forall i :: 0 <= i < |attempts| ==>
                attempts[i].delivery.to.username == attempts[i].username &&
                attempts[i].delivery.message.PriceReached?
    {
      var remaining := subscriptions.Keys;
      attempts := [];
      while remaining != {}
        invariant PassSoFar(subscriptions, latest, transport, remaining, attempts)
        decreases remaining
      {
        var k :| k in remaining;
        var v := subscriptions[k];
        if !CanSendNotification(v, latest) {
          SkipKey(subscriptions, latest, transport, remaining, attempts, k);
          remaining := remaining - {k};
          continue;
        }
        var d := SendNotification(v, latest, transport);
        SendToKey(subscriptions, latest, transport, remaining, attempts, k);
        attempts := attempts + [Attempt(k, d)];
        remaining := remaining - {k};
        // A failed send (d.err.Some?) is only logged; the pass carries on either way.
      }
      DistinctLogSize(attempts);
    }
  }

}
