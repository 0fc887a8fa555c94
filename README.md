# gasbot subscription registry and matching engine, in Dafny

This project models the core of gasbot, a Telegram bot that notifies users
when the Ethereum gas price for a transaction category reaches the threshold
they chose. The model covers four parts:

- the `/subscribe` payload parser;
- the criterion evaluator (`Payload.SatisfiedBy`, `Payload.PrepareNotification`);
- the subscriber and its two delegating operations;
- the shared registry `Resources`, with `Subscribe`, `Unsubscribe` and the notification pass `Notify`.

Modules, one per source file, plus two of support:

| module | file | models |
|---|---|---|
| `Wrappers` | wrappers.dfy | `Option`, for Go's nil-able errors |
| `GasPrice` | gasprice.dfy | the `CurrentGasPrice` snapshot (four prices, as `real`) |
| `Criteria` | criteria.dfy | the closed vocabularies, as enumerations: `TxType` (fastest, fast, average, safeLow) and `Operator` (<, >, <=, >=, ==), with the reference price selection `Price` and comparison `Holds` |
| `Payloads` | payload.dfy | app/data/payload.go |
| `Subscribers` | subscriber.dfy | app/data/subscriber.go |
| `Registry` | resources.dfy | app/data/resources.go, as the class `Resources` |
| `CommandParser` | util.dfy | app/bot/util.go, with Go's `strings.Split(s, " ")` |
| `Scenarios` | scenarios.dfy | how parser, registry and notification pass combine |

How the model is built:

- Category and operator stay strings, as in Go. The string switches are specified against the `Criteria` enumerations. This shows that an unknown string (such as the feed's wildcard `*`) is representable and never matches.
- `Resources` is a class. Its `subscriptions` field is a `map<string, Subscriber>` that the methods reassign. `Subscribe` and `Unsubscribe` state their whole new map. Both keep the invariant `Valid()`: every entry is stored under its own user's name and holds a criterion that passed validation.
- `Notify` is a `while` loop. It picks unvisited keys in an unspecified order, as Go's map iteration does. Its postcondition says which usernames were attempted, that each was attempted once, and what each delivery was. `Notify` has no `modifies` clause, so by construction it changes neither the map nor `latest`.
- The messaging transport (`telebot.Bot.Send`) is a parameter `Transport`: a function from recipient and message to the error it reports. `strconv.ParseFloat` is a parameter `FloatParser` (a partial function, `None` for an error).
- Entries are keyed by `User.username`, as in Go. Users without a username therefore share the key `""`: a second such user's `Subscribe` overwrites the first one's criterion and keeps the first one's `User`, so notifications still go to the first. The model reproduces this behaviour as the source has it.
- Notification text is abstract: `Blank` for Go's empty string, or `PriceReached(field, price)` for the formatted message.

## Model

| member | source | states |
|---|---|---|
| `Criteria.ParseTxType` | app/data/resources.go:53 | a string is recognised as a category exactly when it is one of the four names, and is recognised as the category of that name |
| `Criteria.ParseOperator` | app/data/resources.go:58 | a string is recognised as an operator exactly when it is one of the five symbols, and is recognised as the operator of that symbol |
| `Payloads.CheckThreshold` | app/data/payload.go:23-46 | an unknown operator gives false; a known one gives `price op threshold`, with `==` exact |
| `Payloads.SatisfiedBy` | app/data/payload.go:21-67 | false for a field outside the four names and for an operator outside the five; otherwise the selected price (fastest→Fastest, fast→Fast, average→Average, safeLow→SafeLow) compared with the threshold by the operator |
| `Payloads.PrepareNotification` | app/data/payload.go:75-96 | blank exactly for an unknown field; otherwise a message naming the field and carrying the price selected for that field |
| `Payloads.MatchedPriceIsRendered` | app/data/payload.go:50-59 | when the criterion is met, the notification is not blank and shows the very price that met the comparison |
| `Payloads.EqualityHasNoTolerance` | app/data/payload.go:37-38 | `==` matches exactly when the selected price equals the threshold; a threshold off by 0.0001 does not match |
| `Payloads.WildcardNeverMatches` | app/data/payload.go:39-41 | a criterion with operator `*` or field `*` never matches |
| `Subscribers.CanSendNotification` | app/data/subscriber.go:17-19 | a subscriber is due exactly when its criterion's field and operator are known and the selected price meets the comparison |
| `Subscribers.CanSendIsSatisfiedBy` | app/data/subscriber.go:17-19 | eligibility is exactly the criterion check |
| `Subscribers.SendNotification` | app/data/subscriber.go:23-28 | the message goes to the subscriber's own user, is the prepared notification of its criterion, and the transport's error is returned unchanged |
| `Registry.Validate` | app/data/resources.go:52-66 | accepts exactly a known category, a known operator and a threshold of at least 1; the category error wins over the operator error, which wins over the threshold error; each error carries the exact text the user is shown (`txType ∈ {fastest, fast, average, safeLow}`, `operator ∈ {<, >, <=, >=, ==}`, `threshold >= 1.0 Gwei`) |
| `Registry.DistinctLogSize` | app/data/resources.go:30-43 | a log with no repeated username has as many entries as recipients |
| `Registry.AppendAttempt` | app/data/resources.go:36-41 | appending an attempt adds its username to the recipients and keeps the log free of repeats when the name is new |
| `Registry.SkipKey` | app/data/resources.go:32-34 | visiting a subscriber whose criterion fails adds nothing to the pass |
| `Registry.SendToKey` | app/data/resources.go:36-41 | visiting a subscriber whose criterion holds adds exactly one attempt for it, whatever the transport reports |
| `Registry.Resources.constructor` | main.go:68-72 | the registry starts with a zero snapshot and no subscribers, and satisfies its invariant |
| `Registry.Resources.Subscribe` | app/data/resources.go:50-98 | returns the validation error and changes nothing on bad input; re-subscribing keeps key set, size, stored user and payload type and overwrites field, operator and threshold; a new username adds exactly one entry holding the given criterion; every other entry is untouched; the invariant is kept |
| `Registry.Resources.Unsubscribe` | app/data/resources.go:101-117 | an absent user gets the error whose text is "not subscribed yet" and nothing changes; a present user's key, and only that key, is removed |
| `Registry.Resources.Notify` | app/data/resources.go:25-45 | the attempted usernames are exactly those whose criterion the latest snapshot meets, each attempted once, each with the delivery its subscriber makes, regardless of earlier failed sends; on a registry satisfying the invariant, the username in each log entry is the user the message goes to, and no blank message is ever sent |
| `CommandParser.Split` | app/bot/util.go:12 | one more piece than spaces, no piece contains a space, and joining the pieces with single spaces gives the input back |
| `CommandParser.SplitJoin` | app/bot/util.go:12 | splitting undoes joining for space-free pieces, so the pieces are determined by the input |
| `CommandParser.ParseSubscriptionPayload` | app/bot/util.go:10-24 | not exactly two spaces gives the error whose text is "bad payload received", with empty results; an unparsable third piece gives the error whose text is "bad threshold received", with empty results; success means the payload is category, space, operator, space, third piece, and the threshold is the parse of the third piece |
| `CommandParser.ParseOfWords` | app/bot/util.go:17-22 | for three space-free words the parser returns the first two verbatim and the parse of the third, or the threshold error |
| `Scenarios.ParserDoesNotValidate` | app/bot/util.go:10-24 | the parser accepts `avg * 0.5`, which `Subscribe`'s validation rejects with the category error |
| `Scenarios.DoubledSpaceGivesEmptyOperator` | app/bot/util.go:12-13 | `fast  5` parses into three pieces with an empty operator, which validation rejects |
| `Scenarios.SubscribeThenNotify` | app/data/resources.go:25-96 | right after a successful subscription, the next pass attempts that user exactly when the chosen price meets the chosen comparison |
| `Scenarios.NotifyScenario` | app/data/resources.go:25-96 | subscribing `alice` to `fastest < 150` yields one notification carrying 120 when the fastest price is 120 and none at 200; subscribing to `avg` is refused and leaves no entry |

## Left out

- The reader-writer lock and all interleaving: each registry operation is one atomic step.
- `Resources.Bot`: the transport is the `Transport` parameter of `Notify` instead of a field.
- Logging in `Notify`: the returned attempt log carries what Go logs (username and send error).
- Text formatting: the `%.2f` rendering and `strings.ToTitle` are abstracted as `PriceReached(field, price)`. This includes `CurrentGasPrice.String` and `Sendable` (app/data/gasprice.go, app/data/data.go).
- Floating point: prices and thresholds are `real`, so NaN, infinities and rounding are not modelled. `strconv.ParseFloat` is an abstract partial function.
- Pointer aliasing: Go stores `*Subscriber` and `*Payload` and overwrites the criterion's fields in place. The model replaces the map entry with the updated value. No other holder of those pointers exists in the source files.
- Updates of `Latest`: no source file writes it (the feed listener in app/gasz/listen.go only logs prices). `latest` is a public field, like Go's exported field.
- The feed clients (app/gasz/listen.go, app/gasz/get.go), the bot set-up (app/bot/run.go), configuration (app/config/read.go) and process lifecycle (main.go, apart from the registry's initial value): network I/O, foreign libraries and concurrency.
- A multi-step interactive subscription flow: no source file implements one.
- A nil `user` or nil `Latest` pointer, on which Go would panic: the model's values are never nil.
