# pis-qcloud-cmq in Dafny

A model of the request-building and reconciliation logic of `pis-qcloud-cmq`.
This Node.js client wraps Tencent Cloud's message service (CMQ). Its queue and
topic classes turn method arguments into request bodies, which a signing client
sends. The model covers the parts of that which do more than copy arguments into
a body, apart from the one-position callback shift of the pass-through methods
listed under "Left out":

- **Assert-or-create** (`AssertQueue`, `AssertTopic`). The client reads a
  resource's attributes and creates the resource when the service answers 4440
  ("not found"). It then treats a duplicate-name answer to the create (4460, or
  4000 with "4460" in the message) as success. One model, parameterised by the
  resource kind, records the requests issued and every call made to the
  caller's callback. The code as written calls the callback twice on the "not
  found" path, and the model reproduces that.
- **Optional-argument shift.** A function passed in the first optional
  position becomes the callback. In the create, assert and `Subscribe`
  methods that parameter takes its default again. In `PublishMessage` and
  `BatchPublishMessage`, `msgTag` has no default: it becomes `[]` and
  `routingKey` becomes `''` (index.js:391-395, 417-421). JavaScript default
  parameters apply only to `undefined`.
- **Body builders.** `CreateQueue` and `CreateTopic`; the batch methods, which
  turn a list into `prefix.i` entries through `for..in`; `PublishMessage`, which
  sends at most five tags, reads `length` and throws on `undefined`/`null`;
  `BatchPublishMessage`; and `Subscribe`, with its two indexed lists.
- **Concurrency.** A small service holds one bit of state, and any number of
  callers assert the same resource under any interleaving of their steps.

JavaScript values are a datatype (`Js.Value`). A request body is a map from
property names to values, where `Js.Key` separates plain names from the
`prefix.i` names the loops write. The signing client's reply is a parameter:
one `(error, data)` reply for each request issued.

Modules: `Js` (the JavaScript semantics used), `Resources` (queues and topics:
argument shift, defaults, read and create bodies), `Reconciliation` (the
assert methods as written), `Intended` (the same methods as evidently
intended), `Race` (concurrent callers), and `Messages` (the message and
subscription body builders, as written and with the routing key fixed).

The code and its documentation disagree on the assert methods. The doc
comments (index.js:59-62, 284-287) say the method returns true if the resource
exists and creates it if not. The `Promise.promisify` wrappers (index.js:20, 244) and
the test's `AssertQueueAsync(...).then(...)` chain (test/sendMessage.spec.js:12)
expect one result, with success once the resource exists. The code calls
back twice on the "not found" path and reports an accepted create as an error.
The model follows the code (`Reconciliation`) and puts the promised behaviour
in `Intended`. See "Findings".

## Model

| member | source | states |
|---|---|---|
| Resources.ResolveQueueArgs | index.js:64-68 | A function in the `maxMsgHeapNum` position becomes the callback, and `maxMsgHeapNum` becomes 10000000; otherwise `next` is the callback. Each other parameter takes its default exactly when it is `undefined`. |
| Resources.ResolveTopicArgs | index.js:289-293 | The same shift on `maxMsgSize` (default 65536); `filterType` defaults to 0 when `undefined`. |
| Resources.CallbackOnlyQueueArgs | index.js:40-44 | `M(name, cb)` gets every default queue parameter and `cb` as its callback. |
| Resources.CallbackOnlyTopicArgs | index.js:268-272 | `M(name, cb)` gets every default topic parameter and `cb` as its callback. |
| Resources.LateCallbackIsAParameter | index.js:40-44 | A function in a later optional position is not taken as the callback: it is forwarded as a parameter, and the default no-op callback is used. |
| Resources.ReadBody | index.js:70-73 | The "get attributes" body has exactly the kind's action and the name. |
| Resources.CreateBody | index.js:83-90 | The "create" body has exactly the action, the name and the kind's parameter fields. Reading the parameters back gives the ones passed in. |
| Resources.CreateQueue | index.js:40-57 | One `CreateQueue` request. Its body has exactly the keys `Action`, `queueName` and the five queue parameters. Its callback and parameters are those the argument shift selects, and they round-trip through the body. |
| Resources.CreateTopic | index.js:268-282 | One `CreateTopic` request. Its body has exactly the keys `Action`, `topicName`, `maxMsgSize` and `filterType`. It has the same guarantees for topic parameters. |
| Js.IndexOf | index.js:99 | The result is -1 when `sub` does not occur in `s`; otherwise it is the first position where `sub` occurs. |
| Reconciliation.IsDuplicate | index.js:97-99 | A create answer is a duplicate exactly when its code is 4460, or its code is 4000 and its message contains "4460". |
| Reconciliation.CreateOutcome | index.js:91-104 | A transport error reaches the callback as `next(error)`, and a duplicate as `next(null, data)`. Any other answer reaches it as `next(data)`. The callback is told success exactly when there is no error and the answer is a duplicate or falsy. |
| Reconciliation.Reconcile | index.js:70-108 | The read is always issued, and the create only when the read answers 4440 without error. The create body is the create-request body. Each request issued causes one callback call, so the missing path calls back twice. The first call reports success exactly when the read answered 0 or nothing. The second call is the create's outcome. |
| Reconciliation.AssertQueue | index.js:64-109 | The callback is the one `CreateQueue` would select. The requests are exactly the read and, only on "missing", `CreateQueue`'s body: nothing else is sent. The deliveries are those of the reconciliation. |
| Reconciliation.AssertTopic | index.js:289-331 | The same for topics, against `CreateTopic`. |
| Reconciliation.CreateReplyUnusedUnlessMissing | index.js:74-80 | Off the missing path, the result does not depend on a create reply. |
| Reconciliation.DuplicateByMessage | index.js:97-100 | A 4000 answer whose message contains "4460", or any 4460 answer, is reported as success. |
| Reconciliation.GenericErrorWithoutMarker | index.js:97-103 | A 4000 answer without the marker is reported as an error. |
| Reconciliation.MissingPathCallsBackTwice | index.js:82-107 | On "missing", the callback is called twice. The first call carries the 4440 answer as its error. |
| Reconciliation.CreatedIsDeliveredAsError | index.js:97-103 | A create accepted with code 0 reaches the callback as its error argument. |
| Intended.CreateOutcomeIntended | index.js:91-104 | An accepted create and a duplicate both count as success. The outcome agrees with the code as written everywhere except on an accepted create. |
| Intended.ReconcileIntended | index.js:70-108 | The same requests as the code as written, and exactly one callback call. It is identical to the code as written off the missing path. Success holds exactly when the resource exists afterwards, or no answer came. |
| Intended.AsWrittenAddsPrematureCall | index.js:82-107 | On the missing path, the code as written delivers the intended call preceded by one premature error call. |
| Intended.FreshQueueCounterexample | index.js:82-107 | For a fresh queue that the service creates, the code as written reports two errors where one success is intended. |
| Race.StepKeepsGood | index.js:70-108 | One step of any caller keeps the invariant. Under it, every finished caller was told success once and the resource exists, and every waiting caller saw "missing". |
| Race.RunKeepsGood | index.js:70-108 | Any schedule of steps keeps the invariant. |
| Race.RaceTolerance | index.js:82-103 | Against the modelled service, which answers a read with 0 or 4440 and a create with 0 or 4460 and never fails in transport: for any number of callers, any interleaving and either initial state, every finished caller (intended code) was called back once with success, and the resource exists. |
| Race.RunAdvances | index.js:70-108 | Each scheduled step of a caller brings it one step closer to finishing. |
| Race.ScheduledTwiceFinishes | index.js:70-108 | A caller scheduled at least twice has finished. |
| Race.AssertOnExistingIssuesNoCreate | index.js:78-80 | Once the resource exists, asserting it again issues only the read and reports success, both as written and as intended. |
| Race.BothReadThenBothCreate | index.js:82-103 | Two callers read "missing" and both create: the loser's duplicate answer is reconciled to success. As written, each caller's first callback call is an error. |
| Js.Enumerated | index.js:177-178 | `for..in` visits an array's elements and a string's one-character strings, in order, and nothing for any other value: over `undefined`, `null` or a number it visits nothing, so the batch methods and `Subscribe` send no entries for them. |
| Messages.IndexedBatch | index.js:172-183 | The body of `BatchSendMessage` (`msgBody.i`, lines 172-183) and `BatchDeleteMessage` (`receiptHandle.i`, lines 216-227). It has exactly the action, the queue name and one indexed entry per element `for..in` visits. The entries read back as the enumerated list. |
| Messages.Indexable | index.js:403-408 | `.length` and `[i]`: an array's elements, a string's characters, `undefined` for each of a function's declared parameters, and nothing for a number. |
| Js.ToText | index.js:404 | The string a routing key stands for as a property name. A string stands for itself and an integer for its decimal numeral. An array stands for its elements joined by commas. A function is unknown. |
| Js.NatTextValue | index.js:404 | The decimal numeral of a number reads back as that number. |
| Js.JoinText | index.js:404 | The join past the end is empty, and the last element contributes its own string form with no comma after it; `undefined` and `null` elements are empty. |
| Js.JoinTextStep | index.js:404 | Before the last element, the join is the element's string form, one comma and the join of the rest, and it is unknown exactly when one of those is. |
| Js.StringArrayText | index.js:404 | An array of strings stands for those strings joined by commas, against an independent left-to-right definition of the join. |
| Js.ShortArrayTexts | index.js:404 | `["x"]` stands for `x`, and `["x", "y"]` for `x,y`. |
| Messages.PropertyKey | index.js:404 | `qBody[routingKey]` writes the field named by the routing key's string form. A key that holds a function is kept apart from every named field. |
| Messages.PublishTags | index.js:407-409 | At most the first five tags, in order. |
| Messages.AddRoutingKey | index.js:403-404 | As written, a non-empty routing key is stored under its own value. Every other field is kept. |
| Messages.PublishBody | index.js:397-409 | After the shift, the body has exactly the three named fields, the routing key's property when its `length` is positive, and the tags. Each named field keeps its value unless the routing key names it. The tags read back in order. |
| Messages.PublishMessage | index.js:390-414 | It throws exactly when, after the shift, `routingKey` or `msgTag` is `undefined`/`null`. A function as `msgTag` is the callback. The body has exactly `Action`, `topicName`, `msgBody`, the routing key's property and `msgTag.0` .. `msgTag.(k-1)`, where k = min(5, length). The named fields keep their values unless the routing key names them. The tags are the first k in order. `routingKey` is present only when the routing key stands for that name. |
| Messages.BatchPublishMessage | index.js:416-440 | It throws exactly when the routing key is `undefined`/`null` after the shift. The body has exactly `Action`, `topicName`, the routing key's property and the two indexed lists. The named fields keep their values unless the routing key names them. The bodies and tags read back as the enumerated lists, with no tag limit. |
| Messages.SubscribeFields | index.js:460-469 | Exactly the seven named fields, with the values given. |
| Messages.Subscribe | index.js:455-481 | A function as `notifyStrategy` is the callback, and the strategy then takes its default. Both defaults apply only to `undefined`. The named fields carry the caller's values. Filter tags and binding keys read back from their indexed entries, and the body has no other keys. |
| Messages.RoutingKeyCanReplaceMessageBody | index.js:397-404 | The routing key `"msgBody"` overwrites the message body. |
| Messages.RoutingKeyFieldMissing | index.js:403-404 | For the example key `"order.paid"`, the key is stored under its own name and no `routingKey` field is sent. The general statement is `PublishMessage`'s ensures that `routingKey` is present exactly when the routing key stands for that name. |
| Messages.ArrayRoutingKeyReplacesMessageBody | index.js:397-404 | The array routing key `["msgBody"]` stands for `msgBody` and overwrites the message body as well. |
| Messages.ArrayRoutingKeySetsRoutingKeyField | index.js:403-404 | The array `["routingKey"]` stands for `routingKey`, so the code as written sends it under that field. |
| Messages.AddRoutingKeyField | index.js:403-404 | As intended, a non-empty routing key is stored under `routingKey`, and every other field is unchanged. |
| Messages.PublishMessageIntended | index.js:390-414 | The same throwing, callback and tags as `PublishMessage`. The body has exactly the three named fields, `routingKey` when the key is written, and the tags. `Action`, `topicName` and `msgBody` always keep their values. `routingKey` is present exactly when the key is non-empty, and it holds the key. |
| Messages.BatchPublishBodyIntended | index.js:421-437 | After the shift, the corrected body has exactly the two named fields, `routingKey` when the key is non-empty, and the two lists. `routingKey` holds the key, and is absent when the key is empty. |
| Messages.BatchPublishMessageIntended | index.js:416-440 | The same throwing, callback and lists as `BatchPublishMessage`. The body has exactly the two named fields, `routingKey` when the key is written, and the two lists. The named fields always keep their values. `routingKey` holds the key, and is absent when the key is not written. |
| Js.WithList | index.js:177-179 | Adding a list's `prefix.i` entries adds exactly those keys. The list reads back from them, and every other field and list is unchanged. |
| Js.UnpackPack | index.js:177-179 | Entries written under a fresh prefix read back as the list written. |

## Left out

- The SDK constructor, request signing and HTTP transport are not modelled, because they are calls into the signing client (index.js:7-16, 231-240). Each reply that client would deliver is a parameter.
- The `Promise.promisify` wrappers are left out; `Reconciliation.Succeeded` says when such a wrapper would resolve.
- Pass-through methods (`DeleteQueue`, `SendMessage`, `ReceiveMessage`, `ListQueue`, `SetQueueAttributes`, `ListTopic`, `SetTopicAttributes`, `ListSubscriptionByTopic` and similar) are left out. Apart from the same one-position callback shift that `ResolveQueueArgs`/`ResolveTopicArgs` model (index.js:112-115, 136-139, 335-338, 359-362; `ListSubscriptionByTopic` resets `searchWord` to `''` at index.js:494-497), they copy their arguments into a body with no other logic.
- `SetSubscriptionAttributes` is not part of this model. It refers to an undefined `protocol` and `endpoint`, so its behaviour is a ReferenceError, not request building.
- The create request inside the read callback calls `this.cmq_client` on a `this` that a plain function does not bind. The model treats the create as issued, which is what the code evidently means.
- Reconciliation.Reconcile: takes the create's reply to arrive after the read's callback has returned. The model does not interleave other events between the two.
- Reconciliation.IsDuplicate: compares codes as integers. The source's loose `==` would also accept the string `"4460"`, and non-numeric codes are not modelled.
- Js.Value: booleans, objects and `NaN` are not modelled as JavaScript values. Numbers are integers only (`Num(n: int)`): fractions and their string forms are not modelled. Arrays are dense, and inherited enumerable properties are not modelled.
- Js.Value: a Dafny `string` is a sequence of Unicode scalar values. JavaScript's `.length`, `[i]` and `for..in` on a string work on UTF-16 code units. So for a string outside the Basic Multilingual Plane, `Js.Enumerated`, `Messages.Indexable` and the tag count of `PublishMessage` give fewer elements than JavaScript would.
- Messages.PropertyKey: a routing key that spells an indexed name such as `"msgTag.0"` is kept distinct from the entry the tag loop writes. In the source, the later write would win.
- Messages.PropertyKey: a function's string form is its source text, which the model does not have. A routing key that is, or contains, a function is kept apart from every named field.
- Js.ToText: gives every integer its full decimal numeral. JavaScript numbers are doubles: `String` writes a magnitude of 1e21 or more in exponent form (`"1e+21"`), and integers beyond 2^53 are not all distinct numbers. A routing key `Num(n)` or an array holding one, with such an n, names a different property in the model than in the source.
- Messages.AddRoutingKey: a routing key that stands for `"__proto__"` is modelled as adding the field `__proto__`. In JavaScript, `qBody['__proto__'] = ...` (index.js:404, 429) goes through `Object.prototype`'s `__proto__` setter: a string value adds no field, and an array value replaces the body's prototype. So for that key, `PublishBody`, `PublishMessage` and `BatchPublishMessage` state one field more than the source sends.
- Js.CallbackFrom: calling a callback that is not a function throws in the source. The model records the value as the callback and does not model the throw.
- The test file (test/sendMessage.spec.js) is left out. It calls `new` on the module's export object `{CMQQ, CMQT}` (test/sendMessage.spec.js:8 against index.js:559-562), which throws before any request is made. Beyond that, it would need a live service.

## Findings

| source | as written | input that shows it | evidently intended | confidence | as-written member | corrected member |
|---|---|---|---|---|---|---|
| index.js:82-107 | The create branch has no `return`, so control falls through to `next(data)`. | The read answers `{code: 4440}`: the callback is called with the 4440 answer as an error, then again with the create's outcome. | One callback call, the create's outcome. | not executed | Reconciliation.MissingPathCallsBackTwice | Intended.ReconcileIntended |
| index.js:97-103 | Only duplicate-name answers count as success. | The read answers 4440, and the create answers `{code: 0}`: the callback gets `next({code: 0})`. | An accepted create is reported as success. | not executed | Reconciliation.CreatedIsDeliveredAsError | Intended.CreateOutcomeIntended |
| index.js:403-404 | `qBody[routingKey] = routingKey` stores the key under its own value. | `PublishMessage('t', 'hello', [], 'msgBody')` sends `msgBody: 'msgBody'`, and no `routingKey` field. | `qBody.routingKey = routingKey` | not executed | Messages.RoutingKeyCanReplaceMessageBody | Messages.PublishMessageIntended |
