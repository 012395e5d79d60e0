/**
  `AssertQueue` / `AssertTopic`, as written: read the resource's attributes,
  create it when the service reports it missing, and treat a duplicate-name
  answer to the create as success.

  The signing client's `request` is replaced by the two replies it would
  deliver: `read` for the "get attributes" request and `create` for the
  "create" request, the latter consulted only when a create is issued. The
  result lists the request bodies issued and the `(err, data)` calls made to
  the caller's callback, in the order they happen; the create's reply is
  taken to arrive after the read's callback has returned.
 */
module Reconciliation {
  import opened Js
  import opened Resources

  const CodeSuccess := 0
  const CodeNotFound := 4440
  const CodeDuplicateName := 4460
  const CodeGenericError := 4000
  /** The text that marks a generic error as a duplicate-name error. */
  const DuplicateMarker := "4460"

  /** A decoded service answer: its status code, message and the remaining
      attributes, which the client never inspects. */
  datatype Response = Response(code: int, message: string, attributes: map<string, Value>)

  /** A value received from the signing client or passed to the callback:
      `undefined`, `null`, an error object, or a service answer. */
  datatype Arg = NoArg | NullArg | ErrorArg(reason: string) | ResponseArg(response: Response)

  /** JavaScript truthiness of an `Arg`. */
  predicate Truthy(a: Arg) {
    a.ErrorArg? || a.ResponseArg?
  }

  /** `a && a.code === c` */
  predicate HasCode(a: Arg, c: int) {
    a.ResponseArg? && a.response.code == c
  }

  /** The `(error, data)` pair the signing client calls back with. A transport
      or signing failure has a truthy `error`. */
  datatype Reply = Reply(error: Arg, data: Arg)

  /** One call `next(err, data)` of the caller's callback; an omitted
      argument is `NoArg`. */
  datatype Delivery = Delivery(err: Arg, data: Arg)

  /** The callback was told "no error" (a promisified wrapper resolves). */
  predicate Succeeded(d: Delivery) {
    !Truthy(d.err)
  }

  /** `sub` occurs somewhere in `s`. */
  predicate Contains(s: string, sub: string) {
    exists j | 0 <= j <= |s| - |sub| :: OccursAt(s, sub, j)
  }

  /** The duplicate-name test applied to a create answer: code 4460, or the
      generic code 4000 with a non-empty message containing "4460". */
  predicate IsDuplicate(a: Arg)
    ensures IsDuplicate(a) <==>
              a.ResponseArg? &&
              (a.response.code == CodeDuplicateName ||
               (a.response.code == CodeGenericError && Contains(a.response.message, DuplicateMarker)))
  {
    a.ResponseArg? &&
    (a.response.code == CodeDuplicateName ||
     (a.response.code == CodeGenericError && a.response.message != "" &&
      IndexOf(a.response.message, DuplicateMarker) >= 0))
  }

  /** What the callback receives from the create's reply. */
  function CreateOutcome(create: Reply): (d: Delivery)
    ensures Truthy(create.error) ==> d == Delivery(create.error, NoArg)
    ensures !Truthy(create.error) && IsDuplicate(create.data) ==> d == Delivery(NullArg, create.data)
    ensures !Truthy(create.error) && !IsDuplicate(create.data) ==> d == Delivery(create.data, NoArg)
    ensures Succeeded(d) <==> !Truthy(create.error) && (IsDuplicate(create.data) || !Truthy(create.data))
  {
    if Truthy(create.error) then Delivery(create.error, NoArg)
    else if IsDuplicate(create.data) then Delivery(NullArg, create.data)
    else Delivery(create.data, NoArg)
  }

  /** The service reported the resource missing, so a create is issued. */
  predicate ReportsMissing(read: Reply) {
    !Truthy(read.error) && HasCode(read.data, CodeNotFound)
  }

  /** The requests and callback deliveries of one assert-or-create call for
      the resource `name` with creation parameters `p`. */
  datatype Trace = Trace(requests: seq<Body>, deliveries: seq<Delivery>)

  function Reconcile(name: Value, p: CreationParams, read: Reply, create: Reply): (t: Trace)
    // requests: always the read; the create only on a "missing" answer
    ensures 1 <= |t.requests| <= 2 && t.requests[0] == ReadBody(p.KindOf(), name)
    ensures |t.requests| == 2 <==> ReportsMissing(read)
    ensures |t.requests| == 2 ==> t.requests[1] == CreateBody(name, p)
    // one delivery per request: the missing path calls back twice
    ensures |t.deliveries| == |t.requests|
    ensures Truthy(read.error) ==> t.deliveries[0] == Delivery(read.error, read.data)
    ensures !Truthy(read.error) && HasCode(read.data, CodeSuccess) ==> t.deliveries[0] == Delivery(NullArg, read.data)
    ensures !Truthy(read.error) && !HasCode(read.data, CodeSuccess) ==> t.deliveries[0] == Delivery(read.data, NoArg)
    ensures |t.requests| == 2 ==> t.deliveries[1] == CreateOutcome(create)
    // the first call reports success exactly when the resource exists (or
    // the service answered with nothing at all)
    ensures Succeeded(t.deliveries[0]) <==>
              !Truthy(read.error) && (HasCode(read.data, CodeSuccess) || !Truthy(read.data))
  {
    var readRequest := ReadBody(p.KindOf(), name);
    if Truthy(read.error) then
      Trace([readRequest], [Delivery(read.error, read.data)])
    else if HasCode(read.data, CodeSuccess) then
      Trace([readRequest], [Delivery(NullArg, read.data)])
    else if HasCode(read.data, CodeNotFound) then
      // the create is issued, and then control falls through to `next(data)`
      Trace([readRequest, CreateBody(name, p)], [Delivery(read.data, NoArg), CreateOutcome(create)])
    else
      Trace([readRequest], [Delivery(read.data, NoArg)])
  }

  /** `AssertQueue(queueName, ...)`: the callback the arguments select, and
      the trace of the reconciliation. */
  function AssertQueue(name: Value, a: QueueArgs, read: Reply, create: Reply): (r: (Callback, Trace))
    ensures r.0 == CreateQueue(name, a).callback
    // the read, and the create exactly on "missing": nothing else
    ensures r.1.requests == if ReportsMissing(read) then [ReadBody(Queue, name), CreateQueue(name, a).body]
                            else [ReadBody(Queue, name)]
    ensures r.1.deliveries == Reconcile(name, ResolveQueueArgs(a).0, read, create).deliveries
  {
    var (p, next) := ResolveQueueArgs(a);
    (next, Reconcile(name, p, read, create))
  }

  /** `AssertTopic(topicName, ...)`. */
  function AssertTopic(name: Value, a: TopicArgs, read: Reply, create: Reply): (r: (Callback, Trace))
    ensures r.0 == CreateTopic(name, a).callback
    ensures r.1.requests == if ReportsMissing(read) then [ReadBody(Topic, name), CreateTopic(name, a).body]
                            else [ReadBody(Topic, name)]
    ensures r.1.deliveries == Reconcile(name, ResolveTopicArgs(a).0, read, create).deliveries
  {
    var (p, next) := ResolveTopicArgs(a);
    (next, Reconcile(name, p, read, create))
  }

  /** When no create is issued, the outcome does not depend on what a create
      would have answered. */
  lemma CreateReplyUnusedUnlessMissing(name: Value, p: CreationParams, read: Reply, c1: Reply, c2: Reply)
    requires !ReportsMissing(read)
    ensures Reconcile(name, p, read, c1) == Reconcile(name, p, read, c2)
  {
  }

  /** A generic error whose message carries the duplicate marker is treated
      exactly like the dedicated duplicate-name code. */
  lemma DuplicateByMessage(m: string, attrs: map<string, Value>, attrs': map<string, Value>, m': string)
    requires Contains(m, DuplicateMarker)
    ensures Succeeded(CreateOutcome(Reply(NoArg, ResponseArg(Response(CodeGenericError, m, attrs)))))
    ensures Succeeded(CreateOutcome(Reply(NoArg, ResponseArg(Response(CodeDuplicateName, m', attrs')))))
  {
  }

  /** The code 4000 without the marker is an ordinary error. */
  lemma GenericErrorWithoutMarker(m: string, attrs: map<string, Value>)
    requires !Contains(m, DuplicateMarker)
    ensures !Succeeded(CreateOutcome(Reply(NoArg, ResponseArg(Response(CodeGenericError, m, attrs)))))
  {
  }

  /** On the missing path the callback is called twice, and the first call
      carries the "missing" answer as its error argument, before the create
      has been answered. */
  lemma MissingPathCallsBackTwice(name: Value, p: CreationParams, read: Reply, create: Reply)
    requires ReportsMissing(read)
    ensures var t := Reconcile(name, p, read, create);
            |t.deliveries| == 2 && !Succeeded(t.deliveries[0]) && t.deliveries[0].err == read.data
  {
  }

  /** A create the service accepts (code 0) reaches the callback as its error
      argument: only the duplicate-name answers count as success. */
  lemma CreatedIsDeliveredAsError(name: Value, p: CreationParams, read: Reply, created: Response)
    requires ReportsMissing(read) && created.code == CodeSuccess
    ensures var t := Reconcile(name, p, read, Reply(NoArg, ResponseArg(created)));
            t.deliveries[1] == Delivery(ResponseArg(created), NoArg) && !Succeeded(t.deliveries[1])
  {
  }
}
