/**
  The assert-or-create reconciliation as its comments and its callers
  evidently intend it: the callback is called exactly once, and a create the
  service accepts counts as success just as a lost duplicate-name race does.
  It differs from `Reconciliation.Reconcile` only in the deliveries of the
  "missing" path.
 */
module Intended {
  import opened Js
  import opened Resources
  import opened Reconciliation

  /** The create left the resource in place: accepted (code 0) or a
      duplicate-name answer. */
  predicate CreateSucceeded(a: Arg) {
    HasCode(a, CodeSuccess) || IsDuplicate(a)
  }

  /** What the callback should receive from the create's reply. */
  function CreateOutcomeIntended(create: Reply): (d: Delivery)
    ensures Truthy(create.error) ==> d == Delivery(create.error, NoArg)
    ensures !Truthy(create.error) && CreateSucceeded(create.data) ==> d == Delivery(NullArg, create.data)
    ensures Succeeded(d) <==> !Truthy(create.error) && (CreateSucceeded(create.data) || !Truthy(create.data))
    // it agrees with the code as written on everything but an accepted create
    ensures !(!Truthy(create.error) && HasCode(create.data, CodeSuccess)) ==> d == CreateOutcome(create)
  {
    if Truthy(create.error) then Delivery(create.error, NoArg)
    else if CreateSucceeded(create.data) then Delivery(NullArg, create.data)
    else Delivery(create.data, NoArg)
  }

  function ReconcileIntended(name: Value, p: CreationParams, read: Reply, create: Reply): (t: Trace)
    // the same requests as the code as written
    ensures t.requests == Reconcile(name, p, read, create).requests
    // the callback is called exactly once
    ensures |t.deliveries| == 1
    ensures !ReportsMissing(read) ==> t.deliveries == Reconcile(name, p, read, create).deliveries
    ensures ReportsMissing(read) ==> t.deliveries == [CreateOutcomeIntended(create)]
    ensures Succeeded(t.deliveries[0]) <==>
              !Truthy(read.error) &&
              (HasCode(read.data, CodeSuccess) || !Truthy(read.data) ||
               (HasCode(read.data, CodeNotFound) && !Truthy(create.error) &&
                (CreateSucceeded(create.data) || !Truthy(create.data))))
  {
    var readRequest := ReadBody(p.KindOf(), name);
    if Truthy(read.error) then
      Trace([readRequest], [Delivery(read.error, read.data)])
    else if HasCode(read.data, CodeSuccess) then
      Trace([readRequest], [Delivery(NullArg, read.data)])
    else if HasCode(read.data, CodeNotFound) then
      Trace([readRequest, CreateBody(name, p)], [CreateOutcomeIntended(create)])
    else
      Trace([readRequest], [Delivery(read.data, NoArg)])
  }

  /** The code as written adds one premature call, carrying the "missing"
      answer as an error, in front of the intended one (an accepted create
      aside, which it also reports differently). */
  lemma AsWrittenAddsPrematureCall(name: Value, p: CreationParams, read: Reply, create: Reply)
    requires ReportsMissing(read)
    requires !(!Truthy(create.error) && HasCode(create.data, CodeSuccess))
    ensures Reconcile(name, p, read, create).deliveries
            == [Delivery(read.data, NoArg)] + ReconcileIntended(name, p, read, create).deliveries
  {
  }

  /** A concrete input on which the code as written reports a fresh queue's
      creation as two errors, where one success is intended. */
  lemma FreshQueueCounterexample()
    ensures var missing := ResponseArg(Response(CodeNotFound, "", map[]));
            var created := ResponseArg(Response(CodeSuccess, "", map[]));
            var read := Reply(NoArg, missing);
            var create := Reply(NoArg, created);
            var asWritten := Reconcile(Str("q"), DefaultQueueParams(), read, create);
            var intended := ReconcileIntended(Str("q"), DefaultQueueParams(), read, create);
            && asWritten.deliveries == [Delivery(missing, NoArg), Delivery(created, NoArg)]
            && !Succeeded(asWritten.deliveries[0]) && !Succeeded(asWritten.deliveries[1])
            && intended.deliveries == [Delivery(NullArg, created)]
  {
  }
}
