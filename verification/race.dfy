/**
  Several callers asserting the same resource concurrently against a
  service that keeps one bit of state, whether the resource exists. Each
  caller's read and create are separate steps, interleaved in any order the
  schedule picks. The service answers a read with 0 or 4440 and a create
  with 0 (created) or 4460 (duplicate name).
 */
module Race {
  import opened Js
  import opened Resources
  import opened Reconciliation
  import opened Intended

  /** A caller before its read, waiting on its create, or finished with the
      two replies it received (the second unused when no create was issued). */
  datatype Phase = Idle | Creating(read: Reply) | Finished(read: Reply, create: Reply)

  datatype World = World(present: bool, callers: seq<Phase>)

  function Answer(code: int): Reply {
    Reply(NoArg, ResponseArg(Response(code, "", map[])))
  }

  /** The service's answer to a "get attributes" request. */
  function ServiceRead(present: bool): (r: Reply)
    ensures ReportsMissing(r) <==> !present
  {
    if present then Answer(CodeSuccess) else Answer(CodeNotFound)
  }

  /** The service's answer to a "create" request; afterwards the resource
      exists either way. */
  function ServiceCreate(present: bool): (r: Reply)
    ensures !Truthy(r.error) && CreateSucceeded(r.data)
  {
    if present then Answer(CodeDuplicateName) else Answer(CodeSuccess)
  }

  /** Caller `i` takes its next step; other indices change nothing. */
  function Step(w: World, i: nat): (w': World)
    ensures |w'.callers| == |w.callers|
    ensures w.present ==> w'.present
  {
    if i >= |w.callers| then w
    else match w.callers[i]
      case Idle =>
        var r := ServiceRead(w.present);
        if ReportsMissing(r) then World(w.present, w.callers[i := Creating(r)])
        else World(w.present, w.callers[i := Finished(r, r)])
      case Creating(r) =>
        World(true, w.callers[i := Finished(r, ServiceCreate(w.present))])
      case Finished(_, _) => w
  }

  function Run(w: World, schedule: seq<nat>): (w': World)
    ensures |w'.callers| == |w.callers|
    decreases |schedule|
  {
    if schedule == [] then w else Run(Step(w, schedule[0]), schedule[1..])
  }

  /** What a finished caller's callback received, under the intended code. */
  function Outcome(name: Value, p: CreationParams, ph: Phase): seq<Delivery>
    requires ph.Finished?
  {
    ReconcileIntended(name, p, ph.read, ph.create).deliveries
  }

  /** Every finished caller was told "success" exactly once, and then the
      resource exists; every waiting caller was told "missing". */
  ghost predicate Good(name: Value, p: CreationParams, w: World) {
    forall i :: 0 <= i < |w.callers| ==>
      (w.callers[i].Creating? ==> ReportsMissing(w.callers[i].read)) &&
      (w.callers[i].Finished? ==>
         w.present && |Outcome(name, p, w.callers[i])| == 1 && Succeeded(Outcome(name, p, w.callers[i])[0]))
  }

  lemma StepKeepsGood(name: Value, p: CreationParams, w: World, i: nat)
    requires Good(name, p, w)
    ensures Good(name, p, Step(w, i))
  {
  }

  lemma {:induction false} RunKeepsGood(name: Value, p: CreationParams, w: World, schedule: seq<nat>)
    requires Good(name, p, w)
    ensures Good(name, p, Run(w, schedule))
    decreases |schedule|
  {
    if schedule != [] {
      StepKeepsGood(name, p, w, schedule[0]);
      RunKeepsGood(name, p, Step(w, schedule[0]), schedule[1..]);
    }
  }

  /** Race tolerance: however the steps of any number of callers interleave,
      whether or not the resource existed at first, every caller that has
      finished was called back once with success, and the resource exists. */
  lemma RaceTolerance(name: Value, p: CreationParams, present: bool, n: nat, schedule: seq<nat>)
    ensures var w := Run(World(present, seq(n, _ => Idle)), schedule);
            forall i :: 0 <= i < n && w.callers[i].Finished? ==>
              w.present && |Outcome(name, p, w.callers[i])| == 1 && Succeeded(Outcome(name, p, w.callers[i])[0])
  {
    RunKeepsGood(name, p, World(present, seq(n, _ => Idle)), schedule);
  }

  /** How many steps a caller still has to take. */
  function Pending(ph: Phase): nat {
    match ph
    case Idle => 2
    case Creating(_) => 1
    case Finished(_, _) => 0
  }

  /** How often caller `i` is scheduled. */
  function Count(schedule: seq<nat>, i: nat): nat
    decreases |schedule|
  {
    if schedule == [] then 0 else (if schedule[0] == i then 1 else 0) + Count(schedule[1..], i)
  }

  /** Each scheduled step of caller `i` brings it one step closer to
      finishing; other callers' steps leave it alone. */
  lemma {:induction false} RunAdvances(w: World, schedule: seq<nat>, i: nat)
    requires i < |w.callers|
    ensures Pending(Run(w, schedule).callers[i]) <=
              if Count(schedule, i) >= Pending(w.callers[i]) then 0 else Pending(w.callers[i]) - Count(schedule, i)
    decreases |schedule|
  {
    if schedule != [] {
      var w' := Step(w, schedule[0]);
      assert schedule[0] == i ==> Pending(w'.callers[i]) <= if Pending(w.callers[i]) == 0 then 0 else Pending(w.callers[i]) - 1;
      assert schedule[0] != i ==> w'.callers[i] == w.callers[i];
      RunAdvances(w', schedule[1..], i);
    }
  }

  /** Termination: a caller scheduled at least twice has finished. */
  lemma ScheduledTwiceFinishes(w: World, schedule: seq<nat>, i: nat)
    requires i < |w.callers| && Count(schedule, i) >= 2
    ensures Run(w, schedule).callers[i].Finished?
  {
    RunAdvances(w, schedule, i);
  }

  /** Idempotence: once the resource exists, a caller that starts asserting
      it issues no create and is told "success" at once, under the code as
      written as well as under the intended code. */
  lemma AssertOnExistingIssuesNoCreate(name: Value, p: CreationParams, w: World, i: nat)
    requires w.present && i < |w.callers| && w.callers[i].Idle?
    ensures var ph := Step(w, i).callers[i];
            && ph.Finished?
            && Reconcile(name, p, ph.read, ph.create) == Trace([ReadBody(p.KindOf(), name)], [Delivery(NullArg, Answer(CodeSuccess).data)])
            && Reconcile(name, p, ph.read, ph.create) == ReconcileIntended(name, p, ph.read, ph.create)
  {
  }

  /** The race the intended code tolerates and the code as written does not:
      two callers both read "missing", then both create. The second create
      loses the race and is reconciled; but as written, each caller's first
      callback call already carries the "missing" answer as an error. */
  lemma BothReadThenBothCreate(name: Value, p: CreationParams)
    ensures var w := Run(World(false, [Idle, Idle]), [0, 1, 0, 1]);
            && w.present
            && w.callers[0] == Finished(Answer(CodeNotFound), Answer(CodeSuccess))
            && w.callers[1] == Finished(Answer(CodeNotFound), Answer(CodeDuplicateName))
            && Outcome(name, p, w.callers[0]) == [Delivery(NullArg, Answer(CodeSuccess).data)]
            && Outcome(name, p, w.callers[1]) == [Delivery(NullArg, Answer(CodeDuplicateName).data)]
            && !Succeeded(Reconcile(name, p, w.callers[0].read, w.callers[0].create).deliveries[0])
            && !Succeeded(Reconcile(name, p, w.callers[1].read, w.callers[1].create).deliveries[0])
  {
    var w0 := World(false, [Idle, Idle]);
    var w1 := Step(w0, 0);
    var w2 := Step(w1, 1);
    var w3 := Step(w2, 0);
    var w4 := Step(w3, 1);
    assert w4.callers[1] == Finished(Answer(CodeNotFound), Answer(CodeDuplicateName));
    assert Run(w0, [0, 1, 0, 1]) == w4 by {
      assert [0, 1, 0, 1][1..] == [1, 0, 1];
      assert [1, 0, 1][1..] == [0, 1];
      assert [0, 1][1..] == [1];
      assert [1][1..] == [];
    }
  }
}
