/** The reconnect request shared by one controller at a time and any number of
    adapters. Each step is one section under a lock, one file replacement, or
    one read. */
module ReconnectProtocol {
  import opened Wrappers

  /** A process: its id and its start time. */
  datatype Target = Target(pid: nat, start: nat)

  datatype Status = Pending | Cancelled | Expired | Disabled | InstallationChanged | ShuttingDown | Closed

  predicate IsReason(s: Status) { s.Cancelled? || s.Expired? || s.Disabled? || s.InstallationChanged? }

  datatype Request = Request(
    operation: string, targets: set<Target>, cancelled: bool, expires: int, fingerprint: int, automatic: bool)

  type Report = map<Target, Status>

  /** What holds the controller's lock. */
  datatype Controller =
    | Free
    | Applying(request: Request)      // the report is saved, the request is not
    | Cancelling(operation: string)   // the request is saved, the report is not

  datatype Poll =
    | Resting
    | Deciding(request: Request)
    | Noting(request: Request, reason: Status)
    | Committing(request: Request)

  datatype Adapter = Adapter(poll: Poll, terminal: set<string>, draining: Option<string>)

  datatype World = World(
    request: Option<Request>, reports: map<string, Report>, controller: Controller,
    fingerprint: int, enabled: bool, now: int, adapters: map<Target, Adapter>, spawned: set<Target>)

  datatype Step =
    | Apply(operation: string, targets: set<Target>, wait: int, automatic: bool)
    | SaveRequest
    | Cancel
    | SaveReport
    | ControllerDies
    | Install(fingerprint: int, enabled: bool)
    | Tick
    | Spawn(t: Target)
    | Die(t: Target)
    | Read(t: Target)
    | Decide(t: Target, idle: bool)
    | Note(t: Target, noted: bool)
    | Commit(t: Target, intact: bool, marked: bool, published: bool)
    | Finish(t: Target, marked: bool)

  // Helpers.

  function SetStatus(w: World, operation: string, t: Target, s: Status): World
    requires operation in w.reports
  {
    w.(reports := w.reports[operation := w.reports[operation][t := s]])
  }

  function SetAdapter(w: World, t: Target, a: Adapter): World { w.(adapters := w.adapters[t := a]) }

  /** Some target of the request is alive and not done. */
  predicate Unfinished(w: World, r: Request) {
    && r.operation in w.reports
    && exists t :: t in w.reports[r.operation] && t in w.adapters
                   && (w.reports[r.operation][t] == Pending || w.reports[r.operation][t] == ShuttingDown)
  }

  predicate MayApply(w: World, operation: string, targets: set<Target>, wait: int) {
    && w.controller == Free && operation !in w.reports && targets != {} && targets <= w.adapters.Keys
    && 1 <= wait <= 300
    && (w.request.Some? && !w.request.value.cancelled && w.request.value.expires > w.now ==>
          !Unfinished(w, w.request.value))
  }

  function CancelPending(report: Report): Report {
    map t | t in report :: if report[t] == Pending then Cancelled else report[t]
  }

  /** Why the adapter may not serve the request it read, in the order tried. */
  function Reason(w: World, r: Request): Option<Status> {
    if r.cancelled then Some(Cancelled)
    else if r.expires <= w.now then Some(Expired)
    else if r.automatic && !w.enabled then Some(Disabled)
    else if r.fingerprint != w.fingerprint then Some(InstallationChanged)
    else None
  }

  predicate StillServed(w: World, r: Request) {
    w.controller == Free && w.request == Some(r) && r.expires > w.now && r.fingerprint == w.fingerprint
  }

  predicate Reported(w: World, operation: string, t: Target) { operation in w.reports && t in w.reports[operation] }

  // The steps. A step that is not possible changes nothing.

  function AdapterNext(w: World, t: Target, step: Step): World
    requires t in w.adapters
  {
    var a := w.adapters[t];
    match step
    case Read(_) =>
      if a.poll != Resting || a.draining.Some? || w.request.None? then w
      else
        var r := w.request.value;
        if r.operation in a.terminal || t !in r.targets then w else SetAdapter(w, t, a.(poll := Deciding(r)))
    case Decide(_, idle) =>
      if !a.poll.Deciding? then w
      else
        var reason := Reason(w, a.poll.request);
        SetAdapter(w, t, a.(poll := if reason.Some? then Noting(a.poll.request, reason.value)
                                    else if idle then Committing(a.poll.request)
                                    else Resting))
    case Note(_, noted) =>
      if !a.poll.Noting? then w
      else
        var operation := a.poll.request.operation;
        if !noted || !Reported(w, operation, t) then SetAdapter(w, t, a.(poll := Resting))
        else SetAdapter(SetStatus(w, operation, t, a.poll.reason), t, a.(poll := Resting, terminal := a.terminal + {operation}))
    case Commit(_, intact, marked, published) =>
      if !a.poll.Committing? then w
      else
        var operation := a.poll.request.operation;
        if !StillServed(w, a.poll.request) || !intact || !marked || !Reported(w, operation, t) then
          SetAdapter(w, t, a.(poll := Resting))
        else
          SetAdapter(SetStatus(w, operation, t, ShuttingDown), t,
                     a.(poll := Resting, draining := if published then Some(operation) else None))
    case Finish(_, marked) =>
      var gone := w.(adapters := w.adapters - {t});
      if a.draining.Some? && marked && Reported(w, a.draining.value, t) then SetStatus(gone, a.draining.value, t, Closed)
      else gone
    case _ => w.(adapters := w.adapters - {t})
  }

  function Next(w: World, step: Step): World {
    match step
    case Apply(operation, targets, wait, automatic) =>
      if !MayApply(w, operation, targets, wait) then w
      else
        var r := Request(operation, targets, false, w.now + wait, w.fingerprint, automatic);
        w.(reports := w.reports[operation := map t | t in targets :: Pending], controller := Applying(r))
    case SaveRequest =>
      if !w.controller.Applying? then w else w.(request := Some(w.controller.request), controller := Free)
    case Cancel =>
      if w.controller != Free || w.request.None? then w
      else w.(request := Some(w.request.value.(cancelled := true)), controller := Cancelling(w.request.value.operation))
    case SaveReport =>
      if !w.controller.Cancelling? then w
      else
        var operation := w.controller.operation;
        if operation !in w.reports then w.(controller := Free)
        else w.(reports := w.reports[operation := CancelPending(w.reports[operation])], controller := Free)
    case ControllerDies => w.(controller := Free)
    case Install(fingerprint, enabled) =>
      if w.controller.Applying? then w else w.(fingerprint := fingerprint, enabled := enabled)
    case Tick => w.(now := w.now + 1)
    case Spawn(t) =>
      if t in w.spawned then w
      else w.(adapters := w.adapters[t := Adapter(Resting, {}, None)], spawned := w.spawned + {t})
    case _ => if step.t in w.adapters then AdapterNext(w, step.t, step) else w
  }

  function Run(w: World, steps: seq<Step>): World
    decreases |steps|
  {
    if steps == [] then w else Run(Next(w, steps[0]), steps[1..])
  }

  function Start(fingerprint: int, enabled: bool, now: int): World {
    World(None, map[], Free, fingerprint, enabled, now, map[], {})
  }

  // Invariants.

  /** The operation can no longer be committed: its request was cancelled,
      replaced, or never saved. */
  predicate Dead(w: World, operation: string) {
    && operation in w.reports
    && (w.controller.Applying? ==> w.controller.request.operation != operation)
    && (w.request.Some? && w.request.value.operation == operation ==> w.request.value.cancelled)
  }

  /** What an adapter holds of a request that may since have changed. */
  predicate Snapshot(w: World, r: Request) {
    && r.operation in w.reports && r.targets == w.reports[r.operation].Keys
    && (w.controller.Applying? ==> w.controller.request.operation != r.operation)
    && (w.request.Some? && w.request.value.operation == r.operation ==> r == w.request.value || r.(cancelled := true) == w.request.value)
  }

  predicate AdapterOk(w: World, t: Target, a: Adapter) {
    && (a.draining.Some? ==> Reported(w, a.draining.value, t) && w.reports[a.draining.value][t] == ShuttingDown && a.poll == Resting)
    && (a.poll != Resting ==> Snapshot(w, a.poll.request) && t in a.poll.request.targets && a.poll.request.operation !in a.terminal)
    && (a.poll.Noting? ==> IsReason(a.poll.reason))
    && (a.poll.Committing? ==> !a.poll.request.cancelled)
  }

  /** A target marked with a reason can no longer shut down under the operation,
      and a closed target is gone. */
  predicate ReasonOk(w: World, operation: string, t: Target)
    requires Reported(w, operation, t)
  {
    && t in w.spawned
    && (w.reports[operation][t] == Closed ==> t !in w.adapters)
    && (IsReason(w.reports[operation][t]) ==>
          || Dead(w, operation)
          || t !in w.adapters
          || operation in w.adapters[t].terminal)
  }

  predicate ControllerOk(w: World) {
    && (w.request.Some? ==> w.request.value.operation in w.reports && w.request.value.targets == w.reports[w.request.value.operation].Keys)
    && (w.controller.Applying? ==>
          && w.controller.request.operation in w.reports
          && w.controller.request.targets == w.reports[w.controller.request.operation].Keys
          && !w.controller.request.cancelled
          && (w.request.Some? ==> w.request.value.operation != w.controller.request.operation)
          && forall t :: t in w.controller.request.targets ==> w.reports[w.controller.request.operation][t] == Pending)
    && (w.controller.Cancelling? ==> w.request.Some? && w.request.value.operation == w.controller.operation && w.request.value.cancelled)
  }

  ghost predicate Inv(w: World) {
    && ControllerOk(w)
    && w.adapters.Keys <= w.spawned
    && (forall t :: t in w.adapters ==> AdapterOk(w, t, w.adapters[t]))
    && (forall operation, t :: Reported(w, operation, t) ==> ReasonOk(w, operation, t))
  }

  lemma DeadStays(w: World, step: Step, operation: string)
    requires Dead(w, operation) && ControllerOk(w)
    ensures Dead(Next(w, step), operation)
  {
  }

  lemma ControllerStaysByAdapter(w: World, step: Step, t: Target)
    requires ControllerOk(w) && t in w.adapters && AdapterOk(w, t, w.adapters[t]) && Actor(step) == Some(t)
    ensures ControllerOk(Next(w, step))
  {
    assert Next(w, step) == AdapterNext(w, t, step);
  }

  lemma ControllerStaysOtherwise(w: World, step: Step)
    requires Inv(w) && Actor(step).None?
    ensures ControllerOk(Next(w, step))
  {
  }

  lemma ControllerStays(w: World, step: Step)
    requires Inv(w)
    ensures ControllerOk(Next(w, step))
  {
    if Actor(step).None? {
      ControllerStaysOtherwise(w, step);
    } else if Actor(step).value in w.adapters {
      assert AdapterOk(w, Actor(step).value, w.adapters[Actor(step).value]);
      ControllerStaysByAdapter(w, step, Actor(step).value);
    }
  }

  lemma SnapshotStays(w: World, step: Step, r: Request)
    requires ControllerOk(w) && Snapshot(w, r)
    ensures Snapshot(Next(w, step), r)
  {
  }

  /** The adapter that the step is about. */
  function Actor(step: Step): Option<Target> {
    if step.Die? || step.Read? || step.Decide? || step.Note? || step.Commit? || step.Finish? then Some(step.t) else None
  }

  /** A report entry changes only by its adapter, or from pending by a cancel. */
  lemma OthersKeep(w: World, step: Step, operation: string, t: Target)
    requires ControllerOk(w) && Reported(w, operation, t) && Actor(step) != Some(t)
    ensures Reported(Next(w, step), operation, t)
    ensures Next(w, step).reports[operation][t] ==
            if step.SaveReport? && w.controller == Cancelling(operation) && w.reports[operation][t] == Pending then Cancelled
            else w.reports[operation][t]
  {
  }

  lemma BystanderStays(w: World, step: Step, t: Target)
    requires Inv(w) && t in w.adapters && Actor(step) != Some(t)
    ensures t in Next(w, step).adapters && AdapterOk(Next(w, step), t, Next(w, step).adapters[t])
  {
    var a := w.adapters[t];
    assert AdapterOk(w, t, a);
    assert Next(w, step).adapters[t] == a;
    if a.poll != Resting {
      SnapshotStays(w, step, a.poll.request);
    }
    if a.draining.Some? {
      OthersKeep(w, step, a.draining.value, t);
    }
  }

  lemma ActorStays(w: World, step: Step, t: Target)
    requires ControllerOk(w) && t in w.adapters && AdapterOk(w, t, w.adapters[t]) && Actor(step) == Some(t)
    requires t in Next(w, step).adapters
    ensures AdapterOk(Next(w, step), t, Next(w, step).adapters[t])
  {
    var a := w.adapters[t];
    if a.poll != Resting {
      SnapshotStays(w, step, a.poll.request);
    }
  }

  lemma AdapterStays(w: World, step: Step, t: Target)
    requires Inv(w) && t in Next(w, step).adapters
    ensures AdapterOk(Next(w, step), t, Next(w, step).adapters[t])
  {
    if t in w.adapters {
      if Actor(step) == Some(t) {
        assert AdapterOk(w, t, w.adapters[t]);
        ActorStays(w, step, t);
      } else {
        BystanderStays(w, step, t);
      }
    }
  }

  lemma ReasonStaysForBystander(w: World, step: Step, operation: string, t: Target)
    requires Inv(w) && Reported(w, operation, t) && Actor(step) != Some(t)
    ensures Reported(Next(w, step), operation, t) && ReasonOk(Next(w, step), operation, t)
  {
    assert ReasonOk(w, operation, t);
    OthersKeep(w, step, operation, t);
    if Dead(w, operation) {
      DeadStays(w, step, operation);
    }
  }

  /** The steps of an adapter that write a report. */
  predicate Writes(step: Step) { step.Note? || step.Commit? || step.Finish? }

  lemma ReasonStaysForReader(w: World, step: Step, operation: string, t: Target)
    requires ControllerOk(w) && t in w.adapters && AdapterOk(w, t, w.adapters[t]) && Actor(step) == Some(t)
    requires Reported(w, operation, t) && ReasonOk(w, operation, t) && !Writes(step)
    ensures Reported(Next(w, step), operation, t) && ReasonOk(Next(w, step), operation, t)
  {
    assert Next(w, step).reports == w.reports;
    if Dead(w, operation) {
      DeadStays(w, step, operation);
    }
  }

  lemma ReasonStaysForWriter(w: World, step: Step, operation: string, t: Target)
    requires ControllerOk(w) && t in w.adapters && AdapterOk(w, t, w.adapters[t]) && Actor(step) == Some(t)
    requires Reported(w, operation, t) && ReasonOk(w, operation, t) && Writes(step)
    ensures Reported(Next(w, step), operation, t) && ReasonOk(Next(w, step), operation, t)
  {
    assert Next(w, step) == AdapterNext(w, t, step);
    if Dead(w, operation) {
      DeadStays(w, step, operation);
    }
  }

  lemma ReasonStaysForActor(w: World, step: Step, operation: string, t: Target)
    requires ControllerOk(w) && t in w.adapters && AdapterOk(w, t, w.adapters[t]) && Actor(step) == Some(t)
    requires Reported(w, operation, t) && ReasonOk(w, operation, t)
    ensures Reported(Next(w, step), operation, t) && ReasonOk(Next(w, step), operation, t)
  {
    if Writes(step) {
      ReasonStaysForWriter(w, step, operation, t);
    } else {
      ReasonStaysForReader(w, step, operation, t);
    }
  }

  lemma ReasonStays(w: World, step: Step, operation: string, t: Target)
    requires Inv(w) && Reported(Next(w, step), operation, t)
    ensures ReasonOk(Next(w, step), operation, t)
  {
    if !Reported(w, operation, t) {
      assert step.Apply? && t in step.targets;
    } else if Actor(step) != Some(t) {
      ReasonStaysForBystander(w, step, operation, t);
    } else if t in w.adapters {
      assert ReasonOk(w, operation, t) && AdapterOk(w, t, w.adapters[t]);
      ReasonStaysForActor(w, step, operation, t);
    } else {
      assert ReasonOk(w, operation, t);
    }
  }

  lemma AdaptersStay(w: World, step: Step)
    requires Inv(w)
    ensures Next(w, step).adapters.Keys <= Next(w, step).spawned
    ensures forall t :: t in Next(w, step).adapters ==> AdapterOk(Next(w, step), t, Next(w, step).adapters[t])
  {
    forall t | t in Next(w, step).adapters
      ensures AdapterOk(Next(w, step), t, Next(w, step).adapters[t])
    {
      AdapterStays(w, step, t);
    }
  }

  lemma StepKeepsInv(w: World, step: Step)
    requires Inv(w)
    ensures Inv(Next(w, step))
  {
    var v := Next(w, step);
    ControllerStays(w, step);
    AdaptersStay(w, step);
    forall operation, t | Reported(v, operation, t)
      ensures ReasonOk(v, operation, t)
    {
      ReasonStays(w, step, operation, t);
    }
  }

  lemma {:induction false} RunKeepsInv(w: World, steps: seq<Step>)
    requires Inv(w)
    ensures Inv(Run(w, steps))
    decreases |steps|
  {
    if steps != [] {
      StepKeepsInv(w, steps[0]);
      RunKeepsInv(Next(w, steps[0]), steps[1..]);
    }
  }

  // What a status may become.

  /** A reason is final up to another reason, closed is final, and only a target
      that was shutting down becomes closed. */
  predicate MayBecome(before: Status, after: Status) {
    || before == after
    || (before == Pending && after != Closed)
    || (before == ShuttingDown && after != Pending)
    || (IsReason(before) && IsReason(after))
  }

  lemma ActorMoves(w: World, step: Step, operation: string, t: Target)
    requires ControllerOk(w) && t in w.adapters && AdapterOk(w, t, w.adapters[t]) && Actor(step) == Some(t)
    requires Reported(w, operation, t) && ReasonOk(w, operation, t)
    ensures Reported(Next(w, step), operation, t)
    ensures MayBecome(w.reports[operation][t], Next(w, step).reports[operation][t])
  {
    assert Next(w, step) == AdapterNext(w, t, step);
  }

  lemma StatusMoves(w: World, step: Step, operation: string, t: Target)
    requires Inv(w) && Reported(w, operation, t)
    ensures Reported(Next(w, step), operation, t)
    ensures MayBecome(w.reports[operation][t], Next(w, step).reports[operation][t])
  {
    if Actor(step) != Some(t) {
      OthersKeep(w, step, operation, t);
    } else if t in w.adapters {
      assert ReasonOk(w, operation, t) && AdapterOk(w, t, w.adapters[t]);
      ActorMoves(w, step, operation, t);
    }
  }

  lemma StartKeepsInv(fingerprint: int, enabled: bool, now: int)
    ensures Inv(Start(fingerprint, enabled, now))
  {
  }

  /** Over any run, a target marked with a reason keeps a reason: it never
      shuts down under the operation. A closed target stays closed. */
  lemma {:induction false} ReasonIsFinal(w: World, steps: seq<Step>, operation: string, t: Target)
    requires Inv(w) && Reported(w, operation, t)
    ensures Reported(Run(w, steps), operation, t)
    ensures IsReason(w.reports[operation][t]) ==> IsReason(Run(w, steps).reports[operation][t])
    ensures w.reports[operation][t] == Closed ==> Run(w, steps).reports[operation][t] == Closed
    decreases |steps|
  {
    if steps != [] {
      StatusMoves(w, steps[0], operation, t);
      StepKeepsInv(w, steps[0]);
      ReasonIsFinal(Next(w, steps[0]), steps[1..], operation, t);
    }
  }

  /** Whatever becomes closed in a run was shutting down at some point of it, and
      had been so until it closed. */
  lemma {:induction false} ClosedWasShuttingDown(w: World, steps: seq<Step>, operation: string, t: Target) returns (i: nat)
    requires Inv(w) && Reported(w, operation, t) && w.reports[operation][t] != Closed
    requires Reported(Run(w, steps), operation, t) && Run(w, steps).reports[operation][t] == Closed
    ensures i < |steps| && Reported(Run(w, steps[..i]), operation, t)
    ensures Run(w, steps[..i]).reports[operation][t] == ShuttingDown
    ensures Reported(Run(w, steps[..i + 1]), operation, t) && Run(w, steps[..i + 1]).reports[operation][t] == Closed
    decreases |steps|
  {
    var v := Next(w, steps[0]);
    StatusMoves(w, steps[0], operation, t);
    StepKeepsInv(w, steps[0]);
    assert steps[..1][1..] == [];
    assert Run(w, steps[..1]) == Run(v, []) == v;
    assert Run(w, steps[..0]) == w;
    if v.reports[operation][t] == Closed {
      i := 0;
    } else {
      var k := ClosedWasShuttingDown(v, steps[1..], operation, t);
      assert steps[..k + 1][1..] == steps[1..][..k];
      assert steps[..k + 2][1..] == steps[1..][..k + 1];
      i := k + 1;
    }
  }

  predicate DrainsUnder(w: World, operation: string, t: Target) {
    t in w.adapters && w.adapters[t].draining == Some(operation)
  }

  lemma DeadBystander(w: World, step: Step, operation: string, t: Target)
    requires Inv(w) && Actor(step) != Some(t)
    ensures DrainsUnder(Next(w, step), operation, t) ==> DrainsUnder(w, operation, t)
    ensures Reported(w, operation, t) && w.reports[operation][t] !in {ShuttingDown, Closed} ==>
              Reported(Next(w, step), operation, t) && Next(w, step).reports[operation][t] !in {ShuttingDown, Closed}
  {
    if Reported(w, operation, t) {
      OthersKeep(w, step, operation, t);
    }
  }

  lemma DeadActor(w: World, step: Step, operation: string, t: Target)
    requires Inv(w) && Dead(w, operation) && Actor(step) == Some(t) && t in w.adapters
    ensures DrainsUnder(Next(w, step), operation, t) ==> DrainsUnder(w, operation, t)
    ensures Reported(w, operation, t) && w.reports[operation][t] !in {ShuttingDown, Closed} ==>
              Reported(Next(w, step), operation, t) && Next(w, step).reports[operation][t] !in {ShuttingDown, Closed}
  {
    assert AdapterOk(w, t, w.adapters[t]);
  }

  lemma DeadStep(w: World, step: Step, operation: string, t: Target)
    requires Inv(w) && Dead(w, operation)
    ensures DrainsUnder(Next(w, step), operation, t) ==> DrainsUnder(w, operation, t)
    ensures Reported(w, operation, t) && w.reports[operation][t] !in {ShuttingDown, Closed} ==>
              Reported(Next(w, step), operation, t) && Next(w, step).reports[operation][t] !in {ShuttingDown, Closed}
  {
    if Actor(step) != Some(t) {
      DeadBystander(w, step, operation, t);
    } else if t in w.adapters {
      DeadActor(w, step, operation, t);
    }
  }

  /** Under a dead operation nothing begins to shut down, in any run. */
  lemma {:induction false} DeadRun(w: World, steps: seq<Step>, operation: string, t: Target)
    requires Inv(w) && Dead(w, operation)
    ensures DrainsUnder(Run(w, steps), operation, t) ==> DrainsUnder(w, operation, t)
    ensures Reported(w, operation, t) && w.reports[operation][t] !in {ShuttingDown, Closed} ==>
              Reported(Run(w, steps), operation, t) && Run(w, steps).reports[operation][t] !in {ShuttingDown, Closed}
    decreases |steps|
  {
    if steps != [] {
      DeadStep(w, steps[0], operation, t);
      DeadStays(w, steps[0], operation);
      StepKeepsInv(w, steps[0]);
      DeadRun(Next(w, steps[0]), steps[1..], operation, t);
    }
  }

  /** Once a cancel has returned, no target is pending under its operation, and
      whatever happens later no target begins to drain under it and none that
      was not already shutting down becomes so. */
  lemma CancelHolds(fingerprint: int, enabled: bool, now: int, before: seq<Step>, later: seq<Step>, operation: string, t: Target)
    requires var w := Run(Start(fingerprint, enabled, now), before);
             w.controller == Cancelling(operation) && Reported(w, operation, t)
    ensures var w := Run(Start(fingerprint, enabled, now), before);
            var returned := Next(w, SaveReport);
            var v := Run(returned, later);
            && returned.controller == Free
            && Reported(returned, operation, t) && returned.reports[operation][t] != Pending
            && (w.reports[operation][t] !in {ShuttingDown, Closed} ==>
                  Reported(v, operation, t) && v.reports[operation][t] !in {ShuttingDown, Closed})
            && (DrainsUnder(v, operation, t) ==> DrainsUnder(w, operation, t))
  {
    var w := Run(Start(fingerprint, enabled, now), before);
    StartKeepsInv(fingerprint, enabled, now);
    RunKeepsInv(Start(fingerprint, enabled, now), before);
    StepKeepsInv(w, SaveReport);
    DeadRun(Next(w, SaveReport), later, operation, t);
  }

  /** A commit of `t` under the operation that takes effect. */
  predicate Commits(w: World, step: Step, operation: string, t: Target) {
    && step.Commit? && step.t == t && t in w.adapters
    && w.adapters[t].poll.Committing? && w.adapters[t].poll.request.operation == operation
    && StillServed(w, w.adapters[t].poll.request) && step.intact && step.marked
  }

  /** One step makes an adapter drain exactly when it is such a commit whose
      publishing works; a draining adapter drains until it is gone. */
  lemma DrainStepIff(w: World, step: Step, operation: string, t: Target)
    requires Inv(w)
    ensures DrainsUnder(Next(w, step), operation, t)
            <==>
            t in Next(w, step).adapters
            && (DrainsUnder(w, operation, t) || (Commits(w, step, operation, t) && step.published))
  {
    if t in w.adapters {
      assert AdapterOk(w, t, w.adapters[t]);
    }
  }

  predicate CommitsAt(w: World, steps: seq<Step>, k: nat, operation: string, t: Target)
    requires k < |steps|
  {
    Commits(Run(w, steps[..k]), steps[k], operation, t) && steps[k].published
  }

  predicate SomeCommit(w: World, steps: seq<Step>, operation: string, t: Target) {
    exists k :: 0 <= k < |steps| && CommitsAt(w, steps, k, operation, t)
  }

  lemma {:induction false} RunSnoc(w: World, steps: seq<Step>, step: Step)
    ensures Run(w, steps + [step]) == Next(Run(w, steps), step)
    decreases |steps|
  {
    if steps == [] {
      assert ([] + [step])[1..] == [];
    } else {
      RunSnoc(Next(w, steps[0]), steps[1..], step);
      assert (steps + [step])[1..] == steps[1..] + [step];
    }
  }

  lemma SomeCommitSnoc(w: World, steps: seq<Step>, step: Step, operation: string, t: Target)
    ensures SomeCommit(w, steps + [step], operation, t)
            <==>
            SomeCommit(w, steps, operation, t) || (Commits(Run(w, steps), step, operation, t) && step.published)
  {
    var longer, n := steps + [step], |steps|;
    assert longer[..n] == steps && longer[n] == step;
    forall k | 0 <= k < n
      ensures CommitsAt(w, longer, k, operation, t) == CommitsAt(w, steps, k, operation, t)
    {
      assert longer[..k] == steps[..k];
    }
    assert CommitsAt(w, longer, n, operation, t) == (Commits(Run(w, steps), step, operation, t) && step.published);
  }

  lemma ReachedInv(fingerprint: int, enabled: bool, now: int, steps: seq<Step>)
    ensures Inv(Run(Start(fingerprint, enabled, now), steps))
  {
    StartKeepsInv(fingerprint, enabled, now);
    RunKeepsInv(Start(fingerprint, enabled, now), steps);
  }

  /** A process that is gone does not come back. */
  lemma GoneStaysGone(w: World, step: Step, t: Target)
    requires Inv(w) && t in w.spawned
    ensures t in Next(w, step).spawned && (t in Next(w, step).adapters ==> t in w.adapters)
  {
  }

  /** In every run an adapter drains under an operation, and so will close,
      exactly when it is not gone and some commit of its took effect and was
      published. A report of shutting down alone does not say so. */
  lemma {:induction false} DrainsIffPublished(fingerprint: int, enabled: bool, now: int, steps: seq<Step>, operation: string, t: Target)
    ensures var w := Run(Start(fingerprint, enabled, now), steps);
            DrainsUnder(w, operation, t)
            <==>
            t in w.adapters && SomeCommit(Start(fingerprint, enabled, now), steps, operation, t)
    ensures SomeCommit(Start(fingerprint, enabled, now), steps, operation, t) ==>
              t in Run(Start(fingerprint, enabled, now), steps).spawned
    decreases |steps|
  {
    var start := Start(fingerprint, enabled, now);
    if steps != [] {
      var earlier, step := steps[..|steps| - 1], steps[|steps| - 1];
      var w := Run(start, earlier);
      DrainsIffPublished(fingerprint, enabled, now, earlier, operation, t);
      ReachedInv(fingerprint, enabled, now, earlier);
      DrainStepIff(w, step, operation, t);
      if t in w.spawned {
        GoneStaysGone(w, step, t);
      }
      assert steps == earlier + [step];
      RunSnoc(start, earlier, step);
      SomeCommitSnoc(start, earlier, step, operation, t);
    }
  }

  /** A commit whose publishing fails leaves the report at shutting down with
      nothing draining. When a cancel follows, the entry stays so and the adapter
      never drains under the operation: shutting down is no promise to close. */
  lemma FailedCommitStays(w: World, t: Target, later: seq<Step>)
    requires Inv(w) && t in w.adapters && w.adapters[t].poll.Committing? && StillServed(w, w.adapters[t].poll.request)
    ensures var operation := w.adapters[t].poll.request.operation;
            var failed := Next(w, Commit(t, true, true, false));
            var cancelled := Next(Next(failed, Cancel), SaveReport);
            && Reported(cancelled, operation, t) && cancelled.reports[operation][t] == ShuttingDown
            && t in cancelled.adapters && !DrainsUnder(Run(cancelled, later), operation, t)
  {
    var operation := w.adapters[t].poll.request.operation;
    assert AdapterOk(w, t, w.adapters[t]);
    var failed := Next(w, Commit(t, true, true, false));
    StepKeepsInv(w, Commit(t, true, true, false));
    StepKeepsInv(failed, Cancel);
    var cancelling := Next(failed, Cancel);
    StepKeepsInv(cancelling, SaveReport);
    OthersKeep(failed, Cancel, operation, t);
    OthersKeep(cancelling, SaveReport, operation, t);
    DeadRun(Next(cancelling, SaveReport), later, operation, t);
  }

  // What exactly happens to a status, and why.

  lemma StatusByAdapter(w: World, step: Step, operation: string, t: Target)
    requires Inv(w) && Reported(w, operation, t) && Actor(step) == Some(t) && t in w.adapters
    ensures var a := w.adapters[t];
            Reported(Next(w, step), operation, t)
            && Next(w, step).reports[operation][t] ==
               if step == Note(t, true) && a.poll.Noting? && a.poll.request.operation == operation then a.poll.reason
               else if Commits(w, step, operation, t) then ShuttingDown
               else if step == Finish(t, true) && DrainsUnder(w, operation, t) then Closed
               else w.reports[operation][t]
  {
    assert AdapterOk(w, t, w.adapters[t]);
    assert Next(w, step) == AdapterNext(w, t, step);
  }

  /** One step changes a status in exactly four ways: a returning cancel marks what
      is pending, an adapter notes the reason it decided on, an adapter commits, and
      a draining adapter finishes. */
  lemma StatusIs(w: World, step: Step, operation: string, t: Target)
    requires Inv(w) && Reported(w, operation, t)
    ensures var before := w.reports[operation][t];
            Reported(Next(w, step), operation, t)
            && Next(w, step).reports[operation][t] ==
               if step == SaveReport && w.controller == Cancelling(operation) && before == Pending then Cancelled
               else if t in w.adapters && step == Note(t, true) && w.adapters[t].poll.Noting?
                       && w.adapters[t].poll.request.operation == operation then w.adapters[t].poll.reason
               else if Commits(w, step, operation, t) then ShuttingDown
               else if step == Finish(t, true) && DrainsUnder(w, operation, t) then Closed
               else before
  {
    if Actor(step) == Some(t) {
      if t in w.adapters {
        StatusByAdapter(w, step, operation, t);
      }
    } else {
      OthersKeep(w, step, operation, t);
    }
  }

  /** The reason holds of the request, at the time and the settings of `w`. */
  predicate Holds(s: Status, r: Request, w: World) {
    match s
    case Cancelled => r.cancelled
    case Expired => r.expires <= w.now
    case Disabled => r.automatic && !w.enabled
    case InstallationChanged => r.fingerprint != w.fingerprint
    case _ => false
  }

  /** An adapter at rest that may look at the request. */
  predicate MayLook(w: World, t: Target) {
    && t in w.adapters && w.adapters[t].poll == Resting && w.adapters[t].draining.None? && w.request.Some?
    && t in w.request.value.targets && w.request.value.operation !in w.adapters[t].terminal
  }

  /** The adapter reads the request and decides. */
  function Looked(w: World, t: Target, idle: bool): World { Next(Next(w, Read(t)), Decide(t, idle)) }

  /** An undisturbed look: with a reason against the request the adapter marks it,
      the first that holds of cancelled, expired, disabled and changed, and never
      looks at the operation again. */
  lemma LookMarks(w: World, t: Target, idle: bool, s: Status)
    requires Inv(w) && MayLook(w, t) && Holds(s, w.request.value, w)
    requires s != Cancelled ==> !Holds(Cancelled, w.request.value, w)
    requires s == Disabled || s == InstallationChanged ==> !Holds(Expired, w.request.value, w)
    requires s == InstallationChanged ==> !Holds(Disabled, w.request.value, w)
    ensures var operation := w.request.value.operation;
            var v := Next(Looked(w, t, idle), Note(t, true));
            && Reported(v, operation, t) && v.reports[operation][t] == s
            && t in v.adapters && operation in v.adapters[t].terminal && !MayLook(v, t)
  {
    var a, r := w.adapters[t], w.request.value;
    var w1 := Next(w, Read(t));
    assert w1 == SetAdapter(w, t, a.(poll := Deciding(r)));
    assert Next(w1, Decide(t, idle)).adapters[t] == a.(poll := Noting(r, s));
  }

  /** Without a reason it commits when it is idle, and then drains, and otherwise
      rests. */
  lemma LookServes(w: World, t: Target, idle: bool)
    requires Inv(w) && MayLook(w, t) && w.controller == Free
    requires forall s :: !Holds(s, w.request.value, w)
    ensures var operation := w.request.value.operation;
            var v := Next(Looked(w, t, idle), Commit(t, true, true, true));
            if idle then DrainsUnder(v, operation, t) && Reported(v, operation, t) && v.reports[operation][t] == ShuttingDown
            else v == w
  {
    var a, r := w.adapters[t], w.request.value;
    assert !Holds(Cancelled, r, w) && !Holds(Expired, r, w) && !Holds(Disabled, r, w) && !Holds(InstallationChanged, r, w);
    var w1 := Next(w, Read(t));
    assert w1 == SetAdapter(w, t, a.(poll := Deciding(r)));
    var w2 := Next(w1, Decide(t, idle));
    if idle {
      assert w2 == SetAdapter(w, t, a.(poll := Committing(r)));
    } else {
      assert w2.adapters == w.adapters;
      assert w2 == w;
    }
  }

  // Over runs: what is marked was true, and what drains was idle.

  /** At some point of the run the request was in force. */
  ghost predicate WasRequested(start: World, steps: seq<Step>, r: Request) {
    exists k :: 0 <= k <= |steps| && RequestedAt(start, steps, k, r)
  }

  predicate RequestedAt(start: World, steps: seq<Step>, k: nat, r: Request)
    requires k <= |steps|
  {
    Run(start, steps[..k]).request == Some(r)
  }

  /** At some point of the run the reason held of the request. */
  ghost predicate Held(start: World, steps: seq<Step>, s: Status, r: Request) {
    exists k :: 0 <= k <= |steps| && HeldAt(start, steps, k, s, r)
  }

  predicate HeldAt(start: World, steps: seq<Step>, k: nat, s: Status, r: Request)
    requires k <= |steps|
  {
    Holds(s, r, Run(start, steps[..k]))
  }

  /** At some step the adapter, idle, decided to serve the request, and no reason
      held against it. */
  ghost predicate WasIdle(start: World, steps: seq<Step>, t: Target, r: Request) {
    exists k :: 0 <= k < |steps| && IdleAt(start, steps, k, t, r)
  }

  predicate IdleAt(start: World, steps: seq<Step>, k: nat, t: Target, r: Request)
    requires k < |steps|
  {
    var w := Run(start, steps[..k]);
    && steps[k] == Decide(t, true)
    && !Holds(Cancelled, r, w) && !Holds(Expired, r, w) && !Holds(Disabled, r, w) && !Holds(InstallationChanged, r, w)
  }

  lemma PointStays(start: World, steps: seq<Step>, step: Step, k: nat)
    requires k <= |steps|
    ensures (steps + [step])[..k] == steps[..k] && (k < |steps| ==> (steps + [step])[k] == steps[k])
  {
  }

  lemma PastStays(start: World, steps: seq<Step>, step: Step, t: Target, s: Status, r: Request)
    ensures WasRequested(start, steps, r) ==> WasRequested(start, steps + [step], r)
    ensures Held(start, steps, s, r) ==> Held(start, steps + [step], s, r)
    ensures WasIdle(start, steps, t, r) ==> WasIdle(start, steps + [step], t, r)
  {
    if WasRequested(start, steps, r) {
      var k :| 0 <= k <= |steps| && RequestedAt(start, steps, k, r);
      PointStays(start, steps, step, k);
      assert RequestedAt(start, steps + [step], k, r);
    }
    if Held(start, steps, s, r) {
      var k :| 0 <= k <= |steps| && HeldAt(start, steps, k, s, r);
      PointStays(start, steps, step, k);
      assert HeldAt(start, steps + [step], k, s, r);
    }
    if WasIdle(start, steps, t, r) {
      var k :| 0 <= k < |steps| && IdleAt(start, steps, k, t, r);
      PointStays(start, steps, step, k);
      assert IdleAt(start, steps + [step], k, t, r);
    }
  }

  /** What is the case now was the case at some point. */
  lemma NowIsPast(start: World, steps: seq<Step>, s: Status, r: Request)
    ensures Run(start, steps).request == Some(r) ==> WasRequested(start, steps, r)
    ensures Holds(s, r, Run(start, steps)) ==> Held(start, steps, s, r)
  {
    assert steps[..|steps|] == steps;
    assert RequestedAt(start, steps, |steps|, r) <==> Run(start, steps).request == Some(r);
    assert HeldAt(start, steps, |steps|, s, r) <==> Holds(s, r, Run(start, steps));
  }

  lemma IdleNow(start: World, steps: seq<Step>, t: Target, r: Request)
    requires var w := Run(start, steps);
             !Holds(Cancelled, r, w) && !Holds(Expired, r, w) && !Holds(Disabled, r, w) && !Holds(InstallationChanged, r, w)
    ensures WasIdle(start, steps + [Decide(t, true)], t, r)
  {
    var all := steps + [Decide(t, true)];
    assert all[..|steps|] == steps && all[|steps|] == Decide(t, true);
    assert IdleAt(start, all, |steps|, t, r);
  }

  /** What an adapter has in hand is founded. */
  ghost predicate PollFounded(start: World, steps: seq<Step>, t: Target, p: Poll) {
    match p
    case Resting => true
    case Deciding(r) => WasRequested(start, steps, r)
    case Noting(r, reason) => WasRequested(start, steps, r) && Held(start, steps, reason, r)
    case Committing(r) => WasRequested(start, steps, r) && WasIdle(start, steps, t, r)
  }

  /** A marked reason held of the operation's request at some point. */
  ghost predicate ReasonFounded(start: World, steps: seq<Step>, operation: string, s: Status) {
    exists r: Request :: r.operation == operation && WasRequested(start, steps, r) && Held(start, steps, s, r)
  }

  ghost predicate Founded(start: World, steps: seq<Step>) {
    var w := Run(start, steps);
    && (forall t :: t in w.adapters ==> PollFounded(start, steps, t, w.adapters[t].poll))
    && (forall operation, t :: Reported(w, operation, t) && IsReason(w.reports[operation][t]) ==>
          ReasonFounded(start, steps, operation, w.reports[operation][t]))
    && (w.controller.Cancelling? ==> ReasonFounded(start, steps, w.controller.operation, Cancelled))
  }

  lemma PollStaysFounded(start: World, steps: seq<Step>, step: Step, t: Target, p: Poll)
    requires PollFounded(start, steps, t, p)
    ensures PollFounded(start, steps + [step], t, p)
  {
    if p != Resting {
      PastStays(start, steps, step, t, if p.Noting? then p.reason else Pending, p.request);
    }
  }

  lemma ReasonStaysFounded(start: World, steps: seq<Step>, step: Step, operation: string, s: Status)
    requires ReasonFounded(start, steps, operation, s)
    ensures ReasonFounded(start, steps + [step], operation, s)
  {
    var r: Request :| r.operation == operation && WasRequested(start, steps, r) && Held(start, steps, s, r);
    PastStays(start, steps, step, Target(0, 0), s, r);
  }

  /** What a deciding adapter takes in hand next is founded. */
  lemma DecisionFounded(start: World, steps: seq<Step>, step: Step, t: Target)
    requires var w := Run(start, steps);
             t in w.adapters && step.Decide? && step.t == t && w.adapters[t].poll.Deciding?
             && WasRequested(start, steps, w.adapters[t].poll.request)
    ensures var v := Next(Run(start, steps), step);
            t in v.adapters && PollFounded(start, steps + [step], t, v.adapters[t].poll)
  {
    var w := Run(start, steps);
    var r := w.adapters[t].poll.request;
    PastStays(start, steps, step, t, Cancelled, r);
    var reason := Reason(w, r);
    if reason.Some? {
      NowIsPast(start, steps, reason.value, r);
      PastStays(start, steps, step, t, reason.value, r);
    } else if step.idle {
      IdleNow(start, steps, t, r);
    }
  }

  lemma PollStepFounded(start: World, steps: seq<Step>, step: Step, t: Target)
    requires Founded(start, steps) && t in Next(Run(start, steps), step).adapters
    ensures PollFounded(start, steps + [step], t, Next(Run(start, steps), step).adapters[t].poll)
  {
    var w := Run(start, steps);
    var v := Next(w, step);
    if t in w.adapters {
      PollStaysFounded(start, steps, step, t, w.adapters[t].poll);
      if step.Decide? && step.t == t && w.adapters[t].poll.Deciding? {
        DecisionFounded(start, steps, step, t);
      } else if step.Read? && step.t == t && v.adapters[t].poll != w.adapters[t].poll {
        NowIsPast(start, steps, Cancelled, w.request.value);
        PastStays(start, steps, step, t, Cancelled, w.request.value);
      }
    }
  }

  lemma ReasonStepFounded(start: World, steps: seq<Step>, step: Step, operation: string, t: Target)
    requires Founded(start, steps) && Inv(Run(start, steps))
    requires var v := Next(Run(start, steps), step); Reported(v, operation, t) && IsReason(v.reports[operation][t])
    ensures ReasonFounded(start, steps + [step], operation, Next(Run(start, steps), step).reports[operation][t])
  {
    var w := Run(start, steps);
    var after := Next(w, step).reports[operation][t];
    if Reported(w, operation, t) {
      StatusIs(w, step, operation, t);
      if w.reports[operation][t] == after {
        ReasonStaysFounded(start, steps, step, operation, after);
      } else if step == SaveReport {
        ReasonStaysFounded(start, steps, step, operation, Cancelled);
      } else {
        var p := w.adapters[t].poll;
        assert PollFounded(start, steps, t, p) && p.request.operation == operation && after == p.reason;
        assert ReasonFounded(start, steps, operation, after);
        ReasonStaysFounded(start, steps, step, operation, after);
      }
    }
  }

  lemma CancelFounded(start: World, steps: seq<Step>, step: Step)
    requires Founded(start, steps) && Next(Run(start, steps), step).controller.Cancelling?
    ensures ReasonFounded(start, steps + [step], Next(Run(start, steps), step).controller.operation, Cancelled)
  {
    var w := Run(start, steps);
    var v := Next(w, step);
    if w.controller.Cancelling? {
      assert v.controller == w.controller;
      ReasonStaysFounded(start, steps, step, w.controller.operation, Cancelled);
    } else {
      RunSnoc(start, steps, step);
      NowIsPast(start, steps + [step], Cancelled, v.request.value);
      assert Holds(Cancelled, v.request.value, v);
    }
  }

  /** In every run: a reason is marked only if it held of the operation's request at
      some point, and an adapter commits only to a request for which it was idle at
      a point where no reason held. */
  lemma {:induction false} ReasonsAreFounded(fingerprint: int, enabled: bool, now: int, steps: seq<Step>)
    ensures Founded(Start(fingerprint, enabled, now), steps)
  {
    var start := Start(fingerprint, enabled, now);
    if steps != [] {
      var earlier, step := steps[..|steps| - 1], steps[|steps| - 1];
      assert steps == earlier + [step];
      ReasonsAreFounded(fingerprint, enabled, now, earlier);
      ReachedInv(fingerprint, enabled, now, earlier);
      RunSnoc(start, earlier, step);
      var v := Run(start, steps);
      forall t | t in v.adapters
        ensures PollFounded(start, steps, t, v.adapters[t].poll)
      {
        PollStepFounded(start, earlier, step, t);
      }
      forall operation, t | Reported(v, operation, t) && IsReason(v.reports[operation][t])
        ensures ReasonFounded(start, steps, operation, v.reports[operation][t])
      {
        ReasonStepFounded(start, earlier, step, operation, t);
      }
      if v.controller.Cancelling? {
        CancelFounded(start, earlier, step);
      }
    }
  }

  // When a request may give way to another.

  /** The request no longer asks anything: it was cancelled, its time is over, or
      none of its targets that runs is pending or shutting down. */
  predicate Done(w: World, r: Request) {
    r.cancelled || r.expires <= w.now
    || forall t :: t in r.targets && t in w.adapters && Reported(w, r.operation, t) ==>
         w.reports[r.operation][t] != Pending && w.reports[r.operation][t] != ShuttingDown
  }

  predicate InForce(w: World, operation: string) { w.request.Some? && w.request.value.operation == operation }

  lemma StaysUnlessApplied(w: World, step: Step, operation: string)
    requires !w.controller.Applying? && InForce(w, operation)
    ensures InForce(Next(w, step), operation)
    ensures Next(w, step).controller.Applying? ==> step.Apply? && Done(w, w.request.value)
  {
  }

  /** A request gives way to another operation only after a new one was applied at
      a point where it was done. */
  lemma {:induction false} ReplacedOnlyWhenDone(w: World, steps: seq<Step>, operation: string) returns (k: nat)
    requires !w.controller.Applying? && InForce(w, operation) && !InForce(Run(w, steps), operation)
    ensures k < |steps| && steps[k].Apply?
    ensures var u := Run(w, steps[..k]); InForce(u, operation) && Done(u, u.request.value)
    decreases |steps|
  {
    assert Run(w, steps[..0]) == w;
    var v := Next(w, steps[0]);
    StaysUnlessApplied(w, steps[0], operation);
    if v.controller.Applying? {
      k := 0;
    } else {
      var later := ReplacedOnlyWhenDone(v, steps[1..], operation);
      k := later + 1;
      assert steps[..k][1..] == steps[1..][..later];
    }
  }

  /** An applied request is for its targets alone, all of them pending, and lasts
      as long as was asked for. */
  lemma AppliedIs(w: World, operation: string, targets: set<Target>, wait: int, automatic: bool)
    requires Inv(w) && w.controller == Free
    ensures var v := Next(w, Apply(operation, targets, wait, automatic));
            var armed := Next(v, SaveRequest);
            if v.controller == Free then v == w
            else
              && 1 <= wait <= 300 && targets != {} && (forall t :: t in targets ==> t in w.adapters)
              && operation !in w.reports && (w.request.Some? ==> Done(w, w.request.value))
              && armed.controller == Free && armed.request
                 == Some(Request(operation, targets, false, w.now + wait, w.fingerprint, automatic))
              && (forall t :: Reported(armed, operation, t) <==> t in targets)
              && (forall t :: t in targets ==> armed.reports[operation][t] == Pending)
  {
  }
}
