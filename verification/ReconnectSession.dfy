/** The idle shutdown of one adapter, serialized against its input thread. */
module ReconnectSession {
  import opened Wrappers

  // Messages. An identity stands for the JSON text of the message's id.

  /** The turn that an answer carries. */
  datatype Turn = Turn(id: Option<string>, status: Option<string>)

  /** The parts of a message that the session looks at. `turn` is the id of the
      turn in the parameters, `status` the thread status in the parameters. */
  datatype Message = Message(
    verb: Option<string>, id: Option<string>, thread: Option<string>, turn: Option<string>,
    status: Option<string>, failed: bool, answered: Turn)

  predicate Given(v: Option<string>) { v.Some? && v.value != "" }

  predicate IsRequest(m: Message) { Given(m.verb) && m.id.Some? }

  predicate IsAnswer(m: Message) { !Given(m.verb) && m.id.Some? }

  // The session as a value.

  datatype Session = Session(
    pending: map<string, Option<string>>, approvals: set<string>, active: set<Option<string>>,
    completed: set<Option<string>>, inputs: int, ready: bool, draining: bool,
    operation: Option<string>, terminal: set<string>, rejected: bool)

  const FRESH := Session(map[], {}, {}, {}, 0, false, false, None, {}, false)

  predicate Idle(s: Session) {
    s.ready && s.inputs == 0 && s.pending == map[] && s.approvals == {} && s.active == {}
  }

  function AfterClient(s: Session, m: Message): Session {
    s.(pending := if IsRequest(m) then s.pending[m.id.value := if m.verb == Some("turn/start") then m.thread else None]
                  else s.pending,
       approvals := if IsAnswer(m) then s.approvals - {m.id.value} else s.approvals,
       ready := s.ready || m.verb == Some("initialized"))
  }

  predicate Over(status: Option<string>) {
    status == Some("completed") || status == Some("failed") || status == Some("interrupted")
  }

  /** An answer that leaves its thread with a running turn. */
  predicate StartsTurn(s: Session, m: Message) {
    && IsAnswer(m) && m.id.value in s.pending && Given(s.pending[m.id.value])
    && !m.failed && m.answered.id !in s.completed && !Over(m.answered.status)
  }

  predicate Rests(m: Message) {
    || m.verb == Some("thread/closed")
    || (m.verb == Some("thread/status/changed") && (m.status == Some("notLoaded") || m.status == Some("idle")))
  }

  const REMEMBERED_TURNS := 256

  function AfterNative(s: Session, m: Message): Session {
    var begun := if StartsTurn(s, m) then s.active + {s.pending[m.id.value]} else s.active;
    var completed := s.completed + {m.turn};
    s.(approvals := if IsRequest(m) then s.approvals + {m.id.value} else s.approvals,
       pending := if IsAnswer(m) then s.pending - {m.id.value} else s.pending,
       active := if m.verb == Some("turn/started") then begun + {m.thread}
                 else if m.verb == Some("turn/completed") || Rests(m) then begun - {m.thread}
                 else begun,
       completed := if m.verb != Some("turn/completed") then s.completed
                    else if |completed| > REMEMBERED_TURNS then {m.turn}
                    else completed)
  }

  /** What a poll finds in the shared files. `reason` is why the request may not
      be served; the flags say which of the later steps work: marking the report
      with the reason, taking both locks, the request and the settings being
      unchanged under them, the installation being intact, marking the report
      as shutting down, and publishing. */
  datatype Control =
    | NoRequest
    | Unreadable
    | Request(operation: string, targeted: bool, reason: Option<string>, noted: bool, locked: bool,
              current: bool, intact: bool, marked: bool, published: bool)

  datatype Outcome = Wait | Shutdown | Raised

  /** One `poll_checked`: the new state and how it ended. An exception after the
      commit leaves `draining` set. */
  function AfterPoll(s: Session, c: Control): (Session, Outcome) {
    if s.draining || c.NoRequest? then (s, Wait)
    else if c.Unreadable? then (s, Raised)
    else if c.operation in s.terminal || !c.targeted then (s, Wait)
    else
      var s1 := s.(operation := Some(c.operation));
      if c.reason.Some? then
        if c.noted then (s1.(terminal := s.terminal + {c.operation}), Wait) else (s1, Raised)
      else if !Idle(s) then (s1, Wait)
      else if !c.locked then (s1, Raised)
      else if !c.current then (s1, Wait)
      else if !c.intact then (s1, Raised)
      else (s1.(draining := true), if c.marked && c.published then Shutdown else Raised)
  }

  function AfterRecovery(s: Session): Session { s.(draining := false, rejected := true) }

  class ReconnectSession {
    var pending: map<string, Option<string>>
    var approvals: set<string>
    var active: set<Option<string>>
    var completed: set<Option<string>>
    var inputs: int
    var ready: bool
    var draining: bool
    var operation: Option<string>
    var terminal: set<string>
    var rejected: bool

    ghost function State(): Session
      reads this
    {
      Session(pending, approvals, active, completed, inputs, ready, draining, operation, terminal, rejected)
    }

    constructor ()
      ensures State() == FRESH
    {
      pending, approvals, active, completed := map[], {}, {}, {};
      inputs, ready, draining, operation, terminal, rejected := 0, false, false, None, {}, false;
    }

    method EnterInput() returns (allowed: bool)
      modifies this
      ensures allowed == !old(draining)
      ensures State() == if allowed then old(State()).(inputs := old(inputs) + 1) else old(State())
    {
      allowed := !draining;
      if allowed {
        inputs := inputs + 1;
      }
    }

    method LeaveInput()
      modifies this
      ensures State() == old(State()).(inputs := old(inputs) - 1)
    {
      inputs := inputs - 1;
    }

    method Client(m: Message) returns (accepted: bool)
      modifies this
      ensures accepted == !old(draining)
      ensures State() == if accepted then AfterClient(old(State()), m) else old(State())
    {
      if draining {
        return false;
      }
      if IsRequest(m) {
        pending := pending[m.id.value := if m.verb == Some("turn/start") then m.thread else None];
      } else if IsAnswer(m) {
        approvals := approvals - {m.id.value};
      }
      if m.verb == Some("initialized") {
        ready := true;
      }
      return true;
    }

    method Native(m: Message)
      modifies this
      ensures State() == AfterNative(old(State()), m)
    {
      if IsRequest(m) {
        approvals := approvals + {m.id.value};
      } else if IsAnswer(m) {
        var thread := if m.id.value in pending then pending[m.id.value] else None;
        pending := pending - {m.id.value};
        if Given(thread) && !m.failed && m.answered.id !in completed && !Over(m.answered.status) {
          active := active + {thread};
        }
      }
      if m.verb == Some("turn/started") {
        active := active + {m.thread};
      } else if m.verb == Some("turn/completed") {
        active := active - {m.thread};
        completed := completed + {m.turn};
        if |completed| > REMEMBERED_TURNS {
          completed := {m.turn};
        }
      } else if Rests(m) {
        active := active - {m.thread};
      }
    }

    /** Draining begins only in an idle session. */
    method PollChecked(c: Control) returns (outcome: Outcome)
      modifies this
      ensures (State(), outcome) == AfterPoll(old(State()), c)
      ensures draining && !old(draining) ==> old(Idle(State())) && c.Request? && c.reason.None?
      ensures outcome == Shutdown ==> draining && !old(draining)
    {
      if draining || c.NoRequest? {
        return Wait;
      }
      if c.Unreadable? {
        return Raised;
      }
      if c.operation in terminal || !c.targeted {
        return Wait;
      }
      operation := Some(c.operation);
      if c.reason.Some? {
        if !c.noted {
          return Raised;
        }
        terminal := terminal + {c.operation};
        return Wait;
      }
      if !ready || inputs != 0 || pending != map[] || approvals != {} || active != {} {
        return Wait;
      }
      if !c.locked {
        return Raised;
      }
      if !c.current {
        return Wait;
      }
      if !c.intact {
        return Raised;
      }
      draining := true;
      return if c.marked && c.published then Shutdown else Raised;
    }

    method Recover()
      modifies this
      ensures State() == AfterRecovery(old(State()))
    {
      draining := false;
      rejected := true;
    }
  }

  // The adapter: an input thread and an output loop around one session. Each
  // step is one section under the gate, or what a thread does between two.

  datatype Input =
    | Reading
    | Holding(m: Message)     // counted, not yet forwarded
    | Leaving(dying: bool)    // about to be uncounted; an exception is under way when dying
    | Gone(counted: bool)     // ended, still counted when publishing failed on entry

  datatype Output = Looping | Recovering | Finished(closed: bool)

  /** What passes through the session: a client message sent to the native server,
      one that the session took and that failed to be sent, and a native message. */
  datatype Traffic = ToNative(m: Message) | Unsent(m: Message) | FromNative(m: Message) {
    predicate FromClient() { !FromNative? }
  }

  /** `stopping` once a poll has returned true; `faults` counts the failures raised
      inside `client`. */
  datatype Adapter = Adapter(
    session: Session, input: Input, output: Output, stopping: bool,
    traffic: seq<Traffic>, refused: seq<Message>, faults: nat)

  const STARTED := Adapter(FRESH, Reading, Looping, false, [], [], 0)

  datatype Step =
    | Enter(m: Message, published: bool)
    | Drop                                      // answered by the adapter itself
    | Forward(published: bool, sent: bool)
    | Leave(published: bool)
    | Receive(m: Message, registered: bool)     // registered: the workspace bookkeeping succeeded
    | Poll(c: Control)
    | Recover
    | Finish

  function Next(a: Adapter, step: Step): Adapter {
    match step
    case Enter(m, published) =>
      if a.input != Reading then a
      else if a.session.draining then a.(refused := a.refused + [m])
      else a.(session := a.session.(inputs := a.session.inputs + 1), input := if published then Holding(m) else Gone(true))
    case Drop => if a.input.Holding? then a.(input := Leaving(false)) else a
    case Forward(published, sent) =>
      if !a.input.Holding? then a
      else if a.session.draining then a.(input := Leaving(true), faults := a.faults + 1)
      else
        a.(session := AfterClient(a.session, a.input.m), input := Leaving(!published || !sent),
           traffic := a.traffic + [if published && sent then ToNative(a.input.m) else Unsent(a.input.m)])
    case Leave(published) =>
      if !a.input.Leaving? then a
      else a.(session := a.session.(inputs := a.session.inputs - 1),
              input := if a.input.dying || !published then Gone(false) else Reading)
    case Receive(m, registered) =>
      if a.output != Looping || !registered then a
      else a.(session := AfterNative(a.session, m), traffic := a.traffic + [FromNative(m)])
    case Poll(c) =>
      if a.output != Looping then a
      else
        var (s, outcome) := AfterPoll(a.session, c);
        a.(session := s, output := if outcome == Raised then Recovering else Looping,
           stopping := a.stopping || outcome == Shutdown)
    case Recover => if a.output != Recovering then a else a.(session := AfterRecovery(a.session), output := Looping)
    case Finish => if a.output != Looping then a else a.(output := Finished(a.session.draining))
  }

  function Run(a: Adapter, steps: seq<Step>): Adapter
    decreases |steps|
  {
    if steps == [] then a else Run(Next(a, steps[0]), steps[1..])
  }

  // What the traffic says, without the session.

  // A message with a verb and an id asks, one with an id alone answers.

  predicate Asks(m: Message, id: string) { m.verb.Some? && m.verb.value != "" && m.id == Some(id) }

  predicate Answers(m: Message, id: string) { (m.verb.None? || m.verb.value == "") && m.id == Some(id) }

  /** The message answers the client's request with this id, or replaces it. */
  predicate Settles(t: Traffic, id: string) { if t.FromClient() then Asks(t.m, id) else Answers(t.m, id) }

  /** At q the client asks with this id, and nothing later asks or answers with it. */
  predicate Open(traffic: seq<Traffic>, q: nat, id: string) {
    && q < |traffic| && traffic[q].FromClient() && Asks(traffic[q].m, id)
    && forall j :: q < j < |traffic| ==> !Settles(traffic[j], id)
  }

  /** A request of the client has no answer yet. */
  ghost predicate Awaiting(traffic: seq<Traffic>, id: string) { exists q: nat :: Open(traffic, q, id) }

  predicate AskedAt(traffic: seq<Traffic>, q: nat, id: string) {
    && q < |traffic| && traffic[q].FromNative? && Asks(traffic[q].m, id)
    && forall j :: q < j < |traffic| ==> !(traffic[j].FromClient() && Answers(traffic[j].m, id))
  }

  /** A request of the native server has no answer yet. */
  ghost predicate Asking(traffic: seq<Traffic>, id: string) { exists q: nat :: AskedAt(traffic, q, id) }

  ghost predicate Initialized(traffic: seq<Traffic>) {
    exists k :: 0 <= k < |traffic| && traffic[k].FromClient() && traffic[k].m.verb == Some("initialized")
  }

  /** The turns that are remembered as completed: the latest, and those before it
      unless they became more than 256. */
  function Remembered(traffic: seq<Traffic>): set<Option<string>> {
    if traffic == [] then {}
    else
      var earlier, last := Remembered(traffic[..|traffic| - 1]), traffic[|traffic| - 1];
      if last.FromNative? && last.m.verb == Some("turn/completed") then
        if |earlier + {last.m.turn}| <= 256 then earlier + {last.m.turn} else {last.m.turn}
      else earlier
  }

  predicate Unfinished(status: Option<string>) {
    !(status.Some? && (status.value == "completed" || status.value == "failed" || status.value == "interrupted"))
  }

  /** At k the native server says that a turn of the thread begins, or answers the
      client's open request for one without an error and with a turn that is neither
      over nor remembered as completed. */
  ghost predicate Begins(traffic: seq<Traffic>, k: nat, thread: Option<string>) {
    && k < |traffic| && traffic[k].FromNative?
    && var m := traffic[k].m;
       || (m.verb == Some("turn/started") && m.thread == thread)
       || (m.id.Some? && Answers(m, m.id.value) && !m.failed && Unfinished(m.answered.status)
           && m.answered.id !in Remembered(traffic[..k]) && BegunBy(traffic[..k], m.id.value, thread))
  }

  /** The open request with this id starts a turn of the thread, which has a name. */
  ghost predicate BegunBy(traffic: seq<Traffic>, id: string, thread: Option<string>) {
    && thread.Some? && thread.value != ""
    && exists q: nat :: Open(traffic, q, id) && traffic[q].m.verb == Some("turn/start") && traffic[q].m.thread == thread
  }

  /** The native server says that no turn of the thread runs. */
  predicate Ends(t: Traffic, thread: Option<string>) {
    && t.FromNative? && t.m.thread == thread
    && (|| t.m.verb == Some("turn/completed")
        || t.m.verb == Some("thread/closed")
        || (t.m.verb == Some("thread/status/changed") && (t.m.status == Some("idle") || t.m.status == Some("notLoaded"))))
  }

  predicate NothingEnds(traffic: seq<Traffic>, k: nat, thread: Option<string>) {
    forall j :: k < j < |traffic| ==> !Ends(traffic[j], thread)
  }

  /** A turn of the thread began and nothing has ended it since. */
  ghost predicate Running(traffic: seq<Traffic>, thread: Option<string>) {
    exists k: nat :: Begins(traffic, k, thread) && NothingEnds(traffic, k, thread)
  }

  function Forwarded(traffic: seq<Traffic>): seq<Message> {
    if traffic == [] then []
    else
      var earlier, last := Forwarded(traffic[..|traffic| - 1]), traffic[|traffic| - 1];
      if last.ToNative? then earlier + [last.m] else earlier
  }

  // Invariants.

  predicate Counted(i: Input) { i.Holding? || i.Leaving? || (i.Gone? && i.counted) }

  predicate Drained(s: Session) { s.draining ==> s.inputs == 0 && s.pending == map[] && s.ready }

  /** Before anything is sent after a failed sending the input thread is gone. */
  predicate UnsentIsLast(a: Adapter) {
    (exists t :: t in a.traffic && t.Unsent?) ==> (a.input.Leaving? && a.input.dying) || a.input.Gone?
  }

  ghost predicate PendingTracked(s: Session, traffic: seq<Traffic>) {
    && (forall id :: id in s.pending <==> Awaiting(traffic, id))
    && (forall q: nat, id :: Open(traffic, q, id) ==>
          id in s.pending
          && s.pending[id] == if traffic[q].m.verb == Some("turn/start") then traffic[q].m.thread else None)
  }

  ghost predicate ApprovalsTracked(s: Session, traffic: seq<Traffic>) {
    forall id :: id in s.approvals <==> Asking(traffic, id)
  }

  ghost predicate TurnsTracked(s: Session, traffic: seq<Traffic>) {
    && (forall thread :: thread in s.active <==> Running(traffic, thread))
    && s.completed == Remembered(traffic)
  }

  /** The session's sets say of the traffic exactly what it shows. */
  ghost predicate Tracked(s: Session, traffic: seq<Traffic>) {
    && PendingTracked(s, traffic) && ApprovalsTracked(s, traffic) && TurnsTracked(s, traffic)
    && (s.ready <==> Initialized(traffic))
  }

  predicate Bookkept(a: Adapter) {
    && a.session.inputs == (if Counted(a.input) then 1 else 0)
    && Drained(a.session)
    && (a.session.draining ==> a.stopping || a.output.Recovering?)
    && (a.stopping ==> a.session.draining && !a.output.Recovering?)
    && (a.output.Finished? ==> a.output.closed == a.stopping)
    && a.faults == 0
  }

  ghost predicate Inv(a: Adapter) { Bookkept(a) && UnsentIsLast(a) && Tracked(a.session, a.traffic) }

  // One more message.

  lemma OpenSnoc(traffic: seq<Traffic>, t: Traffic, q: nat, id: string)
    ensures Open(traffic + [t], q, id) <==>
            if q == |traffic| then t.FromClient() && Asks(t.m, id) else Open(traffic, q, id) && !Settles(t, id)
  {
    var all := traffic + [t];
    assert all[|traffic|] == t && forall j :: 0 <= j < |traffic| ==> all[j] == traffic[j];
    if Open(all, q, id) && q < |traffic| {
      assert forall j :: q < j < |traffic| ==> !Settles(all[j], id);
    }
  }

  lemma AskedSnoc(traffic: seq<Traffic>, t: Traffic, q: nat, id: string)
    ensures AskedAt(traffic + [t], q, id) <==>
            if q == |traffic| then t.FromNative? && Asks(t.m, id)
            else AskedAt(traffic, q, id) && !(t.FromClient() && Answers(t.m, id))
  {
    var all := traffic + [t];
    assert forall j :: 0 <= j < |traffic| ==> all[j] == traffic[j];
    if q < |traffic| && AskedAt(all, q, id) {
      forall j | q < j < |traffic|
        ensures !(traffic[j].FromClient() && Answers(traffic[j].m, id))
      {
        assert all[j] == traffic[j];
      }
      assert all[|traffic|] == t;
    }
  }

  lemma AwaitingSnoc(traffic: seq<Traffic>, t: Traffic, id: string)
    ensures Awaiting(traffic + [t], id) <==>
            if t.FromClient() then Awaiting(traffic, id) || Asks(t.m, id) else Awaiting(traffic, id) && !Answers(t.m, id)
  {
    OpenSnoc(traffic, t, |traffic|, id);
    if q: nat :| Open(traffic + [t], q, id) {
      OpenSnoc(traffic, t, q, id);
    }
    if q: nat :| Open(traffic, q, id) {
      OpenSnoc(traffic, t, q, id);
    }
  }

  lemma AskingSnoc(traffic: seq<Traffic>, t: Traffic, id: string)
    ensures Asking(traffic + [t], id) <==>
            if t.FromClient() then Asking(traffic, id) && !Answers(t.m, id) else Asking(traffic, id) || Asks(t.m, id)
  {
    AskedSnoc(traffic, t, |traffic|, id);
    if q: nat :| AskedAt(traffic + [t], q, id) {
      AskedSnoc(traffic, t, q, id);
    }
    if q: nat :| AskedAt(traffic, q, id) {
      AskedSnoc(traffic, t, q, id);
    }
  }

  lemma BeginsEarlier(traffic: seq<Traffic>, t: Traffic, k: nat, thread: Option<string>)
    requires k < |traffic|
    ensures Begins(traffic + [t], k, thread) <==> Begins(traffic, k, thread)
  {
    assert (traffic + [t])[..k] == traffic[..k] && (traffic + [t])[k] == traffic[k];
  }

  lemma RunningSnoc(traffic: seq<Traffic>, t: Traffic, thread: Option<string>)
    ensures Running(traffic + [t], thread) <==>
            Begins(traffic + [t], |traffic|, thread) || (Running(traffic, thread) && !Ends(t, thread))
  {
    var all, n := traffic + [t], |traffic|;
    assert forall j :: 0 <= j < n ==> all[j] == traffic[j];
    assert all[n] == t;
    if k: nat :| Begins(all, k, thread) && NothingEnds(all, k, thread) {
      if k < n {
        BeginsEarlier(traffic, t, k, thread);
        assert NothingEnds(traffic, k, thread);
      }
    }
    if Running(traffic, thread) && !Ends(t, thread) {
      var k: nat :| Begins(traffic, k, thread) && NothingEnds(traffic, k, thread);
      BeginsEarlier(traffic, t, k, thread);
      assert NothingEnds(all, k, thread);
    }
    assert NothingEnds(all, n, thread);
  }

  lemma RememberedSnoc(traffic: seq<Traffic>, t: Traffic)
    ensures Remembered(traffic + [t]) ==
            if t.FromNative? && t.m.verb == Some("turn/completed") then
              if |Remembered(traffic) + {t.m.turn}| <= 256 then Remembered(traffic) + {t.m.turn} else {t.m.turn}
            else Remembered(traffic)
  {
    assert (traffic + [t])[..|traffic|] == traffic;
  }

  lemma InitializedSnoc(traffic: seq<Traffic>, t: Traffic)
    ensures Initialized(traffic + [t]) <==> Initialized(traffic) || (t.FromClient() && t.m.verb == Some("initialized"))
  {
    var all := traffic + [t];
    assert all[|traffic|] == t;
    assert forall j :: 0 <= j < |traffic| ==> all[j] == traffic[j];
    if Initialized(traffic) {
      var k :| 0 <= k < |traffic| && traffic[k].FromClient() && traffic[k].m.verb == Some("initialized");
      assert all[k] == traffic[k];
    }
  }

  lemma ClientPending(s: Session, traffic: seq<Traffic>, t: Traffic)
    requires PendingTracked(s, traffic) && t.FromClient()
    ensures PendingTracked(AfterClient(s, t.m), traffic + [t])
  {
    forall id
      ensures id in AfterClient(s, t.m).pending <==> Awaiting(traffic + [t], id)
    {
      AwaitingSnoc(traffic, t, id);
    }
    forall q: nat, id | Open(traffic + [t], q, id)
      ensures id in AfterClient(s, t.m).pending
      ensures AfterClient(s, t.m).pending[id]
              == if (traffic + [t])[q].m.verb == Some("turn/start") then (traffic + [t])[q].m.thread else None
    {
      OpenSnoc(traffic, t, q, id);
    }
  }

  lemma ClientApprovals(s: Session, traffic: seq<Traffic>, t: Traffic)
    requires ApprovalsTracked(s, traffic) && t.FromClient()
    ensures ApprovalsTracked(AfterClient(s, t.m), traffic + [t])
  {
    forall id
      ensures id in AfterClient(s, t.m).approvals <==> Asking(traffic + [t], id)
    {
      AskingSnoc(traffic, t, id);
    }
  }

  lemma ClientTurns(s: Session, traffic: seq<Traffic>, t: Traffic)
    requires TurnsTracked(s, traffic) && t.FromClient()
    ensures TurnsTracked(AfterClient(s, t.m), traffic + [t])
  {
    RememberedSnoc(traffic, t);
    forall thread
      ensures thread in AfterClient(s, t.m).active <==> Running(traffic + [t], thread)
    {
      RunningSnoc(traffic, t, thread);
    }
  }

  lemma ClientTracks(s: Session, traffic: seq<Traffic>, t: Traffic)
    requires Tracked(s, traffic) && t.FromClient()
    ensures Tracked(AfterClient(s, t.m), traffic + [t])
  {
    ClientPending(s, traffic, t);
    ClientApprovals(s, traffic, t);
    ClientTurns(s, traffic, t);
    InitializedSnoc(traffic, t);
  }

  lemma NativePending(s: Session, traffic: seq<Traffic>, m: Message)
    requires PendingTracked(s, traffic)
    ensures PendingTracked(AfterNative(s, m), traffic + [FromNative(m)])
  {
    var t := FromNative(m);
    forall id
      ensures id in AfterNative(s, m).pending <==> Awaiting(traffic + [t], id)
    {
      AwaitingSnoc(traffic, t, id);
    }
    forall q: nat, id | Open(traffic + [t], q, id)
      ensures id in AfterNative(s, m).pending
      ensures AfterNative(s, m).pending[id]
              == if (traffic + [t])[q].m.verb == Some("turn/start") then (traffic + [t])[q].m.thread else None
    {
      OpenSnoc(traffic, t, q, id);
    }
  }

  lemma NativeApprovals(s: Session, traffic: seq<Traffic>, m: Message)
    requires ApprovalsTracked(s, traffic)
    ensures ApprovalsTracked(AfterNative(s, m), traffic + [FromNative(m)])
  {
    forall id
      ensures id in AfterNative(s, m).approvals <==> Asking(traffic + [FromNative(m)], id)
    {
      AskingSnoc(traffic, FromNative(m), id);
    }
  }

  /** An answer begins a turn exactly as the session takes it. */
  lemma AnswerBegins(s: Session, traffic: seq<Traffic>, m: Message, thread: Option<string>)
    requires PendingTracked(s, traffic) && TurnsTracked(s, traffic) && IsAnswer(m)
    ensures Begins(traffic + [FromNative(m)], |traffic|, thread) <==> StartsTurn(s, m) && s.pending[m.id.value] == thread
  {
    var all, id := traffic + [FromNative(m)], m.id.value;
    assert all[..|traffic|] == traffic && all[|traffic|] == FromNative(m);
    if BegunBy(traffic, id, thread) {
      var q: nat :| Open(traffic, q, id) && traffic[q].m.verb == Some("turn/start") && traffic[q].m.thread == thread;
      assert s.pending[id] == thread;
    }
    if id in s.pending && Given(s.pending[id]) {
      var q: nat :| Open(traffic, q, id);
      assert BegunBy(traffic, id, s.pending[id]);
    }
  }

  lemma NativeBegins(s: Session, traffic: seq<Traffic>, m: Message, thread: Option<string>)
    requires PendingTracked(s, traffic) && TurnsTracked(s, traffic)
    ensures Begins(traffic + [FromNative(m)], |traffic|, thread)
            <==> (StartsTurn(s, m) && s.pending[m.id.value] == thread) || (m.verb == Some("turn/started") && m.thread == thread)
  {
    if IsAnswer(m) {
      AnswerBegins(s, traffic, m, thread);
    } else {
      assert (traffic + [FromNative(m)])[|traffic|] == FromNative(m);
    }
  }

  lemma NativeTurns(s: Session, traffic: seq<Traffic>, m: Message)
    requires PendingTracked(s, traffic) && TurnsTracked(s, traffic)
    ensures TurnsTracked(AfterNative(s, m), traffic + [FromNative(m)])
  {
    RememberedSnoc(traffic, FromNative(m));
    forall thread
      ensures thread in AfterNative(s, m).active <==> Running(traffic + [FromNative(m)], thread)
    {
      RunningSnoc(traffic, FromNative(m), thread);
      NativeBegins(s, traffic, m, thread);
    }
  }

  lemma NativeTracks(s: Session, traffic: seq<Traffic>, m: Message)
    requires Tracked(s, traffic)
    ensures Tracked(AfterNative(s, m), traffic + [FromNative(m)])
  {
    NativePending(s, traffic, m);
    NativeApprovals(s, traffic, m);
    NativeTurns(s, traffic, m);
    InitializedSnoc(traffic, FromNative(m));
  }

  /** Counting inputs, polling and recovering change none of what is tracked. */
  lemma SameTracked(s: Session, v: Session, traffic: seq<Traffic>)
    requires Tracked(s, traffic) && v.pending == s.pending && v.approvals == s.approvals
    requires v.active == s.active && v.completed == s.completed && v.ready == s.ready
    ensures Tracked(v, traffic)
  {
  }

  lemma PollKeepsSets(s: Session, c: Control)
    ensures var v := AfterPoll(s, c).0;
            && v.pending == s.pending && v.approvals == s.approvals && v.active == s.active
            && v.completed == s.completed && v.ready == s.ready
  {
  }

  lemma StepKeepsTracked(a: Adapter, step: Step)
    requires Inv(a) && !step.Receive? && (step.Forward? ==> !a.input.Holding?)
    ensures Tracked(Next(a, step).session, Next(a, step).traffic)
  {
    var v := Next(a, step);
    if step.Poll? {
      PollKeepsSets(a.session, step.c);
    }
    assert v.traffic == a.traffic && v.session.pending == a.session.pending && v.session.approvals == a.session.approvals;
    assert v.session.active == a.session.active && v.session.completed == a.session.completed && v.session.ready == a.session.ready;
    SameTracked(a.session, v.session, a.traffic);
  }

  lemma StepKeepsUnsent(a: Adapter, step: Step)
    requires UnsentIsLast(a) && !(step.Forward? && a.input.Holding?)
    ensures UnsentIsLast(Next(a, step))
  {
    var v := Next(a, step);
    assert (exists t :: t in v.traffic && t.Unsent?) <==> (exists t :: t in a.traffic && t.Unsent?);
  }

  lemma ForwardKeepsTracked(a: Adapter, step: Step)
    requires Inv(a) && step.Forward? && a.input.Holding?
    ensures Tracked(Next(a, step).session, Next(a, step).traffic) && UnsentIsLast(Next(a, step))
  {
    ClientTracks(a.session, a.traffic, if step.published && step.sent then ToNative(a.input.m) else Unsent(a.input.m));
  }

  lemma ReceiveKeepsTracked(a: Adapter, step: Step)
    requires Inv(a) && step.Receive?
    ensures Tracked(Next(a, step).session, Next(a, step).traffic)
  {
    NativeTracks(a.session, a.traffic, step.m);
  }

  lemma StepKeepsBooks(a: Adapter, step: Step)
    requires Bookkept(a)
    ensures Bookkept(Next(a, step))
  {
  }

  lemma StepKeepsInv(a: Adapter, step: Step)
    requires Inv(a)
    ensures Inv(Next(a, step))
  {
    StepKeepsBooks(a, step);
    if step.Forward? && a.input.Holding? {
      ForwardKeepsTracked(a, step);
    } else {
      StepKeepsUnsent(a, step);
      if step.Receive? {
        ReceiveKeepsTracked(a, step);
      } else {
        StepKeepsTracked(a, step);
      }
    }
  }

  lemma {:induction false} RunKeepsInv(a: Adapter, steps: seq<Step>)
    requires Inv(a)
    ensures Inv(Run(a, steps))
    decreases |steps|
  {
    if steps != [] {
      StepKeepsInv(a, steps[0]);
      RunKeepsInv(Next(a, steps[0]), steps[1..]);
    }
  }

  /** In every run: at most one input is counted, draining means that nothing is
      being processed or awaited, the failure inside `client` never happens, and
      the session knows exactly which requests, approvals and turns the traffic
      leaves open. */
  lemma SessionIsSafe(steps: seq<Step>)
    ensures var a := Run(STARTED, steps);
            && 0 <= a.session.inputs <= 1
            && (a.session.draining ==> a.session.ready && a.session.inputs == 0 && a.session.pending == map[])
            && (a.session.draining ==> !a.input.Holding? && !a.input.Leaving?)
            && a.faults == 0
            && Tracked(a.session, a.traffic)
  {
    RunKeepsInv(STARTED, steps);
  }

  // What a poll does, told from the traffic and the earlier steps.

  /** Nothing is going on: the client has initialized, no input is being processed,
      and no request, approval or turn is open. */
  ghost predicate Quiet(a: Adapter) {
    && Initialized(a.traffic) && !Counted(a.input)
    && (forall id :: !Awaiting(a.traffic, id)) && (forall id :: !Asking(a.traffic, id))
    && (forall thread :: !Running(a.traffic, thread))
  }

  lemma QuietIffIdle(a: Adapter)
    requires Inv(a)
    ensures Quiet(a) <==> Idle(a.session)
  {
    var s := a.session;
    assert s.inputs == 0 <==> !Counted(a.input);
    if Quiet(a) {
      assert forall id :: id !in s.pending && id !in s.approvals;
      assert forall thread :: thread !in s.active;
      assert s.pending == map[] && s.approvals == {} && s.active == {};
    }
    if Idle(s) {
      assert forall id :: id !in s.pending && id !in s.approvals;
      assert forall thread :: thread !in s.active;
    }
  }

  /** The session can poll. */
  predicate Polls(a: Adapter) { a.output == Looping && !a.session.draining }

  /** In step k a poll found a reason against the operation and noted it. */
  ghost predicate DeclinedAt(steps: seq<Step>, k: nat, operation: string) {
    && k < |steps| && Polls(Run(STARTED, steps[..k])) && steps[k].Poll?
    && var c := steps[k].c;
       c.Request? && c.operation == operation && c.targeted && c.reason.Some? && c.noted
  }

  ghost predicate Declined(steps: seq<Step>, operation: string) { exists k: nat :: DeclinedAt(steps, k, operation) }

  lemma RunSnoc(a: Adapter, steps: seq<Step>, step: Step)
    ensures Run(a, steps + [step]) == Next(Run(a, steps), step)
  {
    RunAppend(a, steps, [step]);
    RunOne(Run(a, steps), step);
  }

  lemma DeclinedSnoc(steps: seq<Step>, step: Step, operation: string)
    ensures Declined(steps + [step], operation) <==>
            Declined(steps, operation)
            || (Polls(Run(STARTED, steps)) && step.Poll? && step.c.Request? && step.c.operation == operation
                && step.c.targeted && step.c.reason.Some? && step.c.noted)
  {
    var all, n := steps + [step], |steps|;
    assert all[..n] == steps && all[n] == step;
    forall k: nat | k < n
      ensures DeclinedAt(all, k, operation) <==> DeclinedAt(steps, k, operation)
    {
      assert all[..k] == steps[..k] && all[k] == steps[k];
    }
    assert DeclinedAt(all, n, operation) <==>
           (Polls(Run(STARTED, steps)) && step.Poll? && step.c.Request? && step.c.operation == operation
            && step.c.targeted && step.c.reason.Some? && step.c.noted);
    if Declined(steps, operation) {
      var k: nat :| DeclinedAt(steps, k, operation);
      assert DeclinedAt(all, k, operation);
    }
  }

  lemma TerminalStep(a: Adapter, step: Step, operation: string)
    ensures operation in Next(a, step).session.terminal <==>
            operation in a.session.terminal
            || (Polls(a) && step.Poll? && step.c.Request? && step.c.operation == operation
                && step.c.targeted && step.c.reason.Some? && step.c.noted)
  {
  }

  lemma {:induction false} TerminalIffDeclined(steps: seq<Step>, operation: string)
    ensures operation in Run(STARTED, steps).session.terminal <==> Declined(steps, operation)
  {
    if steps != [] {
      var earlier, step := steps[..|steps| - 1], steps[|steps| - 1];
      assert steps == earlier + [step];
      TerminalIffDeclined(earlier, operation);
      RunSnoc(STARTED, earlier, step);
      TerminalStep(Run(STARTED, earlier), step, operation);
      DeclinedSnoc(earlier, step, operation);
    }
  }

  /** The request is for this adapter, has not been declined before, has no reason
      against it, and is found unchanged and intact under both locks. */
  ghost predicate Serves(steps: seq<Step>, c: Control) {
    && c.Request? && c.targeted && !Declined(steps, c.operation)
    && c.reason.None? && c.locked && c.current && c.intact
  }

  /** Draining begins exactly in a poll of a quiet session that serves the request,
      and it is this request whose report the session then marks. */
  lemma DrainingBeginsIff(steps: seq<Step>, step: Step)
    ensures var a := Run(STARTED, steps);
            var b := Next(a, step);
            var begins := !a.session.draining && b.session.draining;
            && (begins <==> Polls(a) && step.Poll? && Serves(steps, step.c) && Quiet(a))
            && (begins ==> b.session.operation == Some(step.c.operation)
                           && (b.stopping <==> step.c.marked && step.c.published))
            && (!begins ==> b.stopping == a.stopping)
  {
    var a := Run(STARTED, steps);
    RunKeepsInv(STARTED, steps);
    QuietIffIdle(a);
    if step.Poll? && step.c.Request? {
      TerminalIffDeclined(steps, step.c.operation);
    }
  }

  /** A poll fails, and its handler is next, exactly when the request cannot be
      read, a reason cannot be noted, or a quiet session cannot carry out what it
      began: lock, check the installation, mark its report, publish. */
  lemma PollFailsIff(steps: seq<Step>, c: Control)
    requires Polls(Run(STARTED, steps))
    ensures var a := Run(STARTED, steps);
            Next(a, Poll(c)).output == Recovering <==>
            c.Unreadable? ||
            (c.Request? && c.targeted && !Declined(steps, c.operation)
             && if c.reason.Some? then !c.noted
                else Quiet(a) && (!c.locked || (c.current && !(c.intact && c.marked && c.published))))
  {
    var a := Run(STARTED, steps);
    RunKeepsInv(STARTED, steps);
    QuietIffIdle(a);
    if c.Request? {
      TerminalIffDeclined(steps, c.operation);
    }
  }

  // Late answers.

  function CompletedTurns(traffic: seq<Traffic>): set<Option<string>> {
    set k | 0 <= k < |traffic| && traffic[k].FromNative? && traffic[k].m.verb == Some("turn/completed") :: traffic[k].m.turn
  }

  lemma CompletedSnoc(traffic: seq<Traffic>, t: Traffic)
    ensures CompletedTurns(traffic + [t]) ==
            CompletedTurns(traffic) + (if t.FromNative? && t.m.verb == Some("turn/completed") then {t.m.turn} else {})
  {
    var all := traffic + [t];
    assert all[|traffic|] == t && forall j :: 0 <= j < |traffic| ==> all[j] == traffic[j];
  }

  /** Up to 256 completed turns are all remembered, and nothing else is. */
  lemma {:induction false} RemembersCompleted(traffic: seq<Traffic>)
    ensures Remembered(traffic) <= CompletedTurns(traffic)
    ensures |CompletedTurns(traffic)| <= 256 ==> Remembered(traffic) == CompletedTurns(traffic)
  {
    if traffic != [] {
      var earlier, t := traffic[..|traffic| - 1], traffic[|traffic| - 1];
      assert traffic == earlier + [t];
      RemembersCompleted(earlier);
      CompletedSnoc(earlier, t);
      Subset(CompletedTurns(earlier), CompletedTurns(traffic));
    }
  }

  lemma {:induction false} Subset(a: set<Option<string>>, b: set<Option<string>>)
    requires a <= b
    ensures |a| <= |b|
    decreases b
  {
    if a != {} {
      var x :| x in a;
      Subset(a - {x}, b - {x});
    }
  }

  /** An answer that comes after its turn completed leaves the thread as it was
      exactly when the turn is still remembered, or a turn of the thread runs. */
  lemma LateAnswerIff(traffic: seq<Traffic>, m: Message, thread: Option<string>)
    requires m.id.Some? && Answers(m, m.id.value) && BegunBy(traffic, m.id.value, thread)
    requires !m.failed && Unfinished(m.answered.status) && m.answered.id in CompletedTurns(traffic)
    ensures (Running(traffic + [FromNative(m)], thread) <==> Running(traffic, thread))
            <==>
            m.answered.id in Remembered(traffic) || Running(traffic, thread)
  {
    RunningSnoc(traffic, FromNative(m), thread);
    var all := traffic + [FromNative(m)];
    assert all[..|traffic|] == traffic && all[|traffic|] == FromNative(m);
  }

  function TurnId(i: nat): Option<string> { Some(seq(i, _ => 'x')) }

  function CompletedTurn(i: nat): Message {
    Message(Some("turn/completed"), None, Some("t"), TurnId(i), None, false, Turn(None, None))
  }

  const TURN_START := Message(Some("turn/start"), Some("1"), Some("t"), None, None, false, Turn(None, None))

  /** A request for a turn, and then n turns that complete. */
  function Completions(n: nat): seq<Traffic> {
    if n == 0 then [ToNative(TURN_START)] else Completions(n - 1) + [FromNative(CompletedTurn(n - 1))]
  }

  function Turns(n: nat): (ids: set<Option<string>>)
    ensures forall id :: id in ids ==> id.Some? && |id.value| < n
    ensures |ids| == n
  {
    if n == 0 then {} else Turns(n - 1) + {TurnId(n - 1)}
  }

  lemma {:induction false} RemembersAll(n: nat)
    requires n <= 256
    ensures Remembered(Completions(n)) == Turns(n)
  {
    if n > 0 {
      RemembersAll(n - 1);
      RememberedSnoc(Completions(n - 1), FromNative(CompletedTurn(n - 1)));
    }
  }

  lemma {:induction false} CompletionsHappen(n: nat) returns (steps: seq<Step>)
    ensures var a := Run(STARTED, steps); Calm(a) && a.traffic == Completions(n)
  {
    if n == 0 {
      steps := [Enter(TURN_START, true), Forward(true, true), Leave(true)];
      Says(STARTED, TURN_START);
    } else {
      var earlier := CompletionsHappen(n - 1);
      steps := earlier + [Receive(CompletedTurn(n - 1), true)];
      RunSnoc(STARTED, earlier, Receive(CompletedTurn(n - 1), true));
    }
  }

  lemma TurnsGrow(n: nat)
    ensures |Turns(n) + {TurnId(n)}| == n + 1
  {
    assert Turns(n + 1) == Turns(n) + {TurnId(n)};
  }

  lemma TurnIdsDiffer(i: nat, j: nat)
    requires i != j
    ensures TurnId(i) != TurnId(j)
  {
    assert |TurnId(i).value| == i && |TurnId(j).value| == j;
  }

  lemma ForgetsFirst(n: nat)
    requires n == 256
    ensures TurnId(0) !in Remembered(Completions(n + 1))
  {
    RemembersAll(n);
    RememberedSnoc(Completions(n), FromNative(CompletedTurn(n)));
    TurnsGrow(n);
    TurnIdsDiffer(0, n);
  }

  lemma CompletedRests(n: nat)
    requires n > 0
    ensures !Running(Completions(n), Some("t"))
  {
    RunningSnoc(Completions(n - 1), FromNative(CompletedTurn(n - 1)), Some("t"));
    EndingBeginsNothing(Completions(n - 1), n - 1);
  }

  /** The failing case: a run in which 256 other turns complete before the answer to
      the request for a completed turn comes, which leaves its thread running. */
  lemma ForgottenTurnRuns() returns (steps: seq<Step>, m: Message)
    ensures var a := Run(STARTED, steps);
            && m.answered.id in CompletedTurns(a.traffic)
            && !Running(a.traffic, Some("t")) && Running(a.traffic + [FromNative(m)], Some("t"))
  {
    steps := CompletionsHappen(257);
    m := Message(None, Some("1"), None, None, None, false, Turn(TurnId(0), Some("inProgress")));
    ForgetsFirst(256);
    FirstTurnCompleted(257);
    TurnStaysOpen(257);
    CompletedRests(257);
    LateAnswerIff(Completions(257), m, Some("t"));
  }

  lemma EndingBeginsNothing(traffic: seq<Traffic>, i: nat)
    ensures !Begins(traffic + [FromNative(CompletedTurn(i))], |traffic|, Some("t"))
  {
    assert (traffic + [FromNative(CompletedTurn(i))])[|traffic|] == FromNative(CompletedTurn(i));
  }

  lemma {:induction false} FirstTurnCompleted(n: nat)
    requires n > 0
    ensures TurnId(0) in CompletedTurns(Completions(n))
  {
    CompletedSnoc(Completions(n - 1), FromNative(CompletedTurn(n - 1)));
    if n > 1 {
      FirstTurnCompleted(n - 1);
    }
  }

  lemma {:induction false} TurnStaysOpen(n: nat)
    ensures Completions(n)[0] == ToNative(TURN_START) && BegunBy(Completions(n), "1", Some("t"))
    ensures Open(Completions(n), 0, "1")
  {
    if n == 0 {
      assert Open(Completions(0), 0, "1");
    } else {
      TurnStaysOpen(n - 1);
      OpenSnoc(Completions(n - 1), FromNative(CompletedTurn(n - 1)), 0, "1");
    }
  }

  lemma ReceivedForwards(traffic: seq<Traffic>, m: Message)
    ensures Forwarded(traffic + [FromNative(m)]) == Forwarded(traffic)
  {
    assert (traffic + [FromNative(m)])[..|traffic|] == traffic;
  }

  lemma StepAfterStopping(a: Adapter, step: Step)
    requires Inv(a) && a.stopping
    ensures Next(a, step).stopping && Next(a, step).session.operation == a.session.operation
    ensures Forwarded(Next(a, step).traffic) == Forwarded(a.traffic)
  {
    assert !a.input.Holding?;
    if step.Receive? {
      ReceivedForwards(a.traffic, step.m);
    } else {
      assert Next(a, step).traffic == a.traffic;
    }
  }

  /** Once a poll has returned true, draining stays, for the same request, and
      nothing more is ever forwarded to the native server. */
  lemma {:induction false} NothingForwardedAfterStopping(a: Adapter, steps: seq<Step>)
    requires Inv(a) && a.stopping
    ensures Run(a, steps).stopping && Run(a, steps).session.draining
    ensures Run(a, steps).session.operation == a.session.operation
    ensures Forwarded(Run(a, steps).traffic) == Forwarded(a.traffic)
    decreases |steps|
  {
    if steps != [] {
      StepKeepsInv(a, steps[0]);
      StepAfterStopping(a, steps[0]);
      NothingForwardedAfterStopping(Next(a, steps[0]), steps[1..]);
    }
  }

  /** The report is marked closed at the end exactly when a poll returned true. */
  lemma ClosedIffStopped(steps: seq<Step>)
    requires Run(STARTED, steps).output.Finished?
    ensures Run(STARTED, steps).output.closed <==> Run(STARTED, steps).stopping
  {
    RunKeepsInv(STARTED, steps);
  }

  /** A run in which a session that goes on refuses a message: between a failed
      commit and the handler that undoes it the gate is free. */
  lemma RefusedWithoutStopping(m: Message)
    ensures var poll := Poll(Request("a", true, None, true, true, true, true, false, true));
            var a := Run(STARTED, [Enter(HELLO, true), Forward(true, true), Leave(true)] + [poll, Enter(m, true), Recover]);
            a.refused == [m] && !a.stopping && !a.session.draining
  {
    var poll := Poll(Request("a", true, None, true, true, true, true, false, true));
    var hello := [Enter(HELLO, true), Forward(true, true), Leave(true)];
    Says(STARTED, HELLO);
    var ready := Run(STARTED, hello);
    assert Idle(ready.session);
    RunThree(ready, poll, Enter(m, true), Recover);
    RunAppend(STARTED, hello, [poll, Enter(m, true), Recover]);
  }

  /** In every run: the next message is refused exactly while draining is set, and
      it is refused by a session that goes on exactly while in addition a failed
      commit waits for its handler. */
  lemma RefusedIff(steps: seq<Step>, m: Message, published: bool)
    requires Run(STARTED, steps).input == Reading
    ensures var a := Run(STARTED, steps);
            var b := Next(a, Enter(m, published));
            && (b.refused == a.refused + [m] <==> a.session.draining)
            && (b.refused == a.refused + [m] && !a.stopping <==> a.session.draining && a.output == Recovering)
            && (a.output == Recovering ==> !Next(b, Recover).session.draining && !Next(b, Recover).stopping)
  {
    RunKeepsInv(STARTED, steps);
  }

  // When a session can still stop.

  predicate InputLives(i: Input) { i.Reading? || i.Holding? || (i.Leaving? && !i.dying) }

  /** The output loop runs, and the input thread lives or has left nothing that
      only it could settle: it is not counted, the session is ready, and no
      approval is open. */
  predicate CanStop(a: Adapter) {
    || a.stopping
    || (!a.output.Finished?
        && (InputLives(a.input) || (a.input != Gone(true) && a.session.ready && a.session.approvals == {})))
  }

  lemma CannotStopStays(a: Adapter, step: Step)
    requires Inv(a) && !CanStop(a)
    ensures !CanStop(Next(a, step))
  {
  }

  /** A session that cannot stop never does; an input that died on entry and one
      that died with an approval open are such cases. */
  lemma {:induction false} StuckNeverStops(a: Adapter, steps: seq<Step>)
    requires Inv(a) && !CanStop(a)
    ensures !Run(a, steps).stopping
    decreases |steps|
  {
    if steps != [] {
      StepKeepsInv(a, steps[0]);
      CannotStopStays(a, steps[0]);
      StuckNeverStops(Next(a, steps[0]), steps[1..]);
    }
  }

  lemma {:induction false} RunAppend(a: Adapter, earlier: seq<Step>, later: seq<Step>)
    ensures Run(a, earlier + later) == Run(Run(a, earlier), later)
    decreases |earlier|
  {
    if earlier == [] {
      assert earlier + later == later;
    } else {
      RunAppend(Next(a, earlier[0]), earlier[1..], later);
      assert (earlier + later)[1..] == earlier[1..] + later;
    }
  }

  lemma RunOne(a: Adapter, step: Step)
    ensures Run(a, [step]) == Next(a, step)
  {
    assert [step][1..] == [];
  }

  lemma RunThree(a: Adapter, x: Step, y: Step, z: Step)
    ensures Run(a, [x, y, z]) == Next(Next(Next(a, x), y), z)
  {
    assert [x, y, z][1..] == [y, z] && [y, z][1..] == [z];
    RunOne(Next(Next(a, x), y), z);
  }

  /** A session whose output loop runs and that is not draining. */
  predicate Calm(a: Adapter) { a.output == Looping && !a.session.draining }

  lemma Calmed(a: Adapter) returns (steps: seq<Step>)
    requires Inv(a) && !a.stopping && !a.output.Finished?
    ensures var b := Run(a, steps);
            Calm(b) && b.input == a.input && b.session.ready == a.session.ready && b.session.approvals == a.session.approvals
  {
    if a.output == Recovering {
      steps := [Recover];
      RunOne(a, Recover);
    } else {
      steps := [];
    }
  }

  lemma BackToReading(a: Adapter) returns (steps: seq<Step>)
    requires Calm(a) && InputLives(a.input)
    ensures Calm(Run(a, steps)) && Run(a, steps).input == Reading
  {
    if a.input.Holding? {
      steps := [Forward(true, true)] + [Leave(true)];
      RunAppend(a, [Forward(true, true)], [Leave(true)]);
      RunOne(a, Forward(true, true));
      RunOne(Next(a, Forward(true, true)), Leave(true));
    } else if a.input.Leaving? {
      steps := [Leave(true)];
      RunOne(a, Leave(true));
    } else {
      steps := [];
    }
  }

  /** The client says something and it is forwarded. */
  lemma Says(a: Adapter, m: Message)
    requires Calm(a) && a.input == Reading
    ensures Run(a, [Enter(m, true), Forward(true, true), Leave(true)])
            == a.(session := AfterClient(a.session, m), traffic := a.traffic + [ToNative(m)])
  {
    RunThree(a, Enter(m, true), Forward(true, true), Leave(true));
  }

  function Answer(id: string): Message { Message(None, Some(id), None, None, None, true, Turn(None, None)) }

  const HELLO := Message(Some("initialized"), None, None, None, None, false, Turn(None, None))

  lemma {:induction false} ApprovalsAnswered(a: Adapter) returns (steps: seq<Step>)
    requires Calm(a) && a.input == Reading
    ensures Calm(Run(a, steps)) && Run(a, steps).input == Reading && Run(a, steps).session.approvals == {}
    decreases a.session.approvals
  {
    if a.session.approvals == {} {
      steps := [];
    } else {
      var id :| id in a.session.approvals;
      Says(a, Answer(id));
      var first := [Enter(Answer(id), true), Forward(true, true), Leave(true)];
      var rest := ApprovalsAnswered(Run(a, first));
      RunAppend(a, first, rest);
      steps := first + rest;
    }
  }

  /** What only the input thread can do is done. */
  predicate InputSettled(a: Adapter) {
    Calm(a) && (a.input == Reading || a.input == Gone(false)) && a.session.ready && a.session.approvals == {}
  }

  lemma InputSettles(a: Adapter) returns (steps: seq<Step>)
    requires Calm(a) && CanStop(a) && !a.stopping
    ensures InputSettled(Run(a, steps))
  {
    if InputLives(a.input) {
      var one := BackToReading(a);
      var b := Run(a, one);
      var two := ApprovalsAnswered(b);
      var c := Run(b, two);
      Says(c, HELLO);
      var three := [Enter(HELLO, true), Forward(true, true), Leave(true)];
      RunAppend(a, one, two);
      RunAppend(a, one + two, three);
      steps := one + two + three;
    } else if a.input.Leaving? {
      steps := [Leave(true)];
      RunOne(a, Leave(true));
    } else {
      steps := [];
    }
  }

  lemma {:induction false} PendingAnswered(a: Adapter) returns (steps: seq<Step>)
    requires InputSettled(a)
    ensures InputSettled(Run(a, steps)) && Run(a, steps).session.pending == map[]
    decreases a.session.pending.Keys
  {
    if a.session.pending == map[] {
      steps := [];
    } else {
      var id :| id in a.session.pending;
      var step := Receive(Answer(id), true);
      var b := Next(a, step);
      RunOne(a, step);
      assert b.session == a.session.(pending := a.session.pending - {id});
      var rest := PendingAnswered(b);
      RunAppend(a, [step], rest);
      steps := [step] + rest;
    }
  }

  lemma {:induction false} TurnsEnd(a: Adapter) returns (steps: seq<Step>)
    requires InputSettled(a) && a.session.pending == map[]
    ensures var b := Run(a, steps); InputSettled(b) && b.session.pending == map[] && b.session.active == {}
    decreases a.session.active
  {
    if a.session.active == {} {
      steps := [];
    } else {
      var thread :| thread in a.session.active;
      var m := Message(Some("thread/closed"), None, thread, None, None, false, Turn(None, None));
      var step := Receive(m, true);
      var b := Next(a, step);
      RunOne(a, step);
      assert b.session == a.session.(active := a.session.active - {thread});
      var rest := TurnsEnd(b);
      RunAppend(a, [step], rest);
      steps := [step] + rest;
    }
  }

  lemma {:induction false} LongerThanAll(names: set<string>) returns (n: nat)
    ensures forall name :: name in names ==> |name| < n
    decreases names
  {
    if names == {} {
      n := 0;
    } else {
      var name :| name in names;
      var m := LongerThanAll(names - {name});
      n := if m <= |name| then |name| + 1 else m;
    }
  }

  lemma IdleStops(a: Adapter) returns (step: Step)
    requires Calm(a) && Idle(a.session)
    ensures Next(a, step).stopping
  {
    var n := LongerThanAll(a.session.terminal);
    var fresh' := seq(n, _ => 'x');
    assert |fresh'| == n;
    step := Poll(Request(fresh', true, None, true, true, true, true, true, true));
  }

  /** From a session that can stop, some continuation stops it: the client and
      the native server answer what is open, and a poll serves a request. */
  lemma StopsSomehow(a: Adapter) returns (steps: seq<Step>)
    requires Inv(a) && CanStop(a)
    ensures Run(a, steps).stopping
  {
    if a.stopping {
      steps := [];
    } else {
      var one := Calmed(a);
      var b := Run(a, one);
      RunKeepsInv(a, one);
      var two := InputSettles(b);
      var c := Run(b, two);
      RunKeepsInv(b, two);
      var three := PendingAnswered(c);
      var d := Run(c, three);
      RunKeepsInv(c, three);
      var four := TurnsEnd(d);
      var e := Run(d, four);
      RunKeepsInv(d, four);
      var last := IdleStops(e);
      RunOne(e, last);
      RunAppend(a, one, two);
      RunAppend(a, one + two, three);
      RunAppend(a, one + two + three, four);
      RunAppend(a, one + two + three + four, [last]);
      steps := one + two + three + four + [last];
    }
  }

  /** In every run, some continuation stops the session exactly when the output
      loop runs and the input thread lives, or left the session ready, uncounted
      and with no approval open. */
  lemma StopsIff(before: seq<Step>)
    ensures var a := Run(STARTED, before);
            CanStop(a) <==> exists steps :: Run(a, steps).stopping
  {
    var a := Run(STARTED, before);
    RunKeepsInv(STARTED, before);
    if CanStop(a) {
      var steps := StopsSomehow(a);
    } else {
      forall steps
        ensures !Run(a, steps).stopping
      {
        StuckNeverStops(a, steps);
      }
    }
  }
}
