/** The named workspaces that one adapter holds for its chats. */
module WorkspaceLifecycle {
  import opened Wrappers

  datatype Pending = Pending(verb: string, thread: Option<string>, workspace: Option<string>)

  /** The bookkeeping, with what the registry knows of this process: the leases
      it holds, and every lease acquired and released so far. `named` says for
      each workspace whether its lease is owned or borrowed. */
  datatype Ledger = Ledger(
    pending: map<string, Pending>, threads: set<Option<string>>, named: map<string, bool>,
    namedThreads: map<Option<string>, string>, startup: set<string>,
    held: set<string>, acquired: multiset<string>, released: multiset<string>)

  const EMPTY := Ledger(map[], {}, map[], map[], {}, {}, multiset{}, multiset{})

  predicate InPending(s: Ledger, id: string) { exists k :: k in s.pending && s.pending[k].workspace == Some(id) }

  predicate InThreads(s: Ledger, id: string) { exists t :: t in s.namedThreads && s.namedThreads[t] == id }

  predicate Referenced(s: Ledger, id: string) { id in s.startup || InThreads(s, id) || InPending(s, id) }

  /** What the registry answers for a directory. A borrowed lease belongs to the
      launch that this one was started from. */
  datatype Reservation = NoWorkspace | Unavailable | Found(id: string, borrowed: bool)

  /** The registry gives a new lease only when there is none. */
  function Reserved(s: Ledger, r: Reservation, thread: Option<string>): Ledger
    requires r.Found?
  {
    var owned := !r.borrowed && r.id !in s.held;
    s.(named := if r.id in s.named then s.named else s.named[r.id := owned],
       held := if owned then s.held + {r.id} else s.held,
       acquired := if owned then s.acquired + multiset{r.id} else s.acquired,
       namedThreads := if thread.Some? then s.namedThreads[thread := r.id] else s.namedThreads)
  }

  function Unused(s: Ledger, id: string): Ledger {
    if Referenced(s, id) || id !in s.named then s
    else
      s.(named := s.named - {id},
         held := if s.named[id] then s.held - {id} else s.held,
         released := if s.named[id] then s.released + multiset{id} else s.released)
  }

  function ThreadClosed(s: Ledger, thread: Option<string>): Ledger {
    var s1 := s.(namedThreads := s.namedThreads - {thread}, threads := s.threads - {thread});
    if thread in s.namedThreads then Unused(s1, s.namedThreads[thread]) else s1
  }

  // Requests of the client.

  datatype Request = Request(
    verb: string, id: Option<string>, thread: Option<string>, place: Reservation, admitted: bool, recorded: bool)

  predicate Resumes(verb: string) { verb == "thread/resume" || verb == "turn/start" || verb == "thread/shellCommand" }

  predicate Places(verb: string) { Resumes(verb) || verb == "thread/start" || verb == "thread/fork" }

  /** `admitted`: the check before the reservation passed; `recorded`: the locked
      one after it. `place` is what the registry answers, no workspace when the
      request names no directory. */
  function AfterRequest(s: Ledger, r: Request): (Ledger, bool) {
    if Resumes(r.verb) && !r.admitted then (s, false)
    else if Places(r.verb) && r.place.Unavailable? then (s, false)
    else
      var found := Places(r.verb) && r.place.Found?;
      var s1 := if found then Reserved(s, r.place, None) else s;
      if Resumes(r.verb) && !r.recorded then (if found then Unused(s1, r.place.id) else s1, false)
      else if (Places(r.verb) || r.verb == "thread/unsubscribe") && r.id.Some? then
        (s1.(pending := s1.pending[r.id.value := Pending(r.verb, r.thread, if found then Some(r.place.id) else None)]), true)
      else (s1, true)
  }

  // Messages of the native server.

  /** The `thread` member of a result or of parameters: absent, without id or
      directory, or complete. */
  datatype ThreadPart = Absent | Partial | Complete(id: string)

  datatype Message = Message(
    verb: Option<string>, id: Option<string>, failed: bool, result: ThreadPart, resultStatus: Option<string>,
    started: ThreadPart, thread: Option<string>, status: Option<string>)

  /** A missing id is looked up under the text that stands for null. */
  function Key(m: Message): string { if m.id.Some? then m.id.value else "None" }

  function Answers(s: Ledger, m: Message): Option<Pending> {
    if Key(m) in s.pending then Some(s.pending[Key(m)]) else None
  }

  function Subject(s: Ledger, m: Message): ThreadPart {
    if m.verb == Some("thread/started") then m.started
    else if Answers(s, m).Some? then m.result
    else Absent
  }

  predicate Closes(m: Message) {
    m.verb == Some("thread/closed") || (m.verb == Some("thread/status/changed") && m.status == Some("notLoaded"))
  }

  predicate Given(v: Option<string>) { v.Some? && v.value != "" }

  predicate TurnVerb(verb: string) { verb == "turn/start" || verb == "thread/shellCommand" }

  /** The answer starts using the workspace that its request reserved. */
  predicate Adopts(p: Pending, m: Message, subject: ThreadPart) {
    subject.Absent? && !m.failed && TurnVerb(p.verb) && p.workspace.Some?
  }

  /** What follows for the request that the message answers. */
  function Settled(s: Ledger, p: Pending, m: Message, subject: ThreadPart): Ledger {
    var s1 := MaybeClosed(s, m.failed && Given(p.thread) && p.thread !in s.threads, p.thread);
    var s2 := MaybeAdopted(s1, p, m, subject);
    var s3 := MaybeClosed(s2, p.verb == "thread/unsubscribe" && m.resultStatus == Some("notLoaded"), p.thread);
    if p.workspace.Some? then Unused(s3, p.workspace.value) else s3
  }

  /** `place` is what the registry answers for the thread's directory; `attached`:
      the checkpoint and the thread record were written. */
  function AfterResponse(s: Ledger, m: Message, place: Reservation, attached: bool): (Ledger, bool) {
    var p := Answers(s, m);
    var subject := Subject(s, m);
    var s1 := s.(pending := s.pending - {Key(m)});
    if subject.Complete? && place.Unavailable? then (s1, false)
    else
      var s2 := if subject.Complete? && place.Found? then Reserved(s1, place, Some(subject.id)) else s1;
      if subject.Complete? && !attached then (s2, false)
      else
        var s3 := if subject.Complete? then s2.(threads := s2.threads + {Some(subject.id)}) else s2;
        var s4 := if Closes(m) then ThreadClosed(s3, m.thread) else s3;
        (if p.Some? then Settled(s4, p.value, m, subject) else s4, true)
  }

  // Invariants.

  /** Whatever refers to a workspace, the workspace is named. */
  ghost predicate Anchored(s: Ledger) { forall id :: Referenced(s, id) ==> id in s.named }

  /** Owned leases are held, and every lease held was acquired once more often
      than it was released. */
  predicate Accounted(s: Ledger) {
    && (forall id :: id in s.named && s.named[id] ==> id in s.held)
    && s.acquired == s.released + multiset(s.held)
  }

  /** Nothing is held but the leases named as owned. */
  predicate Exact(s: Ledger) { forall id :: id in s.held ==> id in s.named && s.named[id] }

  /** Every thread with a workspace is one that closing will visit. */
  predicate Visited(s: Ledger) { s.namedThreads.Keys <= s.threads }

  /** The registry gives a lease for a workspace that is named as borrowed. The
      entry is kept as it is, and nobody releases the lease. */
  predicate Leaks(s: Ledger, r: Reservation) { r.Found? && !r.borrowed && r.id !in s.held && r.id in s.named }

  lemma ReservedAnchored(s: Ledger, r: Reservation, thread: Option<string>)
    requires r.Found? && Anchored(s)
    ensures Anchored(Reserved(s, r, thread))
  {
    var v := Reserved(s, r, thread);
    forall id | Referenced(v, id)
      ensures id in v.named
    {
      assert InPending(v, id) ==> InPending(s, id);
      assert InThreads(v, id) ==> id == r.id || InThreads(s, id);
    }
  }

  lemma OneMore(ids: set<string>, id: string)
    requires id !in ids
    ensures multiset(ids + {id}) == multiset(ids) + multiset{id}
  {
  }

  lemma ReservedAccounted(s: Ledger, r: Reservation, thread: Option<string>)
    requires r.Found? && Accounted(s)
    ensures Accounted(Reserved(s, r, thread)) && r.id in Reserved(s, r, thread).named
  {
    if !r.borrowed && r.id !in s.held {
      OneMore(s.held, r.id);
    }
  }

  lemma ReservedExact(s: Ledger, r: Reservation, thread: Option<string>)
    requires r.Found? && Accounted(s)
    ensures Exact(s) ==> (Exact(Reserved(s, r, thread)) <==> !Leaks(s, r))
  {
  }

  lemma ReservedKeeps(s: Ledger, r: Reservation, thread: Option<string>)
    requires r.Found? && Accounted(s)
    ensures Accounted(Reserved(s, r, thread))
    ensures Anchored(s) ==> Anchored(Reserved(s, r, thread))
    ensures Exact(s) ==> (Exact(Reserved(s, r, thread)) <==> !Leaks(s, r))
    ensures r.id in Reserved(s, r, thread).named
  {
    if Anchored(s) {
      ReservedAnchored(s, r, thread);
    }
    ReservedAccounted(s, r, thread);
    ReservedExact(s, r, thread);
  }

  lemma UnusedExact(s: Ledger, id: string)
    requires Accounted(s)
    ensures Exact(s) <==> Exact(Unused(s, id))
  {
    var v := Unused(s, id);
    if Exact(v) {
      forall other | other in s.held
        ensures other in s.named && s.named[other]
      {
        assert other in v.held || other == id;
      }
    }
  }

  lemma UnusedKeeps(s: Ledger, id: string)
    requires Accounted(s)
    ensures Accounted(Unused(s, id))
    ensures Anchored(s) ==> Anchored(Unused(s, id))
    ensures Exact(s) <==> Exact(Unused(s, id))
  {
    UnusedExact(s, id);
    var v := Unused(s, id);
    if v != s {
      forall other
        ensures Referenced(v, other) <==> Referenced(s, other)
      {
        assert InThreads(v, other) <==> InThreads(s, other);
        assert InPending(v, other) <==> InPending(s, other);
      }
      assert s.named[id] ==> multiset(s.held) == multiset(v.held) + multiset{id};
    }
  }

  lemma ThreadClosedKeeps(s: Ledger, thread: Option<string>)
    requires Accounted(s)
    ensures Accounted(ThreadClosed(s, thread))
    ensures Anchored(s) ==> Anchored(ThreadClosed(s, thread))
    ensures Exact(s) <==> Exact(ThreadClosed(s, thread))
    ensures Visited(s) ==> Visited(ThreadClosed(s, thread))
  {
    var s1 := s.(namedThreads := s.namedThreads - {thread}, threads := s.threads - {thread});
    if Anchored(s) {
      forall id | Referenced(s1, id)
        ensures id in s1.named
      {
        assert Referenced(s, id);
      }
    }
    if thread in s.namedThreads {
      UnusedKeeps(s1, s.namedThreads[thread]);
    }
  }

  // Requests.

  /** The request reaches the registry and is given a workspace. */
  predicate Takes(r: Request) { Places(r.verb) && r.place.Found? && (Resumes(r.verb) ==> r.admitted) }

  lemma PendingKeeps(s: Ledger, key: string, p: Pending)
    requires Anchored(s) && (p.workspace.Some? ==> p.workspace.value in s.named)
    ensures Anchored(s.(pending := s.pending[key := p]))
  {
    var v := s.(pending := s.pending[key := p]);
    forall id | Referenced(v, id)
      ensures id in v.named
    {
      assert InThreads(v, id) <==> InThreads(s, id);
      assert InPending(v, id) ==> InPending(s, id) || p.workspace == Some(id);
    }
  }

  lemma RequestKeeps(s: Ledger, r: Request)
    requires Anchored(s) && Accounted(s)
    ensures Anchored(AfterRequest(s, r).0) && Accounted(AfterRequest(s, r).0)
    ensures Exact(s) ==> (Exact(AfterRequest(s, r).0) <==> !(Takes(r) && Leaks(s, r.place)))
    ensures Visited(s) ==> Visited(AfterRequest(s, r).0)
  {
    if Takes(r) {
      var s1 := Reserved(s, r.place, None);
      ReservedKeeps(s, r.place, None);
      UnusedKeeps(s1, r.place.id);
      if r.id.Some? {
        PendingKeeps(s1, r.id.value, Pending(r.verb, r.thread, Some(r.place.id)));
      }
      assert Leaks(s, r.place) ==> r.place.id in Unused(s1, r.place.id).held;
    } else if r.id.Some? {
      PendingKeeps(s, r.id.value, Pending(r.verb, r.thread, None));
    }
  }

  // Messages.

  lemma PoppedKeeps(s: Ledger, key: string)
    requires Anchored(s)
    ensures Anchored(s.(pending := s.pending - {key}))
  {
    var v := s.(pending := s.pending - {key});
    forall id | Referenced(v, id)
      ensures id in v.named
    {
      assert InThreads(v, id) <==> InThreads(s, id);
      assert InPending(v, id) ==> InPending(s, id);
    }
  }

  lemma AdoptedAnchored(s: Ledger, thread: Option<string>, id: string)
    ensures var v := s.(namedThreads := s.namedThreads[thread := id], threads := s.threads + {thread});
            && InThreads(v, id)
            && (Anchored(s) ==> (Anchored(v) <==> id in s.named))
  {
    var v := s.(namedThreads := s.namedThreads[thread := id], threads := s.threads + {thread});
    assert v.namedThreads[thread] == id;
    if Anchored(s) && id in s.named {
      forall other | Referenced(v, other)
        ensures other in v.named
      {
        assert InPending(v, other) <==> InPending(s, other);
        assert other == id || Referenced(s, other);
      }
    } else {
      assert Referenced(v, id);
    }
  }

  /** The three things that settling may do before it lets go of the workspace. */
  function MaybeClosed(s: Ledger, closed: bool, thread: Option<string>): Ledger {
    if closed then ThreadClosed(s, thread) else s
  }

  function MaybeAdopted(s: Ledger, p: Pending, m: Message, subject: ThreadPart): Ledger {
    if Adopts(p, m, subject) then
      s.(namedThreads := s.namedThreads[p.thread := p.workspace.value], threads := s.threads + {p.thread})
    else s
  }

  /** A change that leaves the accounts right, the leases as exact as they were,
      and the visited threads visited. */
  predicate Keeps(s: Ledger, v: Ledger) {
    Accounted(s) ==> Accounted(v) && (Exact(s) <==> Exact(v)) && (Visited(s) ==> Visited(v))
  }

  lemma MaybeClosedKeeps(s: Ledger, closed: bool, thread: Option<string>)
    ensures Keeps(s, MaybeClosed(s, closed, thread))
  {
    if Accounted(s) {
      ThreadClosedKeeps(s, thread);
    }
  }

  lemma MaybeAdoptedKeeps(s: Ledger, p: Pending, m: Message, subject: ThreadPart)
    ensures Keeps(s, MaybeAdopted(s, p, m, subject))
  {
  }

  lemma MaybeUnusedKeeps(s: Ledger, p: Pending)
    ensures Keeps(s, if p.workspace.Some? then Unused(s, p.workspace.value) else s)
  {
    if Accounted(s) && p.workspace.Some? {
      UnusedKeeps(s, p.workspace.value);
    }
  }

  lemma KeepsFour(s: Ledger, s1: Ledger, s2: Ledger, s3: Ledger, v: Ledger)
    requires Keeps(s, s1) && Keeps(s1, s2) && Keeps(s2, s3) && Keeps(s3, v)
    ensures Keeps(s, v)
  {
  }

  lemma SettledKeeps(s: Ledger, p: Pending, m: Message, subject: ThreadPart)
    ensures Keeps(s, Settled(s, p, m, subject))
  {
    var failed := m.failed && Given(p.thread) && p.thread !in s.threads;
    var gone := p.verb == "thread/unsubscribe" && m.resultStatus == Some("notLoaded");
    var s1 := MaybeClosed(s, failed, p.thread);
    var s2 := MaybeAdopted(s1, p, m, subject);
    var s3 := MaybeClosed(s2, gone, p.thread);
    MaybeClosedKeeps(s, failed, p.thread);
    MaybeAdoptedKeeps(s1, p, m, subject);
    MaybeClosedKeeps(s2, gone, p.thread);
    MaybeUnusedKeeps(s3, p);
    KeepsFour(s, s1, s2, s3, if p.workspace.Some? then Unused(s3, p.workspace.value) else s3);
  }

  lemma SettledAnchored(s: Ledger, p: Pending, m: Message, subject: ThreadPart)
    requires Anchored(s) && Accounted(s)
    ensures Anchored(Settled(s, p, m, subject)) <==> !(Adopts(p, m, subject) && p.workspace.value !in s.named)
  {
    if Adopts(p, m, subject) {
      AdoptedAnchored(s, p.thread, p.workspace.value);
      var s2 := s.(namedThreads := s.namedThreads[p.thread := p.workspace.value], threads := s.threads + {p.thread});
      assert Settled(s, p, m, subject) == Unused(s2, p.workspace.value) == s2;
    } else {
      ThreadClosedKeeps(s, p.thread);
      var s1 := if m.failed && Given(p.thread) && p.thread !in s.threads then ThreadClosed(s, p.thread) else s;
      ThreadClosedKeeps(s1, p.thread);
      var s3 := if p.verb == "thread/unsubscribe" && m.resultStatus == Some("notLoaded") then ThreadClosed(s1, p.thread) else s1;
      if p.workspace.Some? {
        UnusedKeeps(s3, p.workspace.value);
      }
    }
  }

  /** A message that closes a thread and answers a turn request at once: closing
      the thread lets go of the workspace that the answer then adopts. */
  predicate Tangled(s: Ledger, m: Message) {
    var p := Answers(s, m);
    && p.Some? && Adopts(p.value, m, Subject(s, m)) && Closes(m)
    && m.thread in s.namedThreads && s.namedThreads[m.thread] == p.value.workspace.value
    && !Referenced(s.(pending := s.pending - {Key(m)}, namedThreads := s.namedThreads - {m.thread}), p.value.workspace.value)
  }

  /** The thread's directory is looked up in the registry. */
  predicate Locates(s: Ledger, m: Message, place: Reservation) { Subject(s, m).Complete? && place.Found? }

  lemma MoreThreadsKeeps(s: Ledger, thread: Option<string>)
    requires Anchored(s)
    ensures Anchored(s.(threads := s.threads + {thread}))
  {
    var v := s.(threads := s.threads + {thread});
    forall id | Referenced(v, id)
      ensures id in v.named
    {
      assert InThreads(v, id) <==> InThreads(s, id);
      assert InPending(v, id) <==> InPending(s, id);
    }
  }

  /** The thread that the message is about is reserved for and noted. */
  function Noted(s: Ledger, m: Message, place: Reservation): Ledger
    requires !(Subject(s, m).Complete? && place.Unavailable?)
  {
    var subject := Subject(s, m);
    var s1 := s.(pending := s.pending - {Key(m)});
    var s2 := if Locates(s, m, place) then Reserved(s1, place, Some(subject.id)) else s1;
    if subject.Complete? then s2.(threads := s2.threads + {Some(subject.id)}) else s2
  }

  /** Before the settling of the answered request. */
  function BeforeSettled(s: Ledger, m: Message, place: Reservation): Ledger
    requires !(Subject(s, m).Complete? && place.Unavailable?)
  {
    if Closes(m) then ThreadClosed(Noted(s, m, place), m.thread) else Noted(s, m, place)
  }

  lemma NotedKeeps(s: Ledger, m: Message, place: Reservation)
    requires Anchored(s) && Accounted(s) && !(Subject(s, m).Complete? && place.Unavailable?)
    ensures Anchored(Noted(s, m, place)) && Accounted(Noted(s, m, place))
    ensures Exact(s) ==> (Exact(Noted(s, m, place)) <==> !(Locates(s, m, place) && Leaks(s, place)))
    ensures Visited(s) ==> Visited(Noted(s, m, place))
  {
    var subject := Subject(s, m);
    PoppedKeeps(s, Key(m));
    var s1 := s.(pending := s.pending - {Key(m)});
    if Locates(s, m, place) {
      ReservedKeeps(s1, place, Some(subject.id));
    }
    if subject.Complete? {
      MoreThreadsKeeps(if Locates(s, m, place) then Reserved(s1, place, Some(subject.id)) else s1, Some(subject.id));
    }
  }

  lemma BeforeSettledKeeps(s: Ledger, m: Message, place: Reservation)
    requires Anchored(s) && Accounted(s) && !(Subject(s, m).Complete? && place.Unavailable?)
    ensures Anchored(BeforeSettled(s, m, place)) && Accounted(BeforeSettled(s, m, place))
    ensures Exact(s) ==> (Exact(BeforeSettled(s, m, place)) <==> !(Locates(s, m, place) && Leaks(s, place)))
    ensures Visited(s) ==> Visited(BeforeSettled(s, m, place))
  {
    NotedKeeps(s, m, place);
    ThreadClosedKeeps(Noted(s, m, place), m.thread);
  }

  lemma AdoptsWhatIsNamed(s: Ledger, m: Message, place: Reservation)
    requires Anchored(s) && Accounted(s) && Answers(s, m).Some? && Adopts(Answers(s, m).value, m, Subject(s, m))
    ensures Answers(s, m).value.workspace.value !in BeforeSettled(s, m, place).named <==> Tangled(s, m)
  {
    var id := Answers(s, m).value.workspace.value;
    assert s.pending[Key(m)].workspace == Some(id);
    assert InPending(s, id);
    assert Referenced(s, id);
  }

  /** A failed attach, after the reservation. */
  predicate Unattached(s: Ledger, m: Message, place: Reservation, attached: bool) {
    Locates(s, m, place) && !attached && Some(Subject(s, m).id) !in s.threads
  }

  ghost predicate Verdict(s: Ledger, m: Message, place: Reservation, attached: bool, v: Ledger) {
    && Accounted(v)
    && (Anchored(v) <==> !Tangled(s, m))
    && (Exact(s) ==> (Exact(v) <==> !(Locates(s, m, place) && Leaks(s, place))))
    && (Visited(s) ==> (Visited(v) <==> !Unattached(s, m, place, attached)))
  }

  lemma StoppedVerdict(s: Ledger, m: Message, place: Reservation, attached: bool)
    requires Anchored(s) && Accounted(s) && Subject(s, m).Complete? && (place.Unavailable? || !attached)
    ensures Verdict(s, m, place, attached, AfterResponse(s, m, place, attached).0)
  {
    PoppedKeeps(s, Key(m));
    if place.Found? {
      ReservedKeeps(s.(pending := s.pending - {Key(m)}), place, Some(Subject(s, m).id));
    }
  }

  lemma FinishedVerdict(s: Ledger, m: Message, place: Reservation, attached: bool)
    requires Anchored(s) && Accounted(s) && !(Subject(s, m).Complete? && (place.Unavailable? || !attached))
    ensures var b := BeforeSettled(s, m, place);
            var v := if Answers(s, m).Some? then Settled(b, Answers(s, m).value, m, Subject(s, m)) else b;
            Verdict(s, m, place, attached, v)
  {
    var b := BeforeSettled(s, m, place);
    BeforeSettledKeeps(s, m, place);
    if Answers(s, m).Some? {
      var p := Answers(s, m).value;
      SettledKeeps(b, p, m, Subject(s, m));
      SettledAnchored(b, p, m, Subject(s, m));
      if Adopts(p, m, Subject(s, m)) {
        AdoptsWhatIsNamed(s, m, place);
      }
    }
  }

  /** A message keeps every reference to a named workspace exactly when it is
      not tangled, keeps the held leases named as owned exactly when the registry
      gives no lease for a borrowed workspace, and keeps every thread with a
      workspace visited exactly when no attach fails after its reservation. */
  lemma ResponseKeeps(s: Ledger, m: Message, place: Reservation, attached: bool)
    requires Anchored(s) && Accounted(s)
    ensures var (v, _) := AfterResponse(s, m, place, attached);
            && Accounted(v)
            && (Anchored(v) <==> !Tangled(s, m))
            && (Exact(s) ==> (Exact(v) <==> !(Locates(s, m, place) && Leaks(s, place))))
            && (Visited(s) ==> (Visited(v) <==> !Unattached(s, m, place, attached)))
  {
    if Subject(s, m).Complete? && (place.Unavailable? || !attached) {
      StoppedVerdict(s, m, place, attached);
    } else {
      FinishedVerdict(s, m, place, attached);
    }
  }

  /** Letting go of a workspace touches nothing that could refer to one. */
  predicate SameReferences(s: Ledger, v: Ledger) {
    v.pending == s.pending && v.startup == s.startup && v.threads == s.threads && v.namedThreads == s.namedThreads
  }

  lemma UnusedRefers(s: Ledger, id: string)
    ensures SameReferences(s, Unused(s, id))
  {
  }

  lemma RequestRefused(s: Ledger, r: Request)
    requires !AfterRequest(s, r).1
    ensures SameReferences(s, AfterRequest(s, r).0)
  {
    if Takes(r) {
      UnusedRefers(Reserved(s, r.place, None), r.place.id);
    }
  }

  /** A request is refused exactly when it resumes a thread and one of its two
      checks fails, or when the registry fails for a request that names a place.
      A forwarded one is remembered, with the workspace it was given, exactly when
      its answer will matter. */
  lemma RequestRemembered(s: Ledger, r: Request)
    ensures var (v, forwarded) := AfterRequest(s, r);
            var resumes := r.verb == "thread/resume" || r.verb == "turn/start" || r.verb == "thread/shellCommand";
            var places := resumes || r.verb == "thread/start" || r.verb == "thread/fork";
            var given := if places && r.place.Found? then Some(r.place.id) else None;
            && (forwarded <==> !(resumes && !(r.admitted && r.recorded)) && !(places && r.place.Unavailable?))
            && SameReferences(s.(pending := v.pending), v)
            && (if forwarded && r.id.Some? && (places || r.verb == "thread/unsubscribe") then
                  v.pending == s.pending[r.id.value := Pending(r.verb, r.thread, given)]
                else v.pending == s.pending)
            && (forwarded && given.Some? ==> given.value in v.named)
  {
    if !AfterRequest(s, r).1 {
      RequestRefused(s, r);
    }
  }

  lemma ClosedRefers(s: Ledger, closed: bool, thread: Option<string>)
    ensures MaybeClosed(s, closed, thread).pending == s.pending && MaybeClosed(s, closed, thread).startup == s.startup
  {
  }

  lemma SettledRefers(b: Ledger, p: Pending, m: Message, subject: ThreadPart)
    ensures Settled(b, p, m, subject).pending == b.pending && Settled(b, p, m, subject).startup == b.startup
  {
    var failed := m.failed && Given(p.thread) && p.thread !in b.threads;
    var gone := p.verb == "thread/unsubscribe" && m.resultStatus == Some("notLoaded");
    var s1 := MaybeClosed(b, failed, p.thread);
    var s2 := MaybeAdopted(s1, p, m, subject);
    ClosedRefers(b, failed, p.thread);
    ClosedRefers(s2, gone, p.thread);
    if p.workspace.Some? {
      UnusedRefers(MaybeClosed(s2, gone, p.thread), p.workspace.value);
    }
  }

  lemma BeforeSettledRefers(s: Ledger, m: Message, place: Reservation)
    requires !(Subject(s, m).Complete? && place.Unavailable?)
    ensures BeforeSettled(s, m, place).pending == s.pending - {Key(m)} && BeforeSettled(s, m, place).startup == s.startup
  {
    ClosedRefers(Noted(s, m, place), Closes(m), m.thread);
  }

  /** The answered request is forgotten, whatever becomes of the message, and
      handling stops early exactly when the registry or the attach fails for the
      thread that the message tells of. */
  lemma ResponseForgets(s: Ledger, m: Message, place: Reservation, attached: bool)
    ensures var (v, handled) := AfterResponse(s, m, place, attached);
            && v.pending == s.pending - {if m.id.Some? then m.id.value else "None"} && v.startup == s.startup
            && (handled <==> !(Subject(s, m).Complete? && (place.Unavailable? || !attached)))
  {
    if !(Subject(s, m).Complete? && (place.Unavailable? || !attached)) {
      BeforeSettledRefers(s, m, place);
      if Answers(s, m).Some? {
        SettledRefers(BeforeSettled(s, m, place), Answers(s, m).value, m, Subject(s, m));
      }
    }
  }

  // What a message does to one thread, and which workspaces nobody uses any more.

  /** The native server says that the thread is gone. */
  predicate ClosedByEvent(m: Message, t: Option<string>) {
    m.thread == t && (m.verb == Some("thread/closed") || (m.verb == Some("thread/status/changed") && m.status == Some("notLoaded")))
  }

  predicate IsSubject(s: Ledger, m: Message, t: Option<string>) { Subject(s, m).Complete? && t == Some(Subject(s, m).id) }

  /** The request for a thread that was not known failed. */
  predicate FailedNew(s: Ledger, m: Message, t: Option<string>) {
    var p := Answers(s, m);
    && p.Some? && m.failed && p.value.thread == t && t.Some? && t.value != ""
    && (ClosedByEvent(m, t) || !(t in s.threads || IsSubject(s, m, t)))
  }

  /** An answer without a thread of its own grants a turn in a reserved workspace. */
  predicate TurnGranted(s: Ledger, m: Message, t: Option<string>) {
    var p := Answers(s, m);
    && p.Some? && p.value.thread == t && !m.failed && Subject(s, m).Absent? && p.value.workspace.Some?
    && (p.value.verb == "turn/start" || p.value.verb == "thread/shellCommand")
  }

  predicate Unsubscribed(s: Ledger, m: Message, t: Option<string>) {
    var p := Answers(s, m);
    p.Some? && p.value.thread == t && p.value.verb == "thread/unsubscribe" && m.resultStatus == Some("notLoaded")
  }

  /** The workspace that the thread is tied to. */
  function Tie(s: Ledger, t: Option<string>): Option<string> { if t in s.namedThreads then Some(s.namedThreads[t]) else None }

  lemma ClosedTie(s: Ledger, closed: bool, thread: Option<string>, t: Option<string>)
    ensures var v := MaybeClosed(s, closed, thread);
            && Tie(v, t) == (if closed && thread == t then None else Tie(s, t))
            && (t in v.threads <==> t in s.threads && !(closed && thread == t))
  {
  }

  lemma NotedTie(s: Ledger, m: Message, place: Reservation, t: Option<string>)
    requires !(Subject(s, m).Complete? && place.Unavailable?)
    ensures var v := Noted(s, m, place);
            && Tie(v, t) == (if IsSubject(s, m, t) && place.Found? then Some(place.id) else Tie(s, t))
            && (t in v.threads <==> t in s.threads || IsSubject(s, m, t))
  {
  }

  lemma BeforeSettledTie(s: Ledger, m: Message, place: Reservation, t: Option<string>)
    requires !(Subject(s, m).Complete? && place.Unavailable?)
    ensures var v := BeforeSettled(s, m, place);
            && Tie(v, t) == (if ClosedByEvent(m, t) then None
                             else if IsSubject(s, m, t) && place.Found? then Some(place.id) else Tie(s, t))
            && (t in v.threads <==> !ClosedByEvent(m, t) && (t in s.threads || IsSubject(s, m, t)))
  {
    NotedTie(s, m, place, t);
    ClosedTie(Noted(s, m, place), Closes(m), m.thread, t);
  }

  lemma AdoptedTie(s: Ledger, p: Pending, m: Message, subject: ThreadPart, t: Option<string>)
    ensures var v := MaybeAdopted(s, p, m, subject);
            var adopted := Adopts(p, m, subject) && p.thread == t;
            && Tie(v, t) == (if adopted then p.workspace else Tie(s, t))
            && (t in v.threads <==> adopted || t in s.threads)
  {
  }

  lemma UnusedTie(s: Ledger, id: string, t: Option<string>)
    ensures Tie(Unused(s, id), t) == Tie(s, t) && Unused(s, id).threads == s.threads
  {
  }

  lemma SettledTie(b: Ledger, p: Pending, m: Message, subject: ThreadPart, t: Option<string>)
    ensures var v := Settled(b, p, m, subject);
            var failedNew := m.failed && Given(p.thread) && p.thread !in b.threads && p.thread == t;
            var adopted := Adopts(p, m, subject) && p.thread == t;
            var unsubscribed := p.verb == "thread/unsubscribe" && m.resultStatus == Some("notLoaded") && p.thread == t;
            && Tie(v, t) == (if unsubscribed then None else if adopted then p.workspace else if failedNew then None else Tie(b, t))
            && (t in v.threads <==> !unsubscribed && (adopted || (!failedNew && t in b.threads)))
  {
    var failed := m.failed && Given(p.thread) && p.thread !in b.threads;
    var gone := p.verb == "thread/unsubscribe" && m.resultStatus == Some("notLoaded");
    var s1 := MaybeClosed(b, failed, p.thread);
    var s2 := MaybeAdopted(s1, p, m, subject);
    var s3 := MaybeClosed(s2, gone, p.thread);
    ClosedTie(b, failed, p.thread, t);
    AdoptedTie(s1, p, m, subject, t);
    ClosedTie(s2, gone, p.thread, t);
    if p.workspace.Some? {
      UnusedTie(s3, p.workspace.value, t);
    }
    assert Settled(b, p, m, subject) == if p.workspace.Some? then Unused(s3, p.workspace.value) else s3;
  }

  /** A message that is handled does to each thread what the first of these says
      that applies: an unsubscription ends its tie, a granted turn ties it to the
      reserved workspace, a failed first request or a closing ends its tie, its own
      announcement ties it to the workspace of its directory; and otherwise nothing. */
  lemma ThreadAfterResponse(s: Ledger, m: Message, place: Reservation, attached: bool, t: Option<string>)
    requires AfterResponse(s, m, place, attached).1
    ensures var v := AfterResponse(s, m, place, attached).0;
            if Unsubscribed(s, m, t) then Tie(v, t) == None && t !in v.threads
            else if TurnGranted(s, m, t) then Tie(v, t) == Answers(s, m).value.workspace && t in v.threads
            else if FailedNew(s, m, t) || ClosedByEvent(m, t) then Tie(v, t) == None && t !in v.threads
            else if IsSubject(s, m, t) then
              t in v.threads && Tie(v, t) == if place.Found? then Some(place.id) else Tie(s, t)
            else Tie(v, t) == Tie(s, t) && (t in v.threads <==> t in s.threads)
  {
    BeforeSettledTie(s, m, place, t);
    if Answers(s, m).Some? {
      SettledTie(BeforeSettled(s, m, place), Answers(s, m).value, m, Subject(s, m), t);
    }
  }

  /** Named, and nothing refers to it. */
  predicate Idle(s: Ledger, id: string) { id in s.named && !Referenced(s, id) }

  lemma UnusedIdle(s: Ledger, id: string, other: string)
    ensures Idle(Unused(s, id), other) <==> other != id && Idle(s, other)
  {
    var v := Unused(s, id);
    assert InThreads(v, other) <==> InThreads(s, other);
    assert InPending(v, other) <==> InPending(s, other);
  }

  /** Only the tie of one thread has changed: the others still refer. */
  lemma OtherTies(s: Ledger, v: Ledger, thread: Option<string>, id: string)
    requires forall t :: t != thread ==> Tie(v, t) == Tie(s, t)
    ensures InThreads(s, id) ==> InThreads(v, id) || Tie(s, thread) == Some(id)
  {
    if InThreads(s, id) && Tie(s, thread) != Some(id) {
      var t :| t in s.namedThreads && s.namedThreads[t] == id;
      assert Tie(v, t) == Some(id);
    }
  }

  /** Only one pending request has changed. */
  lemma OtherPending(s: Ledger, v: Ledger, key: string, id: string)
    requires forall k :: k != key && k in s.pending ==> k in v.pending && v.pending[k] == s.pending[k]
    ensures InPending(s, id) ==> InPending(v, id) || (key in s.pending && s.pending[key].workspace == Some(id))
  {
    if InPending(s, id) && !(key in s.pending && s.pending[key].workspace == Some(id)) {
      var k :| k in s.pending && s.pending[k].workspace == Some(id);
      assert k in v.pending && v.pending[k].workspace == Some(id);
    }
  }

  lemma ReservedIdle(s: Ledger, r: Reservation, thread: Option<string>, id: string)
    requires r.Found? && Idle(Reserved(s, r, thread), id)
    ensures Idle(s, id) || (id == r.id && thread.None? && !Referenced(s, id)) || (thread.Some? && Tie(s, thread) == Some(id))
  {
    var v := Reserved(s, r, thread);
    assert InPending(v, id) <==> InPending(s, id);
    OtherTies(s, v, thread, id);
    if thread.Some? {
      assert v.namedThreads[thread] == r.id && InThreads(v, r.id);
    } else {
      assert InThreads(v, id) <==> InThreads(s, id);
    }
  }

  lemma PendingIdle(s: Ledger, key: string, p: Pending, id: string)
    requires Idle(s.(pending := s.pending[key := p]), id)
    ensures p.workspace != Some(id)
    ensures Idle(s, id) || (key in s.pending && s.pending[key].workspace == Some(id))
  {
    var v := s.(pending := s.pending[key := p]);
    assert v.pending[key].workspace == p.workspace;
    assert InThreads(v, id) <==> InThreads(s, id);
    OtherPending(s, v, key, id);
  }

  /** A request leaves a workspace unused only when it is forwarded, and then only
      the one it reserved for itself when it carries no id to be answered under, or
      the one of the request whose id it takes over. */
  lemma RequestLeavesIdle(s: Ledger, r: Request, id: string)
    requires Idle(AfterRequest(s, r).0, id) && !Idle(s, id)
    ensures AfterRequest(s, r).1
    ensures if r.id.None? then Takes(r) && id == r.place.id
            else r.id.value in s.pending && s.pending[r.id.value].workspace == Some(id)
  {
    if Takes(r) {
      var s1 := Reserved(s, r.place, None);
      if !AfterRequest(s, r).1 {
        UnusedIdle(s1, r.place.id, id);
        ReservedIdle(s, r.place, None, id);
      } else if r.id.Some? {
        PendingIdle(s1, r.id.value, Pending(r.verb, r.thread, Some(r.place.id)), id);
        if Idle(s1, id) {
          ReservedIdle(s, r.place, None, id);
        }
      } else {
        ReservedIdle(s, r.place, None, id);
      }
    } else if AfterRequest(s, r).1 && AfterRequest(s, r).0 != s {
      PendingIdle(s, r.id.value, Pending(r.verb, r.thread, None), id);
    }
  }

  lemma ReservedForNothing(s: Ledger, r: Reservation)
    requires r.Found? && Anchored(s)
    ensures var v := Unused(Reserved(s, r, None), r.id);
            && v.pending == s.pending && v.threads == s.threads && v.namedThreads == s.namedThreads && v.startup == s.startup
            && (forall id :: id in v.named ==> id in s.named && v.named[id] == s.named[id])
            && (forall id :: id in s.named && id !in v.named ==> Idle(s, id) && id == r.id)
  {
    var s1 := Reserved(s, r, None);
    assert InThreads(s1, r.id) <==> InThreads(s, r.id);
    assert InPending(s1, r.id) <==> InPending(s, r.id);
    assert Referenced(s, r.id) ==> r.id in s.named;
  }

  /** A refused request changes nothing but lets go of a workspace that was unused. */
  lemma RefusedRequestUndone(s: Ledger, r: Request)
    requires Anchored(s) && !AfterRequest(s, r).1
    ensures var v := AfterRequest(s, r).0;
            && v.pending == s.pending && v.threads == s.threads && v.namedThreads == s.namedThreads && v.startup == s.startup
            && (forall id :: id in v.named ==> id in s.named && v.named[id] == s.named[id])
            && (forall id :: id in s.named && id !in v.named ==> Idle(s, id) && id == r.place.id)
  {
    if Takes(r) {
      ReservedForNothing(s, r.place);
    }
  }

  /** The request that the message answers held the workspace. */
  predicate WasPending(s: Ledger, m: Message, id: string) {
    Answers(s, m).Some? && Answers(s, m).value.workspace == Some(id)
  }

  lemma PoppedIdle(s: Ledger, m: Message, id: string)
    requires Idle(s.(pending := s.pending - {Key(m)}), id)
    ensures Idle(s, id) || WasPending(s, m, id)
  {
    var v := s.(pending := s.pending - {Key(m)});
    assert InThreads(v, id) <==> InThreads(s, id);
    OtherPending(s, v, Key(m), id);
  }

  /** The announced thread was tied to the workspace, and is now tied to another. */
  predicate WasSubjects(s: Ledger, m: Message, place: Reservation, id: string) {
    Locates(s, m, place) && Tie(s, Some(Subject(s, m).id)) == Some(id)
  }

  lemma ThreadsIdle(s: Ledger, thread: Option<string>, id: string)
    ensures Idle(s.(threads := s.threads + {thread}), id) <==> Idle(s, id)
  {
    var v := s.(threads := s.threads + {thread});
    assert InThreads(v, id) <==> InThreads(s, id);
    assert InPending(v, id) <==> InPending(s, id);
  }

  lemma ReservedForIdle(s: Ledger, m: Message, place: Reservation, id: string)
    requires Subject(s, m).Complete? && place.Found?
    requires Idle(Reserved(s.(pending := s.pending - {Key(m)}), place, Some(Subject(s, m).id)), id)
    ensures Idle(s, id) || WasPending(s, m, id) || WasSubjects(s, m, place, id)
  {
    var s1 := s.(pending := s.pending - {Key(m)});
    ReservedIdle(s1, place, Some(Subject(s, m).id), id);
    if Idle(s1, id) {
      PoppedIdle(s, m, id);
    }
  }

  lemma NotedIdle(s: Ledger, m: Message, place: Reservation, id: string)
    requires !(Subject(s, m).Complete? && place.Unavailable?) && Idle(Noted(s, m, place), id)
    ensures Idle(s, id) || WasPending(s, m, id) || WasSubjects(s, m, place, id)
  {
    var s1 := s.(pending := s.pending - {Key(m)});
    var s2 := if Locates(s, m, place) then Reserved(s1, place, Some(Subject(s, m).id)) else s1;
    if Subject(s, m).Complete? {
      ThreadsIdle(s2, Some(Subject(s, m).id), id);
    }
    if Locates(s, m, place) {
      ReservedForIdle(s, m, place, id);
    } else {
      PoppedIdle(s, m, id);
    }
  }

  lemma UntiedIdle(s: Ledger, thread: Option<string>, id: string)
    requires Idle(s.(namedThreads := s.namedThreads - {thread}, threads := s.threads - {thread}), id)
    ensures Idle(s, id) || Tie(s, thread) == Some(id)
  {
    var v := s.(namedThreads := s.namedThreads - {thread}, threads := s.threads - {thread});
    assert InPending(v, id) <==> InPending(s, id);
    OtherTies(s, v, thread, id);
  }

  lemma ClosedIdle(s: Ledger, closed: bool, thread: Option<string>, id: string)
    requires Idle(MaybeClosed(s, closed, thread), id)
    ensures Idle(s, id)
  {
    if closed {
      var s1 := s.(namedThreads := s.namedThreads - {thread}, threads := s.threads - {thread});
      if thread in s.namedThreads {
        UnusedIdle(s1, s.namedThreads[thread], id);
      }
      UntiedIdle(s, thread, id);
    }
  }

  /** The thread was tied to the workspace, and a granted turn ties it to another. */
  predicate WasTurns(s: Ledger, m: Message, id: string) {
    exists t :: t in s.namedThreads && s.namedThreads[t] == id && TurnGranted(s, m, t)
  }

  lemma AdoptedIdle(b: Ledger, p: Pending, m: Message, subject: ThreadPart, id: string)
    requires Idle(MaybeAdopted(b, p, m, subject), id)
    ensures Idle(b, id) || (Adopts(p, m, subject) && Tie(b, p.thread) == Some(id))
  {
    var v := MaybeAdopted(b, p, m, subject);
    assert InPending(v, id) <==> InPending(b, id);
    OtherTies(b, v, p.thread, id);
    if v == b {
      assert Idle(b, id);
    }
  }

  lemma SettledIdle(b: Ledger, p: Pending, m: Message, subject: ThreadPart, id: string)
    requires Idle(Settled(b, p, m, subject), id)
    ensures p.workspace != Some(id)
    ensures Idle(b, id) || (Adopts(p, m, subject) && Tie(b, p.thread) == Some(id))
  {
    var failed := m.failed && Given(p.thread) && p.thread !in b.threads;
    var gone := p.verb == "thread/unsubscribe" && m.resultStatus == Some("notLoaded");
    var s1 := MaybeClosed(b, failed, p.thread);
    var s2 := MaybeAdopted(s1, p, m, subject);
    var s3 := MaybeClosed(s2, gone, p.thread);
    if p.workspace.Some? {
      UnusedIdle(s3, p.workspace.value, id);
    }
    ClosedIdle(s2, gone, p.thread, id);
    AdoptedIdle(s1, p, m, subject, id);
    if Idle(s1, id) {
      ClosedIdle(b, failed, p.thread, id);
    } else {
      assert s1 == b;
    }
  }

  /** A message leaves a workspace unused only so: handling it stopped early and the
      workspace was reserved for the answered request, or a thread that was tied to
      it has been tied to another one. Whatever else loses its last reference is let
      go at once. */
  lemma ResponseLeavesIdle(s: Ledger, m: Message, place: Reservation, attached: bool, id: string)
    requires Idle(AfterResponse(s, m, place, attached).0, id) && !Idle(s, id)
    ensures WasSubjects(s, m, place, id) || (if AfterResponse(s, m, place, attached).1 then WasTurns(s, m, id) else WasPending(s, m, id))
  {
    if !AfterResponse(s, m, place, attached).1 {
      if place.Found? {
        ReservedForIdle(s, m, place, id);
      } else {
        PoppedIdle(s, m, id);
      }
    } else {
      var b := BeforeSettled(s, m, place);
      if Answers(s, m).Some? {
        SettledIdle(b, Answers(s, m).value, m, Subject(s, m), id);
      }
      if Idle(b, id) {
        ClosedIdle(Noted(s, m, place), Closes(m), m.thread, id);
        NotedIdle(s, m, place, id);
      } else {
        BeforeSettledTie(s, m, place, Answers(s, m).value.thread);
        assert TurnGranted(s, m, Answers(s, m).value.thread);
      }
    }
  }

  // Whole runs.

  datatype Step = Ask(r: Request) | Tell(m: Message, place: Reservation, attached: bool)

  function Next(s: Ledger, step: Step): Ledger {
    match step
    case Ask(r) => AfterRequest(s, r).0
    case Tell(m, place, attached) => AfterResponse(s, m, place, attached).0
  }

  function Run(s: Ledger, steps: seq<Step>): Ledger
    decreases |steps|
  {
    if steps == [] then s else Run(Next(s, steps[0]), steps[1..])
  }

  predicate NeverTangled(s: Ledger, steps: seq<Step>)
    decreases |steps|
  {
    steps != [] ==> (steps[0].Tell? ==> !Tangled(s, steps[0].m)) && NeverTangled(Next(s, steps[0]), steps[1..])
  }

  /** A step whose attach fails after its reservation, or that is given a lease
      for a workspace named as borrowed. */
  predicate Astray(s: Ledger, step: Step) {
    match step
    case Ask(r) => Takes(r) && Leaks(s, r.place)
    case Tell(m, place, attached) =>
      (Locates(s, m, place) && Leaks(s, place)) || Unattached(s, m, place, attached)
  }

  predicate NeverAstray(s: Ledger, steps: seq<Step>)
    decreases |steps|
  {
    steps != [] ==> !Astray(s, steps[0]) && NeverAstray(Next(s, steps[0]), steps[1..])
  }

  lemma {:induction false} RunKeeps(s: Ledger, steps: seq<Step>)
    requires Anchored(s) && Accounted(s) && NeverTangled(s, steps)
    ensures Anchored(Run(s, steps)) && Accounted(Run(s, steps))
    ensures Exact(s) && Visited(s) && NeverAstray(s, steps) ==> Exact(Run(s, steps)) && Visited(Run(s, steps))
    decreases |steps|
  {
    if steps != [] {
      match steps[0] {
        case Ask(r) => RequestKeeps(s, r);
        case Tell(m, place, attached) => ResponseKeeps(s, m, place, attached);
      }
      RunKeeps(Next(s, steps[0]), steps[1..]);
    }
  }

  class Lifecycle {
    var pending: map<string, Pending>
    var threads: set<Option<string>>
    var named: map<string, bool>
    var namedThreads: map<Option<string>, string>
    var startup: set<string>
    var held: set<string>
    ghost var acquired: multiset<string>
    ghost var released: multiset<string>

    ghost function State(): Ledger
      reads this
    {
      Ledger(pending, threads, named, namedThreads, startup, held, acquired, released)
    }

    constructor ()
      ensures State() == EMPTY
    {
      pending, threads, named, namedThreads, startup := map[], {}, map[], map[], {};
      held, acquired, released := {}, multiset{}, multiset{};
    }

    method Reserve(place: Reservation, thread: Option<string>) returns (workspace: Option<string>)
      requires !place.Unavailable?
      modifies this
      ensures workspace == if place.Found? then Some(place.id) else None
      ensures State() == if place.Found? then Reserved(old(State()), place, thread) else old(State())
    {
      if place.NoWorkspace? {
        return None;
      }
      var owned := !place.borrowed && place.id !in held;
      if owned {
        held := held + {place.id};
        acquired := acquired + multiset{place.id};
      }
      if place.id !in named {
        named := named[place.id := owned];
      }
      if thread.Some? {
        namedThreads := namedThreads[thread := place.id];
      }
      return Some(place.id);
    }

    /** A lease is released only when nothing refers to its workspace. */
    method ReleaseUnused(id: string)
      modifies this
      ensures State() == Unused(old(State()), id)
      ensures old(Referenced(State(), id)) ==> State() == old(State())
    {
      if id in startup || (exists t :: t in namedThreads && namedThreads[t] == id) {
        return;
      }
      if exists k :: k in pending && pending[k].workspace == Some(id) {
        return;
      }
      if id in named {
        var owned := named[id];
        named := named - {id};
        if owned {
          held := held - {id};
          released := released + multiset{id};
        }
      }
    }

    method ClosedThread(thread: Option<string>)
      modifies this
      ensures State() == ThreadClosed(old(State()), thread)
    {
      var workspace := if thread in namedThreads then Some(namedThreads[thread]) else None;
      namedThreads := namedThreads - {thread};
      threads := threads - {thread};
      if workspace.Some? {
        ReleaseUnused(workspace.value);
      }
    }

    method Request(r: Request) returns (forwarded: bool)
      modifies this
      ensures (State(), forwarded) == AfterRequest(old(State()), r)
    {
      if Resumes(r.verb) && !r.admitted {
        return false;
      }
      var reservation: Option<string> := None;
      if Places(r.verb) {
        if r.place.Unavailable? {
          return false;
        }
        reservation := Reserve(r.place, None);
      }
      if Resumes(r.verb) && !r.recorded {
        if reservation.Some? {
          ReleaseUnused(reservation.value);
        }
        return false;
      }
      if (Places(r.verb) || r.verb == "thread/unsubscribe") && r.id.Some? {
        pending := pending[r.id.value := Pending(r.verb, r.thread, reservation)];
      }
      return true;
    }

    method Response(m: Message, place: Reservation, attached: bool) returns (handled: bool)
      modifies this
      ensures (State(), handled) == AfterResponse(old(State()), m, place, attached)
    {
      var answered := if Key(m) in pending then Some(pending[Key(m)]) else None;
      pending := pending - {Key(m)};
      var subject := if m.verb == Some("thread/started") then m.started else if answered.Some? then m.result else Absent;
      if subject.Complete? {
        if place.Unavailable? {
          return false;
        }
        var _ := Reserve(place, Some(subject.id));
        if !attached {
          return false;
        }
        threads := threads + {Some(subject.id)};
      }
      if Closes(m) {
        ClosedThread(m.thread);
      }
      if answered.Some? {
        Settle(answered.value, m, subject);
      }
      return true;
    }

    method Settle(p: Pending, m: Message, subject: ThreadPart)
      modifies this
      ensures State() == Settled(old(State()), p, m, subject)
    {
      if m.failed && Given(p.thread) && p.thread !in threads {
        ClosedThread(p.thread);
      }
      if Adopts(p, m, subject) {
        namedThreads := namedThreads[p.thread := p.workspace.value];
        threads := threads + {p.thread};
      }
      if p.verb == "thread/unsubscribe" && m.resultStatus == Some("notLoaded") {
        ClosedThread(p.thread);
      }
      if p.workspace.Some? {
        ReleaseUnused(p.workspace.value);
      }
    }

    /** Closing empties the bookkeeping exactly when every thread with a
        workspace is one it visits, and then every lease is released. */
    method Close()
      requires Accounted(State())
      modifies this
      ensures pending == map[] && startup == {} && threads == {} && namedThreads == old(namedThreads) - old(threads)
      ensures Accounted(State()) && acquired == old(acquired)
      ensures old(Anchored(State())) ==> forall id :: id in named <==> InThreads(State(), id)
      ensures old(Anchored(State())) ==> (named == map[] <==> old(Visited(State())))
      ensures old(Anchored(State()) && Visited(State())) ==>
                (held == {} <==> old(Exact(State()))) && (released == acquired <==> old(Exact(State())))
    {
      ghost var was := State();
      pending, startup := map[], {};
      FewerReferences(was, State());
      CloseThreads();
      ReleaseNamed();
      EmptyIffVisited(was, State());
    }

    method CloseThreads()
      requires Accounted(State()) && pending == map[] && startup == {}
      modifies this
      ensures Closing(old(State()), State()) && threads == {} && namedThreads == old(namedThreads) - old(threads)
    {
      ghost var was := State();
      var remaining := threads;
      while remaining != {}
        invariant threads == remaining <= was.threads && namedThreads == was.namedThreads - (was.threads - remaining)
        invariant Closing(was, State())
        decreases remaining
      {
        var thread :| thread in remaining;
        ThreadClosedKeeps(State(), thread);
        CloseLeaves(State(), thread);
        remaining := remaining - {thread};
        ClosedThread(thread);
      }
    }

    method ReleaseNamed()
      requires Accounted(State()) && pending == map[] && startup == {}
      modifies this
      ensures Closing(old(State()), State()) && threads == old(threads) && namedThreads == old(namedThreads)
      ensures forall id :: id in named ==> InThreads(State(), id)
    {
      ghost var was := State();
      var ids := named.Keys;
      while ids != {}
        invariant threads == was.threads && namedThreads == was.namedThreads
        invariant Closing(was, State())
        invariant forall id :: id in named && id !in ids ==> InThreads(was, id)
        decreases ids
      {
        var id :| id in ids;
        UnusedKeeps(State(), id);
        ReleasedOrInThreads(was, State(), id);
        ids := ids - {id};
        ReleaseUnused(id);
      }
      assert forall id :: InThreads(was, id) ==> InThreads(State(), id);
    }
  }

  /** How the ledger may change while closing. */
  ghost predicate Closing(was: Ledger, s: Ledger) {
    && s.pending == map[] && s.startup == {} && s.acquired == was.acquired
    && Accounted(s) && (Anchored(was) ==> Anchored(s)) && (Exact(was) <==> Exact(s))
  }

  lemma ReleasedOrInThreads(was: Ledger, s: Ledger, id: string)
    requires s.pending == map[] && s.startup == {} && s.namedThreads == was.namedThreads
    ensures var v := Unused(s, id);
            && v.pending == map[] && v.startup == {} && v.namedThreads == s.namedThreads && v.threads == s.threads
            && v.acquired == s.acquired && v.named.Keys <= s.named.Keys
            && (id in v.named ==> InThreads(was, id))
  {
    assert !InPending(s, id);
    assert InThreads(s, id) <==> InThreads(was, id);
  }

  lemma FewerReferences(s: Ledger, v: Ledger)
    requires v == s.(pending := map[], startup := {})
    ensures Anchored(s) ==> Anchored(v)
    ensures Exact(s) <==> Exact(v)
    ensures Accounted(s) ==> Accounted(v)
  {
    forall id | Referenced(v, id)
      ensures Referenced(s, id)
    {
      assert InThreads(v, id) <==> InThreads(s, id);
    }
  }

  lemma CloseLeaves(s: Ledger, thread: Option<string>)
    ensures var v := ThreadClosed(s, thread);
            && v.namedThreads == s.namedThreads - {thread} && v.threads == s.threads - {thread}
            && v.pending == s.pending && v.startup == s.startup && v.acquired == s.acquired
  {
  }

  lemma EmptyIffVisited(s: Ledger, v: Ledger)
    requires v.namedThreads == s.namedThreads - s.threads
    requires forall id :: id in v.named ==> InThreads(v, id)
    ensures Anchored(v) ==> forall id :: id in v.named <==> InThreads(v, id)
    ensures Anchored(v) ==> (v.named == map[] <==> Visited(s))
    ensures v.named == map[] && Accounted(v) ==>
              (v.held == {} <==> Exact(v)) && (v.released == v.acquired <==> Exact(v))
  {
    if Anchored(v) {
      assert forall id :: InThreads(v, id) ==> Referenced(v, id);
      if Visited(s) {
        assert v.namedThreads == map[];
        assert forall id :: id !in v.named;
      } else {
        var t :| t in s.namedThreads && t !in s.threads;
        assert v.namedThreads[t] in v.named by {
          assert InThreads(v, v.namedThreads[t]);
        }
      }
    }
  }

  /** After any run without a tangled message, a failed attach or a leak, every
      lease that was acquired is released exactly once by closing. */
  method CloseAfterRun(life: Lifecycle, steps: seq<Step>)
    requires life.State() == Run(EMPTY, steps) && NeverTangled(EMPTY, steps)
    modifies life
    ensures NeverAstray(EMPTY, steps) ==> life.named == map[] && life.held == {} && life.released == old(life.acquired)
  {
    RunKeeps(EMPTY, steps);
    life.Close();
  }

  // The three exceptions happen.

  /** A failed attach after the reservation: the workspace outlives closing. */
  lemma FailedAttachOutlives(m: Message, id: string, thread: string)
    requires m.verb == Some("thread/started") && m.started == Complete(thread)
    ensures var s := Run(EMPTY, [Tell(m, Found(id, false), false)]);
            !Visited(s) && s.held == {id} && s.named == map[id := true] && Anchored(s)
  {
    var only := [Tell(m, Found(id, false), false)];
    var s := Next(EMPTY, only[0]);
    assert only[1..] == [] && Run(EMPTY, only) == Run(s, []) == s;
    ResponseKeeps(EMPTY, m, Found(id, false), false);
    assert Some(thread) in s.namedThreads.Keys;
    assert s.named == map[id := true];
  }

  /** A workspace first borrowed from the parent launch and later leased: the
      lease is held and not named as owned. */
  lemma BorrowedThenOwnedLeaks(id: string)
    ensures var first := Ask(Request("thread/start", None, None, Found(id, true), true, true));
            var second := Ask(Request("thread/start", None, None, Found(id, false), true, true));
            var s := Run(EMPTY, [first, second]);
            s.held == {id} && s.named == map[id := false] && !Exact(s)
  {
    var first := Ask(Request("thread/start", None, None, Found(id, true), true, true));
    var second := Ask(Request("thread/start", None, None, Found(id, false), true, true));
    var s := Next(EMPTY, first);
    assert s.named == map[id := false] && Leaks(s, Found(id, false));
    var v := Next(s, second);
    assert [second][1..] == [] && Run(s, [second]) == Run(v, []) == v;
    assert [first, second][1..] == [second] && Run(EMPTY, [first, second]) == v;
  }

  function Opened(t: string): Message {
    Message(Some("thread/started"), None, false, Absent, None, Complete(t), None, None)
  }

  /** A close notification for a thread that carries the id of its pending turn
      leaves the thread tied to a workspace that was released. */
  lemma TangledReleases(id: string, t: string)
    ensures var closing := Message(Some("thread/closed"), Some("7"), false, Absent, None, Absent, Some(t), None);
            var s := Run(EMPTY, [Tell(Opened(t), Found(id, false), true),
                                 Ask(Request("turn/start", Some("7"), Some(t), Found(id, false), true, true)),
                                 Tell(closing, NoWorkspace, true)]);
            InThreads(s, id) && id !in s.named && s.held == {} && s.released == multiset{id}
  {
    var closing := Message(Some("thread/closed"), Some("7"), false, Absent, None, Absent, Some(t), None);
    var c := Tell(closing, NoWorkspace, true);
    var b := Ask(Request("turn/start", Some("7"), Some(t), Found(id, false), true, true));
    var a := Tell(Opened(t), Found(id, false), true);
    var s1 := Next(EMPTY, a);
    assert s1 == Ledger(map[], {Some(t)}, map[id := true], map[Some(t) := id], {}, {id}, multiset{id}, multiset{});
    var s2 := Next(s1, b);
    var p := Pending("turn/start", Some(t), Some(id));
    assert s2 == s1.(pending := map["7" := p]);
    TangledStep(s2, closing, id, t);
    var s3 := Next(s2, c);
    assert [c][1..] == [] && Run(s2, [c]) == Run(s3, []) == s3;
    assert [b, c][1..] == [c] && Run(s1, [b, c]) == s3;
    assert [a, b, c][1..] == [b, c] && Run(EMPTY, [a, b, c]) == s3;
  }

  lemma TangledStep(s: Ledger, closing: Message, id: string, t: string)
    requires s == Ledger(map["7" := Pending("turn/start", Some(t), Some(id))], {Some(t)}, map[id := true],
                         map[Some(t) := id], {}, {id}, multiset{id}, multiset{})
    requires closing == Message(Some("thread/closed"), Some("7"), false, Absent, None, Absent, Some(t), None)
    ensures var v := AfterResponse(s, closing, NoWorkspace, true).0;
            InThreads(v, id) && id !in v.named && v.held == {} && v.released == multiset{id}
  {
    var p := Pending("turn/start", Some(t), Some(id));
    assert Answers(s, closing) == Some(p);
    var s1 := s.(pending := map[]);
    assert s.pending - {"7"} == map[];
    var s2 := s1.(namedThreads := map[], threads := {});
    assert s1.namedThreads - {Some(t)} == map[] && s1.threads - {Some(t)} == {};
    assert !Referenced(s2, id);
    var s4 := ThreadClosed(s1, Some(t));
    assert s4 == Unused(s2, id);
    assert s4.named == map[] && s4.held == {} && s4.released == multiset{id};
    AdoptedAnchored(s4, Some(t), id);
  }
}
