/** Which process owns a saved thread: leases in the thread records. */
module ThreadLeases {
  import opened Wrappers

  /** A process id with the start time read for it, when it could be read. */
  datatype Lease = Lease(pid: nat, start: Option<nat>)

  /** The running processes and their start times, where readable. */
  type Processes = map<nat, Option<nat>>

  predicate Alive(lease: Lease, running: Processes) {
    lease.start.Some? && lease.pid in running && running[lease.pid] == lease.start
  }

  /** The leases that a rewrite keeps: alive and not the writer's own. */
  function Kept(leases: seq<Lease>, running: Processes, own: Lease): (kept: seq<Lease>)
    ensures forall item :: item in kept <==> item in leases && Alive(item, running) && item != own
    ensures kept != [] ==> kept[0] in leases && Alive(kept[0], running) && kept[0] != own
  {
    if leases == [] then []
    else
      var rest := Kept(leases[1..], running, own);
      if Alive(leases[0], running) && leases[0] != own then [leases[0]] + rest else rest
  }

  predicate AttachRefused(leases: seq<Lease>, running: Processes, own: Lease) {
    exists item :: item in leases && Alive(item, running) && item != own
  }

  predicate ResumeRefused(leases: seq<Lease>, running: Processes, own: Lease) {
    exists item :: item in leases && Alive(item, running) && item.pid != own.pid
  }

  function Saved(records: map<string, seq<Lease>>, thread: string): seq<Lease> {
    if thread in records then records[thread] else []
  }

  function Rewritten(records: map<string, seq<Lease>>, thread: string, own: Lease, running: Processes): map<string, seq<Lease>> {
    records[thread := Kept(Saved(records, thread), running, own) + [own]]
  }

  /** A process may end between the check and the rewrite, so each operation
      reads the process table twice. `accepted`: the workspace and the profile of
      the record are the expected ones. */
  function Attached(records: map<string, seq<Lease>>, thread: string, own: Lease, checked: Processes, rewritten: Processes,
                    accepted: bool): (map<string, seq<Lease>>, bool)
  {
    if !accepted || AttachRefused(Saved(records, thread), checked, own) then (records, false)
    else (Rewritten(records, thread, own, rewritten), true)
  }

  /** A thread without a record is resumed as it is. */
  function Resumed(records: map<string, seq<Lease>>, thread: string, own: Lease, checked: Processes, rewritten: Processes,
                   accepted: bool): (map<string, seq<Lease>>, bool)
  {
    if thread !in records then (records, true)
    else if !accepted || ResumeRefused(records[thread], checked, own) then (records, false)
    else (Rewritten(records, thread, own, rewritten), true)
  }

  function Closed(records: map<string, seq<Lease>>, thread: string, own: Lease, running: Processes): map<string, seq<Lease>> {
    if thread in records then records[thread := Kept(records[thread], running, own)] else records
  }

  /** The records of one state home. */
  class ThreadRecords {
    var leases: map<string, seq<Lease>>

    constructor (saved: map<string, seq<Lease>>)
      ensures leases == saved
    {
      leases := saved;
    }

    method Attach(thread: string, own: Lease, checked: Processes, rewritten: Processes, accepted: bool) returns (attached: bool)
      modifies this
      ensures (leases, attached) == Attached(old(leases), thread, own, checked, rewritten, accepted)
      ensures attached && NoneRevives(Saved(old(leases), thread), checked, rewritten) ==> leases == old(leases)[thread := [own]]
    {
      if !accepted {
        return false;
      }
      var saved := Saved(leases, thread);
      if exists item :: item in saved && Alive(item, checked) && item != own {
        return false;
      }
      if NoneRevives(saved, checked, rewritten) {
        NothingKept(saved, checked, rewritten, own);
        assert Kept(saved, rewritten, own) + [own] == [own];
      }
      leases := leases[thread := Kept(saved, rewritten, own) + [own]];
      return true;
    }

    /** The second, locked check of a resumed thread; `own` is the caller's. */
    method Resume(thread: string, own: Lease, checked: Processes, rewritten: Processes, accepted: bool) returns (resumed: bool)
      requires own.pid in checked && checked[own.pid] == own.start
      modifies this
      ensures (leases, resumed) == Resumed(old(leases), thread, own, checked, rewritten, accepted)
      ensures resumed && thread in old(leases) && NoneRevives(old(leases)[thread], checked, rewritten) ==>
                leases == old(leases)[thread := [own]]
    {
      if thread !in leases {
        return true;
      }
      if !accepted {
        return false;
      }
      var saved := leases[thread];
      if exists item :: item in saved && Alive(item, checked) && item.pid != own.pid {
        return false;
      }
      if NoneRevives(saved, checked, rewritten) {
        RefusalsAgree(saved, checked, own);
        NothingKept(saved, checked, rewritten, own);
        assert Kept(saved, rewritten, own) + [own] == [own];
      }
      leases := leases[thread := Kept(saved, rewritten, own) + [own]];
      return true;
    }

    method CloseThread(thread: string, own: Lease, running: Processes)
      modifies this
      ensures leases == Closed(old(leases), thread, own, running)
    {
      if thread in leases {
        leases := leases[thread := Kept(leases[thread], running, own)];
      }
    }
  }

  /** No saved lease comes back to life between two readings. */
  predicate NoneRevives(leases: seq<Lease>, checked: Processes, rewritten: Processes) {
    forall item :: item in leases && Alive(item, rewritten) ==> Alive(item, checked)
  }

  lemma NothingKept(leases: seq<Lease>, checked: Processes, rewritten: Processes, own: Lease)
    requires NoneRevives(leases, checked, rewritten) && !AttachRefused(leases, checked, own)
    ensures Kept(leases, rewritten, own) == []
  {
  }

  /** The two refusals agree for a running caller: a live lease of its process
      id is its own lease. */
  lemma RefusalsAgree(leases: seq<Lease>, running: Processes, own: Lease)
    requires own.pid in running && running[own.pid] == own.start
    ensures AttachRefused(leases, running, own) <==> ResumeRefused(leases, running, own)
  {
    if AttachRefused(leases, running, own) {
      var item :| item in leases && Alive(item, running) && item != own;
      assert item.pid != own.pid;
    }
  }

  // Any number of processes.

  /** `used` holds the leases of all readable processes so far; `holders` who
      was given which thread. */
  datatype World = World(
    running: Processes, used: set<Lease>, records: map<string, seq<Lease>>, holders: set<(nat, string)>)

  datatype Step =
    | Spawn(pid: nat, start: Option<nat>)
    | Exit(pid: nat)
    | Attach(pid: nat, thread: string, accepted: bool, ended: set<nat>)
    | Resume(pid: nat, thread: string, accepted: bool, ended: set<nat>)
    | CloseThread(pid: nat, thread: string)

  function Own(w: World, pid: nat): Lease
    requires pid in w.running
  {
    Lease(pid, w.running[pid])
  }

  function Ended(w: World, pids: set<nat>): World {
    w.(running := w.running - pids, holders := set h | h in w.holders && h.0 !in pids)
  }

  function Written(w: World, pid: nat, thread: string, ended: set<nat>): World
    requires pid in w.running && pid !in ended
  {
    var v := Ended(w, ended);
    v.(records := Rewritten(w.records, thread, Own(w, pid), v.running), holders := v.holders + {(pid, thread)})
  }

  /** The processes in `ended` end between the check and the rewrite. */
  function Next(w: World, step: Step): World {
    match step
    case Spawn(pid, start) =>
      if pid in w.running || Lease(pid, start) in w.used then w
      else w.(running := w.running[pid := start], used := w.used + if start.Some? then {Lease(pid, start)} else {})
    case Exit(pid) => Ended(w, {pid})
    case Attach(pid, thread, accepted, ended) =>
      if pid !in w.running || pid in ended then w
      else
        var (records, attached) := Attached(w.records, thread, Own(w, pid), w.running, w.running - ended, accepted);
        if attached then Ended(w, ended).(records := records, holders := Ended(w, ended).holders + {(pid, thread)}) else w
    case Resume(pid, thread, accepted, ended) =>
      if pid !in w.running || pid in ended || thread !in w.records then w
      else
        var (records, resumed) := Resumed(w.records, thread, Own(w, pid), w.running, w.running - ended, accepted);
        if resumed then Ended(w, ended).(records := records, holders := Ended(w, ended).holders + {(pid, thread)}) else w
    case CloseThread(pid, thread) =>
      if pid !in w.running then w
      else w.(records := Closed(w.records, thread, Own(w, pid), w.running), holders := w.holders - {(pid, thread)})
  }

  function Run(w: World, steps: seq<Step>): World
    decreases |steps|
  {
    if steps == [] then w else Run(Next(w, steps[0]), steps[1..])
  }

  predicate OneAlive(leases: seq<Lease>, running: Processes) {
    forall i, j :: 0 <= i < |leases| && 0 <= j < |leases| && Alive(leases[i], running) && Alive(leases[j], running) ==> i == j
  }

  predicate AllUsed(leases: seq<Lease>, used: set<Lease>) {
    forall item :: item in leases && item.start.Some? ==> item in used
  }

  /** A holder whose start time is readable has its lease in the record. */
  predicate HolderOk(w: World, pid: nat, thread: string) {
    pid in w.running && (w.running[pid].Some? ==> Own(w, pid) in Saved(w.records, thread))
  }

  /** A live lease in a record belongs to a holder. */
  predicate LiveHeld(leases: seq<Lease>, thread: string, running: Processes, holders: set<(nat, string)>) {
    forall item :: item in leases && Alive(item, running) ==> (item.pid, thread) in holders
  }

  predicate RecordOk(w: World, thread: string)
    requires thread in w.records
  {
    && OneAlive(w.records[thread], w.running) && AllUsed(w.records[thread], w.used)
    && LiveHeld(w.records[thread], thread, w.running, w.holders)
  }

  ghost predicate Inv(w: World) {
    && (forall pid :: pid in w.running && w.running[pid].Some? ==> Own(w, pid) in w.used)
    && (forall thread :: thread in w.records ==> RecordOk(w, thread))
    && (forall h :: h in w.holders ==> HolderOk(w, h.0, h.1))
  }

  lemma SpawnKeepsInv(w: World, step: Step)
    requires Inv(w) && step.Spawn?
    ensures Inv(Next(w, step))
  {
    var v := Next(w, step);
    forall thread | thread in v.records
      ensures RecordOk(v, thread)
    {
      assert RecordOk(w, thread);
      forall item | item in w.records[thread] && Alive(item, v.running)
        ensures Alive(item, w.running)
      {
      }
    }
    forall h | h in v.holders
      ensures HolderOk(v, h.0, h.1)
    {
      assert HolderOk(w, h.0, h.1);
    }
  }

  lemma EndedKeepsInv(w: World, pids: set<nat>)
    requires Inv(w)
    ensures Inv(Ended(w, pids))
  {
    var v := Ended(w, pids);
    forall thread | thread in v.records
      ensures RecordOk(v, thread)
    {
      assert RecordOk(w, thread);
    }
    forall h | h in v.holders
      ensures HolderOk(v, h.0, h.1)
    {
      assert HolderOk(w, h.0, h.1);
    }
  }

  lemma WrittenIsOwn(w: World, pid: nat, thread: string, ended: set<nat>)
    requires pid in w.running && pid !in ended && !AttachRefused(Saved(w.records, thread), w.running, Own(w, pid))
    ensures Written(w, pid, thread, ended).records == w.records[thread := [Own(w, pid)]]
  {
    var running := Ended(w, ended).running;
    NothingKept(Saved(w.records, thread), w.running, running, Own(w, pid));
    assert Kept(Saved(w.records, thread), running, Own(w, pid)) + [Own(w, pid)] == [Own(w, pid)];
  }

  /** A process that is given a thread is the only one that may hold it, among
      those whose start time is readable. */
  lemma WrittenKeepsInv(w: World, pid: nat, thread: string, ended: set<nat>)
    requires Inv(w) && pid in w.running && pid !in ended && !AttachRefused(Saved(w.records, thread), w.running, Own(w, pid))
    ensures Inv(Written(w, pid, thread, ended))
  {
    WrittenIsOwn(w, pid, thread, ended);
    EndedKeepsInv(w, ended);
    var u := Ended(w, ended);
    var v := Written(w, pid, thread, ended);
    forall other | other in v.records
      ensures RecordOk(v, other)
    {
      if other != thread {
        assert RecordOk(u, other);
      }
    }
    forall h | h in v.holders
      ensures HolderOk(v, h.0, h.1)
    {
      if h != (pid, thread) {
        assert HolderOk(u, h.0, h.1);
        if h.1 == thread && w.running[h.0].Some? {
          assert HolderOk(w, h.0, h.1);
          assert Alive(Own(w, h.0), w.running);
        }
      }
    }
  }

  lemma KeptKeeps(leases: seq<Lease>, running: Processes, own: Lease, used: set<Lease>)
    requires OneAlive(leases, running) && AllUsed(leases, used)
    ensures OneAlive(Kept(leases, running, own), running) && AllUsed(Kept(leases, running, own), used)
  {
    if leases != [] {
      forall i, j | 0 <= i < |leases[1..]| && 0 <= j < |leases[1..]| && Alive(leases[1..][i], running) && Alive(leases[1..][j], running)
        ensures i == j
      {
        assert leases[1..][i] == leases[i + 1] && leases[1..][j] == leases[j + 1];
      }
      assert OneAlive(leases[1..], running);
      KeptKeeps(leases[1..], running, own, used);
      if Alive(leases[0], running) {
        forall item | item in leases[1..]
          ensures !Alive(item, running)
        {
          var j :| 0 < j < |leases| && leases[j] == item;
        }
      }
    }
  }

  lemma CloseKeepsInv(w: World, pid: nat, thread: string)
    requires Inv(w)
    ensures Inv(Next(w, CloseThread(pid, thread)))
  {
    var v := Next(w, CloseThread(pid, thread));
    if pid in w.running {
      forall other | other in v.records
        ensures RecordOk(v, other)
      {
        assert RecordOk(w, other);
        if other == thread {
          KeptKeeps(w.records[thread], w.running, Own(w, pid), w.used);
        }
      }
      forall h | h in v.holders
        ensures HolderOk(v, h.0, h.1)
      {
        assert HolderOk(w, h.0, h.1);
      }
    }
  }

  lemma StepKeepsInv(w: World, step: Step)
    requires Inv(w)
    ensures Inv(Next(w, step))
  {
    match step
    case Spawn(_, _) => SpawnKeepsInv(w, step);
    case Exit(pid) => EndedKeepsInv(w, {pid});
    case Attach(pid, thread, _, ended) =>
      if Next(w, step) != w {
        WrittenKeepsInv(w, pid, thread, ended);
      }
    case Resume(pid, thread, _, ended) =>
      if Next(w, step) != w {
        RefusalsAgree(w.records[thread], w.running, Own(w, pid));
        WrittenKeepsInv(w, pid, thread, ended);
      }
    case CloseThread(pid, thread) => CloseKeepsInv(w, pid, thread);
  }

  lemma {:induction false} RunKeepsInv(w: World, steps: seq<Step>)
    requires Inv(w)
    ensures Inv(Run(w, steps))
    decreases |steps|
  {
    if steps != [] {
      StepKeepsInv(w, steps[0]);
      RunKeepsInv(Next(w, steps[0]), steps[1..]);
    }
  }

  /** Records as earlier processes left them, all of which have ended. */
  function Start(records: map<string, seq<Lease>>, used: set<Lease>): World { World(map[], used, records, {}) }

  lemma StartKeepsInv(records: map<string, seq<Lease>>, used: set<Lease>)
    requires forall thread :: thread in records ==> AllUsed(records[thread], used)
    ensures Inv(Start(records, used))
  {
  }

  /** Over any processes that start, attach, resume, close and end, each record
      has at most one live lease. */
  lemma OneLiveLease(records: map<string, seq<Lease>>, used: set<Lease>, steps: seq<Step>, thread: string)
    requires forall other :: other in records ==> AllUsed(records[other], used)
    ensures var w := Run(Start(records, used), steps); OneAlive(Saved(w.records, thread), w.running)
  {
    StartKeepsInv(records, used);
    RunKeepsInv(Start(records, used), steps);
  }

  /** In every run at most one running process with a readable start time holds
      a thread. */
  lemma OneHolder(records: map<string, seq<Lease>>, used: set<Lease>, steps: seq<Step>, thread: string, p: nat, q: nat)
    requires forall other :: other in records ==> AllUsed(records[other], used)
    requires var v := Run(Start(records, used), steps);
             && (p, thread) in v.holders && (q, thread) in v.holders
             && p in v.running && q in v.running && v.running[p].Some? && v.running[q].Some?
    ensures p == q
  {
    StartKeepsInv(records, used);
    RunKeepsInv(Start(records, used), steps);
    var v := Run(Start(records, used), steps);
    assert HolderOk(v, p, thread) && HolderOk(v, q, thread);
    var i :| 0 <= i < |Saved(v.records, thread)| && Saved(v.records, thread)[i] == Own(v, p);
    var j :| 0 <= j < |Saved(v.records, thread)| && Saved(v.records, thread)[j] == Own(v, q);
    assert OneAlive(v.records[thread], v.running);
  }

  /** A running process whose start time is readable, other than `q`, holds the
      thread. */
  predicate Protected(w: World, thread: string, q: nat) {
    exists h :: h in w.holders && h.1 == thread && h.0 != q && h.0 in w.running && w.running[h.0].Some?
  }

  /** In every run, a thread is refused to a running process exactly when another
      running process holds it and has a readable start time. */
  lemma RefusedIffProtected(records: map<string, seq<Lease>>, used: set<Lease>, steps: seq<Step>, thread: string, q: nat)
    requires forall other :: other in records ==> AllUsed(records[other], used)
    requires q in Run(Start(records, used), steps).running
    ensures var w := Run(Start(records, used), steps);
            AttachRefused(Saved(w.records, thread), w.running, Own(w, q)) <==> Protected(w, thread, q)
  {
    StartKeepsInv(records, used);
    RunKeepsInv(Start(records, used), steps);
    var w := Run(Start(records, used), steps);
    if AttachRefused(Saved(w.records, thread), w.running, Own(w, q)) {
      var item :| item in Saved(w.records, thread) && Alive(item, w.running) && item != Own(w, q);
      assert RecordOk(w, thread);
      assert (item.pid, thread) in w.holders;
    }
    if Protected(w, thread, q) {
      var h :| h in w.holders && h.1 == thread && h.0 != q && h.0 in w.running && w.running[h.0].Some?;
      assert HolderOk(w, h.0, h.1);
      assert Alive(Own(w, h.0), w.running);
    }
  }

  /** The thread is `q`'s: the record holds its one lease and it is a holder. */
  predicate Given(w: World, v: World, thread: string, q: nat, ended: set<nat>)
    requires q in w.running
  {
    && v.records == w.records[thread := [Lease(q, w.running[q])]]
    && v.running == w.running - ended
    && v.holders == (set h | h in w.holders && h.0 !in ended) + {(q, thread)}
  }

  /** In every run a running process that asks for a thread is given it exactly when
      its record is acceptable and no other running process with a readable start
      time holds it, and otherwise nothing changes; likewise for a thread that is
      resumed and has a record. */
  lemma GivenIff(records: map<string, seq<Lease>>, used: set<Lease>, steps: seq<Step>, thread: string, q: nat,
                 accepted: bool, ended: set<nat>)
    requires forall other :: other in records ==> AllUsed(records[other], used)
    requires q in Run(Start(records, used), steps).running && q !in ended
    ensures var w := Run(Start(records, used), steps);
            var attached := Next(w, Attach(q, thread, accepted, ended));
            var resumed := Next(w, Resume(q, thread, accepted, ended));
            var may := accepted && !Protected(w, thread, q);
            && (if may then Given(w, attached, thread, q, ended) else attached == w)
            && (if may && thread in w.records then Given(w, resumed, thread, q, ended) else resumed == w)
  {
    var w := Run(Start(records, used), steps);
    RefusedIffProtected(records, used, steps, thread, q);
    if accepted && !Protected(w, thread, q) {
      WrittenIsOwn(w, q, thread, ended);
    }
    if thread in w.records {
      RefusalsAgree(w.records[thread], w.running, Own(w, q));
    }
  }

  /** Closing a thread takes the process's own lease out of the record and keeps
      every lease of another process that runs. */
  lemma ClosedGivesUp(w: World, q: nat, thread: string)
    requires q in w.running
    ensures var v := Next(w, CloseThread(q, thread));
            && v.running == w.running && (thread in v.records <==> thread in w.records)
            && v.holders == w.holders - {(q, thread)}
            && (forall other :: other in w.records && other != thread ==> v.records[other] == w.records[other])
            && (thread in w.records ==> forall item :: item in v.records[thread] <==>
                  item in w.records[thread] && item != Lease(q, w.running[q])
                  && item.start.Some? && item.pid in w.running && w.running[item.pid] == item.start)
  {
  }

  /** Without a readable start time a process is never seen as alive: another one
      is given its thread while it still runs. */
  lemma UnreadableIsEvicted(thread: string, p: nat, q: nat)
    requires p != q
    ensures var v := Run(Start(map[], {}), [Spawn(p, None), Attach(p, thread, true, {}),
                                             Spawn(q, Some(1)), Attach(q, thread, true, {})]);
            {p, q} <= v.running.Keys && (p, thread) in v.holders && (q, thread) in v.holders
  {
    var s3 := [Attach(q, thread, true, {})];
    var s2 := [Spawn(q, Some(1))] + s3;
    var s1 := [Attach(p, thread, true, {})] + s2;
    var s0 := [Spawn(p, None)] + s1;
    assert s0 == [Spawn(p, None), Attach(p, thread, true, {}), Spawn(q, Some(1)), Attach(q, thread, true, {})];
    var w0 := Start(map[], {});
    var w1 := Next(w0, s0[0]);
    WrittenIsOwn(w1, p, thread, {});
    var w2 := Next(w1, s1[0]);
    assert Saved(w2.records, thread) == [Lease(p, None)];
    var w3 := Next(w2, s2[0]);
    WrittenIsOwn(w3, q, thread, {});
    var w4 := Next(w3, s3[0]);
    assert s3[1..] == [] && Run(w3, s3) == Run(w4, []) == w4;
    assert s2[1..] == s3 && Run(w2, s2) == w4;
    assert s1[1..] == s2 && Run(w1, s1) == w4;
    assert s0[1..] == s1 && Run(w0, s0) == w4;
  }
}
