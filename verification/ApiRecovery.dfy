/**
 No state of the shutdown is a dead end. Callers that are dropped give back what they held: from every
 reachable state, without another step of any present caller, later callers can settle the shutdown.
 */
module ApiRecovery {
  import opened Basics
  import opened ApiShutdown

  predicate ByLater(o: Server, a: Action) {
    a.Advance? ==> a.id >= o.next
  }

  // Some trace leads from `o` to `s` in which nobody who was calling in `o` advances.
  ghost predicate Goes(o: Server, s: Server) {
    && o.next <= s.next
    && exists trace :: s == Run(o, trace) && forall a :: a in trace ==> ByLater(o, a)
  }

  // A path to a state that has the invariant.
  ghost predicate Path(o: Server, s: Server) {
    match s
    case Server(_, _, _, _, _, _, _, _, _, _) => Inv(s) && Goes(o, s)
  }

  lemma GoesNowhere(s: Server)
    ensures Goes(s, s)
  {
    assert s == Run(s, []);
  }

  lemma AdvanceKeepsNext(s: Server, id: nat, ok: bool)
    requires id in s.callers && |s.tasks| == WORKERS
    ensures AdvanceStep(s, id, ok).next == s.next
  {
    match s.callers[id]
    case Media =>
    case Sessions =>
    case Tasks =>
    case Observers =>
    case LockingFiles =>
    case SettlingFiles =>
    case Signalling =>
    case Joining(held, got) =>
    case Waiting(held) =>
  }

  lemma NextGrows(s: Server, a: Action)
    ensures s.next <= Apply(s, a).next
  {
    match a
    case CallShutdown =>
    case CallWait =>
    case Advance(id, ok) => if id in s.callers && |s.tasks| == WORKERS { AdvanceKeepsNext(s, id, ok); }
    case Cancel(_) =>
    case TasksJoin =>
    case WorkerEnds(_, _) =>
    case SettlementEnds(_) =>
  }

  lemma Next(o: Server, s: Server, a: Action) returns (u: Server)
    requires Path(o, s) && ByLater(o, a)
    ensures u == Apply(s, a) && Path(o, u)
  {
    var trace :| s == Run(o, trace) && forall a :: a in trace ==> ByLater(o, a);
    assert (trace + [a])[..|trace|] == trace;
    u := Apply(s, a);
    assert u == Run(o, trace + [a]);
    NextGrows(s, a);
    StepKeeps(s, a);
  }

  // Everyone present is dropped; nothing else changes but the locks.
  lemma CancelAll(o: Server, s: Server) returns (u: Server)
    requires Path(o, s)
    ensures Path(o, u) && u.callers == map[]
    decreases |s.callers.Keys|
  {
    u := s;
    if s.callers.Keys == {} {
      assert s.callers == map[];
    } else {
      var id :| id in s.callers.Keys;
      u := Next(o, s, Cancel(id));
      assert u.callers.Keys == s.callers.Keys - {id};
      u := CancelAll(o, u);
    }
  }

  // Nobody calls, accepted work has joined and all workers have ended.
  ghost predicate Calm(s: Server) {
    match s
    case Server(_, _, _, _, _, _, _, _, _, _) =>
      s.callers == map[] && s.facts.joined && forall i: nat :: i < |s.tasks| ==> !s.tasks[i].handle.Live?
  }

  lemma EndWorkers(o: Server, s: Server, n: nat) returns (u: Server)
    requires Path(o, s) && n <= |s.tasks|
    ensures Path(o, u) && u.callers == s.callers && u.facts == s.facts && |u.tasks| == |s.tasks|
    ensures forall i: nat :: i < n ==> !u.tasks[i].handle.Live?
  {
    u := s;
    if n > 0 {
      u := EndWorkers(o, s, n - 1);
      u := Next(o, u, WorkerEnds(n - 1, true));
    }
  }

  lemma CalmDown(o: Server, s: Server) returns (u: Server)
    requires Path(o, s)
    ensures Path(o, u) && Calm(u)
  {
    u := CancelAll(o, s);
    u := Next(o, u, TasksJoin);
    u := EndWorkers(o, u, |u.tasks|);
  }

  // The one caller there is stands at `stage`; all workers have ended.
  ghost predicate Alone(o: Server, s: Server, id: nat, stage: Stage) {
    match s
    case Server(_, _, _, _, _, _, _, _, _, _) =>
      && id >= o.next && s.callers == map[id := stage] && s.facts.joined
      && forall i: nat :: i < |s.tasks| ==> !s.tasks[i].handle.Live?
  }

  lemma AloneHoldsNoOther(o: Server, s: Server, id: nat, stage: Stage)
    requires Inv(s) && Alone(o, s, id, stage)
    ensures s.filesLock.Some? ==> stage == SettlingFiles
    ensures StageAgrees(s, id, stage)
    ensures forall i: nat :: i < |s.tasks| && s.tasks[i].lock.Some? ==> Holds(s, id, i)
    ensures forall i: nat :: i < |s.tasks| ==> (s.tasks[i].result.Some? <==> s.tasks[i].handle == Taken)
  {
    assert id in s.callers && s.callers[id] == stage;
    forall i: nat | i < |s.tasks|
      ensures (s.tasks[i].lock.Some? ==> Holds(s, id, i)) && (s.tasks[i].result.Some? <==> s.tasks[i].handle == Taken)
    {
      assert TaskAgrees(s, i);
    }
  }

  function Following(stage: Stage): Stage {
    match stage
    case Media => Sessions
    case Sessions => Tasks
    case Tasks => Observers
    case Observers => LockingFiles
    case _ => stage
  }

  predicate Early(stage: Stage) {
    stage.Media? || stage.Sessions? || stage.Tasks? || stage.Observers?
  }

  lemma ProceedShape(s: Server, id: nat, stage: Stage)
    requires s.callers == map[id := stage] && s.facts.joined && |s.tasks| == WORKERS && Early(stage)
    ensures var u := Apply(s, Advance(id, true));
      && u.callers == map[id := Following(stage)] && u.facts.joined && u.tasks == s.tasks && u.pending == s.pending
  {
    match stage
    case Media =>
    case Sessions =>
    case Tasks =>
    case Observers =>
  }

  lemma Proceed(o: Server, s: Server, id: nat, stage: Stage) returns (u: Server)
    requires Path(o, s) && Alone(o, s, id, stage) && Early(stage)
    ensures Path(o, u) && Alone(o, u, id, Following(stage)) && u.pending == s.pending
  {
    ProceedShape(s, id, stage);
    u := Next(o, s, Advance(id, true));
  }

  lemma ReachFiles(o: Server, s: Server) returns (u: Server)
    requires Path(o, s) && Calm(s)
    ensures Path(o, u) && Alone(o, u, s.next, LockingFiles) && u.pending == s.pending
  {
    u := Next(o, s, CallShutdown);
    assert u.callers == map[s.next := Media];
    u := Proceed(o, u, s.next, Media);
    u := Proceed(o, u, s.next, Sessions);
    u := Proceed(o, u, s.next, Tasks);
    u := Proceed(o, u, s.next, Observers);
  }

  lemma LockShape(s: Server, id: nat)
    requires s.callers == map[id := LockingFiles] && s.facts.joined && s.filesLock.None? && |s.tasks| == WORKERS
    ensures var u := Apply(s, Advance(id, true));
      && u.callers == map[id := SettlingFiles] && u.facts == s.facts && u.tasks == s.tasks
      && u.pending == (if s.pending.None? then Some(Running) else s.pending)
  {
  }

  lemma TakeFiles(o: Server, s: Server, id: nat) returns (u: Server)
    requires Path(o, s) && Alone(o, s, id, LockingFiles)
    ensures Path(o, u) && Alone(o, u, id, SettlingFiles) && u.pending.Some? && u.pending.value.Finished?
    ensures s.pending.None? ==> u.pending == Some(Finished(true))
  {
    AloneHoldsNoOther(o, s, id, LockingFiles);
    LockShape(s, id);
    u := Next(o, s, Advance(id, true));
    u := Next(o, u, SettlementEnds(true));
  }

  lemma SettleShape(s: Server, id: nat, ok: bool)
    requires s.callers == map[id := SettlingFiles] && |s.tasks| == WORKERS && s.pending == Some(Finished(ok))
    ensures var u := Apply(s, Advance(id, true));
      && u.callers == (if ok then map[id := Signalling] else map[])
      && u.tasks == s.tasks && u.pending.None? && u.facts.joined == s.facts.joined
  {
  }

  lemma SettleFiles(o: Server, s: Server, id: nat) returns (u: Server)
    requires Path(o, s) && Alone(o, s, id, SettlingFiles) && s.pending.Some? && s.pending.value.Finished?
    ensures Path(o, u) && u.pending.None?
    ensures if s.pending.value.ok then Alone(o, u, id, Signalling) else Calm(u)
  {
    SettleShape(s, id, s.pending.value.ok);
    u := Next(o, s, Advance(id, true));
  }

  // A first caller consumes a settlement left behind; if that one failed, a second caller starts another.
  lemma ReachSignal(o: Server, s: Server) returns (u: Server, id: nat)
    requires Path(o, s) && Calm(s)
    ensures Path(o, u) && Alone(o, u, id, Signalling)
    decreases s.pending.Some?
  {
    id := s.next;
    u := ReachFiles(o, s);
    u := TakeFiles(o, u, id);
    var ok := u.pending.value.ok;
    u := SettleFiles(o, u, id);
    if !ok {
      u, id := ReachSignal(o, u);
    }
  }

  lemma JoinStoredShape(s: Server, id: nat, got: seq<bool>)
    requires s.callers == map[id := Joining(false, got)] && |s.tasks| == WORKERS && |got| < WORKERS
    requires Stored(s.tasks[|got|])
    ensures Apply(s, Advance(id, true))
         == s.(callers := map[id := Joining(false, got + [s.tasks[|got|].result.value])])
  {
    var stage := Joining(false, got + [s.tasks[|got|].result.value]);
    assert s.callers[id := stage] == map[id := stage];
  }

  lemma JoinStored(o: Server, s: Server, id: nat, got: seq<bool>) returns (u: Server)
    requires Path(o, s) && Alone(o, s, id, Joining(false, got)) && |got| < |s.tasks| && Stored(s.tasks[|got|])
    ensures Path(o, u) && Alone(o, u, id, Joining(false, got + [s.tasks[|got|].result.value]))
  {
    JoinStoredShape(s, id, got);
    u := Next(o, s, Advance(id, true));
  }

  lemma JoinLockShape(s: Server, id: nat, got: seq<bool>)
    requires s.callers == map[id := Joining(false, got)] && |s.tasks| == WORKERS && |got| < WORKERS
    requires s.tasks[|got|].lock.None? && s.tasks[|got|].result.None?
    ensures Apply(s, Advance(id, true))
         == s.(callers := map[id := Joining(true, got)], tasks := s.tasks[|got| := s.tasks[|got|].(lock := Some(id))])
  {
    assert s.callers[id := Joining(true, got)] == map[id := Joining(true, got)];
  }

  lemma JoinLocks(o: Server, s: Server, id: nat, got: seq<bool>) returns (u: Server)
    requires Path(o, s) && Alone(o, s, id, Joining(false, got)) && |got| < |s.tasks|
    requires s.tasks[|got|].lock.None? && s.tasks[|got|].result.None?
    ensures Path(o, u) && Alone(o, u, id, Joining(true, got)) && |u.tasks| == |s.tasks|
    ensures u.tasks[|got|].handle == s.tasks[|got|].handle
  {
    JoinLockShape(s, id, got);
    u := Next(o, s, Advance(id, true));
  }

  lemma JoinHeldShape(s: Server, id: nat, got: seq<bool>)
    requires s.callers == map[id := Joining(true, got)] && |s.tasks| == WORKERS && |got| < WORKERS
    requires Outcome(s.tasks[|got|]).Some?
    ensures Apply(s, Advance(id, true)) == s.(
      callers := map[id := Joining(false, got + [Outcome(s.tasks[|got|]).value])],
      tasks := s.tasks[|got| := Consumed(s.tasks[|got|])])
  {
    var stage := Joining(false, got + [Outcome(s.tasks[|got|]).value]);
    assert s.callers[id := stage] == map[id := stage];
  }

  lemma JoinHeld(o: Server, s: Server, id: nat, got: seq<bool>) returns (u: Server)
    requires Path(o, s) && Alone(o, s, id, Joining(true, got)) && |got| < |s.tasks|
    requires Outcome(s.tasks[|got|]).Some?
    ensures Path(o, u) && Alone(o, u, id, Joining(false, got + [Outcome(s.tasks[|got|]).value]))
  {
    JoinHeldShape(s, id, got);
    u := Next(o, s, Advance(id, true));
  }

  lemma JoinWorker(o: Server, s: Server, id: nat, got: seq<bool>) returns (u: Server, joined: bool)
    requires Path(o, s) && Alone(o, s, id, Joining(false, got)) && |got| < WORKERS
    ensures Path(o, u) && Alone(o, u, id, Joining(false, got + [joined]))
  {
    AloneHoldsNoOther(o, s, id, Joining(false, got));
    if s.tasks[|got|].result.Some? {
      joined := s.tasks[|got|].result.value;
      u := JoinStored(o, s, id, got);
    } else {
      var t := JoinLocks(o, s, id, got);
      joined := Outcome(t.tasks[|got|]).value;
      u := JoinHeld(o, t, id, got);
    }
  }

  lemma JoinWorkers(o: Server, s: Server, id: nat, got: seq<bool>) returns (u: Server)
    requires Path(o, s) && Alone(o, s, id, Joining(false, got)) && |got| <= WORKERS
    ensures Goes(o, u) && u.facts.settled
    decreases WORKERS - |got|
  {
    if |got| == WORKERS {
      u := Next(o, s, Advance(id, true));
    } else {
      var t, joined := JoinWorker(o, s, id, got);
      u := JoinWorkers(o, t, id, got + [joined]);
    }
  }

  lemma CanSettle(s: Server) returns (u: Server)
    requires Inv(s)
    ensures Goes(s, u) && u.facts.settled
  {
    GoesNowhere(s);
    u := CalmDown(s, s);
    var id;
    u, id := ReachSignal(s, u);
    u := Next(s, u, Advance(id, true));
    assert u.callers == map[id := Joining(false, [])];
    u := JoinWorkers(s, u, id, []);
  }

  // Cancellation loses nothing that shutdown needs: from every reachable state, however many callers hold
  // locks or wait there, the shutdown can still be settled after all of them were dropped.
  lemma {:induction false} CancellationLosesNothing(s: Server) returns (u: Server)
    requires Reachable(s)
    ensures Goes(s, u) && u.facts.settled
  {
    ReachableHasInv(s);
    u := CanSettle(s);
  }
}
