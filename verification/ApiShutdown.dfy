/**
 The API server's shutdown pipeline under concurrent, failing and cancelled callers. A caller is a
 stage; a lock is held across its await; a cancelled caller disappears and gives its locks back, but
 leaves worker handles and the running file settlement in place.
 */
module ApiShutdown {
  import opened Basics

  // A worker's handle: still running, ended with its own result, or consumed by the caller that joined it.
  datatype Handle = Live | Ended(ok: bool) | Taken

  datatype Task = Task(handle: Handle, result: Option<bool>, lock: Option<nat>)

  datatype Settlement = Running | Finished(ok: bool)

  // What has happened; nothing here is ever undone.
  datatype Facts = Facts(
    media: bool, sessions: bool, joined: bool, observers: bool, files: bool, stopped: bool, settled: bool)

  datatype Stage =
    | Media
    | Sessions
    | Tasks
    | Observers
    | LockingFiles
    | SettlingFiles
    | Signalling
    | Joining(held: bool, got: seq<bool>)   // joining worker |got|
    | Waiting(held: bool)                   // a plain `wait` on the HTTP worker

  datatype Server = Server(
    callers: map<nat, Stage>,
    returned: map<nat, bool>,
    waited: map<nat, bool>,
    next: nat,
    facts: Facts,
    tasks: seq<Task>,
    filesLock: Option<nat>,
    pending: Option<Settlement>,
    spawned: nat,
    consumed: nat)

  const IDLE := Task(Live, None, None)
  const NOTHING := Facts(false, false, false, false, false, false, false)
  // Worker 0 serves HTTP, worker 1 is telemetry, worker 2 the performance rules.
  const WORKERS := 3
  const START := Server(map[], map[], map[], 0, NOTHING, [IDLE, IDLE, IDLE], None, None, 0, 0)

  datatype Action =
    | CallShutdown
    | CallWait
    | Advance(id: nat, ok: bool)    // `ok` decides timeouts and foreign results
    | Cancel(id: nat)
    | TasksJoin
    | WorkerEnds(worker: nat, ok: bool)
    | SettlementEnds(ok: bool)

  function At(s: Server, id: nat, stage: Stage): Server {
    s.(callers := s.callers[id := stage])
  }

  function Return(s: Server, id: nat, ok: bool): Server {
    s.(callers := s.callers - {id}, returned := s.returned[id := ok])
  }

  // ---------------------------------------------------------------- joining one worker

  // `join_owned`: an unlocked caller takes the stored result, or the lock.
  predicate Stored(t: Task) {
    t.lock.None? && t.result.Some?
  }

  function Locked(t: Task, id: nat): Task {
    if t.lock.None? && t.result.None? then t.(lock := Some(id)) else t
  }

  // The lock holder consumes the handle once it has ended; a missing handle is a failure.
  function Outcome(t: Task): Option<bool> {
    match t.handle
    case Live => None
    case Ended(ok) => Some(ok)
    case Taken => Some(false)
  }

  function Consumed(t: Task): Task {
    if Outcome(t).None? then t else Task(Taken, Outcome(t), None)
  }

  function JoinStep(s: Server, id: nat, held: bool, got: seq<bool>): Server
    requires |got| < |s.tasks|
  {
    var i := |got|;
    var t := s.tasks[i];
    if !held then
      if Stored(t) then At(s, id, Joining(false, got + [t.result.value]))
      else if t.lock.None? then At(s, id, Joining(true, got)).(tasks := s.tasks[i := Locked(t, id)])
      else s
    else if Outcome(t).None? then s
    else At(s, id, Joining(false, got + [Outcome(t).value])).(tasks := s.tasks[i := Consumed(t)])
  }

  function WaitStep(s: Server, id: nat, held: bool): Server
    requires |s.tasks| > 0
  {
    var t := s.tasks[0];
    var gone := s.(callers := s.callers - {id});
    if !held then
      if Stored(t) then gone.(waited := s.waited[id := t.result.value])
      else if t.lock.None? then At(s, id, Waiting(true)).(tasks := s.tasks[0 := Locked(t, id)])
      else s
    else if Outcome(t).None? then s
    else gone.(waited := s.waited[id := Outcome(t).value], tasks := s.tasks[0 := Consumed(t)])
  }

  function All(got: seq<bool>): bool {
    forall i :: 0 <= i < |got| ==> got[i]
  }

  // ---------------------------------------------------------------- the file settlement

  function LockFilesStep(s: Server, id: nat): Server {
    if s.filesLock.Some? then s
    else if s.pending.Some? then At(s, id, SettlingFiles).(filesLock := Some(id))
    else if !s.facts.joined then Return(s, id, false)
    else At(s, id, SettlingFiles).(filesLock := Some(id), pending := Some(Running), spawned := s.spawned + 1)
  }

  function SettleFilesStep(s: Server, id: nat): Server {
    match s.pending
    case Some(Finished(ok)) =>
      var u := s.(pending := None, consumed := s.consumed + 1, filesLock := None);
      if ok then At(u, id, Signalling).(facts := s.facts.(files := true)) else Return(u, id, false)
    case _ => s
  }

  function AdvanceStep(s: Server, id: nat, ok: bool): Server
    requires id in s.callers && |s.tasks| == WORKERS
  {
    match s.callers[id]
    case Media => if ok then At(s, id, Sessions).(facts := s.facts.(media := true)) else Return(s, id, false)
    case Sessions => if ok then At(s, id, Tasks).(facts := s.facts.(sessions := true)) else Return(s, id, false)
    case Tasks => if s.facts.joined then At(s, id, Observers) else if ok then s else Return(s, id, false)
    case Observers =>
      if ok then At(s, id, LockingFiles).(facts := s.facts.(observers := true)) else Return(s, id, false)
    case LockingFiles => LockFilesStep(s, id)
    case SettlingFiles => SettleFilesStep(s, id)
    case Signalling => At(s, id, Joining(false, [])).(facts := s.facts.(stopped := true))
    case Joining(held, got) =>
      if |got| < WORKERS then JoinStep(s, id, held, got)
      else Return(s, id, All(got)).(facts := s.facts.(settled := true))
    case Waiting(held) => WaitStep(s, id, held)
  }

  function Unlock(t: Task, id: nat): Task {
    if t.lock == Some(id) then t.(lock := None) else t
  }

  function CancelStep(s: Server, id: nat): Server {
    s.(
      callers := s.callers - {id},
      filesLock := if s.filesLock == Some(id) then None else s.filesLock,
      tasks := seq(|s.tasks|, i requires 0 <= i < |s.tasks| => Unlock(s.tasks[i], id)))
  }

  function Apply(s: Server, a: Action): Server {
    match a
    case CallShutdown => At(s, s.next, Media).(next := s.next + 1)
    case CallWait => At(s, s.next, Waiting(false)).(next := s.next + 1)
    case Advance(id, ok) => if id in s.callers && |s.tasks| == WORKERS then AdvanceStep(s, id, ok) else s
    case Cancel(id) => if id in s.callers then CancelStep(s, id) else s
    case TasksJoin => s.(facts := s.facts.(joined := true))
    case WorkerEnds(i, ok) =>
      if i < |s.tasks| && s.tasks[i].handle.Live?
      then s.(tasks := s.tasks[i := s.tasks[i].(handle := Ended(ok))])
      else s
    case SettlementEnds(ok) => if s.pending == Some(Running) then s.(pending := Some(Finished(ok))) else s
  }

  function Run(s: Server, trace: seq<Action>): Server {
    if trace == [] then s else Apply(Run(s, trace[..|trace| - 1]), trace[|trace| - 1])
  }

  // ---------------------------------------------------------------- the invariant

  predicate Ready(f: Facts) {
    f.media && f.sessions && f.joined && f.observers && f.files
  }

  ghost predicate Holds(s: Server, id: nat, i: nat) {
    id in s.callers && ((s.callers[id].Joining? && s.callers[id].held && |s.callers[id].got| == i)
                        || (i == 0 && s.callers[id] == Waiting(true)))
  }

  ghost predicate GotAgrees(tasks: seq<Task>, got: seq<bool>) {
    |got| <= |tasks| && forall i :: 0 <= i < |got| ==> tasks[i].result == Some(got[i])
  }

  ghost predicate StageAgrees(s: Server, id: nat, stage: Stage) {
    var f := s.facts;
    match stage
    case Media => true
    case Sessions => f.media
    case Tasks => f.media && f.sessions
    case Observers => f.media && f.sessions && f.joined
    case LockingFiles => f.media && f.sessions && f.joined && f.observers
    case SettlingFiles => f.media && f.sessions && f.joined && f.observers && s.filesLock == Some(id)
    case Signalling => Ready(f)
    case Joining(held, got) =>
      Ready(f) && f.stopped && GotAgrees(s.tasks, got)
      && (held ==> |got| < |s.tasks| && s.tasks[|got|].lock == Some(id))
    case Waiting(held) => held ==> |s.tasks| > 0 && s.tasks[0].lock == Some(id)
  }

  ghost predicate TaskAgrees(s: Server, i: nat)
    requires i < |s.tasks|
  {
    var t := s.tasks[i];
    && (t.result.Some? <==> t.handle == Taken)
    && (t.lock.Some? ==> t.result.None? && Holds(s, t.lock.value, i))
  }

  ghost predicate CallersAgree(s: Server) {
    match s
    case Server(_, _, _, _, _, _, _, _, _, _) =>
      && |s.tasks| == WORKERS
      && (forall id :: id in s.callers ==> id < s.next && StageAgrees(s, id, s.callers[id]))
      && (forall i: nat :: i < |s.tasks| ==> TaskAgrees(s, i))
  }

  ghost predicate SettlementAgrees(s: Server) {
    match s
    case Server(_, _, _, _, _, _, _, _, _, _) =>
      && (s.filesLock.Some? ==>
            s.filesLock.value in s.callers && s.callers[s.filesLock.value] == SettlingFiles && s.pending.Some?)
      && s.spawned == s.consumed + (if s.pending.Some? then 1 else 0)
      && (s.spawned > 0 ==> s.facts.joined)
  }

  ghost predicate ResultsAgree(s: Server) {
    match s
    case Server(_, _, _, _, f, _, _, _, _, _) =>
      && (f.stopped ==> Ready(f))
      && (f.settled ==> f.stopped)
      && |s.tasks| == WORKERS
      && (f.settled ==> forall i :: 0 <= i < WORKERS ==> s.tasks[i].result.Some?)
      && (forall id :: id in s.returned && s.returned[id] ==>
            f.settled && forall i :: 0 <= i < WORKERS ==> s.tasks[i].result == Some(true))
      && (forall id :: id in s.waited ==> s.tasks[0].result == Some(s.waited[id]))
  }

  ghost predicate Inv(s: Server) {
    match s
    case Server(_, _, _, _, _, _, _, _, _, _) => CallersAgree(s) && SettlementAgrees(s) && ResultsAgree(s)
  }

  // A caller moves to a stage without a lock while facts only grow.
  lemma MoveKeeps(s: Server, id: nat, stage: Stage, facts: Facts)
    requires Inv(s) && id in s.callers
    requires !s.callers[id].SettlingFiles? && s.callers[id] != Waiting(true)
    requires !(s.callers[id].Joining? && s.callers[id].held)
    requires Grows(s.facts, facts) && (facts.stopped ==> Ready(facts)) && facts.settled == s.facts.settled
    requires !stage.SettlingFiles? && !(stage.Joining? && stage.held) && stage != Waiting(true)
    requires StageAgrees(s.(facts := facts), id, stage)
    ensures Inv(At(s, id, stage).(facts := facts))
  {
    var u := At(s, id, stage).(facts := facts);
    forall k | k in u.callers ensures k < u.next && StageAgrees(u, k, u.callers[k]) {
      if k != id { assert StageAgrees(s, k, s.callers[k]); }
    }
    forall i: nat | i < |u.tasks| ensures TaskAgrees(u, i) {
      assert TaskAgrees(s, i);
    }
  }

  predicate Grows(f: Facts, g: Facts) {
    && (f.media ==> g.media) && (f.sessions ==> g.sessions) && (f.joined ==> g.joined) && (f.observers ==> g.observers)
    && (f.files ==> g.files) && (f.stopped ==> g.stopped) && (f.settled ==> g.settled)
  }

  // A caller without a lock leaves, reporting a failure or a fact that holds.
  lemma ReturnKeeps(s: Server, id: nat, ok: bool, facts: Facts)
    requires Inv(s) && id in s.callers
    requires !s.callers[id].SettlingFiles? && s.callers[id] != Waiting(true)
    requires !(s.callers[id].Joining? && s.callers[id].held)
    requires Grows(s.facts, facts) && (facts.stopped ==> Ready(facts)) && (facts.settled ==> facts.stopped)
    requires facts.settled ==> forall i :: 0 <= i < WORKERS ==> s.tasks[i].result.Some?
    requires ok ==> facts.settled && forall i :: 0 <= i < WORKERS ==> s.tasks[i].result == Some(true)
    ensures Inv(Return(s, id, ok).(facts := facts))
  {
    var u := Return(s, id, ok).(facts := facts);
    forall k | k in u.callers ensures k < u.next && StageAgrees(u, k, u.callers[k]) {
      assert StageAgrees(s, k, s.callers[k]);
    }
    forall i: nat | i < |u.tasks| ensures TaskAgrees(u, i) {
      assert TaskAgrees(s, i);
    }
  }

  lemma LockTaskKeeps(s: Server, id: nat, i: nat, stage: Stage)
    requires Inv(s) && id in s.callers && i < WORKERS && s.tasks[i].lock.None? && s.tasks[i].result.None?
    requires (s.callers[id].Joining? && !s.callers[id].held && |s.callers[id].got| == i
              && stage == Joining(true, s.callers[id].got))
             || (i == 0 && s.callers[id] == Waiting(false) && stage == Waiting(true))
    ensures Inv(At(s, id, stage).(tasks := s.tasks[i := s.tasks[i].(lock := Some(id))]))
  {
    var u := At(s, id, stage).(tasks := s.tasks[i := s.tasks[i].(lock := Some(id))]);
    forall k | k in u.callers ensures k < u.next && StageAgrees(u, k, u.callers[k]) {
      assert StageAgrees(s, k, s.callers[k]);
    }
    forall j: nat | j < |u.tasks| ensures TaskAgrees(u, j) {
      assert TaskAgrees(s, j);
    }
  }

  // The lock holder consumes an ended handle: its result is stored once, for everybody.
  lemma ConsumeJoinKeeps(s: Server, id: nat, i: nat)
    requires Inv(s) && i < WORKERS && id in s.callers && Outcome(s.tasks[i]).Some?
    requires s.callers[id].Joining? && s.callers[id].held && |s.callers[id].got| == i
    ensures Inv(At(s, id, Joining(false, s.callers[id].got + [Outcome(s.tasks[i]).value])).(
                  tasks := s.tasks[i := Consumed(s.tasks[i])]))
  {
    var u := At(s, id, Joining(false, s.callers[id].got + [Outcome(s.tasks[i]).value])).(
      tasks := s.tasks[i := Consumed(s.tasks[i])]);
    assert StageAgrees(s, id, s.callers[id]) && TaskAgrees(s, i);
    forall k | k in u.callers ensures k < u.next && StageAgrees(u, k, u.callers[k]) {
      assert StageAgrees(s, k, s.callers[k]);
    }
    forall j: nat | j < |u.tasks| ensures TaskAgrees(u, j) {
      assert TaskAgrees(s, j);
    }
  }

  lemma ConsumeWaitKeeps(s: Server, id: nat)
    requires Inv(s) && id in s.callers && s.callers[id] == Waiting(true) && Outcome(s.tasks[0]).Some?
    ensures Inv(s.(callers := s.callers - {id}, waited := s.waited[id := Outcome(s.tasks[0]).value],
                   tasks := s.tasks[0 := Consumed(s.tasks[0])]))
  {
    var u := s.(callers := s.callers - {id}, waited := s.waited[id := Outcome(s.tasks[0]).value],
                tasks := s.tasks[0 := Consumed(s.tasks[0])]);
    assert StageAgrees(s, id, s.callers[id]) && TaskAgrees(s, 0);
    forall k | k in u.callers ensures k < u.next && StageAgrees(u, k, u.callers[k]) {
      assert StageAgrees(s, k, s.callers[k]);
    }
    forall j: nat | j < |u.tasks| ensures TaskAgrees(u, j) {
      assert TaskAgrees(s, j);
    }
  }

  lemma JoinKeeps(s: Server, id: nat, held: bool, got: seq<bool>)
    requires Inv(s) && id in s.callers && s.callers[id] == Joining(held, got) && |got| < WORKERS
    ensures Inv(JoinStep(s, id, held, got))
  {
    var i := |got|;
    assert StageAgrees(s, id, s.callers[id]) && TaskAgrees(s, i);
    if !held {
      if Stored(s.tasks[i]) {
        MoveKeeps(s, id, Joining(false, got + [s.tasks[i].result.value]), s.facts);
      } else if s.tasks[i].lock.None? {
        LockTaskKeeps(s, id, i, Joining(true, got));
      }
    } else if Outcome(s.tasks[i]).Some? {
      ConsumeJoinKeeps(s, id, i);
    }
  }

  lemma WaitKeeps(s: Server, id: nat, held: bool)
    requires Inv(s) && id in s.callers && s.callers[id] == Waiting(held)
    ensures Inv(WaitStep(s, id, held))
  {
    assert StageAgrees(s, id, s.callers[id]) && TaskAgrees(s, 0);
    var u := WaitStep(s, id, held);
    if !held && Stored(s.tasks[0]) {
      forall k | k in u.callers ensures k < u.next && StageAgrees(u, k, u.callers[k]) {
        assert StageAgrees(s, k, s.callers[k]);
      }
      forall j: nat | j < |u.tasks| ensures TaskAgrees(u, j) {
        assert TaskAgrees(s, j);
      }
    } else if !held && s.tasks[0].lock.None? {
      LockTaskKeeps(s, id, 0, Waiting(true));
    } else if held && Outcome(s.tasks[0]).Some? {
      ConsumeWaitKeeps(s, id);
    }
  }

  lemma OwnFilesKeeps(s: Server, id: nat, spawn: bool)
    requires Inv(s) && id in s.callers && s.callers[id].LockingFiles? && s.filesLock.None?
    requires spawn <==> s.pending.None?
    requires spawn ==> s.facts.joined
    ensures Inv(At(s, id, SettlingFiles).(
                  filesLock := Some(id),
                  pending := if spawn then Some(Running) else s.pending,
                  spawned := s.spawned + (if spawn then 1 else 0)))
  {
    assert StageAgrees(s, id, s.callers[id]);
    var u := At(s, id, SettlingFiles).(
      filesLock := Some(id),
      pending := if spawn then Some(Running) else s.pending,
      spawned := s.spawned + (if spawn then 1 else 0));
    forall k | k in u.callers ensures k < u.next && StageAgrees(u, k, u.callers[k]) {
      assert StageAgrees(s, k, s.callers[k]);
    }
    forall j: nat | j < |u.tasks| ensures TaskAgrees(u, j) {
      assert TaskAgrees(s, j);
    }
  }

  lemma LockFilesKeeps(s: Server, id: nat)
    requires Inv(s) && id in s.callers && s.callers[id].LockingFiles?
    ensures Inv(LockFilesStep(s, id))
  {
    if s.filesLock.None? {
      if s.pending.Some? {
        OwnFilesKeeps(s, id, false);
      } else if s.facts.joined {
        OwnFilesKeeps(s, id, true);
      } else {
        ReturnKeeps(s, id, false, s.facts);
      }
    }
  }

  lemma FilesSettleKeeps(s: Server, id: nat, ok: bool, u: Server)
    requires Inv(s) && id in s.callers && s.callers[id].SettlingFiles? && s.pending.Some?
    requires var v := s.(pending := None, consumed := s.consumed + 1, filesLock := None);
      u == if ok then At(v, id, Signalling).(facts := s.facts.(files := true)) else Return(v, id, false)
    ensures Inv(u)
  {
    assert StageAgrees(s, id, s.callers[id]);
    forall k | k in u.callers ensures k < u.next && StageAgrees(u, k, u.callers[k]) {
      assert StageAgrees(s, k, s.callers[k]);
    }
    forall j: nat | j < |u.tasks| ensures TaskAgrees(u, j) {
      assert TaskAgrees(s, j);
    }
  }

  lemma SettleFilesKeeps(s: Server, id: nat)
    requires Inv(s) && id in s.callers && s.callers[id].SettlingFiles?
    ensures Inv(SettleFilesStep(s, id))
  {
    match s.pending
    case Some(Finished(ok)) => FilesSettleKeeps(s, id, ok, SettleFilesStep(s, id));
    case _ =>
  }

  lemma EffectKeeps(s: Server, id: nat, ok: bool, stage: Stage, facts: Facts)
    requires Inv(s) && id in s.callers
    requires var now := s.callers[id]; now.Media? || now.Sessions? || now.Tasks? || now.Observers?
    requires stage.Sessions? || stage.Tasks? || stage.Observers? || stage.LockingFiles?
    requires Grows(s.facts, facts) && facts.stopped == s.facts.stopped && facts.settled == s.facts.settled
    requires StageAgrees(s.(facts := facts), id, stage)
    ensures Inv(At(s, id, stage).(facts := facts)) && Inv(Return(s, id, false))
  {
    MoveKeeps(s, id, stage, facts);
    ReturnKeeps(s, id, false, s.facts);
    assert Return(s, id, false).(facts := s.facts) == Return(s, id, false);
  }

  lemma EarlyStageKeeps(s: Server, id: nat, ok: bool)
    requires Inv(s) && id in s.callers
    requires var stage := s.callers[id]; stage.Media? || stage.Sessions? || stage.Tasks? || stage.Observers?
    ensures Inv(AdvanceStep(s, id, ok))
  {
    var f := s.facts;
    assert StageAgrees(s, id, s.callers[id]);
    match s.callers[id]
    case Media => EffectKeeps(s, id, ok, Sessions, f.(media := true));
    case Sessions => EffectKeeps(s, id, ok, Tasks, f.(sessions := true));
    case Tasks => if f.joined { EffectKeeps(s, id, ok, Observers, f); } else { ReturnKeeps(s, id, false, f); }
    case Observers => EffectKeeps(s, id, ok, LockingFiles, f.(observers := true));
  }

  lemma LastStageKeeps(s: Server, id: nat, got: seq<bool>)
    requires Inv(s) && id in s.callers && s.callers[id] == Joining(false, got) && |got| == WORKERS
    ensures Inv(Return(s, id, All(got)).(facts := s.facts.(settled := true)))
  {
    assert StageAgrees(s, id, s.callers[id]) && GotAgrees(s.tasks, got);
    ReturnKeeps(s, id, All(got), s.facts.(settled := true));
  }

  lemma AdvanceKeeps(s: Server, id: nat, ok: bool)
    requires Inv(s) && id in s.callers
    ensures Inv(AdvanceStep(s, id, ok))
  {
    match s.callers[id]
    case LockingFiles => LockFilesKeeps(s, id);
    case SettlingFiles => SettleFilesKeeps(s, id);
    case Signalling =>
      assert StageAgrees(s, id, s.callers[id]);
      MoveKeeps(s, id, Joining(false, []), s.facts.(stopped := true));
    case Joining(held, got) =>
      assert StageAgrees(s, id, s.callers[id]);
      if |got| < WORKERS { JoinKeeps(s, id, held, got); } else { LastStageKeeps(s, id, got); }
    case Waiting(held) => WaitKeeps(s, id, held);
    case Media => EarlyStageKeeps(s, id, ok);
    case Sessions => EarlyStageKeeps(s, id, ok);
    case Tasks => EarlyStageKeeps(s, id, ok);
    case Observers => EarlyStageKeeps(s, id, ok);
  }

  lemma CancelKeeps(s: Server, id: nat)
    requires Inv(s) && id in s.callers
    ensures Inv(CancelStep(s, id))
  {
    var u := CancelStep(s, id);
    forall k | k in u.callers ensures k < u.next && StageAgrees(u, k, u.callers[k]) {
      assert StageAgrees(s, k, s.callers[k]);
    }
    forall j: nat | j < |u.tasks| ensures TaskAgrees(u, j) {
      assert TaskAgrees(s, j);
    }
  }

  lemma CallKeeps(s: Server, stage: Stage)
    requires Inv(s) && (stage == Media || stage == Waiting(false))
    ensures Inv(At(s, s.next, stage).(next := s.next + 1))
  {
    var u := At(s, s.next, stage).(next := s.next + 1);
    forall k | k in u.callers ensures k < u.next && StageAgrees(u, k, u.callers[k]) {
      assert k in s.callers ==> StageAgrees(s, k, s.callers[k]);
    }
    forall j: nat | j < |u.tasks| ensures TaskAgrees(u, j) {
      assert TaskAgrees(s, j);
    }
  }

  lemma TasksJoinKeeps(s: Server)
    requires Inv(s)
    ensures Inv(Apply(s, TasksJoin))
  {
    var u := Apply(s, TasksJoin);
    forall k | k in u.callers ensures k < u.next && StageAgrees(u, k, u.callers[k]) {
      assert StageAgrees(s, k, s.callers[k]);
    }
    forall j: nat | j < |u.tasks| ensures TaskAgrees(u, j) {
      assert TaskAgrees(s, j);
    }
  }

  lemma WorkerEndsKeeps(s: Server, i: nat, ok: bool)
    requires Inv(s)
    ensures Inv(Apply(s, WorkerEnds(i, ok)))
  {
    if i < |s.tasks| && s.tasks[i].handle.Live? {
      EndedKeeps(s, i, ok);
    }
  }

  lemma EndedKeeps(s: Server, i: nat, ok: bool)
    requires Inv(s) && i < |s.tasks| && s.tasks[i].handle.Live?
    ensures Inv(s.(tasks := s.tasks[i := s.tasks[i].(handle := Ended(ok))]))
  {
    var u := s.(tasks := s.tasks[i := s.tasks[i].(handle := Ended(ok))]);
    forall k | k in u.callers ensures k < u.next && StageAgrees(u, k, u.callers[k]) {
      assert StageAgrees(s, k, s.callers[k]);
    }
    forall j: nat | j < |u.tasks| ensures TaskAgrees(u, j) {
      assert TaskAgrees(s, j);
    }
  }

  lemma SettlementEndsKeeps(s: Server, ok: bool)
    requires Inv(s)
    ensures Inv(Apply(s, SettlementEnds(ok)))
  {
    var u := Apply(s, SettlementEnds(ok));
    forall k | k in u.callers ensures k < u.next && StageAgrees(u, k, u.callers[k]) {
      assert StageAgrees(s, k, s.callers[k]);
    }
    forall j: nat | j < |u.tasks| ensures TaskAgrees(u, j) {
      assert TaskAgrees(s, j);
    }
  }

  lemma StepKeeps(s: Server, a: Action)
    requires Inv(s)
    ensures Inv(Apply(s, a))
  {
    match a
    case Advance(id, ok) => if id in s.callers { AdvanceKeeps(s, id, ok); }
    case Cancel(id) => if id in s.callers { CancelKeeps(s, id); }
    case CallShutdown => CallKeeps(s, Media);
    case CallWait => CallKeeps(s, Waiting(false));
    case TasksJoin => TasksJoinKeeps(s);
    case WorkerEnds(i, ok) => WorkerEndsKeeps(s, i, ok);
    case SettlementEnds(ok) => SettlementEndsKeeps(s, ok);
  }

  lemma {:induction false} RunKeeps(s: Server, trace: seq<Action>)
    requires Inv(s)
    ensures Inv(Run(s, trace))
  {
    if trace != [] {
      RunKeeps(s, trace[..|trace| - 1]);
      StepKeeps(Run(s, trace[..|trace| - 1]), trace[|trace| - 1]);
    }
  }

  // ---------------------------------------------------------------- the theorems

  ghost predicate Reachable(s: Server) {
    exists trace :: s == Run(START, trace)
  }

  lemma ReachableHasInv(s: Server)
    requires Reachable(s)
    ensures Inv(s)
  {
    var trace :| s == Run(START, trace);
    RunKeeps(START, trace);
  }

  // A handle is gone exactly when its result is stored.
  lemma TakenMeansStored(s: Server)
    requires Inv(s)
    ensures forall i :: 0 <= i < |s.tasks| ==> (s.tasks[i].result.Some? <==> s.tasks[i].handle == Taken)
  {
    forall i | 0 <= i < |s.tasks| ensures s.tasks[i].result.Some? <==> s.tasks[i].handle == Taken {
      assert TaskAgrees(s, i);
    }
  }

  // HTTP is told to stop only after media, games, tasks, observers and files have settled; settlement
  // of the shutdown means all three workers were joined. Racing and cancelled callers included.
  lemma {:induction false} StopComesLast(s: Server)
    requires Reachable(s)
    ensures var f := s.facts;
      && |s.tasks| == WORKERS
      && (f.stopped ==> f.media && f.sessions && f.joined && f.observers && f.files)
      && (f.settled ==> f.stopped)
      && (f.settled ==> forall i :: 0 <= i < WORKERS ==> s.tasks[i].handle == Taken && s.tasks[i].result.Some?)
  {
    ReachableHasInv(s);
    TakenMeansStored(s);
  }

  // One settlement at a time; one is started only when none is left unconsumed, and only after the
  // task owner has joined.
  lemma {:induction false} OneSettlementAtATime(s: Server)
    requires Reachable(s)
    ensures
      && s.consumed <= s.spawned <= s.consumed + 1
      && (s.pending.Some? <==> s.spawned == s.consumed + 1)
      && (s.spawned > 0 ==> s.facts.joined)
  {
    ReachableHasInv(s);
  }

  lemma SettlementStartsOnlyWhenConsumed(s: Server, a: Action)
    requires Inv(s) && Apply(s, a).spawned != s.spawned
    ensures s.pending.None? && s.consumed == s.spawned && Apply(s, a).spawned == s.spawned + 1 && s.facts.joined
  {
    if a.Advance? {
      match s.callers[a.id]
      case LockingFiles =>
      case SettlingFiles =>
      case Joining(held, got) =>
      case Waiting(held) =>
      case _ =>
    }
  }

  ghost predicate ResultsKept(s: Server, u: Server) {
    match s
    case Server(_, _, _, _, _, _, _, _, _, _) =>
      && Grows(s.facts, u.facts)
      && |u.tasks| == |s.tasks|
      && forall i :: 0 <= i < |s.tasks| ==>
           && (s.tasks[i].result.Some? ==> u.tasks[i].result == s.tasks[i].result)
           && (s.tasks[i].handle == Taken ==> u.tasks[i].handle == Taken)
  }

  lemma JoinKeepsResults(s: Server, id: nat, held: bool, got: seq<bool>)
    requires Inv(s) && id in s.callers && s.callers[id] == Joining(held, got) && |got| < WORKERS
    ensures ResultsKept(s, JoinStep(s, id, held, got))
  {
    assert StageAgrees(s, id, s.callers[id]) && TaskAgrees(s, |got|);
    TakenMeansStored(s);
  }

  lemma WaitKeepsResults(s: Server, id: nat, held: bool)
    requires Inv(s) && id in s.callers && s.callers[id] == Waiting(held)
    ensures ResultsKept(s, WaitStep(s, id, held))
  {
    assert StageAgrees(s, id, s.callers[id]) && TaskAgrees(s, 0);
    TakenMeansStored(s);
  }

  lemma EarlyKeepsResults(s: Server, id: nat, ok: bool)
    requires id in s.callers && |s.tasks| == WORKERS
    requires var stage := s.callers[id]; stage.Media? || stage.Sessions? || stage.Tasks? || stage.Observers?
    ensures ResultsKept(s, AdvanceStep(s, id, ok))
  {
    match s.callers[id]
    case Media =>
    case Sessions =>
    case Tasks =>
    case Observers =>
  }

  lemma LockFilesKeepsResults(s: Server, id: nat)
    ensures ResultsKept(s, LockFilesStep(s, id))
  {
    assert LockFilesStep(s, id).facts == s.facts && LockFilesStep(s, id).tasks == s.tasks;
  }

  lemma SettleFilesKeepsResults(s: Server, id: nat)
    ensures ResultsKept(s, SettleFilesStep(s, id))
  {
    match s.pending
    case None =>
    case Some(Running) =>
    case Some(Finished(ok)) => assert SettleFilesStep(s, id).facts == s.facts.(files := s.facts.files || ok);
  }

  lemma AdvanceKeepsResults(s: Server, id: nat, ok: bool)
    requires Inv(s) && id in s.callers
    ensures ResultsKept(s, AdvanceStep(s, id, ok))
  {
    match s.callers[id]
    case Joining(held, got) => if |got| < WORKERS { JoinKeepsResults(s, id, held, got); }
    case Waiting(held) => WaitKeepsResults(s, id, held);
    case LockingFiles => LockFilesKeepsResults(s, id);
    case SettlingFiles => SettleFilesKeepsResults(s, id);
    case Signalling =>
    case Media => EarlyKeepsResults(s, id, ok);
    case Sessions => EarlyKeepsResults(s, id, ok);
    case Tasks => EarlyKeepsResults(s, id, ok);
    case Observers => EarlyKeepsResults(s, id, ok);
  }

  lemma StepKeepsResults(s: Server, a: Action)
    requires Inv(s)
    ensures ResultsKept(s, Apply(s, a))
  {
    match a
    case Advance(id, ok) => if id in s.callers { AdvanceKeepsResults(s, id, ok); }
    case WorkerEnds(_, _) => TakenMeansStored(s);
    case Cancel(id) =>
    case _ =>
  }

  // A worker's handle is consumed once: from then on its result is the one every caller is given.
  lemma {:induction false} ResultsAreFinal(s: Server, trace: seq<Action>)
    requires Inv(s)
    ensures Inv(Run(s, trace)) && ResultsKept(s, Run(s, trace))
  {
    RunKeeps(s, trace);
    if trace != [] {
      var prefix := trace[..|trace| - 1];
      ResultsAreFinal(s, prefix);
      StepKeepsResults(Run(s, prefix), trace[|trace| - 1]);
    }
  }

  // Every waiter is told the HTTP worker's one stored result, every shutdown caller has got each worker's
  // stored result, and success is reported only after settlement in which all three ended well.
  lemma {:induction false} CallersAreToldTheTruth(s: Server)
    requires Reachable(s)
    ensures
      && |s.tasks| == WORKERS
      && (forall id :: id in s.waited ==> s.tasks[0].result == Some(s.waited[id]))
      && (forall id :: id in s.callers && s.callers[id].Joining? ==>
            && |s.callers[id].got| <= WORKERS
            && forall i :: 0 <= i < |s.callers[id].got| ==> s.tasks[i].result == Some(s.callers[id].got[i]))
      && (forall id :: id in s.returned && s.returned[id] ==>
            s.facts.settled && forall i :: 0 <= i < WORKERS ==> s.tasks[i].result == Some(true))
  {
    ReachableHasInv(s);
    forall id | id in s.callers && s.callers[id].Joining? ensures GotAgrees(s.tasks, s.callers[id].got) {
      assert StageAgrees(s, id, s.callers[id]);
    }
  }

  // A caller that has reached the last step reports the conjunction of the stored results, and with it
  // the shutdown is settled even when a worker had failed.
  lemma LastStepReportsAll(s: Server, id: nat, ok: bool)
    requires Inv(s) && id in s.callers && s.callers[id].Joining? && |s.callers[id].got| == WORKERS
    ensures var u := Apply(s, Advance(id, ok));
      && u.facts.settled && id in u.returned
      && (u.returned[id] <==> forall i :: 0 <= i < WORKERS ==> s.tasks[i].result == Some(true))
  {
    assert StageAgrees(s, id, s.callers[id]);
  }
}
