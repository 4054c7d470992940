/**
 What the callers of the shutdown are told, traced back to what really happened: the results of the
 workers, of the file settlement and of the effects, as the actions of the run reported them.
 */
module ApiResults {
  import opened Basics
  import opened ApiShutdown

  // ---------------------------------------------------------------- what a worker ended with

  // What the first end of worker `i` in the first `n` actions was.
  function EndOf(trace: seq<Action>, n: nat, i: nat): Option<bool>
    requires n <= |trace|
  {
    if n == 0 then None
    else if EndOf(trace, n - 1, i).Some? then EndOf(trace, n - 1, i)
    else EndNow(trace[n - 1], i)
  }

  function EndNow(a: Action, i: nat): Option<bool> {
    match a
    case WorkerEnds(worker, ok) => if worker == i then Some(ok) else None
    case _ => None
  }

  function Later(ended: Option<bool>, a: Action, i: nat): Option<bool> {
    if ended.Some? then ended else EndNow(a, i)
  }

  // A worker's slot agrees with what it ended with.
  predicate SlotAgrees(t: Task, ended: Option<bool>) {
    match t.handle
    case Live => ended == None && t.result == None
    case Ended(ok) => ended == Some(ok) && t.result == None
    case Taken => ended.Some? && t.result == ended
  }

  ghost predicate SlotsAgree(s: Server, ended: seq<Option<bool>>) {
    match s
    case Server(_, _, _, _, _, tasks, _, _, _, _) =>
      |tasks| == |ended| && forall i :: 0 <= i < |tasks| ==> SlotAgrees(tasks[i], ended[i])
  }

  // The same slots up to locks.
  ghost predicate SameSlots(s: Server, u: Server) {
    && |u.tasks| == |s.tasks|
    && forall i :: 0 <= i < |s.tasks| ==>
         u.tasks[i].handle == s.tasks[i].handle && u.tasks[i].result == s.tasks[i].result
  }

  // One slot takes its result out of an ended handle.
  ghost predicate TakesSlot(s: Server, u: Server, i: nat) {
    && |u.tasks| == |s.tasks| && i < |s.tasks| && s.tasks[i].handle.Ended?
    && u.tasks[i].handle == Taken && u.tasks[i].result == Some(s.tasks[i].handle.ok)
    && forall j :: 0 <= j < |s.tasks| && j != i ==>
         u.tasks[j].handle == s.tasks[j].handle && u.tasks[j].result == s.tasks[j].result
  }

  lemma JoinMovesSlots(s: Server, id: nat, held: bool, got: seq<bool>)
    requires Inv(s) && id in s.callers && s.callers[id] == Joining(held, got) && |got| < WORKERS
    ensures SameSlots(s, JoinStep(s, id, held, got)) || TakesSlot(s, JoinStep(s, id, held, got), |got|)
  {
    assert StageAgrees(s, id, s.callers[id]) && TaskAgrees(s, |got|);
  }

  lemma WaitMovesSlots(s: Server, id: nat, held: bool)
    requires Inv(s) && id in s.callers && s.callers[id] == Waiting(held)
    ensures SameSlots(s, WaitStep(s, id, held)) || TakesSlot(s, WaitStep(s, id, held), 0)
  {
    assert StageAgrees(s, id, s.callers[id]) && TaskAgrees(s, 0);
  }

  lemma SettlementKeepsSlots(s: Server, id: nat)
    ensures SameSlots(s, LockFilesStep(s, id)) && SameSlots(s, SettleFilesStep(s, id))
  {
    assert LockFilesStep(s, id).tasks == s.tasks;
    match s.pending
    case None =>
    case Some(Running) =>
    case Some(Finished(ok)) => assert SettleFilesStep(s, id).tasks == s.tasks;
  }

  // A worker's slot changes only by being emptied of what the worker ended with.
  ghost predicate SlotsMove(s: Server, u: Server) {
    SameSlots(s, u) || exists i :: TakesSlot(s, u, i)
  }

  lemma AdvanceMovesSlots(s: Server, id: nat, ok: bool)
    requires Inv(s) && id in s.callers
    ensures SlotsMove(s, AdvanceStep(s, id, ok))
  {
    match s.callers[id]
    case Media =>
    case Sessions =>
    case Tasks =>
    case Observers =>
    case LockingFiles => SettlementKeepsSlots(s, id);
    case SettlingFiles => SettlementKeepsSlots(s, id);
    case Signalling =>
    case Joining(held, got) => if |got| < WORKERS { JoinMovesSlots(s, id, held, got); }
    case Waiting(held) => WaitMovesSlots(s, id, held);
  }

  function AllLater(ended: seq<Option<bool>>, a: Action): (later: seq<Option<bool>>)
    ensures |later| == |ended|
    ensures forall i :: 0 <= i < |ended| ==> later[i] == Later(ended[i], a, i)
  {
    seq(|ended|, i requires 0 <= i < |ended| => Later(ended[i], a, i))
  }

  lemma MovedAgree(s: Server, u: Server, ended: seq<Option<bool>>)
    requires SlotsAgree(s, ended) && SlotsMove(s, u)
    ensures SlotsAgree(u, ended)
  {
    if i :| TakesSlot(s, u, i) {
      forall j | 0 <= j < |u.tasks| ensures SlotAgrees(u.tasks[j], ended[j]) {
        assert SlotAgrees(s.tasks[j], ended[j]);
      }
    } else {
      forall j | 0 <= j < |u.tasks| ensures SlotAgrees(u.tasks[j], ended[j]) {
        assert SlotAgrees(s.tasks[j], ended[j]);
      }
    }
  }

  lemma EndAgrees(s: Server, worker: nat, ok: bool, ended: seq<Option<bool>>)
    requires SlotsAgree(s, ended)
    ensures SlotsAgree(Apply(s, WorkerEnds(worker, ok)), AllLater(ended, WorkerEnds(worker, ok)))
  {
    var u := Apply(s, WorkerEnds(worker, ok));
    forall j | 0 <= j < |u.tasks| ensures SlotAgrees(u.tasks[j], AllLater(ended, WorkerEnds(worker, ok))[j]) {
      assert SlotAgrees(s.tasks[j], ended[j]);
    }
  }

  lemma StepAgrees(s: Server, a: Action, ended: seq<Option<bool>>)
    requires Inv(s) && SlotsAgree(s, ended)
    ensures SlotsAgree(Apply(s, a), AllLater(ended, a))
  {
    match a
    case WorkerEnds(worker, ok) => EndAgrees(s, worker, ok, ended);
    case Advance(id, ok) =>
      assert AllLater(ended, a) == ended;
      if id in s.callers {
        AdvanceMovesSlots(s, id, ok);
        MovedAgree(s, Apply(s, a), ended);
      }
    case CallShutdown => assert AllLater(ended, a) == ended;
    case CallWait => assert AllLater(ended, a) == ended;
    case Cancel(_) =>
      assert AllLater(ended, a) == ended;
      MovedAgree(s, Apply(s, a), ended);
    case TasksJoin => assert AllLater(ended, a) == ended;
    case SettlementEnds(_) => assert AllLater(ended, a) == ended;
  }

  // The state after the first `n` actions of a run.
  function StateAt(trace: seq<Action>, n: nat): Server
    requires n <= |trace|
  {
    Run(START, trace[..n])
  }

  lemma StateSucc(trace: seq<Action>, n: nat)
    requires n < |trace|
    ensures StateAt(trace, n + 1) == Apply(StateAt(trace, n), trace[n])
    ensures Inv(StateAt(trace, n)) && Inv(StateAt(trace, n + 1))
  {
    assert trace[..n + 1][..n] == trace[..n];
    assert Reachable(StateAt(trace, n)) && Reachable(StateAt(trace, n + 1));
    ReachableHasInv(StateAt(trace, n));
    ReachableHasInv(StateAt(trace, n + 1));
  }

  function Ends(trace: seq<Action>, n: nat): (ended: seq<Option<bool>>)
    requires n <= |trace|
    ensures |ended| == WORKERS && forall i :: 0 <= i < WORKERS ==> ended[i] == EndOf(trace, n, i)
  {
    seq(WORKERS, i requires 0 <= i < WORKERS => EndOf(trace, n, i))
  }

  // All three workers have ended, and ended well.
  ghost predicate AllEndedWell(trace: seq<Action>, n: nat)
    requires n <= |trace|
  {
    forall i :: 0 <= i < WORKERS ==> EndOf(trace, n, i) == Some(true)
  }

  lemma WellIsWell(trace: seq<Action>, n: nat)
    requires n <= |trace|
    ensures AllEndedWell(trace, n) <==> forall i :: 0 <= i < WORKERS ==> Ends(trace, n)[i] == Some(true)
  {
    assert Ends(trace, n)[0] == EndOf(trace, n, 0);
    assert Ends(trace, n)[1] == EndOf(trace, n, 1);
    assert Ends(trace, n)[2] == EndOf(trace, n, 2);
  }

  lemma {:induction false} RunAgrees(trace: seq<Action>, n: nat)
    requires n <= |trace|
    ensures SlotsAgree(StateAt(trace, n), Ends(trace, n))
  {
    if n > 0 {
      RunAgrees(trace, n - 1);
      StateSucc(trace, n - 1);
      StepAgrees(StateAt(trace, n - 1), trace[n - 1], Ends(trace, n - 1));
      assert AllLater(Ends(trace, n - 1), trace[n - 1]) == Ends(trace, n);
    }
  }

  // ---------------------------------------------------------------- what callers are told

  // Over any run, a worker's stored result is what the worker first ended with, and nothing else.
  lemma {:induction false} ResultsAreWhatEnded(trace: seq<Action>, i: nat)
    requires i < WORKERS
    ensures var s := Run(START, trace);
      && |s.tasks| == WORKERS
      && (s.tasks[i].result == None || s.tasks[i].result == EndOf(trace, |trace|, i))
      && (s.tasks[i].handle == Live <==> EndOf(trace, |trace|, i) == None)
      && (s.tasks[i].handle == Taken <==> s.tasks[i].result.Some?)
  {
    assert trace[..|trace|] == trace;
    RunAgrees(trace, |trace|);
    var s := StateAt(trace, |trace|);
    assert SlotAgrees(s.tasks[i], Ends(trace, |trace|)[i]);
  }

  lemma RunReaches(trace: seq<Action>)
    ensures Reachable(Run(START, trace)) && Inv(Run(START, trace))
  {
    assert Reachable(Run(START, trace));
    ReachableHasInv(Run(START, trace));
  }

  // A waiter is told how the HTTP worker ended, and a shutdown succeeds only if all three workers ended well.
  lemma {:induction false} CallersAreToldWhatEnded(trace: seq<Action>, id: nat)
    ensures var s := Run(START, trace);
      && (id in s.waited ==> EndOf(trace, |trace|, 0) == Some(s.waited[id]))
      && (id in s.returned && s.returned[id] ==> AllEndedWell(trace, |trace|))
  {
    RunReaches(trace);
    CallersAreToldTheTruth(Run(START, trace));
    ResultsAreWhatEnded(trace, 0);
    ResultsAreWhatEnded(trace, 1);
    ResultsAreWhatEnded(trace, 2);
  }

  lemma LastStepState(s: Server, id: nat, ok: bool, ended: seq<Option<bool>>)
    requires Inv(s) && id in s.callers && s.callers[id].Joining? && |s.callers[id].got| == WORKERS
    requires SlotsAgree(s, ended)
    ensures var u := Apply(s, Advance(id, ok));
      && id in u.returned && u.facts.settled
      && (u.returned[id] <==> forall i :: 0 <= i < WORKERS ==> ended[i] == Some(true))
  {
    LastStepReportsAll(s, id, ok);
    assert StageAgrees(s, id, s.callers[id]);
    forall i | 0 <= i < WORKERS ensures s.tasks[i].result == ended[i] {
      assert SlotAgrees(s.tasks[i], ended[i]);
    }
  }

  // The last step of a shutdown reports success exactly if all three workers ended well.
  lemma {:induction false} LastStepReportsWhatEnded(trace: seq<Action>, id: nat, ok: bool)
    requires var s := Run(START, trace);
      id in s.callers && s.callers[id].Joining? && |s.callers[id].got| == WORKERS
    ensures var u := Apply(Run(START, trace), Advance(id, ok));
      && id in u.returned && u.facts.settled
      && (u.returned[id] <==> AllEndedWell(trace, |trace|))
  {
    RunReaches(trace);
    assert trace[..|trace|] == trace;
    RunAgrees(trace, |trace|);
    LastStepState(Run(START, trace), id, ok, Ends(trace, |trace|));
    WellIsWell(trace, |trace|);
  }

  // ---------------------------------------------------------------- what the facts rest on

  // In step `j` a caller at `stage` was told that its effect succeeded, or failed.
  ghost predicate Told(trace: seq<Action>, j: nat, stage: Stage, ok: bool) {
    if j < |trace| then ToldNow(StateAt(trace, j), trace[j], stage, ok) else false
  }

  ghost predicate ToldNow(s: Server, a: Action, stage: Stage, ok: bool) {
    match a
    case Advance(id, told) => told == ok && id in s.callers && s.callers[id] == stage
    case _ => false
  }

  ghost predicate ToldBefore(trace: seq<Action>, n: nat, stage: Stage, ok: bool) {
    exists j: nat :: j < n && Told(trace, j, stage, ok)
  }

  // Each fact comes with its own report.
  ghost predicate FactsNow(s: Server, a: Action, u: Server) {
    match a
    case Advance(_, _) =>
      && (u.facts.media && !s.facts.media ==> ToldNow(s, a, Media, true))
      && (u.facts.sessions && !s.facts.sessions ==> ToldNow(s, a, Sessions, true))
      && (u.facts.observers && !s.facts.observers ==> ToldNow(s, a, Observers, true))
      && (u.facts.files && !s.facts.files ==> s.pending == Some(Finished(true)))
      && (u.facts.joined ==> s.facts.joined)
      && (u.pending.Some? && u.pending.value.Finished? ==> u.pending == s.pending)
    case TasksJoin => u == s.(facts := s.facts.(joined := true))
    case SettlementEnds(ok) => u.facts == s.facts && (u.pending == s.pending || u.pending == Some(Finished(ok)))
    case _ => u.facts == s.facts && u.pending == s.pending
  }

  lemma EarlyFacts(s: Server, id: nat, ok: bool)
    requires id in s.callers && |s.tasks| == WORKERS
    requires var stage := s.callers[id]; stage.Media? || stage.Sessions? || stage.Tasks? || stage.Observers?
    ensures FactsNow(s, Advance(id, ok), AdvanceStep(s, id, ok))
  {
    match s.callers[id]
    case Media =>
    case Sessions =>
    case Tasks =>
    case Observers =>
  }

  lemma JoinKeepsFacts(s: Server, id: nat, held: bool, got: seq<bool>)
    requires |got| < |s.tasks|
    ensures var u := JoinStep(s, id, held, got); u.facts == s.facts && u.pending == s.pending
  {
  }

  lemma WaitKeepsFacts(s: Server, id: nat, held: bool)
    requires |s.tasks| > 0
    ensures var u := WaitStep(s, id, held); u.facts == s.facts && u.pending == s.pending
  {
  }

  lemma LateFacts(s: Server, id: nat, ok: bool)
    requires id in s.callers && |s.tasks| == WORKERS
    requires var stage := s.callers[id]; stage.Signalling? || stage.Joining? || stage.Waiting?
    ensures FactsNow(s, Advance(id, ok), AdvanceStep(s, id, ok))
  {
    match s.callers[id]
    case Signalling =>
    case Joining(held, got) => if |got| < WORKERS { JoinKeepsFacts(s, id, held, got); }
    case Waiting(held) => WaitKeepsFacts(s, id, held);
  }

  lemma FileFacts(s: Server, id: nat, ok: bool)
    requires id in s.callers && |s.tasks| == WORKERS
    requires s.callers[id].LockingFiles? || s.callers[id].SettlingFiles?
    ensures FactsNow(s, Advance(id, ok), AdvanceStep(s, id, ok))
  {
    match s.callers[id]
    case LockingFiles =>
    case SettlingFiles =>
  }

  lemma StepFacts(s: Server, a: Action)
    requires Inv(s)
    ensures FactsNow(s, a, Apply(s, a))
  {
    match a
    case Advance(id, ok) =>
      if id in s.callers {
        match s.callers[id]
        case Media => EarlyFacts(s, id, ok);
        case Sessions => EarlyFacts(s, id, ok);
        case Tasks => EarlyFacts(s, id, ok);
        case Observers => EarlyFacts(s, id, ok);
        case LockingFiles => FileFacts(s, id, ok);
        case SettlingFiles => FileFacts(s, id, ok);
        case Signalling => LateFacts(s, id, ok);
        case Joining(_, _) => LateFacts(s, id, ok);
        case Waiting(_) => LateFacts(s, id, ok);
      }
    case CallShutdown =>
    case CallWait =>
    case Cancel(_) =>
    case TasksJoin =>
    case WorkerEnds(_, _) =>
    case SettlementEnds(_) =>
  }

  // What is on record was reported by some action of the run.
  ghost predicate EffectsRecorded(trace: seq<Action>, n: nat, s: Server) {
    match s
    case Server(_, _, _, _, facts, _, _, _, _, _) =>
      && (facts.media ==> ToldBefore(trace, n, Media, true))
      && (facts.sessions ==> ToldBefore(trace, n, Sessions, true))
      && (facts.observers ==> ToldBefore(trace, n, Observers, true))
  }

  ghost predicate FilesRecorded(trace: seq<Action>, n: nat, s: Server) {
    match s
    case Server(_, _, _, _, facts, _, _, pending, _, _) =>
      && (facts.joined ==> Happened(trace, n, TasksJoin))
      && (facts.files ==> Happened(trace, n, SettlementEnds(true)))
      && (forall ok :: pending == Some(Finished(ok)) ==> Happened(trace, n, SettlementEnds(ok)))
  }

  ghost predicate Happened(trace: seq<Action>, n: nat, a: Action) {
    exists j: nat :: j < n && j < |trace| && trace[j] == a
  }

  lemma RecordStays(trace: seq<Action>, n: nat)
    requires n < |trace|
    ensures forall stage, ok :: ToldBefore(trace, n, stage, ok) ==> ToldBefore(trace, n + 1, stage, ok)
    ensures forall a :: Happened(trace, n, a) ==> Happened(trace, n + 1, a)
    ensures forall stage, ok :: ToldNow(StateAt(trace, n), trace[n], stage, ok) ==> ToldBefore(trace, n + 1, stage, ok)
    ensures Happened(trace, n + 1, trace[n])
  {
    forall stage, ok | ToldNow(StateAt(trace, n), trace[n], stage, ok) ensures ToldBefore(trace, n + 1, stage, ok) {
      assert Told(trace, n, stage, ok);
    }
  }

  lemma EffectsNext(trace: seq<Action>, n: nat, s: Server, u: Server)
    requires n < |trace| && s == StateAt(trace, n) && EffectsRecorded(trace, n, s) && FactsNow(s, trace[n], u)
    ensures EffectsRecorded(trace, n + 1, u)
  {
    RecordStays(trace, n);
  }

  lemma FilesNext(trace: seq<Action>, n: nat, s: Server, u: Server)
    requires n < |trace| && s == StateAt(trace, n) && FilesRecorded(trace, n, s) && FactsNow(s, trace[n], u)
    ensures FilesRecorded(trace, n + 1, u)
  {
    RecordStays(trace, n);
  }

  lemma {:induction false} RunIsRecorded(trace: seq<Action>, n: nat)
    requires n <= |trace|
    ensures EffectsRecorded(trace, n, StateAt(trace, n)) && FilesRecorded(trace, n, StateAt(trace, n))
  {
    if n > 0 {
      RunIsRecorded(trace, n - 1);
      StateSucc(trace, n - 1);
      StepFacts(StateAt(trace, n - 1), trace[n - 1]);
      EffectsNext(trace, n - 1, StateAt(trace, n - 1), StateAt(trace, n));
      FilesNext(trace, n - 1, StateAt(trace, n - 1), StateAt(trace, n));
    }
  }

  // HTTP is told to stop only in a run in which media, games and observers reported success to a caller,
  // the task owner gave its receipt, and a file settlement ended well.
  lemma {:induction false} StopIsEarned(trace: seq<Action>)
    requires Run(START, trace).facts.stopped
    ensures ToldBefore(trace, |trace|, Media, true) && ToldBefore(trace, |trace|, Sessions, true)
    ensures ToldBefore(trace, |trace|, Observers, true)
    ensures TasksJoin in trace && SettlementEnds(true) in trace
  {
    RunReaches(trace);
    assert trace[..|trace|] == trace;
    RunIsRecorded(trace, |trace|);
  }

  // ---------------------------------------------------------------- failures have a reason

  // Why a shutdown may fail: an effect or a wait failed for this very caller, a file settlement failed, or a
  // worker ended badly.
  ghost predicate Reason(trace: seq<Action>, n: nat, id: nat) {
    || Happened(trace, n, Advance(id, false))
    || Happened(trace, n, SettlementEnds(false))
    || (n <= |trace| && exists i :: 0 <= i < WORKERS && EndOf(trace, n, i) == Some(false))
  }

  // In this step the caller was turned away.
  ghost predicate FailsNow(s: Server, a: Action, id: nat, ended: seq<Option<bool>>) {
    || a == Advance(id, false)
    || s.pending == Some(Finished(false))
    || (exists i :: 0 <= i < |ended| && ended[i] == Some(false))
  }

  predicate Failed(s: Server, id: nat) {
    id in s.returned && !s.returned[id]
  }

  lemma AllFails(s: Server, got: seq<bool>, ended: seq<Option<bool>>)
    requires GotAgrees(s.tasks, got) && SlotsAgree(s, ended) && !All(got)
    ensures exists i :: 0 <= i < |ended| && ended[i] == Some(false)
  {
    var i :| 0 <= i < |got| && !got[i];
    assert SlotAgrees(s.tasks[i], ended[i]);
  }

  lemma AdvanceFails(s: Server, caller: nat, ok: bool, id: nat, ended: seq<Option<bool>>)
    requires Inv(s) && SlotsAgree(s, ended) && caller in s.callers
    requires Failed(AdvanceStep(s, caller, ok), id) && !Failed(s, id)
    ensures FailsNow(s, Advance(caller, ok), id, ended)
  {
    assert StageAgrees(s, caller, s.callers[caller]);
    match s.callers[caller]
    case Media =>
    case Sessions =>
    case Tasks =>
    case Observers =>
    case LockingFiles =>
    case SettlingFiles =>
    case Signalling =>
    case Joining(_, got) => if |got| == WORKERS && !All(got) { AllFails(s, got, ended); }
    case Waiting(_) =>
  }

  lemma StepFails(s: Server, a: Action, id: nat, ended: seq<Option<bool>>)
    requires Inv(s) && SlotsAgree(s, ended) && Failed(Apply(s, a), id) && !Failed(s, id)
    ensures FailsNow(s, a, id, ended)
  {
    match a
    case Advance(caller, ok) => if caller in s.callers { AdvanceFails(s, caller, ok, id, ended); }
    case CallShutdown =>
    case CallWait =>
    case Cancel(_) =>
    case TasksJoin =>
    case WorkerEnds(_, _) =>
    case SettlementEnds(_) =>
  }

  lemma ReasonStays(trace: seq<Action>, n: nat, id: nat)
    requires n < |trace| && Reason(trace, n, id)
    ensures Reason(trace, n + 1, id)
  {
    RecordStays(trace, n);
    if i :| 0 <= i < WORKERS && EndOf(trace, n, i) == Some(false) {
      assert EndOf(trace, n + 1, i) == Some(false);
    }
  }

  lemma FailingHasReason(trace: seq<Action>, n: nat, id: nat)
    requires n < |trace| && Failed(StateAt(trace, n + 1), id) && !Failed(StateAt(trace, n), id)
    ensures Reason(trace, n + 1, id)
  {
    StateSucc(trace, n);
    RunAgrees(trace, n);
    RunIsRecorded(trace, n);
    StepFails(StateAt(trace, n), trace[n], id, Ends(trace, n));
    RecordStays(trace, n);
    if i :| 0 <= i < WORKERS && Ends(trace, n)[i] == Some(false) {
      assert EndOf(trace, n + 1, i) == Some(false);
    }
  }

  // No shutdown fails without a reason: over any run, a caller that was told of a failure was itself
  // refused or timed out, or a file settlement failed, or a worker ended badly.
  lemma {:induction false} FailureHasAReason(trace: seq<Action>, n: nat, id: nat)
    requires n <= |trace| && Failed(StateAt(trace, n), id)
    ensures Reason(trace, n, id)
  {
    if n > 0 {
      if Failed(StateAt(trace, n - 1), id) {
        FailureHasAReason(trace, n - 1, id);
        ReasonStays(trace, n - 1, id);
      } else {
        FailingHasReason(trace, n - 1, id);
      }
    }
  }
}
