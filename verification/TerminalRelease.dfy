/**
 The final release of the services and the fence before an installation: what a release guarantees,
 exactly when one can still come, and exactly when an update can begin behind the fence.
 */
module TerminalRelease {
  import opened Basics
  import opened RequestIds
  import opened Terminal
  import opened TerminalRuns
  import opened TerminalTheorems

  // ---------------------------------------------------------------- what a release guarantees

  // In every state from a release on: the loop and the server have settled, accepted work has joined, no
  // update is under way, and no worker gets past taking the services.
  lemma {:induction false} ReleaseIsSafe(s: Shell, u: Shell)
    requires Reachable(s) && s.released && Leads(s, u)
    ensures u.released && u.terminal.loopEnded && u.terminal.loopSettled && u.Joined() && u.serverSettled
    ensures !UnsettledUpdate(u.terminal)
    ensures forall a :: a in u.workers ==> u.workers[a].stage == Starting || u.workers[a].stage == Finishing(false)
  {
    ReachableHasInv(s);
    LeadsFollows(s, u);
    assert forall a :: a in u.workers ==> a in u.workers.Keys;
  }

  // After the release an unprepared shell stays unprepared.
  lemma {:induction false} ReleaseIsFinal(s: Shell, u: Shell)
    requires Reachable(s) && s.released && !s.terminal.prepared && Leads(s, u)
    ensures !u.terminal.prepared
  {
    ReachableHasInv(s);
    LeadsFollows(s, u);
  }

  // ---------------------------------------------------------------- paths

  // Some trace leads from `o` to `s`; unless `reports`, one in which the updater never reports.
  ghost predicate Goes(o: Shell, s: Shell, reports: bool) {
    exists trace :: s == Run(o, trace) && (reports || UpdateFinished !in trace)
  }

  // A path to a state that has the invariant.
  ghost predicate Path(o: Shell, s: Shell, reports: bool) {
    match s
    case Shell(_, _, _, _, _, _, _, _, _, _, _, _) => Inv(s) && Goes(o, s, reports)
  }

  lemma GoesNowhere(s: Shell, reports: bool)
    ensures Goes(s, s, reports)
  {
    assert s == Run(s, []);
  }

  lemma Next(o: Shell, s: Shell, reports: bool, a: Action) returns (u: Shell)
    requires Path(o, s, reports) && (reports || a != UpdateFinished)
    ensures u == Apply(s, a) && Path(o, u, reports)
  {
    var trace :| s == Run(o, trace) && (reports || UpdateFinished !in trace);
    assert (trace + [a])[..|trace|] == trace;
    u := Apply(s, a);
    assert u == Run(o, trace + [a]);
    StepKeepsInv(s, a);
  }

  lemma FinishFails(t: TerminalState, k: nat)
    requires t.active == Some(k)
    ensures var u := Finish(t, k, false);
      && u.active.None? && !u.prepared && u.admitted == t.admitted && u.loopEnded == t.loopEnded
      && u.sequence == t.sequence
      && (t.admitted ==> u.intent == t.intent && u.updateSettled == t.updateSettled)
  {
  }

  lemma UnwindShape(s: Shell, k: nat)
    requires s.terminal.active == Some(k) && k in s.workers
    ensures Apply(Apply(s, Crash(k)), Advance(k, true)).terminal == Finish(s.terminal, k, false)
    ensures Apply(Apply(s, Crash(k)), Advance(k, true)).started == s.started
    ensures Apply(Apply(s, Crash(k)), Advance(k, true)).released == s.released
  {
    var u := WithStage(s, k, Finishing(false));
    assert Apply(s, Crash(k)) == u;
    assert Apply(u, Advance(k, true)) == FinishStep(u, k, false);
  }

  // A worker can always unwind.
  lemma Quieten(o: Shell, s: Shell, reports: bool) returns (u: Shell)
    requires Path(o, s, reports)
    ensures Path(o, u, reports) && u.terminal.active.None?
    ensures s.terminal.active.None? ==> u == s
    ensures s.terminal.active.Some? ==> !u.terminal.prepared
    ensures u.terminal.admitted == s.terminal.admitted && u.terminal.loopEnded == s.terminal.loopEnded
    ensures u.started == s.started && u.released == s.released && u.terminal.sequence == s.terminal.sequence
    ensures s.terminal.admitted ==>
              u.terminal.intent == s.terminal.intent && u.terminal.updateSettled == s.terminal.updateSettled
  {
    u := s;
    if s.terminal.active.Some? {
      var k := s.terminal.active.value;
      assert k in s.workers.Keys;
      UnwindShape(s, k);
      FinishFails(s.terminal, k);
      u := Next(o, s, reports, Crash(k));
      u := Next(o, u, reports, Advance(k, true));
    }
  }

  lemma WorkShape(s: Shell)
    requires s.work > 0
    ensures Apply(s, WorkEnds) == s.(work := s.work - 1)
  {
  }

  lemma DrainWork(o: Shell, s: Shell, reports: bool) returns (u: Shell)
    requires Path(o, s, reports)
    ensures u == s.(work := 0) && Path(o, u, reports)
    decreases s.work
  {
    u := s;
    if s.work > 0 {
      WorkShape(s);
      u := Next(o, s, reports, WorkEnds);
      u := DrainWork(o, u, reports);
    }
  }

  lemma FenceShape(s: Shell)
    requires !s.released && s.terminal.active.None? && !UnsettledUpdate(s.terminal)
    ensures Apply(Apply(Apply(s, LoopEnds), FencePasses), TasksClose)
         == s.(terminal := s.terminal.(loopEnded := true), fencePassed := true, closing := true)
  {
    assert Apply(s, LoopEnds) == s.(terminal := s.terminal.(loopEnded := true));
    assert !Installing(Apply(s, LoopEnds).terminal);
  }

  lemma PassFence(o: Shell, s: Shell, reports: bool) returns (u: Shell)
    requires Path(o, s, reports) && !s.released
    requires s.terminal.active.None? && !UnsettledUpdate(s.terminal)
    ensures Path(o, u, reports)
    ensures u == s.(terminal := s.terminal.(loopEnded := true), fencePassed := true, closing := true, work := 0)
  {
    var ended := Next(o, s, reports, LoopEnds);
    var passed := Next(o, ended, reports, FencePasses);
    var closed := Next(o, passed, reports, TasksClose);
    FenceShape(s);
    u := DrainWork(o, closed, reports);
  }

  lemma SettleShape(s: Shell)
    requires s.fencePassed && s.Joined()
    ensures Apply(Apply(s, ServerSettles), LoopSettles)
         == s.(terminal := s.terminal.(loopSettled := true), serverSettled := true)
  {
    assert Apply(s, ServerSettles) == s.(serverSettled := true);
  }

  lemma ReleaseShape(s: Shell)
    requires MayRelease(s.terminal, s.Joined(), s.serverSettled, s.released)
    ensures Apply(s, ServicesReleased) == s.(released := true)
  {
  }

  lemma Settle(o: Shell, s: Shell, reports: bool) returns (u: Shell)
    requires Path(o, s, reports) && s.fencePassed && s.Joined()
    ensures Path(o, u, reports)
    ensures u == s.(terminal := s.terminal.(loopSettled := true), serverSettled := true)
  {
    u := Next(o, s, reports, ServerSettles);
    u := Next(o, u, reports, LoopSettles);
    SettleShape(s);
  }

  lemma SettleAndRelease(o: Shell, s: Shell, reports: bool) returns (u: Shell)
    requires Path(o, s, reports) && s.fencePassed && s.Joined()
    requires s.terminal.active.None? && !UnsettledUpdate(s.terminal)
    ensures Goes(o, u, reports) && u.released
  {
    var settled := Settle(o, s, reports);
    ReleaseShape(settled);
    u := Next(o, settled, reports, ServicesReleased);
  }

  // ---------------------------------------------------------------- exactly when a release can come

  // An unsettled update that the loop has outlived, or that has been handed to the installer.
  predicate Held(s: Shell) {
    UnsettledUpdate(s.terminal) && (s.terminal.loopEnded || s.terminal.prepared)
  }

  lemma ShapeStaysHeld(s: Shell, intent: Intent, h: TerminalState, u: Shell)
    requires Inv(s) && Held(s) && h == HandOff(s.terminal, intent) && EnterShape(s, intent, h, u)
    ensures Held(u)
  {
    if TurnedAway(s.terminal, intent) {
    } else if !Takes(h, intent) {
    } else if h.prepared || h.active.Some? {
    } else {
    }
  }

  lemma AdvanceStaysHeld(s: Shell, attempt: nat, ok: bool)
    requires Inv(s) && Held(s) && attempt in s.workers
    ensures Held(AdvanceStep(s, attempt, ok))
  {
    StepFollows(s, Advance(attempt, ok));
    AdvanceKeepsIntent(s, attempt, ok);
    assert attempt in s.workers.Keys;
  }

  lemma StepStaysHeld(s: Shell, a: Action)
    requires Inv(s) && Held(s) && a != UpdateFinished
    ensures Held(Apply(s, a))
  {
    match a
    case EnterExit(intent) =>
      EnterHasShape(s, intent);
      ShapeStaysHeld(s, intent, HandOff(s.terminal, intent), EnterStep(s, intent));
    case Advance(attempt, ok) => if attempt in s.workers { AdvanceStaysHeld(s, attempt, ok); }
    case _ =>
  }

  lemma {:induction false} StaysHeld(s: Shell, trace: seq<Action>)
    requires Inv(s) && Held(s) && UpdateFinished !in trace
    ensures Inv(Run(s, trace)) && Held(Run(s, trace))
  {
    if trace != [] {
      var prefix := trace[..|trace| - 1];
      StaysHeld(s, prefix);
      StepKeepsInv(Run(s, prefix), trace[|trace| - 1]);
      StepStaysHeld(Run(s, prefix), trace[|trace| - 1]);
    }
  }

  lemma CloseShape(s: Shell)
    requires UnsettledUpdate(s.terminal) && s.terminal.active.None? && !s.terminal.prepared && !s.terminal.loopEnded
    ensures var u := Apply(s, EnterExit(Close)); u.terminal.intent == Some(Close) && u.terminal.admitted
  {
    assert HandOff(s.terminal, Close) == s.terminal.(intent := Some(Close));
  }

  // An update that is neither outlived nor handed over can still be given up for a close.
  lemma GiveUp(o: Shell, s: Shell, reports: bool) returns (u: Shell)
    requires Path(o, s, reports) && !Held(s) && !s.released
    ensures Path(o, u, reports) && u.terminal.active.None? && !UnsettledUpdate(u.terminal)
  {
    u := Quieten(o, s, reports);
    if UnsettledUpdate(u.terminal) {
      CloseShape(u);
      u := Next(o, u, reports, EnterExit(Close));
      u := Quieten(o, u, reports);
    }
  }

  lemma ReleasePath(s: Shell) returns (u: Shell)
    requires Inv(s) && !Held(s)
    ensures Goes(s, u, false) && u.released
  {
    GoesNowhere(s, false);
    u := s;
    if !s.released {
      u := GiveUp(s, u, false);
      if !u.released {
        u := PassFence(s, u, false);
        u := SettleAndRelease(s, u, false);
      }
    }
  }

  // Without the updater's report the services can still be released exactly when no unsettled update has
  // been outlived by the loop or handed to the installer.
  lemma {:induction false} ReleaseIsHeldExactly(s: Shell)
    requires Inv(s)
    ensures (exists u :: Goes(s, u, false) && u.released) <==> !Held(s)
  {
    if Held(s) {
      forall u | Goes(s, u, false) ensures !u.released {
        var trace :| u == Run(s, trace) && UpdateFinished !in trace;
        StaysHeld(s, trace);
      }
    } else {
      var u := ReleasePath(s);
    }
  }

  // ---------------------------------------------------------------- with the updater's report

  lemma MoveTo(o: Shell, s: Shell, reports: bool, k: nat, stage: Stage) returns (u: Shell)
    requires Path(o, s, reports) && k in s.workers && Waits(s.workers[k].stage)
    requires NextStage(s, s.workers[k], true) == stage
    ensures Path(o, u, reports)
    ensures u == WithStage(s, k, stage).(closing := s.closing || s.workers[k].stage.JoiningTasks?)
  {
    assert AdvanceStep(s, k, true) == QuietStep(s, k, true);
    u := Next(o, s, reports, Advance(k, true));
  }

  // The state in which the one worker of an admitted update stands at `stage`.
  ghost predicate UpdateAt(s: Shell, k: nat, stage: Stage) {
    match s
    case Shell(_, _, _, _, _, _, _, _, _, _, _, _) =>
      && UnsettledUpdate(s.terminal) && s.terminal.active == Some(k) && !s.released
      && k in s.workers && s.workers[k] == Worker(Update, stage)
  }

  lemma UpdateMoves(o: Shell, s: Shell, reports: bool, k: nat, stage: Stage, next: Stage) returns (u: Shell)
    requires Path(o, s, reports) && UpdateAt(s, k, stage) && Waits(stage)
    requires NextStage(s, Worker(Update, stage), true) == next
    ensures Path(o, u, reports) && UpdateAt(u, k, next) && u.fencePassed == s.fencePassed && u.work == s.work
    ensures u.terminal == s.terminal
  {
    u := MoveTo(o, s, reports, k, next);
  }

  lemma RetryUpdate(o: Shell, s: Shell, reports: bool) returns (u: Shell)
    requires Path(o, s, reports)
    requires UnsettledUpdate(s.terminal) && s.terminal.active.None? && !s.terminal.prepared
    ensures Path(o, u, reports) && UpdateAt(u, s.started, Starting) && u.fencePassed == s.fencePassed
  {
    u := Next(o, s, reports, EnterExit(Update));
  }

  lemma JoinTasks(o: Shell, s: Shell, reports: bool, k: nat) returns (u: Shell)
    requires Path(o, s, reports) && UpdateAt(s, k, Starting)
    ensures Path(o, u, reports) && UpdateAt(u, k, Draining) && u.fencePassed == s.fencePassed
  {
    u := UpdateMoves(o, s, reports, k, Starting, Reading);
    u := UpdateMoves(o, u, reports, k, Reading, JoiningTasks);
    u := DrainWork(o, u, reports);
    u := UpdateMoves(o, u, reports, k, JoiningTasks, Draining);
  }

  // Attempt `k` has prepared the update.
  ghost predicate PreparedBy(s: Shell, k: nat) {
    match s
    case Shell(_, _, _, _, _, _, _, _, _, _, _, _) =>
      UnsettledUpdate(s.terminal) && s.terminal.prepared && k in s.outcomes && s.outcomes[k]
  }

  lemma FinishShape(s: Shell, k: nat)
    requires UpdateAt(s, k, Finishing(true))
    ensures PreparedBy(Apply(s, Advance(k, true)), k)
    ensures Apply(s, Advance(k, true)).fencePassed == s.fencePassed
  {
    assert Finish(s.terminal, k, true) == s.terminal.(active := None, prepared := true);
    assert Apply(s, Advance(k, true)) == FinishStep(s, k, true);
  }

  lemma FinishUpdateAttempt(o: Shell, s: Shell, reports: bool, k: nat) returns (u: Shell)
    requires Path(o, s, reports) && UpdateAt(s, k, Draining)
    ensures Path(o, u, reports) && PreparedBy(u, k) && u.fencePassed == s.fencePassed
  {
    u := UpdateMoves(o, s, reports, k, Draining, Checking);
    u := UpdateMoves(o, u, reports, k, Checking, Finishing(true));
    FinishShape(u, k);
    u := Next(o, u, reports, Advance(k, true));
  }

  lemma PrepareHeld(o: Shell, s: Shell) returns (u: Shell)
    requires Path(o, s, true) && Held(s)
    ensures Path(o, u, true) && UnsettledUpdate(u.terminal) && u.terminal.prepared
  {
    u := Quieten(o, s, true);
    if !u.terminal.prepared {
      var k := u.started;
      u := RetryUpdate(o, u, true);
      u := JoinTasks(o, u, true, k);
      u := FinishUpdateAttempt(o, u, true, k);
    }
  }

  lemma Report(o: Shell, s: Shell) returns (u: Shell)
    requires Path(o, s, true) && UnsettledUpdate(s.terminal) && s.terminal.prepared
    ensures Path(o, u, true) && u == s.(terminal := s.terminal.(updateSettled := true))
  {
    u := Next(o, s, true, UpdateFinished);
  }

  lemma ReportPath(s: Shell) returns (u: Shell)
    requires Inv(s) && Held(s)
    ensures Goes(s, u, true) && u.released
  {
    GoesNowhere(s, true);
    var prepared := PrepareHeld(s, s);
    var reported := Report(s, prepared);
    var passed := PassFence(s, reported, true);
    u := SettleAndRelease(s, passed, true);
  }

  // No state is a dead end: if the updater may still report, every state leads to a release.
  lemma {:induction false} ReleaseIsAlwaysPossible(s: Shell) returns (u: Shell)
    requires Reachable(s)
    ensures Leads(s, u) && u.released
  {
    ReachableHasInv(s);
    if Held(s) {
      u := ReportPath(s);
    } else {
      u := ReleasePath(s);
    }
  }

  // ---------------------------------------------------------------- witnesses

  lemma StartHasInv()
    ensures Inv(START)
  {
  }

  const REQUESTED := Apply(START, EnterExit(Update))

  lemma RequestedHasInv()
    ensures Path(START, REQUESTED, false) && FirstAt(REQUESTED, Starting, STARTED)
  {
    StartHasInv();
    GoesNowhere(START, false);
    var u := Next(START, START, false, EnterExit(Update));
  }

  const STARTED := INITIAL.(intent := Some(Update), active := Some(0))

  function Asked(answer: Option<bool>): TerminalState {
    STARTED.(sequence := 1, preferences := Some(PreferenceRequest(PreferenceEvent(1, Flush), answer)))
  }

  // The first worker of a run stands at `stage` while nothing else happens.
  ghost predicate FirstAt(s: Shell, stage: Stage, terminal: TerminalState) {
    match s
    case Shell(_, _, _, _, _, _, _, _, _, _, _, _) =>
      s.work == 0 && !s.released && s.workers == map[0 := Worker(Update, stage)] && s.terminal == terminal
  }

  lemma FirstMoves(o: Shell, s: Shell, terminal: TerminalState, stage: Stage, next: Stage) returns (u: Shell)
    requires Path(o, s, false) && FirstAt(s, stage, terminal) && Waits(stage)
    requires NextStage(s, Worker(Update, stage), true) == next
    ensures Path(o, u, false) && FirstAt(u, next, terminal)
  {
    assert WithStage(s, 0, next).workers == map[0 := Worker(Update, next)];
    u := MoveTo(o, s, false, 0, next);
  }

  lemma PreflightedUpdate(o: Shell, first: Shell) returns (u: Shell)
    requires Path(o, first, false) && FirstAt(first, Starting, STARTED)
    ensures Path(o, u, false) && FirstAt(u, Announcing, STARTED)
  {
    u := FirstMoves(o, first, STARTED, Starting, Reading);
    u := FirstMoves(o, u, STARTED, Reading, Preflighting);
    u := FirstMoves(o, u, STARTED, Preflighting, Announcing);
  }

  lemma AnnounceShape(s: Shell)
    requires FirstAt(s, Announcing, STARTED)
    ensures Apply(s, Advance(0, true)) == AnnounceStep(s, 0)
    ensures AnnounceStep(s, 0) == s.(
      workers := map[0 := Worker(Update, Awaiting(1))],
      terminal := Asked(None), published := Some(PreferenceEvent(1, Flush)))
  {
    assert Announce(s.terminal, Update) == Some(Asked(None));
  }

  lemma AnnouncedUpdate(o: Shell, first: Shell) returns (u: Shell)
    requires Path(o, first, false) && FirstAt(first, Starting, STARTED)
    ensures Path(o, u, false) && FirstAt(u, Awaiting(1), Asked(None))
  {
    var s := PreflightedUpdate(o, first);
    AnnounceShape(s);
    u := Next(o, s, false, Advance(0, true));
  }

  lemma AnswerShape(s: Shell)
    requires s.terminal == Asked(None)
    ensures Apply(s, Answer(RequestId(1), true)) == s.(terminal := Asked(Some(true)))
  {
    RequestIdFits(1);
  }

  lemma SavedUpdate(o: Shell, first: Shell) returns (u: Shell)
    requires Path(o, first, false) && FirstAt(first, Starting, STARTED)
    ensures Path(o, u, false) && FirstAt(u, Flushing(1), Asked(Some(true)))
  {
    u := AnnouncedUpdate(o, first);
    AnswerShape(u);
    u := Next(o, u, false, Answer(RequestId(1), true));
    u := FirstMoves(o, u, Asked(Some(true)), Awaiting(1), Flushing(1));
  }

  lemma AdmitShape(s: Shell)
    requires s.workers == map[0 := Worker(Update, Admitting(1))] && s.work == 0
    requires !s.terminal.loopEnded && s.terminal.intent == Some(Update)
    ensures Apply(s, Advance(0, true)) == s.(
      workers := map[0 := Worker(Update, JoiningTasks)], terminal := Admit(s.terminal), closing := true)
  {
    assert MayAdmit(s.terminal, Update, true);
  }

  // The renderer saves and the attempt admits.
  lemma AdmittedUpdate(o: Shell, first: Shell) returns (u: Shell)
    requires Path(o, first, false) && FirstAt(first, Starting, STARTED)
    ensures Path(o, u, false) && UpdateAt(u, 0, JoiningTasks) && !u.terminal.loopEnded
  {
    u := SavedUpdate(o, first);
    u := FirstMoves(o, u, Asked(Some(true)), Flushing(1), Admitting(1));
    AdmitShape(u);
    u := Next(o, u, false, Advance(0, true));
  }

  // An update the loop outlives can happen.
  lemma HeldIsReachable() returns (s: Shell)
    ensures Reachable(s) && Held(s) && s.terminal.loopEnded
  {
    RequestedHasInv();
    var u := AdmittedUpdate(START, REQUESTED);
    s := Next(START, u, false, LoopEnds);
  }

  // ---------------------------------------------------------------- the fence

  // The fence is passed once. Behind it an update can be under way exactly when one was admitted and is
  // not settled: the attempt behind the fence is a retry, and nothing makes it wait.
  lemma {:induction false} FenceGuardsExactly(s: Shell)
    requires Inv(s) && s.fencePassed
    ensures (exists u :: Leads(s, u) && Installing(u.terminal)) <==> UnsettledUpdate(s.terminal)
  {
    forall u | Leads(s, u) && Installing(u.terminal) ensures UnsettledUpdate(s.terminal) {
      LeadsFollows(s, u);
    }
    if UnsettledUpdate(s.terminal) {
      GoesNowhere(s, true);
      var u := s;
      if s.terminal.active.None? && !s.terminal.prepared {
        u := RetryUpdate(s, s, true);
      }
      assert Leads(s, u) && Installing(u.terminal);
    }
  }

  // With no attempt under way the fence lets an unprepared update pass.
  lemma PassShape(s: Shell)
    requires !s.released && s.terminal.active.None? && !s.terminal.prepared
    ensures Apply(Apply(s, LoopEnds), FencePasses)
         == s.(terminal := s.terminal.(loopEnded := true), fencePassed := true)
  {
    assert Apply(s, LoopEnds) == s.(terminal := s.terminal.(loopEnded := true));
  }

  // The first attempt of an admitted update has failed, and none has followed.
  ghost predicate FailedFirst(s: Shell) {
    match s
    case Shell(_, _, _, _, _, _, _, _, _, _, _, _) =>
      && UnsettledUpdate(s.terminal) && s.terminal.active.None? && !s.terminal.prepared
      && !s.released && 0 in s.outcomes && !s.outcomes[0]
  }

  lemma FailedUpdate(o: Shell, first: Shell) returns (u: Shell)
    requires Path(o, first, false) && FirstAt(first, Starting, STARTED)
    ensures Path(o, u, false) && FailedFirst(u)
  {
    u := AdmittedUpdate(o, first);
    u := Next(o, u, false, Crash(0));
    u := Next(o, u, false, Advance(0, true));
  }

  // Such a state can be reached: the first attempt fails, the loop ends, the fence is passed.
  lemma UpdateBehindFence(o: Shell, first: Shell) returns (s: Shell)
    requires Path(o, first, false) && FirstAt(first, Starting, STARTED)
    ensures Path(o, s, false) && FailedFirst(s) && s.fencePassed
  {
    var u := FailedUpdate(o, first);
    PassShape(u);
    u := Next(o, u, false, LoopEnds);
    s := Next(o, u, false, FencePasses);
  }

  lemma UpdateBehindFenceIsReachable() returns (s: Shell)
    ensures Reachable(s) && s.fencePassed && UnsettledUpdate(s.terminal) && !Installing(s.terminal)
  {
    RequestedHasInv();
    s := UpdateBehindFence(START, REQUESTED);
  }
}
