/**
 The way of one attempt through its checks: in any run, whatever was admitted or has succeeded passed each
 check that its intent calls for; and nothing but a refusal stands in the way of any intent.
 */
module TerminalProgress {
  import opened Basics
  import opened RequestIds
  import opened Terminal
  import opened TerminalRuns
  import opened TerminalTheorems
  import opened TerminalAdmission
  import opened TerminalAnswers
  import TerminalRelease

  // ---------------------------------------------------------------- what had to be passed

  // Foreign results an attempt depends on: domain refusals, pending skin changes, skin files and presence,
  // the API server, domain checks after settlement.
  datatype Check = Preflight | Skins | Drain | Stop | Verify

  predicate Takes(stage: Stage, c: Check) {
    match c
    case Preflight => stage.Preflighting?
    case Skins => stage.Flushing?
    case Drain => stage.Draining?
    case Stop => stage.StoppingServer?
    case Verify => stage.Checking?
  }

  // A close and a restart are not held up by the last check, and the server must really have settled.
  predicate Suffices(s: Shell, intent: Intent, c: Check, ok: bool) {
    match c
    case Verify => ok || intent == Close || intent == Restart
    case Stop => ok && s.serverSettled
    case _ => ok
  }

  // This step takes attempt `k` of `intent` past the check.
  ghost predicate PassesNow(s: Shell, a: Action, k: nat, intent: Intent, c: Check) {
    match a
    case Advance(attempt, ok) =>
      && attempt == k && k in s.workers && s.workers[k].intent == intent
      && Takes(s.workers[k].stage, c) && Suffices(s, intent, c, ok)
    case _ => false
  }

  ghost predicate Passed(trace: seq<Action>, n: nat, k: nat, intent: Intent, c: Check) {
    exists j: nat :: j < n && PassedAt(trace, j, k, intent, c)
  }

  ghost predicate PassedAt(trace: seq<Action>, j: nat, k: nat, intent: Intent, c: Check) {
    if j < |trace| then PassesNow(At(trace, j), trace[j], k, intent, c) else false
  }

  // The checks behind a worker that stands at its stage.
  predicate Behind(w: Worker, c: Check) {
    match w.stage
    case Announcing => c == Preflight
    case Awaiting(_) => c == Preflight
    case Flushing(_) => c == Preflight
    case Admitting(_) => c == Preflight || c == Skins
    case StoppingServer => c == Drain
    case Checking => c == Drain || (c == Stop && w.intent != Update)
    case Finishing(ok) => ok && (c == Drain || c == Verify || (c == Stop && w.intent != Update))
    case _ => false
  }

  ghost predicate StandsBehind(s: Shell, k: nat, intent: Intent, c: Check) {
    match s
    case Shell(_, _, workers, _, _, _, _, _, _, _, _, _) =>
      k in workers && workers[k].intent == intent && Behind(workers[k], c)
  }

  lemma QuietPasses(s: Shell, k: nat, ok: bool, intent: Intent, c: Check)
    requires k in s.workers && Waits(s.workers[k].stage)
    requires StandsBehind(QuietStep(s, k, ok), k, intent, c)
    ensures StandsBehind(s, k, intent, c) || PassesNow(s, Advance(k, ok), k, intent, c)
  {
    var w := s.workers[k];
    assert QuietStep(s, k, ok).workers[k] == w.(stage := NextStage(s, w, ok));
  }

  // Every worker but `k` stands where it stood.
  ghost predicate OthersStand(s: Shell, u: Shell, k: nat) {
    match s
    case Shell(_, _, workers, _, _, _, _, _, _, _, _, _) =>
      forall other :: other != k ==>
        (other in u.workers <==> other in workers) && (other in workers ==> u.workers[other] == workers[other])
  }

  lemma AnnounceStands(s: Shell, k: nat)
    requires k in s.workers
    ensures OthersStand(s, AnnounceStep(s, k), k)
    ensures AnnounceStep(s, k).workers[k].intent == s.workers[k].intent
    ensures var stage := AnnounceStep(s, k).workers[k].stage; stage.Awaiting? || stage == Finishing(false)
  {
    var minted := Announce(s.terminal, s.workers[k].intent);
    var stage := if minted.Some? then Awaiting(minted.value.preferences.value.event.request) else Finishing(false);
    assert AnnounceStep(s, k).workers == WithStage(s, k, stage).workers;
  }

  lemma AdmitStands(s: Shell, k: nat)
    requires k in s.workers
    ensures OthersStand(s, AdmitStep(s, k), k) && k in AdmitStep(s, k).workers
    ensures var stage := AdmitStep(s, k).workers[k].stage; stage == JoiningTasks || stage == Finishing(false)
  {
  }

  lemma FinishStands(s: Shell, k: nat, ok: bool)
    requires k in s.workers
    ensures OthersStand(s, FinishStep(s, k, ok), k) && k !in FinishStep(s, k, ok).workers
  {
  }

  lemma QuietStands(s: Shell, k: nat, ok: bool)
    requires k in s.workers
    ensures OthersStand(s, QuietStep(s, k, ok), k)
  {
  }

  lemma AnnouncePasses(s: Shell, k: nat, intent: Intent, c: Check)
    requires k in s.workers && s.workers[k].stage == Announcing && StandsBehind(AnnounceStep(s, k), k, intent, c)
    ensures StandsBehind(s, k, intent, c)
  {
    AnnounceStands(s, k);
  }

  lemma AdmitPasses(s: Shell, k: nat, intent: Intent, c: Check)
    requires k in s.workers && s.workers[k].stage.Admitting?
    ensures !StandsBehind(AdmitStep(s, k), k, intent, c)
  {
    AdmitStands(s, k);
  }

  lemma FinishPasses(s: Shell, k: nat, ok: bool, intent: Intent, c: Check)
    requires k in s.workers
    ensures !StandsBehind(FinishStep(s, k, ok), k, intent, c)
  {
    FinishStands(s, k, ok);
  }

  lemma WriterPasses(s: Shell, k: nat, ok: bool, intent: Intent, c: Check)
    requires k in s.workers && !Waits(s.workers[k].stage)
    requires StandsBehind(AdvanceStep(s, k, ok), k, intent, c)
    ensures StandsBehind(s, k, intent, c)
  {
    AdvanceOf(s, k, ok);
    var stage := s.workers[k].stage;
    if stage.Announcing? {
      AnnouncePasses(s, k, intent, c);
    } else if stage.Admitting? {
      AdmitPasses(s, k, intent, c);
    } else {
      FinishPasses(s, k, stage.ok, intent, c);
    }
  }

  lemma OtherAdvances(s: Shell, other: nat, ok: bool)
    requires other in s.workers
    ensures OthersStand(s, AdvanceStep(s, other, ok), other)
  {
    AdvanceOf(s, other, ok);
    match s.workers[other].stage
    case Announcing => AnnounceStands(s, other);
    case Admitting(_) => AdmitStands(s, other);
    case Finishing(result) => FinishStands(s, other, result);
    case _ => QuietStands(s, other, ok);
  }

  lemma OtherStands(s: Shell, u: Shell, other: nat, k: nat, intent: Intent, c: Check)
    requires OthersStand(s, u, other) && other != k && StandsBehind(u, k, intent, c)
    ensures StandsBehind(s, k, intent, c)
  {
  }

  lemma AdvancePasses(s: Shell, other: nat, ok: bool, k: nat, intent: Intent, c: Check)
    requires other in s.workers && StandsBehind(AdvanceStep(s, other, ok), k, intent, c)
    ensures StandsBehind(s, k, intent, c) || PassesNow(s, Advance(other, ok), k, intent, c)
  {
    if other != k {
      OtherAdvances(s, other, ok);
      OtherStands(s, AdvanceStep(s, other, ok), other, k, intent, c);
    } else if Waits(s.workers[k].stage) {
      AdvanceOf(s, k, ok);
      QuietPasses(s, k, ok, intent, c);
    } else {
      WriterPasses(s, k, ok, intent, c);
    }
  }

  lemma EntryPasses(s: Shell, wanted: Intent, entered: (TerminalState, Entry), k: nat, intent: Intent, c: Check)
    requires StandsBehind(EntryStep(s, wanted, entered), k, intent, c)
    ensures StandsBehind(s, k, intent, c)
  {
  }

  lemma OwnerKeepsWorkers(s: Shell, a: Action)
    ensures OwnerStep(s, a).workers == s.workers
  {
    match a
    case EnterExit(_) =>
    case Advance(_, _) =>
    case Crash(_) =>
    case Answer(_, _) =>
    case UpdateFinished =>
    case LoopEnds =>
    case FencePasses =>
    case TasksClose =>
    case ServerSettles =>
    case LoopSettles =>
    case ExitAllowed =>
    case ServicesReleased =>
    case WorkStarts =>
    case WorkEnds =>
  }

  lemma StepPasses(s: Shell, a: Action, k: nat, intent: Intent, c: Check)
    requires StandsBehind(Apply(s, a), k, intent, c)
    ensures StandsBehind(s, k, intent, c) || PassesNow(s, a, k, intent, c)
  {
    match a
    case EnterExit(wanted) => EntryPasses(s, wanted, Enter(s.terminal, wanted, s.started), k, intent, c);
    case Advance(other, ok) => if other in s.workers { AdvancePasses(s, other, ok, k, intent, c); }
    case Crash(_) =>
    case Answer(_, _) =>
    case _ => OwnerKeepsWorkers(s, a);
  }

  lemma {:induction false} WhoeverStandsHasPassed(trace: seq<Action>, n: nat, k: nat, intent: Intent, c: Check)
    requires n <= |trace| && StandsBehind(At(trace, n), k, intent, c)
    ensures Passed(trace, n, k, intent, c)
  {
    if n > 0 {
      AtSucc(trace, n - 1);
      StepPasses(At(trace, n - 1), trace[n - 1], k, intent, c);
      if StandsBehind(At(trace, n - 1), k, intent, c) {
        WhoeverStandsHasPassed(trace, n - 1, k, intent, c);
      } else {
        assert PassedAt(trace, n - 1, k, intent, c);
      }
    }
  }

  // In any run, the attempt that admits had passed its domain refusals and flushed pending changes.
  lemma {:induction false} AdmissionPassedItsChecks(trace: seq<Action>, n: nat)
    requires n < |trace| && !At(trace, n).terminal.admitted && At(trace, n + 1).terminal.admitted
    ensures trace[n].Advance? && At(trace, n).terminal.intent.Some?
    ensures Passed(trace, n, trace[n].attempt, At(trace, n).terminal.intent.value, Preflight)
    ensures Passed(trace, n, trace[n].attempt, At(trace, n).terminal.intent.value, Skins)
  {
    AtInv(trace, n);
    AtSucc(trace, n);
    AdmitStepBy(At(trace, n), trace[n]);
    var k := trace[n].attempt;
    WorkerHolds(At(trace, n), k);
    WhoeverStandsHasPassed(trace, n, k, At(trace, n).terminal.intent.value, Preflight);
    WhoeverStandsHasPassed(trace, n, k, At(trace, n).terminal.intent.value, Skins);
  }

  predicate SameOutcome(s: Shell, u: Shell, k: nat) {
    k in u.outcomes ==> k in s.outcomes && u.outcomes[k] == s.outcomes[k]
  }

  lemma EntryKeepsOutcome(s: Shell, wanted: Intent, entered: (TerminalState, Entry), k: nat)
    ensures SameOutcome(s, EntryStep(s, wanted, entered), k)
  {
  }

  lemma OwnerKeepsOutcome(s: Shell, a: Action, k: nat)
    ensures SameOutcome(s, OwnerStep(s, a), k)
  {
  }

  lemma AdvanceOutcome(s: Shell, other: nat, ok: bool, k: nat)
    requires other in s.workers && !SameOutcome(s, AdvanceStep(s, other, ok), k)
    ensures other == k && s.workers[k].stage == Finishing(AdvanceStep(s, other, ok).outcomes[k])
  {
    if s.workers[other].stage.Finishing? {
      AdvanceOf(s, other, ok);
    } else {
      AdvanceKeepsAttempts(s, other, ok);
    }
  }

  lemma StepOutcome(s: Shell, a: Action, k: nat)
    requires !SameOutcome(s, Apply(s, a), k)
    ensures a.Advance? && a.attempt == k && k in s.workers
    ensures s.workers[k].stage == Finishing(Apply(s, a).outcomes[k])
  {
    OwnerKeepsOutcome(s, a, k);
    match a
    case EnterExit(wanted) => EntryKeepsOutcome(s, wanted, Enter(s.terminal, wanted, s.started), k);
    case Advance(other, ok) => if other in s.workers { AdvanceOutcome(s, other, ok, k); }
    case Crash(_) =>
    case Answer(_, _) =>
    case _ =>
  }

  // Attempt `k` has published the result `ok` by step `n`.
  ghost predicate Published(trace: seq<Action>, n: nat, k: nat, ok: bool) {
    if n <= |trace| then k in At(trace, n).outcomes && At(trace, n).outcomes[k] == ok else false
  }

  // Step `i` publishes it.
  ghost predicate PublishedBy(trace: seq<Action>, i: nat, k: nat, ok: bool) {
    if i < |trace| then
      && trace[i].Advance? && trace[i].attempt == k
      && k in At(trace, i).workers && At(trace, i).workers[k].stage == Finishing(ok)
    else false
  }

  lemma PublishedNow(trace: seq<Action>, n: nat, k: nat, ok: bool)
    requires n < |trace| && Published(trace, n + 1, k, ok) && !Published(trace, n, k, ok)
    ensures PublishedBy(trace, n, k, ok)
  {
    AtSucc(trace, n);
    StepOutcome(At(trace, n), trace[n], k);
  }

  lemma {:induction false} PublishedAt(trace: seq<Action>, n: nat, k: nat, ok: bool) returns (i: nat)
    requires Published(trace, n, k, ok)
    ensures i < n && PublishedBy(trace, i, k, ok)
  {
    if n == 0 {
      assert false;
    } else {
      i := n - 1;
      if Published(trace, n - 1, k, ok) {
        i := PublishedAt(trace, n - 1, k, ok);
      } else {
        PublishedNow(trace, n - 1, k, ok);
      }
    }
  }

  lemma PassedBefore(trace: seq<Action>, i: nat, n: nat, k: nat, intent: Intent, c: Check)
    requires i <= n && Passed(trace, i, k, intent, c)
    ensures Passed(trace, n, k, intent, c)
  {
    var j: nat :| j < i && PassedAt(trace, j, k, intent, c);
  }

  // In any run, an attempt reported as a success had drained the files, passed the checks after settlement
  // unless it was a close or a restart, and for all but an update seen the server settle.
  lemma {:induction false} SuccessPassedItsChecks(trace: seq<Action>, n: nat, k: nat) returns (intent: Intent)
    requires n <= |trace| && k in At(trace, n).outcomes && At(trace, n).outcomes[k]
    ensures Passed(trace, n, k, intent, Drain) && Passed(trace, n, k, intent, Verify)
    ensures intent != Update ==> Passed(trace, n, k, intent, Stop)
  {
    var i := PublishedAt(trace, n, k, true);
    intent := At(trace, i).workers[k].intent;
    WhoeverStandsHasPassed(trace, i, k, intent, Drain);
    WhoeverStandsHasPassed(trace, i, k, intent, Verify);
    PassedBefore(trace, i, n, k, intent, Drain);
    PassedBefore(trace, i, n, k, intent, Verify);
    if intent != Update {
      WhoeverStandsHasPassed(trace, i, k, intent, Stop);
      PassedBefore(trace, i, n, k, intent, Stop);
    }
  }

  // ---------------------------------------------------------------- nothing but refusals in the way

  // The one worker there is works for `intent` and stands at `stage`.
  ghost predicate WorksAt(s: Shell, k: nat, intent: Intent, stage: Stage) {
    match s
    case Shell(_, _, _, _, _, _, _, _, _, _, _, _) =>
      && s.terminal.active == Some(k) && s.terminal.intent == Some(intent) && !s.released
      && k in s.workers && s.workers[k] == Worker(intent, stage)
  }

  lemma StageShape(s: Shell, k: nat, intent: Intent, stage: Stage)
    requires WorksAt(s, k, intent, stage) && Waits(stage)
    ensures var next := NextStage(s, Worker(intent, stage), true);
      && WorksAt(Apply(s, Advance(k, true)), k, intent, next)
      && Apply(s, Advance(k, true)) == WithStage(s, k, next).(closing := s.closing || stage.JoiningTasks?)
  {
    AdvanceOf(s, k, true);
  }

  // A worker that waits goes on while foreign results are good.
  lemma GoesOn(o: Shell, s: Shell, k: nat, intent: Intent, stage: Stage, next: Stage) returns (u: Shell)
    requires TerminalRelease.Path(o, s, false) && WorksAt(s, k, intent, stage) && Waits(stage)
    requires NextStage(s, Worker(intent, stage), true) == next
    ensures TerminalRelease.Path(o, u, false) && WorksAt(u, k, intent, next)
    ensures u.terminal == s.terminal && u.work == s.work
  {
    StageShape(s, k, intent, stage);
    u := TerminalRelease.Next(o, s, false, Advance(k, true));
  }

  // A caller with nobody in its way starts an attempt.
  lemma Calls(o: Shell, s: Shell, intent: Intent) returns (u: Shell)
    requires TerminalRelease.Path(o, s, false) && !s.released
    requires s.terminal.active.None? && !s.terminal.prepared && !TooLate(s.terminal, intent)
    requires s.terminal.intent.None? || s.terminal.intent == Some(intent)
    ensures TerminalRelease.Path(o, u, false) && WorksAt(u, s.started, intent, Starting)
    ensures u.terminal == s.terminal.(intent := Some(intent), active := Some(s.started))
  {
    CallableState(s);
    AnswerOf(s.terminal, intent, s.started);
    CallerShape(s, intent);
    u := TerminalRelease.Next(o, s, false, EnterExit(intent));
  }

  lemma FinishShape(s: Shell, k: nat, intent: Intent)
    requires WorksAt(s, k, intent, Finishing(true)) && s.terminal.admitted
    ensures var u := Apply(s, Advance(k, true));
      && u.terminal == s.terminal.(active := None, prepared := true) && !u.released
      && u.exitGranted == (s.exitGranted || intent != Update)
  {
    AdvanceOf(s, k, true);
    assert Finish(s.terminal, k, true) == s.terminal.(active := None, prepared := true);
  }

  lemma ServerShape(s: Shell)
    requires s.Joined()
    ensures Apply(s, ServerSettles) == s.(serverSettled := true)
  {
  }

  lemma StopsServer(o: Shell, s: Shell, k: nat, intent: Intent) returns (u: Shell)
    requires TerminalRelease.Path(o, s, false) && WorksAt(s, k, intent, Draining) && intent != Update
    ensures TerminalRelease.Path(o, u, false) && WorksAt(u, k, intent, Checking) && u.terminal == s.terminal
  {
    u := GoesOn(o, s, k, intent, Draining, StoppingServer);
    assert k in u.workers.Keys;
    ServerShape(u);
    u := TerminalRelease.Next(o, u, false, ServerSettles);
    u := GoesOn(o, u, k, intent, StoppingServer, Checking);
  }

  // Past the tasks, an attempt of any intent can come to its end.
  lemma Settles(o: Shell, s: Shell, k: nat, intent: Intent) returns (u: Shell)
    requires TerminalRelease.Path(o, s, false) && WorksAt(s, k, intent, Draining)
    ensures TerminalRelease.Path(o, u, false) && WorksAt(u, k, intent, Finishing(true)) && u.terminal == s.terminal
  {
    if intent == Update {
      u := GoesOn(o, s, k, intent, Draining, Checking);
    } else {
      u := StopsServer(o, s, k, intent);
    }
    u := GoesOn(o, u, k, intent, Checking, Finishing(true));
  }

  lemma Prepares(o: Shell, s: Shell, k: nat, intent: Intent) returns (u: Shell)
    requires TerminalRelease.Path(o, s, false) && WorksAt(s, k, intent, Starting) && s.terminal.admitted
    ensures TerminalRelease.Path(o, u, false) && !u.released
    ensures u.terminal == s.terminal.(active := None, prepared := true)
  {
    u := GoesOn(o, s, k, intent, Starting, Reading);
    u := GoesOn(o, u, k, intent, Reading, JoiningTasks);
    u := TerminalRelease.DrainWork(o, u, false);
    u := GoesOn(o, u, k, intent, JoiningTasks, Draining);
    u := Settles(o, u, k, intent);
    FinishShape(u, k, intent);
    u := TerminalRelease.Next(o, u, false, Advance(k, true));
  }

  lemma ToPrepared(o: Shell, s: Shell) returns (u: Shell)
    requires TerminalRelease.Path(o, s, false) && s.terminal.admitted && !s.released
    ensures TerminalRelease.Path(o, u, false) && !u.released
    ensures u.terminal.prepared && u.terminal.admitted && u.terminal.intent == s.terminal.intent
  {
    u := TerminalRelease.Quieten(o, s, false);
    if !u.terminal.prepared {
      var intent := u.terminal.intent.value;
      var k := u.started;
      u := Calls(o, u, intent);
      u := Prepares(o, u, k, intent);
    }
  }

  // Whatever has failed since, an admitted intent can still be prepared until the services are released.
  lemma {:induction false} PreparationIsPossible(s: Shell) returns (u: Shell)
    requires Reachable(s) && s.terminal.admitted && !s.released
    ensures Leads(s, u) && u.terminal.prepared && u.terminal.intent == s.terminal.intent
  {
    ReachableHasInv(s);
    TerminalRelease.GoesNowhere(s, false);
    u := ToPrepared(s, s);
  }

  lemma CarryShape(s: Shell)
    requires s.exitGranted && !s.released
    ensures Apply(Apply(s, ExitAllowed), LoopEnds)
         == s.(exitAllowed := true, terminal := s.terminal.(loopEnded := true))
  {
    assert Apply(s, ExitAllowed) == s.(exitAllowed := true);
  }

  // An admitted restart can still be carried through.
  lemma {:induction false} RestartIsPossible(s: Shell) returns (u: Shell)
    requires Reachable(s) && s.terminal.admitted && s.terminal.intent == Some(Restart) && !s.released
    ensures Leads(s, u) && RestartReady(u.terminal, u.exitAllowed)
  {
    ReachableHasInv(s);
    TerminalRelease.GoesNowhere(s, false);
    u := ToPrepared(s, s);
    CarryShape(u);
    u := TerminalRelease.Next(s, u, false, ExitAllowed);
    u := TerminalRelease.Next(s, u, false, LoopEnds);
  }

  // ---------------------------------------------------------------- up to admission

  lemma MintShape(s: Shell, k: nat, intent: Intent)
    requires WorksAt(s, k, intent, Announcing) && !s.terminal.loopEnded && s.terminal.sequence < MAX_SEQUENCE
    ensures var u, n := Apply(s, Advance(k, true)), s.terminal.sequence + 1;
      && WorksAt(u, k, intent, Awaiting(n))
      && u.terminal == s.terminal.(
           sequence := n, preferences := Some(PreferenceRequest(PreferenceEvent(n, PhaseFor(intent)), None)))
  {
    var n := s.terminal.sequence + 1;
    var request := PreferenceRequest(PreferenceEvent(n, PhaseFor(intent)), None);
    AdvanceOf(s, k, true);
    assert Announce(s.terminal, intent) == Some(s.terminal.(sequence := n, preferences := Some(request)));
  }

  lemma AnswerShape(s: Shell, request: PreferenceRequest)
    requires s.terminal.preferences == Some(request) && request.answer == None && request.event.phase != Release
    requires !s.terminal.loopEnded && !s.terminal.admitted && s.terminal.active.Some?
    requires request.event.request <= MAX_SEQUENCE
    ensures Apply(s, Answer(RequestId(request.event.request), true))
         == s.(terminal := s.terminal.(preferences := Some(request.(answer := Some(true)))))
  {
    RequestIdFits(request.event.request);
  }

  lemma AdmitShape(s: Shell, k: nat, intent: Intent, n: nat)
    requires WorksAt(s, k, intent, Admitting(n)) && !s.terminal.loopEnded && s.work == 0
    ensures var u := Apply(s, Advance(k, true));
      u.terminal.admitted && u.terminal.intent == Some(intent) && !u.terminal.loopEnded
  {
    AdvanceOf(s, k, true);
  }

  lemma Preflights(o: Shell, s: Shell, k: nat, intent: Intent) returns (u: Shell)
    requires TerminalRelease.Path(o, s, false) && WorksAt(s, k, intent, Starting) && !s.terminal.admitted
    ensures TerminalRelease.Path(o, u, false) && WorksAt(u, k, intent, Announcing) && u.terminal == s.terminal
  {
    u := GoesOn(o, s, k, intent, Starting, Reading);
    u := GoesOn(o, u, k, intent, Reading, Preflighting);
    u := GoesOn(o, u, k, intent, Preflighting, Announcing);
  }

  lemma Asks(o: Shell, s: Shell, k: nat, intent: Intent) returns (u: Shell)
    requires TerminalRelease.Path(o, s, false) && WorksAt(s, k, intent, Starting)
    requires !s.terminal.admitted && !s.terminal.loopEnded && s.terminal.sequence < MAX_SEQUENCE
    ensures TerminalRelease.Path(o, u, false) && WorksAt(u, k, intent, Awaiting(u.terminal.sequence))
    ensures !u.terminal.admitted && !u.terminal.loopEnded && u.terminal.sequence <= MAX_SEQUENCE
    ensures u.terminal.preferences ==
            Some(PreferenceRequest(PreferenceEvent(u.terminal.sequence, PhaseFor(intent)), None))
  {
    u := Preflights(o, s, k, intent);
    MintShape(u, k, intent);
    u := TerminalRelease.Next(o, u, false, Advance(k, true));
  }

  lemma Heard(o: Shell, s: Shell, k: nat, intent: Intent, request: PreferenceRequest) returns (u: Shell)
    requires TerminalRelease.Path(o, s, false) && WorksAt(s, k, intent, Awaiting(request.event.request))
    requires !s.terminal.admitted && !s.terminal.loopEnded && request.event.request <= MAX_SEQUENCE
    requires s.terminal.preferences == Some(request) && request.answer == None && request.event.phase != Release
    ensures TerminalRelease.Path(o, u, false) && WorksAt(u, k, intent, Admitting(request.event.request))
    ensures !u.terminal.loopEnded
  {
    var n := request.event.request;
    AnswerShape(s, request);
    u := TerminalRelease.Next(o, s, false, Answer(RequestId(n), true));
    u := GoesOn(o, u, k, intent, Awaiting(n), Flushing(n));
    u := GoesOn(o, u, k, intent, Flushing(n), Admitting(n));
  }

  lemma Admits(o: Shell, s: Shell, k: nat, intent: Intent) returns (u: Shell)
    requires TerminalRelease.Path(o, s, false) && WorksAt(s, k, intent, Starting)
    requires !s.terminal.admitted && !s.terminal.loopEnded && s.terminal.sequence < MAX_SEQUENCE
    ensures TerminalRelease.Path(o, u, false) && u.terminal.admitted && u.terminal.intent == Some(intent)
  {
    u := Asks(o, s, k, intent);
    var n := u.terminal.sequence;
    u := Heard(o, u, k, intent, u.terminal.preferences.value);
    u := TerminalRelease.DrainWork(o, u, false);
    AdmitShape(u, k, intent, n);
    u := TerminalRelease.Next(o, u, false, Advance(k, true));
  }

  // While the loop lives and request numbers are left, every intent can be admitted from every state in
  // which none has been.
  lemma {:induction false} AdmissionIsPossible(s: Shell, intent: Intent) returns (u: Shell)
    requires Reachable(s) && !s.terminal.admitted && !s.terminal.loopEnded && s.terminal.sequence < MAX_SEQUENCE
    ensures Leads(s, u) && u.terminal.admitted && u.terminal.intent == Some(intent)
  {
    ReachableHasInv(s);
    TerminalRelease.GoesNowhere(s, false);
    u := TerminalRelease.Quieten(s, s, false);
    var k := u.started;
    u := Calls(s, u, intent);
    u := Admits(s, u, k, intent);
  }
}
