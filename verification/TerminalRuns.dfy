/**
 Every interleaving of the terminal protocol: `prepare_exit` callers, detached attempt workers,
 renderer acknowledgements, timeouts, worker panics, the updater, event-loop death, the task owner
 and the API server. One action is one lock-held block or one step outside the lock; an action that
 is not enabled leaves the state as it is, so a trace is any sequence of actions.
 */
module TerminalRuns {
  import opened Basics
  import opened RequestIds
  import opened Terminal

  datatype Stage =
    | Starting                     // about to take the retained services
    | Reading                      // about to read `admitted`
    | Preflighting                 // domain refusals before anything irreversible
    | Announcing                   // about to mint a preference request
    | Awaiting(request: nat)       // in the acknowledgement loop
    | Flushing(request: nat)       // acknowledged; pending skin changes
    | Admitting(request: nat)      // about to admit
    | JoiningTasks                 // waiting for the task owner
    | Draining                     // skin files and presence
    | StoppingServer               // waiting for the API server
    | Checking                     // domain checks after settlement
    | Finishing(ok: bool)          // the result is known; `finish_attempt` is pending

  datatype Worker = Worker(intent: Intent, stage: Stage)

  datatype Shell = Shell(
    terminal: TerminalState,
    published: Option<PreferenceEvent>,
    workers: map<nat, Worker>,
    outcomes: map<nat, bool>,
    started: nat,
    closing: bool,
    work: nat,
    serverSettled: bool,
    released: bool,
    fencePassed: bool,
    exitGranted: bool,
    exitAllowed: bool)
  {
    predicate Joined() { closing && work == 0 }
  }

  const START := Shell(INITIAL, None, map[], map[], 0, false, 0, false, false, false, false, false)

  datatype Action =
    | EnterExit(intent: Intent)
    | Advance(attempt: nat, ok: bool)     // `ok` decides timeouts, preflights and foreign results
    | Crash(attempt: nat)                 // the worker unwinds; its owner reports a failure
    | Answer(id: string, saved: bool)
    | UpdateFinished
    | LoopEnds
    | FencePasses
    | TasksClose
    | ServerSettles
    | LoopSettles
    | ExitAllowed
    | ServicesReleased
    | WorkStarts
    | WorkEnds

  function WithStage(s: Shell, attempt: nat, stage: Stage): (u: Shell)
    requires attempt in s.workers
    ensures attempt in u.workers
  {
    s.(workers := s.workers[attempt := s.workers[attempt].(stage := stage)])
  }

  function EntryStep(s: Shell, intent: Intent, entered: (TerminalState, Entry)): Shell {
    var u := s.(terminal := entered.0);
    match entered.1
    case Refused(_) => u
    case Ready => u.(exitGranted := s.exitGranted || intent != Update)
    case Join(_) => u
    case Spawn(attempt) => u.(started := s.started + 1, workers := s.workers[attempt := Worker(intent, Starting)])
  }

  lemma EntryHasTerminal(s: Shell, intent: Intent, entered: (TerminalState, Entry))
    ensures EntryStep(s, intent, entered).terminal == entered.0
  {
  }

  function EnterStep(s: Shell, intent: Intent): Shell {
    EntryStep(s, intent, Enter(s.terminal, intent, s.started))
  }

  function FinishStep(s: Shell, attempt: nat, ok: bool): Shell
    requires attempt in s.workers
  {
    var w := s.workers[attempt];
    var rest := s.(workers := s.workers - {attempt});
    if s.terminal.active != Some(attempt) then rest
    else
      var t := Finish(s.terminal, attempt, ok);
      rest.(
        terminal := t,
        outcomes := s.outcomes[attempt := ok],
        published := if !t.admitted && t.preferences.Some? then Some(t.preferences.value.event) else s.published,
        exitGranted := s.exitGranted || (ok && w.intent != Update))
  }

  // The stages in which a worker does not write under the lock.
  predicate Waits(stage: Stage) {
    !stage.Announcing? && !stage.Admitting? && !stage.Finishing?
  }

  // Where such a stage leads.
  function NextStage(s: Shell, w: Worker, ok: bool): Stage {
    var failed := Finishing(false);
    match w.stage
    case Starting => if s.released then failed else Reading
    case Reading => if s.terminal.admitted then JoiningTasks else Preflighting
    case Preflighting => if ok then Announcing else failed
    case Awaiting(n) =>
      (match Observe(s.terminal, n)
       case GaveUp => failed
       case Saved => Flushing(n)
       case Waiting => if ok then w.stage else failed)
    case Flushing(n) => if ok then Admitting(n) else failed
    case JoiningTasks => if s.work == 0 then Draining else if ok then w.stage else failed
    case Draining => if !ok then failed else if w.intent == Update then Checking else StoppingServer
    case StoppingServer => if !ok then failed else if s.serverSettled then Checking else w.stage
    case Checking => if ok || w.intent == Close || w.intent == Restart then Finishing(true) else failed
    case _ => w.stage
  }

  function QuietStep(s: Shell, attempt: nat, ok: bool): Shell
    requires attempt in s.workers
  {
    var w := s.workers[attempt];
    WithStage(s, attempt, NextStage(s, w, ok)).(closing := s.closing || w.stage.JoiningTasks?)
  }

  function AnnounceStep(s: Shell, attempt: nat): (u: Shell)
    requires attempt in s.workers
    ensures attempt in u.workers
  {
    var minted := Announce(s.terminal, s.workers[attempt].intent);
    if minted.None? then WithStage(s, attempt, Finishing(false))
    else
      var event := minted.value.preferences.value.event;
      WithStage(s, attempt, Awaiting(event.request)).(terminal := minted.value, published := Some(event))
  }

  function AdmitStep(s: Shell, attempt: nat): Shell
    requires attempt in s.workers
  {
    if MayAdmit(s.terminal, s.workers[attempt].intent, s.work == 0)
    then WithStage(s, attempt, JoiningTasks).(terminal := Admit(s.terminal), closing := true)
    else WithStage(s, attempt, Finishing(false))
  }

  function AdvanceStep(s: Shell, attempt: nat, ok: bool): Shell
    requires attempt in s.workers
  {
    var w := s.workers[attempt];
    match w.stage
    case Announcing => AnnounceStep(s, attempt)
    case Admitting(_) => AdmitStep(s, attempt)
    case Finishing(result) => FinishStep(s, attempt, result)
    case _ => QuietStep(s, attempt, ok)
  }

  // What the updater, the owner of the event loop, the task owner and the server do.
  function OwnerStep(s: Shell, a: Action): Shell {
    match a
    case UpdateFinished => s.(terminal := FinishUpdate(s.terminal))
    case LoopEnds => if s.released then s else s.(terminal := s.terminal.(loopEnded := true))
    case FencePasses => if s.terminal.loopEnded && !Installing(s.terminal) then s.(fencePassed := true) else s
    case TasksClose => if s.fencePassed then s.(closing := true) else s
    case ServerSettles => if s.Joined() then s.(serverSettled := true) else s
    case LoopSettles =>
      if s.fencePassed && s.serverSettled then s.(terminal := s.terminal.(loopSettled := true)) else s
    case ExitAllowed => if s.exitGranted || s.terminal.loopSettled then s.(exitAllowed := true) else s
    case ServicesReleased =>
      if MayRelease(s.terminal, s.Joined(), s.serverSettled, s.released) then s.(released := true) else s
    case WorkStarts => if s.closing then s else s.(work := s.work + 1)
    case WorkEnds => if s.work > 0 then s.(work := s.work - 1) else s
    case _ => s
  }

  function CrashStep(s: Shell, attempt: nat): Shell {
    if attempt in s.workers then WithStage(s, attempt, Finishing(false)) else s
  }

  function Apply(s: Shell, a: Action): Shell {
    match a
    case EnterExit(intent) => EnterStep(s, intent)
    case Advance(attempt, ok) => if attempt in s.workers then AdvanceStep(s, attempt, ok) else s
    case Crash(attempt) => CrashStep(s, attempt)
    case Answer(id, saved) => s.(terminal := Acknowledge(s.terminal, id, saved))
    case _ => OwnerStep(s, a)
  }

  function Run(s: Shell, trace: seq<Action>): Shell {
    if trace == [] then s else Apply(Run(s, trace[..|trace| - 1]), trace[|trace| - 1])
  }

  // The state after the first `i` actions of a run from the start.
  function At(trace: seq<Action>, i: nat): Shell
    requires i <= |trace|
  {
    Run(START, trace[..i])
  }

  lemma AtSucc(trace: seq<Action>, i: nat)
    requires i < |trace|
    ensures At(trace, i + 1) == Apply(At(trace, i), trace[i])
  {
    assert trace[..i + 1][..i] == trace[..i];
  }

  // ---------------------------------------------------------------- the inductive invariant

  ghost predicate WorkerAgrees(s: Shell, w: Worker) {
    var t := s.terminal;
    && t.intent == Some(w.intent)
    && !t.prepared
    && match w.stage
       case Starting => t.admitted || NoLiveRequest(t)
       case Reading => t.admitted || NoLiveRequest(t)
       case Preflighting => !t.admitted && NoLiveRequest(t)
       case Announcing => !t.admitted && NoLiveRequest(t)
       case Awaiting(n) => !t.admitted && LiveRequest(t, n)
       case Flushing(n) => !t.admitted && LiveRequest(t, n) && t.preferences.value.answer == Some(true)
       case Admitting(n) => !t.admitted && LiveRequest(t, n) && t.preferences.value.answer == Some(true)
       case JoiningTasks => t.admitted
       case Draining => t.admitted && s.Joined()
       case StoppingServer => t.admitted && s.Joined() && w.intent != Update
       case Checking => t.admitted && s.Joined() && (w.intent != Update ==> s.serverSettled)
       case Finishing(ok) =>
         ok ==> t.admitted && s.Joined() && (w.intent != Update ==> s.serverSettled)
  }

  predicate LiveRequest(t: TerminalState, n: nat) {
    t.preferences.Some? && t.preferences.value.event.request == n && t.preferences.value.event.phase != Release
  }

  predicate NoLiveRequest(t: TerminalState) {
    t.preferences.Some? ==> t.preferences.value.event.phase == Release
  }

  // Stages that hold no services.
  predicate Idle(stage: Stage) {
    stage == Starting || stage == Finishing(false)
  }

  ghost predicate AttemptsAgree(s: Shell) {
    var t := s.terminal;
    && (t.active.None? ==> s.workers == map[])
    && (t.active.Some? ==>
          && s.workers.Keys == {t.active.value}
          && t.active.value < s.started
          && t.active.value !in s.outcomes
          && WorkerAgrees(s, s.workers[t.active.value])
          && (s.released ==> Idle(s.workers[t.active.value].stage)))
    && (forall k :: k in s.outcomes ==> k < s.started && (s.outcomes[k] ==> t.admitted))
    && (forall k: nat :: k < s.started ==> k in s.outcomes || t.active == Some(k))
  }

  ghost predicate IntentAgrees(s: Shell) {
    var t := s.terminal;
    && (t.prepared ==> t.admitted && t.active.None? && t.intent.Some?)
    && (!t.admitted && t.active.None? ==> t.intent.None?)
    && (t.admitted ==> t.intent.Some? && s.closing)
    && (t.updateSettled ==> t.admitted)
    && (t.prepared ==> s.Joined())
    && (t.prepared && t.intent != Some(Update) ==> s.serverSettled)
  }

  ghost predicate PreferencesAgree(s: Shell) {
    var t := s.terminal;
    && t.sequence <= MAX_SEQUENCE
    && (s.published.None? <==> t.sequence == 0)
    && (s.published.Some? ==> s.published.value.request == t.sequence)
    && (t.preferences.Some? ==>
          && s.published == Some(t.preferences.value.event)
          && (t.preferences.value.event.phase == Release ==> t.preferences.value.answer.None?)
          && (t.preferences.value.event.phase != Release ==>
                t.active.Some? && t.intent.Some? && t.preferences.value.event.phase == PhaseFor(t.intent.value)))
    && (t.preferences.None? && !t.admitted ==> t.sequence == 0)
    && (t.admitted ==> t.preferences.None? && s.published.Some? && s.published.value.phase != Release)
  }

  ghost predicate ExitAgrees(s: Shell) {
    var t := s.terminal;
    && (s.serverSettled ==> s.Joined())
    && (s.fencePassed ==> t.loopEnded)
    && (t.loopSettled ==> t.loopEnded && s.serverSettled)
    && (s.released ==> t.loopSettled)
    && (s.released ==> !UnsettledUpdate(t))
    && (s.exitGranted <==> t.prepared && t.intent != Some(Update))
    && (s.exitAllowed ==> s.exitGranted || t.loopSettled)
  }

  // A match, so that a caller carries the invariant as one fact.
  ghost predicate Inv(s: Shell) {
    match s
    case Shell(_, _, _, _, _, _, _, _, _, _, _, _) =>
      AttemptsAgree(s) && IntentAgrees(s) && PreferencesAgree(s) && ExitAgrees(s)
  }

  lemma HandOffKeepsInv(s: Shell, intent: Intent)
    requires Inv(s)
    ensures Inv(s.(terminal := HandOff(s.terminal, intent)))
  {
  }

  lemma SpawnKeepsInv(s: Shell, intent: Intent)
    requires Inv(s) && !s.terminal.prepared && s.terminal.active.None?
    requires Takes(s.terminal, intent)
    ensures Inv(SpawnStep(s, intent))
  {
    assert s.workers[s.started := Worker(intent, Starting)].Keys == {s.started};
  }

  function SpawnStep(h: Shell, intent: Intent): Shell {
    h.(
      terminal := h.terminal.(intent := Some(intent), active := Some(h.started)),
      started := h.started + 1,
      workers := h.workers[h.started := Worker(intent, Starting)])
  }

  // How one caller can leave the shell `s`, after the handoff gave `h`.
  ghost predicate EnterShape(s: Shell, intent: Intent, h: TerminalState, u: Shell) {
    match h
    case TerminalState(_, _, _, _, _, _, _, _, _) =>
      if TurnedAway(s.terminal, intent) then u == s
      else if !Takes(h, intent) then u == s.(terminal := h)
      else if h.prepared || h.active.Some? then
        u == s.(terminal := h.(intent := Some(intent)),
                exitGranted := s.exitGranted || (h.prepared && intent != Update))
      else u == SpawnStep(s.(terminal := h), intent)
  }

  lemma ReserveSpawns(s: Shell, intent: Intent, h: TerminalState)
    requires Takes(h, intent) && !h.prepared && h.active.None?
    ensures EntryStep(s, intent, Reserve(h, intent, s.started)) == SpawnStep(s.(terminal := h), intent)
  {
  }

  lemma ReserveJoins(s: Shell, intent: Intent, h: TerminalState)
    requires Takes(h, intent) && (h.prepared || h.active.Some?)
    ensures EntryStep(s, intent, Reserve(h, intent, s.started))
            == s.(terminal := h.(intent := Some(intent)),
                  exitGranted := s.exitGranted || (h.prepared && intent != Update))
  {
  }

  lemma EnterHasShape(s: Shell, intent: Intent)
    ensures EnterShape(s, intent, HandOff(s.terminal, intent), EnterStep(s, intent))
  {
    if !TurnedAway(s.terminal, intent) {
      var h := HandOff(s.terminal, intent);
      if Takes(h, intent) {
        if h.prepared || h.active.Some? {
          ReserveJoins(s, intent, h);
        } else {
          ReserveSpawns(s, intent, h);
        }
      }
    }
  }

  lemma ShapeKeepsInv(s: Shell, intent: Intent, h: TerminalState, u: Shell)
    requires Inv(s) && Inv(s.(terminal := h)) && EnterShape(s, intent, h, u)
    ensures Inv(u)
  {
    if !TurnedAway(s.terminal, intent) && Takes(h, intent) {
      if h.prepared || h.active.Some? {
        assert h.intent == Some(intent);
      } else {
        SpawnKeepsInv(s.(terminal := h), intent);
      }
    }
  }

  lemma EnterKeepsInv(s: Shell, intent: Intent)
    requires Inv(s)
    ensures Inv(EnterStep(s, intent))
  {
    EnterHasShape(s, intent);
    HandOffKeepsInv(s, intent);
    ShapeKeepsInv(s, intent, HandOff(s.terminal, intent), EnterStep(s, intent));
  }

  lemma FinishKeepsInv(s: Shell, attempt: nat, ok: bool)
    requires Inv(s) && attempt in s.workers && s.workers[attempt].stage == Finishing(ok)
    ensures Inv(FinishStep(s, attempt, ok))
  {
    assert s.terminal.active == Some(attempt);
    assert (s.workers - {attempt}).Keys == {};
  }

  lemma StageKeepsInv(s: Shell, attempt: nat, stage: Stage)
    requires Inv(s) && attempt in s.workers
    requires WorkerAgrees(s, s.workers[attempt].(stage := stage))
    requires s.released ==> Idle(stage)
    ensures Inv(WithStage(s, attempt, stage))
  {
    assert WithStage(s, attempt, stage).workers.Keys == s.workers.Keys;
  }

  lemma AnnounceKeepsInv(s: Shell, attempt: nat)
    requires Inv(s) && attempt in s.workers && s.workers[attempt].stage == Announcing
    ensures Inv(AnnounceStep(s, attempt))
  {
    if Announce(s.terminal, s.workers[attempt].intent).None? {
      StageKeepsInv(s, attempt, Finishing(false));
    } else {
      assert AnnounceStep(s, attempt).workers.Keys == s.workers.Keys;
    }
  }

  lemma AdmitKeepsInv(s: Shell, attempt: nat)
    requires Inv(s) && attempt in s.workers && s.workers[attempt].stage.Admitting?
    ensures Inv(AdmitStep(s, attempt))
  {
    if !MayAdmit(s.terminal, s.workers[attempt].intent, s.work == 0) {
      StageKeepsInv(s, attempt, Finishing(false));
    } else {
      assert AdmitStep(s, attempt).workers.Keys == s.workers.Keys;
    }
  }

  lemma NextStageAgrees(s: Shell, w: Worker, ok: bool)
    requires Inv(s) && WorkerAgrees(s, w) && (s.released ==> Idle(w.stage))
    requires Waits(w.stage)
    ensures var next := NextStage(s, w, ok);
      WorkerAgrees(s, w.(stage := next)) && (s.released ==> Idle(next)) && (w.stage.JoiningTasks? ==> s.closing)
  {
  }

  lemma QuietKeepsInv(s: Shell, attempt: nat, ok: bool)
    requires Inv(s) && attempt in s.workers && Waits(s.workers[attempt].stage)
    ensures Inv(QuietStep(s, attempt, ok))
  {
    var w := s.workers[attempt];
    NextStageAgrees(s, w, ok);
    StageKeepsInv(s, attempt, NextStage(s, w, ok));
  }

  lemma WriterKeepsInv(s: Shell, attempt: nat, ok: bool)
    requires Inv(s) && attempt in s.workers && !Waits(s.workers[attempt].stage)
    ensures Inv(AdvanceStep(s, attempt, ok))
  {
    match s.workers[attempt].stage
    case Announcing => AnnounceKeepsInv(s, attempt);
    case Admitting(_) => AdmitKeepsInv(s, attempt);
    case Finishing(result) => FinishKeepsInv(s, attempt, result);
  }

  lemma AdvanceKeepsInv(s: Shell, attempt: nat, ok: bool)
    requires Inv(s) && attempt in s.workers
    ensures Inv(AdvanceStep(s, attempt, ok))
  {
    if Waits(s.workers[attempt].stage) {
      QuietKeepsInv(s, attempt, ok);
    } else {
      WriterKeepsInv(s, attempt, ok);
    }
  }

  lemma CrashKeepsInv(s: Shell, attempt: nat)
    requires Inv(s)
    ensures Inv(CrashStep(s, attempt))
  {
    if attempt in s.workers {
      StageKeepsInv(s, attempt, Finishing(false));
    }
  }

  lemma AnswerKeepsInv(s: Shell, id: string, saved: bool)
    requires Inv(s)
    ensures Inv(s.(terminal := Acknowledge(s.terminal, id, saved)))
  {
  }

  lemma OwnersKeepInv(s: Shell, a: Action)
    requires Inv(s)
    requires a.UpdateFinished? || a.TasksClose? || a.ServerSettles? || a.WorkStarts? || a.WorkEnds?
    ensures Inv(OwnerStep(s, a))
  {
    match a
    case UpdateFinished =>
    case TasksClose =>
    case ServerSettles =>
    case WorkStarts =>
    case WorkEnds =>
  }

  lemma LoopKeepsInv(s: Shell, a: Action)
    requires Inv(s) && (a.LoopEnds? || a.FencePasses? || a.LoopSettles?)
    ensures Inv(OwnerStep(s, a))
  {
    match a
    case LoopEnds =>
    case FencePasses =>
    case LoopSettles =>
  }

  lemma ExitKeepsInv(s: Shell, a: Action)
    requires Inv(s) && (a.ExitAllowed? || a.ServicesReleased?)
    ensures Inv(OwnerStep(s, a))
  {
    match a
    case ExitAllowed =>
    case ServicesReleased =>
  }

  lemma OwnerKeepsInv(s: Shell, a: Action)
    requires Inv(s)
    ensures Inv(OwnerStep(s, a))
  {
    match a
    case EnterExit(_) =>
    case Advance(_, _) =>
    case Crash(_) =>
    case Answer(_, _) =>
    case UpdateFinished => OwnersKeepInv(s, a);
    case TasksClose => OwnersKeepInv(s, a);
    case ServerSettles => OwnersKeepInv(s, a);
    case WorkStarts => OwnersKeepInv(s, a);
    case WorkEnds => OwnersKeepInv(s, a);
    case LoopEnds => LoopKeepsInv(s, a);
    case FencePasses => LoopKeepsInv(s, a);
    case LoopSettles => LoopKeepsInv(s, a);
    case ExitAllowed => ExitKeepsInv(s, a);
    case ServicesReleased => ExitKeepsInv(s, a);
  }

  lemma StepKeepsInv(s: Shell, a: Action)
    requires Inv(s)
    ensures Inv(Apply(s, a))
  {
    OwnerKeepsInv(s, a);
    match a
    case EnterExit(intent) => EnterKeepsInv(s, intent);
    case Advance(attempt, ok) => if attempt in s.workers { AdvanceKeepsInv(s, attempt, ok); }
    case Crash(attempt) => CrashKeepsInv(s, attempt);
    case Answer(id, saved) => AnswerKeepsInv(s, id, saved);
    case _ =>
  }

  // The invariant holds after every interleaving, of any length.
  lemma {:induction false} RunKeepsInv(s: Shell, trace: seq<Action>)
    requires Inv(s)
    ensures Inv(Run(s, trace))
  {
    if trace != [] {
      RunKeepsInv(s, trace[..|trace| - 1]);
      StepKeepsInv(Run(s, trace[..|trace| - 1]), trace[|trace| - 1]);
    }
  }

  // Some trace leads from `s` to `u`.
  ghost predicate Leads(s: Shell, u: Shell) {
    exists trace :: u == Run(s, trace)
  }

  ghost predicate Reachable(s: Shell) {
    Leads(START, s)
  }

  lemma ReachableHasInv(s: Shell)
    requires Reachable(s)
    ensures Inv(s)
  {
    var trace :| s == Run(START, trace);
    RunKeepsInv(START, trace);
  }
}
