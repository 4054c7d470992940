/**
 The native updater as the only reporter of update settlement, interleaved with every terminal run:
 one application per process, its wait for `prepare_update`, the window in which it owns the installer,
 and the guard whose drop reports settlement only when the installer never started.
 */
module NativeInstaller {
  import opened Basics
  import opened Terminal
  import opened TerminalRuns
  import opened TerminalTheorems
  import opened TerminalRelease

  datatype Installer =
    | Untouched
    | Awaited(attempt: nat)   // `prepare_update` joined this attempt
    | Holding                 // prepared; the installer has not started
    | Running                 // the installer's effects are in flight
    | Interrupted             // the installer unwound; its effects are unknown
    | Reported                // settlement was reported

  datatype Plant = Plant(shell: Shell, installer: Installer)

  datatype Event =
    | ShellMoves(action: Action)
    | ApplyUpdate
    | Observed
    | Abandoned               // an error before the installer starts
    | Started
    | Returned
    | Unwound

  function RequestStep(p: Plant): Plant {
    var u := p.(shell := EnterStep(p.shell, Update));
    match Enter(p.shell.terminal, Update, p.shell.started).1
    case Refused(_) => u
    case Ready => u.(installer := Holding)
    case Join(attempt) => u.(installer := Awaited(attempt))
    case Spawn(attempt) => u.(installer := Awaited(attempt))
  }

  function ReportStep(p: Plant): Plant {
    Plant(Apply(p.shell, UpdateFinished), Reported)
  }

  function Step(p: Plant, e: Event): Plant {
    match e
    case ShellMoves(action) => if action == UpdateFinished then p else p.(shell := Apply(p.shell, action))
    case ApplyUpdate => if p.installer == Untouched then RequestStep(p) else p
    case Observed =>
      if !p.installer.Awaited? || p.installer.attempt !in p.shell.outcomes then p
      else if p.shell.outcomes[p.installer.attempt] then p.(installer := Holding)
      else p.(installer := Untouched)
    case Abandoned => if p.installer == Holding then ReportStep(p) else p
    case Started => if p.installer == Holding then p.(installer := Running) else p
    case Returned => if p.installer == Running then ReportStep(p) else p
    case Unwound => if p.installer == Running then p.(installer := Interrupted) else p
  }

  function Play(p: Plant, events: seq<Event>): Plant {
    if events == [] then p else Step(Play(p, events[..|events| - 1]), events[|events| - 1])
  }

  const FRESH := Plant(START, Untouched)

  // The installer may own effects that nothing else can join.
  predicate Owns(i: Installer) {
    i == Holding || i == Running || i == Interrupted
  }

  ghost predicate UpdateAttempt(s: Shell, attempt: nat) {
    match s
    case Shell(_, _, _, _, _, _, _, _, _, _, _, _) =>
      && attempt < s.started
      && (s.terminal.active == Some(attempt) ==> s.terminal.intent == Some(Update))
      && (attempt in s.outcomes && s.outcomes[attempt] ==> UnderInstallation(s.terminal))
  }

  // An admitted state with no update that waits for its report.
  predicate Settled(t: TerminalState) {
    t.admitted && !UnsettledUpdate(t)
  }

  ghost predicate Consistent(p: Plant) {
    match p
    case Plant(s, i) =>
      && Inv(s)
      && (Owns(i) ==> UnderInstallation(s.terminal))
      && (i.Awaited? ==> UpdateAttempt(s, i.attempt))
      && (s.terminal.updateSettled ==> i == Reported)
      && (i == Reported ==> Settled(s.terminal))
  }

  lemma HandOffKeepsInstallation(t: TerminalState, intent: Intent)
    ensures HandOff(t, intent).updateSettled == t.updateSettled
    ensures UnderInstallation(t) ==> HandOff(t, intent) == t
  {
  }

  lemma ReserveKeepsInstallation(h: TerminalState, intent: Intent, next: nat)
    ensures var u := Reserve(h, intent, next).0;
      u.updateSettled == h.updateSettled && (UnderInstallation(h) ==> UnderInstallation(u))
  {
  }

  lemma EnterKeepsInstallation(s: Shell, intent: Intent)
    ensures var u := EnterStep(s, intent);
      && u.terminal.updateSettled == s.terminal.updateSettled
      && (UnderInstallation(s.terminal) ==> UnderInstallation(u.terminal))
  {
    HandOffKeepsInstallation(s.terminal, intent);
    ReserveKeepsInstallation(HandOff(s.terminal, intent), intent, s.started);
    EntryHasTerminal(s, intent, Enter(s.terminal, intent, s.started));
  }

  lemma HandOffKeepsUpdateAttempt(s: Shell, intent: Intent, k: nat)
    requires Inv(s) && UpdateAttempt(s, k) && !s.terminal.updateSettled
    ensures UpdateAttempt(s.(terminal := HandOff(s.terminal, intent)), k)
  {
    HandOffKeepsInstallation(s.terminal, intent);
  }

  lemma SpawnKeepsUpdateAttempt(h: Shell, intent: Intent, k: nat)
    requires UpdateAttempt(h, k) && !h.terminal.prepared
    ensures UpdateAttempt(SpawnStep(h, intent), k)
  {
  }

  lemma JoinKeepsUpdateAttempt(h: Shell, intent: Intent, granted: bool, k: nat)
    requires UpdateAttempt(h, k) && Takes(h.terminal, intent)
    requires h.terminal.prepared || h.terminal.active.Some?
    ensures UpdateAttempt(h.(terminal := h.terminal.(intent := Some(intent)), exitGranted := granted), k)
  {
  }

  lemma ShapeKeepsUpdateAttempt(s: Shell, intent: Intent, h: TerminalState, u: Shell, k: nat)
    requires Inv(s) && h == HandOff(s.terminal, intent) && EnterShape(s, intent, h, u)
    requires UpdateAttempt(s, k) && !s.terminal.updateSettled
    ensures UpdateAttempt(u, k)
  {
    HandOffKeepsUpdateAttempt(s, intent, k);
    if TurnedAway(s.terminal, intent) {
    } else if !Takes(h, intent) {
    } else if h.prepared || h.active.Some? {
      JoinKeepsUpdateAttempt(s.(terminal := h), intent, u.exitGranted, k);
    } else {
      SpawnKeepsUpdateAttempt(s.(terminal := h), intent, k);
    }
  }

  lemma FinishKeepsInstallation(s: Shell, attempt: nat, ok: bool, k: nat)
    requires Inv(s) && attempt in s.workers && s.workers[attempt].stage == Finishing(ok)
    ensures var u := FinishStep(s, attempt, ok);
      && (UnderInstallation(s.terminal) ==> UnderInstallation(u.terminal))
      && (!s.terminal.updateSettled ==> !u.terminal.updateSettled)
      && (UpdateAttempt(s, k) && !s.terminal.updateSettled ==> UpdateAttempt(u, k))
  {
    assert s.terminal.active == Some(attempt);
    assert attempt in s.workers.Keys;
  }

  lemma SameKeeps(s: Shell, u: Shell, k: nat)
    requires SameAttempts(s, u) && u.terminal.updateSettled == s.terminal.updateSettled
    ensures UnderInstallation(s.terminal) == UnderInstallation(u.terminal)
    ensures UpdateAttempt(s, k) ==> UpdateAttempt(u, k)
  {
  }

  // A settled state stays settled: no shell move brings an update back.
  lemma SettledStays(s: Shell, a: Action)
    requires Inv(s) && Settled(s.terminal)
    ensures Settled(Apply(s, a).terminal)
  {
    StepFollows(s, a);
  }

  // A shell move that keeps the installation keeps the plant.
  lemma Carry(p: Plant, u: Shell)
    requires Consistent(p) && Inv(u)
    requires var s := p.shell;
      && (UnderInstallation(s.terminal) ==> UnderInstallation(u.terminal))
      && (u.terminal.updateSettled ==> s.terminal.updateSettled)
    requires p.installer.Awaited? ==> UpdateAttempt(u, p.installer.attempt)
    requires p.installer == Reported ==> Settled(u.terminal)
    ensures Consistent(p.(shell := u))
  {
  }

  lemma EnterKeeps(p: Plant, intent: Intent)
    requires Consistent(p)
    ensures Consistent(p.(shell := EnterStep(p.shell, intent)))
  {
    var s, h, u := p.shell, HandOff(p.shell.terminal, intent), EnterStep(p.shell, intent);
    EnterKeepsInv(s, intent);
    EnterHasShape(s, intent);
    EnterKeepsInstallation(s, intent);
    if p.installer == Reported { SettledStays(s, EnterExit(intent)); }
    if p.installer.Awaited? {
      ShapeKeepsUpdateAttempt(s, intent, h, u, p.installer.attempt);
    }
    Carry(p, u);
  }

  lemma FinishKeeps(p: Plant, attempt: nat, ok: bool)
    requires Consistent(p) && attempt in p.shell.workers && p.shell.workers[attempt].stage == Finishing(ok)
    ensures Consistent(p.(shell := FinishStep(p.shell, attempt, ok)))
  {
    FinishKeepsInv(p.shell, attempt, ok);
    FinishKeepsInstallation(p.shell, attempt, ok, if p.installer.Awaited? then p.installer.attempt else 0);
    if p.installer == Reported {
      SettledStays(p.shell, Advance(attempt, true));
    }
    Carry(p, FinishStep(p.shell, attempt, ok));
  }

  lemma AdvanceKeeps(p: Plant, attempt: nat, ok: bool)
    requires Consistent(p) && attempt in p.shell.workers && !p.shell.workers[attempt].stage.Finishing?
    ensures Consistent(p.(shell := AdvanceStep(p.shell, attempt, ok)))
  {
    AdvanceKeepsInv(p.shell, attempt, ok);
    AdvanceKeepsAttempts(p.shell, attempt, ok);
    SameKeeps(p.shell, AdvanceStep(p.shell, attempt, ok), if p.installer.Awaited? then p.installer.attempt else 0);
    if p.installer == Reported {
      SettledStays(p.shell, Advance(attempt, ok));
    }
    Carry(p, AdvanceStep(p.shell, attempt, ok));
  }

  lemma WorkerKeeps(p: Plant, attempt: nat, ok: bool)
    requires Consistent(p) && attempt in p.shell.workers
    ensures Consistent(p.(shell := AdvanceStep(p.shell, attempt, ok)))
  {
    if p.shell.workers[attempt].stage.Finishing? {
      FinishKeeps(p, attempt, p.shell.workers[attempt].stage.ok);
    } else {
      AdvanceKeeps(p, attempt, ok);
    }
  }

  lemma OthersKeep(p: Plant, a: Action)
    requires Consistent(p) && a != UpdateFinished && !a.EnterExit? && !a.Advance?
    ensures Consistent(p.(shell := Apply(p.shell, a)))
  {
    var s, u := p.shell, Apply(p.shell, a);
    StepKeepsInv(s, a);
    OthersKeepAttempts(s, a);
    SameKeeps(s, u, if p.installer.Awaited? then p.installer.attempt else 0);
    if p.installer == Reported { SettledStays(s, a); }
    Carry(p, u);
  }

  lemma ShellMoveKeeps(p: Plant, a: Action)
    requires Consistent(p) && a != UpdateFinished
    ensures Consistent(p.(shell := Apply(p.shell, a)))
  {
    match a
    case EnterExit(intent) => EnterKeeps(p, intent);
    case Advance(attempt, ok) => if attempt in p.shell.workers { WorkerKeeps(p, attempt, ok); }
    case _ => OthersKeep(p, a);
  }

  // What `prepare_update` gives its only caller, as long as settlement was never reported.
  lemma EntryIsUpdate(s: Shell)
    requires Inv(s) && !s.terminal.updateSettled
    ensures match Enter(s.terminal, Update, s.started).1
            case Refused(_) => true
            case Ready => UnderInstallation(EnterStep(s, Update).terminal)
            case Join(k) => UpdateAttempt(EnterStep(s, Update), k)
            case Spawn(k) => UpdateAttempt(EnterStep(s, Update), k)
  {
    EnterKeepsInv(s, Update);
  }

  lemma ReportKeeps(p: Plant)
    requires Consistent(p) && Owns(p.installer)
    ensures Consistent(ReportStep(p))
  {
    StepKeepsInv(p.shell, UpdateFinished);
  }

  lemma StepKeeps(p: Plant, e: Event)
    requires Consistent(p)
    ensures Consistent(Step(p, e))
  {
    match e
    case ShellMoves(a) => if a != UpdateFinished { ShellMoveKeeps(p, a); }
    case ApplyUpdate =>
      if p.installer == Untouched {
        ShellMoveKeeps(p, EnterExit(Update));
        EntryIsUpdate(p.shell);
      }
    case Abandoned => if p.installer == Holding { ReportKeeps(p); }
    case Returned => if p.installer == Running { ReportKeeps(p); }
    case Observed =>
    case Started =>
    case Unwound =>
  }

  lemma {:induction false} PlayKeeps(p: Plant, events: seq<Event>)
    requires Consistent(p)
    ensures Consistent(Play(p, events))
  {
    if events != [] {
      PlayKeeps(p, events[..|events| - 1]);
      StepKeeps(Play(p, events[..|events| - 1]), events[|events| - 1]);
    }
  }

  // ---------------------------------------------------------------- the theorems

  // Some events lead from `p` to `q`.
  ghost predicate PlaysTo(p: Plant, q: Plant) {
    exists events :: q == Play(p, events)
  }

  ghost predicate Played(p: Plant) {
    PlaysTo(FRESH, p)
  }

  lemma PlayedIsConsistent(p: Plant)
    requires Played(p)
    ensures Consistent(p)
  {
    var events :| p == Play(FRESH, events);
    PlayKeeps(FRESH, events);
  }

  lemma HoldsServices(s: Shell)
    requires Inv(s) && UnderInstallation(s.terminal)
    ensures !s.released && !Apply(s, ServicesReleased).released
  {
  }

  // In no run are the services gone while the installer owns effects, nor can such a state release
  // them: whenever the attempt was started relative to the loop's end and the fence.
  lemma {:induction false} ServicesOutliveInstaller(p: Plant)
    requires Played(p)
    ensures Owns(p.installer) ==> !p.shell.released && !Apply(p.shell, ServicesReleased).released
  {
    PlayedIsConsistent(p);
    if Owns(p.installer) {
      HoldsServices(p.shell);
    }
  }

  // While the installer owns effects no close, restart or reset gets in, and no restart is carried out.
  lemma {:induction false} InstallerExcludesOthers(p: Plant, intent: Intent)
    requires Played(p) && intent != Update
    ensures Owns(p.installer) ==>
        && Enter(p.shell.terminal, intent, p.shell.started).1.Refused?
        && EnterStep(p.shell, intent).terminal == p.shell.terminal
        && !RestartReady(p.shell.terminal, p.shell.exitAllowed)
  {
    PlayedIsConsistent(p);
  }

  // Settlement is reported only by an installer that returned or never started; an interrupted one
  // holds the update in every continuation.
  lemma {:induction false} InterruptionIsNeverSettled(p: Plant, events: seq<Event>)
    requires Consistent(p) && p.installer == Interrupted
    ensures var q := Play(p, events);
      q.installer == Interrupted && UnderInstallation(q.shell.terminal) && !q.shell.released
  {
    PlayKeeps(p, events);
    if events != [] {
      InterruptionIsNeverSettled(p, events[..|events| - 1]);
    }
  }

  // ---------------------------------------------------------------- exactly when a release can come

  // A route to a consistent plant.
  ghost predicate Route(o: Plant, p: Plant) {
    match p
    case Plant(_, _) => Consistent(p) && PlaysTo(o, p)
  }

  lemma RouteStarts(p: Plant)
    requires Consistent(p)
    ensures Route(p, p)
  {
    assert p == Play(p, []);
  }

  lemma NextEvent(o: Plant, p: Plant, e: Event) returns (q: Plant)
    requires Route(o, p)
    ensures q == Step(p, e) && Route(o, q)
  {
    var events :| p == Play(o, events);
    assert (events + [e])[..|events|] == events;
    q := Step(p, e);
    assert q == Play(o, events + [e]);
    StepKeeps(p, e);
  }

  lemma {:induction false} AlongTrace(o: Plant, p: Plant, trace: seq<Action>)
    requires Route(o, p) && UpdateFinished !in trace
    ensures Route(o, p.(shell := Run(p.shell, trace)))
  {
    if trace != [] {
      var prefix := trace[..|trace| - 1];
      AlongTrace(o, p, prefix);
      var q := NextEvent(o, p.(shell := Run(p.shell, prefix)), ShellMoves(trace[|trace| - 1]));
    }
  }

  // The shell may take any path without a report of its own.
  lemma Along(o: Plant, p: Plant, u: Shell) returns (q: Plant)
    requires Route(o, p) && Goes(p.shell, u, false)
    ensures q == p.(shell := u) && Route(o, q)
  {
    var trace :| u == Run(p.shell, trace) && UpdateFinished !in trace;
    AlongTrace(o, p, trace);
    q := p.(shell := u);
  }

  lemma QuietPlant(o: Plant, p: Plant) returns (q: Plant)
    requires Route(o, p)
    ensures Route(o, q) && q.installer == p.installer && q.shell.terminal.active.None?
    ensures q.shell.started == p.shell.started
    ensures UnsettledUpdate(p.shell.terminal) ==> UnsettledUpdate(q.shell.terminal)
  {
    GoesNowhere(p.shell, false);
    var u := Quieten(p.shell, p.shell, false);
    q := Along(o, p, u);
  }

  lemma ApplyJoins(p: Plant)
    requires p.installer == Untouched
    requires UnsettledUpdate(p.shell.terminal) && p.shell.terminal.active.None? && !p.shell.terminal.prepared
    ensures Step(p, ApplyUpdate) == Plant(EnterStep(p.shell, Update), Awaited(p.shell.started))
    ensures !p.shell.released ==> UpdateAt(EnterStep(p.shell, Update), p.shell.started, Starting)
    ensures EnterStep(p.shell, Update).fencePassed == p.shell.fencePassed
  {
  }

  lemma ApplyHolds(p: Plant)
    requires p.installer == Untouched && UnsettledUpdate(p.shell.terminal) && p.shell.terminal.prepared
    ensures Step(p, ApplyUpdate).installer == Holding
  {
  }

  // An unsettled update can be retried, prepared and handed to the installer.
  lemma RetryHolds(o: Plant, p: Plant) returns (q: Plant)
    requires Route(o, p) && p.installer == Untouched
    requires UnsettledUpdate(p.shell.terminal) && p.shell.terminal.active.None? && !p.shell.terminal.prepared
    ensures Route(o, q) && q.installer == Holding && q.shell.fencePassed == p.shell.fencePassed
  {
    var k := p.shell.started;
    ApplyJoins(p);
    q := NextEvent(o, p, ApplyUpdate);
    var shell := q.shell;
    GoesNowhere(shell, false);
    var u := JoinTasks(shell, shell, false, k);
    u := FinishUpdateAttempt(shell, u, false, k);
    q := Along(o, q, u);
    q := NextEvent(o, q, Observed);
  }

  // An unsettled update whose installer was not started can be held by it.
  lemma UntouchedHolds(o: Plant, p: Plant) returns (q: Plant)
    requires Route(o, p) && p.installer == Untouched && UnsettledUpdate(p.shell.terminal)
    ensures Route(o, q) && q.installer == Holding
  {
    q := QuietPlant(o, p);
    if q.shell.terminal.prepared {
      ApplyHolds(q);
      q := NextEvent(o, q, ApplyUpdate);
    } else {
      q := RetryHolds(o, q);
    }
  }

  lemma AwaitedHolds(o: Plant, p: Plant) returns (q: Plant)
    requires Route(o, p) && p.installer.Awaited? && UnsettledUpdate(p.shell.terminal)
    ensures Route(o, q) && q.installer == Holding
  {
    q := QuietPlant(o, p);
    q := NextEvent(o, q, Observed);
    if q.installer == Untouched {
      q := UntouchedHolds(o, q);
    }
  }

  // An installer that was not interrupted can still report.
  lemma CanReport(o: Plant, p: Plant) returns (q: Plant)
    requires Route(o, p) && p.installer != Interrupted && UnsettledUpdate(p.shell.terminal)
    ensures Route(o, q) && q.installer == Reported
  {
    match p.installer
    case Untouched =>
      q := UntouchedHolds(o, p);
      q := NextEvent(o, q, Abandoned);
    case Awaited(_) =>
      q := AwaitedHolds(o, p);
      q := NextEvent(o, q, Abandoned);
    case Holding => q := NextEvent(o, p, Abandoned);
    case Running => q := NextEvent(o, p, Returned);
  }

  lemma CanRelease(p: Plant) returns (q: Plant)
    requires Consistent(p) && p.installer != Interrupted
    ensures PlaysTo(p, q) && q.shell.released
  {
    RouteStarts(p);
    q := p;
    if Held(p.shell) {
      q := CanReport(p, p);
    }
    var u := ReleasePath(q.shell);
    q := Along(p, q, u);
  }

  // With the installer as the only reporter, the services can still be released exactly when it was not
  // interrupted.
  lemma {:induction false} InterruptionAloneHolds(p: Plant)
    requires Played(p)
    ensures (exists q :: PlaysTo(p, q) && q.shell.released) <==> p.installer != Interrupted
  {
    PlayedIsConsistent(p);
    if p.installer == Interrupted {
      forall q | PlaysTo(p, q) ensures !q.shell.released {
        var events :| q == Play(p, events);
        InterruptionIsNeverSettled(p, events);
      }
    } else {
      var q := CanRelease(p);
    }
  }

  // ---------------------------------------------------------------- an installer behind the fence

  lemma FirstUpdate() returns (first: Plant)
    ensures Route(FRESH, first) && first.installer == Awaited(0)
    ensures Path(first.shell, first.shell, false) && FirstAt(first.shell, Starting, STARTED)
  {
    RequestedHasInv();
    StartHasInv();
    RouteStarts(FRESH);
    first := NextEvent(FRESH, FRESH, ApplyUpdate);
    GoesNowhere(first.shell, false);
  }

  lemma StartsBehindFence(o: Plant, first: Plant) returns (waiting: Plant, running: Plant)
    requires Route(o, first) && first.installer == Awaited(0)
    requires Path(first.shell, first.shell, false) && FirstAt(first.shell, Starting, STARTED)
    ensures Route(o, waiting) && waiting.shell.fencePassed && waiting.installer == Untouched
    ensures Route(o, running) && running.shell.fencePassed && running.installer == Running
  {
    var behind := UpdateBehindFence(first.shell, first.shell);
    waiting := Along(o, first, behind);
    waiting := NextEvent(o, waiting, Observed);
    running := RetryHolds(o, waiting);
    running := NextEvent(o, running, Started);
  }

  // The installer can still start after the fence was passed: the first attempt of an update fails after
  // admission, the loop ends, the fence lets it pass, and only then the update is retried.
  lemma InstallerMayStartBehindFence() returns (waiting: Plant, running: Plant)
    ensures Played(waiting) && waiting.shell.fencePassed && waiting.installer == Untouched
    ensures Played(running) && running.shell.fencePassed && running.installer == Running
  {
    var first := FirstUpdate();
    waiting, running := StartsBehindFence(FRESH, first);
  }

  // An interrupted installer can be reached.
  lemma InterruptionIsReachable() returns (p: Plant)
    ensures Played(p) && p.installer == Interrupted
  {
    var waiting, running := InstallerMayStartBehindFence();
    PlayedIsConsistent(running);
    p := NextEvent(FRESH, running, Unwound);
  }
}
