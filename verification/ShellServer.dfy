/**
 The API server's shutdown inside the terminal protocol. An attempt worker that stops the server is one of
 its shutdown callers; a timeout or a panic of the worker drops the call. Behind the fence the event
 loop's owner calls as often as it needs, and so does a prepared update. What the shell reads as "settled"
 is the server's own flag, and that the server settles only after accepted work has joined is proved here,
 not assumed.
 */
module ShellServer {
  import opened Basics
  import opened Terminal
  import opened TerminalRuns
  import opened TerminalTheorems
  import Api = ApiShutdown
  import ApiResults

  // `calls` are the shutdown calls in which attempt workers wait.
  datatype House = House(shell: Shell, server: Api.Server, calls: map<nat, nat>)

  const FRESH := House(START, Api.START, map[])

  datatype Event =
    | ShellMoves(action: Action)
    | ServerMoves(move: Api.Action)
    | WorkerCalls(attempt: nat)
    | WorkerReturns(attempt: nat)
    | WorkerLeaves(attempt: nat)    // the call timed out or the worker unwinds

  predicate Stopping(s: Shell, attempt: nat) {
    attempt in s.workers && s.workers[attempt].stage == StoppingServer
  }

  // What the shell does by itself: a worker that waits for the server moves with its call, and closing the
  // task admission behind the fence and settling are the server's doing.
  predicate ByShell(s: Shell, a: Action) {
    match a
    case Advance(attempt, _) => !Stopping(s, attempt)
    case Crash(attempt) => !Stopping(s, attempt)
    case TasksClose => false
    case ServerSettles => false
    case _ => true
  }

  // What the server and its other callers do: the loop's owner calls behind the fence and a prepared
  // update before its installer may end the process; a worker's call is not dropped without the worker;
  // the task owner gives its receipt once work has joined.
  predicate ByServer(h: House, a: Api.Action) {
    match a
    case CallShutdown => h.shell.fencePassed || UnderInstallation(h.shell.terminal)
    case Cancel(id) => id !in h.calls.Values
    case TasksJoin => h.shell.Joined()
    case _ => true
  }

  // A caller about to wait for the tasks closes their admission.
  predicate ClosesTasks(s: Api.Server, a: Api.Action) {
    a.Advance? && a.id in s.callers && s.callers[a.id].Tasks?
  }

  function Serve(h: House, a: Api.Action): House {
    var server := Api.Apply(h.server, a);
    h.(server := server,
       shell := h.shell.(closing := h.shell.closing || ClosesTasks(h.server, a), serverSettled := server.facts.settled))
  }

  function CallStep(h: House, attempt: nat): House {
    if Stopping(h.shell, attempt) && attempt !in h.calls
    then Serve(h, Api.CallShutdown).(calls := h.calls[attempt := h.server.next])
    else h
  }

  // A server that settled with a failed worker counts as stopped.
  function ReturnStep(h: House, attempt: nat): House {
    if Stopping(h.shell, attempt) && attempt in h.calls && h.calls[attempt] in h.server.returned then
      var ok := h.server.returned[h.calls[attempt]] || h.server.facts.settled;
      h.(shell := Apply(h.shell, Advance(attempt, ok)), calls := h.calls - {attempt})
    else h
  }

  function LeaveStep(h: House, attempt: nat): House {
    if !Stopping(h.shell, attempt) then h
    else
      var u := if attempt in h.calls then Serve(h, Api.Cancel(h.calls[attempt])) else h;
      u.(shell := Apply(u.shell, Crash(attempt)), calls := h.calls - {attempt})
  }

  function Step(h: House, e: Event): House {
    match e
    case ShellMoves(a) => if ByShell(h.shell, a) then h.(shell := Apply(h.shell, a)) else h
    case ServerMoves(a) => if ByServer(h, a) then Serve(h, a) else h
    case WorkerCalls(attempt) => CallStep(h, attempt)
    case WorkerReturns(attempt) => ReturnStep(h, attempt)
    case WorkerLeaves(attempt) => LeaveStep(h, attempt)
  }

  function Play(h: House, events: seq<Event>): House {
    if events == [] then h else Step(Play(h, events[..|events| - 1]), events[|events| - 1])
  }

  // ---------------------------------------------------------------- the invariant

  // When the server may be shut down at all: after an admission, or behind the fence.
  predicate MayStop(s: Shell) {
    s.terminal.admitted || s.fencePassed
  }

  // Everyone who is shutting the server down may do so.
  ghost predicate CallersMay(s: Shell, callers: map<nat, Api.Stage>) {
    forall id :: id in callers && !callers[id].Waiting? ==> MayStop(s)
  }

  // A shutdown call is under way, or its caller has been answered.
  predicate Lives(s: Api.Server, id: nat) {
    id < s.next && if id in s.callers then !s.callers[id].Waiting? else id in s.returned
  }

  ghost predicate Linked(h: House) {
    match h
    case House(shell, server, calls) =>
      && Inv(shell) && Api.Inv(server)
      && (server.facts.joined ==> shell.Joined())
      && (shell.serverSettled <==> server.facts.settled)
      && CallersMay(shell, server.callers)
      && (forall attempt :: attempt in calls ==> Stopping(shell, attempt) && Lives(server, calls[attempt]))
  }

  // ---------------------------------------------------------------- moves of the shell

  // What the server has reported, and the fence, are none of the workers' or callers' doing.
  ghost predicate SameReport(s: Shell, u: Shell) {
    match s
    case Shell(_, _, _, _, _, _, _, serverSettled, _, fencePassed, _, _) =>
      u.serverSettled == serverSettled && (fencePassed ==> u.fencePassed)
  }

  lemma EnterKeepsReport(s: Shell, intent: Intent)
    ensures SameReport(s, EnterStep(s, intent))
  {
    EntryKeepsReport(s, intent, Enter(s.terminal, intent, s.started));
  }

  lemma EntryKeepsReport(s: Shell, intent: Intent, entered: (TerminalState, Entry))
    ensures SameReport(s, EntryStep(s, intent, entered))
  {
  }

  lemma AnnounceKeepsReport(s: Shell, attempt: nat)
    requires attempt in s.workers
    ensures SameReport(s, AnnounceStep(s, attempt))
  {
  }

  lemma AdmitKeepsReport(s: Shell, attempt: nat)
    requires attempt in s.workers
    ensures SameReport(s, AdmitStep(s, attempt))
  {
  }

  lemma FinishKeepsReport(s: Shell, attempt: nat, ok: bool)
    requires attempt in s.workers
    ensures SameReport(s, FinishStep(s, attempt, ok))
  {
  }

  lemma QuietKeepsReport(s: Shell, attempt: nat, ok: bool)
    requires attempt in s.workers
    ensures SameReport(s, QuietStep(s, attempt, ok))
  {
  }

  lemma AdvanceKeepsReport(s: Shell, attempt: nat, ok: bool)
    requires attempt in s.workers
    ensures SameReport(s, AdvanceStep(s, attempt, ok))
  {
    var stage := s.workers[attempt].stage;
    if Waits(stage) {
      QuietKeepsReport(s, attempt, ok);
    } else {
      match stage
      case Announcing => AnnounceKeepsReport(s, attempt);
      case Admitting(_) => AdmitKeepsReport(s, attempt);
      case Finishing(result) => FinishKeepsReport(s, attempt, result);
    }
  }

  lemma OwnerKeepsReport(s: Shell, a: Action)
    requires a != ServerSettles
    ensures SameReport(s, OwnerStep(s, a))
  {
    match a
    case EnterExit(_) =>
    case Advance(_, _) =>
    case Crash(_) =>
    case Answer(_, _) =>
    case UpdateFinished =>
    case LoopEnds =>
    case FencePasses =>
    case TasksClose =>
    case LoopSettles =>
    case ExitAllowed =>
    case ServicesReleased =>
    case WorkStarts =>
    case WorkEnds =>
  }

  lemma SettlesByServer(s: Shell, a: Action)
    requires a != ServerSettles
    ensures SameReport(s, Apply(s, a))
  {
    match a
    case EnterExit(intent) => EnterKeepsReport(s, intent);
    case Advance(attempt, ok) => if attempt in s.workers { AdvanceKeepsReport(s, attempt, ok); }
    case Crash(_) =>
    case Answer(_, _) =>
    case _ => OwnerKeepsReport(s, a);
  }

  lemma EnterKeepsWorker(s: Shell, intent: Intent, attempt: nat)
    requires Inv(s) && attempt in s.workers
    ensures EnterStep(s, intent).workers == s.workers
  {
    assert attempt in s.workers.Keys;
    EnterHasShape(s, intent);
  }

  lemma OnlyWorker(s: Shell, attempt: nat, other: nat)
    requires Inv(s) && attempt in s.workers && other in s.workers
    ensures other == attempt
  {
    assert attempt in s.workers.Keys && other in s.workers.Keys;
  }

  lemma StoppingStays(s: Shell, a: Action, attempt: nat)
    requires Inv(s) && Stopping(s, attempt) && ByShell(s, a)
    ensures Stopping(Apply(s, a), attempt)
  {
    match a
    case EnterExit(intent) => EnterKeepsWorker(s, intent, attempt);
    case Advance(k, ok) => if k in s.workers { OnlyWorker(s, attempt, k); }
    case Crash(_) =>
    case Answer(_, _) =>
    case UpdateFinished =>
    case LoopEnds =>
    case FencePasses =>
    case LoopSettles =>
    case ExitAllowed =>
    case ServicesReleased =>
    case WorkStarts =>
    case WorkEnds =>
  }

  // A move of the shell that is not settling keeps everything but, perhaps, the worker that waits.
  lemma ShellKeeps(h: House, a: Action, calls: map<nat, nat>)
    requires Linked(h) && a != ServerSettles
    requires forall attempt :: attempt in calls ==>
               Stopping(Apply(h.shell, a), attempt) && Lives(h.server, calls[attempt])
    ensures Linked(h.(shell := Apply(h.shell, a), calls := calls))
  {
    StepKeepsInv(h.shell, a);
    StepFollows(h.shell, a);
    SettlesByServer(h.shell, a);
    assert MayStop(h.shell) ==> MayStop(Apply(h.shell, a));
  }

  lemma ShellMoveKeeps(h: House, a: Action)
    requires Linked(h) && ByShell(h.shell, a)
    ensures Linked(h.(shell := Apply(h.shell, a)))
  {
    forall attempt | attempt in h.calls ensures Stopping(Apply(h.shell, a), attempt) {
      StoppingStays(h.shell, a, attempt);
    }
    ShellKeeps(h, a, h.calls);
  }

  // ---------------------------------------------------------------- moves of the server

  lemma AdvanceKeepsJoined(s: Api.Server, id: nat, ok: bool)
    requires id in s.callers && |s.tasks| == Api.WORKERS
    ensures Api.AdvanceStep(s, id, ok).facts.joined == s.facts.joined
  {
    match s.callers[id]
    case Media =>
    case Sessions =>
    case Tasks =>
    case Observers =>
    case LockingFiles =>
    case SettlingFiles =>
    case Signalling =>
    case Joining(_, _) =>
    case Waiting(_) =>
  }

  lemma JoinedByTasks(s: Api.Server, a: Api.Action)
    requires a != Api.TasksJoin
    ensures Api.Apply(s, a).facts.joined == s.facts.joined
  {
    match a
    case CallShutdown =>
    case CallWait =>
    case Advance(id, ok) => if id in s.callers && |s.tasks| == Api.WORKERS { AdvanceKeepsJoined(s, id, ok); }
    case Cancel(_) =>
    case WorkerEnds(_, _) =>
    case SettlementEnds(_) =>
  }

  // The callers of `u` are callers of `s`, and who only waited still does.
  ghost predicate CallersFrom(s: Api.Server, u: Api.Server) {
    forall id :: id in u.callers ==> id in s.callers && (s.callers[id].Waiting? ==> u.callers[id].Waiting?)
  }

  lemma AdvanceKeepsCallers(s: Api.Server, id: nat, ok: bool)
    requires id in s.callers && |s.tasks| == Api.WORKERS
    ensures CallersFrom(s, Api.AdvanceStep(s, id, ok))
  {
    match s.callers[id]
    case Media =>
    case Sessions =>
    case Tasks =>
    case Observers =>
    case LockingFiles =>
    case SettlingFiles =>
    case Signalling =>
    case Joining(_, _) =>
    case Waiting(_) =>
  }

  lemma ServeKeepsCallers(s: Api.Server, a: Api.Action, shell: Shell)
    requires CallersMay(shell, s.callers) && (a == Api.CallShutdown ==> MayStop(shell))
    ensures CallersMay(shell, Api.Apply(s, a).callers)
  {
    match a
    case CallShutdown =>
    case CallWait =>
    case Advance(id, ok) => if id in s.callers && |s.tasks| == Api.WORKERS { AdvanceKeepsCallers(s, id, ok); }
    case Cancel(_) =>
    case TasksJoin =>
    case WorkerEnds(_, _) =>
    case SettlementEnds(_) =>
  }

  lemma EarlyKeepsCall(s: Api.Server, id: nat, ok: bool, call: nat)
    requires id in s.callers && |s.tasks| == Api.WORKERS && Lives(s, call)
    requires var now := s.callers[id]; now.Media? || now.Sessions? || now.Tasks? || now.Observers? || now.Signalling?
    ensures Lives(Api.AdvanceStep(s, id, ok), call)
  {
    match s.callers[id]
    case Media =>
    case Sessions =>
    case Tasks =>
    case Observers =>
    case Signalling =>
  }

  lemma AdvanceKeepsCall(s: Api.Server, id: nat, ok: bool, call: nat)
    requires id in s.callers && |s.tasks| == Api.WORKERS && Lives(s, call)
    ensures Lives(Api.AdvanceStep(s, id, ok), call)
  {
    match s.callers[id]
    case Media => EarlyKeepsCall(s, id, ok, call);
    case Sessions => EarlyKeepsCall(s, id, ok, call);
    case Tasks => EarlyKeepsCall(s, id, ok, call);
    case Observers => EarlyKeepsCall(s, id, ok, call);
    case LockingFiles =>
    case SettlingFiles =>
    case Signalling => EarlyKeepsCall(s, id, ok, call);
    case Joining(_, _) =>
    case Waiting(_) =>
  }

  // Only cancelling a call ends it without an answer.
  lemma ServeKeepsCall(s: Api.Server, a: Api.Action, call: nat)
    requires Lives(s, call) && a != Api.Cancel(call)
    ensures Lives(Api.Apply(s, a), call)
  {
    match a
    case CallShutdown =>
    case CallWait =>
    case Advance(id, ok) => if id in s.callers && |s.tasks| == Api.WORKERS { AdvanceKeepsCall(s, id, ok, call); }
    case Cancel(_) =>
    case TasksJoin =>
    case WorkerEnds(_, _) =>
    case SettlementEnds(_) =>
  }

  // What the shell sees of one move of the server: the move it is in the shell's own terms.
  function CloseSeen(s: Shell, closes: bool): Shell {
    if closes && !s.closing then OwnerStep(s, TasksClose) else s
  }

  function SettleSeen(s: Shell, settles: bool): Shell {
    if settles && !s.serverSettled then OwnerStep(s, ServerSettles) else s
  }

  // The guards of the shell's two moves never bite: whoever closes the task admission may do so, and a
  // server that settles has had the receipt of joined work.
  lemma SeenExactly(s: Shell, closes: bool, settles: bool)
    requires closes ==> s.closing || s.fencePassed
    requires settles ==> s.Joined()
    requires s.serverSettled ==> settles
    ensures SettleSeen(CloseSeen(s, closes), settles)
         == s.(closing := s.closing || closes, serverSettled := settles)
  {
  }

  lemma CloseSeenKeeps(s: Shell, closes: bool)
    requires Inv(s)
    ensures Inv(CloseSeen(s, closes)) && Leads(s, CloseSeen(s, closes))
  {
    LeadsNowhere(s);
    OwnerKeepsInv(s, TasksClose);
    LeadsOn(s, s, TasksClose);
  }

  lemma SettleSeenKeeps(s: Shell, t: Shell, settles: bool)
    requires Inv(t) && Leads(s, t)
    ensures Inv(SettleSeen(t, settles)) && Leads(s, SettleSeen(t, settles))
  {
    OwnerKeepsInv(t, ServerSettles);
    LeadsOn(s, t, ServerSettles);
  }

  lemma LeadsNowhere(s: Shell)
    ensures Leads(s, s)
  {
    assert s == Run(s, []);
  }

  lemma LeadsOn(s: Shell, t: Shell, a: Action)
    requires Leads(s, t)
    ensures Leads(s, Apply(t, a))
  {
    var trace :| t == Run(s, trace);
    assert (trace + [a])[..|trace|] == trace;
    assert Apply(t, a) == Run(s, trace + [a]);
  }

  // Only a settled pipeline settles: the receipt came first.
  lemma SettledMeansJoined(s: Api.Server)
    requires Api.Inv(s)
    ensures s.facts.settled ==> Api.Ready(s.facts) && s.facts.stopped
  {
  }

  // The receipt reaches the shell's joined work.
  lemma ServeJoins(h: House, a: Api.Action)
    requires Linked(h) && (a == Api.TasksJoin ==> h.shell.Joined())
    ensures Api.Inv(Api.Apply(h.server, a))
    ensures Api.Apply(h.server, a).facts.joined ==> h.shell.Joined()
    ensures h.server.facts.settled ==> Api.Apply(h.server, a).facts.settled
  {
    Api.StepKeeps(h.server, a);
    Api.StepKeepsResults(h.server, a);
    if a != Api.TasksJoin {
      JoinedByTasks(h.server, a);
    }
  }

  lemma ServeIsSeen(h: House, a: Api.Action)
    requires Linked(h) && (a == Api.TasksJoin ==> h.shell.Joined())
    ensures Serve(h, a).shell
         == SettleSeen(CloseSeen(h.shell, ClosesTasks(h.server, a)), Api.Apply(h.server, a).facts.settled)
  {
    ServeJoins(h, a);
    SettledMeansJoined(Api.Apply(h.server, a));
    if ClosesTasks(h.server, a) {
      assert MayStop(h.shell);
    }
    SeenExactly(h.shell, ClosesTasks(h.server, a), Api.Apply(h.server, a).facts.settled);
  }

  lemma ServeKeeps(h: House, a: Api.Action, calls: map<nat, nat>)
    requires Linked(h) && (a == Api.TasksJoin ==> h.shell.Joined())
    requires a == Api.CallShutdown ==> MayStop(h.shell)
    requires calls.Keys <= h.calls.Keys
    requires forall k :: k in calls ==> calls[k] == h.calls[k] && a != Api.Cancel(calls[k])
    ensures Linked(Serve(h, a).(calls := calls)) && Leads(h.shell, Serve(h, a).shell)
  {
    forall k | k in calls ensures Lives(Api.Apply(h.server, a), calls[k]) {
      ServeKeepsCall(h.server, a, h.calls[k]);
    }
    ServeJoins(h, a);
    ServeIsSeen(h, a);
    CloseSeenKeeps(h.shell, ClosesTasks(h.server, a));
    SettleSeenKeeps(
      h.shell, CloseSeen(h.shell, ClosesTasks(h.server, a)), Api.Apply(h.server, a).facts.settled);
    ServeKeepsCallers(h.server, a, h.shell);
  }

  // ---------------------------------------------------------------- calls

  lemma StoppingMayStop(s: Shell, attempt: nat)
    requires Inv(s) && Stopping(s, attempt)
    ensures MayStop(s)
  {
    assert attempt in s.workers.Keys;
  }

  lemma CallLinks(h: House, attempt: nat, call: nat)
    requires Linked(h) && Stopping(h.shell, attempt) && Lives(h.server, call)
    ensures Linked(h.(calls := h.calls[attempt := call]))
  {
  }

  lemma CallKeeps(h: House, attempt: nat)
    requires Linked(h)
    ensures Linked(CallStep(h, attempt)) && Leads(h.shell, CallStep(h, attempt).shell)
  {
    LeadsNowhere(h.shell);
    if Stopping(h.shell, attempt) && attempt !in h.calls {
      StoppingMayStop(h.shell, attempt);
      ServeKeeps(h, Api.CallShutdown, h.calls);
      CallLinks(Serve(h, Api.CallShutdown), attempt, h.server.next);
    }
  }

  // The worker's own call has ended: nobody else waits for the server.
  lemma NoOtherCalls(h: House, attempt: nat)
    requires Linked(h) && attempt in h.shell.workers
    ensures h.calls - {attempt} == map[]
  {
    forall other | other in h.calls ensures other == attempt {
      OnlyWorker(h.shell, attempt, other);
    }
  }

  lemma ReturnKeeps(h: House, attempt: nat)
    requires Linked(h)
    ensures Linked(ReturnStep(h, attempt)) && Leads(h.shell, ReturnStep(h, attempt).shell)
  {
    LeadsNowhere(h.shell);
    if ReturnStep(h, attempt) != h {
      var ok := h.server.returned[h.calls[attempt]] || h.server.facts.settled;
      NoOtherCalls(h, attempt);
      ShellKeeps(h, Advance(attempt, ok), map[]);
      LeadsOn(h.shell, h.shell, Advance(attempt, ok));
    }
  }

  lemma LeaveKeeps(h: House, attempt: nat)
    requires Linked(h)
    ensures Linked(LeaveStep(h, attempt)) && Leads(h.shell, LeaveStep(h, attempt).shell)
  {
    LeadsNowhere(h.shell);
    if Stopping(h.shell, attempt) {
      var u := if attempt in h.calls then Serve(h, Api.Cancel(h.calls[attempt])) else h;
      NoOtherCalls(h, attempt);
      if attempt in h.calls {
        ServeKeeps(h, Api.Cancel(h.calls[attempt]), map[]);
      }
      ShellKeeps(u.(calls := map[]), Crash(attempt), map[]);
      LeadsOn(h.shell, u.shell, Crash(attempt));
    }
  }

  lemma StepKeeps(h: House, e: Event)
    requires Linked(h)
    ensures Linked(Step(h, e)) && Leads(h.shell, Step(h, e).shell)
  {
    LeadsNowhere(h.shell);
    match e
    case ShellMoves(a) =>
      if ByShell(h.shell, a) {
        ShellMoveKeeps(h, a);
        LeadsOn(h.shell, h.shell, a);
      }
    case ServerMoves(a) => if ByServer(h, a) { ServeKeeps(h, a, h.calls); }
    case WorkerCalls(attempt) => CallKeeps(h, attempt);
    case WorkerReturns(attempt) => ReturnKeeps(h, attempt);
    case WorkerLeaves(attempt) => LeaveKeeps(h, attempt);
  }

  lemma LeadsFurther(s: Shell, t: Shell, u: Shell)
    requires Leads(s, t) && Leads(t, u)
    ensures Leads(s, u)
  {
    var before :| t == Run(s, before);
    var after :| u == Run(t, after);
    RunAppends(s, before, after);
  }

  lemma {:induction false} RunAppends(s: Shell, before: seq<Action>, after: seq<Action>)
    ensures Run(s, before + after) == Run(Run(s, before), after)
  {
    if after == [] {
      assert before + after == before;
    } else {
      assert (before + after)[..|before + after| - 1] == before + after[..|after| - 1];
      RunAppends(s, before, after[..|after| - 1]);
    }
  }

  ghost predicate ServerLeads(s: Api.Server, u: Api.Server) {
    exists trace :: u == Api.Run(s, trace)
  }

  lemma ServerLeadsOn(s: Api.Server, t: Api.Server, a: Api.Action)
    requires ServerLeads(s, t)
    ensures ServerLeads(s, Api.Apply(t, a))
  {
    var trace :| t == Api.Run(s, trace);
    assert (trace + [a])[..|trace|] == trace;
    assert Api.Apply(t, a) == Api.Run(s, trace + [a]);
  }

  lemma ServerFollows(s: Api.Server, h: House, e: Event)
    requires ServerLeads(s, h.server)
    ensures ServerLeads(s, Step(h, e).server)
  {
    match e
    case ShellMoves(_) =>
    case ServerMoves(a) => ServerLeadsOn(s, h.server, a);
    case WorkerCalls(_) => ServerLeadsOn(s, h.server, Api.CallShutdown);
    case WorkerReturns(_) =>
    case WorkerLeaves(k) => if k in h.calls { ServerLeadsOn(s, h.server, Api.Cancel(h.calls[k])); }
  }

  lemma {:induction false} PlayKeeps(h: House, events: seq<Event>)
    requires Linked(h)
    ensures Linked(Play(h, events))
    ensures Leads(h.shell, Play(h, events).shell) && ServerLeads(h.server, Play(h, events).server)
  {
    if events == [] {
      LeadsNowhere(h.shell);
      assert h.server == Api.Run(h.server, []);
    } else {
      var before := Play(h, events[..|events| - 1]);
      PlayKeeps(h, events[..|events| - 1]);
      StepKeeps(before, events[|events| - 1]);
      LeadsFurther(h.shell, before.shell, Play(h, events).shell);
      ServerFollows(h.server, before, events[|events| - 1]);
    }
  }

  lemma FreshIsLinked()
    ensures Linked(FRESH)
  {
    assert Api.Inv(Api.START);
  }

  // ---------------------------------------------------------------- the theorems

  ghost predicate PlaysTo(h: House, u: House) {
    exists events :: u == Play(h, events)
  }

  ghost predicate Played(h: House) {
    PlaysTo(FRESH, h)
  }

  lemma PlayedIsLinked(h: House)
    requires Played(h)
    ensures Linked(h) && Reachable(h.shell) && Api.Reachable(h.server)
  {
    var events :| h == Play(FRESH, events);
    FreshIsLinked();
    PlayKeeps(FRESH, events);
  }

  // Every run of the two together is a run of each: whatever holds of the shell with its guarded settling,
  // and of the server with any callers, holds of them here.
  lemma {:induction false} RunsProject(h: House, u: House)
    requires Played(h) && PlaysTo(h, u)
    ensures Leads(h.shell, u.shell) && ServerLeads(h.server, u.server)
    ensures Reachable(h.shell) && Api.Reachable(h.server)
  {
    PlayedIsLinked(h);
    var events :| u == Play(h, events);
    PlayKeeps(h, events);
  }

  // The server has joined every worker and the whole pipeline before it has succeeded.
  ghost predicate Stopped(s: Api.Server) {
    && Api.Ready(s.facts) && s.facts.stopped && s.facts.settled && |s.tasks| == Api.WORKERS
    && forall i :: 0 <= i < Api.WORKERS ==> s.tasks[i].handle == Api.Taken && s.tasks[i].result.Some?
  }

  lemma SettledIsStopped(s: Api.Server)
    requires Api.Inv(s) && s.facts.settled
    ensures Stopped(s)
  {
    Api.TakenMeansStored(s);
  }

  // The receipt of joined work is given only once work has joined, and the server settles only after it.
  lemma {:induction false} SettlesAfterJoining(h: House)
    requires Played(h)
    ensures h.server.facts.joined ==> h.shell.Joined()
    ensures h.shell.serverSettled <==> h.server.facts.settled
    ensures h.shell.serverSettled ==> h.shell.Joined() && Stopped(h.server)
  {
    PlayedIsLinked(h);
    if h.server.facts.settled {
      SettledIsStopped(h.server);
    }
  }

  // Exit is allowed, services are released and anything but an update is prepared only after the whole
  // pipeline has succeeded and all three workers of the server were joined.
  lemma {:induction false} ExitJoinsTheServer(h: House)
    requires Played(h)
    ensures var s := h.shell;
      || s.exitAllowed || s.released || s.terminal.loopSettled
      || (s.terminal.prepared && s.terminal.intent != Some(Update))
      ==> s.Joined() && Stopped(h.server)
  {
    PlayedIsLinked(h);
    ExitMeansSettled(h.shell);
    if h.server.facts.settled {
      SettledIsStopped(h.server);
    }
  }

  lemma StopShape(s: Shell, k: nat, ok: bool)
    requires Stopping(s, k) && (ok ==> s.serverSettled)
    ensures k in Apply(s, Advance(k, ok)).workers
    ensures Apply(s, Advance(k, ok)).workers[k].stage == if ok then Checking else Finishing(false)
  {
    assert NextStage(s, s.workers[k], ok) == if ok then Checking else Finishing(false);
    assert Apply(s, Advance(k, ok)) == QuietStep(s, k, ok);
  }

  lemma ReturnShape(h: House, k: nat)
    requires Stopping(h.shell, k) && k in h.calls && h.calls[k] in h.server.returned
    requires h.shell.serverSettled == h.server.facts.settled
    requires h.server.returned[h.calls[k]] ==> h.server.facts.settled
    ensures var u := Step(h, WorkerReturns(k));
      && u.calls == h.calls - {k} && k in u.shell.workers
      && u.shell.workers[k].stage == (if h.server.facts.settled then Checking else Finishing(false))
  {
    StopShape(h.shell, k, h.server.facts.settled);
  }

  // What the server's workers have ended with over the events of a run, each worker's first end.
  function Ended(events: seq<Event>): (ended: seq<Option<bool>>)
    ensures |ended| == Api.WORKERS
  {
    if events == [] then [None, None, None]
    else
      match events[|events| - 1]
      case ServerMoves(a) => ApiResults.AllLater(Ended(events[..|events| - 1]), a)
      case _ => Ended(events[..|events| - 1])
  }

  lemma ServeAgrees(s: Api.Server, a: Api.Action, ended: seq<Option<bool>>)
    requires Api.Inv(s) && ApiResults.SlotsAgree(s, ended) && !a.WorkerEnds?
    ensures ApiResults.SlotsAgree(Api.Apply(s, a), ended)
  {
    ApiResults.StepAgrees(s, a, ended);
    assert ApiResults.AllLater(ended, a) == ended;
  }

  lemma EventAgrees(h: House, e: Event, ended: seq<Option<bool>>)
    requires Linked(h) && ApiResults.SlotsAgree(h.server, ended)
    ensures ApiResults.SlotsAgree(
              Step(h, e).server, if e.ServerMoves? then ApiResults.AllLater(ended, e.move) else ended)
  {
    match e
    case ShellMoves(_) =>
    case ServerMoves(a) =>
      if ByServer(h, a) {
        ApiResults.StepAgrees(h.server, a, ended);
      } else {
        assert ApiResults.AllLater(ended, a) == ended;
      }
    case WorkerCalls(_) => ServeAgrees(h.server, Api.CallShutdown, ended);
    case WorkerReturns(_) =>
    case WorkerLeaves(k) => if k in h.calls { ServeAgrees(h.server, Api.Cancel(h.calls[k]), ended); }
  }

  lemma {:induction false} EventsAgree(events: seq<Event>)
    ensures Linked(Play(FRESH, events)) && ApiResults.SlotsAgree(Play(FRESH, events).server, Ended(events))
  {
    FreshIsLinked();
    PlayKeeps(FRESH, events);
    if events != [] {
      var before := events[..|events| - 1];
      EventsAgree(before);
      EventAgrees(Play(FRESH, before), events[|events| - 1], Ended(before));
    }
  }

  lemma SuccessIsOfAll(s: Api.Server, id: nat, ended: seq<Option<bool>>)
    requires Api.Inv(s) && ApiResults.SlotsAgree(s, ended) && id in s.returned && s.returned[id]
    ensures |ended| == Api.WORKERS && forall i :: 0 <= i < |ended| ==> ended[i] == Some(true)
  {
    forall i | 0 <= i < |ended| ensures ended[i] == Some(true) {
      assert ApiResults.SlotAgrees(s.tasks[i], ended[i]);
    }
  }

  // A worker comes back from the server exactly as its call says: past it if and only if the server has
  // settled; and a success it was told of is one of all three workers, as they really ended in the run.
  lemma {:induction false} WorkerIsToldTheTruth(events: seq<Event>, k: nat)
    requires var h := Play(FRESH, events); k in h.calls && h.calls[k] in h.server.returned
    ensures var h, u := Play(FRESH, events), Step(Play(FRESH, events), WorkerReturns(k));
      && k in u.shell.workers && u.calls == map[]
      && u.shell.workers[k].stage == (if h.server.facts.settled then Checking else Finishing(false))
      && (h.server.returned[h.calls[k]] ==> forall i :: 0 <= i < Api.WORKERS ==> Ended(events)[i] == Some(true))
  {
    var h := Play(FRESH, events);
    EventsAgree(events);
    NoOtherCalls(h, k);
    ReturnShape(h, k);
    if h.server.returned[h.calls[k]] {
      SuccessIsOfAll(h.server, h.calls[k], Ended(events));
    }
  }

  // No call is lost: while a worker waits for its call, the call is under way or has been answered.
  lemma {:induction false} NoCallIsLost(h: House, k: nat)
    requires Played(h) && k in h.calls
    ensures Stopping(h.shell, k)
    ensures if h.calls[k] in h.server.callers then !h.server.callers[h.calls[k]].Waiting?
            else h.calls[k] in h.server.returned
  {
    PlayedIsLinked(h);
  }

  // A worker that times out or unwinds leaves nothing locked in the server, and takes nothing away: facts,
  // the file settlement, handles and results stay for the next call.
  lemma {:induction false} LeavingGivesBack(h: House, k: nat)
    requires Played(h) && k in h.calls
    ensures var s, u, id := h.server, Step(h, WorkerLeaves(k)).server, h.calls[k];
      && id !in u.callers && u.filesLock != Some(id) && |u.tasks| == |s.tasks|
      && (forall i :: 0 <= i < |u.tasks| ==> u.tasks[i].lock != Some(id))
      && u.facts == s.facts && u.pending == s.pending
      && (forall i :: 0 <= i < |u.tasks| ==>
            u.tasks[i].handle == s.tasks[i].handle && u.tasks[i].result == s.tasks[i].result)
  {
    PlayedIsLinked(h);
    CancelGivesBack(h.server, h.calls[k]);
  }

  lemma CancelGivesBack(s: Api.Server, id: nat)
    requires Api.Inv(s)
    ensures var u := Api.Apply(s, Api.Cancel(id));
      && id !in u.callers && u.filesLock != Some(id) && |u.tasks| == |s.tasks|
      && (forall i :: 0 <= i < |u.tasks| ==> u.tasks[i].lock != Some(id))
      && (forall i :: 0 <= i < |u.tasks| ==>
            u.tasks[i].handle == s.tasks[i].handle && u.tasks[i].result == s.tasks[i].result)
  {
    forall i | 0 <= i < |s.tasks| ensures Api.Apply(s, Api.Cancel(id)).tasks[i].lock != Some(id) {
      assert Api.TaskAgrees(s, i);
    }
  }

  // Whoever is shutting the server down came after an admission or behind the fence.
  lemma {:induction false} ShutdownIsAuthorized(h: House, id: nat)
    requires Played(h) && id in h.server.callers && !h.server.callers[id].Waiting?
    ensures h.shell.terminal.admitted || h.shell.fencePassed
  {
    PlayedIsLinked(h);
  }
}
