/**
 A release with the server's shutdown run inside the shell: the server's calls, locks and results take
 nothing away from what the shell's own protocol allows.
 */
module ShellServerRelease {
  import opened Basics
  import opened Terminal
  import opened TerminalRuns
  import opened ShellServer
  import Api = ApiShutdown
  import ApiRecovery
  import TerminalRelease

  const REPORT := ShellMoves(UpdateFinished)

  // Some events lead from `o` to `h`, none of them the updater's report.
  ghost predicate Goes(o: House, h: House) {
    exists events :: h == Play(o, events) && REPORT !in events
  }

  // A route to a house that has the invariant.
  ghost predicate Route(o: House, h: House) {
    match h
    case House(_, _, _) => Linked(h) && Goes(o, h)
  }

  lemma RouteStarts(h: House)
    requires Linked(h)
    ensures Route(h, h)
  {
    assert h == Play(h, []);
  }

  lemma GoesOn(o: House, h: House, e: Event)
    requires Goes(o, h) && e != REPORT
    ensures Goes(o, Step(h, e))
  {
    var events :| h == Play(o, events) && REPORT !in events;
    assert (events + [e])[..|events|] == events;
    assert Step(h, e) == Play(o, events + [e]);
  }

  lemma NextEvent(o: House, h: House, e: Event) returns (u: House)
    requires Route(o, h) && e != REPORT
    ensures u == Step(h, e) && Route(o, u)
  {
    u := Step(h, e);
    GoesOn(o, h, e);
    StepKeeps(h, e);
  }

  lemma Moves(o: House, h: House, a: Action) returns (u: House)
    requires Route(o, h) && ByShell(h.shell, a) && a != UpdateFinished
    ensures u == h.(shell := Apply(h.shell, a)) && Route(o, u)
  {
    u := NextEvent(o, h, ShellMoves(a));
  }

  lemma Serves(o: House, h: House, a: Api.Action) returns (u: House)
    requires Route(o, h) && ByServer(h, a)
    ensures u == Serve(h, a) && Route(o, u)
  {
    u := NextEvent(o, h, ServerMoves(a));
  }

  // ---------------------------------------------------------------- giving up what is under way

  // Dropping a call changes nothing that the shell reads of the server.
  lemma LeaveShape(h: House, k: nat)
    requires Linked(h) && Stopping(h.shell, k)
    ensures LeaveStep(h, k).shell == Apply(h.shell, Crash(k))
  {
    if k in h.calls {
      assert Api.Apply(h.server, Api.Cancel(h.calls[k])).facts == h.server.facts;
      assert Serve(h, Api.Cancel(h.calls[k])).shell == h.shell;
    }
  }

  lemma CrashShape(s: Shell, k: nat)
    requires k in s.workers
    ensures !Stopping(Apply(s, Crash(k)), k)
  {
  }

  lemma Abandon(o: House, h: House, k: nat) returns (u: House)
    requires Route(o, h) && k in h.shell.workers
    ensures Route(o, u) && u.shell == Apply(h.shell, Crash(k))
  {
    if Stopping(h.shell, k) {
      LeaveShape(h, k);
      u := NextEvent(o, h, WorkerLeaves(k));
    } else {
      u := Moves(o, h, Crash(k));
    }
  }

  // A worker can always unwind, wherever its call in the server stands.
  lemma Unwind(o: House, h: House, k: nat) returns (u: House)
    requires Route(o, h) && h.shell.terminal.active == Some(k)
    ensures Route(o, u) && u.shell == Apply(Apply(h.shell, Crash(k)), Advance(k, true))
  {
    assert k in h.shell.workers.Keys;
    CrashShape(h.shell, k);
    u := Abandon(o, h, k);
    u := Moves(o, u, Advance(k, true));
  }

  lemma Quieten(o: House, h: House) returns (u: House)
    requires Route(o, h)
    ensures Route(o, u) && u.shell.terminal.active.None?
    ensures h.shell.terminal.active.None? ==> u == h
    ensures h.shell.terminal.active.Some? ==> !u.shell.terminal.prepared
    ensures var s, t := h.shell.terminal, u.shell.terminal;
      && t.admitted == s.admitted && t.loopEnded == s.loopEnded
      && (s.admitted ==> t.intent == s.intent && t.updateSettled == s.updateSettled)
  {
    u := h;
    if h.shell.terminal.active.Some? {
      var k := h.shell.terminal.active.value;
      assert k in h.shell.workers.Keys;
      TerminalRelease.UnwindShape(h.shell, k);
      TerminalRelease.FinishFails(h.shell.terminal, k);
      u := Unwind(o, h, k);
    }
  }

  // An update that is neither outlived nor handed over can still be given up for a close.
  lemma GiveUp(o: House, h: House) returns (u: House)
    requires Route(o, h) && !TerminalRelease.Held(h.shell)
    ensures Route(o, u) && u.shell.terminal.active.None? && !UnsettledUpdate(u.shell.terminal)
  {
    u := Quieten(o, h);
    if UnsettledUpdate(u.shell.terminal) {
      TerminalRelease.CloseShape(u.shell);
      u := Moves(o, u, EnterExit(Close));
      u := Quieten(o, u);
    }
  }

  // ---------------------------------------------------------------- behind the fence

  lemma FenceShape(s: Shell)
    requires !s.released && s.terminal.active.None? && !UnsettledUpdate(s.terminal)
    ensures Apply(Apply(s, LoopEnds), FencePasses)
         == s.(terminal := s.terminal.(loopEnded := true), fencePassed := true)
  {
    assert Apply(s, LoopEnds) == s.(terminal := s.terminal.(loopEnded := true));
    assert !Installing(Apply(s, LoopEnds).terminal);
  }

  lemma PassFence(o: House, h: House) returns (u: House)
    requires Route(o, h) && !h.shell.released
    requires h.shell.terminal.active.None? && !UnsettledUpdate(h.shell.terminal)
    ensures Route(o, u)
    ensures u.shell == h.shell.(terminal := h.shell.terminal.(loopEnded := true), fencePassed := true)
  {
    u := Moves(o, h, LoopEnds);
    u := Moves(o, u, FencePasses);
    FenceShape(h.shell);
  }

  // A caller that stands at one of the first stages.
  ghost predicate CallerAt(h: House, id: nat, stage: Api.Stage) {
    match h
    case House(_, server, _) => id in server.callers && server.callers[id] == stage
  }

  lemma StageShape(s: Api.Server, id: nat, stage: Api.Stage)
    requires id in s.callers && s.callers[id] == stage && |s.tasks| == Api.WORKERS
    requires stage == Api.Media || stage == Api.Sessions
    ensures var u := Api.Apply(s, Api.Advance(id, true));
      && id in u.callers && u.callers[id] == (if stage == Api.Media then Api.Sessions else Api.Tasks)
      && u.facts.settled == s.facts.settled
  {
  }

  lemma CallerProceeds(o: House, h: House, id: nat, stage: Api.Stage) returns (u: House)
    requires Route(o, h) && CallerAt(h, id, stage) && (stage == Api.Media || stage == Api.Sessions)
    ensures Route(o, u) && u.shell == h.shell
    ensures CallerAt(u, id, if stage == Api.Media then Api.Sessions else Api.Tasks)
  {
    StageShape(h.server, id, stage);
    u := Serves(o, h, Api.Advance(id, true));
  }

  // At the tasks a caller closes their admission, whether or not it waits in vain.
  lemma TasksShape(s: Api.Server, id: nat)
    requires id in s.callers && s.callers[id] == Api.Tasks && |s.tasks| == Api.WORKERS
    ensures Api.Apply(s, Api.Advance(id, true)).facts.settled == s.facts.settled
  {
  }

  lemma CloseTasks(o: House, h: House) returns (u: House)
    requires Route(o, h) && h.shell.fencePassed
    ensures Route(o, u) && u.shell == h.shell.(closing := true)
  {
    var id := h.server.next;
    u := Serves(o, h, Api.CallShutdown);
    u := CallerProceeds(o, u, id, Api.Media);
    u := CallerProceeds(o, u, id, Api.Sessions);
    TasksShape(u.server, id);
    u := Serves(o, u, Api.Advance(id, true));
  }

  lemma DrainWork(o: House, h: House) returns (u: House)
    requires Route(o, h)
    ensures Route(o, u) && u == h.(shell := h.shell.(work := 0))
    decreases h.shell.work
  {
    u := h;
    if h.shell.work > 0 {
      TerminalRelease.WorkShape(h.shell);
      u := Moves(o, h, WorkEnds);
      u := DrainWork(o, u);
    }
  }

  // ---------------------------------------------------------------- the server settles

  // Behind the fence with all work joined and no worker's call, the server may do whatever it can.
  ghost predicate Free(h: House) {
    match h
    case House(shell, _, calls) => shell.fencePassed && shell.Joined() && calls == map[]
  }

  function Served(h: House, server: Api.Server): House {
    h.(server := server, shell := h.shell.(serverSettled := server.facts.settled))
  }

  lemma {:induction false} ServeTrace(o: House, h: House, trace: seq<Api.Action>)
    requires Route(o, h) && Free(h)
    ensures Route(o, Served(h, Api.Run(h.server, trace)))
  {
    if trace == [] {
      assert Served(h, Api.Run(h.server, [])) == h;
    } else {
      var before := Served(h, Api.Run(h.server, trace[..|trace| - 1]));
      ServeTrace(o, h, trace[..|trace| - 1]);
      var u := Serves(o, before, trace[|trace| - 1]);
    }
  }

  lemma SettleServer(o: House, h: House) returns (u: House)
    requires Route(o, h) && Free(h)
    ensures Route(o, u) && u.shell == h.shell.(serverSettled := true)
  {
    var server := ApiRecovery.CanSettle(h.server);
    var trace :| server == Api.Run(h.server, trace) && forall a :: a in trace ==> ApiRecovery.ByLater(h.server, a);
    ServeTrace(o, h, trace);
    u := Served(h, server);
  }

  lemma SettleAndRelease(o: House, h: House) returns (u: House)
    requires Route(o, h) && Free(h)
    requires h.shell.terminal.active.None? && !UnsettledUpdate(h.shell.terminal)
    ensures Route(o, u) && u.shell.released
  {
    u := SettleServer(o, h);
    u := Moves(o, u, LoopSettles);
    TerminalRelease.ReleaseShape(u.shell);
    u := Moves(o, u, ServicesReleased);
  }

  lemma NoCalls(h: House)
    requires Linked(h) && h.shell.terminal.active.None?
    ensures h.calls == map[]
  {
  }

  lemma ReleaseRoute(h: House) returns (u: House)
    requires Linked(h) && !TerminalRelease.Held(h.shell)
    ensures Goes(h, u) && u.shell.released
  {
    RouteStarts(h);
    u := h;
    if !h.shell.released {
      u := GiveUp(h, h);
      if !u.shell.released {
        u := PassFence(h, u);
        u := CloseTasks(h, u);
        u := DrainWork(h, u);
        NoCalls(u);
        u := SettleAndRelease(h, u);
      }
    }
  }

  // ---------------------------------------------------------------- exactly when

  lemma StaysHeld(h: House, e: Event)
    requires Linked(h) && TerminalRelease.Held(h.shell) && e != REPORT
    ensures TerminalRelease.Held(Step(h, e).shell)
  {
    match e
    case ShellMoves(a) => TerminalRelease.StepStaysHeld(h.shell, a);
    case ServerMoves(_) =>
    case WorkerCalls(_) =>
    case WorkerReturns(k) =>
      if Step(h, e) != h {
        var ok := h.server.returned[h.calls[k]] || h.server.facts.settled;
        TerminalRelease.StepStaysHeld(h.shell, Advance(k, ok));
      }
    case WorkerLeaves(k) =>
      if Stopping(h.shell, k) {
        LeaveShape(h, k);
        TerminalRelease.StepStaysHeld(h.shell, Crash(k));
      }
  }

  lemma {:induction false} RunStaysHeld(h: House, events: seq<Event>)
    requires Linked(h) && TerminalRelease.Held(h.shell) && REPORT !in events
    ensures Linked(Play(h, events)) && TerminalRelease.Held(Play(h, events).shell)
  {
    if events != [] {
      var before := Play(h, events[..|events| - 1]);
      RunStaysHeld(h, events[..|events| - 1]);
      StepKeeps(before, events[|events| - 1]);
      StaysHeld(before, events[|events| - 1]);
    }
  }

  // With the server's pipeline run inside, its callers cancelled or failing, the services can be released
  // without the updater's report exactly when the shell alone could release them.
  lemma {:induction false} ReleaseIsHeldExactly(h: House)
    requires Played(h)
    ensures (exists u :: Goes(h, u) && u.shell.released) <==> !TerminalRelease.Held(h.shell)
  {
    PlayedIsLinked(h);
    if TerminalRelease.Held(h.shell) {
      forall u | Goes(h, u) ensures !u.shell.released {
        var events :| u == Play(h, events) && REPORT !in events;
        RunStaysHeld(h, events);
      }
    } else {
      var u := ReleaseRoute(h);
    }
  }
}
