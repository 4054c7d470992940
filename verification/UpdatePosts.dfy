/** What the update client posts, and how current the flows are that it shows. */
module UpdatePosts {
  import opened Basics
  import opened UpdateClient
  import opened UpdateRuns
  import opened UpdateTheorems

  // ---------------------------------------------------------------- one handler

  // The command just begun fits the flow the client shows.
  ghost predicate Fits(u: Client) {
    match u
    case Client(flow, request, _, _, _, _) =>
      && request.Some? && !flow.canRestart && request.value.command.revision == flow.revision
      && (request.value.command.kind.Apply? ==> flow.phase.Ready? && request.value.command.version == flow.version)
  }

  // What the cause of a post allows: a download is the one asked for and interrupts no moving flow, an
  // installation never starts while downloads or launches block it.
  ghost predicate Allows(a: Action, before: Client, command: Command) {
    match a
    case Downloads(version) => command.kind.Download? && command.version == version && !PollActive(before.flow.phase)
    case DownloadsAndInstalls(version, blocked) =>
      if command.kind.Download? then command.version == version && !PollActive(before.flow.phase) else !blocked
    case Applies(blocked) => command.kind.Apply? && !blocked
    case PostAnswers(_, _, blocked) => command.kind.Apply? && !blocked
    case PollAnswers(_, blocked) => command.kind.Apply? && !blocked
    case _ => false
  }

  lemma DownloadFits(c: Client, version: string)
    ensures var u := StartDownload(c, version);
      u.sequence != c.sequence ==> Fits(u) && Allows(Downloads(version), c, u.request.value.command)
  {
  }

  lemma ApplyFits(c: Client, blocked: bool)
    ensures var u := ApplyAndRestart(c, blocked);
      u.sequence != c.sequence ==> Fits(u) && Allows(Applies(blocked), c, u.request.value.command)
  {
  }

  lemma DownloadAndInstallFits(c: Client, version: string, blocked: bool)
    ensures var u := DownloadAndInstall(c, version, blocked);
      u.sequence != c.sequence ==> Fits(u) && Allows(DownloadsAndInstalls(version, blocked), c, u.request.value.command)
  {
  }

  lemma SetFlowFits(c: Client, next: Flow, applyOnReady: bool, blocked: bool)
    ensures var u := SetFlow(c, next, applyOnReady, blocked);
      u.sequence != c.sequence ==> applyOnReady && Fits(u) && u.request.value.command.kind.Apply? && !blocked
  {
  }

  lemma AnswerFits(c: Client, kind: Kind, next: Flow, blocked: bool, i: nat, at: nat)
    ensures var u := Answer(c, kind, next, blocked);
      u.sequence != c.sequence ==> Fits(u) && Allows(PostAnswers(i, at, blocked), c, u.request.value.command)
  {
    SetFlowFits(c.(request := None), next, true, blocked);
  }

  lemma TakeFits(c: Client, next: Flow, blocked: bool, at: nat)
    ensures var u := TakeRead(c, next, blocked);
      u.sequence != c.sequence ==> Fits(u) && Allows(PollAnswers(at, blocked), c, u.request.value.command)
  {
    SetFlowFits(c.(request := None, autoApply := c.autoApply && !next.phase.Idle?), next, true, blocked);
  }

  // ---------------------------------------------------------------- one step

  ghost predicate Posts(s: System, a: Action, u: System) {
    match u
    case System(c, history, _, _, _, sent, _) =>
      && c.request.Some? && Fits(c) && Allows(a, s.client, c.request.value.command)
      && history == s.history && |history| > 0
      && sent == s.sent + [Sent(c.request.value.command, |history| - 1)]
  }

  lemma BecomePosts(s: System, a: Action, base: System, u: Client)
    requires base.sent == s.sent && base.history == s.history && |s.history| > 0
    requires u.sequence != base.client.sequence ==>
               u.request.Some? && Fits(u) && Allows(a, s.client, u.request.value.command)
    ensures Become(base, u).sent == s.sent || Posts(s, a, Become(base, u))
  {
  }

  lemma PostStepPosts(s: System, i: nat, at: nat, blocked: bool)
    requires |s.history| > 0
    ensures var u := PostStep(s, i, at, blocked); u.sent == s.sent || Posts(s, PostAnswers(i, at, blocked), u)
  {
    if i < |s.posts| && s.posts[i] < |s.sent| && Delivers(s, s.sent[s.posts[i]].at, at) {
      var kind := s.sent[s.posts[i]].command.kind;
      AnswerFits(s.client, kind, s.history[at], blocked, i, at);
      BecomePosts(s, PostAnswers(i, at, blocked), Settle(Arrived(s, i), Answered(at)),
                  Answer(s.client, kind, s.history[at], blocked));
    }
  }

  lemma PollStepPosts(s: System, at: nat, blocked: bool)
    requires |s.history| > 0
    ensures var u := PollStep(s, at, blocked); u.sent == s.sent || Posts(s, PollAnswers(at, blocked), u)
  {
    if s.poll.Reading? && Delivers(s, s.poll.at, at) && Takes(s.client, s.poll.sequence, s.history[at]) {
      var response := if s.client.request.Some? then s.client.request.value.response else Pending;
      TakeFits(s.client, s.history[at], blocked, at);
      BecomePosts(s, PollAnswers(at, blocked), Settle(s.(poll := Restarting), Observed(at, response)),
                  TakeRead(s.client, s.history[at], blocked));
    }
  }

  lemma StepPosts(s: System, a: Action)
    requires |s.history| > 0
    ensures Step(s, a).sent == s.sent || Posts(s, a, Step(s, a))
  {
    match a
    case Downloads(version) =>
      DownloadFits(s.client, version);
      BecomePosts(s, a, s, StartDownload(s.client, version));
    case DownloadsAndInstalls(version, blocked) =>
      DownloadAndInstallFits(s.client, version, blocked);
      BecomePosts(s, a, s, DownloadAndInstall(s.client, version, blocked));
    case Applies(blocked) =>
      ApplyFits(s.client, blocked);
      BecomePosts(s, a, s, ApplyAndRestart(s.client, blocked));
    case PostAnswers(i, at, blocked) => PostStepPosts(s, i, at, blocked);
    case PollAnswers(at, blocked) => PollStepPosts(s, at, blocked);
    case ServerMoves(_) =>
    case PostFails(_, _) =>
    case TimerElapses =>
    case PollFails =>
    case PollEnds =>
    case SnapshotAsks =>
    case SnapshotAnswers(_, _, _) =>
  }

  // ---------------------------------------------------------------- over runs

  // The flow an installation was posted for: the server held it by then, ready and with that version.
  ghost predicate WasReady(history: seq<Flow>, sent: Sent) {
    exists i: nat :: i <= sent.at && i < |history| && IsReadyFor(history[i], sent.command)
  }

  predicate IsReadyFor(flow: Flow, command: Command) {
    flow.phase.Ready? && !flow.canRestart && flow.version == command.version && flow.revision == command.revision
  }

  ghost predicate AllReady(s: System) {
    match s
    case System(_, history, _, _, _, sent, _) =>
      forall k :: 0 <= k < |sent| && sent[k].command.kind.Apply? ==> WasReady(history, sent[k])
  }

  // A snapshot that could still be taken was asked for after the last command was posted.
  ghost predicate SnapshotsAgree(s: System) {
    match s
    case System(c, _, _, _, snapshots, sent, _) =>
      forall i :: 0 <= i < |snapshots| ==>
        && snapshots[i].sequence <= c.sequence
        && (snapshots[i].sequence == c.sequence && |sent| > 0 ==> sent[|sent| - 1].at <= snapshots[i].at)
  }

  ghost predicate Sound(s: System) {
    match s
    case System(_, _, _, _, _, _, _) => Inv(s) && AllReady(s) && SnapshotsAgree(s)
  }

  lemma PostWasReady(s: System, a: Action, u: System)
    requires Inv(u) && Posts(s, a, u)
    ensures u.client.request.value.command.kind.Apply? ==> WasReady(u.history, u.sent[|s.sent|])
  {
    if u.client.request.value.command.kind.Apply? {
      assert u.client.flow in u.history;
      var i :| 0 <= i < |u.history| && u.history[i] == u.client.flow;
      assert IsReadyFor(u.history[i], u.sent[|s.sent|].command);
    }
  }

  lemma ReadyStays(history: seq<Flow>, longer: seq<Flow>, sent: Sent)
    requires WasReady(history, sent) && history <= longer
    ensures WasReady(longer, sent)
  {
    var i: nat :| i <= sent.at && i < |history| && IsReadyFor(history[i], sent.command);
    assert longer[i] == history[i];
  }

  lemma ReadyFollows(s: System, u: System)
    requires AllReady(s) && s.history <= u.history && s.sent <= u.sent
    requires |u.sent| <= |s.sent| + 1
    requires |u.sent| > |s.sent| && u.sent[|s.sent|].command.kind.Apply? ==> WasReady(u.history, u.sent[|s.sent|])
    ensures AllReady(u)
  {
    forall k | 0 <= k < |u.sent| && u.sent[k].command.kind.Apply? ensures WasReady(u.history, u.sent[k]) {
      if k < |s.sent| {
        assert u.sent[k] == s.sent[k];
        ReadyStays(s.history, u.history, s.sent[k]);
      }
    }
  }

  lemma StepKeepsReady(s: System, a: Action)
    requires Inv(s) && AllReady(s)
    ensures AllReady(Step(s, a))
  {
    var u := Step(s, a);
    StepKeepsInv(s, a);
    StepFollows(s, a);
    StepPosts(s, a);
    if u.sent != s.sent { PostWasReady(s, a, u); }
    ReadyFollows(s, u);
  }

  lemma BecomeKeepsSnapshots(s: System, u: Client)
    ensures Become(s, u).snapshots == s.snapshots && BecomePolling(s, u).snapshots == s.snapshots
  {
  }

  lemma StepMovesSnapshots(s: System, a: Action)
    requires Inv(s)
    ensures var u := Step(s, a);
      || u.snapshots == s.snapshots
      || (u.snapshots == s.snapshots + [Snapshot(u.client.sequence, u.client.flow.revision, |u.history| - 1)]
          && u.sent == s.sent && u.client == s.client)
  {
    match a
    case ServerMoves(_) =>
    case Downloads(version) => BecomeKeepsSnapshots(s, StartDownload(s.client, version));
    case DownloadsAndInstalls(version, blocked) =>
      BecomeKeepsSnapshots(s, DownloadAndInstall(s.client, version, blocked));
    case Applies(blocked) => BecomeKeepsSnapshots(s, ApplyAndRestart(s.client, blocked));
    case PostAnswers(_, _, _) =>
    case PostFails(_, _) =>
    case TimerElapses => BecomeKeepsSnapshots(s, TimerFires(s.client));
    case PollAnswers(_, _) =>
    case PollFails =>
    case PollEnds =>
    case SnapshotAsks =>
    case SnapshotAnswers(_, _, _) =>
  }

  lemma SnapshotsFollow(s: System, u: System)
    requires Inv(s) && Inv(u) && SnapshotsAgree(s) && s.sent <= u.sent
    requires || u.snapshots == s.snapshots
             || (u.snapshots == s.snapshots + [Snapshot(u.client.sequence, u.client.flow.revision, |u.history| - 1)]
                 && u.sent == s.sent)
    ensures SnapshotsAgree(u)
  {
  }

  lemma StepKeepsSound(s: System, a: Action)
    requires Sound(s)
    ensures Sound(Step(s, a))
  {
    StepKeepsInv(s, a);
    StepFollows(s, a);
    StepKeepsReady(s, a);
    StepMovesSnapshots(s, a);
    SnapshotsFollow(s, Step(s, a));
  }

  lemma {:induction false} RunKeepsSound(first: Flow, actions: seq<Action>)
    ensures Sound(Run(Start(first), actions))
  {
    RunKeepsInv(first, actions);
    if actions != [] {
      RunKeepsSound(first, actions[..|actions| - 1]);
      StepKeepsSound(Run(Start(first), actions[..|actions| - 1]), Latest(actions));
    }
  }

  lemma ReachableIsSound(s: System)
    requires Reachable(s)
    ensures Sound(s)
  {
    var first :| Leads(Start(first), s);
    var actions :| s == Run(Start(first), actions);
    RunKeepsSound(first, actions);
  }

  // ---------------------------------------------------------------- the theorems

  // Every installation that was ever posted names the version and revision of a ready flow that the
  // server had held by then and that offered no restart.
  lemma {:induction false} InstallationsWereReady(s: System, k: nat)
    requires Reachable(s) && k < |s.sent| && s.sent[k].command.kind.Apply?
    ensures exists i: nat :: i <= s.sent[k].at && i < |s.history| && IsReadyFor(s.history[i], s.sent[k].command)
  {
    ReachableIsSound(s);
    assert WasReady(s.history, s.sent[k]);
  }

  // Nothing is posted while the shown flow offers a restart; a download is the one asked for and
  // interrupts no moving flow; an installation is of the ready flow shown and never of a blocked one.
  lemma {:induction false} PostsAreAllowed(s: System, a: Action)
    requires Reachable(s) && Step(s, a).sent != s.sent
    ensures var u := Step(s, a);
      && |u.sent| == |s.sent| + 1 && u.sent[|s.sent|].at == |u.history| - 1
      && var command := u.sent[|s.sent|].command;
        && !u.client.flow.canRestart && command.revision == u.client.flow.revision
        && Allows(a, s.client, command)
        && (command.kind.Apply? ==> u.client.flow.phase.Ready? && command.version == u.client.flow.version)
  {
    ReachableHasInv(s);
    StepPosts(s, a);
  }

  // Whatever changes the shown flow was asked for after the last command had been posted.
  ghost predicate IsCurrent(s: System, u: System) {
    exists at: nat :: at < |s.history| && u.client.flow == s.history[at]
      && (|s.sent| > 0 ==> s.sent[|s.sent| - 1].at <= at)
  }

  lemma PostIsCurrent(s: System, i: nat, at: nat, blocked: bool)
    requires Inv(s) && PostStep(s, i, at, blocked).client.flow != s.client.flow
    ensures IsCurrent(s, PostStep(s, i, at, blocked))
  {
    AnswerShape(s.client, s.sent[s.posts[i]].command.kind, s.history[at], blocked);
    assert PostStep(s, i, at, blocked).client.flow == s.history[at];
  }

  lemma PollIsCurrent(s: System, at: nat, blocked: bool)
    requires Inv(s) && PollStep(s, at, blocked).client.flow != s.client.flow
    ensures IsCurrent(s, PollStep(s, at, blocked))
  {
    TakeShape(s.client, s.history[at], blocked);
    assert PollStep(s, at, blocked).client.flow == s.history[at];
  }

  lemma SnapshotIsCurrent(s: System, i: nat, at: nat, checking: bool)
    requires Sound(s) && SnapshotStep(s, i, at, checking).client.flow != s.client.flow
    ensures IsCurrent(s, SnapshotStep(s, i, at, checking))
  {
    assert SnapshotStep(s, i, at, checking).client.flow == s.history[at];
  }

  lemma HandlersKeepFlow(s: System, a: Action)
    requires Handles(a)
    ensures Step(s, a).client.flow == s.client.flow
  {
    match a
    case Downloads(version) => StartDownloadBegins(s.client, version);
    case DownloadsAndInstalls(version, blocked) => DownloadAndInstallBegins(s.client, version, blocked);
    case Applies(blocked) => ApplyBegins(s.client, blocked);
  }

  lemma OthersKeepFlow(s: System, a: Action)
    requires
      a.ServerMoves? || a.PostFails? || a.TimerElapses? || a.PollFails? || a.PollEnds? || a.SnapshotAsks?
    ensures Step(s, a).client.flow == s.client.flow
  {
    match a
    case ServerMoves(_) =>
    case PostFails(_, _) =>
    case TimerElapses =>
    case PollFails =>
    case PollEnds =>
    case SnapshotAsks =>
  }

  lemma {:induction false} ShownFlowIsCurrent(s: System, a: Action)
    requires Reachable(s) && Step(s, a).client.flow != s.client.flow
    ensures IsCurrent(s, Step(s, a))
  {
    ReachableIsSound(s);
    match a
    case PostAnswers(i, at, blocked) => PostIsCurrent(s, i, at, blocked);
    case PollAnswers(at, blocked) => PollIsCurrent(s, at, blocked);
    case SnapshotAnswers(i, at, checking) => SnapshotIsCurrent(s, i, at, checking);
    case Downloads(_) => HandlersKeepFlow(s, a);
    case DownloadsAndInstalls(_, _) => HandlersKeepFlow(s, a);
    case Applies(_) => HandlersKeepFlow(s, a);
    case ServerMoves(_) => OthersKeepFlow(s, a);
    case PostFails(_, _) => OthersKeepFlow(s, a);
    case TimerElapses => OthersKeepFlow(s, a);
    case PollFails => OthersKeepFlow(s, a);
    case PollEnds => OthersKeepFlow(s, a);
    case SnapshotAsks => OthersKeepFlow(s, a);
  }
}
