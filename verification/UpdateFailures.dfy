/**
 How a command that failed is remembered over a run, from the failure itself: a lost answer leaves it
 unknown until a read shows its effect, a refusal hands it back. And when each handler must post, and each
 read must be taken.
 */
module UpdateFailures {
  import opened Basics
  import opened UpdateClient
  import opened UpdateRuns
  import opened UpdateTheorems

  // ---------------------------------------------------------------- failures

  // The client right after the post of its command failed.
  lemma RecoverIsExact(c: Client, returned: bool)
    requires c.request.Some?
    ensures Recover(c, returned) ==
            c.(request := Some(Request(c.request.value.command, if returned then Returned else Unknown)),
               autoApply := c.autoApply && !returned, polling := true)
  {
  }

  lemma FailureState(s: System, i: nat, returned: bool)
    requires Inv(s) && i < |s.posts|
    ensures s.posts[i] == |s.settled| < |s.sent|
    ensures var u := Step(s, PostFails(i, returned));
      && u.client.request == Some(Request(s.sent[s.posts[i]].command, if returned then Returned else Unknown))
      && u.client.autoApply == (s.client.autoApply && !returned) && u.client.polling
      && u.sent == s.sent && u.settled == s.settled && u.posts == [] && u.history == s.history
  {
    OneInFlight(s, i);
    RecoverShape(s.client, returned);
    RecoverIsExact(s.client, returned);
    FailShape(s, i, Recover(s.client, returned));
  }

  lemma ReachableStep(s: System, a: Action)
    requires Reachable(s)
    ensures Reachable(Step(s, a))
  {
    var first :| Leads(Start(first), s);
    var actions :| s == Run(Start(first), actions);
    assert (actions + [a])[..|actions|] == actions;
    assert Step(s, a) == Run(Start(first), actions + [a]);
    assert Leads(Start(first), Step(s, a));
  }

  // Command `k` still waits, unsent since, under this response.
  ghost predicate Waits(s: System, v: System, k: nat, command: Command, response: Response) {
    match v
    case System(c, _, posts, _, _, sent, _) =>
      c.request == Some(Request(command, response)) && sent == s.sent && posts == []
  }

  lemma UnknownState(u: System, v: System, k: nat, command: Command)
    requires Reachable(u) && Leads(u, v) && k == |u.settled|
    requires u.client.request == Some(Request(command, Unknown)) && u.posts == []
    ensures if |v.settled| <= k then Waits(u, v, k, command, Unknown)
            else
              && v.settled[k].Observed? && v.settled[k].at < |v.history|
              && var shown := v.history[v.settled[k].at];
                && shown.version == command.version && shown.revision > command.revision
                && (if command.kind.Download? then !shown.phase.Idle? else shown.phase.Applying? || shown.canRestart)
  {
    UnknownIsNeverResent(u, v);
    ReachableHasInv(u);
    LeadsFollows(u, v);
  }

  // A command whose answer was lost is unknown from then on, in every continuation: it waits, nothing is
  // posted meanwhile, and only a read with its version, a strictly greater revision and a phase that fits
  // its kind settles it.
  lemma {:induction false} LostAnswerStaysUnknown(s: System, i: nat, v: System)
    requires Reachable(s) && i < |s.posts| && Leads(Step(s, PostFails(i, false)), v)
    ensures s.posts[i] < |s.sent|
    ensures var k, command := s.posts[i], s.sent[s.posts[i]].command;
      if |v.settled| <= k then Waits(s, v, k, command, Unknown)
      else
        && v.settled[k].Observed? && v.settled[k].at < |v.history|
        && var shown := v.history[v.settled[k].at];
          && shown.version == command.version && shown.revision > command.revision
          && (if command.kind.Download? then !shown.phase.Idle? else shown.phase.Applying? || shown.canRestart)
  {
    ReachableHasInv(s);
    FailureState(s, i, false);
    ReachableStep(s, PostFails(i, false));
    UnknownState(Step(s, PostFails(i, false)), v, s.posts[i], s.sent[s.posts[i]].command);
  }

  // A command the server refused is handed back: it waits as returned until a read settles it, nothing is
  // posted meanwhile, and the wish to install on ready has ended.
  lemma {:induction false} RefusalIsHandedBack(s: System, i: nat, v: System)
    requires Reachable(s) && i < |s.posts| && Leads(Step(s, PostFails(i, true)), v)
    ensures s.posts[i] < |s.sent|
    ensures !Step(s, PostFails(i, true)).client.autoApply
    ensures var k, command := s.posts[i], s.sent[s.posts[i]].command;
      if |v.settled| <= k then Waits(s, v, k, command, Returned)
      else v.settled[k] == Observed(v.settled[k].at, Returned) && v.settled[k].at < |v.history|
  {
    ReachableHasInv(s);
    FailureState(s, i, true);
    ReachableStep(s, PostFails(i, true));
    var u := Step(s, PostFails(i, true));
    ReachableHasInv(u);
    LeadsFollows(u, v);
    if |v.settled| > |u.settled| {
      assert Justified(v.history, v.sent[|u.settled|], v.settled[|u.settled|]);
    }
  }

  // ---------------------------------------------------------------- what must be posted and taken

  // A read begun at `sequence` is to be taken: it is current, not older, and for an unknown outcome it shows
  // that the server acted on the command.
  predicate Settling(c: Client, sequence: nat, next: Flow) {
    && sequence == c.sequence && next.revision >= c.flow.revision
    && (c.request.Some? && c.request.value.response.Unknown? ==>
          var sent := c.request.value.command;
          && next.version == sent.version && next.revision > sent.revision
          && (if sent.kind.Download? then !next.phase.Idle? else next.phase.Applying? || next.canRestart))
  }

  predicate Installs(c: Client, next: Flow, blocked: bool) {
    next.phase.Ready? && c.autoApply && !blocked && !next.canRestart
  }

  // The cases in which a step has to post a command.
  predicate MustPost(s: System, a: Action) {
    var c, flow := s.client, s.client.flow;
    var idle := c.request.None? && !flow.canRestart;
    var moving := flow.phase.Downloading? || flow.phase.Applying?;
    match a
    case Downloads(_) => idle && !moving
    case DownloadsAndInstalls(_, blocked) => idle && (if flow.phase.Ready? then !blocked else !moving)
    case Applies(blocked) => idle && flow.phase.Ready? && !blocked
    case PostAnswers(i, at, blocked) =>
      && i < |s.posts| && s.posts[i] < |s.sent| && s.sent[s.posts[i]].at <= at < |s.history|
      && Installs(c, s.history[at], blocked)
    case PollAnswers(at, blocked) =>
      && s.poll.Reading? && s.poll.at <= at < |s.history|
      && Settling(c, s.poll.sequence, s.history[at]) && Installs(c, s.history[at], blocked)
    case _ => false
  }

  lemma SetFlowBegins(c: Client, next: Flow, blocked: bool)
    requires c.request.None?
    ensures SetFlow(c, next, true, blocked).sequence > c.sequence <==> Installs(c, next, blocked)
    ensures SetFlow(c, next, true, blocked).sequence > c.sequence ==> SetFlow(c, next, true, blocked).request.Some?
  {
  }

  lemma BecomePostsExactly(s: System, u: Client)
    requires u.sequence > s.client.sequence ==> u.request.Some?
    ensures Become(s, u).sent != s.sent <==> u.sequence > s.client.sequence
  {
  }

  lemma HandlerPostsExactly(s: System, a: Action)
    requires Handles(a)
    ensures Step(s, a).sent != s.sent <==> MustPost(s, a)
  {
    match a
    case Downloads(version) => BecomePostsExactly(s, StartDownload(s.client, version));
    case DownloadsAndInstalls(version, blocked) =>
      BecomePostsExactly(s, DownloadAndInstall(s.client, version, blocked));
    case Applies(blocked) => BecomePostsExactly(s, ApplyAndRestart(s.client, blocked));
  }

  lemma AnswerPostsExactly(s: System, i: nat, at: nat, blocked: bool)
    requires i < |s.posts| && s.posts[i] < |s.sent| && Delivers(s, s.sent[s.posts[i]].at, at)
    ensures PostStep(s, i, at, blocked).sent != s.sent <==> Installs(s.client, s.history[at], blocked)
  {
    var kind := s.sent[s.posts[i]].command.kind;
    SetFlowBegins(s.client.(request := None), s.history[at], blocked);
    BecomePostsExactly(Settle(Arrived(s, i), Answered(at)), Answer(s.client, kind, s.history[at], blocked));
  }

  lemma TakesExactly(c: Client, sequence: nat, next: Flow)
    ensures Takes(c, sequence, next) <==> Settling(c, sequence, next)
  {
  }

  lemma ReadPostsExactly(s: System, at: nat, blocked: bool)
    requires s.poll.Reading? && Delivers(s, s.poll.at, at)
    ensures PollStep(s, at, blocked).sent != s.sent <==>
            Settling(s.client, s.poll.sequence, s.history[at]) && Installs(s.client, s.history[at], blocked)
  {
    var c, next := s.client, s.history[at];
    TakesExactly(c, s.poll.sequence, next);
    if Takes(c, s.poll.sequence, next) {
      var response := if c.request.Some? then c.request.value.response else Pending;
      SetFlowBegins(c.(request := None, autoApply := c.autoApply && !next.phase.Idle?), next, blocked);
      BecomePostsExactly(Settle(s.(poll := Restarting), Observed(at, response)), TakeRead(c, next, blocked));
    }
  }

  // In every state a step posts a command if and only if its case calls for one.
  lemma PostsExactly(s: System, a: Action)
    ensures Step(s, a).sent != s.sent <==> MustPost(s, a)
  {
    match a
    case Downloads(_) => HandlerPostsExactly(s, a);
    case DownloadsAndInstalls(_, _) => HandlerPostsExactly(s, a);
    case Applies(_) => HandlerPostsExactly(s, a);
    case PostAnswers(i, at, blocked) =>
      if i < |s.posts| && s.posts[i] < |s.sent| && Delivers(s, s.sent[s.posts[i]].at, at) {
        AnswerPostsExactly(s, i, at, blocked);
      }
    case PollAnswers(at, blocked) =>
      if s.poll.Reading? && Delivers(s, s.poll.at, at) { ReadPostsExactly(s, at, blocked); }
    case ServerMoves(_) =>
    case PostFails(_, _) =>
    case TimerElapses =>
    case PollFails =>
    case PollEnds =>
    case SnapshotAsks =>
    case SnapshotAnswers(_, _, _) =>
  }

  // A read that arrives settles the client exactly in its case: it is shown then, and otherwise the poll ends
  // and the client keeps what it had.
  lemma ReadIsTakenExactly(s: System, at: nat, blocked: bool)
    requires Inv(s) && s.poll.Reading? && s.poll.at <= at < |s.history|
    ensures var u := Step(s, PollAnswers(at, blocked));
      if Settling(s.client, s.poll.sequence, s.history[at]) then
        && u.poll == Restarting && u.client.flow == s.history[at]
        && |u.settled| == |s.settled| + (if s.client.request.Some? then 1 else 0)
      else
        && u.poll == NoPoll && u.client.flow == s.client.flow && u.client.request == s.client.request
        && u.settled == s.settled
  {
    TakesExactly(s.client, s.poll.sequence, s.history[at]);
    TakeShape(s.client, s.history[at], blocked);
  }

  // The wish to install on ready is the user's: no other step brings it up.
  lemma WishIsTheUsers(s: System, a: Action)
    requires Step(s, a).client.autoApply && !s.client.autoApply
    ensures a.DownloadsAndInstalls?
  {
    match a
    case Downloads(version) => StartDownloadBegins(s.client, version);
    case DownloadsAndInstalls(_, _) =>
    case Applies(blocked) => ApplyBegins(s.client, blocked);
    case PostAnswers(i, at, blocked) => AnswerKeepsWish(s, i, at, blocked);
    case PollAnswers(at, blocked) => ReadKeepsWish(s, at, blocked);
    case PostFails(_, _) => OthersKeepWish(s, a);
    case ServerMoves(_) => OthersKeepWish(s, a);
    case TimerElapses => OthersKeepWish(s, a);
    case PollFails => OthersKeepWish(s, a);
    case PollEnds => OthersKeepWish(s, a);
    case SnapshotAsks => OthersKeepWish(s, a);
    case SnapshotAnswers(_, _, _) => OthersKeepWish(s, a);
  }

  lemma AnswerKeepsWish(s: System, i: nat, at: nat, blocked: bool)
    requires !s.client.autoApply
    ensures !PostStep(s, i, at, blocked).client.autoApply
  {
  }

  lemma ReadKeepsWish(s: System, at: nat, blocked: bool)
    requires !s.client.autoApply
    ensures !PollStep(s, at, blocked).client.autoApply
  {
  }

  lemma OthersKeepWish(s: System, a: Action)
    requires !s.client.autoApply && !Handles(a) && !a.PostAnswers? && !a.PollAnswers?
    ensures !Step(s, a).client.autoApply
  {
    match a
    case PostFails(_, _) =>
    case ServerMoves(_) =>
    case TimerElapses =>
    case PollFails =>
    case PollEnds =>
    case SnapshotAsks =>
    case SnapshotAnswers(_, _, _) =>
  }
}
