/** What every run of the update client keeps, stated over its logs. */
module UpdateTheorems {
  import opened Basics
  import opened UpdateClient
  import opened UpdateRuns

  // Until an unsettled command is settled it stays exactly as it is; a read settles it under the
  // response it was left with.
  ghost predicate Holds(s: System, u: System) {
    match s
    case System(c, _, _, _, _, _, settled) =>
      Unsettled(c) ==>
        if |u.settled| <= |settled| then u.client.request == c.request
        else u.settled[|settled|].Observed? && u.settled[|settled|].response == c.request.value.response
  }

  // Logs only grow, and the flow the client shows never goes back.
  ghost predicate Follows(s: System, u: System) {
    match s
    case System(c, history, _, _, _, sent, settled) =>
      && history <= u.history && sent <= u.sent && settled <= u.settled
      && c.flow.revision <= u.client.flow.revision
      && Holds(s, u)
  }

  lemma FollowsTransitive(s: System, t: System, u: System)
    requires Follows(s, t) && Follows(t, u)
    ensures Follows(s, u)
  {
  }

  lemma PostFollows(s: System, i: nat, at: nat, blocked: bool)
    requires Inv(s)
    ensures Follows(s, PostStep(s, i, at, blocked))
  {
    if i < |s.posts| && Delivers(s, s.sent[s.posts[i]].at, at) {
      AnswerShape(s.client, s.sent[s.posts[i]].command.kind, s.history[at], blocked);
    }
  }

  lemma BecomeFollows(s: System, u: Client)
    requires BeginsAtMost(s.client, u)
    ensures Follows(s, Become(s, u))
  {
  }

  lemma FailFollows(s: System, i: nat, returned: bool)
    requires Inv(s)
    ensures Follows(s, Step(s, PostFails(i, returned)))
  {
    if i < |s.posts| {
      RecoverShape(s.client, returned);
      FailShape(s, i, Recover(s.client, returned));
    }
  }

  lemma PollFollows(s: System, at: nat, blocked: bool)
    requires Inv(s)
    ensures Follows(s, PollStep(s, at, blocked))
  {
    if s.poll.Reading? && Delivers(s, s.poll.at, at) {
      TakeShape(s.client, s.history[at], blocked);
    }
  }

  lemma HandlersFollow(s: System, a: Action)
    requires Inv(s) && Handles(a)
    ensures Follows(s, Step(s, a))
  {
    match a
    case Downloads(version) =>
      StartDownloadBegins(s.client, version);
      BecomeFollows(s, StartDownload(s.client, version));
    case DownloadsAndInstalls(version, blocked) =>
      DownloadAndInstallBegins(s.client, version, blocked);
      BecomeFollows(s, DownloadAndInstall(s.client, version, blocked));
    case Applies(blocked) =>
      ApplyBegins(s.client, blocked);
      BecomeFollows(s, ApplyAndRestart(s.client, blocked));
  }

  lemma SnapshotFollows(s: System, i: nat, at: nat, checking: bool)
    requires Inv(s)
    ensures Follows(s, SnapshotStep(s, i, at, checking))
  {
    if SnapshotStep(s, i, at, checking) != s {
      SnapshotShape(s.client, s.history[at]);
    }
  }

  lemma OthersFollow(s: System, a: Action)
    requires Inv(s)
    requires a.ServerMoves? || a.TimerElapses? || a.PollFails? || a.PollEnds? || a.SnapshotAsks?
    ensures Follows(s, Step(s, a))
  {
    match a
    case ServerMoves(_) =>
    case TimerElapses =>
    case PollFails =>
    case PollEnds =>
    case SnapshotAsks =>
  }

  lemma StepFollows(s: System, a: Action)
    requires Inv(s)
    ensures Follows(s, Step(s, a))
  {
    match a
    case Downloads(_) => HandlersFollow(s, a);
    case DownloadsAndInstalls(_, _) => HandlersFollow(s, a);
    case Applies(_) => HandlersFollow(s, a);
    case PostAnswers(i, at, blocked) => PostFollows(s, i, at, blocked);
    case PostFails(i, returned) => FailFollows(s, i, returned);
    case PollAnswers(at, blocked) => PollFollows(s, at, blocked);
    case SnapshotAnswers(i, at, checking) => SnapshotFollows(s, i, at, checking);
    case ServerMoves(_) => OthersFollow(s, a);
    case TimerElapses => OthersFollow(s, a);
    case PollFails => OthersFollow(s, a);
    case PollEnds => OthersFollow(s, a);
    case SnapshotAsks => OthersFollow(s, a);
  }

  lemma {:induction false} RunFollows(s: System, actions: seq<Action>)
    requires Inv(s)
    ensures Inv(Run(s, actions)) && Follows(s, Run(s, actions))
  {
    if actions != [] {
      var t := Run(s, actions[..|actions| - 1]);
      RunFollows(s, actions[..|actions| - 1]);
      StepKeepsInv(t, Latest(actions));
      StepFollows(t, Latest(actions));
      FollowsTransitive(s, t, Step(t, Latest(actions)));
    }
  }

  lemma LeadsFollows(s: System, u: System)
    requires Inv(s) && Leads(s, u)
    ensures Inv(u) && Follows(s, u)
  {
    var actions :| u == Run(s, actions);
    RunFollows(s, actions);
  }

  // At most one command is in flight, and it is the one the client is waiting for: an answer never
  // meets another command's slot. All earlier ones are settled.
  lemma {:induction false} OneCommandOutstanding(s: System)
    requires Reachable(s)
    ensures
      && |s.sent| == |s.settled| + (if s.client.request.Some? then 1 else 0)
      && (Awaiting(s.client) ==>
            s.posts == [|s.sent| - 1] && s.sent[|s.sent| - 1].command == s.client.request.value.command)
      && (!Awaiting(s.client) ==> s.posts == [])
  {
    ReachableHasInv(s);
  }

  lemma BecomeSends(s: System, u: Client)
    ensures Become(s, u).sent == s.sent || (|Become(s, u).sent| == |s.sent| + 1 && Become(s, u).client.request.Some?)
  {
  }

  lemma StepSends(s: System, a: Action)
    ensures Step(s, a).sent == s.sent || (|Step(s, a).sent| == |s.sent| + 1 && Step(s, a).client.request.Some?)
  {
    match a
    case ServerMoves(flow) =>
    case Downloads(version) => BecomeSends(s, StartDownload(s.client, version));
    case DownloadsAndInstalls(version, blocked) => BecomeSends(s, DownloadAndInstall(s.client, version, blocked));
    case Applies(blocked) => BecomeSends(s, ApplyAndRestart(s.client, blocked));
    case PostAnswers(i, at, blocked) =>
    case PostFails(i, returned) =>
    case TimerElapses =>
    case PollAnswers(at, blocked) =>
    case PollFails =>
    case PollEnds =>
    case SnapshotAsks =>
    case SnapshotAnswers(i, at, checking) =>
  }

  lemma FollowedCount(s: System, u: System)
    requires Inv(s) && Inv(u) && Follows(s, u) && |u.sent| == |s.sent| + 1 && u.client.request.Some?
    ensures |u.settled| == |s.sent|
  {
  }

  // A command is posted only when every command before it has been settled, at most one a step.
  lemma {:induction false} NextCommandWaits(s: System, a: Action)
    requires Reachable(s)
    ensures var u := Step(s, a);
      u.sent != s.sent ==> |u.sent| == |s.sent| + 1 && |u.settled| == |s.sent|
  {
    ReachableHasInv(s);
    StepKeepsInv(s, a);
    StepFollows(s, a);
    StepSends(s, a);
    if Step(s, a).sent != s.sent {
      FollowedCount(s, Step(s, a));
    }
  }

  // Whatever cleared a command was its own answer, or a read asked for after it was posted; and when
  // its outcome was unknown, one with the same version and a strictly greater revision.
  lemma {:induction false} CommandsAreSettledByEvidence(s: System, k: nat)
    requires Reachable(s) && k < |s.settled|
    ensures k < |s.sent|
    ensures
      match s.settled[k]
      case Answered(at) => s.sent[k].at <= at < |s.history|
      case Observed(at, response) =>
        && s.sent[k].at <= at < |s.history|
        && (response.Unknown? ==>
          && s.history[at].version == s.sent[k].command.version
          && s.history[at].revision > s.sent[k].command.revision)
        && (response.Unknown? && s.sent[k].command.kind.Download? ==> !s.history[at].phase.Idle?)
        && (response.Unknown? && s.sent[k].command.kind.Apply? ==>
          s.history[at].phase.Applying? || s.history[at].canRestart)
  {
    ReachableHasInv(s);
    assert Justified(s.history, s.sent[k], s.settled[k]);
  }

  // A command whose outcome is unknown is never resent: for as long as nothing has settled it, it stays
  // in the slot, nothing is posted and nothing is in flight.
  lemma {:induction false} UnknownIsNeverResent(s: System, u: System)
    requires Reachable(s) && Leads(s, u) && s.client.request.Some? && s.client.request.value.response.Unknown?
    ensures
      if |u.settled| == |s.settled| then u.client.request == s.client.request && u.sent == s.sent && u.posts == []
      else
        && |u.settled| > |s.settled| && u.settled[|s.settled|].Observed?
        && u.settled[|s.settled|].at < |u.history|
        && Shows(s.client.request.value.command, u.history[u.settled[|s.settled|].at])
  {
    ReachableHasInv(s);
    LeadsFollows(s, u);
    if |u.settled| > |s.settled| {
      assert Justified(u.history, u.sent[|s.settled|], u.settled[|s.settled|]);
    }
  }

  // However late answers, reads and snapshots arrive, the shown revision never decreases.
  lemma {:induction false} RevisionNeverDecreases(s: System, u: System)
    requires Reachable(s) && Leads(s, u)
    ensures
      && s.client.flow.revision <= u.client.flow.revision
      && (u.client.flow == IDLE_FLOW || u.client.flow in u.history)
  {
    ReachableHasInv(s);
    LeadsFollows(s, u);
  }

  // Nothing unsettled, and no flow that is moving, is left without a poll, a timer or an answer to come.
  lemma {:induction false} NothingIsAbandoned(s: System)
    requires Reachable(s)
    ensures
      && (Unsettled(s.client) ==> !s.poll.NoPoll? || s.client.timer)
      && (PollActive(s.client.flow.phase) ==> !s.poll.NoPoll? || s.client.timer || s.posts != [])
  {
    ReachableHasInv(s);
  }

  predicate Quiet(a: Action) {
    a.TimerElapses? || a.PollAnswers? || a.PollFails? || a.PollEnds?
  }

  // Polling alone, in at most `n` steps, leads from `s` to `u`.
  ghost predicate Polls(s: System, u: System, n: nat)
    decreases n
  {
    u == s || (n > 0 && exists t, a :: Polls(s, t, n - 1) && Quiet(a) && u == Step(t, a))
  }

  lemma PollsStep(s: System, t: System, n: nat, a: Action)
    requires Polls(s, t, n) && Quiet(a)
    ensures Polls(s, Step(t, a), n + 1)
  {
  }

  // The poll under way can end, by failing if its read is still out.
  lemma PollCanEnd(s: System) returns (t: System)
    requires Inv(s) && Unsettled(s.client)
    ensures Polls(s, t, 1)
    ensures Inv(t) && t.poll.NoPoll? && t.client.timer
    ensures t.client.request == s.client.request && t.history == s.history && t.settled == s.settled
  {
    EndKeeps(s);
    t := s;
    if s.poll.Reading? {
      t := Step(s, PollFails);
      PollsStep(s, s, 0, PollFails);
    } else if s.poll.Restarting? {
      t := Step(s, PollEnds);
      PollsStep(s, s, 0, PollEnds);
    }
  }

  lemma FreshRead(t: System) returns (u: System)
    requires Inv(t) && Unsettled(t.client) && t.poll.NoPoll? && t.client.timer
    ensures u == Step(t, TimerElapses) && u.poll == Reading(u.client.sequence, |t.history| - 1)
    ensures u.client.request == t.client.request && u.client.flow == t.client.flow
    ensures u.history == t.history && u.settled == t.settled
  {
    u := Step(t, TimerElapses);
  }

  // A fresh read of the server's present flow settles it.
  lemma FreshReadSettles(t: System)
    requires |t.history| > 0 && Unsettled(t.client) && t.poll == Reading(t.client.sequence, |t.history| - 1)
    requires t.client.flow.revision <= Latest(t.history).revision
    requires t.client.request.value.response.Unknown? ==> Shows(t.client.request.value.command, Latest(t.history))
    ensures |Step(t, PollAnswers(|t.history| - 1, true)).settled| == |t.settled| + 1
  {
  }

  // Recovery is always possible: from any reachable state with an unsettled command, at most three steps
  // of polling alone settle it, once the server's present flow shows it acted (or at once, if the server
  // had refused the command).
  lemma {:induction false} RecoveryIsPossible(s: System) returns (u: System)
    requires Reachable(s) && Unsettled(s.client) && |s.history| > 0
    requires s.client.request.value.response.Unknown? ==> Shows(s.client.request.value.command, Latest(s.history))
    ensures Polls(s, u, 3) && |u.settled| == |s.settled| + 1
  {
    ReachableHasInv(s);
    var t := PollCanEnd(s);
    var v := FreshRead(t);
    var read := PollAnswers(|v.history| - 1, true);
    PollsStep(s, t, 1, TimerElapses);
    PollsStep(s, v, 2, read);
    FreshReadSettles(v);
    u := Step(v, read);
  }
}
