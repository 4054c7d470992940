/**
 The client against a server whose revision never decreases. A read or an answer delivers any flow the
 server held since it was asked for, at any later time, or is lost. `sent` logs the commands posted and
 `settled` what cleared each of them from the client.
 */
module UpdateRuns {
  import opened Basics
  import opened UpdateClient

  // `at` is the position of the server's flow when the command was posted.
  datatype Sent = Sent(command: Command, at: nat)

  datatype Settlement = Answered(at: nat) | Observed(at: nat, response: Response)

  // Reading carries the captured sequence and the position of the server's flow when it was asked.
  datatype Poll = NoPoll | Reading(sequence: nat, at: nat) | Restarting

  datatype Snapshot = Snapshot(sequence: nat, revision: nat, at: nat)

  // `posts` are the commands in flight, as positions in `sent`.
  datatype System = System(
    client: Client, history: seq<Flow>, posts: seq<nat>, poll: Poll, snapshots: seq<Snapshot>,
    sent: seq<Sent>, settled: seq<Settlement>)

  datatype Action =
    | ServerMoves(flow: Flow)
    | Downloads(version: string)
    | DownloadsAndInstalls(version: string, blocked: bool)
    | Applies(blocked: bool)
    | PostAnswers(i: nat, at: nat, blocked: bool)
    | PostFails(i: nat, returned: bool)
    | TimerElapses
    | PollAnswers(at: nat, blocked: bool)
    | PollFails
    | PollEnds
    | SnapshotAsks
    | SnapshotAnswers(i: nat, at: nat, checking: bool)

  function Start(first: Flow): System {
    System(FRESH, [first], [], NoPoll, [], [], [])
  }

  function Latest<T>(items: seq<T>): T
    requires |items| > 0
  {
    items[|items| - 1]
  }

  predicate Sends(s: System, u: Client) {
    u.sequence > s.client.sequence && u.request.Some?
  }

  // The client becomes `u`; if a command was begun it is posted.
  function Become(s: System, u: Client): System {
    if Sends(s, u) then
      s.(client := u, sent := s.sent + [Sent(u.request.value.command, if s.history == [] then 0 else |s.history| - 1)],
         posts := s.posts + [|s.sent|])
    else s.(client := u)
  }

  // The client becomes `u`; if a poll was begun its read is asked for.
  function BecomePolling(s: System, u: Client): System {
    if u.polling && !s.client.polling
    then s.(client := u, poll := Reading(u.sequence, if s.history == [] then 0 else |s.history| - 1))
    else s.(client := u)
  }

  function Settle(s: System, how: Settlement): System {
    if s.client.request.Some? then s.(settled := s.settled + [how]) else s
  }

  function Arrived(s: System, i: nat): System
    requires i < |s.posts|
  {
    s.(posts := s.posts[..i] + s.posts[i + 1..])
  }

  predicate Delivers(s: System, asked: nat, at: nat) {
    asked <= at < |s.history|
  }

  function PostStep(s: System, i: nat, at: nat, blocked: bool): System {
    if i < |s.posts| && s.posts[i] < |s.sent| && Delivers(s, s.sent[s.posts[i]].at, at)
    then Become(Settle(Arrived(s, i), Answered(at)),
                Answer(s.client, s.sent[s.posts[i]].command.kind, s.history[at], blocked))
    else s
  }

  function PollStep(s: System, at: nat, blocked: bool): System {
    if !s.poll.Reading? || !Delivers(s, s.poll.at, at) then s
    else if Takes(s.client, s.poll.sequence, s.history[at]) then
      var response := if s.client.request.Some? then s.client.request.value.response else Pending;
      Become(Settle(s.(poll := Restarting), Observed(at, response)), TakeRead(s.client, s.history[at], blocked))
    else s.(poll := NoPoll, client := EndPoll(s.client))
  }

  function SnapshotStep(s: System, i: nat, at: nat, checking: bool): System {
    if i < |s.snapshots| && Delivers(s, s.snapshots[i].at, at) && !checking
       && TakesSnapshot(s.client, s.snapshots[i].sequence, s.snapshots[i].revision, s.history[at])
    then s.(client := TakeSnapshot(s.client, s.history[at]))
    else s
  }

  // A snapshot may be delivered again: that only adds behaviour.
  function Step(s: System, a: Action): System {
    match a
    case ServerMoves(flow) =>
      if s.history != [] && flow.revision < Latest(s.history).revision then s else s.(history := s.history + [flow])
    case Downloads(version) => Become(s, StartDownload(s.client, version))
    case DownloadsAndInstalls(version, blocked) => Become(s, DownloadAndInstall(s.client, version, blocked))
    case Applies(blocked) => Become(s, ApplyAndRestart(s.client, blocked))
    case PostAnswers(i, at, blocked) => PostStep(s, i, at, blocked)
    case PostFails(i, returned) =>
      if i < |s.posts| then BecomePolling(Arrived(s, i), Recover(s.client, returned)) else s
    case TimerElapses => if s.client.timer then BecomePolling(s, TimerFires(s.client)) else s
    case PollAnswers(at, blocked) => PollStep(s, at, blocked)
    case PollFails => if s.poll.Reading? then s.(poll := NoPoll, client := EndPoll(s.client)) else s
    case PollEnds => if s.poll.Restarting? then s.(poll := NoPoll, client := EndPoll(s.client)) else s
    case SnapshotAsks =>
      if MayCheck(s.client) && s.history != []
      then s.(snapshots := s.snapshots + [Snapshot(s.client.sequence, s.client.flow.revision, |s.history| - 1)])
      else s
    case SnapshotAnswers(i, at, checking) => SnapshotStep(s, i, at, checking)
  }

  function Run(s: System, actions: seq<Action>): System {
    if actions == [] then s else Step(Run(s, actions[..|actions| - 1]), Latest(actions))
  }

  // ---------------------------------------------------------------- the invariant

  ghost predicate Grows(history: seq<Flow>) {
    |history| > 0 && forall i, j :: 0 <= i <= j < |history| ==> history[i].revision <= history[j].revision
  }

  // What may clear a command: its answer, or a read asked for after it was posted that, when the outcome
  // was unknown, shows the server acted on it.
  ghost predicate Justified(history: seq<Flow>, sent: Sent, how: Settlement) {
    match how
    case Answered(at) => sent.at <= at < |history|
    case Observed(at, response) =>
      && sent.at <= at < |history| && !response.Pending?
      && (response.Unknown? ==> Shows(sent.command, history[at]))
  }

  ghost predicate AllJustified(s: System) {
    match s
    case System(_, _, _, _, _, _, _) =>
      |s.settled| <= |s.sent| && forall k :: 0 <= k < |s.settled| ==> Justified(s.history, s.sent[k], s.settled[k])
  }

  // The slot and the logs agree: what is in flight is the one command the client is waiting for.
  ghost predicate Agrees(s: System) {
    match s
    case System(c, history, posts, _, _, sent, settled) =>
      && c.sequence == |sent|
      && |sent| == |settled| + (if c.request.Some? then 1 else 0)
      && posts == (if Awaiting(c) then [|sent| - 1] else [])
      && (c.request.Some? ==> c.request.value.command == sent[|sent| - 1].command)
      && (|sent| > 0 ==> sent[|sent| - 1].at < |history|)
  }

  // The client never runs ahead of the server, nor of the command it has in flight.
  ghost predicate Behind(s: System) {
    match s
    case System(c, history, _, _, _, sent, _) =>
      && Grows(history)
      && (c.flow == IDLE_FLOW || c.flow in history)
      && c.flow.revision <= history[|history| - 1].revision
      && (Awaiting(c) && |sent| > 0 && sent[|sent| - 1].at < |history| ==>
            c.flow.revision <= history[sent[|sent| - 1].at].revision)
  }

  // A read that could still be taken was asked for after the last command left the client's hands.
  ghost predicate Current(s: System) {
    match s
    case System(c, history, _, poll, _, sent, _) =>
      && c.polling == !poll.NoPoll?
      && (poll.Reading? ==>
        && poll.at < |history| && poll.sequence <= c.sequence
        && (poll.sequence == c.sequence ==> !Awaiting(c) && (|sent| > 0 ==> sent[|sent| - 1].at <= poll.at)))
  }

  // Nothing the client is waiting to learn is left without a poll.
  ghost predicate Watched(s: System) {
    match s
    case System(c, _, _, _, _, _, _) =>
      && (Unsettled(c) ==> c.polling || c.timer)
      && (PollActive(c.flow.phase) ==> c.polling || c.timer || Awaiting(c))
  }

  ghost predicate Inv(s: System) {
    match s
    case System(_, _, _, _, _, _, _) => Agrees(s) && Behind(s) && Current(s) && Watched(s) && AllJustified(s)
  }

  // `u` is the client after it began a command, or did not.
  ghost predicate BeginsAtMost(c: Client, u: Client) {
    match c
    case Client(_, _, _, _, _, _) =>
      && u == c.(request := u.request, sequence := u.sequence, autoApply := u.autoApply)
      && (if u.sequence == c.sequence then u.request == c.request
          else c.request.None? && Awaiting(u) && u.sequence == c.sequence + 1)
  }

  lemma StartDownloadBegins(c: Client, version: string)
    ensures BeginsAtMost(c, StartDownload(c, version))
  {
  }

  lemma ApplyBegins(c: Client, blocked: bool)
    ensures BeginsAtMost(c, ApplyAndRestart(c, blocked))
  {
  }

  lemma DownloadAndInstallBegins(c: Client, version: string, blocked: bool)
    ensures BeginsAtMost(c, DownloadAndInstall(c, version, blocked))
  {
  }

  lemma ServerKeeps(s: System, flow: Flow)
    requires Inv(s)
    ensures Inv(Step(s, ServerMoves(flow)))
  {
  }

  lemma BecomeAgrees(s: System, u: Client)
    requires Inv(s) && BeginsAtMost(s.client, u)
    ensures Agrees(Become(s, u)) && AllJustified(Become(s, u))
  {
  }

  lemma BecomeIsBehind(s: System, u: Client)
    requires Inv(s) && BeginsAtMost(s.client, u)
    ensures Behind(Become(s, u))
  {
  }

  lemma BecomeIsWatched(s: System, u: Client)
    requires Inv(s) && BeginsAtMost(s.client, u)
    ensures Current(Become(s, u)) && Watched(Become(s, u))
  {
  }

  lemma BecomeKeeps(s: System, u: Client)
    requires Inv(s) && BeginsAtMost(s.client, u)
    ensures Inv(Become(s, u))
  {
    BecomeAgrees(s, u);
    BecomeIsBehind(s, u);
    BecomeIsWatched(s, u);
  }

  // `u` is the client after its command failed: the command stays, a poll is under way.
  ghost predicate Recovers(c: Client, u: Client) {
    match c
    case Client(_, _, _, _, _, _) =>
      && c.request.Some? && u == c.(request := u.request, autoApply := u.autoApply, polling := true)
      && u.request.Some? && u.request.value.command == c.request.value.command && !Awaiting(u)
  }

  lemma RecoverShape(c: Client, returned: bool)
    requires c.request.Some?
    ensures Recovers(c, Recover(c, returned))
  {
  }

  // The poll a client that polls has, if `s` had none.
  function Polling(s: System): Poll {
    if s.client.polling then s.poll else Reading(s.client.sequence, if s.history == [] then 0 else |s.history| - 1)
  }

  lemma FailShape(s: System, i: nat, u: Client)
    requires Inv(s) && i < |s.posts| && Recovers(s.client, u)
    ensures BecomePolling(Arrived(s, i), u) == s.(client := u, posts := [], poll := Polling(s))
  {
  }

  lemma FailedAgrees(s: System, u: Client)
    requires Inv(s) && Recovers(s.client, u)
    ensures var v := s.(client := u, posts := [], poll := Polling(s)); Agrees(v) && AllJustified(v)
  {
  }

  lemma FailedIsWatched(s: System, u: Client)
    requires Inv(s) && Recovers(s.client, u)
    ensures var v := s.(client := u, posts := [], poll := Polling(s)); Behind(v) && Current(v) && Watched(v)
  {
  }

  lemma PostFailsKeeps(s: System, i: nat, returned: bool)
    requires Inv(s)
    ensures Inv(Step(s, PostFails(i, returned)))
  {
    if i < |s.posts| {
      var u := Recover(s.client, returned);
      RecoverShape(s.client, returned);
      FailShape(s, i, u);
      FailedAgrees(s, u);
      FailedIsWatched(s, u);
    }
  }

  lemma TimerShape(s: System)
    requires s.client.timer
    ensures Step(s, TimerElapses)
         == if MayPoll(s.client) then s.(client := s.client.(timer := false, polling := true), poll := Polling(s))
            else s.(client := s.client.(timer := false))
  {
  }

  lemma TimerKeeps(s: System)
    requires Inv(s)
    ensures Inv(Step(s, TimerElapses))
  {
    if s.client.timer {
      TimerShape(s);
    }
  }

  lemma EndKeeps(s: System)
    requires Inv(s)
    ensures Inv(s.(poll := NoPoll, client := EndPoll(s.client)))
  {
  }

  lemma SnapshotAsksKeeps(s: System)
    requires Inv(s)
    ensures Inv(Step(s, SnapshotAsks))
  {
  }

  lemma SnapshotShape(c: Client, next: Flow)
    ensures var u := TakeSnapshot(c, next); u == c.(flow := next, autoApply := u.autoApply, timer := u.timer)
    ensures PollActive(next.phase) || c.timer ==> TakeSnapshot(c, next).timer
  {
  }

  lemma SnapshotKeeps(s: System, at: nat, u: Client)
    requires Inv(s) && s.client.request.None? && at < |s.history| && s.history[at].revision >= s.client.flow.revision
    requires u == s.client.(flow := s.history[at], autoApply := u.autoApply, timer := u.timer)
    requires PollActive(u.flow.phase) || s.client.timer ==> u.timer
    ensures Inv(s.(client := u))
  {
  }

  lemma SnapshotStepKeeps(s: System, i: nat, at: nat, checking: bool)
    requires Inv(s)
    ensures Inv(SnapshotStep(s, i, at, checking))
  {
    if SnapshotStep(s, i, at, checking) != s {
      SnapshotShape(s.client, s.history[at]);
      SnapshotKeeps(s, at, TakeSnapshot(s.client, s.history[at]));
    }
  }

  // The slot is cleared and the flow taken, before a ready flow starts its own installation.
  function Taken(s: System, at: nat, u: Client): System {
    s.(client := u, posts := [], settled := s.settled + [Answered(at)])
  }

  lemma AnsweredShape(s: System, i: nat, at: nat, u: Client)
    requires Inv(s) && i < |s.posts|
    ensures Settle(Arrived(s, i), Answered(at)).(client := u) == Taken(s, at, u)
  {
    assert Arrived(s, i) == s.(posts := []);
  }

  // `u` is the client whose command was answered by the server's flow at `at`.
  ghost predicate TakesAnswer(s: System, at: nat, u: Client) {
    match s
    case System(c, history, _, _, _, sent, _) =>
      && Awaiting(c) && |sent| > 0 && sent[|sent| - 1].at <= at < |history|
      && u == c.(request := None, flow := history[at], autoApply := u.autoApply, timer := u.timer)
      && (PollActive(u.flow.phase) || c.timer ==> u.timer)
  }

  lemma TakenAgrees(s: System, at: nat, u: Client)
    requires Inv(s) && TakesAnswer(s, at, u)
    ensures Agrees(Taken(s, at, u)) && AllJustified(Taken(s, at, u))
  {
  }

  lemma TakenIsWatched(s: System, at: nat, u: Client)
    requires Inv(s) && TakesAnswer(s, at, u)
    ensures Behind(Taken(s, at, u)) && Current(Taken(s, at, u)) && Watched(Taken(s, at, u))
  {
  }

  lemma TakenKeeps(s: System, at: nat, u: Client)
    requires Inv(s) && TakesAnswer(s, at, u)
    ensures Inv(Taken(s, at, u))
  {
    TakenAgrees(s, at, u);
    TakenIsWatched(s, at, u);
  }

  // What is in flight is the last command posted.
  lemma OneInFlight(s: System, i: nat)
    requires Inv(s) && i < |s.posts|
    ensures |s.sent| > 0 && s.posts[i] == |s.sent| - 1 && Awaiting(s.client)
  {
  }

  // The client of an answer that has been taken, before a ready flow starts its own installation.
  function Cleared(c: Client, kind: Kind, next: Flow, blocked: bool): Client {
    c.(request := None, flow := next, timer := Answer(c, kind, next, blocked).timer,
       autoApply := c.autoApply && !next.phase.Failed?)
  }

  lemma AnswerShape(c: Client, kind: Kind, next: Flow, blocked: bool)
    ensures BeginsAtMost(Cleared(c, kind, next, blocked), Answer(c, kind, next, blocked))
    ensures PollActive(next.phase) || c.timer ==> Cleared(c, kind, next, blocked).timer
  {
  }

  // What becomes of the client does not depend on the flow it showed before.
  lemma BecomeIgnores(s: System, v: Client, u: Client)
    requires v.sequence == s.client.sequence
    ensures Become(s.(client := v), u) == Become(s, u)
  {
  }

  lemma AnsweringKeeps(s: System, i: nat, at: nat, blocked: bool, kind: Kind)
    requires Inv(s) && i < |s.posts| && Delivers(s, s.sent[s.posts[i]].at, at)
    ensures Inv(Become(Settle(Arrived(s, i), Answered(at)), Answer(s.client, kind, s.history[at], blocked)))
  {
    var v, u := Cleared(s.client, kind, s.history[at], blocked), Answer(s.client, kind, s.history[at], blocked);
    AnswerShape(s.client, kind, s.history[at], blocked);
    OneInFlight(s, i);
    TakenKeeps(s, at, v);
    AnsweredShape(s, i, at, v);
    BecomeKeeps(Taken(s, at, v), u);
    BecomeIgnores(Settle(Arrived(s, i), Answered(at)), v, u);
  }

  lemma PostKeeps(s: System, i: nat, at: nat, blocked: bool)
    requires Inv(s)
    ensures Inv(PostStep(s, i, at, blocked))
  {
    if i < |s.posts| && Delivers(s, s.sent[s.posts[i]].at, at) {
      AnsweringKeeps(s, i, at, blocked, s.sent[s.posts[i]].command.kind);
    }
  }

  lemma ReadKeeps(s: System, at: nat, response: Response, u: Client)
    requires Inv(s) && s.poll.Reading? && Delivers(s, s.poll.at, at) && Takes(s.client, s.poll.sequence, s.history[at])
    requires s.client.request.Some? ==> response == s.client.request.value.response
    requires u == s.client.(request := None, flow := s.history[at], autoApply := u.autoApply)
    ensures Inv(Settle(s.(poll := Restarting), Observed(at, response)).(client := u))
  {
  }

  // The client of a read that has been taken, before a ready flow starts its own installation.
  function Learnt(c: Client, next: Flow): Client {
    c.(request := None, flow := next, autoApply := c.autoApply && !next.phase.Idle? && !next.phase.Failed?)
  }

  lemma TakeShape(c: Client, next: Flow, blocked: bool)
    ensures BeginsAtMost(Learnt(c, next), TakeRead(c, next, blocked))
  {
  }

  lemma TakingKeeps(s: System, at: nat, blocked: bool, response: Response)
    requires Inv(s) && s.poll.Reading? && Delivers(s, s.poll.at, at) && Takes(s.client, s.poll.sequence, s.history[at])
    requires s.client.request.Some? ==> response == s.client.request.value.response
    ensures Inv(Become(Settle(s.(poll := Restarting), Observed(at, response)),
                       TakeRead(s.client, s.history[at], blocked)))
  {
    var v := Learnt(s.client, s.history[at]);
    TakeShape(s.client, s.history[at], blocked);
    ReadKeeps(s, at, response, v);
    BecomeKeeps(Settle(s.(poll := Restarting), Observed(at, response)).(client := v),
                TakeRead(s.client, s.history[at], blocked));
    BecomeIgnores(Settle(s.(poll := Restarting), Observed(at, response)), v,
                  TakeRead(s.client, s.history[at], blocked));
  }

  lemma PollKeeps(s: System, at: nat, blocked: bool)
    requires Inv(s)
    ensures Inv(PollStep(s, at, blocked))
  {
    if s.poll.Reading? && Delivers(s, s.poll.at, at) {
      if Takes(s.client, s.poll.sequence, s.history[at]) {
        TakingKeeps(s, at, blocked, if s.client.request.Some? then s.client.request.value.response else Pending);
      } else {
        EndKeeps(s);
      }
    }
  }

  ghost predicate Handles(a: Action) {
    a.Downloads? || a.DownloadsAndInstalls? || a.Applies?
  }

  // What the page's own handlers do.
  lemma HandlersKeep(s: System, a: Action)
    requires Inv(s) && Handles(a)
    ensures Inv(Step(s, a))
  {
    match a
    case Downloads(version) =>
      StartDownloadBegins(s.client, version);
      BecomeKeeps(s, StartDownload(s.client, version));
    case DownloadsAndInstalls(version, blocked) =>
      DownloadAndInstallBegins(s.client, version, blocked);
      BecomeKeeps(s, DownloadAndInstall(s.client, version, blocked));
    case Applies(blocked) =>
      ApplyBegins(s.client, blocked);
      BecomeKeeps(s, ApplyAndRestart(s.client, blocked));
  }

  lemma EndingKeeps(s: System, a: Action)
    requires Inv(s) && (a.PollFails? || a.PollEnds?)
    ensures Inv(Step(s, a))
  {
    EndKeeps(s);
  }

  lemma StepKeepsInv(s: System, a: Action)
    requires Inv(s)
    ensures Inv(Step(s, a))
  {
    match a
    case ServerMoves(flow) => ServerKeeps(s, flow);
    case Downloads(_) => HandlersKeep(s, a);
    case DownloadsAndInstalls(_, _) => HandlersKeep(s, a);
    case Applies(_) => HandlersKeep(s, a);
    case PostAnswers(i, at, blocked) => PostKeeps(s, i, at, blocked);
    case PostFails(i, returned) => PostFailsKeeps(s, i, returned);
    case TimerElapses => TimerKeeps(s);
    case PollAnswers(at, blocked) => PollKeeps(s, at, blocked);
    case PollFails => EndingKeeps(s, a);
    case PollEnds => EndingKeeps(s, a);
    case SnapshotAsks => SnapshotAsksKeeps(s);
    case SnapshotAnswers(i, at, checking) => SnapshotStepKeeps(s, i, at, checking);
  }

  lemma {:induction false} RunKeepsInv(first: Flow, actions: seq<Action>)
    ensures Inv(Run(Start(first), actions))
  {
    if actions != [] {
      RunKeepsInv(first, actions[..|actions| - 1]);
      StepKeepsInv(Run(Start(first), actions[..|actions| - 1]), Latest(actions));
    }
  }

  // Some run leads from `s` to `u`.
  ghost predicate Leads(s: System, u: System) {
    exists actions :: u == Run(s, actions)
  }

  ghost predicate Reachable(s: System) {
    exists first :: Leads(Start(first), s)
  }

  lemma ReachableHasInv(s: System)
    requires Reachable(s)
    ensures Inv(s)
  {
    var first :| Leads(Start(first), s);
    var actions :| s == Run(Start(first), actions);
    RunKeepsInv(first, actions);
  }
}
