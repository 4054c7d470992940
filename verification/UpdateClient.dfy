/**
 The update command client: what each handler does to the module's variables, from one await to the
 next. `blocked` is whether downloads or launches keep the application from restarting.
 */
module UpdateClient {
  import opened Basics

  datatype Phase = Idle | Downloading | Ready | Applying | RestartPending | Failed

  datatype Flow = Flow(revision: nat, phase: Phase, version: string, canRestart: bool)

  const IDLE_FLOW: Flow := Flow(0, Idle, "", false)

  datatype Kind = Download | Apply

  datatype Response = Pending | Unknown | Returned

  datatype Command = Command(kind: Kind, version: string, revision: nat)

  datatype Request = Request(command: Command, response: Response)

  // `polling` is flowPollPending; `timer` is whether flowPollTimer is set.
  datatype Client = Client(
    flow: Flow, request: Option<Request>, sequence: nat, autoApply: bool, polling: bool, timer: bool)

  const FRESH: Client := Client(IDLE_FLOW, None, 0, false, false, false)

  predicate PollActive(phase: Phase) {
    phase.Downloading? || phase.Applying?
  }

  predicate NeedsPolling(c: Client) {
    PollActive(c.flow.phase) || (c.flow.phase.Ready? && c.autoApply)
  }

  predicate Awaiting(c: Client) {
    c.request.Some? && c.request.value.response.Pending?
  }

  predicate Unsettled(c: Client) {
    c.request.Some? && !c.request.value.response.Pending?
  }

  // ---------------------------------------------------------------- sending

  predicate MayBegin(c: Client) {
    c.request.None? && !c.flow.canRestart
  }

  function Begin(c: Client, kind: Kind, version: string): Client {
    c.(request := Some(Request(Command(kind, version, c.flow.revision), Pending)), sequence := c.sequence + 1)
  }

  function StartDownload(c: Client, version: string): Client {
    if PollActive(c.flow.phase) || !MayBegin(c) then c else Begin(c, Download, version)
  }

  function ApplyAndRestart(c: Client, blocked: bool): Client {
    if !c.flow.phase.Ready? || blocked || !MayBegin(c) then c
    else Begin(c, Apply, c.flow.version).(autoApply := false)
  }

  function DownloadAndInstall(c: Client, version: string, blocked: bool): Client {
    if c.flow.phase.Ready? then ApplyAndRestart(c, blocked) else StartDownload(c.(autoApply := true), version)
  }

  // ---------------------------------------------------------------- taking a flow

  // A flow that is ready may start its own installation before the setter returns.
  function SetFlow(c: Client, next: Flow, applyOnReady: bool, blocked: bool): Client {
    var u := c.(flow := next, autoApply := c.autoApply && !next.phase.Failed?);
    if next.phase.Ready? && u.autoApply && applyOnReady && !blocked then ApplyAndRestart(u, blocked) else u
  }

  // The answer to the command in flight: a download schedules a poll while one is needed, an
  // installation only while the flow itself is moving.
  function Answer(c: Client, kind: Kind, next: Flow, blocked: bool): Client {
    var u := SetFlow(c.(request := None), next, true, blocked);
    if (if kind.Download? then NeedsPolling(u) else PollActive(u.flow.phase)) then u.(timer := true) else u
  }

  // The command failed, with the server's own refusal or without a usable answer; a poll starts at once
  // unless one is under way.
  function Recover(c: Client, returned: bool): Client {
    if c.request.None? then c
    else
      StartPoll(c.(
        request := Some(c.request.value.(response := if returned then Returned else Unknown)),
        autoApply := c.autoApply && !returned))
  }

  // ---------------------------------------------------------------- polling

  predicate MayPoll(c: Client) {
    !c.polling && !Awaiting(c)
  }

  function StartPoll(c: Client): Client {
    if MayPoll(c) then c.(polling := true) else c
  }

  function TimerFires(c: Client): Client {
    StartPoll(c.(timer := false))
  }

  // A flow that shows the server acted on the command after the client last knew it.
  predicate Shows(command: Command, next: Flow) {
    && next.version == command.version && next.revision > command.revision
    && (command.kind.Download? ==> !next.phase.Idle?)
    && (command.kind.Apply? ==> next.phase.Applying? || next.canRestart)
  }

  // Whether a read begun at `sequence` may be taken.
  predicate Takes(c: Client, sequence: nat, next: Flow) {
    && sequence == c.sequence && next.revision >= c.flow.revision
    && (c.request.Some? && c.request.value.response.Unknown? ==> Shows(c.request.value.command, next))
  }

  // A read that is taken settles whatever was unsettled; the poll ends only after the restart it may ask for.
  function TakeRead(c: Client, next: Flow, blocked: bool): Client {
    SetFlow(c.(request := None, autoApply := c.autoApply && !next.phase.Idle?), next, true, blocked)
  }

  function EndPoll(c: Client): Client {
    c.(polling := false, timer := c.timer || Unsettled(c) || NeedsPolling(c))
  }

  // ---------------------------------------------------------------- the automatic check

  predicate MayCheck(c: Client) {
    c.request.None? && !PollActive(c.flow.phase)
  }

  predicate TakesSnapshot(c: Client, sequence: nat, revision: nat, next: Flow) {
    sequence == c.sequence && revision == c.flow.revision && next.revision >= revision && c.request.None?
  }

  function TakeSnapshot(c: Client, next: Flow): Client {
    var u := SetFlow(c, next, false, false);
    if PollActive(next.phase) then u.(timer := true) else u
  }
}
