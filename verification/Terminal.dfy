/**
 The desktop's terminal state and the blocks of code that hold its lock, each as one function from
 the state before to the state after. `DesktopLifecycle` proves its methods against these functions;
 `TerminalRuns` interleaves them with the attempt workers and proves what every run keeps.
 */
module Terminal {
  import opened Basics
  import opened RequestIds

  datatype Intent = Close | Restart | Reset | Update

  datatype Phase = Flush | Discard | Release

  datatype PreferenceEvent = PreferenceEvent(request: nat, phase: Phase)

  datatype PreferenceRequest = PreferenceRequest(event: PreferenceEvent, answer: Option<bool>)

  datatype TerminalState = TerminalState(
    intent: Option<Intent>,
    active: Option<nat>,
    prepared: bool,
    admitted: bool,
    updateSettled: bool,
    loopEnded: bool,
    loopSettled: bool,
    sequence: nat,
    preferences: Option<PreferenceRequest>)

  const INITIAL := TerminalState(None, None, false, false, false, false, false, 0, None)

  datatype Refusal = Incomplete | Conflict | InvalidAcknowledgement | NotInstalling

  // What one `prepare_exit` caller learns while it holds the lock.
  datatype Entry = Refused(why: Refusal) | Ready | Join(attempt: nat) | Spawn(attempt: nat)

  // A settled update may become a close or a restart; an unprepared reset or update may become a close.
  function HandOff(t: TerminalState, intent: Intent): TerminalState {
    var settled :=
      t.intent == Some(Update) && (intent == Close || intent == Restart) && t.updateSettled && t.active.None?;
    var u := if settled then t.(intent := Some(intent), prepared := false) else t;
    if intent == Close && (u.intent == Some(Reset) || u.intent == Some(Update))
       && u.admitted && !u.prepared && u.active.None?
    then u.(intent := Some(Close))
    else u
  }

  // After the loop has ended only a caller of the admitted intent may still come in.
  predicate TurnedAway(t: TerminalState, intent: Intent) {
    t.loopEnded && (!t.admitted || t.intent != Some(intent))
  }

  // After the handoff, the caller's intent either conflicts with the stored one or is it.
  predicate Takes(h: TerminalState, intent: Intent) {
    h.intent == None || h.intent == Some(intent)
  }

  function Reserve(h: TerminalState, intent: Intent, next: nat): (TerminalState, Entry) {
    if !Takes(h, intent) then (h, Refused(Conflict))
    else
      var u := h.(intent := Some(intent));
      if u.prepared then (u, Ready)
      else if u.active.Some? then (u, Join(u.active.value))
      else (u.(active := Some(next)), Spawn(next))
  }

  function Enter(t: TerminalState, intent: Intent, next: nat): (TerminalState, Entry) {
    if TurnedAway(t, intent) then (t, Refused(Incomplete)) else Reserve(HandOff(t, intent), intent, next)
  }

  function PhaseFor(intent: Intent): Phase {
    if intent == Reset then Discard else Flush
  }

  // Mints and stores the next preference request; None when the worker must give up.
  function Announce(t: TerminalState, intent: Intent): Option<TerminalState> {
    if t.loopEnded || t.sequence >= MAX_SEQUENCE then None
    else
      var event := PreferenceEvent(t.sequence + 1, PhaseFor(intent));
      Some(t.(sequence := t.sequence + 1, preferences := Some(PreferenceRequest(event, None))))
  }

  datatype Observation = Waiting | Saved | GaveUp

  // One pass of the wait loop around the acknowledgement.
  function Observe(t: TerminalState, request: nat): Observation {
    if t.loopEnded || t.preferences.None? || t.preferences.value.event.request != request then GaveUp
    else match t.preferences.value.answer
      case None => Waiting
      case Some(true) => Saved
      case Some(false) => GaveUp
  }

  predicate Accepts(t: TerminalState, id: string) {
    && 0 < |id| <= ID_LIMIT
    && !t.loopEnded && !t.admitted && t.active.Some?
    && t.preferences.Some?
    && RequestId(t.preferences.value.event.request) == id
    && t.preferences.value.event.phase != Release
    && t.preferences.value.answer.None?
  }

  function Acknowledge(t: TerminalState, id: string, saved: bool): TerminalState {
    if Accepts(t, id) then t.(preferences := Some(t.preferences.value.(answer := Some(saved)))) else t
  }

  // Reset cancels accepted work; every other intent needs the task owner to be idle.
  predicate MayAdmit(t: TerminalState, intent: Intent, idle: bool) {
    !t.loopEnded && t.intent == Some(intent) && (intent == Reset || idle)
  }

  function Admit(t: TerminalState): TerminalState {
    t.(admitted := true, preferences := None)
  }

  function Released(request: PreferenceRequest): PreferenceRequest {
    PreferenceRequest(request.event.(phase := Release), None)
  }

  function Finish(t: TerminalState, attempt: nat, ok: bool): TerminalState {
    if t.active != Some(attempt) then t
    else
      var u := t.(active := None, prepared := ok);
      if u.admitted then u
      else
        var request := if u.preferences.Some? then Some(Released(u.preferences.value)) else None;
        u.(intent := None, updateSettled := false, preferences := request)
  }

  predicate MayFinishUpdate(t: TerminalState) {
    t.intent == Some(Update) && t.prepared
  }

  function FinishUpdate(t: TerminalState): TerminalState {
    if MayFinishUpdate(t) then t.(updateSettled := true) else t
  }

  // The installer may own effects; the process-exit fence of Windows checks this too.
  predicate UnderInstallation(t: TerminalState) {
    t.intent == Some(Update) && t.prepared && !t.updateSettled
  }

  // An admitted update whose installation has not been reported settled.
  predicate UnsettledUpdate(t: TerminalState) {
    t.admitted && t.intent == Some(Update) && !t.updateSettled
  }

  // The condition the fence before the installer's effects waits on.
  predicate Installing(t: TerminalState) {
    UnsettledUpdate(t) && (t.prepared || t.active.Some?)
  }

  // The guard of the final release, with the task receipt and the server's own report.
  predicate MayRelease(t: TerminalState, joined: bool, serverSettled: bool, released: bool) {
    && t.loopSettled && t.active.None?
    && !UnsettledUpdate(t)
    && joined && (released || serverSettled)
  }

  predicate RestartReady(t: TerminalState, exitAllowed: bool) {
    exitAllowed && t.loopEnded && t.admitted && t.prepared && t.active.None? && t.intent == Some(Restart)
  }
}
