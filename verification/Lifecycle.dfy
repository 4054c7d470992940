/**
 The terminal owner as the program has it: one object whose methods are the blocks that hold the
 terminal lock. Every method is proved against the function of `Terminal` that the runs interleave.
 Facts owned elsewhere (idle tasks, the server's own report) are arguments.
 */
module Lifecycle {
  import opened Basics
  import opened RequestIds
  import opened Terminal
  import TerminalAnswers

  // The one answer that a caller's case calls for.
  ghost predicate Told(t: TerminalState, wanted: Intent, next: nat, entry: Entry) {
    match t
    case TerminalState(intent, active, prepared, _, _, _, _, _, _) =>
      var late, handed := TerminalAnswers.TooLate(t, wanted), TerminalAnswers.GivesWay(t, wanted);
      var mine := intent == None || intent == Some(wanted);
      && (entry == Refused(Incomplete) <==> late)
      && (entry == Refused(Conflict) <==> !late && !mine && !handed)
      && (entry == Ready <==> !late && mine && prepared)
      && (forall k: nat :: entry == Join(k) <==> !late && mine && !prepared && active == Some(k))
      && (forall k: nat :: entry == Spawn(k) <==>
            !late && k == next && (handed || (mine && !prepared && active.None?)))
  }

  // The state that goes with the answer.
  ghost predicate Left(t: TerminalState, wanted: Intent, next: nat, entry: Entry, u: TerminalState) {
    match entry
    case Refused(_) => u == t
    case Ready => u == t.(intent := Some(wanted))
    case Join(_) => u == t.(intent := Some(wanted))
    case Spawn(_) => u == t.(intent := Some(wanted), active := Some(next), prepared := false)
  }

  lemma EnterTells(t: TerminalState, wanted: Intent, next: nat)
    ensures Told(t, wanted, next, Enter(t, wanted, next).1)
  {
  }

  lemma EnterLeaves(t: TerminalState, wanted: Intent, next: nat)
    ensures Left(t, wanted, next, Enter(t, wanted, next).1, Enter(t, wanted, next).0)
  {
  }

  class DesktopLifecycle {
    var intent: Option<Intent>
    var active: Option<nat>
    var prepared: bool
    var admitted: bool
    var updateSettled: bool
    var loopEnded: bool
    var loopSettled: bool
    var sequence: nat
    var preferences: Option<PreferenceRequest>
    var published: Option<PreferenceEvent>
    var services: bool
    var admissionClosed: bool
    var exitAllowed: bool
    var attempts: nat

    ghost function State(): TerminalState
      reads this
    {
      TerminalState(intent, active, prepared, admitted, updateSettled, loopEnded, loopSettled, sequence, preferences)
    }

    constructor ()
      ensures State() == INITIAL && published == None && services && !admissionClosed && !exitAllowed && attempts == 0
    {
      intent, active, preferences, published := None, None, None, None;
      prepared, admitted, updateSettled, loopEnded, loopSettled := false, false, false, false, false;
      sequence, attempts := 0, 0;
      services, admissionClosed, exitAllowed := true, false, false;
    }

    // The two handoffs at the head of `prepare_exit`.
    method HandOver(wanted: Intent)
      modifies this`intent, this`prepared
      ensures State() == HandOff(old(State()), wanted)
    {
      if intent == Some(Update) && (wanted == Close || wanted == Restart) && updateSettled && active.None? {
        intent := Some(wanted);
        prepared := false;
      }
      if wanted == Close && (intent == Some(Reset) || intent == Some(Update)) && admitted && !prepared && active.None? {
        intent := Some(Close);
      }
    }

    // The locked part of `prepare_exit`; `Spawn` starts a detached worker for a fresh attempt.
    method PrepareExit(wanted: Intent) returns (entry: Entry)
      modifies this`intent, this`prepared, this`active, this`attempts
      ensures (State(), entry) == Enter(old(State()), wanted, old(attempts))
      ensures attempts == old(attempts) + (if entry.Spawn? then 1 else 0)
      ensures Told(old(State()), wanted, old(attempts), entry)
      ensures Left(old(State()), wanted, old(attempts), entry, State())
    {
      EnterTells(State(), wanted, attempts);
      EnterLeaves(State(), wanted, attempts);
      if loopEnded && (!admitted || intent != Some(wanted)) {
        return Refused(Incomplete);
      }
      HandOver(wanted);
      entry := ReserveAttempt(wanted);
    }

    // Its tail: the stored intent decides, and a free shell gets a fresh attempt.
    method ReserveAttempt(wanted: Intent) returns (entry: Entry)
      modifies this`intent, this`active, this`attempts
      ensures (State(), entry) == Reserve(old(State()), wanted, old(attempts))
      ensures attempts == old(attempts) + (if entry.Spawn? then 1 else 0)
    {
      match intent {
        case Some(held) =>
          if held != wanted {
            return Refused(Conflict);
          }
        case None =>
          intent := Some(wanted);
      }
      if prepared {
        return Ready;
      }
      if active.Some? {
        return Join(active.value);
      }
      entry := Spawn(attempts);
      active := Some(attempts);
      attempts := attempts + 1;
    }

    // The locked part of `prepare_interface_preferences`.
    method AnnouncePreferences(wanted: Intent) returns (event: Option<PreferenceEvent>)
      modifies this`sequence, this`preferences, this`published
      ensures var minted := Announce(old(State()), wanted);
        && event.Some? == minted.Some?
        && State() == (if minted.Some? then minted.value else old(State()))
        && (event.Some? ==> preferences == Some(PreferenceRequest(event.value, None)))
        && published == (if event.Some? then event else old(published))
      ensures event.Some? <==> !loopEnded && old(sequence) < 0xFFFF_FFFF_FFFF_FFFF
      ensures event.Some? ==>
                event.value == PreferenceEvent(old(sequence) + 1, if wanted == Reset then Discard else Flush)
      ensures sequence == old(sequence) + (if event.Some? then 1 else 0)
      ensures event.None? ==> preferences == old(preferences)
    {
      if loopEnded || sequence >= MAX_SEQUENCE {
        return None;
      }
      sequence := sequence + 1;
      var minted := PreferenceEvent(sequence, if wanted == Reset then Discard else Flush);
      preferences := Some(PreferenceRequest(minted, None));
      published := Some(minted);
      event := Some(minted);
    }

    // One pass of the loop that waits for the acknowledgement.
    method ObserveAnswer(request: nat) returns (seen: Observation)
      ensures seen == Observe(State(), request)
      ensures seen == Terminal.Saved <==>
              !loopEnded && preferences.Some? && preferences.value.event.request == request
              && preferences.value.answer == Some(true)
      ensures seen == Waiting <==>
              !loopEnded && preferences.Some? && preferences.value.event.request == request
              && preferences.value.answer == None
    {
      if loopEnded {
        return GaveUp;
      }
      match preferences {
        case None => return GaveUp;
        case Some(stored) =>
          if stored.event.request != request {
            return GaveUp;
          }
          match stored.answer {
            case Some(true) => return Terminal.Saved;
            case Some(false) => return GaveUp;
            case None => return Waiting;
          }
      }
    }

    method CompleteInterfacePreferences(id: string, saved: bool) returns (result: Result<(), Refusal>)
      modifies this`preferences
      ensures State() == Acknowledge(old(State()), id, saved)
      ensures result.Ok? <==> Accepts(old(State()), id)
      ensures result.Err? ==> result.error == InvalidAcknowledgement && preferences == old(preferences)
      ensures result.Ok? <==>
              && 0 < |id| <= 32 && !loopEnded && !admitted && active.Some? && old(preferences).Some?
              && RequestId(old(preferences).value.event.request) == id
              && old(preferences).value.event.phase != Release && old(preferences).value.answer == None
      ensures result.Ok? ==> preferences == Some(PreferenceRequest(old(preferences).value.event, Some(saved)))
    {
      if |id| == 0 || |id| > ID_LIMIT {
        return Err(InvalidAcknowledgement);
      }
      if loopEnded || admitted || active.None? || preferences.None? {
        return Err(InvalidAcknowledgement);
      }
      var request := preferences.value;
      if RequestId(request.event.request) != id || request.event.phase == Release || request.answer.Some? {
        return Err(InvalidAcknowledgement);
      }
      preferences := Some(request.(answer := Some(saved)));
      return Ok(());
    }

    // The block that admits: reset closes task admission outright, the others only when idle.
    method AdmitAttempt(wanted: Intent, idle: bool) returns (ok: bool)
      modifies this`admitted, this`preferences, this`admissionClosed
      ensures ok <==> MayAdmit(old(State()), wanted, idle)
      ensures State() == (if ok then Admit(old(State())) else old(State()))
      ensures admissionClosed == (old(admissionClosed) || ok)
      ensures ok <==> !loopEnded && intent == Some(wanted) && (wanted == Reset || idle)
      ensures ok ==> admitted && preferences == None
      ensures !ok ==> admitted == old(admitted) && preferences == old(preferences)
    {
      if loopEnded || intent != Some(wanted) {
        return false;
      }
      if wanted != Reset && !idle {
        return false;
      }
      admissionClosed := true;
      admitted := true;
      preferences := None;
      return true;
    }

    method FinishAttempt(attempt: nat, ok: bool)
      modifies this`active, this`prepared, this`intent, this`updateSettled, this`preferences, this`published
      ensures State() == Finish(old(State()), attempt, ok)
      ensures published ==
              (if old(active) == Some(attempt) && !admitted && preferences.Some? then Some(preferences.value.event)
               else old(published))
      ensures old(active) == Some(attempt) ==> active == None && prepared == ok
      ensures old(active) == Some(attempt) && !admitted ==>
                && intent == None && !updateSettled && preferences.Some? == old(preferences).Some?
                && (preferences.Some? ==>
                      preferences.value ==
                      PreferenceRequest(PreferenceEvent(old(preferences).value.event.request, Release), None))
      ensures old(active) == Some(attempt) && admitted ==>
                intent == old(intent) && updateSettled == old(updateSettled) && preferences == old(preferences)
      ensures old(active) != Some(attempt) ==> State() == old(State())
    {
      if active == Some(attempt) {
        active := None;
        prepared := ok;
        if !admitted {
          intent := None;
          updateSettled := false;
          if preferences.Some? {
            var lifted := preferences.value.event.(phase := Release);
            preferences := Some(PreferenceRequest(lifted, None));
            published := Some(lifted);
          }
        }
      }
    }

    method FinishUpdateSettled() returns (result: Result<(), Refusal>)
      modifies this`updateSettled
      ensures State() == FinishUpdate(old(State()))
      ensures result.Ok? <==> MayFinishUpdate(old(State()))
      ensures result.Ok? <==> intent == Some(Update) && prepared
      ensures updateSettled == (old(updateSettled) || result.Ok?)
    {
      if intent != Some(Update) || !prepared {
        return Err(NotInstalling);
      }
      updateSettled := true;
      return Ok(());
    }

    // The first lock of `shutdown_after_event_loop`; released services mean it has already completed.
    method EndEventLoop() returns (proceed: bool)
      modifies this`loopEnded
      ensures proceed == services
      ensures State() == (if services then old(State()).(loopEnded := true) else old(State()))
    {
      if !services {
        return false;
      }
      loopEnded := true;
      return true;
    }

    // One pass of the fence before effects that an installer may still own.
    method FenceOpen() returns (open: bool)
      ensures open <==> !Installing(State())
      ensures open <==> !(admitted && intent == Some(Update) && !updateSettled && (prepared || active.Some?))
    {
      var installing := admitted && intent == Some(Update) && !updateSettled && (prepared || active.Some?);
      return !installing;
    }

    method ReleaseServices(joined: bool, serverSettled: bool) returns (ok: bool)
      modifies this`services
      ensures ok <==> MayRelease(State(), joined, serverSettled, !old(services))
      ensures services == (old(services) && !ok)
      ensures ok <==>
              && loopSettled && active == None && joined && (!old(services) || serverSettled)
              && !(admitted && intent == Some(Update) && !updateSettled)
    {
      if !loopSettled || active.Some? || (admitted && intent == Some(Update) && !updateSettled) || !joined {
        return false;
      }
      if services && !serverSettled {
        return false;
      }
      services := false;
      return true;
    }

    method RestartAfterExit() returns (restart: bool)
      ensures restart <==> RestartReady(State(), exitAllowed)
      ensures restart <==>
              exitAllowed && loopEnded && admitted && prepared && active == None && intent == Some(Restart)
    {
      return exitAllowed && loopEnded && admitted && prepared && active.None? && intent == Some(Restart);
    }
  }
}
