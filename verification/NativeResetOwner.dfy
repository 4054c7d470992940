/**
 The reset owner and the retained deletion authority as objects. `NativeReset` is proved against the
 moves of `ResetHandoff`; `PendingReset` keeps exactly one owner of the root through failed clears.
 */
module NativeResetOwner {
  import opened Basics

  datatype ResetFlags = ResetFlags(
    pin: bool, requested: bool, transferred: bool, ingressClosed: bool, activeRequests: int)

  function Reserved(f: ResetFlags): ResetFlags {
    if f.ingressClosed then f else f.(activeRequests := f.activeRequests + 1)
  }

  predicate Passes(f: ResetFlags, allowed: bool, admitted: bool, markerMatches: bool) {
    !f.requested && allowed && (f.pin || admitted) && markerMatches
  }

  // The preflight keeps a pin it has taken even when the marker no longer matches.
  function Pinned(f: ResetFlags, allowed: bool, admitted: bool): ResetFlags {
    if f.requested || !allowed then f else f.(pin := f.pin || admitted)
  }

  function Marked(f: ResetFlags): ResetFlags {
    f.(requested := true)
  }

  function Dropped(f: ResetFlags): ResetFlags {
    f.(activeRequests := f.activeRequests - 1)
  }

  function Closed(f: ResetFlags): ResetFlags {
    f.(ingressClosed := true)
  }

  predicate MayTake(f: ResetFlags) {
    f.requested && !f.transferred && f.activeRequests == 0
  }

  function Taken(f: ResetFlags): ResetFlags {
    if MayTake(f) then f.(transferred := true, pin := false) else f
  }

  datatype Preflight = AlreadyRequested | Blocked | Passed

  class NativeReset {
    var pin: bool
    var requested: bool
    var transferred: bool
    var ingressClosed: bool
    var activeRequests: int

    ghost function Flags(): ResetFlags
      reads this
    {
      ResetFlags(pin, requested, transferred, ingressClosed, activeRequests)
    }

    constructor ()
      ensures Flags() == ResetFlags(false, false, false, false, 0)
    {
      pin, requested, transferred, ingressClosed, activeRequests := false, false, false, false, 0;
    }

    method RequestReset() returns (reserved: bool)
      modifies this`activeRequests
      ensures reserved <==> !ingressClosed
      ensures Flags() == Reserved(old(Flags()))
      ensures activeRequests == old(activeRequests) + (if reserved then 1 else 0)
    {
      if ingressClosed {
        return false;
      }
      activeRequests := activeRequests + 1;
      return true;
    }

    // The locked preflight of `prepare`: the pin is taken before anything irreversible and kept on failure.
    method CheckAndPin(allowed: bool, admitted: bool, markerMatches: bool) returns (outcome: Preflight)
      modifies this`pin
      ensures outcome == AlreadyRequested <==> requested
      ensures outcome == Passed <==> Passes(old(Flags()), allowed, admitted, markerMatches)
      ensures Flags() == Pinned(old(Flags()), allowed, admitted)
      ensures outcome == Passed <==> !requested && allowed && (old(pin) || admitted) && markerMatches
      ensures pin == (old(pin) || (!requested && allowed && admitted))
    {
      if requested {
        return AlreadyRequested;
      }
      if !allowed {
        return Blocked;
      }
      if !pin {
        if !admitted {
          return Blocked;
        }
        pin := true;
      }
      if !markerMatches {
        return Blocked;
      }
      return Passed;
    }

    method MarkRequested()
      modifies this`requested
      ensures Flags() == Marked(old(Flags()))
      ensures requested
    {
      requested := true;
    }

    method DropRequest()
      requires activeRequests > 0
      modifies this`activeRequests
      ensures Flags() == Dropped(old(Flags())) && activeRequests >= 0
      ensures activeRequests == old(activeRequests) - 1
    {
      activeRequests := activeRequests - 1;
    }

    method CloseIngress()
      modifies this`ingressClosed
      ensures Flags() == Closed(old(Flags()))
      ensures ingressClosed
    {
      ingressClosed := true;
    }

    method TakeAfterExit() returns (pending: Option<bool>)
      modifies this`transferred, this`pin
      ensures pending == (if MayTake(old(Flags())) then Some(old(pin)) else None)
      ensures Flags() == Taken(old(Flags()))
      ensures pending.Some? <==> requested && !old(transferred) && activeRequests == 0
      ensures pending.Some? ==> pending == Some(old(pin)) && transferred && !pin
      ensures pending.None? ==> transferred == old(transferred) && pin == old(pin)
    {
      if !requested || transferred || activeRequests != 0 {
        return None;
      }
      transferred := true;
      pending := Some(pin);
      pin := false;
    }
  }

  // Who can still delete the root: the admitted startup session, the library that owns the session,
  // or the native clear that has taken it.
  datatype Owner = Nobody | StartupSession | LibrarySession | NativeClear

  class PendingReset {
    var tasks: bool
    var library: bool
    var librarySession: bool
    var pin: bool
    var startup: bool
    var pending: bool

    ghost predicate Valid()
      reads this
    {
      && (library <==> tasks)
      && !(library && startup)
      && (librarySession ==> library && !pending)
      && (startup ==> !pending)
    }

    ghost function Authority(): Owner
      reads this
    {
      if pending then NativeClear
      else if startup then StartupSession
      else if librarySession then LibrarySession
      else Nobody
    }

    constructor FromExit(pinned: bool)
      ensures Valid() && Authority() == LibrarySession && pin == pinned && tasks
    {
      tasks, library, librarySession, pin := true, true, true, pinned;
      startup, pending := false, false;
    }

    constructor FromConfirmedStartup()
      ensures Valid() && Authority() == StartupSession && !tasks
    {
      tasks, library, librarySession, pin := false, false, false, false;
      startup, pending := true, false;
    }

    // Foreign results are arguments: the shutdown receipt, the marker re-read, the startup validation,
    // the library giving up its session, and the native clear itself.
    method TryClear(receipt: bool, markerMatches: bool, startupValid: bool, sessionFree: bool, cleared: bool)
      returns (ok: bool)
      requires Valid()
      modifies this
      ensures Valid() && tasks == old(tasks) && library == old(library)
      ensures old(Authority()) != Nobody ==> Authority() != Nobody
      ensures Authority() == old(Authority()) || Authority() == NativeClear
      ensures ok ==> Authority() == NativeClear && cleared && (old(tasks) ==> receipt) && !pin
      ensures old(pin) && !pin ==> markerMatches
      ensures old(Authority()) == StartupSession && Authority() == NativeClear ==> startupValid
      ensures old(tasks) && !receipt ==> !ok && pin == old(pin) && Authority() == old(Authority())
      ensures var taken := (tasks ==> receipt) && (old(pin) ==> markerMatches)
          && match old(Authority())
             case NativeClear => true
             case StartupSession => startupValid
             case LibrarySession => sessionFree
             case Nobody => false;
        && (ok <==> taken && cleared)
        && Authority() == (if taken then NativeClear else old(Authority()))
      ensures pin == (old(pin) && !((tasks ==> receipt) && markerMatches))
    {
      if tasks && !receipt {
        return false;
      }
      if pin {
        if !markerMatches {
          return false;
        }
        pin := false;
      }
      if !pending {
        if startup && !startupValid {
          return false;
        }
        if startup {
          startup := false;
        } else {
          if !library || !librarySession || !sessionFree {
            return false;
          }
          librarySession := false;
        }
        pending := true;
      }
      return cleared;
    }
  }
}
