/** The two owners inside the server handle: a worker's stored result and the running file settlement. */
module ServerHandle {
  import opened Basics
  import opened ApiShutdown

  // Under its mutex; the lock itself is the runs' business.
  class ServerTask {
    var handle: Handle
    var result: Option<bool>

    ghost function View(): Task
      reads this
    {
      Task(handle, result, None)
    }

    constructor ()
      ensures View() == IDLE
    {
      handle, result := Live, None;
    }

    // None while the worker is still running: the caller keeps waiting, the handle stays owned.
    method JoinOwned() returns (joined: Option<bool>)
      modifies this
      ensures old(result).Some? ==> joined == old(result) && View() == old(View())
      ensures old(result).None? ==> joined == Outcome(old(View())) && View() == Consumed(old(View()))
      ensures forall ok :: old(result).None? && old(handle) == Ended(ok) ==>
                joined == Some(ok) && result == Some(ok) && handle == Taken
      ensures old(result).None? && old(handle) == Live ==> joined == None && result == None && handle == Live
      ensures old(result).None? && old(handle) == Taken ==> joined == Some(false) && result == Some(false)
    {
      if result.Some? {
        return result;
      }
      match handle {
        case Live => return None;
        case Ended(ok) => joined := Some(ok);
        case Taken => joined := Some(false);
      }
      handle := Taken;
      result := joined;
    }
  }

  class FileSettlement {
    var pending: Option<Settlement>
    var spawned: nat
    var consumed: nat

    ghost predicate Valid()
      reads this
    {
      spawned == consumed + (if pending.Some? then 1 else 0)
    }

    constructor ()
      ensures Valid() && pending.None? && spawned == 0
    {
      pending, spawned, consumed := None, 0, 0;
    }

    // Joins the attempt in place, or starts one when the task owner's receipt exists.
    method Begin(receipt: bool) returns (owned: bool)
      requires Valid()
      modifies this`pending, this`spawned
      ensures Valid()
      ensures owned <==> old(pending).Some? || receipt
      ensures old(pending).Some? || !receipt ==> pending == old(pending) && spawned == old(spawned)
      ensures old(pending).None? && receipt ==> pending == Some(Running) && spawned == old(spawned) + 1
    {
      if pending.None? {
        if !receipt {
          return false;
        }
        pending := Some(Running);
        spawned := spawned + 1;
      }
      return true;
    }

    // None while it runs; a result is taken out exactly once.
    method Join() returns (result: Option<bool>)
      requires Valid()
      modifies this`pending, this`consumed
      ensures Valid()
      ensures match old(pending)
              case Some(Finished(ok)) => result == Some(ok) && pending.None? && consumed == old(consumed) + 1
              case _ => result.None? && pending == old(pending) && consumed == old(consumed)
    {
      match pending {
        case Some(Finished(ok)) =>
          pending := None;
          consumed := consumed + 1;
          return Some(ok);
        case _ =>
          return None;
      }
    }
  }
}
