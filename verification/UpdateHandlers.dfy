/** The handlers as they run: one object holds the module's variables, and each reassigns them in turn. */
module UpdateHandlers {
  import opened Basics
  import opened UpdateClient

  // The client once a command of this kind was handed over to be posted.
  function Posted(c: Client, kind: Kind, version: string): Client {
    c.(request := Some(Request(Command(kind, version, c.flow.revision), Pending)), sequence := c.sequence + 1)
  }

  class Updater {
    var updateFlow: Flow
    var pendingUpdateRequest: Option<Request>
    var updateRequestSequence: nat
    var autoApplyOnReady: bool
    var flowPollPending: bool
    var flowPollTimer: bool

    ghost function View(): Client
      reads this
    {
      Client(updateFlow, pendingUpdateRequest, updateRequestSequence, autoApplyOnReady, flowPollPending, flowPollTimer)
    }

    constructor ()
      ensures View() == FRESH
    {
      updateFlow := IDLE_FLOW;
      pendingUpdateRequest := None;
      updateRequestSequence := 0;
      autoApplyOnReady, flowPollPending, flowPollTimer := false, false, false;
    }

    // True when the command is now to be posted.
    method BeginUpdateRequest(kind: Kind, version: string) returns (begun: bool)
      modifies this
      ensures begun == MayBegin(old(View()))
      ensures View() == if begun then Begin(old(View()), kind, version) else old(View())
      ensures begun <==> old(pendingUpdateRequest) == None && !updateFlow.canRestart
      ensures begun ==> pendingUpdateRequest == Some(Request(Command(kind, version, updateFlow.revision), Pending))
      ensures View() == old(View()).(
                          request := pendingUpdateRequest,
                          sequence := old(updateRequestSequence) + (if begun then 1 else 0))
      ensures !begun ==> pendingUpdateRequest == old(pendingUpdateRequest)
    {
      if pendingUpdateRequest.Some? || updateFlow.canRestart {
        return false;
      }
      pendingUpdateRequest := Some(Request(Command(kind, version, updateFlow.revision), Pending));
      updateRequestSequence := updateRequestSequence + 1;
      return true;
    }

    method StartUpdateDownload(version: string) returns (posted: bool)
      modifies this
      ensures View() == StartDownload(old(View()), version)
      ensures posted <==>
              && old(pendingUpdateRequest) == None && !updateFlow.canRestart
              && !updateFlow.phase.Downloading? && !updateFlow.phase.Applying?
      ensures View() == if posted then Posted(old(View()), Download, version) else old(View())
    {
      var phase := updateFlow.phase;
      if phase.Downloading? || phase.Applying? {
        return false;
      }
      posted := BeginUpdateRequest(Download, version);
    }

    method ApplyUpdateAndRestart(blocked: bool) returns (posted: bool)
      modifies this
      ensures View() == ApplyAndRestart(old(View()), blocked)
      ensures posted <==>
              updateFlow.phase.Ready? && !blocked && old(pendingUpdateRequest) == None && !updateFlow.canRestart
      ensures View() == if posted then Posted(old(View()), Apply, updateFlow.version).(autoApply := false)
                        else old(View())
    {
      if !updateFlow.phase.Ready? || blocked {
        return false;
      }
      posted := BeginUpdateRequest(Apply, updateFlow.version);
      if posted {
        autoApplyOnReady := false;
      }
    }

    method DownloadAndInstallUpdate(version: string, blocked: bool) returns (posted: bool)
      modifies this
      ensures View() == DownloadAndInstall(old(View()), version, blocked)
      ensures posted <==>
              && old(pendingUpdateRequest) == None && !updateFlow.canRestart
              && (if updateFlow.phase.Ready? then !blocked
                  else !updateFlow.phase.Downloading? && !updateFlow.phase.Applying?)
      ensures View() == if updateFlow.phase.Ready? then
                          if posted then Posted(old(View()), Apply, updateFlow.version).(autoApply := false)
                          else old(View())
                        else
                          (if posted then Posted(old(View()), Download, version) else old(View())).(autoApply := true)
    {
      if updateFlow.phase.Ready? {
        posted := ApplyUpdateAndRestart(blocked);
        return;
      }
      autoApplyOnReady := true;
      posted := StartUpdateDownload(version);
    }

    method SetUpdateFlow(next: Flow, applyOnReady: bool, blocked: bool) returns (posted: bool)
      modifies this
      ensures View() == SetFlow(old(View()), next, applyOnReady, blocked)
      ensures posted <==>
              && next.phase.Ready? && old(autoApplyOnReady) && applyOnReady && !blocked
              && old(pendingUpdateRequest) == None && !next.canRestart
      ensures var shown := old(View()).(flow := next, autoApply := old(autoApplyOnReady) && !next.phase.Failed?);
        View() == if posted then Posted(shown, Apply, next.version).(autoApply := false) else shown
    {
      posted := false;
      updateFlow := next;
      if next.phase.Failed? {
        autoApplyOnReady := false;
      }
      if next.phase.Ready? && autoApplyOnReady && applyOnReady && !blocked {
        posted := ApplyUpdateAndRestart(blocked);
      }
    }

    method Answered(kind: Kind, next: Flow, blocked: bool) returns (posted: bool)
      modifies this
      ensures View() == Answer(old(View()), kind, next, blocked)
      ensures posted <==> next.phase.Ready? && old(autoApplyOnReady) && !blocked && !next.canRestart
      ensures var shown := old(View()).(
                             flow := next, request := None, autoApply := old(autoApplyOnReady) && !next.phase.Failed?,
                             timer := || old(flowPollTimer) || next.phase.Downloading? || next.phase.Applying?
                                      || (kind.Download? && next.phase.Ready? && old(autoApplyOnReady) && !posted));
        View() == if posted then Posted(shown, Apply, next.version).(autoApply := false) else shown
    {
      pendingUpdateRequest := None;
      posted := SetUpdateFlow(next, true, blocked);
      var phase := updateFlow.phase;
      if phase.Downloading? || phase.Applying? || (kind.Download? && phase.Ready? && autoApplyOnReady) {
        flowPollTimer := true;
      }
    }

    // True when the read is now to be requested; the caller keeps the sequence it was begun at.
    method PollUpdateFlow() returns (asked: bool)
      modifies this
      ensures asked == MayPoll(old(View())) && View() == StartPoll(old(View()))
      ensures asked <==>
              !old(flowPollPending) && !(pendingUpdateRequest.Some? && pendingUpdateRequest.value.response.Pending?)
      ensures View() == old(View()).(polling := old(flowPollPending) || asked)
    {
      if flowPollPending || (pendingUpdateRequest.Some? && pendingUpdateRequest.value.response.Pending?) {
        return false;
      }
      flowPollPending := true;
      return true;
    }

    method FireTimer() returns (asked: bool)
      modifies this
      ensures View() == TimerFires(old(View())) && asked == MayPoll(old(View()))
      ensures View() == old(View()).(timer := false, polling := old(flowPollPending) || asked)
    {
      flowPollTimer := false;
      asked := PollUpdateFlow();
    }

    method RecoverUpdateRequest(returned: bool) returns (asked: bool)
      modifies this
      ensures View() == Recover(old(View()), returned)
      ensures asked <==> old(pendingUpdateRequest).Some? && !old(flowPollPending)
      ensures old(pendingUpdateRequest).None? ==> View() == old(View())
      ensures old(pendingUpdateRequest).Some? ==>
                View() == old(View()).(
                  request := Some(Request(
                                    old(pendingUpdateRequest).value.command, if returned then Returned else Unknown)),
                  autoApply := old(autoApplyOnReady) && !returned,
                  polling := true)
    {
      if pendingUpdateRequest.None? {
        return false;
      }
      pendingUpdateRequest := Some(pendingUpdateRequest.value.(response := if returned then Returned else Unknown));
      if returned {
        autoApplyOnReady := false;
      }
      asked := PollUpdateFlow();
    }

    // The read arrived. When it is refused the poll has ended; when it is taken it ends later.
    method ReadUpdateFlow(sequence: nat, next: Flow, blocked: bool) returns (taken: bool, posted: bool)
      modifies this
      ensures taken == Takes(old(View()), sequence, next)
      ensures View() == if taken then TakeRead(old(View()), next, blocked) else EndPoll(old(View()))
      ensures taken <==>
              && sequence == old(updateRequestSequence) && next.revision >= old(updateFlow).revision
              && (old(pendingUpdateRequest).Some? && old(pendingUpdateRequest).value.response.Unknown? ==>
                    var sent := old(pendingUpdateRequest).value.command;
                    && next.version == sent.version && next.revision > sent.revision
                    && (if sent.kind.Download? then !next.phase.Idle? else next.phase.Applying? || next.canRestart))
      ensures posted <==> taken && next.phase.Ready? && old(autoApplyOnReady) && !blocked && !next.canRestart
      ensures taken ==>
                var shown := old(View()).(
                               flow := next, request := None,
                               autoApply := old(autoApplyOnReady) && !next.phase.Idle? && !next.phase.Failed?);
                View() == if posted then Posted(shown, Apply, next.version).(autoApply := false) else shown
    {
      posted := false;
      if sequence != updateRequestSequence || next.revision < updateFlow.revision {
        FinishPoll();
        return false, false;
      }
      if pendingUpdateRequest.Some? && pendingUpdateRequest.value.response.Unknown? {
        var request := pendingUpdateRequest.value.command;
        if next.version != request.version || next.revision <= request.revision {
          FinishPoll();
          return false, false;
        }
        if request.kind.Download? && next.phase.Idle? {
          FinishPoll();
          return false, false;
        }
        if request.kind.Apply? && !next.phase.Applying? && !next.canRestart {
          FinishPoll();
          return false, false;
        }
      }
      pendingUpdateRequest := None;
      if next.phase.Idle? {
        autoApplyOnReady := false;
      }
      posted := SetUpdateFlow(next, true, blocked);
      taken := true;
    }

    method FinishPoll()
      modifies this
      ensures View() == EndPoll(old(View()))
      ensures var waits :=
          || (pendingUpdateRequest.Some? && !pendingUpdateRequest.value.response.Pending?)
          || updateFlow.phase.Downloading? || updateFlow.phase.Applying?
          || (updateFlow.phase.Ready? && autoApplyOnReady);
        View() == old(View()).(polling := false, timer := old(flowPollTimer) || waits)
    {
      flowPollPending := false;
      var phase := updateFlow.phase;
      if (pendingUpdateRequest.Some? && !pendingUpdateRequest.value.response.Pending?)
          || phase.Downloading? || phase.Applying? || (phase.Ready? && autoApplyOnReady) {
        flowPollTimer := true;
      }
    }

    // The snapshot of an automatic check. `checking` is whether a check was begun since, or is under way.
    method ReadSnapshot(sequence: nat, revision: nat, next: Flow, checking: bool) returns (taken: bool)
      modifies this
      ensures taken == (!checking && TakesSnapshot(old(View()), sequence, revision, next))
      ensures View() == if taken then TakeSnapshot(old(View()), next) else old(View())
      ensures taken <==>
              && !checking && sequence == updateRequestSequence && revision == old(updateFlow).revision
              && next.revision >= revision && pendingUpdateRequest == None
      ensures taken ==>
                View() == old(View()).(
                  flow := next, autoApply := old(autoApplyOnReady) && !next.phase.Failed?,
                  timer := old(flowPollTimer) || next.phase.Downloading? || next.phase.Applying?)
    {
      if checking || sequence != updateRequestSequence || revision != updateFlow.revision
          || next.revision < revision || pendingUpdateRequest.Some? {
        return false;
      }
      var _ := SetUpdateFlow(next, false, false);
      if next.phase.Downloading? || next.phase.Applying? {
        flowPollTimer := true;
      }
      return true;
    }
  }
}
