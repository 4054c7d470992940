/**
 What each step of the terminal protocol must do, in every reachable state: what a caller is told, when a
 request is minted, heard and admitted on, what a finished attempt leaves, and when the updater's report,
 the fence, the release and the restart take effect. The statements speak about the fields alone.
 */
module TerminalAnswers {
  import opened Basics
  import opened RequestIds
  import opened Terminal
  import opened TerminalRuns
  import opened TerminalTheorems
  import opened TerminalAdmission

  // ---------------------------------------------------------------- callers

  // An installed update gives way to a close or a restart, an admitted but unprepared reset or update to a
  // close.
  predicate GivesWay(t: TerminalState, wanted: Intent) {
    && t.active.None?
    && ((t.intent == Some(Update) && t.updateSettled && (wanted == Close || wanted == Restart))
        || ((t.intent == Some(Reset) || t.intent == Some(Update)) && t.admitted && !t.prepared && wanted == Close))
  }

  // After the loop's end only a caller of the admitted intent is still answered.
  predicate TooLate(t: TerminalState, wanted: Intent) {
    t.loopEnded && !(t.admitted && t.intent == Some(wanted))
  }

  lemma AnswerOf(t: TerminalState, wanted: Intent, next: nat)
    requires (t.prepared ==> t.active.None? && t.intent.Some?) && (t.active.Some? ==> t.intent.Some?)
    ensures var answer := Enter(t, wanted, next).1;
      && (answer == Refused(Incomplete) <==> TooLate(t, wanted))
      && (answer == Ready <==> !TooLate(t, wanted) && t.prepared && t.intent == Some(wanted))
      && (forall k: nat :: answer == Join(k) <==>
            !TooLate(t, wanted) && t.active == Some(k) && t.intent == Some(wanted))
      && (forall k: nat :: answer == Spawn(k) <==>
            && !TooLate(t, wanted) && k == next
            && (GivesWay(t, wanted) || t.intent.None?
                || (t.intent == Some(wanted) && !t.prepared && t.active.None?)))
      && (answer == Refused(Conflict) <==>
            !TooLate(t, wanted) && t.intent.Some? && t.intent != Some(wanted) && !GivesWay(t, wanted))
  {
  }

  lemma StateOf(t: TerminalState, wanted: Intent, next: nat)
    requires (t.prepared ==> t.active.None? && t.intent.Some?) && (t.active.Some? ==> t.intent.Some?)
    ensures var (u, answer) := Enter(t, wanted, next);
      u == if answer.Spawn? then t.(intent := Some(wanted), active := Some(next), prepared := false) else t
  {
  }

  lemma CallableState(s: Shell)
    requires Inv(s)
    ensures var t := s.terminal;
      (t.prepared ==> t.active.None? && t.intent.Some?) && (t.active.Some? ==> t.intent.Some?)
  {
    if s.terminal.active.Some? {
      assert s.terminal.active.value in s.workers.Keys;
    }
  }

  // Every caller in every reachable state gets the one answer its case calls for.
  lemma {:induction false} CallerIsAnswered(s: Shell, wanted: Intent)
    requires Reachable(s)
    ensures var t, answer := s.terminal, Enter(s.terminal, wanted, s.started).1;
      && (answer == Refused(Incomplete) <==> TooLate(t, wanted))
      && (answer == Ready <==> !TooLate(t, wanted) && t.prepared && t.intent == Some(wanted))
      && (forall k: nat :: answer == Join(k) <==>
            !TooLate(t, wanted) && t.active == Some(k) && t.intent == Some(wanted))
      && (forall k: nat :: answer == Spawn(k) <==>
            && !TooLate(t, wanted) && k == s.started
            && (|| GivesWay(t, wanted)
                || t.intent.None?
                || (t.intent == Some(wanted) && !t.prepared && t.active.None?)))
      && (answer == Refused(Conflict) <==>
            !TooLate(t, wanted) && t.intent.Some? && t.intent != Some(wanted) && !GivesWay(t, wanted))
  {
    ReachableHasInv(s);
    CallableState(s);
    AnswerOf(s.terminal, wanted, s.started);
  }

  lemma NoWorkers(s: Shell)
    requires Inv(s) && s.terminal.active.None?
    ensures s.workers == map[]
  {
  }

  lemma SpawnedShape(s: Shell, wanted: Intent, t: TerminalState)
    requires s.workers == map[]
    ensures EntryStep(s, wanted, (t, Spawn(s.started)))
         == s.(terminal := t, started := s.started + 1, workers := map[s.started := Worker(wanted, Starting)])
  {
    assert s.workers[s.started := Worker(wanted, Starting)] == map[s.started := Worker(wanted, Starting)];
  }

  // A caller that is told of a finished preparation allows nothing that was not allowed.
  lemma StandingShape(s: Shell, wanted: Intent, entry: Entry)
    requires Inv(s) && !entry.Spawn?
    requires entry == Ready ==> s.terminal.prepared && s.terminal.intent == Some(wanted)
    ensures EntryStep(s, wanted, (s.terminal, entry)) == s
  {
  }

  lemma CallerShape(s: Shell, wanted: Intent)
    requires Inv(s)
    ensures Apply(s, EnterExit(wanted)) ==
            if Enter(s.terminal, wanted, s.started).1.Spawn? then
              s.(terminal := s.terminal.(intent := Some(wanted), active := Some(s.started), prepared := false),
                 started := s.started + 1, workers := map[s.started := Worker(wanted, Starting)])
            else s
  {
    CallableState(s);
    AnswerOf(s.terminal, wanted, s.started);
    StateOf(s.terminal, wanted, s.started);
    var entered := Enter(s.terminal, wanted, s.started);
    if entered.1.Spawn? {
      NoWorkers(s);
      SpawnedShape(s, wanted, entered.0);
    } else {
      StandingShape(s, wanted, entered.1);
    }
  }

  // A caller that is not given a fresh attempt changes nothing; a fresh attempt takes the caller's intent,
  // has to settle everything again, and is the only one alive.
  lemma {:induction false} CallerLeaves(s: Shell, wanted: Intent)
    requires Reachable(s)
    ensures Apply(s, EnterExit(wanted)) ==
            if Enter(s.terminal, wanted, s.started).1.Spawn? then
              s.(terminal := s.terminal.(intent := Some(wanted), active := Some(s.started), prepared := false),
                 started := s.started + 1, workers := map[s.started := Worker(wanted, Starting)])
            else s
  {
    ReachableHasInv(s);
    CallerShape(s, wanted);
  }

  // An installed update is restarted or closed, and an abandoned reset or update closed, by a fresh attempt.
  lemma {:induction false} HandOffHappens(s: Shell, wanted: Intent)
    requires Reachable(s) && !s.terminal.loopEnded && s.terminal.active.None?
    requires
      || (s.terminal.intent == Some(Update) && s.terminal.updateSettled && (wanted == Close || wanted == Restart))
      || ((s.terminal.intent == Some(Reset) || s.terminal.intent == Some(Update))
          && s.terminal.admitted && !s.terminal.prepared && wanted == Close)
    ensures Enter(s.terminal, wanted, s.started).1 == Spawn(s.started)
    ensures var u := Apply(s, EnterExit(wanted));
      && u.terminal.intent == Some(wanted) && u.terminal.active == Some(s.started) && !u.terminal.prepared
      && u.workers == map[s.started := Worker(wanted, Starting)]
  {
    CallerIsAnswered(s, wanted);
    CallerLeaves(s, wanted);
  }

  // ---------------------------------------------------------------- requests

  lemma AdvanceOf(s: Shell, k: nat, ok: bool)
    requires k in s.workers
    ensures Apply(s, Advance(k, ok)) == AdvanceStep(s, k, ok)
    ensures var u, stage := AdvanceStep(s, k, ok), s.workers[k].stage;
      && (stage.Announcing? ==> u == AnnounceStep(s, k))
      && (stage.Admitting? ==> u == AdmitStep(s, k))
      && (stage.Finishing? ==> u == FinishStep(s, k, stage.ok))
      && (Waits(stage) ==> u == QuietStep(s, k, ok))
  {
  }

  lemma AnnounceOf(t: TerminalState, intent: Intent)
    ensures Announce(t, intent).Some? <==> !t.loopEnded && t.sequence < MAX_SEQUENCE
    ensures Announce(t, intent).Some? ==>
              var event := PreferenceEvent(t.sequence + 1, if intent == Reset then Discard else Flush);
              Announce(t, intent).value ==
              t.(sequence := t.sequence + 1, preferences := Some(PreferenceRequest(event, None)))
  {
  }

  // In `u` the worker waits for the answer to `event`, which is the latest published.
  ghost predicate Asks(s: Shell, u: Shell, k: nat, event: PreferenceEvent) {
    match u
    case Shell(terminal, published, workers, _, _, _, _, _, _, _, _, _) =>
      && k in workers && workers[k].stage == Awaiting(event.request) && published == Some(event)
      && terminal ==
         s.terminal.(sequence := s.terminal.sequence + 1, preferences := Some(PreferenceRequest(event, None)))
  }

  // In `u` the worker has given up and nothing was published.
  ghost predicate GivesUp(s: Shell, u: Shell, k: nat) {
    match u
    case Shell(terminal, published, workers, _, _, _, _, _, _, _, _, _) =>
      && k in workers && workers[k].stage == Finishing(false)
      && published == s.published && terminal == s.terminal
  }

  lemma AskShape(s: Shell, k: nat, minted: TerminalState, event: PreferenceEvent)
    requires k in s.workers && Announce(s.terminal, s.workers[k].intent) == Some(minted)
    requires
      minted == s.terminal.(sequence := s.terminal.sequence + 1, preferences := Some(PreferenceRequest(event, None)))
    ensures Asks(s, AnnounceStep(s, k), k, event)
  {
  }

  lemma NoAskShape(s: Shell, k: nat)
    requires k in s.workers && Announce(s.terminal, s.workers[k].intent) == None
    ensures GivesUp(s, AnnounceStep(s, k), k)
  {
  }

  // A worker about to ask does so with the next number unless the loop has ended or the numbers are spent,
  // and seals preferences: a reset discards what is unsent, everything else flushes it.
  lemma {:induction false} MintIsExact(s: Shell, k: nat, ok: bool)
    requires Reachable(s) && k in s.workers && s.workers[k].stage == Announcing
    ensures var t, u := s.terminal, Apply(s, Advance(k, ok));
      if !t.loopEnded && t.sequence < MAX_SEQUENCE
      then Asks(s, u, k, PreferenceEvent(t.sequence + 1, if s.workers[k].intent == Reset then Discard else Flush))
      else GivesUp(s, u, k)
  {
    var t, intent := s.terminal, s.workers[k].intent;
    AdvanceOf(s, k, ok);
    AnnounceOf(t, intent);
    if Announce(t, intent).Some? {
      AskShape(s, k, Announce(t, intent).value,
               PreferenceEvent(t.sequence + 1, if intent == Reset then Discard else Flush));
    } else {
      NoAskShape(s, k);
    }
  }

  // A waiting worker goes on exactly with a saved answer while the loop lives, and otherwise gives up or waits.
  lemma {:induction false} WaitIsExact(s: Shell, k: nat, ok: bool)
    requires Reachable(s) && k in s.workers && s.workers[k].stage.Awaiting?
    ensures var t, u := s.terminal, Apply(s, Advance(k, ok));
      && t.preferences.Some? && t.preferences.value.event.request == s.workers[k].stage.request
      && k in u.workers && u.terminal == t
      && u.workers[k].stage ==
         (if t.loopEnded || t.preferences.value.answer == Some(false) then Finishing(false)
          else if t.preferences.value.answer == Some(true) then Flushing(s.workers[k].stage.request)
          else if ok then s.workers[k].stage else Finishing(false))
  {
    ReachableHasInv(s);
    WorkerHolds(s, k);
    AdvanceOf(s, k, ok);
    QuietDoesNotAdmit(s, k, ok);
  }

  // The renderer's answer is heard: it sends the waiting worker on, or back.
  lemma {:induction false} AnswerIsHeard(s: Shell, k: nat, saved: bool, ok: bool)
    requires Reachable(s) && k in s.workers && s.workers[k].stage.Awaiting? && !s.terminal.loopEnded
    requires s.terminal.preferences.Some? && s.terminal.preferences.value.answer == None
    ensures var n := s.workers[k].stage.request;
      var u := Apply(Apply(s, Answer(RequestId(n), saved)), Advance(k, ok));
      k in u.workers && u.workers[k].stage == if saved then Flushing(n) else Finishing(false)
  {
    var heard := Apply(s, Answer(RequestId(s.workers[k].stage.request), saved));
    WaitIsExact(s, k, ok);
    WaitingRequestIsAnswerable(s, k, RequestId(s.workers[k].stage.request));
    ReachableOn(s, Answer(RequestId(s.workers[k].stage.request), saved));
    WaitIsExact(heard, k, ok);
  }

  lemma ReachableOn(s: Shell, a: Action)
    requires Reachable(s)
    ensures Reachable(Apply(s, a))
  {
    var trace :| s == Run(START, trace);
    assert (trace + [a])[..|trace|] == trace;
    assert Apply(s, a) == Run(START, trace + [a]);
  }

  // ---------------------------------------------------------------- admission and results

  // A worker about to admit does so exactly while the loop lives, and for all but a reset only when no
  // accepted work is left; then the task admission closes for good.
  lemma {:induction false} AdmissionIsExact(s: Shell, k: nat, ok: bool)
    requires Reachable(s) && k in s.workers && s.workers[k].stage.Admitting?
    ensures var t, u := s.terminal, Apply(s, Advance(k, ok));
      && !t.admitted && k in u.workers
      && if !t.loopEnded && (s.workers[k].intent == Reset || s.work == 0) then
           && u.terminal == t.(admitted := true, preferences := None) && u.closing
           && u.workers[k].stage == JoiningTasks
         else u.terminal == t && u.closing == s.closing && u.workers[k].stage == Finishing(false)
  {
    ReachableHasInv(s);
    WorkerHolds(s, k);
    AdvanceOf(s, k, ok);
  }

  // The preferences an attempt leaves: after admission none, before it the seal is lifted.
  function Unsealed(t: TerminalState): Option<PreferenceRequest> {
    match t.preferences
    case None => None
    case Some(request) => Some(PreferenceRequest(PreferenceEvent(request.event.request, Release), None))
  }

  // An attempt's result is published as it is; prepared is exactly a success; a failure before admission
  // lifts the seal and gives the intent up.
  lemma {:induction false} FinishIsExact(s: Shell, k: nat, ok: bool)
    requires Reachable(s) && k in s.workers && s.workers[k].stage.Finishing?
    ensures var t, u, result := s.terminal, Apply(s, Advance(k, ok)), s.workers[k].stage.ok;
      && u.outcomes == s.outcomes[k := result] && u.workers == map[]
      && u.exitGranted == (s.exitGranted || (result && s.workers[k].intent != Update))
      && u.terminal ==
         if t.admitted then t.(active := None, prepared := result)
         else t.(active := None, intent := None, updateSettled := false, prepared := false, preferences := Unsealed(t))
  {
    ReachableHasInv(s);
    WorkerHolds(s, k);
    AdvanceOf(s, k, ok);
    assert s.workers.Keys == {k};
    assert (s.workers - {k}).Keys == {};
  }

  // ---------------------------------------------------------------- the owners

  // Settlement of an update is recorded exactly once it was prepared.
  lemma {:induction false} ReportIsExact(s: Shell)
    requires Reachable(s)
    ensures var t := s.terminal;
      Apply(s, UpdateFinished).terminal ==
      t.(updateSettled := t.updateSettled || (t.intent == Some(Update) && t.prepared))
  {
  }

  // The fence lets the loop's owner pass exactly when the loop has ended and no installation is under way.
  lemma {:induction false} FenceIsExact(s: Shell)
    requires Reachable(s)
    ensures var t := s.terminal;
      Apply(s, FencePasses).fencePassed <==>
      || s.fencePassed
      || (t.loopEnded
          && !(t.admitted && t.intent == Some(Update) && !t.updateSettled && (t.prepared || t.active.Some?)))
  {
  }

  // The services go exactly once the loop has settled, no attempt is active and no admitted update waits for
  // its report.
  lemma {:induction false} ReleaseIsExact(s: Shell)
    requires Reachable(s)
    ensures var t := s.terminal;
      Apply(s, ServicesReleased).released <==>
      || s.released
      || (t.loopSettled && t.active.None? && !(t.admitted && t.intent == Some(Update) && !t.updateSettled))
  {
    ReachableHasInv(s);
  }

  // Exit is allowed exactly once anything but an update was prepared, or the loop's own shutdown settled; and
  // that settles exactly behind the fence with a settled server.
  lemma {:induction false} ExitIsExact(s: Shell)
    requires Reachable(s)
    ensures Apply(s, ExitAllowed).exitAllowed <==>
            || s.exitAllowed || s.terminal.loopSettled
            || (s.terminal.prepared && s.terminal.intent != Some(Update))
    ensures Apply(s, LoopSettles).terminal.loopSettled <==>
            s.terminal.loopSettled || (s.fencePassed && s.serverSettled)
  {
    ReachableHasInv(s);
    ExitState(s);
  }

  lemma ExitState(s: Shell)
    requires s.exitGranted <==> s.terminal.prepared && s.terminal.intent != Some(Update)
    ensures Apply(s, ExitAllowed).exitAllowed <==>
            || s.exitAllowed || s.terminal.loopSettled
            || (s.terminal.prepared && s.terminal.intent != Some(Update))
    ensures Apply(s, LoopSettles).terminal.loopSettled <==>
            s.terminal.loopSettled || (s.fencePassed && s.serverSettled)
  {
    assert Apply(s, ExitAllowed) == OwnerStep(s, ExitAllowed);
    assert Apply(s, LoopSettles) == OwnerStep(s, LoopSettles);
  }

  // A prepared restart is carried through exactly once exit was allowed and the loop has ended.
  lemma {:induction false} RestartIsExact(s: Shell)
    requires Reachable(s)
    ensures RestartReady(s.terminal, s.exitAllowed) <==>
            s.terminal.prepared && s.terminal.intent == Some(Restart) && s.exitAllowed && s.terminal.loopEnded
  {
    ReachableHasInv(s);
  }
}
