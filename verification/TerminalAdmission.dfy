/** Admission over whole runs: which acknowledgement a given admission rests on. */
module TerminalAdmission {
  import opened Basics
  import opened RequestIds
  import opened Terminal
  import opened TerminalRuns
  import opened TerminalTheorems

  // Action `i` of the trace is the one in which `attempt` minted request `n`.
  ghost predicate Minted(trace: seq<Action>, i: nat, attempt: nat, n: nat) {
    && i < |trace|
    && trace[i].Advance? && trace[i].attempt == attempt
    && attempt in At(trace, i).workers && At(trace, i).workers[attempt].stage == Announcing
    && attempt in At(trace, i + 1).workers && At(trace, i + 1).workers[attempt].stage == Awaiting(n)
  }

  // Action `j` of the trace is an acknowledgement of request `n` that was accepted.
  ghost predicate Accepted(trace: seq<Action>, j: nat, n: nat, saved: bool) {
    && j < |trace|
    && trace[j] == Answer(RequestId(n), saved)
    && Accepts(At(trace, j).terminal, RequestId(n))
  }

  // The step of the trace in which admission happened, by `attempt`.
  ghost predicate Admitted(trace: seq<Action>, k: nat, attempt: nat) {
    && k < |trace|
    && trace[k].Advance? && trace[k].attempt == attempt
    && !At(trace, k).terminal.admitted && At(trace, k + 1).terminal.admitted
  }

  lemma AtInv(trace: seq<Action>, i: nat)
    requires i <= |trace|
    ensures Inv(At(trace, i))
  {
    RunKeepsInv(START, trace[..i]);
  }

  lemma {:induction false} AtFollows(trace: seq<Action>, i: nat, j: nat)
    requires i <= j <= |trace|
    ensures At(trace, i).terminal.sequence <= At(trace, j).terminal.sequence
    decreases j - i
  {
    if i < j {
      AtInv(trace, i);
      AtSucc(trace, i);
      StepFollows(At(trace, i), trace[i]);
      AtFollows(trace, i + 1, j);
    }
  }

  // ---------------------------------------------------------------- what a step can do to a request

  // What one step does to the stored request: nothing, answer it, replace it, or lift it.
  datatype Change = Kept | Answered | Replaced | Lifted

  ghost predicate Changes(s: Shell, a: Action, u: Shell, c: Change) {
    var p, q := s.terminal.preferences, u.terminal.preferences;
    match c
    case Kept => q == p && u.terminal.sequence == s.terminal.sequence
                 && (!NoLiveRequest(s.terminal) ==> u.terminal.active == s.terminal.active)
    case Answered => a.Answer? && Accepts(s.terminal, a.id) && q == Some(p.value.(answer := Some(a.saved)))
                     && u.terminal.sequence == s.terminal.sequence && u.terminal.active == s.terminal.active
    case Replaced => a.Advance? && a.attempt in s.workers && s.workers[a.attempt].stage == Announcing
                     && q.Some? && q.value.answer.None? && q.value.event.request == s.terminal.sequence + 1
                     && u.terminal.sequence == s.terminal.sequence + 1 && u.terminal.active == Some(a.attempt)
                     && a.attempt in u.workers && u.workers[a.attempt].stage == Awaiting(s.terminal.sequence + 1)
    case Lifted => NoLiveRequest(u.terminal) && u.terminal.sequence == s.terminal.sequence
  }

  lemma AnnounceChange(s: Shell, attempt: nat, ok: bool) returns (c: Change)
    requires Inv(s) && attempt in s.workers && s.workers[attempt].stage == Announcing
    ensures Changes(s, Advance(attempt, ok), AnnounceStep(s, attempt), c)
  {
    c := if Announce(s.terminal, s.workers[attempt].intent).Some? then Replaced else Kept;
  }

  lemma FinishChange(s: Shell, attempt: nat, ok: bool, result: bool) returns (c: Change)
    requires Inv(s) && attempt in s.workers && s.workers[attempt].stage == Finishing(result)
    ensures Changes(s, Advance(attempt, ok), FinishStep(s, attempt, result), c)
  {
    c := if s.terminal.admitted then Kept else Lifted;
  }

  lemma AdmitChange(s: Shell, attempt: nat, ok: bool) returns (c: Change)
    requires Inv(s) && attempt in s.workers && s.workers[attempt].stage.Admitting?
    ensures Changes(s, Advance(attempt, ok), AdmitStep(s, attempt), c)
  {
    c := if MayAdmit(s.terminal, s.workers[attempt].intent, s.work == 0) then Lifted else Kept;
  }

  lemma QuietChange(s: Shell, attempt: nat, ok: bool)
    requires attempt in s.workers
    ensures Changes(s, Advance(attempt, ok), QuietStep(s, attempt, ok), Kept)
  {
    QuietDoesNotAdmit(s, attempt, ok);
  }

  lemma AdvanceChange(s: Shell, attempt: nat, ok: bool) returns (c: Change)
    requires Inv(s) && attempt in s.workers
    ensures Changes(s, Advance(attempt, ok), AdvanceStep(s, attempt, ok), c)
  {
    match s.workers[attempt].stage
    case Announcing => c := AnnounceChange(s, attempt, ok);
    case Admitting(_) => c := AdmitChange(s, attempt, ok);
    case Finishing(result) => c := FinishChange(s, attempt, ok, result);
    case _ =>
      QuietChange(s, attempt, ok);
      c := Kept;
  }

  lemma ReserveKeepsRequest(h: TerminalState, intent: Intent, next: nat)
    ensures var u := Reserve(h, intent, next).0;
      u.preferences == h.preferences && u.sequence == h.sequence && (h.active.Some? ==> u.active == h.active)
  {
  }

  lemma HandOffKeepsRequest(t: TerminalState, intent: Intent)
    ensures var u := HandOff(t, intent);
      u.preferences == t.preferences && u.sequence == t.sequence && u.active == t.active
  {
  }

  lemma EnterChange(s: Shell, intent: Intent)
    requires Inv(s)
    ensures Changes(s, EnterExit(intent), EnterStep(s, intent), Kept)
  {
    HandOffKeepsRequest(s.terminal, intent);
    ReserveKeepsRequest(HandOff(s.terminal, intent), intent, s.started);
    EntryHasTerminal(s, intent, Enter(s.terminal, intent, s.started));
  }

  lemma AnswerChange(s: Shell, id: string, saved: bool) returns (c: Change)
    ensures Changes(s, Answer(id, saved), Apply(s, Answer(id, saved)), c)
  {
    c := if Accepts(s.terminal, id) then Answered else Kept;
  }

  lemma OthersChange(s: Shell, a: Action)
    requires !a.EnterExit? && !a.Advance? && !a.Answer?
    ensures Changes(s, a, Apply(s, a), Kept)
  {
  }

  lemma StepChange(s: Shell, a: Action) returns (c: Change)
    requires Inv(s)
    ensures Changes(s, a, Apply(s, a), c)
  {
    match a
    case EnterExit(intent) =>
      EnterChange(s, intent);
      c := Kept;
    case Advance(attempt, ok) => if attempt in s.workers { c := AdvanceChange(s, attempt, ok); } else { c := Kept; }
    case Answer(id, saved) => c := AnswerChange(s, id, saved);
    case _ =>
      OthersChange(s, a);
      c := Kept;
  }

  // A step either carries a live request on or mints it.
  lemma LiveStep(trace: seq<Action>, k: nat) returns (minted: bool)
    requires k < |trace| && !NoLiveRequest(At(trace, k + 1).terminal)
    ensures var t, u := At(trace, k).terminal, At(trace, k + 1).terminal;
      && u.active.Some?
      && if minted then Minted(trace, k, u.active.value, u.preferences.value.event.request)
         else !NoLiveRequest(t) && t.active == u.active
              && t.preferences.value.event.request == u.preferences.value.event.request
  {
    AtInv(trace, k);
    AtInv(trace, k + 1);
    AtSucc(trace, k);
    var change := StepChange(At(trace, k), trace[k]);
    minted := change == Replaced;
  }

  // A live request was minted by the attempt that is active now.
  lemma {:induction false} LiveRequestWasMinted(trace: seq<Action>, k: nat) returns (i: nat)
    requires k <= |trace| && !NoLiveRequest(At(trace, k).terminal)
    ensures At(trace, k).terminal.active.Some?
    ensures i < k
    ensures Minted(trace, i, At(trace, k).terminal.active.value, At(trace, k).terminal.preferences.value.event.request)
  {
    if k == 0 {
      assert false;
    } else {
      i := k - 1;
      var minted := LiveStep(trace, i);
      if !minted {
        i := LiveRequestWasMinted(trace, i);
      }
    }
  }

  lemma AnnounceMints(s: Shell, attempt: nat)
    requires attempt in s.workers && Announce(s.terminal, s.workers[attempt].intent).Some?
    ensures AnnounceStep(s, attempt).workers[attempt].stage == Awaiting(s.terminal.sequence + 1)
    ensures AnnounceStep(s, attempt).terminal.sequence == s.terminal.sequence + 1
  {
  }

  lemma AnnounceFails(s: Shell, attempt: nat)
    requires attempt in s.workers && Announce(s.terminal, s.workers[attempt].intent).None?
    ensures AnnounceStep(s, attempt).workers[attempt].stage == Finishing(false)
  {
  }

  lemma AnnouncedNumber(s: Shell, attempt: nat, n: nat)
    requires attempt in s.workers && AnnounceStep(s, attempt).workers[attempt].stage == Awaiting(n)
    ensures s.terminal.sequence + 1 == n == AnnounceStep(s, attempt).terminal.sequence
  {
    if Announce(s.terminal, s.workers[attempt].intent).Some? {
      AnnounceMints(s, attempt);
    } else {
      AnnounceFails(s, attempt);
    }
  }

  lemma MintedNumber(trace: seq<Action>, i: nat, a: nat, n: nat)
    requires Minted(trace, i, a, n)
    ensures At(trace, i).terminal.sequence + 1 == n == At(trace, i + 1).terminal.sequence
  {
    AtSucc(trace, i);
    assert Apply(At(trace, i), trace[i]) == AdvanceStep(At(trace, i), a, trace[i].ok) == AnnounceStep(At(trace, i), a);
    AnnouncedNumber(At(trace, i), a, n);
  }

  // A request number is minted once in a run.
  lemma MintedOnce(trace: seq<Action>, i: nat, a: nat, j: nat, b: nat, n: nat)
    requires Minted(trace, i, a, n) && Minted(trace, j, b, n)
    ensures i == j && a == b
  {
    MintedNumber(trace, i, a, n);
    MintedNumber(trace, j, b, n);
    if i < j {
      AtFollows(trace, i + 1, j);
    } else if j < i {
      AtFollows(trace, j + 1, i);
    }
  }

  ghost predicate Saved(t: TerminalState, n: nat) {
    LiveRequest(t, n) && t.preferences.value.answer == Some(true)
  }

  lemma SavedStep(s: Shell, a: Action, n: nat)
    requires Inv(s) && Saved(Apply(s, a).terminal, n) && !Saved(s.terminal, n)
    ensures a.Answer? && a.saved && a.id == RequestId(n) && Accepts(s.terminal, RequestId(n))
  {
    var change := StepChange(s, a);
  }

  lemma SavedAt(trace: seq<Action>, k: nat, n: nat)
    requires k < |trace| && Saved(At(trace, k + 1).terminal, n) && !Saved(At(trace, k).terminal, n)
    ensures Accepted(trace, k, n, true)
  {
    AtInv(trace, k);
    AtSucc(trace, k);
    SavedStep(At(trace, k), trace[k], n);
  }

  lemma {:induction false} SavedWasAccepted(trace: seq<Action>, k: nat, n: nat) returns (j: nat)
    requires k <= |trace| && Saved(At(trace, k).terminal, n)
    ensures j < k && Accepted(trace, j, n, true)
  {
    if k == 0 {
      assert false;
    } else if Saved(At(trace, k - 1).terminal, n) {
      j := SavedWasAccepted(trace, k - 1, n);
    } else {
      j := k - 1;
      SavedAt(trace, j, n);
    }
  }

  // ---------------------------------------------------------------- the theorems

  // The one worker there is belongs to the active attempt.
  lemma WorkerHolds(s: Shell, attempt: nat)
    requires Inv(s) && attempt in s.workers
    ensures s.terminal.active == Some(attempt) && WorkerAgrees(s, s.workers[attempt])
  {
    assert attempt in s.workers.Keys;
  }

  lemma AnnounceDoesNotAdmit(s: Shell, attempt: nat)
    requires attempt in s.workers
    ensures AnnounceStep(s, attempt).terminal.admitted == s.terminal.admitted
  {
    var minted := Announce(s.terminal, s.workers[attempt].intent);
    assert minted.Some? ==> minted.value.admitted == s.terminal.admitted;
  }

  lemma FinishDoesNotAdmit(s: Shell, attempt: nat, ok: bool)
    requires attempt in s.workers
    ensures FinishStep(s, attempt, ok).terminal.admitted == s.terminal.admitted
  {
    assert Finish(s.terminal, attempt, ok).admitted == s.terminal.admitted;
    assert FinishStep(s, attempt, ok).terminal == Finish(s.terminal, attempt, ok);
  }

  lemma QuietDoesNotAdmit(s: Shell, attempt: nat, ok: bool)
    requires attempt in s.workers
    ensures QuietStep(s, attempt, ok).terminal == s.terminal
  {
  }

  lemma OtherStagesDoNotAdmit(s: Shell, attempt: nat, ok: bool)
    requires attempt in s.workers && !s.workers[attempt].stage.Admitting?
    ensures AdvanceStep(s, attempt, ok).terminal.admitted == s.terminal.admitted
  {
    match s.workers[attempt].stage
    case Announcing => AnnounceDoesNotAdmit(s, attempt);
    case Finishing(result) => FinishDoesNotAdmit(s, attempt, result);
    case Starting => QuietDoesNotAdmit(s, attempt, ok);
    case Reading => QuietDoesNotAdmit(s, attempt, ok);
    case Preflighting => QuietDoesNotAdmit(s, attempt, ok);
    case Awaiting(_) => QuietDoesNotAdmit(s, attempt, ok);
    case Flushing(_) => QuietDoesNotAdmit(s, attempt, ok);
    case JoiningTasks => QuietDoesNotAdmit(s, attempt, ok);
    case Draining => QuietDoesNotAdmit(s, attempt, ok);
    case StoppingServer => QuietDoesNotAdmit(s, attempt, ok);
    case Checking => QuietDoesNotAdmit(s, attempt, ok);
  }

  lemma AdmitStageBy(s: Shell, attempt: nat, ok: bool)
    requires Inv(s) && attempt in s.workers && !s.terminal.admitted && AdvanceStep(s, attempt, ok).terminal.admitted
    ensures s.terminal.active == Some(attempt)
    ensures s.workers[attempt].stage.Admitting? && Saved(s.terminal, s.workers[attempt].stage.request)
  {
    WorkerHolds(s, attempt);
    if !s.workers[attempt].stage.Admitting? {
      OtherStagesDoNotAdmit(s, attempt, ok);
    }
  }

  lemma ReserveDoesNotAdmit(h: TerminalState, intent: Intent, next: nat)
    ensures Reserve(h, intent, next).0.admitted == h.admitted
  {
  }

  lemma EnterDoesNotAdmit(s: Shell, intent: Intent)
    ensures EnterStep(s, intent).terminal.admitted == s.terminal.admitted
  {
    ReserveDoesNotAdmit(HandOff(s.terminal, intent), intent, s.started);
    EntryHasTerminal(s, intent, Enter(s.terminal, intent, s.started));
  }

  lemma OwnerDoesNotAdmit(s: Shell, a: Action)
    ensures OwnerStep(s, a).terminal.admitted == s.terminal.admitted
  {
    match a
    case EnterExit(_) =>
    case Advance(_, _) =>
    case Crash(_) =>
    case Answer(_, _) =>
    case UpdateFinished =>
    case LoopEnds =>
    case FencePasses =>
    case TasksClose =>
    case ServerSettles =>
    case LoopSettles =>
    case ExitAllowed =>
    case ServicesReleased =>
    case WorkStarts =>
    case WorkEnds =>
  }

  lemma AdmitStepBy(s: Shell, a: Action)
    requires Inv(s) && !s.terminal.admitted && Apply(s, a).terminal.admitted
    ensures a.Advance? && a.attempt in s.workers && s.terminal.active == Some(a.attempt)
    ensures s.workers[a.attempt].stage.Admitting? && Saved(s.terminal, s.workers[a.attempt].stage.request)
  {
    match a
    case Advance(attempt, ok) => if attempt in s.workers { AdmitStageBy(s, attempt, ok); }
    case EnterExit(intent) => EnterDoesNotAdmit(s, intent);
    case Crash(attempt) =>
    case Answer(id, saved) =>
    case _ => OwnerDoesNotAdmit(s, a);
  }

  // Admission rests on a saved acknowledgement: in any run, a step that admits belongs to an attempt
  // that minted a request earlier and whose very request was acknowledged `true` in between.
  lemma AdmissionWasAcknowledged(trace: seq<Action>, k: nat)
    requires k < |trace| && !At(trace, k).terminal.admitted && At(trace, k + 1).terminal.admitted
    ensures trace[k].Advance? && Admitted(trace, k, trace[k].attempt)
    ensures exists i: nat, j: nat, n: nat ::
              i < j < k && Minted(trace, i, trace[k].attempt, n) && Accepted(trace, j, n, true)
  {
    AtInv(trace, k);
    AtSucc(trace, k);
    var s := At(trace, k);
    AdmitStepBy(s, trace[k]);
    var attempt, n := trace[k].attempt, s.workers[trace[k].attempt].stage.request;
    var j := SavedWasAccepted(trace, k, n);
    AtInv(trace, j);
    RequestIdInjective(At(trace, j).terminal.preferences.value.event.request, n);
    var i := LiveRequestWasMinted(trace, j);
    var m := LiveRequestWasMinted(trace, k);
    MintedOnce(trace, i, At(trace, j).terminal.active.value, m, attempt, n);
  }

  lemma AdmitStepIsIdle(s: Shell, attempt: nat)
    requires Inv(s) && attempt in s.workers && !s.terminal.admitted && AdmitStep(s, attempt).terminal.admitted
    ensures AdmitStep(s, attempt).closing && AdmitStep(s, attempt).work == s.work
    ensures s.terminal.intent != Some(Reset) ==> s.work == 0
  {
    WorkerHolds(s, attempt);
  }

  // Only a reset cancels accepted work: every other admission finds the tasks idle, and from then on
  // they stay joined.
  lemma AdmissionFindsIdleWork(trace: seq<Action>, k: nat, later: nat)
    requires k < later <= |trace| && !At(trace, k).terminal.admitted && At(trace, k + 1).terminal.admitted
    requires At(trace, k).terminal.intent != Some(Reset)
    ensures At(trace, k).work == 0 && At(trace, later).Joined()
  {
    AtInv(trace, k);
    AtSucc(trace, k);
    AdmitStepBy(At(trace, k), trace[k]);
    AdmitStepIsIdle(At(trace, k), trace[k].attempt);
    AtJoined(trace, k + 1, later);
  }

  lemma {:induction false} AtJoined(trace: seq<Action>, i: nat, j: nat)
    requires i <= j <= |trace| && At(trace, i).Joined()
    ensures At(trace, j).Joined()
    decreases j - i
  {
    if i < j {
      AtInv(trace, i);
      AtSucc(trace, i);
      StepFollows(At(trace, i), trace[i]);
      AtJoined(trace, i + 1, j);
    }
  }

  // A request that was answered, released, admitted past or superseded.
  ghost predicate Spent(t: TerminalState, n: nat) {
    && n <= t.sequence
    && (LiveRequest(t, n) ==> t.preferences.value.answer.Some?)
  }

  lemma SpentStep(s: Shell, a: Action, n: nat)
    requires Inv(s) && Spent(s.terminal, n)
    ensures Spent(Apply(s, a).terminal, n)
  {
    var change := StepChange(s, a);
  }

  lemma {:induction false} SpentForever(trace: seq<Action>, i: nat, j: nat, n: nat)
    requires i <= j <= |trace| && Spent(At(trace, i).terminal, n)
    ensures Spent(At(trace, j).terminal, n)
    decreases j - i
  {
    if i < j {
      AtInv(trace, i);
      AtSucc(trace, i);
      SpentStep(At(trace, i), trace[i], n);
      SpentForever(trace, i + 1, j, n);
    }
  }

  // Duplicate and stale acknowledgements are refused: one request is acknowledged at most once in a run.
  lemma AcknowledgedOnce(trace: seq<Action>, i: nat, j: nat, n: nat, first: bool, second: bool)
    requires Accepted(trace, i, n, first) && Accepted(trace, j, n, second)
    ensures i == j
  {
    AtInv(trace, i); AtInv(trace, j);
    AtSucc(trace, i); AtSucc(trace, j);
    RequestIdInjective(At(trace, i).terminal.preferences.value.event.request, n);
    RequestIdInjective(At(trace, j).terminal.preferences.value.event.request, n);
    if i < j {
      SpentForever(trace, i + 1, j, n);
    } else if j < i {
      SpentForever(trace, j + 1, i, n);
    }
  }

  // The other side: while a worker waits for its own unanswered request, exactly that request's
  // identity is accepted, the length guard included.
  lemma {:induction false} WaitingRequestIsAnswerable(s: Shell, attempt: nat, id: string)
    requires Reachable(s)
    requires
      && attempt in s.workers && s.workers[attempt].stage.Awaiting?
      && Observe(s.terminal, s.workers[attempt].stage.request) == Waiting
    ensures Accepts(s.terminal, id) <==> id == RequestId(s.workers[attempt].stage.request)
  {
    ReachableHasInv(s);
    WorkerHolds(s, attempt);
    RequestIdFits(s.workers[attempt].stage.request);
  }
}
