/** What every run of the terminal protocol keeps, from any reachable state through any continuation. */
module TerminalTheorems {
  import opened Basics
  import opened Terminal
  import opened TerminalRuns

  // ---------------------------------------------------------------- the continuation relation

  // Events are ordered by request number, a release after the seal it lifts.
  function Rank(published: Option<PreferenceEvent>): nat {
    if published.None? then 0
    else 2 * published.value.request + (if published.value.phase == Release then 1 else 0)
  }

  // The intents an admitted state may still move to.
  predicate IntentMoves(from: Option<Intent>, to: Option<Intent>) {
    || to == from
    || (from == Some(Update) && (to == Some(Close) || to == Some(Restart)))
    || (from == Some(Reset) && to == Some(Close))
  }

  ghost predicate FlagsFollow(s: Shell, u: Shell) {
    && (s.terminal.loopEnded ==> u.terminal.loopEnded)
    && (s.terminal.loopSettled ==> u.terminal.loopSettled)
    && (s.terminal.admitted && s.terminal.updateSettled ==> u.terminal.updateSettled)
    && (s.closing ==> u.closing)
    && (s.Joined() ==> u.Joined())
    && (s.serverSettled ==> u.serverSettled)
    && (s.released ==> u.released)
    && (s.exitGranted ==> u.exitGranted)
    && (s.exitAllowed ==> u.exitAllowed)
  }

  ghost predicate TerminalFollows(s: Shell, u: Shell) {
    && (s.terminal.admitted ==>
          u.terminal.admitted && u.published == s.published && IntentMoves(s.terminal.intent, u.terminal.intent))
    && (s.terminal.prepared && s.terminal.intent != Some(Update) ==>
          u.terminal.prepared && u.terminal.intent == s.terminal.intent)
    && (s.terminal.loopEnded && !s.terminal.admitted ==> !u.terminal.admitted)
    && (s.released && !s.terminal.prepared ==> !u.terminal.prepared)
    && s.terminal.sequence <= u.terminal.sequence
    && Rank(s.published) <= Rank(u.published)
    && (Rank(s.published) == Rank(u.published) ==> s.published == u.published)
  }

  ghost predicate OutcomesFollow(s: Shell, u: Shell) {
    forall k :: k in s.outcomes ==> k in u.outcomes && u.outcomes[k] == s.outcomes[k]
  }

  ghost predicate Follows(s: Shell, u: Shell) {
    match s
    case Shell(_, _, _, _, _, _, _, _, _, _, _, _) => FlagsFollow(s, u) && TerminalFollows(s, u) && OutcomesFollow(s, u)
  }

  lemma HandOffFollows(s: Shell, intent: Intent)
    requires Inv(s) && !TurnedAway(s.terminal, intent)
    ensures Follows(s, s.(terminal := HandOff(s.terminal, intent)))
  {
  }

  lemma JoinFollows(s: Shell, intent: Intent, granted: bool)
    requires Inv(s) && !TurnedAway(s.terminal, intent)
    requires HandOff(s.terminal, intent).intent == Some(intent) && (s.exitGranted ==> granted)
    ensures Follows(s, s.(terminal := HandOff(s.terminal, intent).(intent := Some(intent)), exitGranted := granted))
  {
  }

  lemma SpawnFollows(s: Shell, intent: Intent)
    requires Inv(s) && !TurnedAway(s.terminal, intent)
    requires Takes(HandOff(s.terminal, intent), intent) && !HandOff(s.terminal, intent).prepared
    ensures Follows(s, SpawnStep(s.(terminal := HandOff(s.terminal, intent)), intent))
  {
  }

  lemma FollowsItself(s: Shell)
    ensures Follows(s, s)
  {
  }

  lemma RefusalFollows(s: Shell, intent: Intent, h: TerminalState, u: Shell)
    requires Inv(s) && h == HandOff(s.terminal, intent) && EnterShape(s, intent, h, u)
    requires TurnedAway(s.terminal, intent) || !Takes(h, intent)
    ensures Follows(s, u)
  {
    if TurnedAway(s.terminal, intent) {
      FollowsItself(s);
    } else {
      HandOffFollows(s, intent);
    }
  }

  lemma TakenFollows(s: Shell, intent: Intent, h: TerminalState, u: Shell)
    requires Inv(s) && h == HandOff(s.terminal, intent) && EnterShape(s, intent, h, u)
    requires !TurnedAway(s.terminal, intent) && Takes(h, intent)
    ensures Follows(s, u)
  {
    if h.prepared || h.active.Some? {
      JoinFollows(s, intent, u.exitGranted);
    } else {
      SpawnFollows(s, intent);
    }
  }

  lemma EnterFollows(s: Shell, intent: Intent)
    requires Inv(s)
    ensures Follows(s, EnterStep(s, intent))
  {
    var h := HandOff(s.terminal, intent);
    EnterHasShape(s, intent);
    if TurnedAway(s.terminal, intent) || !Takes(h, intent) {
      RefusalFollows(s, intent, h, EnterStep(s, intent));
    } else {
      TakenFollows(s, intent, h, EnterStep(s, intent));
    }
  }

  lemma FinishFollows(s: Shell, attempt: nat, ok: bool)
    requires Inv(s) && attempt in s.workers && s.workers[attempt].stage == Finishing(ok)
    ensures Follows(s, FinishStep(s, attempt, ok))
  {
    assert s.terminal.active == Some(attempt);
  }

  lemma AnnounceFollows(s: Shell, attempt: nat)
    requires Inv(s) && attempt in s.workers && s.workers[attempt].stage.Announcing?
    ensures Follows(s, AnnounceStep(s, attempt))
  {
  }

  lemma AdmitFollows(s: Shell, attempt: nat)
    requires Inv(s) && attempt in s.workers && s.workers[attempt].stage.Admitting?
    ensures Follows(s, AdmitStep(s, attempt))
  {
  }

  lemma QuietFollows(s: Shell, attempt: nat, ok: bool)
    requires Inv(s) && attempt in s.workers
    ensures Follows(s, QuietStep(s, attempt, ok))
  {
  }

  lemma AdvanceFollows(s: Shell, attempt: nat, ok: bool)
    requires Inv(s) && attempt in s.workers
    ensures Follows(s, AdvanceStep(s, attempt, ok))
  {
    var stage := s.workers[attempt].stage;
    if Waits(stage) {
      QuietFollows(s, attempt, ok);
    } else {
      match stage
      case Announcing => AnnounceFollows(s, attempt);
      case Admitting(_) => AdmitFollows(s, attempt);
      case Finishing(result) => FinishFollows(s, attempt, result);
    }
  }

  lemma OwnersFollow(s: Shell, a: Action)
    requires Inv(s)
    requires a.UpdateFinished? || a.TasksClose? || a.ServerSettles? || a.WorkStarts? || a.WorkEnds?
    ensures Follows(s, OwnerStep(s, a))
  {
    match a
    case UpdateFinished =>
    case TasksClose =>
    case ServerSettles =>
    case WorkStarts =>
    case WorkEnds =>
  }

  lemma LoopFollows(s: Shell, a: Action)
    requires Inv(s) && (a.LoopEnds? || a.FencePasses? || a.LoopSettles?)
    ensures Follows(s, OwnerStep(s, a))
  {
    FollowsItself(s);
    match a
    case LoopEnds => assert Follows(s, s.(terminal := s.terminal.(loopEnded := true)));
    case FencePasses => assert Follows(s, s.(fencePassed := true));
    case LoopSettles => assert Follows(s, s.(terminal := s.terminal.(loopSettled := true)));
  }

  lemma ExitFollows(s: Shell, a: Action)
    requires Inv(s) && (a.ExitAllowed? || a.ServicesReleased?)
    ensures Follows(s, OwnerStep(s, a))
  {
    match a
    case ExitAllowed =>
    case ServicesReleased =>
  }

  lemma OwnerFollows(s: Shell, a: Action)
    requires Inv(s)
    ensures Follows(s, OwnerStep(s, a))
  {
    FollowsItself(s);
    match a
    case EnterExit(_) =>
    case Advance(_, _) =>
    case Crash(_) =>
    case Answer(_, _) =>
    case UpdateFinished => OwnersFollow(s, a);
    case TasksClose => OwnersFollow(s, a);
    case ServerSettles => OwnersFollow(s, a);
    case WorkStarts => OwnersFollow(s, a);
    case WorkEnds => OwnersFollow(s, a);
    case LoopEnds => LoopFollows(s, a);
    case FencePasses => LoopFollows(s, a);
    case LoopSettles => LoopFollows(s, a);
    case ExitAllowed => ExitFollows(s, a);
    case ServicesReleased => ExitFollows(s, a);
  }

  lemma CrashFollows(s: Shell, attempt: nat)
    requires Inv(s)
    ensures Follows(s, CrashStep(s, attempt))
  {
  }

  lemma AnswerFollows(s: Shell, id: string, saved: bool)
    requires Inv(s)
    ensures Follows(s, s.(terminal := Acknowledge(s.terminal, id, saved)))
  {
  }

  lemma StepFollows(s: Shell, a: Action)
    requires Inv(s)
    ensures Follows(s, Apply(s, a))
  {
    OwnerFollows(s, a);
    FollowsItself(s);
    match a
    case EnterExit(intent) => EnterFollows(s, intent);
    case Advance(attempt, ok) => if attempt in s.workers { AdvanceFollows(s, attempt, ok); }
    case Crash(attempt) => CrashFollows(s, attempt);
    case Answer(id, saved) => AnswerFollows(s, id, saved);
    case _ =>
  }

  lemma {:induction false} RunFollows(s: Shell, trace: seq<Action>)
    requires Inv(s)
    ensures Inv(Run(s, trace)) && Follows(s, Run(s, trace))
  {
    RunKeepsInv(s, trace);
    if trace != [] {
      var prefix := trace[..|trace| - 1];
      RunFollows(s, prefix);
      StepFollows(Run(s, prefix), trace[|trace| - 1]);
    }
  }

  lemma LeadsFollows(s: Shell, u: Shell)
    requires Inv(s) && Leads(s, u)
    ensures Inv(u) && Follows(s, u)
  {
    var trace :| u == Run(s, trace);
    RunFollows(s, trace);
  }

  // The fields a reservation or an installer watches; only callers and finishing workers move them.
  predicate SameAttempts(s: Shell, u: Shell) {
    match s
    case Shell(_, _, _, _, _, _, _, _, _, _, _, _) =>
      && u.terminal.active == s.terminal.active && u.terminal.intent == s.terminal.intent
      && u.terminal.prepared == s.terminal.prepared
      && u.outcomes == s.outcomes && u.started == s.started
      && (s.terminal.admitted ==> u.terminal.admitted)
  }

  // The same attempts, updater's report and services.
  predicate SameInstallation(s: Shell, u: Shell) {
    match s
    case Shell(_, _, _, _, _, _, _, _, _, _, _, _) =>
      SameAttempts(s, u) && u.terminal.updateSettled == s.terminal.updateSettled && u.released == s.released
  }

  lemma QuietKeepsAttempts(s: Shell, attempt: nat, ok: bool)
    requires attempt in s.workers
    ensures SameInstallation(s, QuietStep(s, attempt, ok))
  {
  }

  lemma AnnounceKeepsAttempts(s: Shell, attempt: nat)
    requires attempt in s.workers
    ensures SameInstallation(s, AnnounceStep(s, attempt))
  {
    var minted := Announce(s.terminal, s.workers[attempt].intent);
    if minted.Some? {
      assert minted.value == s.terminal.(sequence := minted.value.sequence, preferences := minted.value.preferences);
    }
  }

  lemma AdmitKeepsAttempts(s: Shell, attempt: nat)
    requires attempt in s.workers
    ensures SameInstallation(s, AdmitStep(s, attempt))
  {
    if MayAdmit(s.terminal, s.workers[attempt].intent, s.work == 0) {
      assert AdmitStep(s, attempt).outcomes == s.outcomes;
    }
  }

  lemma AdvanceKeepsAttempts(s: Shell, attempt: nat, ok: bool)
    requires attempt in s.workers && !s.workers[attempt].stage.Finishing?
    ensures SameInstallation(s, AdvanceStep(s, attempt, ok))
  {
    QuietKeepsAttempts(s, attempt, ok);
    AnnounceKeepsAttempts(s, attempt);
    AdmitKeepsAttempts(s, attempt);
    var u := AdvanceStep(s, attempt, ok);
    assert u == QuietStep(s, attempt, ok) || u == AnnounceStep(s, attempt) || u == AdmitStep(s, attempt);
  }

  lemma CrashKeepsAttempts(s: Shell, attempt: nat)
    ensures SameInstallation(s, CrashStep(s, attempt))
  {
  }

  lemma AnswerKeepsAttempts(s: Shell, id: string, saved: bool)
    ensures SameInstallation(s, s.(terminal := Acknowledge(s.terminal, id, saved)))
  {
  }

  lemma FlagKeepsAttempts(s: Shell, a: Action)
    requires
      || a.FencePasses? || a.TasksClose? || a.ServerSettles? || a.ExitAllowed? || a.ServicesReleased?
      || a.WorkStarts? || a.WorkEnds?
    ensures SameAttempts(s, OwnerStep(s, a))
    ensures OwnerStep(s, a).terminal.updateSettled == s.terminal.updateSettled
  {
    match a
    case FencePasses =>
    case TasksClose =>
    case ServerSettles =>
    case ExitAllowed =>
    case ServicesReleased =>
    case WorkStarts =>
    case WorkEnds =>
  }

  lemma LoopKeepsAttempts(s: Shell, a: Action)
    requires a.UpdateFinished? || a.LoopEnds? || a.LoopSettles?
    ensures SameAttempts(s, OwnerStep(s, a))
    ensures a != UpdateFinished ==> OwnerStep(s, a).terminal.updateSettled == s.terminal.updateSettled
  {
    match a
    case UpdateFinished =>
    case LoopEnds =>
    case LoopSettles =>
  }

  lemma OthersKeepAttempts(s: Shell, a: Action)
    requires !a.EnterExit? && !a.Advance?
    ensures SameAttempts(s, Apply(s, a))
    ensures a != UpdateFinished ==> Apply(s, a).terminal.updateSettled == s.terminal.updateSettled
  {
    match a
    case Crash(attempt) => CrashKeepsAttempts(s, attempt);
    case Answer(id, saved) => AnswerKeepsAttempts(s, id, saved);
    case UpdateFinished => LoopKeepsAttempts(s, a);
    case LoopEnds => LoopKeepsAttempts(s, a);
    case LoopSettles => LoopKeepsAttempts(s, a);
    case FencePasses => FlagKeepsAttempts(s, a);
    case TasksClose => FlagKeepsAttempts(s, a);
    case ServerSettles => FlagKeepsAttempts(s, a);
    case ExitAllowed => FlagKeepsAttempts(s, a);
    case ServicesReleased => FlagKeepsAttempts(s, a);
    case WorkStarts => FlagKeepsAttempts(s, a);
    case WorkEnds => FlagKeepsAttempts(s, a);
  }

  // ---------------------------------------------------------------- one attempt, one intent, settled work

  // Racing callers, dropped waiters and unwinding workers included.
  lemma {:induction false} PreparedMeansSettled(s: Shell)
    requires Reachable(s)
    ensures var t := s.terminal;
      && (t.prepared ==> t.admitted && t.active.None? && t.intent.Some? && s.Joined())
      && (t.prepared && t.intent != Some(Update) ==> s.serverSettled)
      && (!t.admitted && t.active.None? ==> t.intent.None?)
      && (t.updateSettled ==> t.admitted)
  {
    ReachableHasInv(s);
  }

  // At most one attempt worker is alive; it is the active one, it works for the stored intent, and
  // every earlier attempt has published its result.
  lemma {:induction false} OneAttemptAtATime(s: Shell)
    requires Reachable(s)
    ensures
      && (forall a, b :: a in s.workers && b in s.workers ==> a == b)
      && (forall a :: a in s.workers ==>
            s.terminal.active == Some(a) && s.terminal.intent == Some(s.workers[a].intent) && a !in s.outcomes)
      && (forall a: nat :: a < s.started && a !in s.workers ==> a in s.outcomes)
  {
    ReachableHasInv(s);
    assert forall a :: a in s.workers ==> a in s.workers.Keys;
  }

  // A published result never changes, however late its waiters look.
  lemma {:induction false} OutcomesAreFinal(s: Shell, u: Shell, attempt: nat)
    requires Inv(s) && Leads(s, u) && attempt in s.outcomes
    ensures attempt in u.outcomes && u.outcomes[attempt] == s.outcomes[attempt]
  {
    LeadsFollows(s, u);
  }

  // ---------------------------------------------------------------- the preference seal

  // With nothing in progress the seal is lifted; an active attempt's seal has its own phase; after
  // admission the last flush or discard stands.
  lemma {:induction false} SealAgreement(s: Shell)
    requires Reachable(s)
    ensures var t := s.terminal;
      && (!t.admitted && t.active.None? ==> s.published.None? || s.published.value.phase == Release)
      && (t.admitted ==> s.published.Some? && s.published.value.phase != Release)
      && (s.published.Some? && s.published.value.phase != Release && !t.admitted ==>
            && t.active.Some? && t.intent.Some?
            && s.published.value.phase == if t.intent == Some(Reset) then Discard else Flush)
  {
    ReachableHasInv(s);
  }

  // An observer that samples the latest event at any two moments sees (request, lifted) grow, and
  // equal ranks are the same event; an admitted seal never moves again.
  lemma {:induction false} SealIsMonotone(s: Shell, u: Shell)
    requires Inv(s) && Leads(s, u)
    ensures
      && Rank(s.published) <= Rank(u.published)
      && (Rank(s.published) == Rank(u.published) ==> s.published == u.published)
      && (s.terminal.admitted ==> u.published == s.published)
  {
    LeadsFollows(s, u);
  }

  // ---------------------------------------------------------------- the intent after admission

  // After admission the intent moves at most once; close and restart are absorbing, and so is any
  // prepared intent but an update.
  lemma {:induction false} IntentTrajectory(s: Shell, u: Shell)
    requires Inv(s) && Leads(s, u) && s.terminal.admitted
    ensures
      && u.terminal.admitted
      && IntentMoves(s.terminal.intent, u.terminal.intent)
      && (s.terminal.intent == Some(Close) || s.terminal.intent == Some(Restart) ==>
            u.terminal.intent == s.terminal.intent)
      && (s.terminal.prepared && s.terminal.intent != Some(Update) ==>
            u.terminal.prepared && u.terminal.intent == s.terminal.intent)
  {
    LeadsFollows(s, u);
  }

  lemma HandOffMovesIntent(t: TerminalState, intent: Intent)
    requires HandOff(t, intent).intent != t.intent
    ensures var h := HandOff(t, intent);
      && t.active.None? && h.active.None? && h.intent == Some(intent) && !h.prepared
      && (t.intent == Some(Update) && (intent == Restart || t.prepared) ==> t.updateSettled)
      && (t.intent == Some(Reset) ==> intent == Close && !t.prepared)
  {
  }

  lemma EnterMovesIntent(t: TerminalState, intent: Intent, next: nat)
    requires t.admitted && t.intent.Some? && Enter(t, intent, next).0.intent != t.intent
    ensures var u := Enter(t, intent, next).0;
      && t.active.None? && u.intent == Some(intent) && !u.prepared && u.active == Some(next)
      && (t.intent == Some(Update) && (intent == Restart || t.prepared) ==> t.updateSettled)
      && (t.intent == Some(Reset) ==> intent == Close && !t.prepared)
  {
    if HandOff(t, intent).intent != t.intent {
      HandOffMovesIntent(t, intent);
    }
  }

  // Workers leave an admitted intent and the updater's report as they are.
  lemma AdvanceKeepsIntent(s: Shell, attempt: nat, ok: bool)
    requires Inv(s) && s.terminal.admitted && attempt in s.workers
    ensures var u := AdvanceStep(s, attempt, ok);
      u.terminal.intent == s.terminal.intent && u.terminal.updateSettled == s.terminal.updateSettled
      && u.terminal.loopEnded == s.terminal.loopEnded && u.released == s.released
  {
    match s.workers[attempt].stage
    case Announcing =>
    case Admitting(_) =>
    case Finishing(_) =>
    case _ =>
  }

  // Each such move is one caller's handoff, happens only where the code allows it, and starts a fresh
  // attempt that must settle everything again.
  lemma {:induction false} IntentMovesOnlyByHandOff(s: Shell, a: Action)
    requires Inv(s) && s.terminal.admitted && Apply(s, a).terminal.intent != s.terminal.intent
    ensures a.EnterExit? && s.terminal.active.None? && Apply(s, a).terminal.intent == Some(a.intent)
    ensures s.terminal.intent == Some(Update) && (a.intent == Restart || s.terminal.prepared) ==>
              s.terminal.updateSettled
    ensures s.terminal.intent == Some(Reset) ==> a.intent == Close && !s.terminal.prepared
    ensures !Apply(s, a).terminal.prepared && Apply(s, a).terminal.active == Some(s.started)
  {
    match a
    case EnterExit(intent) =>
      EntryHasTerminal(s, intent, Enter(s.terminal, intent, s.started));
      EnterMovesIntent(s.terminal, intent, s.started);
    case Advance(attempt, ok) =>
      if attempt in s.workers { AdvanceKeepsIntent(s, attempt, ok); }
      assert false;
    case _ =>
      assert false;
  }

  lemma {:induction false} RestartIsFinal(s: Shell, u: Shell)
    requires Inv(s) && Leads(s, u) && RestartReady(s.terminal, s.exitAllowed)
    ensures RestartReady(u.terminal, u.exitAllowed)
  {
    LeadsFollows(s, u);
  }

  // ---------------------------------------------------------------- an event loop that ends first

  // When the loop ends before admission, nothing is ever admitted, every attempt fails, every later
  // caller is refused, the updater cannot report, and no restart is carried out.
  lemma {:induction false} LoopEndedBeforeAdmission(s: Shell, u: Shell, intent: Intent)
    requires Inv(s) && Leads(s, u) && s.terminal.loopEnded && !s.terminal.admitted
    ensures
      && !u.terminal.admitted
      && (forall k :: k in u.outcomes ==> !u.outcomes[k])
      && Enter(u.terminal, intent, u.started).1 == Refused(Incomplete)
      && !MayFinishUpdate(u.terminal)
      && !RestartReady(u.terminal, u.exitAllowed)
  {
    LeadsFollows(s, u);
  }

  // Exit is never allowed while accepted work or the API server is still running.
  lemma {:induction false} ExitMeansSettled(s: Shell)
    requires Reachable(s)
    ensures s.exitAllowed ==> s.Joined() && s.serverSettled
  {
    ReachableHasInv(s);
  }
}
