/**
 The development reset beside the terminal protocol: reservations, the attempt mutex, the request
 flag, ingress closure and the one transfer of root authority, interleaved with every terminal run.
 */
module ResetHandoff {
  import opened Basics
  import opened Terminal
  import opened TerminalRuns
  import opened TerminalTheorems
  import opened NativeResetOwner

  datatype RequestStage =
    | Queued                    // accepted; waiting for the attempt mutex
    | Locked                    // holds the mutex; about to run the preflight
    | Entering                  // preflight passed; about to call `prepare_exit`
    | Joining(attempt: nat)     // waiting for that attempt's result
    | Proved                    // `prepare_exit` returned; about to set `requested`
    | Won                       // `requested` is set and the mutex released
    | Exiting                   // exit allowed; about to call the exit callback
    | Leaving                   // nothing left but the reservation's drop

  predicate Critical(stage: RequestStage) {
    stage.Locked? || stage.Entering? || stage.Joining? || stage.Proved?
  }

  predicate Winner(stage: RequestStage) {
    stage.Won? || stage.Exiting?
  }

  datatype System = System(
    shell: Shell,
    requests: map<nat, RequestStage>,
    accepted: nat,
    activeRequests: int,
    holder: Option<nat>,
    pin: bool,
    requested: bool,
    transferred: bool,
    ingressClosed: bool,
    quiesced: bool,
    callbacks: nat,
    transfers: nat)

  const FRESH := System(START, map[], 0, 0, None, false, false, false, false, false, 0, 0)

  datatype Move =
    | ShellMoves(action: Action)
    | RequestReset
    | Proceed(id: nat, allowed: bool, pinned: bool, marked: bool)
    | DropRequest(id: nat)
    | CloseIngress
    | QuiesceReturns
    | TakeAfterExit

  function AtStage(s: System, id: nat, stage: RequestStage): System {
    s.(requests := s.requests[id := stage])
  }

  // Leaving `prepare` early gives the mutex back.
  function Leave(s: System, id: nat): System {
    AtStage(s, id, Leaving).(holder := None)
  }

  function PreflightStep(s: System, id: nat, allowed: bool, pinned: bool, marked: bool): System {
    if s.requested || !allowed || (!s.pin && !pinned) then Leave(s, id)
    else if !marked then Leave(s, id).(pin := true)
    else AtStage(s, id, Entering).(pin := true)
  }

  function Entered(u: System, id: nat, entry: Entry): System {
    match entry
    case Refused(_) => Leave(u, id)
    case Ready => AtStage(u, id, Proved)
    case Join(attempt) => AtStage(u, id, Joining(attempt))
    case Spawn(attempt) => AtStage(u, id, Joining(attempt))
  }

  function EnterReset(s: System, id: nat): System {
    Entered(s.(shell := EnterStep(s.shell, Reset)), id, Enter(s.shell.terminal, Reset, s.shell.started).1)
  }

  function JoinStep(s: System, id: nat, attempt: nat): System {
    if attempt !in s.shell.outcomes then s
    else if s.shell.outcomes[attempt] then AtStage(s, id, Proved)
    else Leave(s, id)
  }

  function ProceedStep(s: System, id: nat, allowed: bool, pinned: bool, marked: bool): System
    requires id in s.requests
  {
    match s.requests[id]
    case Queued => if s.holder.None? then AtStage(s, id, Locked).(holder := Some(id)) else s
    case Locked => PreflightStep(s, id, allowed, pinned, marked)
    case Entering => EnterReset(s, id)
    case Joining(attempt) => JoinStep(s, id, attempt)
    case Proved => AtStage(s, id, Won).(requested := true, holder := None)
    case Won => AtStage(s, id, Exiting).(shell := Apply(s.shell, ExitAllowed))
    case Exiting => AtStage(s, id, Leaving).(callbacks := s.callbacks + 1)
    case Leaving => s
  }

  function Step(s: System, m: Move): System {
    match m
    case ShellMoves(action) => s.(shell := Apply(s.shell, action))
    case RequestReset =>
      if s.ingressClosed then s
      else AtStage(s, s.accepted, Queued).(accepted := s.accepted + 1, activeRequests := s.activeRequests + 1)
    case Proceed(id, allowed, pinned, marked) =>
      if id in s.requests then ProceedStep(s, id, allowed, pinned, marked) else s
    case DropRequest(id) =>
      if id !in s.requests then s
      else s.(
        requests := s.requests - {id},
        activeRequests := s.activeRequests - 1,
        holder := if s.holder == Some(id) then None else s.holder)
    case CloseIngress => s.(ingressClosed := true)
    case QuiesceReturns => if s.ingressClosed && s.activeRequests == 0 then s.(quiesced := true) else s
    case TakeAfterExit =>
      if !s.requested || s.transferred || s.activeRequests != 0 then s
      else s.(transferred := true, transfers := s.transfers + 1, pin := false)
  }

  function Play(s: System, moves: seq<Move>): System {
    if moves == [] then s else Step(Play(s, moves[..|moves| - 1]), moves[|moves| - 1])
  }

  function FlagsOf(s: System): ResetFlags {
    ResetFlags(s.pin, s.requested, s.transferred, s.ingressClosed, s.activeRequests)
  }

  // What the owner's methods make of the flags in one move.
  function OwnerFlags(s: System, m: Move): ResetFlags {
    var f := FlagsOf(s);
    match m
    case RequestReset => Reserved(f)
    case DropRequest(id) => if id in s.requests then Dropped(f) else f
    case CloseIngress => Closed(f)
    case TakeAfterExit => Taken(f)
    case Proceed(id, allowed, pinned, _) =>
      if id in s.requests then StageFlags(f, s.requests[id], allowed, pinned) else f
    case _ => f
  }

  // What they make of the flags when a request at `stage` proceeds.
  function StageFlags(f: ResetFlags, stage: RequestStage, allowed: bool, pinned: bool): ResetFlags {
    match stage
    case Locked => Pinned(f, allowed, pinned)
    case Proved => Marked(f)
    case _ => f
  }

  lemma EnterKeepsFlags(s: System, id: nat)
    ensures FlagsOf(EnterReset(s, id)) == FlagsOf(s)
    ensures EnterReset(s, id).transfers == s.transfers && EnterReset(s, id).callbacks == s.callbacks
  {
    match Enter(s.shell.terminal, Reset, s.shell.started).1
    case Refused(_) =>
    case Ready =>
    case Join(_) =>
    case Spawn(_) =>
  }

  lemma PreflightMovesFlags(s: System, id: nat, allowed: bool, pinned: bool, marked: bool)
    ensures FlagsOf(PreflightStep(s, id, allowed, pinned, marked)) == Pinned(FlagsOf(s), allowed, pinned)
    ensures PreflightStep(s, id, allowed, pinned, marked).transfers == s.transfers
  {
  }

  lemma MarkMovesFlags(s: System, id: nat)
    ensures var u := AtStage(s, id, Won).(requested := true, holder := None);
      FlagsOf(u) == Marked(FlagsOf(s)) && u.transfers == s.transfers
  {
  }

  lemma ProceedMovesFlags(s: System, id: nat, allowed: bool, pinned: bool, marked: bool)
    requires id in s.requests
    ensures FlagsOf(ProceedStep(s, id, allowed, pinned, marked))
         == StageFlags(FlagsOf(s), s.requests[id], allowed, pinned)
    ensures ProceedStep(s, id, allowed, pinned, marked).transfers == s.transfers
  {
    match s.requests[id]
    case Queued => WaitingMovesFlags(s, id, allowed, pinned, marked);
    case Locked => PreflightMovesFlags(s, id, allowed, pinned, marked);
    case Entering => EnterKeepsFlags(s, id);
    case Joining(attempt) => JoiningMovesFlags(s, id, attempt);
    case Proved => MarkMovesFlags(s, id);
    case Won => WinnerMovesFlags(s, id, allowed, pinned, marked);
    case Exiting => WinnerMovesFlags(s, id, allowed, pinned, marked);
    case Leaving => WaitingMovesFlags(s, id, allowed, pinned, marked);
  }

  lemma WaitingMovesFlags(s: System, id: nat, allowed: bool, pinned: bool, marked: bool)
    requires id in s.requests && (s.requests[id].Queued? || s.requests[id].Leaving?)
    ensures var u := ProceedStep(s, id, allowed, pinned, marked); FlagsOf(u) == FlagsOf(s) && u.transfers == s.transfers
  {
    match s.requests[id]
    case Queued =>
    case Leaving =>
  }

  lemma JoiningMovesFlags(s: System, id: nat, attempt: nat)
    ensures var u := JoinStep(s, id, attempt); FlagsOf(u) == FlagsOf(s) && u.transfers == s.transfers
  {
  }

  lemma WinnerMovesFlags(s: System, id: nat, allowed: bool, pinned: bool, marked: bool)
    requires id in s.requests && Winner(s.requests[id])
    ensures var u := ProceedStep(s, id, allowed, pinned, marked); FlagsOf(u) == FlagsOf(s) && u.transfers == s.transfers
  {
    match s.requests[id]
    case Won =>
    case Exiting =>
  }

  // Every move changes the flags exactly as the owner's method for it does.
  lemma MovesAreTheOwners(s: System, m: Move)
    ensures FlagsOf(Step(s, m)) == OwnerFlags(s, m)
    ensures m != TakeAfterExit ==> Step(s, m).transfers == s.transfers
  {
    match m
    case Proceed(id, allowed, pinned, marked) =>
      if id in s.requests { ProceedMovesFlags(s, id, allowed, pinned, marked); }
    case _ =>
  }

  // ---------------------------------------------------------------- the invariant

  predicate ResetPrepared(s: Shell) {
    s.terminal.admitted && s.terminal.prepared && s.terminal.intent == Some(Reset)
  }

  // An attempt this reset waits for: while it runs it is a reset, and if it succeeded, the reset stands.
  ghost predicate ResetAttempt(s: Shell, attempt: nat) {
    match s
    case Shell(_, _, _, _, _, _, _, _, _, _, _, _) =>
      && attempt < s.started
      && (s.terminal.active == Some(attempt) ==> s.terminal.intent == Some(Reset))
      && (attempt in s.outcomes && s.outcomes[attempt] ==> ResetPrepared(s))
  }

  ghost predicate StageAgrees(s: System, stage: RequestStage) {
    match stage
    case Entering => s.pin && !s.requested
    case Joining(attempt) => s.pin && !s.requested && ResetAttempt(s.shell, attempt)
    case Proved => s.pin && !s.requested && ResetPrepared(s.shell)
    case Won => s.requested && s.callbacks == 0
    case Exiting => s.requested && s.callbacks == 0
    case _ => true
  }

  ghost predicate RequestsAgree(s: System) {
    match s
    case System(_, _, _, _, _, _, _, _, _, _, _, _) =>
      && s.activeRequests == |s.requests.Keys|
      && (forall id :: id in s.requests ==> id < s.accepted && StageAgrees(s, s.requests[id]))
      && (forall id :: id in s.requests && Critical(s.requests[id]) ==> s.holder == Some(id))
      && (s.holder.Some? ==> s.holder.value in s.requests && Critical(s.requests[s.holder.value]))
      && (forall a, b ::
            a in s.requests && b in s.requests && Winner(s.requests[a]) && Winner(s.requests[b]) ==> a == b)
  }

  ghost predicate HandoffAgrees(s: System) {
    match s
    case System(_, _, _, _, _, _, _, _, _, _, _, _) =>
      && (s.requested ==> ResetPrepared(s.shell))
      && (s.requested && !s.transferred ==> s.pin)
      && (s.transferred ==> s.requested && !s.pin)
      && s.transfers == (if s.transferred then 1 else 0)
      && s.callbacks <= 1
      && (s.callbacks == 1 ==> s.requested)
      && (s.quiesced ==> s.ingressClosed && s.activeRequests == 0)
  }

  ghost predicate Consistent(s: System) {
    match s
    case System(_, _, _, _, _, _, _, _, _, _, _, _) => Inv(s.shell) && RequestsAgree(s) && HandoffAgrees(s)
  }

  lemma ResetPreparedStays(s: Shell, a: Action)
    requires Inv(s) && ResetPrepared(s)
    ensures ResetPrepared(Apply(s, a))
  {
    StepFollows(s, a);
  }

  lemma FinishKeepsResetAttempt(s: Shell, attempt: nat, ok: bool, k: nat)
    requires Inv(s) && attempt in s.workers && s.workers[attempt].stage == Finishing(ok) && ResetAttempt(s, k)
    ensures ResetAttempt(FinishStep(s, attempt, ok), k)
  {
    assert s.terminal.active == Some(attempt);
  }

  lemma HandOffKeepsResetAttempt(s: Shell, intent: Intent, k: nat)
    requires Inv(s) && ResetAttempt(s, k)
    ensures ResetAttempt(s.(terminal := HandOff(s.terminal, intent)), k)
  {
  }

  lemma SpawnKeepsResetAttempt(h: Shell, intent: Intent, k: nat)
    requires ResetAttempt(h, k) && !h.terminal.prepared
    ensures ResetAttempt(SpawnStep(h, intent), k)
  {
  }

  lemma ShapeKeepsResetAttempt(s: Shell, intent: Intent, h: TerminalState, u: Shell, k: nat)
    requires Inv(s) && h == HandOff(s.terminal, intent) && EnterShape(s, intent, h, u) && ResetAttempt(s, k)
    ensures ResetAttempt(u, k)
  {
    HandOffKeepsResetAttempt(s, intent, k);
    if TurnedAway(s.terminal, intent) {
    } else if !Takes(h, intent) {
    } else if h.prepared || h.active.Some? {
    } else {
      SpawnKeepsResetAttempt(s.(terminal := h), intent, k);
    }
  }

  lemma SameAttemptsKeep(s: Shell, u: Shell, k: nat)
    requires ResetAttempt(s, k) && SameAttempts(s, u)
    ensures ResetAttempt(u, k)
  {
  }

  lemma AdvanceKeepsResetAttempt(s: Shell, attempt: nat, ok: bool, k: nat)
    requires Inv(s) && attempt in s.workers && ResetAttempt(s, k)
    ensures ResetAttempt(AdvanceStep(s, attempt, ok), k)
  {
    if s.workers[attempt].stage.Finishing? {
      FinishKeepsResetAttempt(s, attempt, s.workers[attempt].stage.ok, k);
    } else {
      AdvanceKeepsAttempts(s, attempt, ok);
      SameAttemptsKeep(s, AdvanceStep(s, attempt, ok), k);
    }
  }

  lemma EnterKeepsResetAttempt(s: Shell, intent: Intent, k: nat)
    requires Inv(s) && ResetAttempt(s, k)
    ensures ResetAttempt(EnterStep(s, intent), k)
  {
    EnterHasShape(s, intent);
    ShapeKeepsResetAttempt(s, intent, HandOff(s.terminal, intent), EnterStep(s, intent), k);
  }

  lemma ResetAttemptStays(s: Shell, a: Action, k: nat)
    requires Inv(s) && ResetAttempt(s, k)
    ensures ResetAttempt(Apply(s, a), k)
  {
    match a
    case EnterExit(intent) => EnterKeepsResetAttempt(s, intent, k);
    case Advance(attempt, ok) => if attempt in s.workers { AdvanceKeepsResetAttempt(s, attempt, ok, k); }
    case _ =>
      OthersKeepAttempts(s, a);
      SameAttemptsKeep(s, Apply(s, a), k);
  }

  lemma ShellMoveKeeps(s: System, a: Action)
    requires Consistent(s)
    ensures Consistent(s.(shell := Apply(s.shell, a)))
  {
    var u := s.(shell := Apply(s.shell, a));
    StepKeepsInv(s.shell, a);
    if ResetPrepared(s.shell) {
      ResetPreparedStays(s.shell, a);
    }
    forall id | id in s.requests ensures id < u.accepted && StageAgrees(u, u.requests[id]) {
      if s.requests[id].Joining? {
        ResetAttemptStays(s.shell, a, s.requests[id].attempt);
      }
    }
  }

  // The entry `prepare_exit` gives a reset caller names an attempt, or finds the reset prepared.
  lemma EntryIsReset(s: Shell)
    requires Inv(s)
    ensures EntryAgrees(EnterStep(s, Reset), Enter(s.terminal, Reset, s.started).1)
  {
    EnterKeepsInv(s, Reset);
  }

  // A request that moves to `stage` and takes or gives back the mutex as that stage says.
  lemma Restaged(s: System, u: System, id: nat, stage: RequestStage)
    requires RequestsAgree(s) && id in s.requests && StageAgrees(u, stage)
    requires u.requests == s.requests[id := stage] && u.accepted == s.accepted && u.activeRequests == s.activeRequests
    requires forall k :: k in s.requests && k != id ==> StageAgrees(u, s.requests[k])
    requires if Critical(stage) then u.holder == Some(id) && (s.holder == None || s.holder == Some(id))
             else u.holder == (if s.holder == Some(id) then None else s.holder)
    requires Winner(stage) ==> forall k :: k in s.requests && Winner(s.requests[k]) ==> k == id
    ensures RequestsAgree(u)
  {
    assert u.requests.Keys == s.requests.Keys;
  }

  // Changes outside the handoff's own flags leave every stage as it stands.
  lemma StagesStand(s: System, u: System)
    requires RequestsAgree(s)
    requires u.shell == s.shell && u.pin == s.pin && u.requested == s.requested && u.callbacks == s.callbacks
    ensures forall k :: k in s.requests ==> StageAgrees(u, s.requests[k])
  {
    forall k | k in s.requests ensures StageAgrees(u, s.requests[k]) {
      assert StageAgrees(s, s.requests[k]);
    }
  }

  // The holder of the mutex moves on, and keeps it.
  lemma HolderMoves(s: System, id: nat, stage: RequestStage)
    requires Consistent(s) && id in s.requests && Critical(s.requests[id])
    requires StageAgrees(s, stage) && Critical(stage)
    ensures Consistent(AtStage(s, id, stage))
  {
    var u := AtStage(s, id, stage);
    StagesStand(s, u);
    Restaged(s, u, id, stage);
  }

  lemma HolderLeaves(s: System, id: nat)
    requires Consistent(s) && id in s.requests && Critical(s.requests[id])
    ensures Consistent(Leave(s, id))
  {
    var u := Leave(s, id);
    StagesStand(s, u);
    Restaged(s, u, id, Leaving);
  }

  lemma PinKeeps(s: System)
    requires Consistent(s) && !s.requested
    ensures Consistent(s.(pin := true))
  {
    var u := s.(pin := true);
    forall id | id in u.requests ensures StageAgrees(u, u.requests[id]) {
      assert StageAgrees(s, s.requests[id]);
    }
  }

  lemma PreflightKeeps(s: System, id: nat, allowed: bool, pinned: bool, marked: bool)
    requires Consistent(s) && id in s.requests && s.requests[id].Locked?
    ensures Consistent(PreflightStep(s, id, allowed, pinned, marked))
  {
    if s.requested || !allowed || (!s.pin && !pinned) {
      HolderLeaves(s, id);
    } else {
      PinKeeps(s);
      if marked {
        HolderMoves(s.(pin := true), id, Entering);
      } else {
        HolderLeaves(s.(pin := true), id);
      }
    }
  }

  lemma EnterResetKeeps(s: System, id: nat)
    requires Consistent(s) && id in s.requests && s.requests[id].Entering?
    ensures Consistent(EnterReset(s, id))
  {
    assert StageAgrees(s, s.requests[id]);
    ShellMoveKeeps(s, EnterExit(Reset));
    EntryIsReset(s.shell);
    EnteredKeeps(s.(shell := EnterStep(s.shell, Reset)), id, Enter(s.shell.terminal, Reset, s.shell.started).1);
  }

  // What the caller of `prepare_exit` learnt agrees with the shell it left.
  ghost predicate EntryAgrees(s: Shell, entry: Entry) {
    match entry
    case Refused(_) => true
    case Ready => ResetPrepared(s)
    case Join(k) => ResetAttempt(s, k)
    case Spawn(k) => ResetAttempt(s, k)
  }

  lemma EnteredKeeps(u: System, id: nat, entry: Entry)
    requires Consistent(u) && id in u.requests && Critical(u.requests[id]) && u.pin && !u.requested
    requires EntryAgrees(u.shell, entry)
    ensures Consistent(Entered(u, id, entry))
  {
    match entry
    case Refused(_) => HolderLeaves(u, id);
    case Ready => HolderMoves(u, id, Proved);
    case Join(k) => HolderMoves(u, id, Joining(k));
    case Spawn(k) => HolderMoves(u, id, Joining(k));
  }

  lemma MarkKeeps(s: System, id: nat)
    requires Consistent(s) && id in s.requests && s.requests[id].Proved?
    ensures Consistent(AtStage(s, id, Won).(requested := true, holder := None))
  {
    var u := AtStage(s, id, Won).(requested := true, holder := None);
    assert StageAgrees(s, s.requests[id]) && s.holder == Some(id);
    forall k | k in s.requests && k != id ensures StageAgrees(u, s.requests[k]) && !Winner(s.requests[k]) {
      assert StageAgrees(s, s.requests[k]);
    }
    Restaged(s, u, id, Won);
  }

  lemma ExitingKeeps(s: System, id: nat)
    requires Consistent(s) && id in s.requests && Winner(s.requests[id])
    ensures Consistent(AtStage(s, id, Exiting))
  {
    var u := AtStage(s, id, Exiting);
    assert StageAgrees(s, s.requests[id]);
    StagesStand(s, u);
    Restaged(s, u, id, Exiting);
  }

  lemma CallbackKeeps(s: System, id: nat)
    requires Consistent(s) && id in s.requests && Winner(s.requests[id])
    ensures Consistent(AtStage(s, id, Leaving).(callbacks := s.callbacks + 1))
  {
    var u := AtStage(s, id, Leaving).(callbacks := s.callbacks + 1);
    assert StageAgrees(s, s.requests[id]);
    forall k | k in s.requests && k != id ensures StageAgrees(u, s.requests[k]) {
      assert StageAgrees(s, s.requests[k]);
    }
    Restaged(s, u, id, Leaving);
  }

  lemma LockKeeps(s: System, id: nat)
    requires Consistent(s) && id in s.requests && s.requests[id].Queued? && s.holder.None?
    ensures Consistent(AtStage(s, id, Locked).(holder := Some(id)))
  {
    var u := AtStage(s, id, Locked).(holder := Some(id));
    StagesStand(s, u);
    Restaged(s, u, id, Locked);
  }

  lemma JoiningKeeps(s: System, id: nat)
    requires Consistent(s) && id in s.requests && s.requests[id].Joining?
    ensures Consistent(JoinStep(s, id, s.requests[id].attempt))
  {
    assert StageAgrees(s, s.requests[id]);
    if s.requests[id].attempt in s.shell.outcomes {
      if s.shell.outcomes[s.requests[id].attempt] {
        HolderMoves(s, id, Proved);
      } else {
        HolderLeaves(s, id);
      }
    }
  }

  lemma AllowKeeps(s: System, id: nat)
    requires Consistent(s) && id in s.requests && s.requests[id].Won?
    ensures Consistent(AtStage(s, id, Exiting).(shell := Apply(s.shell, ExitAllowed)))
  {
    ShellMoveKeeps(s, ExitAllowed);
    ExitingKeeps(s.(shell := Apply(s.shell, ExitAllowed)), id);
  }

  lemma ProceedKeeps(s: System, id: nat, allowed: bool, pinned: bool, marked: bool)
    requires Consistent(s) && id in s.requests
    ensures Consistent(ProceedStep(s, id, allowed, pinned, marked))
  {
    assert StageAgrees(s, s.requests[id]);
    match s.requests[id]
    case Queued => if s.holder.None? { LockKeeps(s, id); }
    case Locked => PreflightKeeps(s, id, allowed, pinned, marked);
    case Entering => EnterResetKeeps(s, id);
    case Joining(_) => JoiningKeeps(s, id);
    case Proved => MarkKeeps(s, id);
    case Won => AllowKeeps(s, id);
    case Exiting => CallbackKeeps(s, id);
    case Leaving =>
  }

  lemma RequestKeeps(s: System)
    requires Consistent(s)
    ensures Consistent(Step(s, RequestReset))
  {
    if !s.ingressClosed {
      ReserveKeeps(s);
    }
  }

  lemma ReserveKeeps(s: System)
    requires Consistent(s) && !s.ingressClosed
    ensures Consistent(
              AtStage(s, s.accepted, Queued).(accepted := s.accepted + 1, activeRequests := s.activeRequests + 1))
  {
    var u := AtStage(s, s.accepted, Queued).(accepted := s.accepted + 1, activeRequests := s.activeRequests + 1);
    StagesStand(s, u);
    ReservedAgrees(s, u);
  }

  lemma ReservedAgrees(s: System, u: System)
    requires RequestsAgree(s) && forall k :: k in s.requests ==> StageAgrees(u, s.requests[k])
    requires u.requests == s.requests[s.accepted := Queued] && u.holder == s.holder
    requires u.accepted == s.accepted + 1 && u.activeRequests == s.activeRequests + 1
    ensures RequestsAgree(u)
  {
    assert s.accepted !in s.requests;
    assert u.requests.Keys == s.requests.Keys + {s.accepted};
    assert !Critical(Queued) && !Winner(Queued);
  }

  lemma DroppedAgrees(s: System, u: System, id: nat)
    requires RequestsAgree(s) && forall k :: k in s.requests ==> StageAgrees(u, s.requests[k])
    requires id in s.requests && u.requests == s.requests - {id} && u.accepted == s.accepted
    requires u.activeRequests == s.activeRequests - 1
    requires u.holder == if s.holder == Some(id) then None else s.holder
    ensures RequestsAgree(u)
  {
    assert u.requests.Keys == s.requests.Keys - {id};
  }

  lemma DropKeeps(s: System, id: nat)
    requires Consistent(s)
    ensures Consistent(Step(s, DropRequest(id)))
  {
    var u := Step(s, DropRequest(id));
    if id in s.requests {
      StagesStand(s, u);
      DroppedAgrees(s, u, id);
    }
  }

  lemma OwnerKeeps(s: System, m: Move)
    requires Consistent(s) && (m.CloseIngress? || m.QuiesceReturns? || m.TakeAfterExit?)
    ensures Consistent(Step(s, m))
  {
    var u := Step(s, m);
    forall k | k in u.requests ensures StageAgrees(u, u.requests[k]) {
      assert StageAgrees(s, s.requests[k]);
      assert m.TakeAfterExit? && u != s ==> |s.requests.Keys| == 0;
    }
  }

  lemma StepKeeps(s: System, m: Move)
    requires Consistent(s)
    ensures Consistent(Step(s, m))
  {
    match m
    case ShellMoves(a) => ShellMoveKeeps(s, a);
    case RequestReset => RequestKeeps(s);
    case Proceed(id, allowed, pinned, marked) =>
      if id in s.requests { ProceedKeeps(s, id, allowed, pinned, marked); }
    case DropRequest(id) => DropKeeps(s, id);
    case _ => OwnerKeeps(s, m);
  }

  lemma {:induction false} PlayKeeps(s: System, moves: seq<Move>)
    requires Consistent(s)
    ensures Consistent(Play(s, moves))
  {
    if moves != [] {
      PlayKeeps(s, moves[..|moves| - 1]);
      StepKeeps(Play(s, moves[..|moves| - 1]), moves[|moves| - 1]);
    }
  }

  // ---------------------------------------------------------------- the theorems

  ghost predicate PlaysTo(s: System, u: System) {
    exists moves :: u == Play(s, moves)
  }

  ghost predicate Played(s: System) {
    PlaysTo(FRESH, s)
  }

  lemma PlayedIsConsistent(s: System)
    requires Played(s)
    ensures Consistent(s)
  {
    var moves :| s == Play(FRESH, moves);
    PlayKeeps(FRESH, moves);
  }

  lemma UncountedIsEmpty(s: System)
    requires Consistent(s)
    ensures s.activeRequests == 0 <==> s.requests == map[]
  {
    if s.activeRequests == 0 {
      assert s.requests.Keys == {};
    }
  }

  // The counter is the number of live reservations in every run, so its decrement never underflows;
  // the exit callback fires at most once over all requests.
  lemma {:induction false} ReservationsAreCounted(s: System)
    requires Played(s)
    ensures
      && s.activeRequests == |s.requests.Keys| >= 0
      && (s.requests != map[] ==> s.activeRequests > 0)
      && s.callbacks <= 1
  {
    PlayedIsConsistent(s);
    UncountedIsEmpty(s);
  }

  // Root authority leaves at most once, with its pin, and only after a reset was prepared: task
  // admission closed, accepted work joined and the API server settled.
  lemma {:induction false} TransferIsProven(s: System)
    requires Played(s)
    ensures
      && s.transfers <= 1
      && (s.transferred <==> s.transfers == 1)
      && (s.transferred ==> s.requested && !s.pin)
      && (s.requested ==> ResetPrepared(s.shell) && s.shell.Joined() && s.shell.serverSettled)
  {
    PlayedIsConsistent(s);
  }

  // The one move that transfers takes the pin with it and finds no live reservation.
  lemma TransferTakesThePin(s: System, m: Move)
    requires Consistent(s) && Step(s, m).transfers != s.transfers
    ensures m == TakeAfterExit && s.requested && !s.transferred && s.pin && !Step(s, m).pin && s.requests == map[]
  {
    MovesAreTheOwners(s, m);
    UncountedIsEmpty(s);
  }

  ghost predicate Quiet(s: System) {
    match s
    case System(_, _, _, _, _, _, _, _, _, _, _, _) =>
      s.quiesced && s.ingressClosed && s.activeRequests == 0 && s.requests == map[]
  }

  lemma QuietStep(s: System, m: Move)
    requires Quiet(s)
    ensures Quiet(Step(s, m)) && Step(s, m).callbacks == s.callbacks
  {
    match m
    case ShellMoves(_) =>
    case RequestReset =>
    case Proceed(_, _, _, _) =>
    case DropRequest(_) =>
    case CloseIngress =>
    case QuiesceReturns =>
    case TakeAfterExit =>
  }

  lemma {:induction false} QuietStays(s: System, moves: seq<Move>)
    requires Quiet(s)
    ensures Quiet(Play(s, moves)) && Play(s, moves).callbacks == s.callbacks
  {
    if moves != [] {
      QuietStays(s, moves[..|moves| - 1]);
      QuietStep(Play(s, moves[..|moves| - 1]), moves[|moves| - 1]);
    }
  }

  // Once quiescence has been reported no reservation exists again and no further callback fires.
  lemma {:induction false} QuiescenceIsFinal(s: System, u: System)
    requires Consistent(s) && s.quiesced && PlaysTo(s, u)
    ensures u.activeRequests == 0 && u.requests == map[] && u.callbacks == s.callbacks
  {
    var moves :| u == Play(s, moves);
    UncountedIsEmpty(s);
    QuietStays(s, moves);
  }

  lemma {:induction false} RequestedStays(s: System, moves: seq<Move>)
    requires s.requested
    ensures Play(s, moves).requested
  {
    if moves != [] {
      RequestedStays(s, moves[..|moves| - 1]);
      MovesAreTheOwners(Play(s, moves[..|moves| - 1]), moves[|moves| - 1]);
    }
  }

  // A requested reset excludes the ordinary restart in every continuation.
  lemma {:induction false} RequestedResetExcludesRestart(s: System, u: System)
    requires Consistent(s) && s.requested && PlaysTo(s, u)
    ensures u.requested && !RestartReady(u.shell.terminal, u.shell.exitAllowed)
  {
    var moves :| u == Play(s, moves);
    RequestedStays(s, moves);
    PlayKeeps(s, moves);
  }

  // ---------------------------------------------------------------- the preflight

  // Stages behind a passed preflight.
  predicate Past(stage: RequestStage) {
    stage.Entering? || stage.Joining? || stage.Proved? || stage.Won? || stage.Exiting?
  }

  // A request gets past its preflight exactly when the owner's check passes.
  lemma PreflightIsTheOwners(s: System, id: nat, allowed: bool, pinned: bool, marked: bool)
    requires id in s.requests && s.requests[id] == Locked
    ensures var u := Step(s, Proceed(id, allowed, pinned, marked));
      && u.requests.Keys == s.requests.Keys
      && (u.requests[id] == Entering <==> !s.requested && allowed && (s.pin || pinned) && marked)
      && u.pin == (s.pin || (!s.requested && allowed && pinned))
      && (u.requests[id] != Entering ==> u.requests[id] == Leaving && u.holder == None)
  {
    assert Step(s, Proceed(id, allowed, pinned, marked)) == PreflightStep(s, id, allowed, pinned, marked);
  }

  // Move `j` is the one in which request `id` passed its preflight.
  ghost predicate PassedAt(moves: seq<Move>, j: nat, id: nat) {
    if j < |moves| then PassesNow(Play(FRESH, moves[..j]), moves[j], id) else false
  }

  ghost predicate PassesNow(s: System, m: Move, id: nat) {
    match m
    case Proceed(k, allowed, pinned, marked) =>
      && k == id && id in s.requests && s.requests[id] == Locked
      && !s.requested && allowed && (s.pin || pinned) && marked
    case _ => false
  }

  lemma PreflightGetsPast(s: System, id: nat, allowed: bool, pinned: bool, marked: bool)
    ensures var u := PreflightStep(s, id, allowed, pinned, marked);
      && id in u.requests
      && (Past(u.requests[id]) ==> Passes(FlagsOf(s), allowed, pinned, marked))
  {
  }

  lemma ProceedGetsPast(s: System, id: nat, allowed: bool, pinned: bool, marked: bool)
    requires id in s.requests && !Past(s.requests[id])
    ensures var u := ProceedStep(s, id, allowed, pinned, marked);
      && id in u.requests
      && (Past(u.requests[id]) ==> s.requests[id] == Locked && Passes(FlagsOf(s), allowed, pinned, marked))
  {
    match s.requests[id]
    case Queued => assert !Past(Locked);
    case Locked => PreflightGetsPast(s, id, allowed, pinned, marked);
    case Leaving =>
  }

  // Every request but `id` stands where it stood.
  ghost predicate SameOthers(s: System, u: System, id: nat) {
    match s
    case System(_, _, _, _, _, _, _, _, _, _, _, _) =>
      id in u.requests && u.requests == s.requests[id := u.requests[id]]
  }

  lemma EnterKeepsOthers(s: System, id: nat)
    ensures SameOthers(s, EnterReset(s, id), id)
  {
    match Enter(s.shell.terminal, Reset, s.shell.started).1
    case Refused(_) =>
    case Ready =>
    case Join(_) =>
    case Spawn(_) =>
  }

  lemma PreflightKeepsOthers(s: System, id: nat, allowed: bool, pinned: bool, marked: bool)
    ensures SameOthers(s, PreflightStep(s, id, allowed, pinned, marked), id)
  {
  }

  lemma WaitingKeepsOthers(s: System, id: nat, allowed: bool, pinned: bool, marked: bool)
    requires id in s.requests && (s.requests[id].Queued? || s.requests[id].Joining? || s.requests[id].Leaving?)
    ensures SameOthers(s, ProceedStep(s, id, allowed, pinned, marked), id)
  {
    match s.requests[id]
    case Queued =>
    case Joining(_) =>
    case Leaving =>
  }

  lemma WinningKeepsOthers(s: System, id: nat, allowed: bool, pinned: bool, marked: bool)
    requires id in s.requests && (s.requests[id].Proved? || Winner(s.requests[id]))
    ensures SameOthers(s, ProceedStep(s, id, allowed, pinned, marked), id)
  {
    match s.requests[id]
    case Proved =>
    case Won =>
    case Exiting =>
  }

  lemma ProceedKeepsOthers(s: System, id: nat, allowed: bool, pinned: bool, marked: bool)
    requires id in s.requests
    ensures SameOthers(s, ProceedStep(s, id, allowed, pinned, marked), id)
  {
    match s.requests[id]
    case Queued => WaitingKeepsOthers(s, id, allowed, pinned, marked);
    case Locked => PreflightKeepsOthers(s, id, allowed, pinned, marked);
    case Entering => EnterKeepsOthers(s, id);
    case Joining(_) => WaitingKeepsOthers(s, id, allowed, pinned, marked);
    case Proved => WinningKeepsOthers(s, id, allowed, pinned, marked);
    case Won => WinningKeepsOthers(s, id, allowed, pinned, marked);
    case Exiting => WinningKeepsOthers(s, id, allowed, pinned, marked);
    case Leaving => WaitingKeepsOthers(s, id, allowed, pinned, marked);
  }

  lemma SameOther(s: System, u: System, id: nat, other: nat)
    requires SameOthers(s, u, id) && other != id
    ensures other in u.requests <==> other in s.requests
    ensures other in s.requests ==> u.requests[other] == s.requests[other]
  {
  }

  lemma StepGetsPast(s: System, m: Move, id: nat)
    requires !(id in s.requests && Past(s.requests[id]))
    requires id in Step(s, m).requests && Past(Step(s, m).requests[id])
    ensures PassesNow(s, m, id)
  {
    match m
    case Proceed(k, allowed, pinned, marked) =>
      if k in s.requests {
        if k == id {
          ProceedGetsPast(s, id, allowed, pinned, marked);
        } else {
          ProceedKeepsOthers(s, k, allowed, pinned, marked);
          SameOther(s, ProceedStep(s, k, allowed, pinned, marked), k, id);
        }
      }
    case ShellMoves(_) =>
    case RequestReset =>
    case DropRequest(_) =>
    case CloseIngress =>
    case QuiesceReturns =>
    case TakeAfterExit =>
  }

  lemma PassedEarlier(moves: seq<Move>, m: Move, j: nat, id: nat)
    requires PassedAt(moves, j, id)
    ensures PassedAt(moves + [m], j, id)
  {
    assert (moves + [m])[..j] == moves[..j];
  }

  // In any run, whichever request is past its preflight has passed it: unrequested, allowed, with the pin
  // and a matching marker.
  lemma {:induction false} PastHasPassed(moves: seq<Move>, id: nat) returns (j: nat)
    requires id in Play(FRESH, moves).requests && Past(Play(FRESH, moves).requests[id])
    ensures PassedAt(moves, j, id)
  {
    var before, m := moves[..|moves| - 1], moves[|moves| - 1];
    var s := Play(FRESH, before);
    assert moves == before + [m];
    if id in s.requests && Past(s.requests[id]) {
      j := PastHasPassed(before, id);
      PassedEarlier(before, m, j, id);
    } else {
      StepGetsPast(s, m, id);
      j := |before|;
      assert moves[..j] == before;
    }
  }

  lemma RequestedByProved(s: System, m: Move) returns (id: nat)
    requires !s.requested && Step(s, m).requested
    ensures id in s.requests && s.requests[id] == Proved
  {
    MovesAreTheOwners(s, m);
    id := m.id;
  }

  // A requested reset had passed its preflight.
  lemma {:induction false} RequestedHasPassed(moves: seq<Move>) returns (j: nat, id: nat)
    requires Play(FRESH, moves).requested
    ensures PassedAt(moves, j, id)
  {
    var before, m := moves[..|moves| - 1], moves[|moves| - 1];
    var s := Play(FRESH, before);
    assert moves == before + [m];
    if s.requested {
      j, id := RequestedHasPassed(before);
    } else {
      id := RequestedByProved(s, m);
      j := PastHasPassed(before, id);
    }
    PassedEarlier(before, m, j, id);
  }

  // The winner's permission to exit always takes effect.
  lemma WinnerAllowsExit(s: System, id: nat, allowed: bool, pinned: bool, marked: bool)
    requires Consistent(s) && id in s.requests && s.requests[id] == Won
    ensures Step(s, Proceed(id, allowed, pinned, marked)).shell.exitAllowed
  {
    assert StageAgrees(s, s.requests[id]);
  }

  // ---------------------------------------------------------------- what must happen

  // A request that waits for its attempt goes on exactly if that attempt succeeded, and then it is the one
  // that marks the reset as requested and gives the mutex back.
  lemma JoinedResetIsRequested(s: System, id: nat, allowed: bool, pinned: bool, marked: bool)
    requires Consistent(s) && id in s.requests && s.requests[id].Joining?
    requires s.requests[id].attempt in s.shell.outcomes
    ensures var go := Proceed(id, allowed, pinned, marked);
      var u := Step(s, go);
      && id in u.requests
      && if s.shell.outcomes[s.requests[id].attempt] then
           && u.requests[id] == Proved && Step(u, go).requested && Step(u, go).holder == None
           && id in Step(u, go).requests && Step(u, go).requests[id] == Won
         else u.requests[id] == Leaving && u.holder == None && !u.requested
  {
    assert StageAgrees(s, s.requests[id]);
    var go := Proceed(id, allowed, pinned, marked);
    assert Step(s, go) == JoinStep(s, id, s.requests[id].attempt);
  }

  // The winner allows exit, and then fires the one callback.
  lemma WinnerFires(s: System, id: nat, allowed: bool, pinned: bool, marked: bool)
    requires Consistent(s) && id in s.requests && s.requests[id] == Won
    ensures var go := Proceed(id, allowed, pinned, marked);
      var u := Step(s, go);
      && id in u.requests && u.requests[id] == Exiting && u.shell.exitAllowed
      && Step(u, go).callbacks == 1
  {
    WinnerAllowsExit(s, id, allowed, pinned, marked);
    assert StageAgrees(s, s.requests[id]);
  }

  // Root authority leaves exactly when a reset was requested, has not left before and no reservation lives;
  // quiescence is reported exactly behind closed ingress with none alive; and ingress admits exactly while
  // it is open.
  lemma {:induction false} OwnerMovesExactly(s: System)
    requires Played(s)
    ensures Step(s, TakeAfterExit).transferred <==> s.transferred || (s.requested && s.requests == map[])
    ensures Step(s, QuiesceReturns).quiesced <==> s.quiesced || (s.ingressClosed && s.requests == map[])
    ensures Step(s, RequestReset).activeRequests == s.activeRequests + (if s.ingressClosed then 0 else 1)
  {
    PlayedIsConsistent(s);
    UncountedIsEmpty(s);
  }
}
