/**
 Revisioned event fan-out: a current snapshot beside a bounded broadcast ring, with a receiver that is
 rebased on the current snapshot when it lags. `held` is every snapshot the source has held, oldest
 first; message `i` of the ring is `held[i]`, and the ring retains the last `cap` of them.
 */
module EventStream {
  import opened Basics

  const MAX_REVISION: nat := 0x1F_FFFF_FFFF_FFFF   // 2^53 - 1

  datatype Snapshot<+T> = Snapshot(revision: nat, value: T)

  datatype EventError = Closed | RevisionExhausted | StaleRevision

  datatype Source<+T> = Source(held: seq<Snapshot<T>>, open: bool)
  {
    ghost predicate Valid() {
      match this
      case Source(_, _) =>
      && |held| > 0
      && (forall i :: 0 <= i < |held| ==> 1 <= held[i].revision <= MAX_REVISION)
      && (forall i, j :: 0 <= i < j < |held| ==> held[i].revision < held[j].revision)
    }

    function Current(): Snapshot<T>
      requires |held| > 0
    {
      held[|held| - 1]
    }
  }

  function Capacity(requested: nat): (cap: nat)
    ensures 1 <= cap <= 1024
    ensures 1 <= requested <= 1024 ==> cap == requested
    ensures requested < 1 ==> cap == 1
    ensures requested > 1024 ==> cap == 1024
  {
    if requested < 1 then 1 else if requested > 1024 then 1024 else requested
  }

  function Replace<T>(s: Source<T>, next: Snapshot<T>): (Source<T>, Result<Snapshot<T>, EventError>) {
    if !s.open then (s, Err(Closed)) else (s.(held := s.held + [next]), Ok(next))
  }

  function Publish<T>(s: Source<T>, value: T): (Source<T>, Result<Snapshot<T>, EventError>)
    requires |s.held| > 0
  {
    var revision := s.Current().revision + 1;
    if revision > MAX_REVISION then (s, Err(RevisionExhausted)) else Replace(s, Snapshot(revision, value))
  }

  function PublishAt<T>(s: Source<T>, revision: nat, value: T): (Source<T>, Result<Snapshot<T>, EventError>)
    requires |s.held| > 0
  {
    if revision <= s.Current().revision then (s, Err(StaleRevision))
    else if revision > MAX_REVISION then (s, Err(RevisionExhausted))
    else Replace(s, Snapshot(revision, value))
  }

  // ---------------------------------------------------------------- one receiver

  // `rebasing` is the moment between a lagged result and the lock: publishes and a close may land there.
  datatype Cursor<+T> = Cursor(next: nat, pending: Option<Snapshot<T>>, last: nat, rebasing: bool)

  datatype Signal<+T> = Delivered(snapshot: Snapshot<T>) | Skipped | Ended | Empty

  function Subscribe<T>(s: Source<T>): Result<Cursor<T>, EventError>
    requires |s.held| > 0
  {
    if !s.open then Err(Closed) else Ok(Cursor(|s.held|, Some(s.Current()), 0, false))
  }

  function Offer<T>(c: Cursor<T>, candidate: Snapshot<T>): (Cursor<T>, Signal<T>) {
    if candidate.revision > c.last then (c.(last := candidate.revision), Delivered(candidate)) else (c, Skipped)
  }

  predicate Lags<T>(s: Source<T>, cap: nat, c: Cursor<T>) {
    |s.held| > c.next + cap
  }

  // One turn of the receive loop, up to the next point where it can be interrupted.
  function Turn<T>(s: Source<T>, cap: nat, c: Cursor<T>): (Cursor<T>, Signal<T>)
    requires |s.held| > 0
  {
    if c.rebasing then Offer(c.(rebasing := false, next := if s.open then |s.held| else c.next), s.Current())
    else if c.pending.Some? then Offer(c.(pending := None), c.pending.value)
    else if Lags(s, cap, c) then (c.(next := |s.held| - cap, rebasing := true), Skipped)
    else if c.next < |s.held| then Offer(c.(next := c.next + 1), s.held[c.next])
    else if s.open then (c, Empty)
    else (c, Ended)
  }

  // ---------------------------------------------------------------- a source, one receiver and their history

  // `delivered` is what `recv` has handed out. For the proofs, `places` says where in the history each of
  // these should stand, and `gaps` which positions were passed over.
  datatype Stream<+T> = Stream(
    source: Source<T>, cap: nat, cursor: Cursor<T>, delivered: seq<Snapshot<T>>,
    start: nat, places: seq<nat>, gaps: set<nat>, lagged: bool)

  datatype Action<+T> =
    | Publishes(value: T)
    | PublishesAt(revision: nat, value: T)
    | Closes
    | Receives

  function LastPlace<T>(m: Stream<T>): int {
    if m.places == [] then m.start - 1 else m.places[|m.places| - 1]
  }

  // Where the candidate of the coming turn stands in the history.
  function Place<T>(m: Stream<T>): nat
    requires |m.source.held| > 0
  {
    if m.cursor.rebasing then |m.source.held| - 1 else if m.cursor.pending.Some? then m.start else m.cursor.next
  }

  predicate Inside(low: int, k: nat, high: int) {
    low < k < high
  }

  function Between(low: int, high: int): set<nat> {
    set k: nat | k < high && Inside(low, k, high)
  }

  function ReceiveStep<T>(m: Stream<T>): Stream<T>
    requires |m.source.held| > 0
  {
    var (cursor, signal) := Turn(m.source, m.cap, m.cursor);
    var u := m.(cursor := cursor, lagged := m.lagged || (cursor.rebasing && !m.cursor.rebasing));
    if signal.Delivered?
    then u.(delivered := m.delivered + [signal.snapshot],
            places := m.places + [Place(m)], gaps := m.gaps + Between(LastPlace(m), Place(m)))
    else u
  }

  function Apply<T>(m: Stream<T>, a: Action<T>): Stream<T> {
    if |m.source.held| == 0 then m
    else match a
      case Publishes(value) => m.(source := Publish(m.source, value).0)
      case PublishesAt(revision, value) => m.(source := PublishAt(m.source, revision, value).0)
      case Closes => m.(source := m.source.(open := false))
      case Receives => ReceiveStep(m)
  }

  function Run<T>(m: Stream<T>, trace: seq<Action<T>>): Stream<T> {
    if trace == [] then m else Apply(Run(m, trace[..|trace| - 1]), trace[|trace| - 1])
  }

  ghost predicate Opens<T>(m: Stream<T>) {
    && m.source.Valid() && m.source.open && m.cap >= 1
    && Subscribe(m.source) == Ok(m.cursor)
    && m.start == |m.source.held| - 1 && m.delivered == [] && m.places == [] && m.gaps == {} && !m.lagged
  }

  // ---------------------------------------------------------------- the invariant

  // What was handed out is what the source held at the logged positions.
  ghost predicate DeliveredAgrees<T>(m: Stream<T>) {
    && |m.delivered| == |m.places|
    && (forall i :: 0 <= i < |m.places| ==>
          m.places[i] < |m.source.held| && m.delivered[i] == m.source.held[m.places[i]])
  }

  // Delivered positions grow, start at the subscription's snapshot, and account for `last`.
  ghost predicate PlacesAgree<T>(m: Stream<T>) {
    && m.start < |m.source.held|
    && (forall i :: 0 <= i < |m.places| ==> m.start <= m.places[i] < |m.source.held|)
    && (forall i, j :: 0 <= i < j < |m.places| ==> m.places[i] < m.places[j])
    && m.cursor.last == (if m.places == [] then 0 else m.source.held[LastPlace(m)].revision)
    && (m.places == [] <==> m.cursor.pending.Some?)
    && (m.places != [] ==> m.places[0] == m.start)
  }

  ghost predicate CursorAgrees<T>(m: Stream<T>) {
    var c, n := m.cursor, |m.source.held|;
    && m.start < c.next <= n
    && (c.pending.Some? ==> c.pending.value == m.source.held[m.start] && c.next == m.start + 1 && !c.rebasing)
    && (c.pending.None? && !c.rebasing ==>
          c.next == LastPlace(m) + 1 || (!m.source.open && LastPlace(m) == n - 1))
    && (c.rebasing ==> c.next < n && (LastPlace(m) < c.next || (!m.source.open && LastPlace(m) == n - 1)))
  }

  ghost predicate GapsAgree<T>(m: Stream<T>) {
    && (forall k :: k in m.gaps ==> m.start < k < LastPlace(m) && k !in m.places)
    && (forall k: nat :: m.start <= k <= LastPlace(m) ==> k in m.places || k in m.gaps)
    && (!m.lagged ==> m.gaps == {} && !m.cursor.rebasing)
    && (!m.lagged && m.cursor.pending.None? ==> m.cursor.next == LastPlace(m) + 1)
  }

  ghost predicate Inv<T>(m: Stream<T>) {
    match m
    case Stream(_, _, _, _, _, _, _, _) =>
      m.source.Valid() && m.cap >= 1 && DeliveredAgrees(m) && PlacesAgree(m) && CursorAgrees(m) && GapsAgree(m)
  }

  lemma ReplaceKeepsPlaces<T>(m: Stream<T>, u: Stream<T>, next: Snapshot<T>)
    requires Inv(m) && u == m.(source := m.source.(held := m.source.held + [next]))
    ensures DeliveredAgrees(u) && PlacesAgree(u)
  {
  }

  lemma ReplaceKeepsRest<T>(m: Stream<T>, u: Stream<T>, next: Snapshot<T>)
    requires Inv(m) && m.source.open && m.source.Current().revision < next.revision <= MAX_REVISION
    requires u == m.(source := m.source.(held := m.source.held + [next]))
    ensures u.source.Valid() && CursorAgrees(u) && GapsAgree(u)
  {
  }

  lemma ReplaceKeeps<T>(m: Stream<T>, next: Snapshot<T>)
    requires Inv(m) && m.source.Current().revision < next.revision <= MAX_REVISION
    ensures Inv(m.(source := Replace(m.source, next).0))
  {
    if m.source.open {
      var u := m.(source := Replace(m.source, next).0);
      ReplaceKeepsPlaces(m, u, next);
      ReplaceKeepsRest(m, u, next);
    }
  }

  function Logged<T>(m: Stream<T>, place: nat, cursor: Cursor<T>): Stream<T>
    requires place < |m.source.held|
  {
    m.(cursor := cursor, delivered := m.delivered + [m.source.held[place]],
       places := m.places + [place], gaps := m.gaps + Between(LastPlace(m), place))
  }

  // `place` is newer than everything handed out, and `cursor` stands behind it.
  ghost predicate Loggable<T>(m: Stream<T>, place: nat, cursor: Cursor<T>) {
    match m
    case Stream(_, _, _, _, _, _, _, _) =>
      && place < |m.source.held| && m.source.held[place].revision > m.cursor.last
      && cursor.pending.None? && !cursor.rebasing && cursor.last == m.source.held[place].revision
      && m.start < cursor.next <= |m.source.held|
      && (m.cursor.pending.Some? ==> place == m.start)
      && (cursor.next == place + 1 || (!m.source.open && place == |m.source.held| - 1))
      && (!m.lagged ==> place == LastPlace(m) + 1 && cursor.next == place + 1)
  }

  lemma DeliverKeepsDelivered<T>(m: Stream<T>, place: nat, cursor: Cursor<T>)
    requires Inv(m) && Loggable(m, place, cursor)
    ensures DeliveredAgrees(Logged(m, place, cursor))
  {
  }

  lemma DeliverKeepsPlaces<T>(m: Stream<T>, place: nat, cursor: Cursor<T>)
    requires Inv(m) && Loggable(m, place, cursor)
    ensures PlacesAgree(Logged(m, place, cursor)) && CursorAgrees(Logged(m, place, cursor))
    ensures LastPlace(m) < place == LastPlace(Logged(m, place, cursor))
  {
    var u := Logged(m, place, cursor);
    if m.places != [] {
      assert LastPlace(m) < place;
      assert u.places[0] == m.places[0];
    }
  }

  lemma DeliverKeepsGaps<T>(m: Stream<T>, place: nat, cursor: Cursor<T>)
    requires Inv(m) && Loggable(m, place, cursor)
    ensures GapsAgree(Logged(m, place, cursor))
  {
    var u := Logged(m, place, cursor);
    DeliverKeepsPlaces(m, place, cursor);
    forall k: nat | m.start <= k <= place ensures k in u.places || k in u.gaps {
      if k == place {
        assert u.places[|m.places|] == place;
      } else if k <= LastPlace(m) {
        assert k in m.places || k in m.gaps;
      }
    }
  }

  lemma DeliverKeeps<T>(m: Stream<T>, place: nat, cursor: Cursor<T>)
    requires Inv(m) && Loggable(m, place, cursor)
    ensures Inv(Logged(m, place, cursor))
  {
    DeliverKeepsDelivered(m, place, cursor);
    DeliverKeepsPlaces(m, place, cursor);
    DeliverKeepsGaps(m, place, cursor);
  }

  // What a turn hands out is what the source holds at the expected place.
  lemma HandsOutItsPlace<T>(m: Stream<T>)
    requires Inv(m)
    ensures var signal := Turn(m.source, m.cap, m.cursor).1;
      signal.Delivered? ==> Place(m) < |m.source.held| && signal.snapshot == m.source.held[Place(m)]
  {
  }

  lemma SkipKeeps<T>(m: Stream<T>)
    requires Inv(m) && !Turn(m.source, m.cap, m.cursor).1.Delivered?
    ensures Inv(ReceiveStep(m))
  {
  }

  lemma HandOutIsLoggable<T>(m: Stream<T>)
    requires Inv(m) && Turn(m.source, m.cap, m.cursor).1.Delivered?
    ensures Loggable(m, Place(m), Turn(m.source, m.cap, m.cursor).0)
    ensures ReceiveStep(m) == Logged(m, Place(m), Turn(m.source, m.cap, m.cursor).0)
  {
    HandsOutItsPlace(m);
  }

  lemma ReceiveKeeps<T>(m: Stream<T>)
    requires Inv(m)
    ensures Inv(ReceiveStep(m))
  {
    var (cursor, signal) := Turn(m.source, m.cap, m.cursor);
    if signal.Delivered? {
      HandOutIsLoggable(m);
      DeliverKeeps(m, Place(m), cursor);
    } else {
      SkipKeeps(m);
    }
  }

  lemma CloseKeepsPlaces<T>(m: Stream<T>)
    requires Inv(m)
    ensures var u := m.(source := m.source.(open := false)); DeliveredAgrees(u) && PlacesAgree(u)
  {
  }

  lemma CloseKeepsRest<T>(m: Stream<T>)
    requires Inv(m)
    ensures var u := m.(source := m.source.(open := false)); u.source.Valid() && CursorAgrees(u) && GapsAgree(u)
  {
  }

  lemma CloseKeeps<T>(m: Stream<T>)
    requires Inv(m)
    ensures Inv(m.(source := m.source.(open := false)))
  {
    CloseKeepsPlaces(m);
    CloseKeepsRest(m);
  }

  lemma PublishKeeps<T>(m: Stream<T>, value: T)
    requires Inv(m)
    ensures Inv(m.(source := Publish(m.source, value).0))
  {
    var next := Snapshot(m.source.Current().revision + 1, value);
    if next.revision <= MAX_REVISION { ReplaceKeeps(m, next); }
  }

  lemma PublishAtKeeps<T>(m: Stream<T>, revision: nat, value: T)
    requires Inv(m)
    ensures Inv(m.(source := PublishAt(m.source, revision, value).0))
  {
    if m.source.Current().revision < revision <= MAX_REVISION { ReplaceKeeps(m, Snapshot(revision, value)); }
  }

  lemma StepKeeps<T>(m: Stream<T>, a: Action<T>)
    requires Inv(m)
    ensures Inv(Apply(m, a))
  {
    match a
    case Publishes(value) => PublishKeeps(m, value);
    case PublishesAt(revision, value) => PublishAtKeeps(m, revision, value);
    case Closes => CloseKeeps(m);
    case Receives => ReceiveKeeps(m);
  }

  lemma {:induction false} RunKeeps<T>(m: Stream<T>, trace: seq<Action<T>>)
    requires Inv(m)
    ensures Inv(Run(m, trace))
  {
    if trace != [] {
      RunKeeps(m, trace[..|trace| - 1]);
      StepKeeps(Run(m, trace[..|trace| - 1]), trace[|trace| - 1]);
    }
  }

  // ---------------------------------------------------------------- the theorems

  lemma OpensKeeps<T>(m: Stream<T>, trace: seq<Action<T>>)
    requires Opens(m)
    ensures Inv(m) && Inv(Run(m, trace))
  {
    RunKeeps(m, trace);
  }

  // Nothing is pending, nothing is being rebased and every retained message has been read.
  predicate Drained<T>(m: Stream<T>) {
    m.cursor.pending.None? && !m.cursor.rebasing && m.cursor.next == |m.source.held|
  }

  // Whoever has drained the ring was handed the current snapshot last, and so was whoever the coming turn
  // tells that the source has ended or is empty.
  ghost predicate NothingLost<T>(u: Stream<T>) {
    match u
    case Stream(source, cap, cursor, delivered, _, _, _, _) =>
      && |source.held| > 0
      && (Turn(source, cap, cursor).1.Ended? || Turn(source, cap, cursor).1.Empty? ==> Drained(u))
      && (Drained(u) ==>
            && cursor.last == source.Current().revision
            && delivered != [] && delivered[|delivered| - 1] == source.Current())
  }

  // No lost final update: for any capacity, any lag and any timing of publishes and close, a subscriber
  // that is told `Closed`, or finds nothing to read, was handed the current snapshot last.
  lemma NoLostFinalUpdate<T>(m: Stream<T>, trace: seq<Action<T>>)
    requires Opens(m)
    ensures NothingLost(Run(m, trace))
  {
    OpensKeeps(m, trace);
    DrainedHasCurrent(Run(m, trace));
  }

  lemma DrainedHasCurrent<T>(u: Stream<T>)
    requires Inv(u)
    ensures NothingLost(u)
  {
    if Drained(u) {
      assert u.places != [];
    }
  }

  // Everything handed out was held by the source, revisions strictly increase and stay JSON-safe.
  lemma DeliveredInOrder<T>(m: Stream<T>, trace: seq<Action<T>>)
    requires Opens(m)
    ensures var u := Run(m, trace);
      && (forall i :: 0 <= i < |u.delivered| ==>
            u.delivered[i] in u.source.held && 1 <= u.delivered[i].revision <= MAX_REVISION)
      && (forall i, j :: 0 <= i < j < |u.delivered| ==> u.delivered[i].revision < u.delivered[j].revision)
  {
    OpensKeeps(m, trace);
  }

  ghost predicate GivenEverything<T>(u: Stream<T>) {
    && u.start <= u.cursor.next <= |u.source.held|
    && u.delivered + (if u.cursor.pending.Some? then [u.cursor.pending.value] else []) + u.source.held[u.cursor.next..]
       == u.source.held[u.start..]
  }

  // A subscriber that never lagged was handed, or can still read, exactly what the source has held
  // since its subscription: nothing missing, nothing twice, in order.
  lemma UnlaggedGetsEverything<T>(m: Stream<T>, trace: seq<Action<T>>)
    requires Opens(m) && !Run(m, trace).lagged
    ensures GivenEverything(Run(m, trace))
  {
    OpensKeeps(m, trace);
    UnlaggedState(Run(m, trace));
  }

  lemma UnlaggedState<T>(u: Stream<T>)
    requires Inv(u) && !u.lagged
    ensures GivenEverything(u)
  {
    if u.cursor.pending.None? {
      Consecutive(u, |u.places|);
      assert |u.places| == u.cursor.next - u.start;
      assert u.delivered == u.source.held[u.start..u.cursor.next];
    } else {
      assert u.source.held[u.start..] == [u.source.held[u.start]] + u.source.held[u.cursor.next..];
    }
  }

  lemma {:induction false} Consecutive<T>(m: Stream<T>, n: nat)
    requires Inv(m) && m.gaps == {} && m.places != [] && n <= |m.places|
    ensures forall i :: 0 <= i < n ==> m.places[i] == m.start + i
  {
    if n > 1 {
      Consecutive(m, n - 1);
      var k := m.start + n - 1;
      assert m.places[n - 2] == k - 1 < m.places[n - 1] <= LastPlace(m);
      assert k in m.places;
      var i :| 0 <= i < |m.places| && m.places[i] == k;
      assert n - 2 < i && !(n - 1 < i);
    }
  }

  // With lag, everything the source held since the subscription and up to the last delivery was handed
  // out or passed over by a rebase, never both.
  lemma LaggedAccounting<T>(m: Stream<T>, trace: seq<Action<T>>)
    requires Opens(m)
    ensures var u := Run(m, trace);
      forall k: nat :: u.start <= k <= LastPlace(u) ==>
        k < |u.source.held| && (u.source.held[k] in u.delivered) != (k in u.gaps)
  {
    OpensKeeps(m, trace);
    var u := Run(m, trace);
    forall k: nat | u.start <= k <= LastPlace(u)
      ensures k < |u.source.held| && (u.source.held[k] in u.delivered) != (k in u.gaps)
    {
      DeliveredAt(u, k);
    }
  }

  // Revisions tell the positions apart, so a snapshot was handed out exactly if its position was.
  lemma DeliveredAt<T>(u: Stream<T>, k: nat)
    requires Inv(u) && k < |u.source.held|
    ensures u.source.held[k] in u.delivered <==> k in u.places
  {
    if k in u.places {
      var i :| 0 <= i < |u.places| && u.places[i] == k;
      assert u.delivered[i] == u.source.held[k];
    }
    if u.source.held[k] in u.delivered {
      var i :| 0 <= i < |u.delivered| && u.delivered[i] == u.source.held[k];
      assert u.source.held[u.places[i]].revision == u.source.held[k].revision;
    }
  }

  lemma GapsComeFromRebases<T>(m: Stream<T>, a: Action<T>)
    requires Inv(m)
    ensures Apply(m, a).gaps == m.gaps || (a == Receives && m.cursor.rebasing)
  {
    if a == Receives && !m.cursor.rebasing {
      assert Between(LastPlace(m), Place(m)) == {};
    }
  }

  // Over any run what the source has held and what was handed out is never rewritten, and a closed
  // source never changes.
  lemma {:induction false} HistoryOnlyGrows<T>(m: Stream<T>, trace: seq<Action<T>>)
    ensures var u := Run(m, trace);
      && m.source.held <= u.source.held && m.delivered <= u.delivered
      && (!m.source.open ==> u.source == m.source)
  {
    if trace != [] {
      HistoryOnlyGrows(m, trace[..|trace| - 1]);
    }
  }

  // What the loop still has to read.
  function Unread<T>(s: Source<T>, c: Cursor<T>): nat
    requires c.next <= |s.held|
  {
    2 * (|s.held| - c.next) + (if c.rebasing then 1 else 0) + (if c.pending.Some? then 1 else 0)
  }

  // The skip loop ends: a turn that delivers nothing and does not report leaves strictly less to read.
  lemma SkippingTerminates<T>(s: Source<T>, cap: nat, c: Cursor<T>)
    requires |s.held| > 0 && cap >= 1 && c.next <= |s.held|
    ensures var (d, signal) := Turn(s, cap, c);
      d.next <= |s.held| && (signal.Skipped? || signal.Delivered? ==> Unread(s, d) < Unread(s, c))
  {
  }

  // One `recv` with no interference: turns until there is something to report.
  function Receive<T>(s: Source<T>, cap: nat, c: Cursor<T>): (Cursor<T>, Signal<T>)
    requires |s.held| > 0 && cap >= 1 && c.next <= |s.held|
    decreases Unread(s, c)
  {
    SkippingTerminates(s, cap, c);
    var (d, signal) := Turn(s, cap, c);
    if signal.Skipped? then Receive(s, cap, d) else (d, signal)
  }

  // A `recv` that delivers, delivers something newer than everything delivered before.
  lemma {:induction false} ReceiveAdvances<T>(s: Source<T>, cap: nat, c: Cursor<T>)
    requires |s.held| > 0 && cap >= 1 && c.next <= |s.held|
    ensures var (d, signal) := Receive(s, cap, c);
      && (signal.Delivered? ==> signal.snapshot.revision == d.last > c.last)
      && (signal.Ended? || signal.Empty? ==> d.last == c.last && d.next == |s.held| && d.pending.None? && !d.rebasing)
      && !signal.Skipped?
      && (signal.Ended? ==> !s.open) && (signal.Empty? ==> s.open)
    decreases Unread(s, c)
  {
    SkippingTerminates(s, cap, c);
    var (d, signal) := Turn(s, cap, c);
    if signal.Skipped? {
      ReceiveAdvances(s, cap, d);
    }
  }
}
