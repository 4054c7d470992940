/**
 What was published and when a receiver lags. `Log` follows publishers alone, without ring or receivers:
 the history a source holds is that log, and the last value a receiver is handed is the last accepted one.
 */
module EventValues {
  import opened Basics
  import opened EventStream

  datatype Log<+T> = Log(history: seq<Snapshot<T>>, open: bool)

  function Newest<T>(log: Log<T>): Snapshot<T>
    requires |log.history| > 0
  {
    log.history[|log.history| - 1]
  }

  // What publishers and a close make of the log: a value is accepted while the source is open and a
  // greater revision is left for it, and then it stands with that revision behind all others.
  function Next<T>(log: Log<T>, a: Action<T>): (after: Log<T>)
    requires |log.history| > 0
    ensures |after.history| >= |log.history|
  {
    match a
    case Publishes(value) =>
      if log.open && Newest(log).revision < MAX_REVISION
      then log.(history := log.history + [Snapshot(Newest(log).revision + 1, value)])
      else log
    case PublishesAt(revision, value) =>
      if log.open && Newest(log).revision < revision <= MAX_REVISION
      then log.(history := log.history + [Snapshot(revision, value)])
      else log
    case Closes => log.(open := false)
    case Receives => log
  }

  function Published<T>(log: Log<T>, trace: seq<Action<T>>): (after: Log<T>)
    requires |log.history| > 0
    ensures |after.history| >= |log.history|
  {
    if trace == [] then log else Next(Published(log, trace[..|trace| - 1]), trace[|trace| - 1])
  }

  function LogOf<T>(m: Stream<T>): Log<T> {
    Log(m.source.held, m.source.open)
  }

  // A published value is stored under the next revision and becomes the current one, or is refused.
  lemma PublishIsExact<T>(s: Source<T>, value: T)
    requires s.Valid()
    ensures var (u, result) := Publish(s, value);
      if s.Current().revision >= MAX_REVISION then u == s && result == Err(RevisionExhausted)
      else if !s.open then u == s && result == Err(Closed)
      else
        var stored := Snapshot(s.Current().revision + 1, value);
        result == Ok(stored) && u == Source(s.held + [stored], true) && u.Current() == stored
  {
  }

  lemma PublishAtIsExact<T>(s: Source<T>, revision: nat, value: T)
    requires s.Valid()
    ensures var (u, result) := PublishAt(s, revision, value);
      if revision <= s.Current().revision then u == s && result == Err(StaleRevision)
      else if revision > MAX_REVISION then u == s && result == Err(RevisionExhausted)
      else if !s.open then u == s && result == Err(Closed)
      else
        var stored := Snapshot(revision, value);
        result == Ok(stored) && u == Source(s.held + [stored], true) && u.Current() == stored
  {
  }

  lemma ReceiveKeepsLog<T>(m: Stream<T>)
    requires |m.source.held| > 0
    ensures ReceiveStep(m).source == m.source
  {
  }

  lemma StepPublishes<T>(m: Stream<T>, a: Action<T>)
    requires |m.source.held| > 0
    ensures LogOf(Apply(m, a)) == Next(LogOf(m), a)
  {
    match a
    case Publishes(_) =>
    case PublishesAt(_, _) =>
    case Closes =>
    case Receives => ReceiveKeepsLog(m);
  }

  // Over any run, whatever receivers do, the source holds what it held first and then the accepted values
  // in their order.
  lemma {:induction false} HistoryIsWhatWasPublished<T>(m: Stream<T>, trace: seq<Action<T>>)
    requires |m.source.held| > 0
    ensures LogOf(Run(m, trace)) == Published(LogOf(m), trace)
  {
    if trace != [] {
      HistoryIsWhatWasPublished(m, trace[..|trace| - 1]);
      StepPublishes(Run(m, trace[..|trace| - 1]), trace[|trace| - 1]);
    }
  }

  // Nothing else gets into the history: every snapshot behind the first ones was published as it stands.
  lemma {:induction false} HeldWasPublished<T>(log: Log<T>, trace: seq<Action<T>>, i: nat) returns (j: nat)
    requires |log.history| > 0 && |log.history| <= i < |Published(log, trace).history|
    ensures var stored := Published(log, trace).history[i];
      j < |trace| && (trace[j] == Publishes(stored.value) || trace[j] == PublishesAt(stored.revision, stored.value))
  {
    if trace == [] {
      assert false;
    } else {
      j := |trace| - 1;
      if i < |Published(log, trace[..|trace| - 1]).history| {
        j := HeldWasPublished(log, trace[..|trace| - 1], i);
      }
    }
  }

  // The last accepted value reaches everyone: a subscriber that is told of the end, or finds nothing left
  // to read, was handed last what was last published.
  lemma {:induction false} LastPublishedIsDelivered<T>(m: Stream<T>, trace: seq<Action<T>>)
    requires Opens(m)
    ensures var u := Run(m, trace);
      && |u.source.held| > 0
      && (Drained(u) || Turn(u.source, u.cap, u.cursor).1.Ended? || Turn(u.source, u.cap, u.cursor).1.Empty? ==>
        u.delivered != [] && u.delivered[|u.delivered| - 1] == Newest(Published(LogOf(m), trace)))
  {
    NoLostFinalUpdate(m, trace);
    HistoryIsWhatWasPublished(m, trace);
  }

  // ---------------------------------------------------------------- lag

  // A turn reports lag exactly when more than the ring's capacity is still unread.
  lemma LagIsExact<T>(s: Source<T>, cap: nat, c: Cursor<T>)
    requires |s.held| > 0
    ensures Turn(s, cap, c).0.rebasing <==> !c.rebasing && c.pending.None? && |s.held| - c.next > cap
  {
  }

  // A lagging receiver is moved to the oldest message retained and then rejoins: it is offered the current
  // snapshot and, while the source is open, goes on behind it.
  lemma RebaseIsExact<T>(s: Source<T>, cap: nat, c: Cursor<T>)
    requires |s.held| > 0
    ensures var (d, signal) := Turn(s, cap, c);
      && (d.rebasing ==> d.next == |s.held| - cap && signal == Skipped)
      && (c.rebasing ==>
            && !d.rebasing && d.next == (if s.open then |s.held| else c.next)
            && (s.Current().revision > c.last <==> signal == Delivered(s.Current())))
  {
  }

  // Without lag a turn hands out what is due: the pending snapshot first, then the oldest unread one.
  lemma UnlaggedTurnIsExact<T>(s: Source<T>, cap: nat, c: Cursor<T>)
    requires |s.held| > 0 && !c.rebasing && c.next <= |s.held| && (c.pending.None? ==> |s.held| - c.next <= cap)
    ensures var (d, signal) := Turn(s, cap, c);
      if c.pending.Some? then
        d.next == c.next && d.pending == None
        && (c.pending.value.revision > c.last <==> signal == Delivered(c.pending.value))
      else if c.next < |s.held| then
        d.next == c.next + 1 && (s.held[c.next].revision > c.last <==> signal == Delivered(s.held[c.next]))
      else d == c && signal == if s.open then Empty else Ended
  {
  }

  // In step `i` the receiver finds more than the ring retains.
  ghost predicate Overrun<T>(m: Stream<T>, trace: seq<Action<T>>, i: nat) {
    i < |trace| && trace[i].Receives? && OverrunNow(Run(m, trace[..i]))
  }

  predicate OverrunNow<T>(b: Stream<T>) {
    !b.cursor.rebasing && b.cursor.pending.None? && |b.source.held| - b.cursor.next > b.cap
  }

  lemma StepLags<T>(b: Stream<T>, a: Action<T>)
    requires |b.source.held| > 0
    ensures Apply(b, a).lagged <==> b.lagged || (a.Receives? && OverrunNow(b))
  {
  }

  lemma OverrunExtends<T>(m: Stream<T>, front: seq<Action<T>>, a: Action<T>)
    ensures (exists i: nat :: Overrun(m, front + [a], i)) <==>
            (exists i: nat :: Overrun(m, front, i)) || (a.Receives? && OverrunNow(Run(m, front)))
  {
    var trace := front + [a];
    assert trace[..|front|] == front;
    if i: nat :| Overrun(m, trace, i) {
      if i < |front| {
        assert trace[..i] == front[..i];
        assert Overrun(m, front, i);
      }
    }
    if i: nat :| Overrun(m, front, i) {
      assert trace[..i] == front[..i];
      assert Overrun(m, trace, i);
    }
    if a.Receives? && OverrunNow(Run(m, front)) {
      assert Overrun(m, trace, |front|);
    }
  }

  // Over any run, a subscriber has lagged if and only if it once came to read with more unread than the
  // ring retains: one that stays within the capacity never lags.
  lemma {:induction false} LaggedExactly<T>(m: Stream<T>, trace: seq<Action<T>>)
    requires Opens(m)
    ensures Run(m, trace).lagged <==> exists i: nat :: Overrun(m, trace, i)
  {
    if trace != [] {
      var front, a := trace[..|trace| - 1], trace[|trace| - 1];
      assert trace == front + [a];
      LaggedExactly(m, front);
      OpensKeeps(m, front);
      StepLags(Run(m, front), a);
      OverrunExtends(m, front, a);
    }
  }
}
