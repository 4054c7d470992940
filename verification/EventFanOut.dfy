/**
 The event source and its subscriptions as objects. The source keeps an explicit ring of at most
 `capacity` retained messages; `held` is the history its contracts speak about.
 */
module EventFanOut {
  import opened Basics
  import opened EventStream

  // The retained part of a history: its last messages, at most `capacity` of them.
  ghost predicate Retains<T>(held: seq<Snapshot<T>>, ring: seq<Snapshot<T>>, capacity: nat) {
    && |held| > 0
    && |ring| == (if |held| - 1 <= capacity then |held| - 1 else capacity)
    && ring == held[|held| - |ring|..]
  }

  lemma PushRetains<T>(held: seq<Snapshot<T>>, ring: seq<Snapshot<T>>, capacity: nat, next: Snapshot<T>)
    requires Retains(held, ring, capacity) && capacity >= 1
    ensures Retains(held + [next], (if |ring| == capacity then ring[1..] else ring) + [next], capacity)
  {
  }

  lemma PushValid<T>(s: Source<T>, next: Snapshot<T>)
    requires s.Valid() && s.Current().revision < next.revision <= MAX_REVISION
    ensures Source(s.held + [next], s.open).Valid()
  {
  }

  class RevisionedEvents<T> {
    const capacity: nat
    var snapshot: Snapshot<T>
    var open: bool
    var ring: seq<Snapshot<T>>
    var tail: nat
    ghost var held: seq<Snapshot<T>>

    ghost predicate Valid()
      reads this
    {
      match View()
      case Source(_, _) =>
      && capacity >= 1
      && Source(held, open).Valid()
      && snapshot == held[|held| - 1]
      && tail == |held|
      && Retains(held, ring, capacity)
    }

    ghost function View(): Source<T>
      reads this
    {
      Source(held, open)
    }

    constructor (value: T, requested: nat)
      ensures Valid() && View() == Source([Snapshot(1, value)], true) && capacity == Capacity(requested)
    {
      capacity := Capacity(requested);
      snapshot := Snapshot(1, value);
      open := true;
      ring := [];
      tail := 1;
      held := [Snapshot(1, value)];
    }

    method Replace(next: Snapshot<T>) returns (result: Result<Snapshot<T>, EventError>)
      requires Valid() && snapshot.revision < next.revision <= MAX_REVISION
      modifies this
      ensures Valid()
      ensures (View(), result) == EventStream.Replace(old(View()), next)
      ensures old(open) ==> result == Ok(next) && snapshot == next && held == old(held) + [next] && open
      ensures !old(open) ==> result == Err(Closed) && View() == old(View())
    {
      if !open {
        return Err(Closed);
      }
      PushValid(View(), next);
      PushRetains(held, ring, capacity, next);
      snapshot := next;
      ring := (if |ring| == capacity then ring[1..] else ring) + [next];
      tail := tail + 1;
      held := held + [next];
      return Ok(next);
    }

    method Publish(value: T) returns (result: Result<Snapshot<T>, EventError>)
      requires Valid()
      modifies this
      ensures Valid()
      ensures (View(), result) == EventStream.Publish(old(View()), value)
      ensures old(open) && old(snapshot).revision < 0x1F_FFFF_FFFF_FFFF ==>
                && result == Ok(Snapshot(old(snapshot).revision + 1, value))
                && snapshot == result.value && held == old(held) + [snapshot] && open
      ensures old(snapshot).revision >= MAX_REVISION ==> result == Err(RevisionExhausted) && View() == old(View())
      ensures !old(open) && old(snapshot).revision < 0x1F_FFFF_FFFF_FFFF ==>
                result == Err(Closed) && View() == old(View())
    {
      var revision := snapshot.revision + 1;
      if revision > MAX_REVISION {
        return Err(RevisionExhausted);
      }
      result := Replace(Snapshot(revision, value));
    }

    method PublishAt(revision: nat, value: T) returns (result: Result<Snapshot<T>, EventError>)
      requires Valid()
      modifies this
      ensures Valid()
      ensures (View(), result) == EventStream.PublishAt(old(View()), revision, value)
      ensures old(open) && old(snapshot).revision < revision <= MAX_REVISION ==>
                && result == Ok(Snapshot(revision, value))
                && snapshot == result.value && held == old(held) + [snapshot] && open
      ensures revision <= old(snapshot).revision ==> result == Err(StaleRevision) && View() == old(View())
      ensures old(snapshot).revision < revision && MAX_REVISION < revision ==>
                result == Err(RevisionExhausted) && View() == old(View())
      ensures !old(open) && old(snapshot).revision < revision <= MAX_REVISION ==>
                result == Err(Closed) && View() == old(View())
    {
      if revision <= snapshot.revision {
        return Err(StaleRevision);
      }
      if revision > MAX_REVISION {
        return Err(RevisionExhausted);
      }
      result := Replace(Snapshot(revision, value));
    }

    // A receiver reads the slot of a position that is still retained.
    method Read(position: nat) returns (message: Snapshot<T>)
      requires Valid() && 1 <= position < tail <= position + capacity
      ensures message == held[position]
    {
      message := ring[position - (tail - |ring|)];
    }

    // A closed source takes no new subscription.
    method Subscribe() returns (result: Result<EventSubscription<T>, EventError>)
      requires Valid()
      ensures match result
              case Ok(subscription) =>
                && subscription.source == this && subscription.Valid()
                && EventStream.Subscribe(View()) == Ok(subscription.View())
              case Err(error) => EventStream.Subscribe(View()) == Err(error)
      ensures result.Ok? <==> open
      ensures result.Ok? ==>
                result.value.next == tail && result.value.pending == Some(snapshot) && result.value.last == 0
      ensures result.Err? ==> result.error == Closed
    {
      if !open {
        return Err(Closed);
      }
      var subscription := new EventSubscription(this);
      return Ok(subscription);
    }

    method Close()
      requires Valid()
      modifies this`open
      ensures Valid() && View() == old(View()).(open := false)
    {
      open := false;
    }
  }

  class EventSubscription<T> {
    const source: RevisionedEvents<T>
    var next: nat
    var pending: Option<Snapshot<T>>
    var last: nat
    var rebasing: bool   // the ring reported lag; the lock has not been taken yet

    ghost predicate Valid()
      reads this, source
    {
      source.Valid() && 1 <= next <= source.tail
    }

    ghost function View(): Cursor<T>
      reads this
    {
      Cursor(next, pending, last, rebasing)
    }

    // Registration and snapshot are taken together from an open source.
    constructor (from: RevisionedEvents<T>)
      requires from.Valid() && from.open
      ensures source == from && Valid() && Subscribe(from.View()) == Ok(View())
    {
      source := from;
      next := from.tail;
      pending := Some(from.snapshot);
      last := 0;
      rebasing := false;
    }

    method Offer(candidate: Snapshot<T>) returns (signal: Signal<T>)
      modifies this`last
      ensures (View(), signal) == EventStream.Offer(old(View()), candidate)
    {
      if candidate.revision > last {
        last := candidate.revision;
        return Delivered(candidate);
      }
      return Skipped;
    }

    // The lock taken after a lagged read: rejoin at the tail if the source is still open.
    method Rebase() returns (signal: Signal<T>)
      requires Valid() && rebasing
      modifies this
      ensures Valid()
      ensures (View(), signal) == Turn(source.View(), source.capacity, old(View()))
    {
      rebasing := false;
      if source.open {
        next := source.tail;
      }
      signal := Offer(source.snapshot);
    }

    // A message still retained is read at its place; what has been overwritten is reported as lag.
    method ReadRing() returns (signal: Signal<T>)
      requires Valid() && !rebasing && pending.None?
      modifies this
      ensures Valid()
      ensures (View(), signal) == Turn(source.View(), source.capacity, old(View()))
    {
      if source.tail > next + source.capacity {
        next := source.tail - source.capacity;
        rebasing := true;
        signal := Skipped;
      } else if next < source.tail {
        var message := source.Read(next);
        next := next + 1;
        signal := Offer(message);
      } else {
        signal := if source.open then Empty else Ended;
      }
    }

    // One turn of the loop, up to the next await.
    method TakeTurn() returns (signal: Signal<T>)
      requires Valid()
      modifies this
      ensures Valid()
      ensures (View(), signal) == Turn(source.View(), source.capacity, old(View()))
    {
      if rebasing {
        signal := Rebase();
      } else if pending.Some? {
        var snapshot := pending.value;
        pending := None;
        signal := Offer(snapshot);
      } else {
        signal := ReadRing();
      }
    }

    // One `recv` while nothing else runs. `Empty` stands for the await that stays pending.
    method Recv() returns (signal: Signal<T>)
      requires Valid()
      modifies this
      ensures Valid()
      ensures (View(), signal) == Receive(source.View(), source.capacity, old(View()))
    {
      ghost var src, cap, whole := source.View(), source.capacity, Receive(source.View(), source.capacity, View());
      while true
        invariant Valid() && source.View() == src
        invariant Receive(src, cap, View()) == whole
        decreases Unread(src, View())
      {
        ghost var before := View();
        SkippingTerminates(src, cap, before);
        signal := TakeTurn();
        if !signal.Skipped? {
          return;
        }
        assert Unread(src, View()) < Unread(src, before);
      }
    }
  }
}
