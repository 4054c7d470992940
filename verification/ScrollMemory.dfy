/**
 The bounded scroll memory: an insertion-ordered map in which a hit moves its key to the end and a
 store evicts from the front. Numbers carry the special values the code tests for.
 */
module ScrollMemory {
  import opened Basics

  datatype Number = Finite(value: real) | NotANumber | Infinite(negative: bool)

  const DEFAULT_LIMIT: nat := 64

  function Limit(maxEntries: Number): (limit: nat)
    ensures limit >= 1
    ensures !maxEntries.Finite? ==> limit == 64
    ensures maxEntries.Finite? && maxEntries.value < 1.0 ==> limit == 1
    ensures maxEntries.Finite? && maxEntries.value >= 1.0 ==> limit as real <= maxEntries.value < (limit + 1) as real
  {
    if !maxEntries.Finite? then DEFAULT_LIMIT
    else if maxEntries.value.Floor < 1 then 1
    else maxEntries.value.Floor
  }

  datatype Entry = Entry(key: string, top: real)

  predicate Storable(top: Number) {
    top.Finite? && top.value > 0.0
  }

  // ---------------------------------------------------------------- the specification

  function Keys(entries: seq<Entry>): set<string> {
    set e | e in entries :: e.key
  }

  function Lookup(entries: seq<Entry>, key: string): Option<real> {
    if entries == [] then None
    else if entries[0].key == key then Some(entries[0].top)
    else Lookup(entries[1..], key)
  }

  function Without(entries: seq<Entry>, key: string): (rest: seq<Entry>)
    ensures |rest| <= |entries|
  {
    if entries == [] then []
    else if entries[0].key == key then Without(entries[1..], key)
    else [entries[0]] + Without(entries[1..], key)
  }

  function Evicted(entries: seq<Entry>, limit: nat): seq<Entry> {
    if |entries| > limit then entries[|entries| - limit..] else entries
  }

  lemma EvictedNext(entries: seq<Entry>, limit: nat)
    requires |entries| > limit
    ensures Evicted(entries[1..], limit) == Evicted(entries, limit)
  {
    assert entries[1..][|entries| - 1 - limit..] == entries[|entries| - limit..];
  }

  datatype Op = Get(key: string) | Set(key: string, top: Number) | Delete(key: string)

  function Apply(entries: seq<Entry>, limit: nat, op: Op): seq<Entry> {
    match op
    case Get(key) =>
      var top := Lookup(entries, key);
      if top.None? then entries else Without(entries, key) + [Entry(key, top.value)]
    case Set(key, top) =>
      if Storable(top) then Evicted(Without(entries, key) + [Entry(key, top.value)], limit) else Without(entries, key)
    case Delete(key) => Without(entries, key)
  }

  function Run(entries: seq<Entry>, limit: nat, ops: seq<Op>): seq<Entry> {
    if ops == [] then entries else Apply(Run(entries, limit, ops[..|ops| - 1]), limit, ops[|ops| - 1])
  }

  ghost predicate Distinct(entries: seq<Entry>) {
    forall i, j :: 0 <= i < j < |entries| ==> entries[i].key != entries[j].key
  }

  ghost predicate Valid(entries: seq<Entry>, limit: nat) {
    Distinct(entries) && |entries| <= limit && forall i :: 0 <= i < |entries| ==> entries[i].top > 0.0
  }

  // ---------------------------------------------------------------- the object

  class ViewScrollMemory {
    const limit: nat
    var positions: seq<Entry>

    ghost predicate Ok()
      reads this
    {
      limit >= 1 && Valid(positions, limit)
    }

    constructor (maxEntries: Number)
      ensures Ok() && positions == [] && limit == Limit(maxEntries)
    {
      limit := Limit(maxEntries);
      positions := [];
    }

    method Get(key: string) returns (top: Option<real>)
      requires Ok()
      modifies this`positions
      ensures Ok() && positions == Apply(old(positions), limit, Op.Get(key))
      ensures top == Lookup(old(positions), key)
      ensures top.Some? ==> positions != [] && positions[|positions| - 1] == Entry(key, top.value)
      ensures top.None? ==> positions == old(positions)
    {
      StepKeepsValid(positions, limit, Op.Get(key));
      top := Lookup(positions, key);
      if top.Some? {
        positions := Without(positions, key);
        positions := positions + [Entry(key, top.value)];
      }
    }

    method Set(key: string, top: Number)
      requires Ok()
      modifies this`positions
      ensures Ok() && positions == Apply(old(positions), limit, Op.Set(key, top))
      ensures top.Finite? && top.value > 0.0 ==>
                positions != [] && positions[|positions| - 1] == Entry(key, top.value)
      ensures !(top.Finite? && top.value > 0.0) ==> forall i :: 0 <= i < |positions| ==> positions[i].key != key
    {
      DeleteKeepsValid(positions, limit, key);
      StepKeepsValid(positions, limit, Op.Set(key, top));
      positions := Without(positions, key);
      if !Storable(top) {
        return;
      }
      positions := positions + [Entry(key, top.value)];
      ghost var all := positions;
      while |positions| > limit
        invariant Evicted(positions, limit) == Evicted(all, limit)
      {
        EvictedNext(positions, limit);
        positions := positions[1..];
      }
    }

    method Delete(key: string)
      requires Ok()
      modifies this`positions
      ensures Ok() && positions == Apply(old(positions), limit, Op.Delete(key))
      ensures forall e :: e in positions <==> e in old(positions) && e.key != key
    {
      WithoutMembers(positions, key);
      StepKeepsValid(positions, limit, Op.Delete(key));
      positions := Without(positions, key);
    }
  }

  // ---------------------------------------------------------------- lookups

  lemma {:induction false} LookupMember(entries: seq<Entry>, key: string)
    ensures match Lookup(entries, key)
            case None => forall i :: 0 <= i < |entries| ==> entries[i].key != key
            case Some(top) => Entry(key, top) in entries
  {
    if entries != [] {
      LookupMember(entries[1..], key);
    }
  }

  lemma {:induction false} WithoutMembers(entries: seq<Entry>, key: string)
    ensures forall e :: e in Without(entries, key) <==> e in entries && e.key != key
    ensures Distinct(entries) ==> Distinct(Without(entries, key))
  {
    if entries != [] {
      var rest := Without(entries[1..], key);
      WithoutMembers(entries[1..], key);
      assert entries == [entries[0]] + entries[1..];
      if Distinct(entries) {
        assert Distinct(entries[1..]);
        forall i | 0 <= i < |rest| ensures rest[i].key != entries[0].key {
          assert rest[i] in entries[1..];
        }
      }
    }
  }

  lemma UniqueLookup(entries: seq<Entry>, e: Entry)
    requires Distinct(entries) && e in entries
    ensures Lookup(entries, e.key) == Some(e.top)
  {
    LookupMember(entries, e.key);
    var i :| 0 <= i < |entries| && entries[i] == e;
  }

  lemma AppendDistinct(entries: seq<Entry>, e: Entry)
    requires Distinct(entries) && Absent(entries, e.key)
    ensures Distinct(entries + [e])
  {
  }

  lemma {:induction false} WithoutShrinks(entries: seq<Entry>, key: string)
    requires Lookup(entries, key).Some?
    ensures |Without(entries, key)| < |entries|
  {
    if entries[0].key != key {
      WithoutShrinks(entries[1..], key);
    }
  }

  ghost predicate Absent(entries: seq<Entry>, key: string) {
    forall i :: 0 <= i < |entries| ==> entries[i].key != key
  }

  lemma DeleteKeepsValid(entries: seq<Entry>, limit: nat, key: string)
    requires Valid(entries, limit)
    ensures Valid(Without(entries, key), limit) && Absent(Without(entries, key), key)
  {
    var rest := Without(entries, key);
    WithoutMembers(entries, key);
    forall i | 0 <= i < |rest| ensures rest[i].top > 0.0 && rest[i].key != key {
      assert rest[i] in entries;
    }
  }

  lemma GetKeepsValid(entries: seq<Entry>, limit: nat, key: string, top: real)
    requires Valid(entries, limit) && Lookup(entries, key) == Some(top)
    ensures Valid(Without(entries, key) + [Entry(key, top)], limit)
  {
    LookupMember(entries, key);
    WithoutShrinks(entries, key);
    DeleteKeepsValid(entries, limit, key);
    AppendDistinct(Without(entries, key), Entry(key, top));
  }

  lemma EvictedIsValid(entries: seq<Entry>, limit: nat)
    requires Distinct(entries) && forall i :: 0 <= i < |entries| ==> entries[i].top > 0.0
    ensures Valid(Evicted(entries, limit), limit)
  {
  }

  lemma SetKeepsValid(entries: seq<Entry>, limit: nat, key: string, top: real)
    requires Valid(entries, limit) && top > 0.0
    ensures Valid(Evicted(Without(entries, key) + [Entry(key, top)], limit), limit)
  {
    DeleteKeepsValid(entries, limit, key);
    AppendDistinct(Without(entries, key), Entry(key, top));
    EvictedIsValid(Without(entries, key) + [Entry(key, top)], limit);
  }

  lemma StepKeepsValid(entries: seq<Entry>, limit: nat, op: Op)
    requires Valid(entries, limit)
    ensures Valid(Apply(entries, limit, op), limit)
  {
    match op
    case Get(key) => if Lookup(entries, key).Some? { GetKeepsValid(entries, limit, key, Lookup(entries, key).value); }
    case Set(key, top) =>
      if Storable(top) {
        SetKeepsValid(entries, limit, key, top.value);
      } else {
        DeleteKeepsValid(entries, limit, key);
      }
    case Delete(key) => DeleteKeepsValid(entries, limit, key);
  }

  // The size never exceeds the limit and no key is stored twice, whatever the operations.
  lemma {:induction false} SizeIsBounded(limit: nat, ops: seq<Op>)
    ensures Valid(Run([], limit, ops), limit)
  {
    if ops != [] {
      SizeIsBounded(limit, ops[..|ops| - 1]);
      StepKeepsValid(Run([], limit, ops[..|ops| - 1]), limit, ops[|ops| - 1]);
    }
  }

  // ---------------------------------------------------------------- values

  // What the operations last made of a key: its last storable value, or nothing.
  function LastStored(ops: seq<Op>, key: string): Option<real> {
    if ops == [] then None
    else
      match ops[|ops| - 1]
      case Set(k, top) =>
        if k == key then (if Storable(top) then Some(top.value) else None) else LastStored(ops[..|ops| - 1], key)
      case Delete(k) => if k == key then None else LastStored(ops[..|ops| - 1], key)
      case Get(_) => LastStored(ops[..|ops| - 1], key)
  }

  // Every retained value is the last one stored for its key.
  lemma {:induction false} RetainedIsLastStored(limit: nat, ops: seq<Op>, e: Entry)
    requires e in Run([], limit, ops)
    ensures LastStored(ops, e.key) == Some(e.top)
  {
    var before := ops[..|ops| - 1];
    var entries, op := Run([], limit, before), ops[|ops| - 1];
    WithoutMembers(entries, op.key);
    LookupMember(entries, op.key);
    if e in entries && !(op.Set? && op.key == e.key) && !(op.Delete? && op.key == e.key) {
      RetainedIsLastStored(limit, before, e);
    }
  }

  // ---------------------------------------------------------------- recency

  predicate Touches(op: Op) {
    op.Get? || (op.Set? && Storable(op.top))
  }

  function Touched(ops: seq<Op>): set<string> {
    set op | op in ops && Touches(op) :: op.key
  }

  predicate Leaves(op: Op, key: string) {
    op.Get? || op.key != key
  }

  ghost predicate RecentAt(entries: seq<Entry>, i: nat, key: string, top: real, touched: set<string>) {
    && i < |entries| && entries[i] == Entry(key, top)
    && forall j :: i < j < |entries| ==> entries[j].key in touched
  }

  // `key` holds `top`, and only touched keys have been stored since.
  ghost predicate Recent(entries: seq<Entry>, key: string, top: real, touched: set<string>) {
    exists i: nat :: RecentAt(entries, i, key, top, touched)
  }

  lemma {:induction false} WithoutKeepsOrder(entries: seq<Entry>, i: nat, key: string)
    requires i < |entries| && entries[i].key != key
    ensures var rest := Without(entries, key);
      && |Without(entries[..i], key)| < |rest|
      && rest[|Without(entries[..i], key)|] == entries[i]
      && rest[|Without(entries[..i], key)| + 1..] == Without(entries[i + 1..], key)
  {
    if i == 0 {
      assert entries[..0] == [];
    } else {
      assert entries[..i][1..] == entries[1..][..i - 1];
      assert entries[1..][i - 1 + 1..] == entries[i + 1..];
      WithoutKeepsOrder(entries[1..], i - 1, key);
    }
  }

  lemma RecentWithout(entries: seq<Entry>, key: string, top: real, touched: set<string>, other: string)
    requires Recent(entries, key, top, touched) && other != key
    ensures Recent(Without(entries, other), key, top, touched)
  {
    var i: nat :| RecentAt(entries, i, key, top, touched);
    WithoutKeepsOrder(entries, i, other);
    var rest, n := Without(entries, other), |Without(entries[..i], other)|;
    WithoutMembers(entries[i + 1..], other);
    forall j | n < j < |rest| ensures rest[j].key in touched {
      assert rest[j] == rest[n + 1..][j - n - 1];
      assert rest[j] in entries[i + 1..];
    }
    assert RecentAt(rest, n, key, top, touched);
  }

  lemma RecentAppend(entries: seq<Entry>, key: string, top: real, touched: set<string>, e: Entry)
    requires Recent(entries, key, top, touched)
    ensures Recent(entries + [e], key, top, touched + {e.key})
  {
    var i: nat :| RecentAt(entries, i, key, top, touched);
    assert RecentAt(entries + [e], i, key, top, touched + {e.key});
  }

  lemma {:induction false} DistinctCount(entries: seq<Entry>, touched: set<string>)
    requires Distinct(entries) && forall i :: 0 <= i < |entries| ==> entries[i].key in touched
    ensures |entries| <= |touched|
  {
    if entries != [] {
      forall i | 0 <= i < |entries[1..]| ensures entries[1..][i].key in touched - {entries[0].key} {
        assert entries[i + 1].key != entries[0].key;
      }
      DistinctCount(entries[1..], touched - {entries[0].key});
    }
  }

  // Eviction drops a recent key only when `limit` other keys are newer.
  lemma RecentEvict(entries: seq<Entry>, key: string, top: real, touched: set<string>, limit: nat)
    requires Recent(entries, key, top, touched) && Distinct(entries) && |touched| < limit
    ensures Recent(Evicted(entries, limit), key, top, touched)
  {
    var i: nat :| RecentAt(entries, i, key, top, touched);
    DistinctCount(entries[i + 1..], touched);
    var drop := if |entries| > limit then |entries| - limit else 0;
    assert RecentAt(Evicted(entries, limit), i - drop, key, top, touched);
  }

  lemma RecentWider(entries: seq<Entry>, key: string, top: real, touched: set<string>, wider: set<string>)
    requires Recent(entries, key, top, touched) && touched <= wider
    ensures Recent(entries, key, top, wider)
  {
    var i: nat :| RecentAt(entries, i, key, top, touched);
    assert RecentAt(entries, i, key, top, wider);
  }

  function Newer(op: Op, key: string): set<string> {
    if Touches(op) && op.key != key then {op.key} else {}
  }

  lemma RecentStep(entries: seq<Entry>, limit: nat, key: string, top: real, touched: set<string>, op: Op)
    requires Valid(entries, limit) && Recent(entries, key, top, touched) && Leaves(op, key)
    requires |touched + Newer(op, key)| < limit
    ensures Recent(Apply(entries, limit, op), key, top, touched + Newer(op, key))
  {
    StepKeepsValid(entries, limit, op);
    WithoutMembers(entries, op.key);
    LookupMember(entries, op.key);
    if op.key == key {
      var i: nat :| RecentAt(entries, i, key, top, touched);
      UniqueLookup(entries, Entry(key, top));
      var last := Without(entries, key) + [Entry(key, top)];
      assert RecentAt(last, |last| - 1, key, top, touched);
    } else {
      RecentWithout(entries, key, top, touched, op.key);
      var rest := Without(entries, op.key);
      match op
      case Get(k) =>
        if Lookup(entries, k).Some? {
          RecentAppend(rest, key, top, touched, Entry(k, Lookup(entries, k).value));
        } else {
          RecentWider(entries, key, top, touched, touched + {k});
        }
      case Set(k, t) =>
        if Storable(t) {
          RecentAppend(rest, key, top, touched, Entry(k, t.value));
          DeleteKeepsValid(entries, limit, k);
          AppendDistinct(rest, Entry(k, t.value));
          RecentEvict(rest + [Entry(k, t.value)], key, top, touched + {k}, limit);
        }
      case Delete(_) =>
    }
  }

  lemma TouchedGrows(before: seq<Op>, op: Op, key: string)
    ensures Touched(before + [op]) - {key} == (Touched(before) - {key}) + Newer(op, key)
  {
    var ops := before + [op];
    assert op in ops;
    forall k | k in Touched(before) ensures k in Touched(ops) {
      var o :| o in before && Touches(o) && o.key == k;
      assert o in ops;
    }
  }

  lemma {:induction false} RecentRun(entries: seq<Entry>, limit: nat, key: string, top: real, ops: seq<Op>)
    requires Valid(entries, limit) && Recent(entries, key, top, {})
    requires forall op :: op in ops ==> Leaves(op, key)
    requires |Touched(ops) - {key}| < limit
    ensures Valid(Run(entries, limit, ops), limit)
    ensures Recent(Run(entries, limit, ops), key, top, Touched(ops) - {key})
  {
    if ops == [] {
      assert Touched(ops) - {key} == {};
    } else {
      var before, op := ops[..|ops| - 1], ops[|ops| - 1];
      assert ops == before + [op];
      TouchedGrows(before, op, key);
      Smaller(Touched(before) - {key}, Touched(ops) - {key});
      RecentRun(entries, limit, key, top, before);
      StepKeepsValid(Run(entries, limit, before), limit, op);
      RecentStep(Run(entries, limit, before), limit, key, top, Touched(before) - {key}, op);
    }
  }

  lemma Smaller(a: set<string>, b: set<string>)
    requires a <= b
    ensures |a| <= |b|
  {
    assert b == a + (b - a);
  }

  lemma StoredIsRecent(entries: seq<Entry>, limit: nat, key: string, top: real)
    requires Valid(entries, limit) && limit >= 1 && top > 0.0
    ensures Recent(Apply(entries, limit, Set(key, Finite(top))), key, top, {})
  {
    var u := Apply(entries, limit, Set(key, Finite(top)));
    assert RecentAt(u, |u| - 1, key, top, {});
  }

  // A hit makes its key the newest, with the value it had.
  lemma HitIsRecent(entries: seq<Entry>, limit: nat, key: string, top: real)
    requires Lookup(entries, key) == Some(top)
    ensures Recent(Apply(entries, limit, Get(key)), key, top, {})
  {
    var u := Apply(entries, limit, Get(key));
    assert RecentAt(u, |u| - 1, key, top, {});
  }

  lemma RecentGuarantee(entries: seq<Entry>, limit: nat, key: string, top: real, ops: seq<Op>)
    requires Valid(entries, limit) && Recent(entries, key, top, {})
    requires (forall op :: op in ops ==> Leaves(op, key)) && |Touched(ops) - {key}| < limit
    ensures Lookup(Run(entries, limit, ops), key) == Some(top)
  {
    RecentRun(entries, limit, key, top, ops);
    var u := Run(entries, limit, ops);
    var i: nat :| RecentAt(u, i, key, top, Touched(ops) - {key});
    UniqueLookup(u, Entry(key, top));
  }

  // The guarantee: a stored key is still returned with its value after any operations that neither set
  // nor delete it and touch fewer than `limit` distinct other keys.
  lemma LeastRecentlyUsedGuarantee(entries: seq<Entry>, limit: nat, key: string, top: real, ops: seq<Op>)
    requires Valid(entries, limit) && limit >= 1 && top > 0.0
    requires (forall op :: op in ops ==> Leaves(op, key)) && |Touched(ops) - {key}| < limit
    ensures Lookup(Run(Apply(entries, limit, Set(key, Finite(top))), limit, ops), key) == Some(top)
  {
    StepKeepsValid(entries, limit, Set(key, Finite(top)));
    StoredIsRecent(entries, limit, key, top);
    RecentGuarantee(Apply(entries, limit, Set(key, Finite(top))), limit, key, top, ops);
  }

  // A hit renews it: whatever happened before, a key that was just returned stays as long again.
  lemma HitRenewsTheGuarantee(entries: seq<Entry>, limit: nat, key: string, top: real, ops: seq<Op>)
    requires Valid(entries, limit) && Lookup(entries, key) == Some(top)
    requires (forall op :: op in ops ==> Leaves(op, key)) && |Touched(ops) - {key}| < limit
    ensures Lookup(Run(Apply(entries, limit, Get(key)), limit, ops), key) == Some(top)
  {
    StepKeepsValid(entries, limit, Get(key));
    HitIsRecent(entries, limit, key, top);
    RecentGuarantee(Apply(entries, limit, Get(key)), limit, key, top, ops);
  }

  // ---------------------------------------------------------------- and no longer

  ghost predicate Stores(op: Op, key: string) {
    op.Set? && Storable(op.top) && op.key != key
  }

  // If `key` is still there, every touched key is newer than it.
  ghost predicate Oldest(entries: seq<Entry>, key: string, touched: set<string>) {
    forall i :: 0 <= i < |entries| && entries[i].key == key ==> touched <= Keys(entries[i + 1..])
  }

  lemma WithoutKeys(entries: seq<Entry>, key: string)
    ensures Keys(Without(entries, key)) == Keys(entries) - {key}
  {
    WithoutMembers(entries, key);
  }

  // Where an entry of another key stands after a removal.
  lemma PlaceWithout(entries: seq<Entry>, i: nat, n: nat, other: string)
    requires Distinct(entries) && i < |entries| && entries[i].key != other
    requires n < |Without(entries, other)| && Without(entries, other)[n].key == entries[i].key
    ensures Without(entries, other)[n + 1..] == Without(entries[i + 1..], other)
  {
    WithoutKeepsOrder(entries, i, other);
    WithoutMembers(entries, other);
  }

  lemma OldestWithout(entries: seq<Entry>, key: string, touched: set<string>, other: string)
    requires Distinct(entries) && Oldest(entries, key, touched) && other != key
    ensures Oldest(Without(entries, other), key, touched - {other})
  {
    var rest := Without(entries, other);
    WithoutMembers(entries, other);
    forall n | 0 <= n < |rest| && rest[n].key == key ensures touched - {other} <= Keys(rest[n + 1..]) {
      assert rest[n] in entries;
      var i :| 0 <= i < |entries| && entries[i] == rest[n];
      PlaceWithout(entries, i, n, other);
      WithoutKeys(entries[i + 1..], other);
    }
  }

  lemma OldestAppend(entries: seq<Entry>, key: string, touched: set<string>, e: Entry, limit: nat)
    requires Oldest(entries, key, touched - {e.key}) && e.key != key
    ensures Oldest(Evicted(entries + [e], limit), key, touched + {e.key})
  {
    var all := entries + [e];
    var kept := Evicted(all, limit);
    forall i | 0 <= i < |kept| && kept[i].key == key ensures touched + {e.key} <= Keys(kept[i + 1..]) {
      var j := i + |all| - |kept|;
      assert all[j] == kept[i] && all[j + 1..] == kept[i + 1..];
      assert j < |entries|;
      assert all[j + 1..] == entries[j + 1..] + [e];
      forall k | k in touched + {e.key} ensures k in Keys(kept[i + 1..]) {
        if k == e.key {
          assert e in kept[i + 1..];
        } else {
          assert k in Keys(entries[j + 1..]);
        }
      }
    }
  }

  lemma {:induction false} OldestRun(entries: seq<Entry>, limit: nat, key: string, ops: seq<Op>)
    requires Valid(entries, limit) && forall op :: op in ops ==> Stores(op, key)
    ensures Valid(Run(entries, limit, ops), limit) && Oldest(Run(entries, limit, ops), key, Touched(ops))
  {
    if ops != [] {
      var before, op := ops[..|ops| - 1], ops[|ops| - 1];
      assert ops == before + [op];
      assert op in ops;
      OldestRun(entries, limit, key, before);
      var now := Run(entries, limit, before);
      StepKeepsValid(now, limit, op);
      OldestWithout(now, key, Touched(before), op.key);
      OldestAppend(Without(now, op.key), key, Touched(before), Entry(op.key, op.top.value), limit);
      assert Touched(ops) == Touched(before) + {op.key};
    } else {
      assert Touched(ops) == {};
    }
  }

  lemma {:induction false} KeysCount(entries: seq<Entry>)
    ensures |Keys(entries)| <= |entries|
  {
    if entries != [] {
      KeysCount(entries[1..]);
      assert entries == [entries[0]] + entries[1..];
      assert Keys(entries) == {entries[0].key} + Keys(entries[1..]);
    }
  }

  lemma RecentIsExact(entries: seq<Entry>, limit: nat, key: string, top: real, ops: seq<Op>)
    requires Valid(entries, limit) && Recent(entries, key, top, {})
    requires forall op :: op in ops ==> Stores(op, key)
    ensures Lookup(Run(entries, limit, ops), key) == (if |Touched(ops)| < limit then Some(top) else None)
  {
    assert Touched(ops) - {key} == Touched(ops);
    if |Touched(ops)| < limit {
      RecentGuarantee(entries, limit, key, top, ops);
    } else {
      OldestRun(entries, limit, key, ops);
      var u := Run(entries, limit, ops);
      LookupMember(u, key);
      if Lookup(u, key).Some? {
        var i :| 0 <= i < |u| && u[i] == Entry(key, Lookup(u, key).value);
        Smaller(Touched(ops), Keys(u[i + 1..]));
        KeysCount(u[i + 1..]);
        assert false;
      }
    }
  }

  // Exactly that long: when the operations only store other keys, the value survives if and only if
  // they store fewer than `limit` distinct ones.
  lemma EvictionIsExact(entries: seq<Entry>, limit: nat, key: string, top: real, ops: seq<Op>)
    requires Valid(entries, limit) && limit >= 1 && top > 0.0
    requires forall op :: op in ops ==> Stores(op, key)
    ensures var u := Run(Apply(entries, limit, Set(key, Finite(top))), limit, ops);
      Lookup(u, key) == (if |Touched(ops)| < limit then Some(top) else None)
  {
    StepKeepsValid(entries, limit, Set(key, Finite(top)));
    StoredIsRecent(entries, limit, key, top);
    RecentIsExact(Apply(entries, limit, Set(key, Finite(top))), limit, key, top, ops);
  }

  // The same after a hit.
  lemma EvictionAfterHitIsExact(entries: seq<Entry>, limit: nat, key: string, top: real, ops: seq<Op>)
    requires Valid(entries, limit) && Lookup(entries, key) == Some(top)
    requires forall op :: op in ops ==> Stores(op, key)
    ensures Lookup(Run(Apply(entries, limit, Get(key)), limit, ops), key)
         == (if |Touched(ops)| < limit then Some(top) else None)
  {
    StepKeepsValid(entries, limit, Get(key));
    HitIsRecent(entries, limit, key, top);
    RecentIsExact(Apply(entries, limit, Get(key)), limit, key, top, ops);
  }

  // ---------------------------------------------------------------- one operation

  lemma {:induction false} LookupWithout(entries: seq<Entry>, key: string, k: string)
    ensures Lookup(Without(entries, key), k) == if k == key then None else Lookup(entries, k)
  {
    if entries != [] {
      LookupWithout(entries[1..], key, k);
      if entries[0].key != key {
        assert Without(entries, key)[1..] == Without(entries[1..], key);
      }
    }
  }

  lemma {:induction false} LookupAppend(entries: seq<Entry>, e: Entry, k: string)
    ensures Lookup(entries + [e], k)
         == if Lookup(entries, k).Some? then Lookup(entries, k) else if e.key == k then Some(e.top) else None
  {
    if entries == [] {
      assert entries + [e] == [e];
    } else {
      assert (entries + [e])[1..] == entries[1..] + [e];
      LookupAppend(entries[1..], e, k);
    }
  }

  // What one operation does to the value of any key, as long as nothing is evicted: a read changes none, a
  // deletion forgets its key, a store of a positive finite value stores it and any other store forgets.
  lemma ValuesAfterOperation(entries: seq<Entry>, limit: nat, op: Op, k: string)
    requires |entries| < limit
    ensures Lookup(Apply(entries, limit, op), k) ==
            match op
            case Get(_) => Lookup(entries, k)
            case Set(key, top) =>
              if k != key then Lookup(entries, k)
              else if top.Finite? && top.value > 0.0 then Some(top.value) else None
            case Delete(key) => if k == key then None else Lookup(entries, k)
  {
    LookupWithout(entries, op.key, k);
    LookupWithout(entries, op.key, op.key);
    match op
    case Get(key) =>
      if Lookup(entries, key).Some? {
        LookupAppend(Without(entries, key), Entry(key, Lookup(entries, key).value), k);
      }
    case Set(key, top) => if Storable(top) { LookupAppend(Without(entries, key), Entry(key, top.value), k); }
    case Delete(_) =>
  }

  // At the limit a store of a new key gives up exactly the oldest entry.
  lemma FullStoreEvictsTheOldest(entries: seq<Entry>, limit: nat, key: string, top: real)
    requires limit >= 1 && |entries| == limit && top > 0.0 && Lookup(entries, key) == None
    ensures Apply(entries, limit, Set(key, Finite(top))) == entries[1..] + [Entry(key, top)]
  {
    WithoutAbsent(entries, key);
  }

  lemma {:induction false} WithoutAbsent(entries: seq<Entry>, key: string)
    requires Lookup(entries, key) == None
    ensures Without(entries, key) == entries
  {
    if entries != [] {
      WithoutAbsent(entries[1..], key);
    }
  }
}
