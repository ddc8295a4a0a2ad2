/** A least-recently-used cache with expiry. The store is a Map whose insertion order is the recency order. */
module Caching {
  import opened Sequences

  /** One Map entry; times are milliseconds of a monotonic clock. */
  datatype Slot<K, V> = Slot(key: K, value: V, expiresAt: real)

  const PRUNE_PERIOD := 100

  /** `writes` counts the writes since the last prune; `maxSize` is whatever the caller passed, possibly below 1. */
  datatype State<K, V> = State(store: seq<Slot<K, V>>, maxSize: int, writes: nat)

  // ---- The operations as functions ----

  function Lookup<K(==), V>(store: seq<Slot<K, V>>, k: K): (r: Option<Slot<K, V>>)
    ensures r.Some? ==> r.value in store && r.value.key == k
    ensures r.None? ==> forall e | e in store :: e.key != k
  {
    if store == [] then None
    else if store[0].key == k then Some(store[0])
    else Lookup(store[1..], k)
  }

  predicate Expired<K, V>(e: Slot<K, V>, t: real) {
    t > e.expiresAt
  }

  function RemoveKey<K(==), V>(store: seq<Slot<K, V>>, k: K): seq<Slot<K, V>> {
    Filter(store, (e: Slot<K, V>) => e.key != k)
  }

  function RemoveExpired<K, V>(store: seq<Slot<K, V>>, t: real): seq<Slot<K, V>> {
    Filter(store, (e: Slot<K, V>) => !Expired(e, t))
  }

  function RemoveMatching<K, V>(store: seq<Slot<K, V>>, matches: K -> bool): seq<Slot<K, V>> {
    Filter(store, (e: Slot<K, V>) => !matches(e.key))
  }

  /** A hit returns the value and makes the key the most recent one; an expired slot is dropped. */
  function GetResult<K(==), V>(s: State<K, V>, k: K, t: real): Option<V> {
    var e := Lookup(s.store, k);
    if e.Some? && !Expired(e.value, t) then Some(e.value.value) else None
  }

  function AfterGet<K(==), V>(s: State<K, V>, k: K, t: real): State<K, V> {
    match Lookup(s.store, k)
    case None => s
    case Some(e) => s.(store := RemoveKey(s.store, k) + if Expired(e, t) then [] else [e])
  }

  function AfterPrune<K, V>(s: State<K, V>, t: real): State<K, V> {
    s.(store := RemoveExpired(s.store, t), writes := 0)
  }

  function CountWrite<K, V>(s: State<K, V>, tPrune: real): State<K, V> {
    if s.writes + 1 >= PRUNE_PERIOD then AfterPrune(s, tPrune) else s.(writes := s.writes + 1)
  }

  function MakeRoom<K(==), V>(s: State<K, V>, k: K): seq<Slot<K, V>> {
    if Lookup(s.store, k).Some? then RemoveKey(s.store, k)
    else if |s.store| >= s.maxSize && s.store != [] then s.store[1..]
    else s.store
  }

  /** set() reads the clock for the periodic prune and again for the expiry of the new slot. */
  function AfterSet<K(==), V>(s: State<K, V>, k: K, v: V, ttl: real, tPrune: real, t: real): State<K, V> {
    var s' := CountWrite(s, tPrune);
    s'.(store := MakeRoom(s', k) + [Slot(k, v, t + ttl)])
  }

  function AfterSetMaxSize<K, V>(s: State<K, V>, size: int): State<K, V> {
    var excess := |s.store| - size;
    s.(maxSize := size, store := if excess <= 0 then s.store else if excess >= |s.store| then [] else s.store[excess..])
  }

  // ---- The class ----

  class Cache<K(==), V> {
    var store: seq<Slot<K, V>>
    var defaultTtlMs: real
    var maxSize: int
    var writesSincePrune: nat

    function Model(): State<K, V>
      reads this
    {
      State(store, maxSize, writesSincePrune)
    }

    constructor (defaultTtlMs: real, maxSize: int)
      ensures Model() == State([], maxSize, 0) && this.defaultTtlMs == defaultTtlMs
    {
      this.defaultTtlMs, this.maxSize, store, writesSincePrune := defaultTtlMs, maxSize, [], 0;
    }

    method Get(k: K, now: real) returns (r: Option<V>)
      modifies this`store
      ensures r == GetResult(old(Model()), k, now)
      ensures Model() == AfterGet(old(Model()), k, now)
    {
      var entry := Lookup(store, k);
      if entry.None? {
        return None;
      }
      if now > entry.value.expiresAt {
        store := RemoveKey(store, k);
        assert store + [] == store;
        return None;
      }
      store := RemoveKey(store, k);
      store := store + [entry.value];
      return Some(entry.value.value);
    }

    method Has(k: K, now: real) returns (r: bool)
      modifies this`store
      ensures r <==> GetResult(old(Model()), k, now).Some?
      ensures Model() == AfterGet(old(Model()), k, now)
    {
      var v := Get(k, now);
      r := v.Some?;
    }

    method Set(k: K, v: V, ttlMs: Option<real>, tPrune: real, now: real)
      modifies this`store, this`writesSincePrune
      ensures Model() == AfterSet(old(Model()), k, v, if ttlMs.Some? then ttlMs.value else defaultTtlMs, tPrune, now)
    {
      writesSincePrune := writesSincePrune + 1;
      if writesSincePrune >= PRUNE_PERIOD {
        var _ := Prune(tPrune);
      }
      if Lookup(store, k).Some? {
        store := RemoveKey(store, k);
      } else if |store| >= maxSize {
        if store != [] {
          store := store[1..];
        }
      }
      store := store + [Slot(k, v, now + if ttlMs.Some? then ttlMs.value else defaultTtlMs)];
    }

    method Delete(k: K) returns (removed: bool)
      modifies this`store
      ensures removed <==> Lookup(old(store), k).Some?
      ensures store == RemoveKey(old(store), k)
      ensures Subseq(store, old(store)) && forall e :: e in store <==> e in old(store) && e.key != k
    {
      FilterIsSubseq(store, (e: Slot<K, V>) => e.key != k);
      FilterElements(store, (e: Slot<K, V>) => e.key != k);
      removed := Lookup(store, k).Some?;
      store := RemoveKey(store, k);
    }

    method Clear()
      modifies this`store, this`writesSincePrune
      ensures Model() == State([], maxSize, 0)
    {
      store, writesSincePrune := [], 0;
    }

    method Prune(now: real) returns (removed: nat)
      modifies this`store, this`writesSincePrune
      ensures store == RemoveExpired(old(store), now) && writesSincePrune == 0
      ensures Subseq(store, old(store)) && forall e :: e in store <==> e in old(store) && now <= e.expiresAt
      ensures removed == |old(store)| - |store|
    {
      writesSincePrune := 0;
      removed := 0;
      var i := 0;
      ghost var j := 0;
      while i < |store|
        invariant 0 <= i <= |store| && 0 <= j <= |old(store)| && |store| - i == |old(store)| - j
        invariant store[..i] == RemoveExpired(old(store)[..j], now) && store[i..] == old(store)[j..]
        invariant removed == j - i && writesSincePrune == 0
        decreases |store| - i
      {
        assert store[i] == old(store)[j] by { assert store[i..][0] == old(store)[j..][0]; }
        assert old(store)[..j + 1][..j] == old(store)[..j];
        assert store[i + 1..] == store[i..][1..] && old(store)[j + 1..] == old(store)[j..][1..];
        if now > store[i].expiresAt {
          store := store[..i] + store[i + 1..];
          removed := removed + 1;
        } else {
          assert store[..i + 1] == store[..i] + [store[i]];
          i := i + 1;
        }
        j := j + 1;
      }
      assert store[..i] == store && old(store)[..j] == old(store);
      FilterIsSubseq(old(store), (e: Slot<K, V>) => !Expired(e, now));
      FilterElements(old(store), (e: Slot<K, V>) => !Expired(e, now));
    }

    method InvalidatePattern(matches: K -> bool) returns (removed: nat)
      modifies this`store
      ensures store == RemoveMatching(old(store), matches)
      ensures Subseq(store, old(store)) && forall e :: e in store <==> e in old(store) && !matches(e.key)
      ensures removed == |old(store)| - |store|
    {
      removed := 0;
      var i := 0;
      ghost var j := 0;
      while i < |store|
        invariant 0 <= i <= |store| && 0 <= j <= |old(store)| && |store| - i == |old(store)| - j
        invariant store[..i] == RemoveMatching(old(store)[..j], matches) && store[i..] == old(store)[j..]
        invariant removed == j - i
        decreases |store| - i
      {
        assert store[i] == old(store)[j] by { assert store[i..][0] == old(store)[j..][0]; }
        assert old(store)[..j + 1][..j] == old(store)[..j];
        assert store[i + 1..] == store[i..][1..] && old(store)[j + 1..] == old(store)[j..][1..];
        if matches(store[i].key) {
          store := store[..i] + store[i + 1..];
          removed := removed + 1;
        } else {
          assert store[..i + 1] == store[..i] + [store[i]];
          i := i + 1;
        }
        j := j + 1;
      }
      assert store[..i] == store && old(store)[..j] == old(store);
      FilterIsSubseq(old(store), (e: Slot<K, V>) => !matches(e.key));
      FilterElements(old(store), (e: Slot<K, V>) => !matches(e.key));
    }

    method SetMaxSize(size: int)
      modifies this`store, this`maxSize
      ensures Model() == AfterSetMaxSize(old(Model()), size)
      ensures |store| == if |old(store)| <= size then |old(store)| else if size < 0 then 0 else size
      ensures store == old(store)[|old(store)| - |store|..]
    {
      maxSize := size;
      ghost var n := 0;
      while |store| > maxSize
        invariant n <= |old(store)| && store == old(store)[n..]
        invariant maxSize == size && (n == 0 || |store| >= size)
        decreases |store|
      {
        if store != [] {
          store := store[1..];
          n := n + 1;
        } else {
          break;
        }
      }
    }
  }

  // ---- Whole runs ----

  datatype Op<!K(==), V> =
    | Get(k: K, t: real)
    | Set(k: K, v: V, ttl: real, tPrune: real, t: real)
    | Delete(k: K)
    | Clear
    | Prune(t: real)
    | Invalidate(matches: K -> bool)
    | Resize(size: int)

  function Step<K(==), V>(s: State<K, V>, op: Op<K, V>): State<K, V> {
    match op
    case Get(k, t) => AfterGet(s, k, t)
    case Set(k, v, ttl, tPrune, t) => AfterSet(s, k, v, ttl, tPrune, t)
    case Delete(k) => s.(store := RemoveKey(s.store, k))
    case Clear => s.(store := [], writes := 0)
    case Prune(t) => AfterPrune(s, t)
    case Invalidate(matches) => s.(store := RemoveMatching(s.store, matches))
    case Resize(size) => AfterSetMaxSize(s, size)
  }

  function Run<K(==), V>(s: State<K, V>, ops: seq<Op<K, V>>): State<K, V> {
    if ops == [] then s else Step(Run(s, ops[..|ops| - 1]), ops[|ops| - 1])
  }

  function Empty<K, V>(size: int): State<K, V> {
    State([], size, 0)
  }

  /** The number of slots the cache can really hold: even a size below 1 admits one entry. */
  function Capacity<K, V>(s: State<K, V>): nat {
    if s.maxSize < 1 then 1 else s.maxSize
  }

  predicate DistinctKeys<K(==), V>(store: seq<Slot<K, V>>) {
    forall i, j :: 0 <= i < j < |store| ==> store[i].key != store[j].key
  }

  predicate Valid<K(==), V>(s: State<K, V>) {
    DistinctKeys(s.store) && |s.store| <= Capacity(s)
  }

  lemma {:induction false} SubseqDistinctKeys<K, V>(a: seq<Slot<K, V>>, b: seq<Slot<K, V>>)
    requires Subseq(a, b) && DistinctKeys(b)
    ensures DistinctKeys(a)
    decreases |b|
  {
    if a != [] {
      var b' := b[..|b| - 1];
      if a[|a| - 1] == b[|b| - 1] {
        var a' := a[..|a| - 1];
        SubseqDistinctKeys(a', b');
        SubseqKeeps(a', b');
        assert forall i | 0 <= i < |a'| :: a[i] in a';
      } else {
        SubseqDistinctKeys(a, b');
      }
    }
  }

  lemma FilterKeepsDistinct<K, V>(store: seq<Slot<K, V>>, p: Slot<K, V> -> bool)
    requires DistinctKeys(store)
    ensures DistinctKeys(Filter(store, p)) && |Filter(store, p)| <= |store|
  {
    FilterIsSubseq(store, p);
    SubseqKeeps(Filter(store, p), store);
    SubseqDistinctKeys(Filter(store, p), store);
  }

  lemma UnexpiredKept<K, V>(store: seq<Slot<K, V>>, t: real)
    requires DistinctKeys(store)
    ensures DistinctKeys(RemoveExpired(store, t)) && |RemoveExpired(store, t)| <= |store|
    ensures forall e | e in RemoveExpired(store, t) :: e in store && !Expired(e, t)
  {
    FilterKeepsDistinct(store, (e: Slot<K, V>) => !Expired(e, t));
    FilterElements(store, (e: Slot<K, V>) => !Expired(e, t));
  }

  lemma UnmatchedKept<K, V>(store: seq<Slot<K, V>>, matches: K -> bool)
    requires DistinctKeys(store)
    ensures DistinctKeys(RemoveMatching(store, matches)) && |RemoveMatching(store, matches)| <= |store|
    ensures forall e | e in RemoveMatching(store, matches) :: e in store && !matches(e.key)
  {
    FilterKeepsDistinct(store, (e: Slot<K, V>) => !matches(e.key));
    FilterElements(store, (e: Slot<K, V>) => !matches(e.key));
  }

  // Each kind of removal keeps nested stores nested, and never widens the gap between them.

  lemma KeyContained<K, V>(a: seq<Slot<K, V>>, b: seq<Slot<K, V>>, k: K)
    requires Subseq(a, b)
    ensures Subseq(RemoveKey(a, k), RemoveKey(b, k))
    ensures |RemoveKey(b, k)| - |RemoveKey(a, k)| <= |b| - |a|
  {
    FilterMonotone(a, b, (e: Slot<K, V>) => e.key != k);
  }

  lemma ExpiredContained<K, V>(a: seq<Slot<K, V>>, b: seq<Slot<K, V>>, t: real)
    requires Subseq(a, b)
    ensures Subseq(RemoveExpired(a, t), RemoveExpired(b, t))
    ensures |RemoveExpired(b, t)| - |RemoveExpired(a, t)| <= |b| - |a|
  {
    FilterMonotone(a, b, (e: Slot<K, V>) => !Expired(e, t));
  }

  lemma MatchingContained<K, V>(a: seq<Slot<K, V>>, b: seq<Slot<K, V>>, matches: K -> bool)
    requires Subseq(a, b)
    ensures Subseq(RemoveMatching(a, matches), RemoveMatching(b, matches))
    ensures |RemoveMatching(b, matches)| - |RemoveMatching(a, matches)| <= |b| - |a|
  {
    FilterMonotone(a, b, (e: Slot<K, V>) => !matches(e.key));
  }

  /** Removing a stored key takes out exactly one slot, and removing an absent one nothing. */
  lemma RemoveKeyAt<K, V>(store: seq<Slot<K, V>>, i: nat)
    requires DistinctKeys(store) && i < |store|
    ensures RemoveKey(store, store[i].key) == RemoveAt(store, i)
  {
    var p := (e: Slot<K, V>) => e.key != store[i].key;
    var others := RemoveAt(store, i);
    forall e | e in others
      ensures p(e)
    {
      var n :| 0 <= n < |others| && others[n] == e;
      assert e == store[if n < i then n else n + 1];
    }
    FilterRemoveAt(store, i, p);
    FilterAll(others, p);
  }

  lemma RemoveKeyCount<K, V>(store: seq<Slot<K, V>>, k: K)
    requires DistinctKeys(store)
    ensures |RemoveKey(store, k)| == |store| - if Lookup(store, k).Some? then 1 else 0
    ensures Lookup(store, k).None? ==> RemoveKey(store, k) == store
  {
    if Lookup(store, k).None? {
      FilterAll(store, (e: Slot<K, V>) => e.key != k);
    } else {
      var i :| 0 <= i < |store| && store[i].key == k;
      RemoveKeyAt(store, i);
    }
  }

  lemma RemoveKeySize<K, V>(store: seq<Slot<K, V>>, k: K)
    requires DistinctKeys(store)
    ensures |RemoveKey(store, k)| == |store| - if Lookup(store, k).Some? then 1 else 0
    ensures DistinctKeys(RemoveKey(store, k))
    ensures forall e | e in RemoveKey(store, k) :: e in store && e.key != k
    ensures forall e | e in store && e.key != k :: e in RemoveKey(store, k)
    ensures Lookup(store, k).None? ==> RemoveKey(store, k) == store
  {
    RemoveKeyCount(store, k);
    FilterKeepsDistinct(store, (e: Slot<K, V>) => e.key != k);
    FilterElements(store, (e: Slot<K, V>) => e.key != k);
  }

  lemma AppendDistinct<K, V>(store: seq<Slot<K, V>>, e: Slot<K, V>)
    requires DistinctKeys(store) && forall x | x in store :: x.key != e.key
    ensures DistinctKeys(store + [e])
  {
  }

  lemma MakeRoomValid<K, V>(s: State<K, V>, k: K)
    requires Valid(s)
    ensures var room := MakeRoom(s, k);
      |room| < Capacity(s) && DistinctKeys(room) && forall e | e in room :: e.key != k && e in s.store
  {
    RemoveKeySize(s.store, k);
  }

  lemma CountWriteValid<K, V>(s: State<K, V>, tPrune: real)
    requires Valid(s)
    ensures Valid(CountWrite(s, tPrune)) && CountWrite(s, tPrune).maxSize == s.maxSize
    ensures forall e | e in CountWrite(s, tPrune).store :: e in s.store
  {
    UnexpiredKept(s.store, tPrune);
  }

  lemma StepValid<K, V>(s: State<K, V>, op: Op<K, V>)
    requires Valid(s)
    ensures Valid(Step(s, op))
  {
    match op
    case Get(k, t) =>
      RemoveKeySize(s.store, k);
      if Lookup(s.store, k).Some? {
        AppendDistinct(RemoveKey(s.store, k), Lookup(s.store, k).value);
      }
    case Set(k, v, ttl, tPrune, t) =>
      CountWriteValid(s, tPrune);
      MakeRoomValid(CountWrite(s, tPrune), k);
      AppendDistinct(MakeRoom(CountWrite(s, tPrune), k), Slot(k, v, t + ttl));
    case Delete(k) => RemoveKeySize(s.store, k);
    case Clear =>
    case Prune(t) => UnexpiredKept(s.store, t);
    case Invalidate(matches) => UnmatchedKept(s.store, matches);
    case Resize(size) =>
  }

  /** In every reachable state keys are distinct and the size is within the capacity. */
  lemma {:induction false} RunValid<K, V>(s: State<K, V>, ops: seq<Op<K, V>>)
    requires Valid(s)
    ensures Valid(Run(s, ops))
  {
    if ops != [] {
      RunValid(s, ops[..|ops| - 1]);
      StepValid(Run(s, ops[..|ops| - 1]), ops[|ops| - 1]);
    }
  }

  ghost predicate NeverResized<K, V>(ops: seq<Op<K, V>>) {
    forall op | op in ops :: !op.Resize?
  }

  lemma {:induction false} SizeUnchanged<K, V>(s: State<K, V>, ops: seq<Op<K, V>>)
    requires NeverResized(ops)
    ensures Run(s, ops).maxSize == s.maxSize
  {
    if ops != [] {
      assert forall op | op in ops[..|ops| - 1] :: op in ops;
      SizeUnchanged(s, ops[..|ops| - 1]);
      assert ops[|ops| - 1] in ops;
    }
  }

  /**
    The store stays within the size asked for, over every run that does not resize it, exactly if that size is
    positive.
    */
  lemma StaysWithinIffPositive<K, V>(m: int, k: K, v: V)
    ensures m >= 1 <==> forall ops: seq<Op<K, V>> | NeverResized(ops) :: |Run(Empty<K, V>(m), ops).store| <= m
  {
    if m >= 1 {
      forall ops: seq<Op<K, V>> | NeverResized(ops)
        ensures |Run(Empty<K, V>(m), ops).store| <= m
      {
        RunValid(Empty<K, V>(m), ops);
        SizeUnchanged(Empty<K, V>(m), ops);
      }
    } else {
      var one: seq<Op<K, V>> := [Set(k, v, 0.0, 0.0, 0.0)];
      assert NeverResized(one) && one[..0] == [];
      assert Run(Empty<K, V>(m), one) == Step(Empty<K, V>(m), one[0]);
      assert |Run(Empty<K, V>(m), one).store| == 1;
    }
  }

  // ---- What set() and get() do to the store ----

  lemma KeptUnpruned<K, V>(s: State<K, V>, tPrune: real)
    ensures var kept := CountWrite(s, tPrune).store;
      && Subseq(kept, s.store)
      && forall e :: e in kept <==> e in s.store && (s.writes >= 99 ==> tPrune <= e.expiresAt)
    ensures CountWrite(s, tPrune).writes == if s.writes >= 99 then 0 else s.writes + 1
    ensures CountWrite(s, tPrune).maxSize == s.maxSize
  {
    SubseqRefl(s.store);
    FilterIsSubseq(s.store, (e: Slot<K, V>) => !Expired(e, tPrune));
    FilterElements(s.store, (e: Slot<K, V>) => !Expired(e, tPrune));
  }

  ghost predicate HasKey<K, V>(store: seq<Slot<K, V>>, k: K) {
    exists e :: e in store && e.key == k
  }

  /** The store after a slot is put at the recent end: its key's old slot goes, or else the oldest when it is full. */
  ghost predicate PutLast<K, V>(store: seq<Slot<K, V>>, store': seq<Slot<K, V>>, maxSize: int, e: Slot<K, V>) {
    if HasKey(store, e.key) then
      exists i :: 0 <= i < |store| && store[i].key == e.key && store' == store[..i] + store[i + 1..] + [e]
    else if |store| >= maxSize && store != [] then store' == store[1..] + [e]
    else store' == store + [e]
  }

  lemma RoomThenLast<K, V>(s: State<K, V>, e: Slot<K, V>)
    requires DistinctKeys(s.store)
    ensures PutLast(s.store, MakeRoom(s, e.key) + [e], s.maxSize, e)
  {
    if Lookup(s.store, e.key).Some? {
      var i :| 0 <= i < |s.store| && s.store[i] == Lookup(s.store, e.key).value;
      RemoveKeyAt(s.store, i);
    }
  }

  /**
    In every reachable state, set() first drops what has expired if it is the hundredth write since the last pruning,
    and then puts the new slot at the recent end.
    */
  lemma SetPutsLast<K, V>(size: int, ops: seq<Op<K, V>>, k: K, v: V, ttl: real, tPrune: real, t: real)
    returns (kept: seq<Slot<K, V>>)
    ensures var s, s' := Run(Empty<K, V>(size), ops), Run(Empty<K, V>(size), ops + [Set(k, v, ttl, tPrune, t)]);
      && Subseq(kept, s.store)
      && (forall e :: e in kept <==> e in s.store && (s.writes == 99 ==> tPrune <= e.expiresAt))
      && PutLast(kept, s'.store, s.maxSize, Slot(k, v, t + ttl))
      && s'.maxSize == s.maxSize && s'.writes == if s.writes == 99 then 0 else s.writes + 1
  {
    var s := Run(Empty<K, V>(size), ops);
    RunValid(Empty<K, V>(size), ops);
    WritesBounded(Empty<K, V>(size), ops);
    assert (ops + [Set(k, v, ttl, tPrune, t)])[..|ops|] == ops;
    KeptUnpruned(s, tPrune);
    CountWriteValid(s, tPrune);
    RoomThenLast(CountWrite(s, tPrune), Slot(k, v, t + ttl));
    kept := CountWrite(s, tPrune).store;
  }

  /** The sets since the last pruning or clearing; each hundredth prunes. */
  function SetsSincePrune<K, V>(ops: seq<Op<K, V>>): nat {
    if ops == [] then 0
    else
      var before := SetsSincePrune(ops[..|ops| - 1]);
      match ops[|ops| - 1]
      case Set(_, _, _, _, _) => if before == 99 then 0 else before + 1
      case Clear => 0
      case Prune(_) => 0
      case _ => before
  }

  /** In every run the counter of writes is that count. */
  lemma {:induction false} WritesAreCounted<K, V>(size: int, ops: seq<Op<K, V>>)
    ensures Run(Empty<K, V>(size), ops).writes == SetsSincePrune(ops)
  {
    if ops != [] {
      var n := |ops| - 1;
      WritesAreCounted(size, ops[..n]);
      WritesBounded(Empty<K, V>(size), ops[..n]);
      if ops[n].Set? { KeptUnpruned(Run(Empty<K, V>(size), ops[..n]), ops[n].tPrune); }
    }
  }

  lemma {:induction false} WritesBounded<K, V>(s: State<K, V>, ops: seq<Op<K, V>>)
    requires s.writes < 100
    ensures Run(s, ops).writes < 100
  {
    if ops != [] {
      WritesBounded(s, ops[..|ops| - 1]);
      if ops[|ops| - 1].Set? { KeptUnpruned(Run(s, ops[..|ops| - 1]), ops[|ops| - 1].tPrune); }
    }
  }

  /** A get() moves the slot it finds to the recent end, or drops it once it has expired; the others stay in order. */
  lemma GetMovesLast<K, V>(size: int, ops: seq<Op<K, V>>, k: K, t: real)
    ensures var s, s' := Run(Empty<K, V>(size), ops), Run(Empty<K, V>(size), ops + [Get(k, t)]);
      && s'.maxSize == s.maxSize && s'.writes == s.writes
      && (!HasKey(s.store, k) ==> s'.store == s.store && GetResult(s, k, t).None?)
      && forall i | 0 <= i < |s.store| && s.store[i].key == k ::
           var others := s.store[..i] + s.store[i + 1..];
           if t <= s.store[i].expiresAt
           then s'.store == others + [s.store[i]] && GetResult(s, k, t) == Some(s.store[i].value)
           else s'.store == others && GetResult(s, k, t).None?
  {
    var s := Run(Empty<K, V>(size), ops);
    RunValid(Empty<K, V>(size), ops);
    assert (ops + [Get(k, t)])[..|ops|] == ops;
    AfterGetIs(s, k, t);
    forall i | 0 <= i < |s.store| && s.store[i].key == k
      ensures Lookup(s.store, k) == Some(s.store[i]) && RemoveKey(s.store, k) == s.store[..i] + s.store[i + 1..]
    {
      LookupFinds(s.store, s.store[i]);
      RemoveKeyAt(s.store, i);
    }
  }

  // ---- Capacity monotonicity ----

  /** The smaller cache is contained, in order, in the larger one, and trails it by no more than the extra capacity. */
  predicate Contained<K(==), V(==)>(a: State<K, V>, b: State<K, V>) {
    && Valid(a) && Valid(b) && a.writes == b.writes
    && Capacity(a) <= Capacity(b)
    && Subseq(a.store, b.store)
    && |b.store| - |a.store| <= Capacity(b) - Capacity(a)
  }

  lemma {:induction false} LookupFinds<K, V>(store: seq<Slot<K, V>>, e: Slot<K, V>)
    requires DistinctKeys(store) && e in store
    ensures Lookup(store, e.key) == Some(e)
  {
    if store[0] != e {
      LookupFinds(store[1..], e);
      assert e in store[1..] && store[0].key != e.key;
    }
  }

  /** What the smaller cache holds, the larger one holds with the same value and expiry. */
  lemma LookupContained<K, V>(a: seq<Slot<K, V>>, b: seq<Slot<K, V>>, k: K)
    requires DistinctKeys(b) && Subseq(a, b)
    ensures Lookup(a, k).Some? ==> Lookup(b, k) == Lookup(a, k)
  {
    SubseqKeeps(a, b);
    if Lookup(a, k).Some? {
      LookupFinds(b, Lookup(a, k).value);
    }
  }

  lemma RemoveKeyContained<K, V>(a: State<K, V>, b: State<K, V>, k: K)
    requires Contained(a, b)
    ensures Contained(a.(store := RemoveKey(a.store, k)), b.(store := RemoveKey(b.store, k)))
  {
    RemoveKeySize(a.store, k);
    RemoveKeySize(b.store, k);
    KeyContained(a.store, b.store, k);
  }

  lemma HitContained<K, V>(a: State<K, V>, b: State<K, V>, e: Slot<K, V>)
    requires Contained(a, b) && e in b.store && (Lookup(a.store, e.key).Some? ==> e in a.store)
    ensures var a', b' := RemoveKey(a.store, e.key), RemoveKey(b.store, e.key);
      Contained(a.(store := if Lookup(a.store, e.key).Some? then a' + [e] else a'), b.(store := b' + [e]))
  {
    RemoveKeyContained(a, b, e.key);
    RemoveKeySize(a.store, e.key);
    RemoveKeySize(b.store, e.key);
    LookupFinds(b.store, e);
    var a', b' := RemoveKey(a.store, e.key), RemoveKey(b.store, e.key);
    AppendDistinct(b', e);
    if Lookup(a.store, e.key).Some? {
      AppendDistinct(a', e);
      SubseqSnoc(a', b', e);
    } else {
      SubseqSkip(a', b', e);
    }
  }

  lemma AfterGetIs<K, V>(s: State<K, V>, k: K, t: real)
    ensures var e, kept := Lookup(s.store, k), RemoveKey(s.store, k);
      AfterGet(s, k, t) == if e.None? then s else s.(store := if Expired(e.value, t) then kept else kept + [e.value])
  {
    assert RemoveKey(s.store, k) + [] == RemoveKey(s.store, k);
  }

  lemma GetContained<K, V>(a: State<K, V>, b: State<K, V>, k: K, t: real)
    requires Contained(a, b)
    ensures Contained(AfterGet(a, k, t), AfterGet(b, k, t))
  {
    LookupContained(a.store, b.store, k);
    AfterGetIs(a, k, t);
    AfterGetIs(b, k, t);
    if Lookup(b.store, k).Some? {
      RemoveKeyCount(a.store, k);
      if Expired(Lookup(b.store, k).value, t) {
        RemoveKeyContained(a, b, k);
      } else {
        HitContained(a, b, Lookup(b.store, k).value);
      }
    }
  }

  lemma TailInside<T>(a: seq<T>, b: seq<T>)
    requires Subseq(a, b) && a != []
    ensures Subseq(a[1..], b)
  {
    SubseqTail(a, b);
    SubseqConcat([], [b[0]], a[1..], b[1..]);
    assert [] + a[1..] == a[1..] && [b[0]] + b[1..] == b;
  }

  lemma RoomContained<K, V>(a: State<K, V>, b: State<K, V>, k: K)
    requires Contained(a, b)
    ensures var ra, rb := MakeRoom(a, k), MakeRoom(b, k);
      Subseq(ra, rb) && |rb| - |ra| <= Capacity(b) - Capacity(a)
  {
    LookupContained(a.store, b.store, k);
    KeyContained(a.store, b.store, k);
    RemoveKeyCount(a.store, k);
    RemoveKeyCount(b.store, k);
    if Lookup(a.store, k).None? && |a.store| >= a.maxSize && a.store != [] {
      if Lookup(b.store, k).Some? {
        TailInside(a.store, RemoveKey(b.store, k));
      } else {
        TailInside(a.store, b.store);
        SubseqTail(a.store, b.store);
      }
    }
  }

  lemma SetContained<K, V>(a: State<K, V>, b: State<K, V>, k: K, v: V, ttl: real, tPrune: real, t: real)
    requires Contained(a, b)
    ensures Contained(AfterSet(a, k, v, ttl, tPrune, t), AfterSet(b, k, v, ttl, tPrune, t))
  {
    var a', b' := CountWrite(a, tPrune), CountWrite(b, tPrune);
    CountWriteValid(a, tPrune);
    CountWriteValid(b, tPrune);
    ExpiredContained(a.store, b.store, tPrune);
    RoomContained(a', b', k);
    StepValid(a, Set(k, v, ttl, tPrune, t));
    StepValid(b, Set(k, v, ttl, tPrune, t));
    SubseqSnoc(MakeRoom(a', k), MakeRoom(b', k), Slot(k, v, t + ttl));
  }

  lemma StepContained<K, V>(a: State<K, V>, b: State<K, V>, op: Op<K, V>)
    requires Contained(a, b) && !op.Resize?
    ensures Contained(Step(a, op), Step(b, op))
  {
    StepValid(a, op);
    StepValid(b, op);
    match op
    case Get(k, t) => GetContained(a, b, k, t);
    case Set(k, v, ttl, tPrune, t) => SetContained(a, b, k, v, ttl, tPrune, t);
    case Delete(k) => RemoveKeyContained(a, b, k);
    case Clear =>
    case Prune(t) => ExpiredContained(a.store, b.store, t);
    case Invalidate(matches) => MatchingContained(a.store, b.store, matches);
  }

  /** The same calls at the same times through two caches: the larger contains the smaller at every moment. */
  lemma {:induction false} LargerContainsSmaller<K, V>(m: int, M: int, ops: seq<Op<K, V>>)
    requires m <= M && NeverResized(ops)
    ensures Contained(Run(Empty<K, V>(m), ops), Run(Empty<K, V>(M), ops))
  {
    if ops != [] {
      LargerContainsSmaller<K, V>(m, M, ops[..|ops| - 1]);
      StepContained(Run(Empty<K, V>(m), ops[..|ops| - 1]), Run(Empty<K, V>(M), ops[..|ops| - 1]), ops[|ops| - 1]);
    }
  }

  /** So a larger cache never misses where a smaller one hits, and returns the same value. */
  lemma LargerNeverMissesMore<K, V>(m: int, M: int, ops: seq<Op<K, V>>, k: K, t: real)
    requires m <= M && NeverResized(ops)
    ensures var hit := GetResult(Run(Empty<K, V>(m), ops), k, t);
      hit.Some? ==> GetResult(Run(Empty<K, V>(M), ops), k, t) == hit
  {
    LargerContainsSmaller<K, V>(m, M, ops);
    LookupContained(Run(Empty<K, V>(m), ops).store, Run(Empty<K, V>(M), ops).store, k);
  }

  // ---- Refinement of a plain timed map ----

  /** What one call does to the slot a map without size limit or pruning holds for `k`. */
  function SlotAfter<K(==), V>(before: Option<Slot<K, V>>, op: Op<K, V>, k: K): Option<Slot<K, V>> {
    match op
    case Set(k', v, ttl, tPrune, t) => if k' == k then Some(Slot(k, v, t + ttl)) else before
    case Delete(k') => if k' == k then None else before
    case Clear => None
    case Invalidate(matches) => if matches(k) then None else before
    case Get(k', t) => before
    case Prune(t) => before
    case Resize(size) => before
  }

  function LastSet<K(==), V>(ops: seq<Op<K, V>>, k: K): Option<Slot<K, V>> {
    if ops == [] then None else SlotAfter(LastSet(ops[..|ops| - 1], k), ops[|ops| - 1], k)
  }

  lemma SetElements<K, V>(s: State<K, V>, k: K, v: V, ttl: real, tPrune: real, t: real, e: Slot<K, V>)
    requires Valid(s) && e in AfterSet(s, k, v, ttl, tPrune, t).store
    ensures (e in s.store && e.key != k) || e == Slot(k, v, t + ttl)
  {
    CountWriteValid(s, tPrune);
    MakeRoomValid(CountWrite(s, tPrune), k);
  }

  lemma StepElements<K, V>(s: State<K, V>, op: Op<K, V>, e: Slot<K, V>)
    requires Valid(s) && e in Step(s, op).store
    ensures e in s.store || (op.Set? && e == Slot(op.k, op.v, op.t + op.ttl))
    ensures SlotAfter(Some(e), op, e.key) == Some(e)
  {
    match op
    case Get(k, t) => RemoveKeySize(s.store, k);
    case Set(k, v, ttl, tPrune, t) => SetElements(s, k, v, ttl, tPrune, t, e);
    case Delete(k) => RemoveKeySize(s.store, k);
    case Clear =>
    case Prune(t) => UnexpiredKept(s.store, t);
    case Invalidate(matches) => UnmatchedKept(s.store, matches);
    case Resize(size) =>
  }

  /** Every slot in the cache is the last one set for its key and not deleted since. */
  lemma {:induction false} StoreIsLastSet<K, V>(size: int, ops: seq<Op<K, V>>, e: Slot<K, V>)
    requires e in Run(Empty<K, V>(size), ops).store
    ensures LastSet(ops, e.key) == Some(e)
  {
    if ops != [] {
      var n := |ops| - 1;
      var s := Run(Empty<K, V>(size), ops[..n]);
      RunValid(Empty<K, V>(size), ops[..n]);
      StepElements(s, ops[n], e);
      if e in s.store {
        StoreIsLastSet(size, ops[..n], e);
      }
    }
  }

  /** A hit returns the last value set for the key, no later than its expiry. */
  lemma HitIsLastSet<K, V>(size: int, ops: seq<Op<K, V>>, k: K, t: real)
    ensures var hit := GetResult(Run(Empty<K, V>(size), ops), k, t);
      hit.Some? ==> var e := LastSet(ops, k);
        e.Some? && e.value.value == hit.value && t <= e.value.expiresAt
  {
    var e := Lookup(Run(Empty<K, V>(size), ops).store, k);
    if e.Some? {
      StoreIsLastSet(size, ops, e.value);
    }
  }

  // ---- Recency protects ----

  /** The key a call uses: the one it sets, or the one it hits. */
  function Uses<K(==), V>(s: State<K, V>, op: Op<K, V>): set<K> {
    match op
    case Get(k, t) => if GetResult(s, k, t).Some? then {k} else {}
    case Set(k, v, ttl, tPrune, t) => {k}
    case _ => {}
  }

  function Touched<K(==), V>(s: State<K, V>, ops: seq<Op<K, V>>): set<K> {
    if ops == [] then {}
    else Touched(s, ops[..|ops| - 1]) + Uses(Run(s, ops[..|ops| - 1]), ops[|ops| - 1])
  }

  /**
    The call neither removes or replaces `e` by intent, nor looks at it after its expiry, and leaves room for more
    than `n` keys.
    */
  predicate Spares<K(==), V>(op: Op<K, V>, e: Slot<K, V>, n: nat) {
    match op
    case Get(k, t) => k == e.key ==> !Expired(e, t)
    case Set(k, v, ttl, tPrune, t) => k != e.key && !Expired(e, tPrune)
    case Delete(k) => k != e.key
    case Clear => false
    case Prune(t) => !Expired(e, t)
    case Invalidate(matches) => !matches(e.key)
    case Resize(size) => size > n
  }

  ghost predicate SitsAt<K, V>(store: seq<Slot<K, V>>, e: Slot<K, V>, T: set<K>, i: nat)
    requires i < |store|
  {
    store[i] == e && forall x | x in store[i + 1..] :: x.key in T
  }

  /** `e` is stored, and everything more recent has its key in `T`. */
  ghost predicate Sits<K, V>(store: seq<Slot<K, V>>, e: Slot<K, V>, T: set<K>) {
    exists i :: 0 <= i < |store| && SitsAt(store, e, T, i)
  }

  lemma FilterSits<K, V>(store: seq<Slot<K, V>>, e: Slot<K, V>, T: set<K>, p: Slot<K, V> -> bool)
    requires Sits(store, e, T) && p(e)
    ensures Sits(Filter(store, p), e, T)
  {
    var i :| 0 <= i < |store| && SitsAt(store, e, T, i);
    var older, newer := store[..i], store[i + 1..];
    assert store == older + [e] + newer;
    FilterConcat(older + [e], newer, p);
    FilterConcat(older, [e], p);
    FilterAll([e], p);
    FilterElements(newer, p);
    var kept := Filter(older, p) + [e] + Filter(newer, p);
    assert kept[|Filter(older, p)| + 1..] == Filter(newer, p);
    assert SitsAt(kept, e, T, |Filter(older, p)|);
  }

  lemma AppendSits<K, V>(store: seq<Slot<K, V>>, e: Slot<K, V>, T: set<K>, x: Slot<K, V>)
    requires Sits(store, e, T)
    ensures Sits(store + [x], e, T + {x.key})
  {
    var i :| 0 <= i < |store| && SitsAt(store, e, T, i);
    assert (store + [x])[i + 1..] == store[i + 1..] + [x];
    assert SitsAt(store + [x], e, T + {x.key}, i);
  }

  lemma {:induction false} KeysFit<K, V>(store: seq<Slot<K, V>>, T: set<K>)
    requires DistinctKeys(store) && forall x | x in store :: x.key in T
    ensures |store| <= |T|
  {
    if store != [] {
      var k := store[0].key;
      assert forall x | x in store[1..] :: x.key in T - {k};
      KeysFit(store[1..], T - {k});
    }
  }

  /** Only when as many other keys as fit in the cache are more recent can a slot be the one evicted. */
  lemma RoomSits<K, V>(s: State<K, V>, k: K, e: Slot<K, V>, T: set<K>)
    requires Valid(s) && Sits(s.store, e, T) && k != e.key && |(T + {k}) - {e.key}| < s.maxSize
    ensures Sits(MakeRoom(s, k), e, T)
  {
    if Lookup(s.store, k).Some? {
      FilterSits(s.store, e, T, (x: Slot<K, V>) => x.key != k);
    } else if |s.store| >= s.maxSize && s.store != [] {
      var i :| 0 <= i < |s.store| && SitsAt(s.store, e, T, i);
      if i == 0 {
        var newer, x := s.store[1..], Slot(k, e.value, 0.0);
        AppendDistinct(newer, x);
        KeysFit(newer + [x], (T + {k}) - {e.key});
        assert false;
      }
      assert s.store[1..][i..] == s.store[i + 1..];
      assert SitsAt(s.store[1..], e, T, i - 1);
    }
  }

  /** Shrinking drops from the old end, so a slot with fewer newer keys than the new size stays. */
  lemma ResizeSits<K, V>(s: State<K, V>, size: int, e: Slot<K, V>, T: set<K>)
    requires Valid(s) && Sits(s.store, e, T) && |T - {e.key}| < size
    ensures Sits(AfterSetMaxSize(s, size).store, e, T)
  {
    var i :| 0 <= i < |s.store| && SitsAt(s.store, e, T, i);
    var newer, excess := s.store[i + 1..], |s.store| - size;
    KeysFit(newer, T - {e.key});
    if excess > 0 {
      assert s.store[excess..][i - excess + 1..] == newer;
      assert SitsAt(s.store[excess..], e, T, i - excess);
    }
  }

  lemma GetSits<K, V>(s: State<K, V>, k: K, t: real, e: Slot<K, V>, T: set<K>)
    requires Valid(s) && Sits(s.store, e, T) && (k == e.key ==> !Expired(e, t))
    ensures Sits(AfterGet(s, k, t).store, e, T + Uses(s, Get(k, t)))
  {
    var kept := RemoveKey(s.store, k);
    if k == e.key {
      assert e in s.store;
      LookupFinds(s.store, e);
      assert SitsAt(kept + [e], e, T + {k}, |kept|);
    } else if Lookup(s.store, k).Some? {
      FilterSits(s.store, e, T, (x: Slot<K, V>) => x.key != k);
      if GetResult(s, k, t).Some? {
        AppendSits(kept, e, T, Lookup(s.store, k).value);
      } else {
        assert kept + [] == kept && T + {} == T;
      }
    } else {
      assert T + {} == T;
    }
  }

  lemma StepSits<K, V>(s: State<K, V>, op: Op<K, V>, e: Slot<K, V>, T: set<K>, n: nat)
    requires Valid(s) && Sits(s.store, e, T) && Spares(op, e, n)
    requires |(T + Uses(s, op)) - {e.key}| <= n < s.maxSize
    ensures Sits(Step(s, op).store, e, T + Uses(s, op)) && Step(s, op).maxSize > n
  {
    match op
    case Get(k, t) => GetSits(s, k, t, e, T);
    case Set(k, v, ttl, tPrune, t) =>
      CountWriteValid(s, tPrune);
      FilterSits(s.store, e, T, (x: Slot<K, V>) => !Expired(x, tPrune));
      RoomSits(CountWrite(s, tPrune), k, e, T);
      AppendSits(MakeRoom(CountWrite(s, tPrune), k), e, T, Slot(k, v, t + ttl));
    case Delete(k) => FilterSits(s.store, e, T, (x: Slot<K, V>) => x.key != k);
    case Prune(t) => FilterSits(s.store, e, T, (x: Slot<K, V>) => !Expired(x, t));
    case Invalidate(matches) => FilterSits(s.store, e, T, (x: Slot<K, V>) => !matches(x.key));
    case Resize(size) =>
      assert T + {} == T;
      ResizeSits(s, size, e, T);
  }

  lemma {:induction false} RunSits<K, V>(s: State<K, V>, ops: seq<Op<K, V>>, e: Slot<K, V>, n: nat)
    requires Valid(s) && s.store != [] && s.store[|s.store| - 1] == e
    requires forall i | 0 <= i < |ops| :: Spares(ops[i], e, n)
    requires |Touched(s, ops) - {e.key}| <= n < s.maxSize
    ensures Sits(Run(s, ops).store, e, Touched(s, ops)) && Run(s, ops).maxSize > n
  {
    if ops == [] {
      assert SitsAt(s.store, e, {}, |s.store| - 1);
    } else {
      var m := |ops| - 1;
      var T := Touched(s, ops[..m]);
      SmallerSet(T - {e.key}, Touched(s, ops) - {e.key});
      RunSits(s, ops[..m], e, n);
      RunValid(s, ops[..m]);
      StepSits(Run(s, ops[..m]), ops[m], e, T, n);
    }
  }

  lemma {:induction false} SmallerSet<K>(a: set<K>, b: set<K>)
    requires a <= b
    ensures |a| <= |b|
  {
    if a != {} {
      var x :| x in a;
      SmallerSet(a - {x}, b - {x});
    }
  }

  /**
    The slot just used survives any calls that spare it, resizes included, while fewer other keys are set or hit than
    the cache ever has room for.
    */
  lemma RecentlyUsedSurvives<K, V>(s: State<K, V>, ops: seq<Op<K, V>>, e: Slot<K, V>)
    requires Valid(s) && s.store != [] && s.store[|s.store| - 1] == e
    requires var n := |Touched(s, ops) - {e.key}|;
      n < s.maxSize && forall i | 0 <= i < |ops| :: Spares(ops[i], e, n)
    ensures e in Run(s, ops).store
  {
    RunSits(s, ops, e, |Touched(s, ops) - {e.key}|);
  }

  /** What a call that uses `k` leaves at the recent end is the slot last set for it. */
  lemma UsedIsLast<K, V>(size: int, ops: seq<Op<K, V>>, use: Op<K, V>, k: K)
    requires Uses(Run(Empty<K, V>(size), ops), use) == {k}
    ensures var s := Run(Empty<K, V>(size), ops + [use]);
      s.store != [] && LastSet(ops + [use], k) == Some(s.store[|s.store| - 1]) && s.store[|s.store| - 1].key == k
  {
    var s := Run(Empty<K, V>(size), ops + [use]);
    assert (ops + [use])[..|ops|] == ops;
    assert k in Uses(Run(Empty<K, V>(size), ops), use);
    StoreIsLastSet(size, ops + [use], s.store[|s.store| - 1]);
  }

  /**
    Once set or hit, a key is found again with the value last set for it, until that expires: whatever calls spare it
    come in between, as long as fewer other keys are set or hit than the cache ever has room for.
    */
  lemma UsedKeyStaysCached<K, V>(size: int, ops: seq<Op<K, V>>, use: Op<K, V>, after: seq<Op<K, V>>, k: K, t: real)
    requires Uses(Run(Empty<K, V>(size), ops), use) == {k}
    requires var s := Run(Empty<K, V>(size), ops + [use]);
      var e, n := LastSet(ops + [use], k), |Touched(s, after) - {k}|;
      e.Some? ==> t <= e.value.expiresAt && n < s.maxSize && forall i | 0 <= i < |after| :: Spares(after[i], e.value, n)
    ensures var e := LastSet(ops + [use], k);
      e.Some? && GetResult(Run(Run(Empty<K, V>(size), ops + [use]), after), k, t) == Some(e.value.value)
  {
    var s := Run(Empty<K, V>(size), ops + [use]);
    UsedIsLast(size, ops, use, k);
    RunValid(Empty<K, V>(size), ops + [use]);
    var e := s.store[|s.store| - 1];
    RecentlyUsedSurvives(s, after, e);
    RunValid(s, after);
    LookupFinds(Run(s, after).store, e);
  }

  /** In particular a value just set is found until it expires, whatever the size and however full the cache. */
  lemma SetThenGet<K, V>(size: int, ops: seq<Op<K, V>>, k: K, v: V, ttl: real, tPrune: real, t: real, t': real)
    requires t' <= t + ttl
    ensures GetResult(Run(Empty<K, V>(size), ops + [Set(k, v, ttl, tPrune, t)]), k, t') == Some(v)
  {
    var put := Set(k, v, ttl, tPrune, t);
    var s := Run(Empty<K, V>(size), ops + [put]);
    UsedIsLast(size, ops, put, k);
    assert (ops + [put])[..|ops|] == ops;
    RunValid(Empty<K, V>(size), ops + [put]);
    LookupFinds(s.store, s.store[|s.store| - 1]);
  }
}
