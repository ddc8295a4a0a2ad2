/** The connection pool: a counting semaphore with priority waiters, aborts and least-loaded slot choice. */
module Pooling {
  import opened Sequences

  /** A queued acquire() call; a smaller rank is a higher priority, `seq` is the enqueue sequence. */
  datatype Waiter = Waiter(caller: nat, rank: nat, seqNo: nat)

  /** A connection handed out and not yet released; `counted` when it came from acquire(). */
  datatype Lease = Lease(slot: nat, counted: bool)

  /** `slots` holds the subscriptions of each slot; `calls` numbers the calls made so far. */
  datatype Pool = Pool(slots: seq<nat>, active: nat, waiters: seq<Waiter>, waiterSeq: nat,
                       leases: map<nat, Lease>, calls: nat)

  datatype Config = Config(poolSize: nat, maxConnections: nat, maxSubs: nat)

  // ---- Selection ----

  /** The first slot with the fewest subscriptions. */
  function LeastLoaded(slots: seq<nat>): (b: nat)
    requires slots != []
    ensures b < |slots|
    ensures forall i | 0 <= i < |slots| :: slots[b] <= slots[i]
    ensures forall i | 0 <= i < b :: slots[b] < slots[i]
  {
    var n := |slots| - 1;
    if n == 0 then 0
    else
      var b := LeastLoaded(slots[..n]);
      if slots[n] < slots[b] then n else b
  }

  /** Higher priority, or the same and enqueued earlier. */
  predicate Precedes(a: Waiter, b: Waiter) {
    a.rank < b.rank || (a.rank == b.rank && a.seqNo < b.seqNo)
  }

  /** The waiter of the highest priority, and among those the first one enqueued. */
  function NextWaiter(ws: seq<Waiter>): (b: nat)
    requires ws != []
    ensures b < |ws|
    ensures forall i | 0 <= i < |ws| ::
      ws[b].rank < ws[i].rank || (ws[b].rank == ws[i].rank && ws[b].seqNo <= ws[i].seqNo)
    ensures forall i | 0 <= i < b ::
      ws[b].rank < ws[i].rank || (ws[b].rank == ws[i].rank && ws[b].seqNo < ws[i].seqNo)
  {
    var n := |ws| - 1;
    if n == 0 then 0
    else
      var b := NextWaiter(ws[..n]);
      if Precedes(ws[n], ws[b]) then n else b
  }

  function PositionOf(ws: seq<Waiter>, caller: nat): (i: nat)
    ensures i <= |ws|
    ensures i < |ws| ==> ws[i].caller == caller
    ensures i == |ws| ==> forall k | 0 <= k < |ws| :: ws[k].caller != caller
  {
    if ws == [] || ws[0].caller == caller then 0 else 1 + PositionOf(ws[1..], caller)
  }

  // ---- Transitions ----

  function Initial(c: Config): Pool {
    Pool(seq(c.poolSize, _ => 0), 0, [], 0, map[], 0)
  }

  function Occupy(p: Pool, caller: nat, counted: bool): Pool
    requires p.slots != []
  {
    var b := LeastLoaded(p.slots);
    p.(slots := p.slots[b := p.slots[b] + 1], active := p.active + if counted then 1 else 0,
       leases := p.leases[caller := Lease(b, counted)])
  }

  function Acquire(p: Pool, c: Config, rank: nat, aborted: bool): Pool
    requires p.slots != []
  {
    var p1 := p.(calls := p.calls + 1);
    if aborted then p1
    else if p.active < c.maxConnections then Occupy(p1, p.calls, true)
    else p1.(waiters := p.waiters + [Waiter(p.calls, rank, p.waiterSeq)], waiterSeq := p.waiterSeq + 1)
  }

  /** The abort signal of a queued call fires. */
  function Abort(p: Pool, caller: nat): Pool {
    var i := PositionOf(p.waiters, caller);
    if i < |p.waiters| then p.(waiters := RemoveAt(p.waiters, i)) else p
  }

  /** acquirePoller() throws when even the least loaded slot is full; acquireServer() never does. */
  function Borrow(p: Pool, c: Config, limited: bool): Pool
    requires p.slots != []
  {
    var p1 := p.(calls := p.calls + 1);
    if limited && p.slots[LeastLoaded(p.slots)] >= c.maxSubs then p1 else Occupy(p1, p.calls, false)
  }

  function Decrement(n: nat): nat {
    if n == 0 then 0 else n - 1
  }

  function GrantNext(p: Pool): Pool
    requires p.slots != []
  {
    if p.waiters == [] then p
    else
      var b := NextWaiter(p.waiters);
      Occupy(p.(waiters := RemoveAt(p.waiters, b)), p.waiters[b].caller, true)
  }

  function Vacate(p: Pool, handle: nat): Pool
    requires handle in p.leases && p.leases[handle].slot < |p.slots|
  {
    var lease := p.leases[handle];
    p.(slots := p.slots[lease.slot := Decrement(p.slots[lease.slot])],
       active := if lease.counted then Decrement(p.active) else p.active, leases := p.leases - {handle})
  }

  /** The second release of a handle does nothing; only acquire() handles pass their place on. */
  function Release(p: Pool, handle: nat): Pool
    requires p.slots != []
  {
    if handle !in p.leases || p.leases[handle].slot >= |p.slots| then p
    else if p.leases[handle].counted then GrantNext(Vacate(p, handle))
    else Vacate(p, handle)
  }

  // ---- The class ----

  class ConnectionPool {
    const config: Config
    var slots: seq<nat>
    var activeConnections: nat
    var waiters: seq<Waiter>
    var waiterSeq: nat
    var leases: map<nat, Lease>
    var calls: nat

    function Model(): Pool
      reads this
    {
      Pool(slots, activeConnections, waiters, waiterSeq, leases, calls)
    }

    constructor (config: Config)
      ensures Model() == Initial(config) && this.config == config
    {
      this.config := config;
      slots, activeConnections, waiters, waiterSeq := seq(config.poolSize, _ => 0), 0, [], 0;
      leases, calls := map[], 0;
    }

    method LeastLoadedSlot() returns (best: nat)
      requires slots != []
      ensures best == LeastLoaded(slots)
    {
      best := 0;
      for i := 0 to |slots|
        invariant best < |slots| && (i > 0 ==> best == LeastLoaded(slots[..i]))
        invariant i == 0 ==> best == 0
      {
        assert slots[..i + 1][..i] == slots[..i];
        if slots[i] < slots[best] {
          best := i;
        }
      }
      assert slots[..|slots|] == slots;
    }

    method TakeNextWaiter() returns (next: Option<Waiter>)
      modifies this`waiters
      ensures old(waiters) == [] ==> next == None && waiters == []
      ensures old(waiters) != [] ==>
        && next == Some(old(waiters)[NextWaiter(old(waiters))])
        && waiters == RemoveAt(old(waiters), NextWaiter(old(waiters)))
    {
      var bestIdx := -1;
      for i := 0 to |waiters|
        invariant if i == 0 then bestIdx == -1 else 0 <= bestIdx < i && bestIdx == NextWaiter(waiters[..i])
      {
        assert waiters[..i + 1][..i] == waiters[..i];
        if bestIdx == -1 || Precedes(waiters[i], waiters[bestIdx]) {
          bestIdx := i;
        }
      }
      assert waiters[..|waiters|] == waiters;
      if bestIdx == -1 {
        return None;
      }
      next := Some(waiters[bestIdx]);
      waiters := RemoveAt(waiters, bestIdx);
    }

    method Grant(caller: nat, counted: bool) returns (slot: nat)
      requires slots != []
      modifies this
      ensures Model() == Occupy(old(Model()), caller, counted)
      ensures slot == LeastLoaded(old(slots))
    {
      slot := LeastLoadedSlot();
      slots := slots[slot := slots[slot] + 1];
      if counted {
        activeConnections := activeConnections + 1;
      }
      leases := leases[caller := Lease(slot, counted)];
    }

    /** The call's number, and its slot when it is granted at once. */
    method AcquireConnection(rank: nat, aborted: bool) returns (caller: nat, slot: Option<nat>)
      requires slots != []
      modifies this
      ensures Model() == Acquire(old(Model()), config, rank, aborted)
      ensures caller == old(calls)
      ensures slot == if !aborted && old(activeConnections) < config.maxConnections
                      then Some(LeastLoaded(old(slots))) else None
    {
      caller, slot := calls, None;
      calls := calls + 1;
      if aborted {
        return;
      }
      if activeConnections < config.maxConnections {
        var s := Grant(caller, true);
        slot := Some(s);
      } else {
        waiters, waiterSeq := waiters + [Waiter(caller, rank, waiterSeq)], waiterSeq + 1;
      }
    }

    method AbortWaiting(caller: nat)
      modifies this`waiters
      ensures Model() == Abort(old(Model()), caller)
    {
      var i := PositionOf(waiters, caller);
      if i < |waiters| {
        waiters := RemoveAt(waiters, i);
      }
    }

    method BorrowConnection(limited: bool) returns (slot: Option<nat>)
      requires slots != []
      modifies this
      ensures Model() == Borrow(old(Model()), config, limited)
      ensures slot.None? <==> limited && forall i | 0 <= i < |old(slots)| :: old(slots)[i] >= config.maxSubs
    {
      var best := LeastLoadedSlot();
      var caller := calls;
      calls := calls + 1;
      if limited && slots[best] >= config.maxSubs {
        return None;
      }
      var s := Grant(caller, false);
      slot := Some(s);
    }

    method ReleaseConnection(handle: nat)
      requires slots != [] && forall h | h in leases :: leases[h].slot < |slots|
      modifies this
      ensures Model() == Release(old(Model()), handle)
    {
      if handle !in leases {
        return;
      }
      var lease := leases[handle];
      slots := slots[lease.slot := Decrement(slots[lease.slot])];
      leases := leases - {handle};
      if lease.counted {
        activeConnections := Decrement(activeConnections);
        assert Model() == Vacate(old(Model()), handle);
        var next := TakeNextWaiter();
        if next.Some? {
          var _ := Grant(next.value.caller, true);
        }
      }
    }
  }

  // ---- What every state keeps ----

  function OnSlot(leases: map<nat, Lease>, i: nat): set<nat> {
    set h | h in leases && leases[h].slot == i
  }

  function CountedLeases(leases: map<nat, Lease>): set<nat> {
    set h | h in leases && leases[h].counted
  }

  /** The books balance: each slot counts its leases, and `active` counts those from acquire(). */
  predicate Balanced(p: Pool) {
    && (forall h | h in p.leases :: p.leases[h].slot < |p.slots| && h < p.calls)
    && (forall i | 0 <= i < |p.slots| :: p.slots[i] == |OnSlot(p.leases, i)|)
    && p.active == |CountedLeases(p.leases)|
  }

  predicate Queued(p: Pool) {
    && (forall i | 0 <= i < |p.waiters| :: p.waiters[i].seqNo < p.waiterSeq && p.waiters[i].caller < p.calls)
    && (forall i | 0 <= i < |p.waiters| :: p.waiters[i].caller !in p.leases)
    && (forall i, j | 0 <= i < j < |p.waiters| ::
          p.waiters[i].seqNo < p.waiters[j].seqNo && p.waiters[i].caller < p.waiters[j].caller)
  }

  /** At most maxConnections are held, and somebody waits only while all of them are. */
  predicate Bounded(p: Pool, c: Config) {
    p.active <= c.maxConnections && (p.waiters != [] ==> p.active == c.maxConnections)
  }

  predicate Inv(p: Pool, c: Config) {
    |p.slots| == c.poolSize && c.poolSize > 0 && Balanced(p) && Queued(p) && Bounded(p, c)
  }

  lemma SlotLeaseAdded(leases: map<nat, Lease>, h: nat, l: Lease, i: nat)
    requires h !in leases
    ensures |OnSlot(leases[h := l], i)| == |OnSlot(leases, i)| + if l.slot == i then 1 else 0
  {
    var now, was := OnSlot(leases[h := l], i), OnSlot(leases, i);
    if l.slot == i {
      assert now == was + {h};
    } else {
      assert now == was;
    }
  }

  lemma CountedLeaseAdded(leases: map<nat, Lease>, h: nat, l: Lease)
    requires h !in leases
    ensures |CountedLeases(leases[h := l])| == |CountedLeases(leases)| + if l.counted then 1 else 0
  {
    var now, was := CountedLeases(leases[h := l]), CountedLeases(leases);
    if l.counted {
      assert now == was + {h};
    } else {
      assert now == was;
    }
  }

  lemma Readded(leases: map<nat, Lease>, h: nat)
    requires h in leases
    ensures (leases - {h})[h := leases[h]] == leases
  {
  }

  lemma OccupyBalanced(p: Pool, caller: nat, counted: bool)
    requires p.slots != [] && Balanced(p) && caller !in p.leases && caller < p.calls
    ensures Balanced(Occupy(p, caller, counted))
  {
    var b, p' := LeastLoaded(p.slots), Occupy(p, caller, counted);
    CountedLeaseAdded(p.leases, caller, Lease(b, counted));
    forall i | 0 <= i < |p.slots|
      ensures p'.slots[i] == |OnSlot(p'.leases, i)|
    {
      SlotLeaseAdded(p.leases, caller, Lease(b, counted), i);
    }
  }

  lemma VacateBalanced(p: Pool, handle: nat)
    requires Balanced(p) && handle in p.leases
    ensures var p' := Vacate(p, handle);
      && Balanced(p')
      && p.slots[p.leases[handle].slot] > 0
      && p'.active == p.active - if p.leases[handle].counted then 1 else 0
  {
    var lease, p' := p.leases[handle], Vacate(p, handle);
    Readded(p.leases, handle);
    CountedLeaseAdded(p.leases - {handle}, handle, lease);
    SlotLeaseAdded(p.leases - {handle}, handle, lease, lease.slot);
    forall i | 0 <= i < |p.slots|
      ensures p'.slots[i] == |OnSlot(p'.leases, i)|
    {
      SlotLeaseAdded(p.leases - {handle}, handle, lease, i);
    }
  }

  lemma GrantNextKeeps(p: Pool, c: Config)
    requires |p.slots| == c.poolSize && c.poolSize > 0 && Balanced(p) && Queued(p) && p.active < c.maxConnections
    requires p.waiters != [] ==> p.active == c.maxConnections - 1
    ensures Inv(GrantNext(p), c)
  {
    if p.waiters != [] {
      var b := NextWaiter(p.waiters);
      var p1 := p.(waiters := RemoveAt(p.waiters, b));
      OccupyBalanced(p1, p.waiters[b].caller, true);
    }
  }

  datatype Event =
    | AcquireCall(rank: nat, aborted: bool)
    | AbortSignal(caller: nat)
    | BorrowCall(limited: bool)
    | ReleaseCall(handle: nat)

  function Step(p: Pool, c: Config, ev: Event): Pool
    requires p.slots != []
  {
    match ev
    case AcquireCall(rank, aborted) => Acquire(p, c, rank, aborted)
    case AbortSignal(caller) => Abort(p, caller)
    case BorrowCall(limited) => Borrow(p, c, limited)
    case ReleaseCall(handle) => Release(p, handle)
  }

  lemma StepKeeps(p: Pool, c: Config, ev: Event)
    requires Inv(p, c)
    ensures Inv(Step(p, c, ev), c)
  {
    match ev
    case AcquireCall(rank, aborted) => AcquireKeeps(p, c, rank, aborted);
    case AbortSignal(caller) => AbortKeeps(p, c, caller);
    case BorrowCall(limited) => BorrowKeeps(p, c, limited);
    case ReleaseCall(handle) => ReleaseKeeps(p, c, handle);
  }

  lemma AbortKeeps(p: Pool, c: Config, caller: nat)
    requires Inv(p, c)
    ensures Inv(Abort(p, caller), c)
  {
    var i := PositionOf(p.waiters, caller);
    if i < |p.waiters| {
      assert forall k | 0 <= k < |p.waiters| - 1 :: RemoveAt(p.waiters, i)[k] == p.waiters[if k < i then k else k + 1];
    }
  }

  lemma ReleaseKeeps(p: Pool, c: Config, handle: nat)
    requires Inv(p, c)
    ensures Inv(Release(p, handle), c)
  {
    if handle in p.leases {
      VacateBalanced(p, handle);
      if p.leases[handle].counted { GrantNextKeeps(Vacate(p, handle), c); }
    }
  }

  lemma AcquireKeeps(p: Pool, c: Config, rank: nat, aborted: bool)
    requires Inv(p, c)
    ensures Inv(Acquire(p, c, rank, aborted), c)
  {
    if !aborted && p.active < c.maxConnections {
      OccupyBalanced(p.(calls := p.calls + 1), p.calls, true);
    }
  }

  lemma BorrowKeeps(p: Pool, c: Config, limited: bool)
    requires Inv(p, c)
    ensures Inv(Borrow(p, c, limited), c)
  {
    OccupyBalanced(p.(calls := p.calls + 1), p.calls, false);
  }

  function Run(c: Config, evs: seq<Event>): (p: Pool)
    requires c.poolSize > 0
    ensures |p.slots| == c.poolSize
  {
    if evs == [] then Initial(c) else Step(Run(c, evs[..|evs| - 1]), c, evs[|evs| - 1])
  }

  /** Every interleaving of calls, aborts and releases keeps the pool within its bound and its books balanced. */
  lemma {:induction false} RunKeeps(c: Config, evs: seq<Event>)
    requires c.poolSize > 0
    ensures Inv(Run(c, evs), c)
  {
    if evs == [] {
      var p := Initial(c);
      assert forall i | 0 <= i < |p.slots| :: OnSlot(p.leases, i) == {};
      assert CountedLeases(p.leases) == {};
    } else {
      RunKeeps(c, evs[..|evs| - 1]);
      StepKeeps(Run(c, evs[..|evs| - 1]), c, evs[|evs| - 1]);
    }
  }

  // ---- No barging, FIFO within a priority ----

  predicate Waits(p: Pool, n: nat) {
    exists i :: 0 <= i < |p.waiters| && p.waiters[i].caller == n
  }

  /** The step gives caller `n` a connection from acquire(). */
  predicate Grants(p: Pool, p': Pool, n: nat) {
    n !in p.leases && n in p'.leases && p'.leases[n].counted
  }

  /** `n` waits with a higher priority than `w`, or with the same and since an earlier call. */
  predicate WaitsAheadOf(p: Pool, n: nat, w: Waiter) {
    exists i :: 0 <= i < |p.waiters| && p.waiters[i].caller == n
             && (p.waiters[i].rank < w.rank || (p.waiters[i].rank == w.rank && n < w.caller))
  }

  lemma GoneStaysGone(p: Pool, c: Config, ev: Event, w: Waiter)
    requires Inv(p, c) && w.seqNo < p.waiterSeq && w in Step(p, c, ev).waiters
    ensures w in p.waiters
  {
  }

  /** The one step that grants anything while somebody waits is a release, and it grants to the next waiter. */
  lemma GrantedIsNext(p: Pool, c: Config, ev: Event, n: nat)
    requires Inv(p, c) && p.waiters != [] && Grants(p, Step(p, c, ev), n)
    ensures p.waiters[NextWaiter(p.waiters)].caller == n
    ensures Step(p, c, ev).waiters == RemoveAt(p.waiters, NextWaiter(p.waiters))
  {
  }

  lemma GrantPrecedes(p: Pool, c: Config, ev: Event, w: Waiter, n: nat)
    requires Inv(p, c) && w in p.waiters && w in Step(p, c, ev).waiters && Grants(p, Step(p, c, ev), n)
    ensures WaitsAheadOf(p, n, w)
  {
    GrantedIsNext(p, c, ev, n);
    NextIsAhead(p, w);
  }

  lemma NextIsAhead(p: Pool, w: Waiter)
    requires Queued(p) && p.waiters != [] && w in RemoveAt(p.waiters, NextWaiter(p.waiters))
    ensures WaitsAheadOf(p, p.waiters[NextWaiter(p.waiters)].caller, w)
  {
    var b := NextWaiter(p.waiters);
    var i := StillAt(p.waiters, b, w);
    if i < b {
      assert p.waiters[i].seqNo < p.waiters[b].seqNo;
    } else {
      assert p.waiters[b].caller < p.waiters[i].caller;
    }
  }

  lemma StillAt(ws: seq<Waiter>, b: nat, w: Waiter) returns (i: nat)
    requires b < |ws| && w in RemoveAt(ws, b)
    ensures i < |ws| && i != b && ws[i] == w
  {
    var j :| 0 <= j < |ws| - 1 && RemoveAt(ws, b)[j] == w;
    i := if j < b then j else j + 1;
  }

  function RunFrom(p: Pool, c: Config, evs: seq<Event>): (p': Pool)
    requires |p.slots| == c.poolSize && c.poolSize > 0
    ensures |p'.slots| == c.poolSize
  {
    if evs == [] then p else Step(RunFrom(p, c, evs[..|evs| - 1]), c, evs[|evs| - 1])
  }

  lemma {:induction false} RunFromKeeps(p: Pool, c: Config, evs: seq<Event>)
    requires Inv(p, c)
    ensures Inv(RunFrom(p, c, evs), c) && RunFrom(p, c, evs).waiterSeq >= p.waiterSeq
  {
    if evs != [] {
      RunFromKeeps(p, c, evs[..|evs| - 1]);
      StepKeeps(RunFrom(p, c, evs[..|evs| - 1]), c, evs[|evs| - 1]);
    }
  }

  /**
    While a caller waits, every connection granted goes to a caller already waiting that has a higher priority, or
    the same one and called earlier.
    */
  lemma {:induction false} OvertakenOnlyByPriority(p: Pool, c: Config, evs: seq<Event>, w: Waiter, k: nat, n: nat)
    requires Inv(p, c) && w in p.waiters && w in RunFrom(p, c, evs).waiters && k < |evs|
    requires Grants(RunFrom(p, c, evs[..k]), Step(RunFrom(p, c, evs[..k]), c, evs[k]), n)
    ensures w in RunFrom(p, c, evs[..k]).waiters && WaitsAheadOf(RunFrom(p, c, evs[..k]), n, w)
  {
    var m := |evs| - 1;
    var q := RunFrom(p, c, evs[..m]);
    RunFromKeeps(p, c, evs[..m]);
    GoneStaysGone(q, c, evs[m], w);
    if k == m {
      GrantPrecedes(q, c, evs[m], w, n);
    } else {
      assert evs[..m][..k] == evs[..k];
      OvertakenOnlyByPriority(p, c, evs[..m], w, k, n);
    }
  }

  // ---- What becomes of a call ----

  /** A call that is served or queued: not aborted beforehand, nor refused for want of room. */
  predicate Accepted(p: Pool, c: Config, ev: Event) {
    match ev
    case AcquireCall(_, aborted) => !aborted
    case BorrowCall(limited) => !limited || exists i :: 0 <= i < |p.slots| && p.slots[i] < c.maxSubs
    case _ => false
  }

  predicate AcceptsAs(p: Pool, c: Config, ev: Event, n: nat) {
    p.calls == n && Accepted(p, c, ev)
  }

  predicate Withdraws(p: Pool, ev: Event, n: nat) {
    ev == AbortSignal(n) && Waits(p, n)
  }

  predicate Releases(p: Pool, ev: Event, n: nat) {
    ev == ReleaseCall(n) && n in p.leases
  }

  /** Call number `n` was made by one of these events, and accepted. */
  predicate WasAccepted(c: Config, evs: seq<Event>, n: nat)
    requires c.poolSize > 0
  {
    evs != [] && (WasAccepted(c, evs[..|evs| - 1], n) || AcceptsAs(Run(c, evs[..|evs| - 1]), c, evs[|evs| - 1], n))
  }

  /** Its signal fired while it was waiting. */
  predicate WasWithdrawn(c: Config, evs: seq<Event>, n: nat)
    requires c.poolSize > 0
  {
    evs != [] && (WasWithdrawn(c, evs[..|evs| - 1], n) || Withdraws(Run(c, evs[..|evs| - 1]), evs[|evs| - 1], n))
  }

  /** Its handle was released while it was held. */
  predicate WasReleased(c: Config, evs: seq<Event>, n: nat)
    requires c.poolSize > 0
  {
    evs != [] && (WasReleased(c, evs[..|evs| - 1], n) || Releases(Run(c, evs[..|evs| - 1]), evs[|evs| - 1], n))
  }

  /** In how many ways the call is accounted for: waiting, holding a connection, withdrawn, released. */
  function Fates(c: Config, evs: seq<Event>, n: nat): nat
    requires c.poolSize > 0
  {
    (if Waits(Run(c, evs), n) then 1 else 0) + (if n in Run(c, evs).leases then 1 else 0)
    + (if WasWithdrawn(c, evs, n) then 1 else 0) + (if WasReleased(c, evs, n) then 1 else 0)
  }

  /** How one event moves call `n` between waiting and holding. */
  lemma StepMoves(p: Pool, c: Config, ev: Event, n: nat)
    requires Inv(p, c)
    ensures var p' := Step(p, c, ev);
      var made := n == p.calls && Accepted(p, c, ev);
      && (Waits(p', n) || n in p'.leases <==>
            made || (Waits(p, n) && ev != AbortSignal(n)) || (n in p.leases && ev != ReleaseCall(n)))
      && p'.calls == p.calls + if ev.AcquireCall? || ev.BorrowCall? then 1 else 0
  {
    match ev
    case AcquireCall(rank, aborted) => AcquireMoves(p, c, rank, aborted, n);
    case AbortSignal(caller) => AbortMoves(p, caller, n);
    case BorrowCall(limited) =>
    case ReleaseCall(handle) => if handle in p.leases { ReleaseMoves(p, handle, n); }
  }

  lemma AcquireMoves(p: Pool, c: Config, rank: nat, aborted: bool, n: nat)
    requires p.slots != []
    ensures var p' := Acquire(p, c, rank, aborted);
      Waits(p', n) || n in p'.leases <==> (n == p.calls && !aborted) || Waits(p, n) || n in p.leases
  {
    var ws := p.waiters + [Waiter(p.calls, rank, p.waiterSeq)];
    assert forall i | 0 <= i < |p.waiters| :: ws[i] == p.waiters[i];
    assert ws[|p.waiters|].caller == p.calls;
  }

  lemma RemovedWaits(p: Pool, b: nat, n: nat)
    requires Queued(p) && b < |p.waiters|
    ensures Waits(p.(waiters := RemoveAt(p.waiters, b)), n) <==> Waits(p, n) && n != p.waiters[b].caller
  {
    var ws, rest := p.waiters, RemoveAt(p.waiters, b);
    if i :| 0 <= i < |rest| && rest[i].caller == n {
      var j := if i < b then i else i + 1;
      assert rest[i] == ws[j];
    }
    if j :| 0 <= j < |ws| && ws[j].caller == n && n != ws[b].caller {
      var i := if j < b then j else j - 1;
      assert rest[i] == ws[j];
    }
  }

  lemma AbortMoves(p: Pool, caller: nat, n: nat)
    requires Queued(p)
    ensures Waits(Abort(p, caller), n) <==> Waits(p, n) && n != caller
    ensures Abort(p, caller).leases == p.leases
  {
    var i := PositionOf(p.waiters, caller);
    if i < |p.waiters| {
      RemovedWaits(p, i, n);
    }
  }

  lemma ReleaseMoves(p: Pool, handle: nat, n: nat)
    requires p.slots != [] && Balanced(p) && Queued(p) && handle in p.leases
    ensures var p' := Release(p, handle);
      Waits(p', n) || n in p'.leases <==> Waits(p, n) || (n in p.leases && n != handle)
  {
    if p.leases[handle].counted && p.waiters != [] {
      RemovedWaits(p, NextWaiter(p.waiters), n);
      assert Waits(p, p.waiters[NextWaiter(p.waiters)].caller);
    }
  }

  /**
    In every run each accepted call is, at any moment, exactly one of waiting, holding a connection, withdrawn by its
    signal, and released; and no other call is any of these.
    */
  lemma {:induction false} EveryCallHasOneFate(c: Config, evs: seq<Event>, n: nat)
    requires c.poolSize > 0
    ensures Fates(c, evs, n) == if WasAccepted(c, evs, n) then 1 else 0
    ensures WasAccepted(c, evs, n) ==> n < Run(c, evs).calls
  {
    if evs != [] {
      var m := |evs| - 1;
      EveryCallHasOneFate(c, evs[..m], n);
      RunKeeps(c, evs[..m]);
      RunKeeps(c, evs);
      StepMoves(Run(c, evs[..m]), c, evs[m], n);
      NotBoth(Run(c, evs[..m]), n);
      NotBoth(Run(c, evs), n);
    }
  }

  lemma NotBoth(p: Pool, n: nat)
    requires Queued(p)
    ensures !(Waits(p, n) && n in p.leases)
  {
  }

  /** Once every accepted call has been released or withdrawn, the whole pool is free. */
  lemma AllReleasedIsIdle(c: Config, evs: seq<Event>)
    requires c.poolSize > 0
    requires forall n | WasAccepted(c, evs, n) :: WasReleased(c, evs, n) || WasWithdrawn(c, evs, n)
    ensures var p := Run(c, evs);
      p.leases == map[] && p.waiters == [] && p.active == 0 && forall i | 0 <= i < |p.slots| :: p.slots[i] == 0
  {
    var p := Run(c, evs);
    RunKeeps(c, evs);
    forall n
      ensures !Waits(p, n) && n !in p.leases
    {
      EveryCallHasOneFate(c, evs, n);
    }
    if p.waiters != [] {
      assert Waits(p, p.waiters[0].caller);
    }
    assert forall i | 0 <= i < |p.slots| :: OnSlot(p.leases, i) == {};
    assert CountedLeases(p.leases) == {};
  }

  /** Of the highest priority, and of those enqueued first. */
  predicate IsFirstRanked(ws: seq<Waiter>, b: nat) {
    b < |ws| && forall i | 0 <= i < |ws| ::
      ws[b].rank < ws[i].rank || (ws[b].rank == ws[i].rank && ws[b].seqNo <= ws[i].seqNo)
  }

  /** `n` got a slot of which none held fewer subscriptions, and none before it as few. */
  predicate TookLeastLoaded(p': Pool, n: nat) {
    && n in p'.leases && p'.leases[n].slot < |p'.slots|
    && var b := p'.leases[n].slot;
       && (forall i | 0 <= i < |p'.slots| :: p'.slots[b] <= p'.slots[i] + 1)
       && (forall i | 0 <= i < b :: p'.slots[b] <= p'.slots[i])
  }

  lemma OccupyTakesLeast(p: Pool, n: nat, counted: bool)
    requires p.slots != []
    ensures TookLeastLoaded(Occupy(p, n, counted), n)
  {
  }

  /** The connection of `h` goes to the waiter at `b`, who takes the first least loaded slot. */
  predicate HandedTo(p: Pool, p': Pool, h: nat, b: nat) {
    && IsFirstRanked(p.waiters, b) && p'.waiters == p.waiters[..b] + p.waiters[b + 1..]
    && p'.leases.Keys == p.leases.Keys - {h} + {p.waiters[b].caller}
    && TookLeastLoaded(p', p.waiters[b].caller) && p'.leases[p.waiters[b].caller].counted && p'.active == p.active
  }

  predicate OnlyFreed(p: Pool, p': Pool, h: nat)
    requires h in p.leases && p.leases[h].slot < |p.slots|
  {
    var lease := p.leases[h];
    && p'.waiters == p.waiters && p'.leases.Keys == p.leases.Keys - {h}
    && p.slots[lease.slot] > 0 && p'.slots == p.slots[lease.slot := p.slots[lease.slot] - 1]
    && p'.active == p.active - if lease.counted then 1 else 0
  }

  /**
    In every reachable state, a released handle is given up. If it came from acquire() and somebody waits, the waiter
    of the highest priority, and of those the one enqueued first, is served from the freed pool; otherwise its slot has
    one subscription less. Every other lease stays as it was.
    */
  lemma ReleaseHandsOn(c: Config, evs: seq<Event>, h: nat)
    requires c.poolSize > 0 && h in Run(c, evs).leases
    ensures Run(c, evs).leases[h].slot < c.poolSize
    ensures var p, p' := Run(c, evs), Run(c, evs + [ReleaseCall(h)]);
      if p.leases[h].counted && p.waiters != [] then exists b: nat :: HandedTo(p, p', h, b) else OnlyFreed(p, p', h)
    ensures var p, p' := Run(c, evs), Run(c, evs + [ReleaseCall(h)]);
      forall g | g in p.leases && g != h :: g in p'.leases && p'.leases[g] == p.leases[g]
  {
    var p, p' := Run(c, evs), Run(c, evs + [ReleaseCall(h)]);
    RunKeeps(c, evs);
    assert (evs + [ReleaseCall(h)])[..|evs|] == evs;
    VacateBalanced(p, h);
    var v := Vacate(p, h);
    if p.leases[h].counted && p.waiters != [] {
      var b := NextWaiter(p.waiters);
      OccupyTakesLeast(v.(waiters := RemoveAt(p.waiters, b)), p.waiters[b].caller, true);
      assert HandedTo(p, p', h, b);
    }
  }

  predicate Taken(p: Pool, p': Pool) {
    && p'.leases.Keys == p.leases.Keys + {p.calls} && TookLeastLoaded(p', p.calls) && p'.leases[p.calls].counted
    && p'.active == p.active + 1 && p'.waiters == p.waiters
  }

  predicate Enqueued(p: Pool, p': Pool, rank: nat) {
    && p'.waiters == p.waiters + [Waiter(p.calls, rank, p.waiterSeq)] && p'.waiterSeq == p.waiterSeq + 1
    && p'.leases == p.leases && p'.slots == p.slots && p'.active == p.active
  }

  /**
    An acquire() that is not aborted takes the first least loaded slot while fewer than maxConnections are held, and
    otherwise joins the end of the queue; nothing else changes.
    */
  lemma AcquireTakesOrWaits(c: Config, evs: seq<Event>, rank: nat)
    requires c.poolSize > 0
    ensures var p, p' := Run(c, evs), Run(c, evs + [AcquireCall(rank, false)]);
      p'.calls == p.calls + 1 && if p.active < c.maxConnections then Taken(p, p') else Enqueued(p, p', rank)
    ensures var p, p' := Run(c, evs), Run(c, evs + [AcquireCall(rank, false)]);
      forall g | g in p.leases :: g in p'.leases && p'.leases[g] == p.leases[g]
  {
    var p := Run(c, evs);
    RunKeeps(c, evs);
    assert (evs + [AcquireCall(rank, false)])[..|evs|] == evs;
    OccupyTakesLeast(p.(calls := p.calls + 1), p.calls, true);
  }

  /** A poller or server borrowed takes the first least loaded slot, if it is accepted; otherwise nothing changes. */
  lemma BorrowTakesLeast(c: Config, evs: seq<Event>, limited: bool)
    requires c.poolSize > 0
    ensures var p, p' := Run(c, evs), Run(c, evs + [BorrowCall(limited)]);
      if Accepted(p, c, BorrowCall(limited))
      then p'.leases.Keys == p.leases.Keys + {p.calls} && TookLeastLoaded(p', p.calls) && !p'.leases[p.calls].counted
        && p'.active == p.active && p'.waiters == p.waiters && p'.calls == p.calls + 1
      else p' == p.(calls := p.calls + 1)
  {
    assert (evs + [BorrowCall(limited)])[..|evs|] == evs;
    OccupyTakesLeast(Run(c, evs).(calls := Run(c, evs).calls + 1), Run(c, evs).calls, false);
  }

  // ---- The load bound ----

  function Sum(slots: seq<nat>): nat {
    if slots == [] then 0 else Sum(slots[..|slots| - 1]) + slots[|slots| - 1]
  }

  lemma {:induction false} SumUpdate(slots: seq<nat>, i: nat, v: nat)
    requires i < |slots|
    ensures Sum(slots[i := v]) == Sum(slots) - slots[i] + v
  {
    var n := |slots| - 1;
    if i < n {
      SumUpdate(slots[..n], i, v);
      assert slots[i := v][..n] == slots[..n][i := v];
    } else {
      assert slots[i := v][..n] == slots[..n];
    }
  }

  lemma {:induction false} SumAtLeast(slots: seq<nat>, m: nat)
    requires forall i | 0 <= i < |slots| :: m <= slots[i]
    ensures |slots| * m <= Sum(slots)
  {
    if slots != [] {
      var n := |slots| - 1;
      SumAtLeast(slots[..n], m);
      assert |slots| * m == n * m + m;
    }
  }

  function CeilDiv(a: nat, b: nat): nat
    requires b > 0
  {
    (a + b - 1) / b
  }

  lemma BelowCeil(m: nat, n: nat, a: nat)
    requires n > 0 && n * m < a
    ensures m + 1 <= CeilDiv(a, n)
  {
    assert n * (m + 1) <= a + n - 1;
    if (a + n - 1) / n < m + 1 {
      assert (a + n - 1) / n * n <= m * n;
    }
  }

  predicate AcquireOnly(evs: seq<Event>) {
    forall i | 0 <= i < |evs| :: !evs[i].BorrowCall?
  }

  predicate Even(p: Pool, c: Config)
    requires c.poolSize > 0
  {
    Sum(p.slots) == p.active && forall i | 0 <= i < |p.slots| :: p.slots[i] <= CeilDiv(c.maxConnections, c.poolSize)
  }

  lemma OccupyEven(p: Pool, c: Config, caller: nat)
    requires |p.slots| == c.poolSize && c.poolSize > 0 && Even(p, c) && p.active < c.maxConnections
    ensures Even(Occupy(p, caller, true), c)
  {
    var b := LeastLoaded(p.slots);
    SumUpdate(p.slots, b, p.slots[b] + 1);
    SumAtLeast(p.slots, p.slots[b]);
    BelowCeil(p.slots[b], c.poolSize, c.maxConnections);
  }

  predicate AllCounted(p: Pool) {
    forall h | h in p.leases :: p.leases[h].counted
  }

  lemma ReleaseEven(p: Pool, c: Config, handle: nat)
    requires Inv(p, c) && Even(p, c) && AllCounted(p)
    ensures Even(Release(p, handle), c)
  {
    if handle in p.leases {
      var i, v := p.leases[handle].slot, Vacate(p, handle);
      VacateBalanced(p, handle);
      SumUpdate(p.slots, i, p.slots[i] - 1);
      if v.waiters != [] {
        var b := NextWaiter(v.waiters);
        OccupyEven(v.(waiters := RemoveAt(v.waiters, b)), c, v.waiters[b].caller);
      }
    }
  }

  lemma StepEven(p: Pool, c: Config, ev: Event)
    requires Inv(p, c) && Even(p, c) && AllCounted(p) && !ev.BorrowCall?
    ensures Even(Step(p, c, ev), c) && AllCounted(Step(p, c, ev))
  {
    match ev
    case AcquireCall(rank, aborted) =>
      if !aborted && p.active < c.maxConnections { OccupyEven(p.(calls := p.calls + 1), c, p.calls); }
    case AbortSignal(caller) =>
    case ReleaseCall(handle) => ReleaseEven(p, c, handle);
  }

  /** Taken only through acquire(), no slot ever holds more than ceil(maxConnections / poolSize) subscriptions. */
  lemma {:induction false} LoadIsEven(c: Config, evs: seq<Event>)
    requires c.poolSize > 0 && AcquireOnly(evs)
    ensures Even(Run(c, evs), c) && AllCounted(Run(c, evs))
  {
    if evs == [] {
      SumZero(Initial(c).slots);
    } else {
      LoadIsEven(c, evs[..|evs| - 1]);
      RunKeeps(c, evs[..|evs| - 1]);
      StepEven(Run(c, evs[..|evs| - 1]), c, evs[|evs| - 1]);
    }
  }

  lemma {:induction false} SumZero(slots: seq<nat>)
    requires forall i | 0 <= i < |slots| :: slots[i] == 0
    ensures Sum(slots) == 0
  {
    if slots != [] { SumZero(slots[..|slots| - 1]); }
  }

  /** With as many connections as slots, the default, no two callers hold the same slot. */
  lemma DefaultIsExclusive(c: Config, evs: seq<Event>, g: nat, h: nat)
    requires c.poolSize > 0 && c.maxConnections == c.poolSize && AcquireOnly(evs)
    requires g != h && g in Run(c, evs).leases && h in Run(c, evs).leases
    ensures Run(c, evs).leases[g].slot != Run(c, evs).leases[h].slot
  {
    LoadIsEven(c, evs);
    RunKeeps(c, evs);
    CeilOfSelf(c.poolSize);
    if Run(c, evs).leases[g].slot == Run(c, evs).leases[h].slot {
      SharedSlot(Run(c, evs), g, h);
    }
  }

  lemma CeilOfSelf(n: nat)
    requires n > 0
    ensures CeilDiv(n, n) == 1
  {
  }

  lemma SharedSlot(p: Pool, g: nat, h: nat)
    requires Balanced(p) && g != h && g in p.leases && h in p.leases && p.leases[g].slot == p.leases[h].slot
    ensures p.slots[p.leases[g].slot] >= 2
  {
    PairFits(g, h, OnSlot(p.leases, p.leases[g].slot));
  }

  lemma PairFits(g: nat, h: nat, s: set<nat>)
    requires g != h && g in s && h in s
    ensures |s| >= 2
  {
    assert |s - {g} - {h}| == |s| - 2;
  }
}
