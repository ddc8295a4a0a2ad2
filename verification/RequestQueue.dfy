/** The priority request queue: named lanes, a concurrency cap, and a nested scan for the next task. */
module RequestQueueing {
  import opened Sequences

  /** A task, numbered in order of enqueueing; a smaller rank is a higher priority. */
  datatype Item = Item(id: nat, lane: string, rank: nat, enqueuedAt: int)

  /**
    `running` maps the tasks in flight to their lanes, `started` lists the tasks invoked so far in order, and
    `tickets` every task ever enqueued.
    */
  datatype State = State(lanes: seq<string>, queues: map<string, seq<Item>>, inFlight: map<string, nat>, total: int,
                         running: map<nat, string>, started: seq<Item>, tickets: seq<Item>)

  // ---- The scan ----

  /** A place in the queues: a lane index and a position in that lane. */
  datatype Place = Place(lane: nat, pos: nat)

  predicate IsPlace(s: State, p: Place) {
    p.lane < |s.lanes| && s.lanes[p.lane] in s.queues && p.pos < |s.queues[s.lanes[p.lane]]|
  }

  function At(s: State, p: Place): Item
    requires IsPlace(s, p)
  {
    s.queues[s.lanes[p.lane]][p.pos]
  }

  /** The comparison made for each candidate: priority, then enqueue time, then lane order. */
  predicate Better(a: Item, laneA: nat, b: Item, laneB: nat) {
    a.rank < b.rank ||
    (a.rank == b.rank && (a.enqueuedAt < b.enqueuedAt || (a.enqueuedAt == b.enqueuedAt && laneA < laneB)))
  }

  /** `p` comes no later than `q` by priority, enqueue time, lane order and position. */
  predicate NoLater(s: State, p: Place, q: Place)
    requires IsPlace(s, p) && IsPlace(s, q)
  {
    var a, b := At(s, p), At(s, q);
    a.rank < b.rank ||
    (a.rank == b.rank &&
     (a.enqueuedAt < b.enqueuedAt ||
      (a.enqueuedAt == b.enqueuedAt && (p.lane < q.lane || (p.lane == q.lane && p.pos <= q.pos)))))
  }

  function QueueAt(s: State, lane: nat): seq<Item>
    requires lane < |s.lanes|
  {
    if s.lanes[lane] in s.queues then s.queues[s.lanes[lane]] else []
  }

  /** Already visited when the scan stands before position `pos` of lane `lane`. */
  predicate Visited(q: Place, lane: nat, pos: nat) {
    q.lane < lane || (q.lane == lane && q.pos < pos)
  }

  ghost predicate BestSoFar(s: State, best: Option<Place>, lane: nat, pos: nat) {
    && (best.Some? ==> IsPlace(s, best.value) && Visited(best.value, lane, pos))
    && forall q | IsPlace(s, q) && Visited(q, lane, pos) :: best.Some? && NoLater(s, best.value, q)
  }

  function ScanLane(s: State, lane: nat, pos: nat, best: Option<Place>): (r: Option<Place>)
    requires lane < |s.lanes| && pos <= |QueueAt(s, lane)| && BestSoFar(s, best, lane, 0)
    ensures BestSoFar(s, r, lane, pos)
  {
    if pos == 0 then best
    else
      var b := ScanLane(s, lane, pos - 1, best);
      if b.None? || Better(QueueAt(s, lane)[pos - 1], lane, At(s, b.value), b.value.lane)
      then Some(Place(lane, pos - 1)) else b
  }

  function ScanLanes(s: State, lane: nat): (r: Option<Place>)
    requires lane <= |s.lanes|
    ensures BestSoFar(s, r, lane, 0)
  {
    if lane == 0 then None
    else ScanLane(s, lane - 1, |QueueAt(s, lane - 1)|, ScanLanes(s, lane - 1))
  }

  /** The place dequeueNext() takes: no other queued task comes earlier. */
  function NextPlace(s: State): (r: Option<Place>)
    ensures r.Some? ==> IsPlace(s, r.value) && forall q | IsPlace(s, q) :: NoLater(s, r.value, q)
    ensures r.None? ==> forall q :: !IsPlace(s, q)
  {
    var r := ScanLanes(s, |s.lanes|);
    assert forall q | IsPlace(s, q) :: Visited(q, |s.lanes|, 0);
    r
  }

  // ---- Transitions ----

  function Initial(lanes: seq<string>): State {
    var names := if lanes == [] then ["write", "read"] else lanes;
    State(names, map l | l in names :: [], map l | l in names :: 0, 0, map[], [], [])
  }

  function RegisterLane(s: State, lane: string): State {
    if lane in s.queues then s
    else s.(lanes := s.lanes + [lane], queues := s.queues[lane := []], inFlight := s.inFlight[lane := 0])
  }

  function Count(inFlight: map<string, nat>, lane: string): nat {
    if lane in inFlight then inFlight[lane] else 0
  }

  function Start(s: State, item: Item): State {
    s.(total := s.total + 1, inFlight := s.inFlight[item.lane := Count(s.inFlight, item.lane) + 1],
       running := s.running[item.id := item.lane], started := s.started + [item])
  }

  function Append(s: State, item: Item): State {
    s.(queues := s.queues[item.lane := (if item.lane in s.queues then s.queues[item.lane] else []) + [item]])
  }

  /** A new task starts at once when a slot is free, and waits otherwise. */
  function Accept(s: State, max: int, item: Item): State {
    var s1 := s.(tickets := s.tickets + [item]);
    if s.total < max then Start(s1, item) else Append(s1, item)
  }

  function Enqueue(s: State, max: int, lane: string, rank: nat, now: int): State {
    Accept(RegisterLane(s, lane), max, Item(|s.tickets|, lane, rank, now))
  }

  function Dequeue(s: State, p: Place): State
    requires IsPlace(s, p)
  {
    var lane := s.lanes[p.lane];
    s.(queues := s.queues[lane := RemoveAt(s.queues[lane], p.pos)])
  }

  function Drain(s: State, max: int): State
    decreases max - s.total
  {
    if s.total >= max || NextPlace(s).None? then s
    else
      var p := NextPlace(s).value;
      Drain(Start(Dequeue(s, p), At(s, p)), max)
  }

  function Leave(s: State, id: nat): State
    requires id in s.running
  {
    var lane, n := s.running[id], Count(s.inFlight, s.running[id]);
    s.(total := s.total - 1, inFlight := s.inFlight[lane := if n == 0 then 0 else n - 1], running := s.running - {id})
  }

  /** A task settles, with success or failure: its slot is released and the queue drained. */
  function Settle(s: State, max: int, id: nat): State {
    if id in s.running then Drain(Leave(s, id), max) else s
  }

  // ---- The class ----

  class PriorityRequestQueue {
    const maxConcurrent: int
    var priorityLanes: seq<string>
    var queues: map<string, seq<Item>>
    var inFlightPerLane: map<string, nat>
    var totalInFlight: int
    var running: map<nat, string>
    var started: seq<Item>
    var tickets: seq<Item>

    function Model(): State
      reads this
    {
      State(priorityLanes, queues, inFlightPerLane, totalInFlight, running, started, tickets)
    }

    constructor (maxConcurrent: int, lanes: seq<string>)
      ensures Model() == Initial(lanes)
      ensures this.maxConcurrent == if maxConcurrent < 1 then 1 else maxConcurrent
    {
      this.maxConcurrent := if maxConcurrent < 1 then 1 else maxConcurrent;
      var names := if lanes == [] then ["write", "read"] else lanes;
      priorityLanes, queues, inFlightPerLane := names, map l | l in names :: [], map l | l in names :: 0;
      totalInFlight, running, started, tickets := 0, map[], [], [];
    }

    method RunTask(item: Item)
      modifies this
      ensures Model() == Start(old(Model()), item)
    {
      totalInFlight := totalInFlight + 1;
      inFlightPerLane := inFlightPerLane[item.lane := Count(inFlightPerLane, item.lane) + 1];
      running, started := running[item.id := item.lane], started + [item];
    }

    method EnqueueTask(lane: string, rank: nat, now: int)
      modifies this
      ensures Model() == Enqueue(old(Model()), maxConcurrent, lane, rank, now)
    {
      if lane !in queues {
        queues, inFlightPerLane := queues[lane := []], inFlightPerLane[lane := 0];
        priorityLanes := priorityLanes + [lane];
      }
      assert Model() == RegisterLane(old(Model()), lane);
      var item := Item(|tickets|, lane, rank, now);
      tickets := tickets + [item];
      if totalInFlight < maxConcurrent {
        RunTask(item);
      } else {
        queues := queues[lane := queues[lane] + [item]];
      }
    }

    /** The inner loop: every item of one lane, against the best found in the lanes before it. */
    method ScanQueue(li: nat, before: Option<Place>) returns (best: Option<Place>)
      requires li < |priorityLanes| && BestSoFar(Model(), before, li, 0)
      ensures best == ScanLane(Model(), li, |QueueAt(Model(), li)|, before)
    {
      best := before;
      var queue := if priorityLanes[li] in queues then queues[priorityLanes[li]] else [];
      assert queue == QueueAt(Model(), li);
      for qi := 0 to |queue|
        invariant best == ScanLane(Model(), li, qi, before)
      {
        if best.None? || Better(queue[qi], li, At(Model(), best.value), best.value.lane) {
          best := Some(Place(li, qi));
        }
      }
    }

    method FindNext() returns (best: Option<Place>)
      ensures best == NextPlace(Model())
    {
      best := None;
      for li := 0 to |priorityLanes|
        invariant best == ScanLanes(Model(), li)
      {
        best := ScanQueue(li, best);
      }
    }

    method DequeueNext() returns (item: Option<Item>)
      modifies this`queues
      ensures match NextPlace(old(Model()))
              case None => item == None && Model() == old(Model())
              case Some(p) => item == Some(At(old(Model()), p)) && Model() == Dequeue(old(Model()), p)
    {
      var best := FindNext();
      if best.None? {
        return None;
      }
      var lane := priorityLanes[best.value.lane];
      item := Some(queues[lane][best.value.pos]);
      queues := queues[lane := RemoveAt(queues[lane], best.value.pos)];
    }

    method DrainQueue()
      modifies this
      ensures Model() == Drain(old(Model()), maxConcurrent)
    {
      while totalInFlight < maxConcurrent
        invariant Drain(Model(), maxConcurrent) == Drain(old(Model()), maxConcurrent)
        decreases maxConcurrent - totalInFlight
      {
        label before:
        var item := DequeueNext();
        if item.None? {
          break;
        }
        RunTask(item.value);
        assert Model() == Start(Dequeue(old@before(Model()), NextPlace(old@before(Model())).value), item.value);
      }
    }

    method TaskSettled(id: nat)
      modifies this
      ensures Model() == Settle(old(Model()), maxConcurrent, id)
    {
      if id !in running {
        return;
      }
      var lane, n := running[id], Count(inFlightPerLane, running[id]);
      running, totalInFlight := running - {id}, totalInFlight - 1;
      inFlightPerLane := inFlightPerLane[lane := if n == 0 then 0 else n - 1];
      assert Model() == Leave(old(Model()), id);
      DrainQueue();
    }
  }

  // ---- What every state keeps ----

  function OnLane(running: map<nat, string>, lane: string): set<nat> {
    set id | id in running && running[id] == lane
  }

  /** The per-lane counts, added over the distinct lanes. */
  function SumLanes(lanes: seq<string>, inFlight: map<string, nat>): nat {
    if lanes == [] then 0
    else
      var n := |lanes| - 1;
      SumLanes(lanes[..n], inFlight) + if lanes[n] in lanes[..n] then 0 else Count(inFlight, lanes[n])
  }

  predicate Waits(s: State, x: Item) {
    x.lane in s.queues && x in s.queues[x.lane]
  }

  /** A lane's queue holds numbered tasks of that lane, in order of their numbers. */
  predicate LaneQueue(tickets: seq<Item>, lane: string, q: seq<Item>) {
    && (forall k | 0 <= k < |q| :: q[k].lane == lane && q[k].id < |tickets| && tickets[q[k].id] == q[k])
    && (forall j, k | 0 <= j < k < |q| :: q[j].id < q[k].id)
  }

  /** The same lanes have a place in the order, a queue, and a counter. */
  ghost predicate LanesListed(s: State) {
    (forall l :: l in s.queues <==> l in s.lanes) && s.inFlight.Keys == s.queues.Keys
  }

  /** Lanes, queues and counters describe each other. */
  ghost predicate Structure(s: State) {
    && LanesListed(s)
    && (forall i | 0 <= i < |s.tickets| :: s.tickets[i].id == i)
    && (forall l | l in s.queues :: LaneQueue(s.tickets, l, s.queues[l]))
  }

  /** The total is the sum of the per-lane counts, and each counts its running tasks. */
  predicate Counted(s: State) {
    && s.total == SumLanes(s.lanes, s.inFlight) == |s.running|
    && (forall id | id in s.running :: s.running[id] in s.inFlight && id < |s.tickets| && s.tickets[id] in s.started)
    && (forall l | l in s.inFlight :: s.inFlight[l] == |OnLane(s.running, l)|)
  }

  /** Every task enqueued is waiting or was started, once, never both. */
  predicate OnceEach(s: State) {
    && Distinct(s.started)
    && (forall x | x in s.started :: x.id < |s.tickets| && s.tickets[x.id] == x && x.lane in s.queues && !Waits(s, x))
    && (forall i | 0 <= i < |s.tickets| :: s.tickets[i] in s.started || Waits(s, s.tickets[i]))
  }

  /** At most `max` tasks run, and anything waits only while exactly `max` do. */
  predicate Busy(s: State, max: int) {
    s.total <= max && ((exists l :: l in s.queues && s.queues[l] != []) ==> s.total == max)
  }

  ghost predicate Inv(s: State, max: int) {
    Structure(s) && Counted(s) && OnceEach(s) && Busy(s, max)
  }

  lemma RunningAdded(running: map<nat, string>, id: nat, lane: string, l: string)
    requires id !in running
    ensures |OnLane(running[id := lane], l)| == |OnLane(running, l)| + if lane == l then 1 else 0
  {
    var now, was := OnLane(running[id := lane], l), OnLane(running, l);
    if lane == l {
      assert now == was + {id};
    } else {
      assert now == was;
    }
  }

  lemma Reinserted(running: map<nat, string>, id: nat)
    requires id in running
    ensures (running - {id})[id := running[id]] == running
  {
  }

  lemma {:induction false} SumLanesUpdate(lanes: seq<string>, inFlight: map<string, nat>, l: string, v: nat)
    ensures SumLanes(lanes, inFlight[l := v])
         == SumLanes(lanes, inFlight) + if l in lanes then v - Count(inFlight, l) else 0
  {
    if lanes != [] {
      var n := |lanes| - 1;
      SumLanesUpdate(lanes[..n], inFlight, l, v);
      assert lanes == lanes[..n] + [lanes[n]];
    }
  }

  lemma RegisteredStructure(s: State, lane: string)
    requires Structure(s)
    ensures Structure(RegisterLane(s, lane)) && lane in RegisterLane(s, lane).queues
  {
  }

  lemma RegisteredWaits(s: State, lane: string)
    ensures forall x :: Waits(RegisterLane(s, lane), x) <==> Waits(s, x)
  {
  }

  lemma RegisteredCounted(s: State, lane: string)
    requires Structure(s) && Counted(s)
    ensures Counted(RegisterLane(s, lane))
  {
    if lane !in s.queues {
      SumLanesUpdate(s.lanes, s.inFlight, lane, 0);
      var lanes' := s.lanes + [lane];
      assert lanes'[..|s.lanes|] == s.lanes;
      assert OnLane(s.running, lane) == {};
    }
  }

  lemma RegisteredOnce(s: State, lane: string)
    requires Structure(s) && OnceEach(s)
    ensures OnceEach(RegisterLane(s, lane))
  {
    RegisteredWaits(s, lane);
  }

  lemma StartCounted(s: State, item: Item)
    requires Counted(s) && LanesListed(s)
    requires item.lane in s.queues && item.id !in s.running && item.id < |s.tickets| && s.tickets[item.id] == item
    ensures Counted(Start(s, item))
  {
    var s' := Start(s, item);
    SumLanesUpdate(s.lanes, s.inFlight, item.lane, Count(s.inFlight, item.lane) + 1);
    RunningAdded(s.running, item.id, item.lane, item.lane);
    forall l | l in s'.inFlight
      ensures s'.inFlight[l] == |OnLane(s'.running, l)|
    {
      RunningAdded(s.running, item.id, item.lane, l);
    }
  }

  lemma LeaveCounted(s: State, id: nat)
    requires Counted(s) && LanesListed(s) && id in s.running
    ensures Counted(Leave(s, id)) && Leave(s, id).inFlight.Keys == s.inFlight.Keys
  {
    var s', lane, rest := Leave(s, id), s.running[id], s.running - {id};
    Reinserted(s.running, id);
    RunningAdded(rest, id, lane, lane);
    SumLanesUpdate(s.lanes, s.inFlight, lane, s.inFlight[lane] - 1);
    forall l | l in s'.inFlight
      ensures s'.inFlight[l] == |OnLane(s'.running, l)|
    {
      RunningAdded(rest, id, lane, l);
    }
  }

  function Launch(s: State, p: Place): State
    requires IsPlace(s, p)
  {
    Start(Dequeue(s, p), At(s, p))
  }

  /** A task taken out of its queue leaves every other one waiting, in the same order. */
  lemma DequeueWaits(s: State, p: Place)
    requires Structure(s) && IsPlace(s, p)
    ensures forall x :: Waits(Dequeue(s, p), x) <==> Waits(s, x) && x != At(s, p)
  {
    var lane := s.lanes[p.lane];
    assert LaneQueue(s.tickets, lane, s.queues[lane]);
    LaneRemoveAt(s.tickets, lane, s.queues[lane], p.pos);
  }

  lemma LaneRemoveAt(tickets: seq<Item>, lane: string, q: seq<Item>, i: nat)
    requires LaneQueue(tickets, lane, q) && i < |q|
    ensures LaneQueue(tickets, lane, RemoveAt(q, i))
    ensures forall x | x in RemoveAt(q, i) :: x in q && x != q[i]
    ensures forall x | x in q && x != q[i] :: x in RemoveAt(q, i)
  {
    var r := RemoveAt(q, i);
    assert forall k | 0 <= k < |r| :: r[k] == q[if k < i then k else k + 1];
    forall x | x in q && x != q[i]
      ensures x in r
    {
      var k :| 0 <= k < |q| && q[k] == x;
      assert r[if k < i then k else k - 1] == x;
    }
  }

  lemma DequeueStructure(s: State, p: Place)
    requires Structure(s) && IsPlace(s, p)
    ensures Structure(Dequeue(s, p))
  {
    var lane := s.lanes[p.lane];
    LaneRemoveAt(s.tickets, lane, s.queues[lane], p.pos);
  }

  lemma OnceMoves(s: State, s': State, item: Item)
    requires OnceEach(s) && Waits(s, item) && s'.tickets == s.tickets && s'.started == s.started + [item]
    requires item.id < |s.tickets| && s.tickets[item.id] == item && s'.queues.Keys == s.queues.Keys
    requires forall x :: Waits(s', x) <==> Waits(s, x) && x != item
    ensures OnceEach(s')
  {
    assert forall x :: x in s'.started <==> x in s.started || x == item;
  }

  lemma PlaceWaits(s: State, p: Place)
    requires Structure(s) && IsPlace(s, p)
    ensures Waits(s, At(s, p)) && At(s, p).lane == s.lanes[p.lane]
    ensures At(s, p).id < |s.tickets| && s.tickets[At(s, p).id] == At(s, p)
  {
    assert LaneQueue(s.tickets, s.lanes[p.lane], s.queues[s.lanes[p.lane]]);
  }

  lemma StartStructure(s: State, item: Item)
    requires Structure(s) && item.lane in s.queues
    ensures Structure(Start(s, item))
  {
    assert Start(s, item).inFlight.Keys == s.inFlight.Keys;
    SameQueues(s, Start(s, item));
  }

  lemma LaunchStructure(s: State, p: Place)
    requires Structure(s) && IsPlace(s, p)
    ensures Structure(Launch(s, p))
  {
    PlaceWaits(s, p);
    DequeueStructure(s, p);
    StartStructure(Dequeue(s, p), At(s, p));
  }

  lemma LaunchIsStart(s: State, p: Place)
    requires IsPlace(s, p)
    ensures Launch(s, p) == Start(s, At(s, p)).(queues := Dequeue(s, p).queues)
  {
  }

  lemma LaunchCounted(s: State, p: Place)
    requires Structure(s) && Counted(s) && OnceEach(s) && IsPlace(s, p)
    ensures Counted(Launch(s, p))
  {
    PlaceWaits(s, p);
    StartWaiting(s, At(s, p));
    LaunchIsStart(s, p);
    QueuesUncounted(Start(s, At(s, p)), Dequeue(s, p).queues);
  }

  lemma StartWaiting(s: State, item: Item)
    requires LanesListed(s) && Counted(s) && OnceEach(s)
    requires Waits(s, item) && item.id < |s.tickets| && s.tickets[item.id] == item
    ensures Counted(Start(s, item))
  {
    WaitingIsNotRunning(s, item);
    StartCounted(s, item);
  }

  /** What waits has no part in the counts. */
  lemma QueuesUncounted(s: State, queues: map<string, seq<Item>>)
    requires Counted(s)
    ensures Counted(s.(queues := queues))
  {
  }

  lemma WaitingIsNotRunning(s: State, item: Item)
    requires Counted(s) && OnceEach(s) && Waits(s, item) && item.id < |s.tickets| && s.tickets[item.id] == item
    ensures item.id !in s.running
  {
  }

  lemma LaunchWaits(s: State, p: Place)
    requires Structure(s) && IsPlace(s, p)
    ensures forall x :: Waits(Launch(s, p), x) <==> Waits(s, x) && x != At(s, p)
  {
    DequeueWaits(s, p);
    SameWaiting(Dequeue(s, p), Launch(s, p));
  }

  lemma LaunchKeeps(s: State, p: Place)
    requires Structure(s) && Counted(s) && OnceEach(s) && IsPlace(s, p)
    ensures var s' := Launch(s, p); Structure(s') && Counted(s') && OnceEach(s')
    ensures forall x :: Waits(Launch(s, p), x) <==> Waits(s, x) && x != At(s, p)
  {
    LaunchStructure(s, p);
    LaunchCounted(s, p);
    LaunchWaits(s, p);
    LaunchOnce(s, p);
  }

  lemma LaunchOnce(s: State, p: Place)
    requires Structure(s) && OnceEach(s) && IsPlace(s, p)
    ensures OnceEach(Launch(s, p))
  {
    PlaceWaits(s, p);
    LaunchWaits(s, p);
    OnceMoves(s, Launch(s, p), At(s, p));
  }

  lemma SameWaiting(s: State, s': State)
    requires s'.queues == s.queues
    ensures forall x :: Waits(s', x) <==> Waits(s, x)
  {
  }

  /** What waits, and the lanes' shape, depend only on the queues. */
  lemma SameQueues(s: State, s': State)
    requires Structure(s) && s'.queues == s.queues && s'.lanes == s.lanes && s'.tickets == s.tickets
    requires s'.inFlight.Keys == s.inFlight.Keys
    ensures Structure(s') && forall x :: Waits(s', x) <==> Waits(s, x)
  {
  }

  lemma {:induction false} DrainKeeps(s: State, max: int)
    requires Structure(s) && Counted(s) && OnceEach(s) && s.total <= max
    ensures Inv(Drain(s, max), max)
    decreases max - s.total
  {
    if s.total >= max || NextPlace(s).None? {
      DrainedIsBusy(s, max);
    } else {
      var p := NextPlace(s).value;
      LaunchKeeps(s, p);
      LaunchIsStart(s, p);
      DrainKeeps(Launch(s, p), max);
      assert Drain(s, max) == Drain(Launch(s, p), max);
    }
  }

  lemma DrainedIsBusy(s: State, max: int)
    requires Structure(s) && s.total <= max && (s.total == max || forall q :: !IsPlace(s, q))
    ensures Busy(s, max)
  {
    if s.total < max {
      NothingWaits(s);
    }
  }

  lemma NothingWaits(s: State)
    requires Structure(s) && forall q :: !IsPlace(s, q)
    ensures forall l | l in s.queues :: s.queues[l] == []
  {
    forall l | l in s.queues
      ensures s.queues[l] == []
    {
      var i :| 0 <= i < |s.lanes| && s.lanes[i] == l;
      assert !IsPlace(s, Place(i, 0));
    }
  }

  lemma LeaveKeeps(s: State, id: nat)
    requires Structure(s) && Counted(s) && OnceEach(s) && id in s.running
    ensures var s' := Leave(s, id); Structure(s') && Counted(s') && OnceEach(s')
    ensures forall x :: Waits(Leave(s, id), x) <==> Waits(s, x)
  {
    LeaveCounted(s, id);
    SameQueues(s, Leave(s, id));
    SameOnce(s, Leave(s, id));
  }

  lemma SameOnce(s: State, s': State)
    requires OnceEach(s) && s'.started == s.started && s'.tickets == s.tickets && s'.queues == s.queues
    ensures OnceEach(s')
  {
  }

  lemma SettleKeeps(s: State, max: int, id: nat)
    requires Inv(s, max)
    ensures Inv(Settle(s, max, id), max)
  {
    if id in s.running {
      LeaveKeeps(s, id);
      DrainKeeps(Leave(s, id), max);
    }
  }

  lemma AcceptKeeps(s: State, max: int, item: Item)
    requires Inv(s, max) && item.lane in s.queues && item.id == |s.tickets|
    ensures Inv(Accept(s, max, item), max)
  {
    if s.total < max {
      StartNewcomer(s, item);
    } else {
      QueueNewcomer(s, item);
    }
    AcceptBusy(s, max, item);
  }

  lemma AcceptBusy(s: State, max: int, item: Item)
    requires Busy(s, max)
    ensures Busy(Accept(s, max, item), max)
  {
    if s.total < max {
      assert forall l | l in s.queues :: s.queues[l] == [];
      assert Accept(s, max, item).queues == s.queues;
    }
  }

  lemma EnqueueKeeps(s: State, max: int, lane: string, rank: nat, now: int)
    requires Inv(s, max)
    ensures Inv(Enqueue(s, max, lane, rank, now), max)
  {
    RegisteredStructure(s, lane);
    RegisteredCounted(s, lane);
    RegisteredOnce(s, lane);
    RegisteredBusy(s, max, lane);
    AcceptKeeps(RegisterLane(s, lane), max, Item(|s.tickets|, lane, rank, now));
  }

  lemma RegisteredBusy(s: State, max: int, lane: string)
    requires Busy(s, max)
    ensures Busy(RegisterLane(s, lane), max)
  {
    var s' := RegisterLane(s, lane);
    assert forall l | l in s'.queues && s'.queues[l] != [] :: l in s.queues && s.queues[l] == s'.queues[l];
  }

  /** Numbering a new task changes nothing for the others. */
  lemma TicketAdded(s: State, item: Item)
    requires Structure(s) && Counted(s) && item.id == |s.tickets|
    ensures var s' := s.(tickets := s.tickets + [item]); Structure(s') && Counted(s')
    ensures OnceEach(s) ==> item !in s.started && !Waits(s, item)
  {
    var s' := s.(tickets := s.tickets + [item]);
    assert forall i | 0 <= i < |s.tickets| :: s'.tickets[i] == s.tickets[i];
  }

  lemma StartNewcomer(s: State, item: Item)
    requires Structure(s) && Counted(s) && OnceEach(s) && item.lane in s.queues && item.id == |s.tickets|
    ensures var s' := Start(s.(tickets := s.tickets + [item]), item); Structure(s') && Counted(s') && OnceEach(s')
  {
    TicketAdded(s, item);
    var s1 := s.(tickets := s.tickets + [item]);
    StartCounted(s1, item);
    StartStructure(s1, item);
    OnceNew(s, Start(s1, item), item);
  }

  lemma LaneAppend(tickets: seq<Item>, q: seq<Item>, item: Item)
    requires LaneQueue(tickets, item.lane, q) && item.id == |tickets|
    ensures LaneQueue(tickets + [item], item.lane, q + [item])
    ensures forall x :: x in q + [item] <==> x in q || x == item
  {
  }

  lemma AppendWaits(s: State, item: Item)
    requires item.lane in s.queues
    ensures forall x :: Waits(Append(s, item), x) <==> Waits(s, x) || x == item
  {
    assert forall x :: x in s.queues[item.lane] + [item] <==> x in s.queues[item.lane] || x == item;
  }

  /** A task joins the end of its lane's queue. */
  lemma AppendStructure(s: State, item: Item)
    requires Structure(s) && item.lane in s.queues && item.id == |s.tickets|
    ensures Structure(Append(s.(tickets := s.tickets + [item]), item))
  {
    LaneAppend(s.tickets, s.queues[item.lane], item);
    forall l | l in s.queues
      ensures LaneQueue(s.tickets + [item], l, s.queues[l])
    {
      assert LaneQueue(s.tickets, l, s.queues[l]);
    }
  }

  lemma QueueNewcomer(s: State, item: Item)
    requires Structure(s) && Counted(s) && OnceEach(s) && item.lane in s.queues && item.id == |s.tickets|
    ensures var s' := Append(s.(tickets := s.tickets + [item]), item); Structure(s') && Counted(s') && OnceEach(s')
  {
    TicketAdded(s, item);
    var s1 := s.(tickets := s.tickets + [item]);
    AppendStructure(s, item);
    AppendWaits(s1, item);
    QueuesUncounted(s1, Append(s1, item).queues);
    OnceNew(s, Append(s1, item), item);
  }

  lemma OnceNew(s: State, s': State, item: Item)
    requires OnceEach(s) && item.id == |s.tickets| && s'.tickets == s.tickets + [item]
    requires item !in s.started && !Waits(s, item)
    requires s'.queues.Keys == s.queues.Keys && item.lane in s.queues
    requires (s'.started == s.started + [item] && forall x :: Waits(s', x) <==> Waits(s, x)) ||
             (s'.started == s.started && forall x :: Waits(s', x) <==> Waits(s, x) || x == item)
    ensures OnceEach(s')
  {
    assert forall x | x in s.started :: x in s'.started;
    forall i | 0 <= i < |s'.tickets|
      ensures s'.tickets[i] in s'.started || Waits(s', s'.tickets[i])
    {
      if i < |s.tickets| {
        assert s'.tickets[i] == s.tickets[i];
      } else if |s'.started| > |s.started| {
        assert s'.started[|s.started|] == item;
      }
    }
  }

  datatype Event = Enqueues(lane: string, rank: nat, now: int) | Settles(id: nat)

  function Step(s: State, max: int, ev: Event): State {
    match ev
    case Enqueues(lane, rank, now) => Enqueue(s, max, lane, rank, now)
    case Settles(id) => Settle(s, max, id)
  }

  function Run(lanes: seq<string>, max: int, evs: seq<Event>): State {
    if evs == [] then Initial(lanes) else Step(Run(lanes, max, evs[..|evs| - 1]), max, evs[|evs| - 1])
  }

  lemma {:induction false} NoneRunning(lanes: seq<string>, inFlight: map<string, nat>)
    requires forall l | l in inFlight :: inFlight[l] == 0
    ensures SumLanes(lanes, inFlight) == 0
  {
    if lanes != [] { NoneRunning(lanes[..|lanes| - 1], inFlight); }
  }

  /**
    In every reachable state: the total is the sum of the lanes and within the cap, tasks wait only while the cap is
    reached, and every task is waiting or was started exactly once.
    */
  lemma {:induction false} RunKeeps(lanes: seq<string>, max: int, evs: seq<Event>)
    requires max >= 1
    ensures Inv(Run(lanes, max, evs), max)
  {
    if evs == [] {
      var s := Initial(lanes);
      NoneRunning(s.lanes, s.inFlight);
      assert forall l :: OnLane(s.running, l) == {};
    } else {
      RunKeeps(lanes, max, evs[..|evs| - 1]);
      var s := Run(lanes, max, evs[..|evs| - 1]);
      match evs[|evs| - 1]
      case Enqueues(lane, rank, now) => EnqueueKeeps(s, max, lane, rank, now);
      case Settles(id) => SettleKeeps(s, max, id);
    }
  }

  // ---- Start order ----

  /** Enqueue times never run backwards. */
  predicate MonotoneTickets(tickets: seq<Item>) {
    forall i, j | 0 <= i < j < |tickets| :: tickets[i].enqueuedAt <= tickets[j].enqueuedAt
  }

  predicate SameQueue(a: Item, b: Item) {
    a.lane == b.lane && a.rank == b.rank
  }

  predicate StartedInOrder(started: seq<Item>) {
    forall i, j | 0 <= i < j < |started| && SameQueue(started[i], started[j]) :: started[i].id < started[j].id
  }

  ghost predicate BeforeWaiting(s: State, x: Item) {
    forall y | Waits(s, y) && SameQueue(x, y) :: x.id < y.id
  }

  /** Within a lane and priority, tasks start in the order they were enqueued, and before those still waiting. */
  ghost predicate InOrder(s: State) {
    StartedInOrder(s.started) && forall x | x in s.started :: BeforeWaiting(s, x)
  }

  lemma StartedGrows(started: seq<Item>, item: Item)
    requires StartedInOrder(started) && forall x | x in started && SameQueue(x, item) :: x.id < item.id
    ensures StartedInOrder(started + [item])
  {
    assert forall i | 0 <= i < |started| :: started[i] in started;
  }

  /** Starting a task that comes before all others waiting in its lane and priority keeps the order. */
  lemma LaunchInOrder(s: State)
    requires Structure(s) && OnceEach(s) && InOrder(s) && NextPlace(s).Some?
    requires var x := At(s, NextPlace(s).value); forall y | Waits(s, y) && SameQueue(x, y) && y != x :: x.id < y.id
    ensures InOrder(Launch(s, NextPlace(s).value))
  {
    var p := NextPlace(s).value;
    var item, s' := At(s, p), Launch(s, p);
    PlaceWaits(s, p);
    LaunchWaits(s, p);
    forall x | x in s.started && SameQueue(x, item)
      ensures x.id < item.id
    {
      assert BeforeWaiting(s, x);
    }
    StartedGrows(s.started, item);
    forall x | x in s'.started
      ensures BeforeWaiting(s', x)
    {
      assert x == item || BeforeWaiting(s, x);
    }
  }

  lemma EnqueueInOrder(s: State, max: int, lane: string, rank: nat, now: int)
    requires Inv(s, max) && InOrder(s)
    ensures InOrder(Enqueue(s, max, lane, rank, now))
  {
    RegisteredStructure(s, lane);
    RegisteredOnce(s, lane);
    RegisteredInOrder(s, lane);
    RegisteredBusy(s, max, lane);
    AcceptInOrder(RegisterLane(s, lane), max, Item(|s.tickets|, lane, rank, now));
  }

  lemma RegisteredInOrder(s: State, lane: string)
    requires InOrder(s)
    ensures InOrder(RegisterLane(s, lane))
  {
    RegisteredWaits(s, lane);
    forall x | x in s.started
      ensures BeforeWaiting(RegisterLane(s, lane), x)
    {
      assert BeforeWaiting(s, x);
    }
  }

  lemma AcceptInOrder(s: State, max: int, item: Item)
    requires OnceEach(s) && Busy(s, max) && InOrder(s) && item.lane in s.queues && item.id == |s.tickets|
    ensures InOrder(Accept(s, max, item))
  {
    var s' := Accept(s, max, item);
    assert forall x | x in s.started :: x.id < item.id;
    if s.total < max {
      StartedGrows(s.started, item);
      assert forall l | l in s.queues :: s.queues[l] == [];
      assert forall x :: !Waits(s', x);
    } else {
      WaitingGrows(s, s', item);
      forall x | x in s.started
        ensures BeforeWaiting(s', x)
      {
        assert BeforeWaiting(s, x);
      }
    }
  }

  lemma WaitingGrows(s: State, s': State, item: Item)
    requires item.lane in s.queues && s'.queues == s.queues[item.lane := s.queues[item.lane] + [item]]
    ensures forall x | Waits(s', x) :: Waits(s, x) || x == item
  {
  }

  /** The clock never runs backwards over the enqueues of a run. */
  predicate MonotoneClock(evs: seq<Event>) {
    forall i, j | 0 <= i < j < |evs| && evs[i].Enqueues? && evs[j].Enqueues? :: evs[i].now <= evs[j].now
  }

  predicate NoLaterThan(tickets: seq<Item>, now: int) {
    forall i | 0 <= i < |tickets| :: tickets[i].enqueuedAt <= now
  }

  lemma {:induction false} TicketTimes(lanes: seq<string>, max: int, evs: seq<Event>, now: int)
    requires forall i | 0 <= i < |evs| && evs[i].Enqueues? :: evs[i].now <= now
    ensures NoLaterThan(Run(lanes, max, evs).tickets, now)
  {
    if evs != [] {
      var n := |evs| - 1;
      TicketTimes(lanes, max, evs[..n], now);
      StepTickets(Run(lanes, max, evs[..n]), max, evs[n]);
    }
  }

  lemma StepTickets(s: State, max: int, ev: Event)
    ensures Step(s, max, ev).tickets
         == s.tickets + if ev.Enqueues? then [Item(|s.tickets|, ev.lane, ev.rank, ev.now)] else []
  {
    if ev.Settles? && ev.id in s.running {
      DrainTickets(Leave(s, ev.id), max);
    }
  }

  lemma {:induction false} DrainTickets(s: State, max: int)
    ensures Drain(s, max).tickets == s.tickets
    decreases max - s.total
  {
    if s.total < max && NextPlace(s).Some? {
      DrainTickets(Launch(s, NextPlace(s).value), max);
    }
  }

  /** No queued task comes earlier than the one at `p`. */
  ghost predicate IsLeast(s: State, p: Place) {
    IsPlace(s, p) && forall q | IsPlace(s, q) :: NoLater(s, p, q)
  }

  ghost predicate SomethingWaits(s: State) {
    exists l :: l in s.queues && s.queues[l] != []
  }

  lemma WaitingHasPlace(s: State)
    requires Structure(s)
    ensures SomethingWaits(s) <==> NextPlace(s).Some?
  {
    if l :| l in s.queues && s.queues[l] != [] {
      var i :| 0 <= i < |s.lanes| && s.lanes[i] == l;
      assert IsPlace(s, Place(i, 0));
    }
    if NextPlace(s).Some? {
      assert s.queues[s.lanes[NextPlace(s).value.lane]] != [];
    }
  }

  /** Which place is least depends only on the queues. */
  lemma SameLeast(s: State, s': State, p: Place)
    requires s'.queues == s.queues && s'.lanes == s.lanes && IsPlace(s', p)
    requires forall q | IsPlace(s', q) :: NoLater(s', p, q)
    ensures IsLeast(s, p) && At(s, p) == At(s', p)
  {
    forall q | IsPlace(s, q)
      ensures NoLater(s, p, q)
    {
      assert IsPlace(s', q);
    }
  }

  /** The slot of task `id` goes to the task at `p`, the least of those waiting, which leaves its queue. */
  ghost predicate HandsSlotTo(s: State, s': State, id: nat, p: Place) {
    && IsLeast(s, p)
    && var x, lane := At(s, p), s.lanes[p.lane];
       && s'.started == s.started + [x] && s'.running == (s.running - {id})[x.id := x.lane] && s'.total == s.total
       && s'.queues == s.queues[lane := s.queues[lane][..p.pos] + s.queues[lane][p.pos + 1..]]
       && s'.tickets == s.tickets && s'.lanes == s.lanes
  }

  predicate FreesSlot(s: State, s': State, id: nat) {
    && s'.running == s.running - {id} && s'.total == s.total - 1 && s'.started == s.started
    && s'.queues == s.queues && s'.tickets == s.tickets && s'.lanes == s.lanes
  }

  ghost predicate GivesSlotOn(s: State, s': State, id: nat) {
    if SomethingWaits(s) then exists p :: HandsSlotTo(s, s', id, p) else FreesSlot(s, s', id)
  }

  /** A settling task hands its slot to exactly one task, the least of those waiting, if any waits. */
  lemma FreedSlotGoesToLeast(lanes: seq<string>, max: int, evs: seq<Event>, id: nat)
    requires max >= 1 && id in Run(lanes, max, evs).running
    ensures GivesSlotOn(Run(lanes, max, evs), Run(lanes, max, evs + [Settles(id)]), id)
  {
    RunKeeps(lanes, max, evs);
    RunGrows(lanes, max, evs, Settles(id));
    SlotGoesToLeast(Run(lanes, max, evs), max, id);
  }

  lemma RunGrows(lanes: seq<string>, max: int, evs: seq<Event>, ev: Event)
    ensures Run(lanes, max, evs + [ev]) == Step(Run(lanes, max, evs), max, ev)
  {
    assert (evs + [ev])[..|evs|] == evs;
  }

  lemma SlotGoesToLeast(s: State, max: int, id: nat)
    requires Inv(s, max) && id in s.running
    ensures GivesSlotOn(s, Settle(s, max, id), id)
  {
    var s1 := Leave(s, id);
    LeaveKeeps(s, id);
    WaitingHasPlace(s1);
    assert SomethingWaits(s) <==> SomethingWaits(s1);
    if SomethingWaits(s) {
      var p := NextPlace(s1).value;
      OneLaunch(s1, max);
      SameLeast(s, s1, p);
      assert HandsSlotTo(s, Launch(s1, p), id, p);
    }
  }

  predicate StartsAtOnce(s: State, s': State, item: Item) {
    && s'.started == s.started + [item] && s'.running == s.running[item.id := item.lane] && s'.total == s.total + 1
    && s'.queues.Keys == s.queues.Keys + {item.lane} && forall l | l in s.queues :: s'.queues[l] == s.queues[l]
  }

  predicate WaitsLast(s: State, s': State, item: Item) {
    && s'.started == s.started && s'.running == s.running && s'.total == s.total
    && s'.queues == s.queues[item.lane := (if item.lane in s.queues then s.queues[item.lane] else []) + [item]]
  }

  predicate TakesIn(s: State, s': State, max: int, item: Item) {
    && (if s.total < max then StartsAtOnce(s, s', item) else WaitsLast(s, s', item))
    && s'.tickets == s.tickets + [item] && s'.lanes == s.lanes + if item.lane in s.queues then [] else [item.lane]
  }

  lemma NewTask(s: State, max: int, lane: string, rank: nat, now: int)
    ensures TakesIn(s, Enqueue(s, max, lane, rank, now), max, Item(|s.tickets|, lane, rank, now))
  {
    assert s.lanes + [] == s.lanes;
  }

  /** A new task starts at once while fewer than the cap run, and otherwise joins the end of its lane. */
  lemma EnqueueStartsOrWaits(lanes: seq<string>, max: int, evs: seq<Event>, lane: string, rank: nat, now: int)
    ensures var s := Run(lanes, max, evs);
      TakesIn(s, Run(lanes, max, evs + [Enqueues(lane, rank, now)]), max, Item(|s.tickets|, lane, rank, now))
  {
    RunGrows(lanes, max, evs, Enqueues(lane, rank, now));
    NewTask(Run(lanes, max, evs), max, lane, rank, now);
  }

  /** The lanes given at the start, or "write" before "read", keep their order; others rank below them. */
  lemma {:induction false} LanesKeepOrder(lanes: seq<string>, max: int, evs: seq<Event>)
    ensures (if lanes == [] then ["write", "read"] else lanes) <= Run(lanes, max, evs).lanes
  {
    if evs != [] {
      var n := |evs| - 1;
      LanesKeepOrder(lanes, max, evs[..n]);
      if evs[n].Settles? && evs[n].id in Run(lanes, max, evs[..n]).running {
        DrainLanes(Leave(Run(lanes, max, evs[..n]), evs[n].id), max);
      }
    }
  }

  lemma {:induction false} DrainLanes(s: State, max: int)
    ensures Drain(s, max).lanes == s.lanes
    decreases max - s.total
  {
    if s.total < max && NextPlace(s).Some? {
      DrainLanes(Launch(s, NextPlace(s).value), max);
    }
  }

  lemma OneLaunch(s: State, max: int)
    requires s.total == max - 1 && NextPlace(s).Some?
    ensures Drain(s, max) == Launch(s, NextPlace(s).value)
  {
  }

  // ---- Exactly when the order holds ----

  /** `y` was enqueued before `x` into the same lane and priority, but by a clock that has stepped back since. */
  predicate SteppedOver(x: Item, y: Item) {
    SameQueue(x, y) && y.id < x.id && x.enqueuedAt < y.enqueuedAt
  }

  /** The settling of this task starts one over which the clock has stepped back. */
  ghost predicate Overtakes(s: State, id: nat) {
    && id in s.running && NextPlace(Leave(s, id)).Some?
    && exists y :: Waits(s, y) && SteppedOver(At(Leave(s, id), NextPlace(Leave(s, id)).value), y)
  }

  /** Of two tasks of one lane and priority, the later can be chosen over the earlier only by its timestamp. */
  lemma ChosenOver(s: State, y: Item)
    requires Structure(s) && NextPlace(s).Some? && Waits(s, y)
    requires SameQueue(At(s, NextPlace(s).value), y)
    ensures var x := At(s, NextPlace(s).value); y.id < x.id ==> x.enqueuedAt < y.enqueuedAt
  {
    var p := NextPlace(s).value;
    var lane := s.lanes[p.lane];
    PlaceWaits(s, p);
    assert LaneQueue(s.tickets, lane, s.queues[lane]);
    var k :| 0 <= k < |s.queues[lane]| && s.queues[lane][k] == y;
    var q := Place(p.lane, k);
    assert IsPlace(s, q) && At(s, q) == y && NoLater(s, p, q);
  }

  /** Starting the next task keeps the order exactly if it steps over none. */
  lemma LaunchInOrderIff(s: State)
    requires Structure(s) && OnceEach(s) && InOrder(s) && NextPlace(s).Some?
    ensures var x := At(s, NextPlace(s).value);
      InOrder(Launch(s, NextPlace(s).value)) <==> !exists y :: Waits(s, y) && SteppedOver(x, y)
  {
    var p := NextPlace(s).value;
    var x := At(s, p);
    PlaceWaits(s, p);
    LaunchWaits(s, p);
    if y :| Waits(s, y) && SteppedOver(x, y) {
      LaunchOutOfOrder(s, y);
    } else {
      forall y | Waits(s, y) && SameQueue(x, y) && y != x
        ensures x.id < y.id
      {
        DistinctIds(s, x, y);
        ChosenOver(s, y);
      }
      LaunchInOrder(s);
    }
  }

  lemma DistinctIds(s: State, x: Item, y: Item)
    requires Structure(s) && Waits(s, x) && Waits(s, y) && x != y
    ensures x.id != y.id
  {
    assert LaneQueue(s.tickets, x.lane, s.queues[x.lane]) && LaneQueue(s.tickets, y.lane, s.queues[y.lane]);
  }

  lemma LaunchOutOfOrder(s: State, y: Item)
    requires Structure(s) && NextPlace(s).Some? && Waits(s, y) && SteppedOver(At(s, NextPlace(s).value), y)
    ensures !InOrder(Launch(s, NextPlace(s).value))
  {
    var p := NextPlace(s).value;
    LaunchWaits(s, p);
    var s', x := Launch(s, p), At(s, p);
    assert s'.started[|s.started|] == x && x in s'.started;
    assert Waits(s', y) && !BeforeWaiting(s', x);
  }

  lemma SettleInOrderIff(s: State, max: int, id: nat)
    requires Inv(s, max) && InOrder(s)
    ensures InOrder(Settle(s, max, id)) <==> !Overtakes(s, id)
  {
    if id in s.running {
      var s1 := Leave(s, id);
      LeaveKeeps(s, id);
      LeaveOrder(s, id);
      WaitingHasPlace(s1);
      SameSomething(s, s1);
      if NextPlace(s1).Some? {
        OneLaunch(s1, max);
        LaunchInOrderIff(s1);
      }
    }
  }

  lemma SameSomething(s: State, s': State)
    requires s'.queues == s.queues
    ensures SomethingWaits(s) <==> SomethingWaits(s')
  {
  }

  lemma LeaveOrder(s: State, id: nat)
    requires id in s.running && InOrder(s)
    ensures InOrder(Leave(s, id))
  {
    SameWaiting(s, Leave(s, id));
    forall x | x in s.started
      ensures BeforeWaiting(Leave(s, id), x)
    {
      assert BeforeWaiting(s, x);
    }
  }

  ghost predicate Oversteps(s: State, ev: Event) {
    ev.Settles? && Overtakes(s, ev.id)
  }

  lemma StepInOrderIff(s: State, max: int, ev: Event)
    requires Inv(s, max) && InOrder(s)
    ensures InOrder(Step(s, max, ev)) <==> !Oversteps(s, ev)
  {
    match ev
    case Enqueues(lane, rank, now) => EnqueueInOrder(s, max, lane, rank, now);
    case Settles(id) => SettleInOrderIff(s, max, id);
  }

  ghost predicate AlwaysInOrder(lanes: seq<string>, max: int, evs: seq<Event>) {
    forall k | 0 <= k <= |evs| :: InOrder(Run(lanes, max, evs[..k]))
  }

  ghost predicate NeverOversteps(lanes: seq<string>, max: int, evs: seq<Event>) {
    forall k | 0 <= k < |evs| :: !Oversteps(Run(lanes, max, evs[..k]), evs[k])
  }

  lemma {:induction false} UnsteppedIsInOrder(lanes: seq<string>, max: int, evs: seq<Event>, k: nat)
    requires max >= 1 && NeverOversteps(lanes, max, evs) && k <= |evs|
    ensures InOrder(Run(lanes, max, evs[..k]))
  {
    if k > 0 {
      UnsteppedIsInOrder(lanes, max, evs, k - 1);
      assert evs[..k][..k - 1] == evs[..k - 1];
      RunKeeps(lanes, max, evs[..k - 1]);
      StepInOrderIff(Run(lanes, max, evs[..k - 1]), max, evs[k - 1]);
    }
  }

  lemma InOrderIsUnstepped(lanes: seq<string>, max: int, evs: seq<Event>, k: nat)
    requires max >= 1 && AlwaysInOrder(lanes, max, evs) && k < |evs|
    ensures !Oversteps(Run(lanes, max, evs[..k]), evs[k])
  {
    assert evs[..k + 1][..k] == evs[..k] && InOrder(Run(lanes, max, evs[..k + 1]));
    RunKeeps(lanes, max, evs[..k]);
    StepInOrderIff(Run(lanes, max, evs[..k]), max, evs[k]);
  }

  /**
    Over any run, tasks of one lane and priority start in the order in which they were enqueued exactly if no task is
    started over an earlier one that the clock, having stepped back, stamped with a later time.
    */
  lemma InOrderIffNeverOversteps(lanes: seq<string>, max: int, evs: seq<Event>)
    requires max >= 1
    ensures AlwaysInOrder(lanes, max, evs) <==> NeverOversteps(lanes, max, evs)
  {
    if NeverOversteps(lanes, max, evs) {
      forall k | 0 <= k <= |evs|
        ensures InOrder(Run(lanes, max, evs[..k]))
      {
        UnsteppedIsInOrder(lanes, max, evs, k);
      }
    }
    if AlwaysInOrder(lanes, max, evs) {
      forall k | 0 <= k < |evs|
        ensures !Oversteps(Run(lanes, max, evs[..k]), evs[k])
      {
        InOrderIsUnstepped(lanes, max, evs, k);
      }
    }
  }

  lemma {:induction false} TicketsMonotone(lanes: seq<string>, max: int, evs: seq<Event>)
    requires MonotoneClock(evs)
    ensures MonotoneTickets(Run(lanes, max, evs).tickets)
  {
    if evs != [] {
      var n := |evs| - 1;
      TicketsMonotone(lanes, max, evs[..n]);
      StepTickets(Run(lanes, max, evs[..n]), max, evs[n]);
      if evs[n].Enqueues? {
        TicketTimes(lanes, max, evs[..n], evs[n].now);
      }
    }
  }

  lemma OlderIsNoLater(s: State, a: Item, b: Item)
    requires Structure(s) && MonotoneTickets(s.tickets) && Waits(s, a) && Waits(s, b)
    ensures a.id < b.id ==> a.enqueuedAt <= b.enqueuedAt
  {
    assert LaneQueue(s.tickets, a.lane, s.queues[a.lane]) && LaneQueue(s.tickets, b.lane, s.queues[b.lane]);
    assert s.tickets[a.id] == a && s.tickets[b.id] == b;
  }

  /** Under a monotone clock, the next task is the earliest enqueued of those waiting in its lane with its priority. */
  lemma NextIsFirstOfItsQueue(s: State, y: Item)
    requires Structure(s) && MonotoneTickets(s.tickets) && NextPlace(s).Some? && Waits(s, y)
    requires SameQueue(At(s, NextPlace(s).value), y) && y != At(s, NextPlace(s).value)
    ensures At(s, NextPlace(s).value).id < y.id
  {
    var x := At(s, NextPlace(s).value);
    PlaceWaits(s, NextPlace(s).value);
    DistinctIds(s, x, y);
    OlderIsNoLater(s, y, x);
    ChosenOver(s, y);
  }

  lemma MonotoneNeverOvertakes(s: State, max: int, id: nat)
    requires Inv(s, max) && MonotoneTickets(s.tickets)
    ensures !Overtakes(s, id)
  {
    if id in s.running && NextPlace(Leave(s, id)).Some? {
      var s1 := Leave(s, id);
      LeaveKeeps(s, id);
      var x := At(s1, NextPlace(s1).value);
      forall y | Waits(s, y)
        ensures !SteppedOver(x, y)
      {
        if SameQueue(x, y) && y != x { NextIsFirstOfItsQueue(s1, y); }
      }
    }
  }

  /** Under a monotone clock that never happens, and every run keeps the order. */
  lemma StartsInEnqueueOrder(lanes: seq<string>, max: int, evs: seq<Event>)
    requires max >= 1 && MonotoneClock(evs)
    ensures AlwaysInOrder(lanes, max, evs)
  {
    forall k | 0 <= k < |evs|
      ensures !Oversteps(Run(lanes, max, evs[..k]), evs[k])
    {
      RunKeeps(lanes, max, evs[..k]);
      TicketsMonotone(lanes, max, evs[..k]);
      if evs[k].Settles? {
        MonotoneNeverOvertakes(Run(lanes, max, evs[..k]), max, evs[k].id);
      }
    }
    InOrderIffNeverOversteps(lanes, max, evs);
  }
}
