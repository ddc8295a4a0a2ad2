/** The offline write queue: priority order with FIFO ties, and a drain whose replays interleave with new writes. */
module OfflineQueueing {
  import opened Sequences

  /** A queued write; `sequence` is its number in order of enqueueing. */
  datatype QueuedOp = QueuedOp(priority: real, sequence: nat)

  datatype Replayed = Replayed(op: QueuedOp, success: bool)

  /** `executing` is the operation the drain is awaiting; `results` those of the drain in progress or last ended. */
  datatype State = State(queue: seq<QueuedOp>, executing: Option<QueuedOp>, isDraining: bool, isOnline: bool,
                         nextSequence: nat, results: seq<Replayed>)

  datatype Options = Options(enabled: bool, maxQueueSize: nat)

  const INITIAL := State([], None, false, true, 0, [])

  // ---- Order ----

  /** `a` is replayed before `b`: higher priority, or the same and enqueued earlier. */
  predicate Precedes(a: QueuedOp, b: QueuedOp) {
    a.priority > b.priority || (a.priority == b.priority && a.sequence < b.sequence)
  }

  predicate Ordered(queue: seq<QueuedOp>) {
    forall i, j | 0 <= i < j < |queue| :: Precedes(queue[i], queue[j])
  }

  /** The first position whose operation comes after `op`, or the end. */
  function InsertionIndex(queue: seq<QueuedOp>, op: QueuedOp): (i: nat)
    ensures i <= |queue|
    ensures i < |queue| ==> Precedes(op, queue[i])
    ensures forall k | 0 <= k < i :: !Precedes(op, queue[k])
  {
    if queue == [] || Precedes(op, queue[0]) then 0 else 1 + InsertionIndex(queue[1..], op)
  }

  function InsertSorted(queue: seq<QueuedOp>, op: QueuedOp): seq<QueuedOp> {
    var i := InsertionIndex(queue, op);
    queue[..i] + [op] + queue[i..]
  }

  // ---- Transitions ----

  function Enqueue(s: State, o: Options, priority: real): State {
    if !o.enabled || |s.queue| >= o.maxQueueSize then s
    else s.(queue := InsertSorted(s.queue, QueuedOp(priority, s.nextSequence)), nextSequence := s.nextSequence + 1)
  }

  /** The head of the loop: take the next operation, or end the drain. */
  function TakeNext(s: State): State {
    if s.queue == [] then s.(executing := None, isDraining := false)
    else s.(queue := s.queue[1..], executing := Some(s.queue[0]))
  }

  function StartDrain(s: State): State {
    if s.isDraining || s.queue == [] then s
    else TakeNext(s.(isDraining := true, results := []))
  }

  /** The replay being awaited settles. A failure while offline is put back, if there is room, and ends the drain. */
  function ReplaySettles(s: State, o: Options, success: bool): State {
    if s.executing.None? then s
    else
      var op := s.executing.value;
      var s1 := s.(results := s.results + [Replayed(op, success)]);
      if !success && !s.isOnline && |s.queue| < o.maxQueueSize
      then s1.(queue := InsertSorted(s.queue, op), executing := None, isDraining := false)
      else TakeNext(s1)
  }

  function MarkOnline(s: State): State {
    StartDrain(s.(isOnline := true))
  }

  // ---- The class ----

  class OfflineWriteQueue {
    const options: Options
    var queue: seq<QueuedOp>
    var executing: Option<QueuedOp>
    var isDraining: bool
    var isOnline: bool
    var nextSequence: nat
    var results: seq<Replayed>

    function Model(): State
      reads this
    {
      State(queue, executing, isDraining, isOnline, nextSequence, results)
    }

    constructor (options: Options)
      ensures Model() == INITIAL && this.options == options
    {
      this.options := options;
      queue, executing, isDraining, isOnline, nextSequence, results := [], None, false, true, 0, [];
    }

    method Insert(op: QueuedOp)
      modifies this`queue
      ensures queue == InsertSorted(old(queue), op)
    {
      var index := 0;
      while index < |queue| && !(queue[index].priority < op.priority ||
                                 (queue[index].priority == op.priority && queue[index].sequence > op.sequence))
        invariant index <= |queue| && queue == old(queue)
        invariant InsertionIndex(queue, op) == index + InsertionIndex(queue[index..], op)
      {
        assert queue[index..][1..] == queue[index + 1..];
        index := index + 1;
      }
      if index == |queue| {
        queue := queue + [op];
        assert old(queue)[..index] == old(queue) && old(queue)[index..] == [];
      } else {
        queue := queue[..index] + [op] + queue[index..];
      }
    }

    method EnqueueWrite(priority: real) returns (queued: bool)
      modifies this`queue, this`nextSequence
      ensures Model() == Enqueue(old(Model()), options, priority)
      ensures queued <==> options.enabled && |old(queue)| < options.maxQueueSize
    {
      if !options.enabled { return false; }
      if |queue| >= options.maxQueueSize { return false; }
      Insert(QueuedOp(priority, nextSequence));
      nextSequence := nextSequence + 1;
      queued := true;
    }

    method DrainNext()
      modifies this
      ensures Model() == TakeNext(old(Model()))
    {
      if queue != [] {
        executing, queue := Some(queue[0]), queue[1..];
      } else {
        executing, isDraining := None, false;
      }
    }

    method Drain()
      modifies this
      ensures Model() == StartDrain(old(Model()))
    {
      if isDraining || queue == [] { return; }
      isDraining, results := true, [];
      DrainNext();
    }

    method ReplaySettled(success: bool)
      requires executing.Some?
      modifies this
      ensures Model() == ReplaySettles(old(Model()), options, success)
    {
      var op := executing.value;
      results := results + [Replayed(op, success)];
      if !success && !isOnline && |queue| < options.maxQueueSize {
        Insert(op);
        executing, isDraining := None, false;
      } else {
        DrainNext();
      }
    }

    method GoOffline()
      modifies this`isOnline
      ensures Model() == old(Model()).(isOnline := false)
    {
      isOnline := false;
    }

    method GoOnline()
      modifies this
      ensures Model() == MarkOnline(old(Model()))
    {
      isOnline := true;
      if |queue| > 0 {
        Drain();
      }
    }

    method Clear()
      modifies this`queue
      ensures Model() == old(Model()).(queue := [])
    {
      queue := [];
    }
  }

  // ---- Every reachable state ----

  datatype Event =
    | EnqueueEvent(priority: real)
    | DrainEvent
    | SettleEvent(success: bool)
    | OfflineEvent
    | OnlineEvent
    | ClearEvent

  function Step(s: State, o: Options, ev: Event): State {
    match ev
    case EnqueueEvent(priority) => Enqueue(s, o, priority)
    case DrainEvent => StartDrain(s)
    case SettleEvent(success) => ReplaySettles(s, o, success)
    case OfflineEvent => s.(isOnline := false)
    case OnlineEvent => MarkOnline(s)
    case ClearEvent => s.(queue := [])
  }

  function Run(s: State, o: Options, evs: seq<Event>): State {
    if evs == [] then s else Step(Run(s, o, evs[..|evs| - 1]), o, evs[|evs| - 1])
  }

  /** The operations the queue still answers for: those waiting and the one being replayed. */
  function Pending(s: State): seq<QueuedOp> {
    if s.executing.Some? then [s.executing.value] + s.queue else s.queue
  }

  predicate DistinctSequences(ops: seq<QueuedOp>) {
    forall i, j | 0 <= i < j < |ops| :: ops[i].sequence != ops[j].sequence
  }

  /**
    Strict priority order, distinct sequence numbers, bounded size; a drain is running exactly while it awaits a
    replay.
    */
  predicate Inv(s: State, o: Options) {
    && Ordered(s.queue)
    && DistinctSequences(Pending(s))
    && (forall x | x in Pending(s) :: x.sequence < s.nextSequence)
    && |s.queue| <= o.maxQueueSize
    && (s.isDraining <==> s.executing.Some?)
  }

  /** The insertion index divides the queue into what precedes the operation and what it precedes. */
  lemma IndexDivides(queue: seq<QueuedOp>, op: QueuedOp)
    requires Ordered(queue) && forall k | 0 <= k < |queue| :: queue[k].sequence != op.sequence
    ensures var i := InsertionIndex(queue, op);
      && (forall k | 0 <= k < i :: Precedes(queue[k], op))
      && (forall k | i <= k < |queue| :: Precedes(op, queue[k]))
  {
    var i := InsertionIndex(queue, op);
    forall k | i <= k < |queue|
      ensures Precedes(op, queue[k])
    {
      assert Precedes(op, queue[i]);
    }
  }

  lemma OrderedBetween(queue: seq<QueuedOp>, i: nat, op: QueuedOp)
    requires Ordered(queue) && i <= |queue|
    requires (forall k | 0 <= k < i :: Precedes(queue[k], op))
        && (forall k | i <= k < |queue| :: Precedes(op, queue[k]))
    ensures Ordered(queue[..i] + [op] + queue[i..])
  {
    var r := queue[..i] + [op] + queue[i..];
    assert forall k | 0 <= k < i :: r[k] == queue[k];
    assert r[i] == op;
    assert forall k | i < k < |r| :: r[k] == queue[k - 1];
  }

  lemma InsertKeepsOrder(queue: seq<QueuedOp>, op: QueuedOp)
    requires Ordered(queue) && forall x | x in queue :: x.sequence != op.sequence
    ensures Ordered(InsertSorted(queue, op))
  {
    assert forall k | 0 <= k < |queue| :: queue[k] in queue;
    IndexDivides(queue, op);
    OrderedBetween(queue, InsertionIndex(queue, op), op);
  }

  lemma InsertElements(queue: seq<QueuedOp>, op: QueuedOp)
    ensures multiset(InsertSorted(queue, op)) == multiset(queue) + multiset{op}
    ensures |InsertSorted(queue, op)| == |queue| + 1
  {
    var i := InsertionIndex(queue, op);
    assert queue == queue[..i] + queue[i..];
  }

  /** Distinctness of sequence numbers does not depend on the order of the operations. */
  lemma DistinctPermuted(a: seq<QueuedOp>, b: seq<QueuedOp>)
    requires DistinctSequences(a) && multiset(a) == multiset(b)
    ensures DistinctSequences(b)
  {
    forall i, j | 0 <= i < j < |b| && b[i].sequence == b[j].sequence
      ensures false
    {
      assert b[i] in multiset(a) && b[j] in multiset(a);
      var k :| 0 <= k < |a| && a[k] == b[i];
      var m :| 0 <= m < |a| && a[m] == b[j];
      assert a[k] == a[m];
      TwiceIn(b, i, j);
      OnceIn(a, k);
    }
  }

  lemma TwiceIn(b: seq<QueuedOp>, i: nat, j: nat)
    requires i < j < |b| && b[i] == b[j]
    ensures multiset(b)[b[i]] >= 2
  {
    assert b == b[..j] + ([b[j]] + b[j + 1..]);
    assert b[..j][i] == b[i];
    assert multiset(b) == multiset(b[..j]) + multiset([b[j]] + b[j + 1..]);
  }

  lemma OnceIn(a: seq<QueuedOp>, k: nat)
    requires DistinctSequences(a) && k < |a|
    ensures multiset(a)[a[k]] == 1
  {
    assert a == a[..k] + ([a[k]] + a[k + 1..]);
    assert a[k] !in a[..k] && a[k] !in a[k + 1..];
    assert multiset(a) == multiset(a[..k]) + (multiset{a[k]} + multiset(a[k + 1..]));
  }

  lemma TakeNextKeeps(s: State, o: Options)
    requires Ordered(s.queue) && DistinctSequences(s.queue) && |s.queue| <= o.maxQueueSize && s.isDraining
    requires forall x | x in s.queue :: x.sequence < s.nextSequence
    ensures Inv(TakeNext(s), o)
    ensures Pending(TakeNext(s)) == s.queue
  {
    var s' := TakeNext(s);
    if s.queue != [] {
      assert s.queue == [s.queue[0]] + s.queue[1..];
    }
  }

  lemma SequenceIsNew(ops: seq<QueuedOp>, op: QueuedOp)
    requires DistinctSequences(ops + [op])
    ensures forall x | x in ops :: x.sequence != op.sequence
  {
    forall k | 0 <= k < |ops|
      ensures ops[k].sequence != op.sequence
    {
      assert (ops + [op])[k] == ops[k] && (ops + [op])[|ops|] == op;
    }
  }

  lemma SameMembers(a: seq<QueuedOp>, b: seq<QueuedOp>)
    requires multiset(a) == multiset(b)
    ensures forall x | x in b :: x in a
  {
    assert forall x | x in b :: x in multiset(b) && x in multiset(a);
  }

  lemma InsertKeeps(s: State, o: Options, op: QueuedOp)
    requires Ordered(s.queue) && DistinctSequences(Pending(s) + [op]) && |s.queue| < o.maxQueueSize
    requires forall x | x in Pending(s) + [op] :: x.sequence < s.nextSequence
    requires s.isDraining <==> s.executing.Some?
    ensures Inv(s.(queue := InsertSorted(s.queue, op)), o)
  {
    var s' := s.(queue := InsertSorted(s.queue, op));
    assert Ordered(s'.queue) by {
      SequenceIsNew(Pending(s), op);
      assert forall x | x in s.queue :: x in Pending(s);
      InsertKeepsOrder(s.queue, op);
    }
    InsertElements(s.queue, op);
    PendingInsert(s, op);
    DistinctPermuted(Pending(s) + [op], Pending(s'));
    SameMembers(Pending(s) + [op], Pending(s'));
  }

  lemma PendingInsert(s: State, op: QueuedOp)
    ensures multiset(Pending(s.(queue := InsertSorted(s.queue, op)))) == multiset(Pending(s) + [op])
  {
    InsertElements(s.queue, op);
  }

  lemma EnqueueKeeps(s: State, o: Options, priority: real)
    requires Inv(s, o)
    ensures Inv(Enqueue(s, o, priority), o)
  {
    if o.enabled && |s.queue| < o.maxQueueSize {
      var op := QueuedOp(priority, s.nextSequence);
      assert forall x | x in Pending(s) :: x.sequence != op.sequence;
      assert forall k | 0 <= k < |Pending(s)| :: Pending(s)[k] in Pending(s);
      InsertKeeps(s.(nextSequence := s.nextSequence + 1), o, op);
    }
  }

  lemma SettleKeeps(s: State, o: Options, success: bool)
    requires Inv(s, o)
    ensures Inv(ReplaySettles(s, o, success), o)
  {
    if s.executing.Some? {
      var op := s.executing.value;
      var s1 := s.(results := s.results + [Replayed(op, success)]);
      assert Pending(s) == [op] + s.queue;
      assert forall k | 0 <= k < |s.queue| :: ([op] + s.queue)[k + 1] == s.queue[k];
      if !success && !s.isOnline && |s.queue| < o.maxQueueSize {
        var s2 := s1.(executing := None, isDraining := false);
        assert multiset(s.queue + [op]) == multiset([op] + s.queue);
        DistinctPermuted([op] + s.queue, s.queue + [op]);
        assert forall x | x in s.queue + [op] :: x in [op] + s.queue;
        InsertKeeps(s2, o, op);
      } else {
        TakeNextKeeps(s1, o);
      }
    }
  }

  lemma StartKeeps(s: State, o: Options)
    requires Inv(s, o)
    ensures Inv(StartDrain(s), o) && multiset(Pending(StartDrain(s))) == multiset(Pending(s))
  {
    if !s.isDraining && s.queue != [] {
      TakeNextKeeps(s.(isDraining := true, results := []), o);
    }
  }

  lemma StepKeeps(s: State, o: Options, ev: Event)
    requires Inv(s, o)
    ensures Inv(Step(s, o, ev), o)
  {
    match ev
    case EnqueueEvent(priority) => EnqueueKeeps(s, o, priority);
    case DrainEvent => StartKeeps(s, o);
    case SettleEvent(success) => SettleKeeps(s, o, success);
    case OfflineEvent =>
    case OnlineEvent => StartKeeps(s.(isOnline := true), o);
    case ClearEvent =>
  }

  /**
    In every reachable state the queue is strictly ordered, within its bound, and its sequence numbers are distinct.
    */
  lemma {:induction false} RunKeeps(s: State, o: Options, evs: seq<Event>)
    requires Inv(s, o)
    ensures Inv(Run(s, o, evs), o)
  {
    if evs != [] {
      RunKeeps(s, o, evs[..|evs| - 1]);
      StepKeeps(Run(s, o, evs[..|evs| - 1]), o, evs[|evs| - 1]);
    }
  }

  // ---- Nothing is lost or duplicated ----

  /** The operation a step accepts into the queue. */
  function Enters(s: State, o: Options, ev: Event): multiset<QueuedOp> {
    match ev
    case EnqueueEvent(priority) =>
      if o.enabled && |s.queue| < o.maxQueueSize then multiset{QueuedOp(priority, s.nextSequence)} else multiset{}
    case _ => multiset{}
  }

  /** The operations a step finishes with: replayed successfully, failed for good, or cleared. */
  function Leaves(s: State, o: Options, ev: Event): multiset<QueuedOp> {
    match ev
    case SettleEvent(success) =>
      if s.executing.Some? && (success || s.isOnline || |s.queue| >= o.maxQueueSize)
      then multiset{s.executing.value} else multiset{}
    case ClearEvent => multiset(s.queue)
    case _ => multiset{}
  }

  function Entered(o: Options, evs: seq<Event>): multiset<QueuedOp> {
    if evs == [] then multiset{}
    else Entered(o, evs[..|evs| - 1]) + Enters(Run(INITIAL, o, evs[..|evs| - 1]), o, evs[|evs| - 1])
  }

  function Left(o: Options, evs: seq<Event>): multiset<QueuedOp> {
    if evs == [] then multiset{}
    else Left(o, evs[..|evs| - 1]) + Leaves(Run(INITIAL, o, evs[..|evs| - 1]), o, evs[|evs| - 1])
  }

  lemma TakeNextPending(s: State)
    ensures Pending(TakeNext(s)) == s.queue
  {
    if s.queue != [] {
      assert s.queue == [s.queue[0]] + s.queue[1..];
    }
  }

  lemma StepBalance(s: State, o: Options, ev: Event)
    requires Inv(s, o)
    ensures multiset(Pending(Step(s, o, ev))) + Leaves(s, o, ev) == multiset(Pending(s)) + Enters(s, o, ev)
  {
    match ev
    case EnqueueEvent(priority) => PendingInsert(s, QueuedOp(priority, s.nextSequence));
    case DrainEvent => StartKeeps(s, o);
    case SettleEvent(success) =>
      if s.executing.Some? {
        SettleBalance(s, o, success);
      }
    case OfflineEvent =>
    case OnlineEvent => StartKeeps(s.(isOnline := true), o);
    case ClearEvent =>
  }

  lemma RequeueBalance(s: State, op: QueuedOp)
    requires s.executing == Some(op)
    ensures multiset(InsertSorted(s.queue, op)) == multiset(Pending(s))
  {
    InsertElements(s.queue, op);
    assert multiset([op] + s.queue) == multiset{op} + multiset(s.queue);
  }

  lemma TakenBalance(s: State, op: QueuedOp, success: bool)
    requires s.executing == Some(op)
    ensures multiset(Pending(TakeNext(s.(results := s.results + [Replayed(op, success)])))) + multiset{op}
         == multiset(Pending(s))
  {
    TakeNextPending(s.(results := s.results + [Replayed(op, success)]));
    assert multiset([op] + s.queue) == multiset{op} + multiset(s.queue);
  }

  lemma SettleBalance(s: State, o: Options, success: bool)
    requires s.executing.Some?
    ensures var ev := SettleEvent(success);
      multiset(Pending(ReplaySettles(s, o, success))) + Leaves(s, o, ev) == multiset(Pending(s))
  {
    var op := s.executing.value;
    if !success && !s.isOnline && |s.queue| < o.maxQueueSize {
      RequeueBalance(s, op);
      assert Pending(ReplaySettles(s, o, success)) == InsertSorted(s.queue, op);
    } else {
      TakenBalance(s, op, success);
    }
  }

  lemma BalanceAdds(pending: multiset<QueuedOp>, left: multiset<QueuedOp>, entered: multiset<QueuedOp>,
                    pending': multiset<QueuedOp>, leaves: multiset<QueuedOp>, enters: multiset<QueuedOp>)
    requires pending + left == entered && pending' + leaves == pending + enters
    ensures pending' + (left + leaves) == entered + enters
  {
    assert pending' + (left + leaves) == (pending' + leaves) + left;
    assert (pending + enters) + left == (pending + left) + enters;
  }

  /** Whatever was accepted is waiting, being replayed, or has left the queue, exactly once. */
  lemma {:induction false} OperationsAreConserved(o: Options, evs: seq<Event>)
    ensures multiset(Pending(Run(INITIAL, o, evs))) + Left(o, evs) == Entered(o, evs)
  {
    if evs != [] {
      var s, ev := Run(INITIAL, o, evs[..|evs| - 1]), evs[|evs| - 1];
      OperationsAreConserved(o, evs[..|evs| - 1]);
      RunKeeps(INITIAL, o, evs[..|evs| - 1]);
      StepBalance(s, o, ev);
      BalanceAdds(multiset(Pending(s)), Left(o, evs[..|evs| - 1]), Entered(o, evs[..|evs| - 1]),
                  multiset(Pending(Step(s, o, ev))), Leaves(s, o, ev), Enters(s, o, ev));
    }
  }

  // ---- One drain ----

  function OpsOf(results: seq<Replayed>): (ops: seq<QueuedOp>)
    ensures |ops| == |results|
  {
    if results == [] then [] else OpsOf(results[..|results| - 1]) + [results[|results| - 1].op]
  }

  /** Nothing is enqueued or cleared, and every event happens while the drain is running. */
  predicate Undisturbed(s: State, o: Options, evs: seq<Event>) {
    forall k | 0 <= k < |evs| ::
      && (evs[k].SettleEvent? || evs[k].OfflineEvent? || evs[k].OnlineEvent?)
      && Run(StartDrain(s), o, evs[..k]).isDraining
  }

  /** The operations replayed and the queue left add up to the queue the drain began with. */
  predicate DrainedFrom(queue: seq<QueuedOp>, s: State) {
    if s.isDraining then OpsOf(s.results) + Pending(s) == queue
    else
      || (OpsOf(s.results) == queue && s.queue == [])
      || (s.results != [] && OpsOf(s.results)[..|s.results| - 1] + s.queue == queue
          && !s.results[|s.results| - 1].success && s.queue != [] && s.queue[0] == s.results[|s.results| - 1].op)
  }

  lemma PutBackFirst(queue: seq<QueuedOp>, op: QueuedOp)
    requires forall x | x in queue :: Precedes(op, x)
    ensures InsertSorted(queue, op) == [op] + queue
  {
    if queue != [] {
      assert queue[0] in queue;
    }
    assert InsertionIndex(queue, op) == 0;
  }

  lemma OpsOfAppend(results: seq<Replayed>, r: Replayed)
    ensures OpsOf(results + [r]) == OpsOf(results) + [r.op]
  {
    assert (results + [r])[..|results|] == results;
  }

  lemma WaitingPreceded(done: seq<QueuedOp>, op: QueuedOp, rest: seq<QueuedOp>)
    requires Ordered(done + ([op] + rest))
    ensures forall x | x in rest :: Precedes(op, x)
  {
    var queue := done + ([op] + rest);
    forall x | x in rest
      ensures Precedes(op, x)
    {
      var k :| 0 <= k < |rest| && rest[k] == x;
      assert queue[|done|] == op && queue[|done| + 1 + k] == x;
    }
  }

  lemma RequeueDrainedFrom(queue: seq<QueuedOp>, s: State, op: QueuedOp)
    requires queue == OpsOf(s.results) + ([op] + s.queue) && Ordered(queue)
    ensures DrainedFrom(queue, s.(results := s.results + [Replayed(op, false)], queue := InsertSorted(s.queue, op),
                                  executing := None, isDraining := false))
  {
    var results := s.results + [Replayed(op, false)];
    OpsOfAppend(s.results, Replayed(op, false));
    assert OpsOf(results)[..|results| - 1] == OpsOf(s.results);
    WaitingPreceded(OpsOf(s.results), op, s.queue);
    PutBackFirst(s.queue, op);
  }

  lemma ContinueDrainedFrom(queue: seq<QueuedOp>, s: State, op: QueuedOp, success: bool)
    requires queue == OpsOf(s.results) + ([op] + s.queue) && s.isDraining
    ensures DrainedFrom(queue, TakeNext(s.(results := s.results + [Replayed(op, success)])))
  {
    var s1 := s.(results := s.results + [Replayed(op, success)]);
    OpsOfAppend(s.results, Replayed(op, success));
    TakeNextPending(s1);
    assert queue == OpsOf(s1.results) + s.queue;
    if s.queue == [] {
      assert OpsOf(s1.results) + [] == OpsOf(s1.results);
    }
  }

  lemma SettleDrainedFrom(queue: seq<QueuedOp>, s: State, o: Options, success: bool)
    requires Inv(s, o) && s.isDraining && Ordered(queue) && DrainedFrom(queue, s)
    ensures DrainedFrom(queue, ReplaySettles(s, o, success))
  {
    var op := s.executing.value;
    assert Pending(s) == [op] + s.queue;
    if !success && !s.isOnline && |s.queue| < o.maxQueueSize {
      RequeueDrainedFrom(queue, s, op);
    } else {
      ContinueDrainedFrom(queue, s, op, success);
    }
  }

  /**
    An undisturbed drain replays its queue in order: what it has replayed and what is left are the queue it began
    with, cut at one place; a failure that was put back is the first of what is left.
    */
  lemma {:induction false} DrainReplaysInOrder(s: State, o: Options, evs: seq<Event>)
    requires Inv(s, o) && !s.isDraining && s.queue != [] && Undisturbed(s, o, evs)
    ensures DrainedFrom(s.queue, Run(StartDrain(s), o, evs)) && Inv(Run(StartDrain(s), o, evs), o)
  {
    StartKeeps(s, o);
    if evs == [] {
      TakeNextPending(s.(isDraining := true, results := []));
    } else {
      var n := |evs| - 1;
      UndisturbedPrefix(s, o, evs);
      DrainReplaysInOrder(s, o, evs[..n]);
      var d := Run(StartDrain(s), o, evs[..n]);
      StepKeeps(d, o, evs[n]);
      UndisturbedStep(s.queue, d, o, evs[n]);
    }
  }

  lemma UndisturbedPrefix(s: State, o: Options, evs: seq<Event>)
    requires Undisturbed(s, o, evs) && evs != []
    ensures var n := |evs| - 1;
      && Undisturbed(s, o, evs[..n]) && Run(StartDrain(s), o, evs[..n]).isDraining
      && (evs[n].SettleEvent? || evs[n].OfflineEvent? || evs[n].OnlineEvent?)
  {
    var n := |evs| - 1;
    assert forall k | 0 <= k < n :: evs[..n][..k] == evs[..k];
  }

  lemma UndisturbedStep(queue: seq<QueuedOp>, d: State, o: Options, ev: Event)
    requires Inv(d, o) && d.isDraining && Ordered(queue) && DrainedFrom(queue, d)
    requires ev.SettleEvent? || ev.OfflineEvent? || ev.OnlineEvent?
    ensures DrainedFrom(queue, Step(d, o, ev))
  {
    if ev.SettleEvent? {
      SettleDrainedFrom(queue, d, o, ev.success);
    } else {
      assert Pending(Step(d, o, ev)) == Pending(d);
    }
  }

  /** An ordered queue is the stable priority sort of its operations: no other arrangement of them is ordered. */
  lemma {:induction false} OrderedIsUnique(a: seq<QueuedOp>, b: seq<QueuedOp>)
    requires Ordered(a) && Ordered(b) && multiset(a) == multiset(b)
    ensures a == b
  {
    assert |multiset(a)| == |a| && |multiset(b)| == |b|;
    if a != [] {
      SameHead(a, b);
      TailMultiset(a);
      TailMultiset(b);
      OrderedIsUnique(a[1..], b[1..]);
    }
  }

  lemma SameHead(a: seq<QueuedOp>, b: seq<QueuedOp>)
    requires Ordered(a) && Ordered(b) && multiset(a) == multiset(b) && a != [] && b != []
    ensures a[0] == b[0]
  {
    assert a[0] in multiset(b) && b[0] in multiset(a);
    var i :| 0 <= i < |b| && b[i] == a[0];
    var j :| 0 <= j < |a| && a[j] == b[0];
  }

  lemma TailMultiset(a: seq<QueuedOp>)
    requires a != []
    ensures multiset(a[1..]) == multiset(a) - multiset{a[0]} && a == [a[0]] + a[1..]
  {
    assert a == [a[0]] + a[1..];
  }

  predicate OnlyEnqueues(evs: seq<Event>) {
    forall i | 0 <= i < |evs| :: evs[i].EnqueueEvent?
  }

  lemma {:induction false} EnqueuesOnlyQueue(o: Options, evs: seq<Event>)
    requires OnlyEnqueues(evs)
    ensures Left(o, evs) == multiset{}
    ensures var s := Run(INITIAL, o, evs); !s.isDraining && s.executing.None? && s.results == []
  {
    if evs != [] { EnqueuesOnlyQueue(o, evs[..|evs| - 1]); }
  }

  /** Enqueue anything, then drain undisturbed: the operations replayed are a prefix of the stable priority sort. */
  lemma DrainIsPrefixOfSort(o: Options, writes: seq<Event>, evs: seq<Event>, sorted: seq<QueuedOp>)
    requires OnlyEnqueues(writes) && Ordered(sorted) && multiset(sorted) == Entered(o, writes)
    requires Undisturbed(Run(INITIAL, o, writes), o, evs)
    ensures OpsOf(Run(StartDrain(Run(INITIAL, o, writes)), o, evs).results) <= sorted
  {
    var s := Run(INITIAL, o, writes);
    RunKeeps(INITIAL, o, writes);
    OperationsAreConserved(o, writes);
    EnqueuesOnlyQueue(o, writes);
    OrderedIsUnique(s.queue, sorted);
    if s.queue == [] {
      assert evs != [] ==> Run(StartDrain(s), o, evs[..0]).isDraining;
    } else {
      DrainReplaysInOrder(s, o, evs);
      ReplayedIsPrefix(sorted, Run(StartDrain(s), o, evs));
    }
  }

  lemma ReplayedIsPrefix(queue: seq<QueuedOp>, s: State)
    requires DrainedFrom(queue, s)
    ensures OpsOf(s.results) <= queue
  {
    var done := OpsOf(s.results);
    if !s.isDraining && done != queue {
      LastOp(s.results);
      assert done == done[..|done| - 1] + [s.queue[0]];
      assert s.queue == [s.queue[0]] + s.queue[1..];
      assert queue == done + s.queue[1..];
    }
  }

  lemma LastOp(results: seq<Replayed>)
    requires results != []
    ensures OpsOf(results)[|results| - 1] == results[|results| - 1].op
  {
  }

  /** Whenever the drain takes an operation, that operation precedes everything still waiting. */
  lemma TakenIsFirst(s: State, o: Options, ev: Event)
    requires Inv(s, o) && Step(s, o, ev).executing.Some? && Step(s, o, ev).executing != s.executing
    ensures forall x | x in Step(s, o, ev).queue :: Precedes(Step(s, o, ev).executing.value, x)
  {
    assert forall k | 0 < k < |s.queue| :: Precedes(s.queue[0], s.queue[k]);
  }

  /** In every run, what waits is sorted: higher priorities first, and equal ones in the order of enqueueing. */
  lemma WaitsByPriority(o: Options, evs: seq<Event>, i: nat, j: nat)
    requires i < j < |Run(INITIAL, o, evs).queue|
    ensures var queue := Run(INITIAL, o, evs).queue;
      && queue[i].priority >= queue[j].priority
      && (queue[i].priority == queue[j].priority ==> queue[i].sequence < queue[j].sequence)
  {
    RunKeeps(INITIAL, o, evs);
    assert Precedes(Run(INITIAL, o, evs).queue[i], Run(INITIAL, o, evs).queue[j]);
  }

  // ---- Going online ----

  /** What the last report of the connection said; it starts out online. */
  function LastReported(evs: seq<Event>): bool {
    if evs == [] then true
    else if evs[|evs| - 1].OnlineEvent? then true
    else if evs[|evs| - 1].OfflineEvent? then false
    else LastReported(evs[..|evs| - 1])
  }

  lemma {:induction false} ConnectionIsLastReported(o: Options, evs: seq<Event>)
    ensures Run(INITIAL, o, evs).isOnline == LastReported(evs)
  {
    if evs != [] {
      ConnectionIsLastReported(o, evs[..|evs| - 1]);
    }
  }

  /** After `k` replays of this queue: each done had its own outcome, the next is running, the rest waits. */
  predicate HasReplayed(queue: seq<QueuedOp>, outcomes: seq<bool>, k: nat, s: State) {
    && k <= |queue| && k <= |outcomes| && |s.results| == k
    && (forall i | 0 <= i < k :: s.results[i].op == queue[i] && s.results[i].success == outcomes[i])
    && s.isOnline && s.isDraining == (k < |queue|)
    && if k < |queue| then s.executing == Some(queue[k]) && s.queue == queue[k + 1..]
       else s.executing == None && s.queue == []
  }

  function Settlements(outcomes: seq<bool>): (evs: seq<Event>)
    ensures |evs| == |outcomes|
  {
    if outcomes == [] then [] else Settlements(outcomes[..|outcomes| - 1]) + [SettleEvent(outcomes[|outcomes| - 1])]
  }

  lemma RunGrows(s: State, o: Options, evs: seq<Event>, ev: Event)
    ensures Run(s, o, evs + [ev]) == Step(Run(s, o, evs), o, ev)
  {
    assert (evs + [ev])[..|evs|] == evs;
  }

  lemma OneReplayed(queue: seq<QueuedOp>, outcomes: seq<bool>, k: nat, s: State, o: Options)
    requires k < |queue| && k < |outcomes| && HasReplayed(queue, outcomes[..k], k, s)
    ensures HasReplayed(queue, outcomes[..k + 1], k + 1, Step(s, o, SettleEvent(outcomes[k])))
  {
    assert outcomes[..k + 1] == outcomes[..k] + [outcomes[k]];
    if k + 1 < |queue| {
      assert s.queue[1..] == queue[k + 2..];
    }
  }

  lemma {:induction false} ReplaysOneByOne(o: Options, evs: seq<Event>, outcomes: seq<bool>)
    requires var s := Run(INITIAL, o, evs); !s.isDraining && s.queue != [] && |outcomes| <= |s.queue|
    ensures HasReplayed(Run(INITIAL, o, evs).queue, outcomes, |outcomes|,
                        Run(INITIAL, o, evs + [OnlineEvent] + Settlements(outcomes)))
  {
    var s, online := Run(INITIAL, o, evs), evs + [OnlineEvent];
    var k := |outcomes|;
    if k == 0 {
      assert online + [] == online;
      RunGrows(INITIAL, o, evs, OnlineEvent);
    } else {
      ReplaysOneByOne(o, evs, outcomes[..k - 1]);
      assert online + Settlements(outcomes)
          == online + Settlements(outcomes[..k - 1]) + [SettleEvent(outcomes[k - 1])];
      RunGrows(INITIAL, o, online + Settlements(outcomes[..k - 1]), SettleEvent(outcomes[k - 1]));
      OneReplayed(s.queue, outcomes, k - 1, Run(INITIAL, o, online + Settlements(outcomes[..k - 1])), o);
      assert outcomes[..k] == outcomes;
    }
  }

  /**
    Going online, from any reachable state with something waiting and no drain running, replays everything that waits,
    once each and in order, whatever the outcomes; then the queue is empty and the drain is over.
    */
  lemma ReconnectionReplaysAll(o: Options, evs: seq<Event>, outcomes: seq<bool>)
    requires var s := Run(INITIAL, o, evs); !s.isDraining && s.queue != [] && |outcomes| == |s.queue|
    ensures var s, s' := Run(INITIAL, o, evs), Run(INITIAL, o, evs + [OnlineEvent] + Settlements(outcomes));
      && s'.queue == [] && s'.executing == None && !s'.isDraining && s'.isOnline && |s'.results| == |s.queue|
      && forall i | 0 <= i < |s.queue| :: s'.results[i].op == s.queue[i] && s'.results[i].success == outcomes[i]
  {
    ReplaysOneByOne(o, evs, outcomes);
  }

  /** A failure while offline ends the drain and waits again, at the place of its priority, if there is room. */
  lemma OfflineFailureWaitsAgain(o: Options, evs: seq<Event>)
    requires var s := Run(INITIAL, o, evs); s.executing.Some? && !s.isOnline && |s.queue| < o.maxQueueSize
    ensures var s, s' := Run(INITIAL, o, evs), Run(INITIAL, o, evs + [SettleEvent(false)]);
      && !s'.isDraining && s'.executing == None
      && multiset(s'.queue) == multiset(s.queue) + multiset{s.executing.value}
      && |s'.results| == |s.results| + 1 && s'.results[..|s.results|] == s.results
      && s'.results[|s.results|].op == s.executing.value && !s'.results[|s.results|].success
  {
    RunGrows(INITIAL, o, evs, SettleEvent(false));
    InsertElements(Run(INITIAL, o, evs).queue, Run(INITIAL, o, evs).executing.value);
  }
}
