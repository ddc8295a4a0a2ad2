/** Observable subscriptions and the bounded backpressure operator. */
module Observing {
  import opened Sequences

  // ==== The subscription: its endings and its teardown ====

  /** What happens to an observer, in order; `Quit` marks where it unsubscribed. */
  datatype Note = Emitted | Errored | Completed | Quit

  /** `returned` once the producer function has handed back its teardown. */
  datatype Link = Link(returned: bool, closed: bool, teardownRan: bool, teardownCalls: nat, log: seq<Note>)

  const OPENED := Link(false, false, false, 0, [])

  /**
    A call on the sink or the subscription. While `next` runs, the consumer may make calls of its own, `inner`, and
    then return or throw. `Errors` is also the later rejection of a promise the consumer returned.
    */
  datatype Act = Nexts(inner: seq<Act>, throws: bool) | Errors | Completes | Unsubscribes

  /** The teardown is known only once the producer has returned. */
  function RunTeardown(k: Link): Link {
    if k.teardownRan then k
    else k.(teardownRan := true, teardownCalls := k.teardownCalls + if k.returned then 1 else 0)
  }

  function Close(k: Link, last: Note): Link {
    if k.closed then k else RunTeardown(k.(closed := true)).(log := k.log + [last])
  }

  /** A consumer that throws is told its own error, whether or not the subscription is still open by then. */
  function Abort(k: Link): Link {
    RunTeardown(k.(closed := true)).(log := k.log + [Errored])
  }

  /** Unsubscribing is only possible once subscribe() has returned. */
  function ActOn(k: Link, act: Act): Link
    decreases act
  {
    match act
    case Nexts(inner, throws) =>
      if k.closed then k
      else
        var k1 := ActAll(k.(log := k.log + [Emitted]), inner);
        if throws then Abort(k1) else k1
    case Errors => Close(k, Errored)
    case Completes => Close(k, Completed)
    case Unsubscribes => if k.returned then Close(k, Quit) else k
  }

  function ActAll(k: Link, acts: seq<Act>): Link
    decreases acts
  {
    if acts == [] then k else ActAll(ActOn(k, acts[0]), acts[1..])
  }

  datatype LinkEvent = Calls(act: Act) | ProducerReturns | ProducerThrows

  function LinkStep(k: Link, ev: LinkEvent): Link {
    match ev
    case Calls(act) => ActOn(k, act)
    case ProducerReturns =>
      if k.returned then k
      else
        var k1 := k.(returned := true);
        if k1.closed then RunTeardown(k1) else k1
    case ProducerThrows => if k.returned then k else Close(k, Errored).(returned := true)
  }

  function LinkRun(evs: seq<LinkEvent>): Link {
    if evs == [] then OPENED else LinkStep(LinkRun(evs[..|evs| - 1]), evs[|evs| - 1])
  }

  /** The observer's closure variables. */
  class Subscription {
    var returned: bool
    var closed: bool
    var teardownRan: bool
    var teardownCalls: nat
    var log: seq<Note>

    function Model(): Link
      reads this
    {
      Link(returned, closed, teardownRan, teardownCalls, log)
    }

    constructor ()
      ensures Model() == OPENED
    {
      returned, closed, teardownRan, teardownCalls, log := false, false, false, 0, [];
    }

    method TearDown()
      modifies this
      ensures Model() == RunTeardown(old(Model()))
    {
      if teardownRan { return; }
      teardownRan := true;
      if returned {
        teardownCalls := teardownCalls + 1;
      }
    }

    method End(last: Note)
      modifies this
      ensures Model() == Close(old(Model()), last)
    {
      if closed { return; }
      closed := true;
      TearDown();
      log := log + [last];
    }

    /** The consumer's own calls are made by the body of its `next`. */
    method Next(inner: seq<Act>, throws: bool)
      modifies this
      ensures Model() == ActOn(old(Model()), Nexts(inner, throws))
      decreases inner, 1
    {
      if closed { return; }
      log := log + [Emitted];
      ghost var entered := Model();
      for i := 0 to |inner|
        invariant ActAll(Model(), inner[i..]) == ActAll(entered, inner)
      {
        assert inner[i..][0] == inner[i] && inner[i..][1..] == inner[i + 1..];
        Perform(inner[i]);
      }
      assert Model() == ActAll(entered, inner);
      if throws {
        closed := true;
        TearDown();
        log := log + [Errored];
      }
    }

    method Perform(act: Act)
      modifies this
      ensures Model() == ActOn(old(Model()), act)
      decreases act, 2
    {
      match act
      case Nexts(inner, throws) => Next(inner, throws);
      case Errors => End(Errored);
      case Completes => End(Completed);
      case Unsubscribes => if returned { End(Quit); }
    }

    method ProducerReturned()
      requires !returned
      modifies this
      ensures Model() == LinkStep(old(Model()), ProducerReturns)
    {
      returned := true;
      if closed { TearDown(); }
    }
  }

  /** Nothing follows an ending. */
  predicate EndsOnce(log: seq<Note>) {
    forall i | 0 <= i < |log| - 1 :: log[i] == Emitted
  }

  predicate HasEnded(log: seq<Note>) {
    exists i :: 0 <= i < |log| && log[i] != Emitted
  }

  /** Closed exactly after an ending, and torn down exactly once then. */
  predicate Tidy(k: Link) {
    && (k.closed <==> HasEnded(k.log))
    && (k.teardownRan <==> k.closed)
    && k.teardownCalls <= 1
    && (!k.closed ==> k.teardownCalls == 0)
  }

  /** Somewhere in this call a consumer, having let the subscription be closed while its `next` ran, throws. */
  predicate ThrowsClosed(k: Link, act: Act)
    decreases act
  {
    act.Nexts? && !k.closed &&
    var k1 := k.(log := k.log + [Emitted]);
    AnyThrowsClosed(k1, act.inner) || (act.throws && ActAll(k1, act.inner).closed)
  }

  predicate AnyThrowsClosed(k: Link, acts: seq<Act>)
    decreases acts
  {
    acts != [] && (ThrowsClosed(k, acts[0]) || AnyThrowsClosed(ActOn(k, acts[0]), acts[1..]))
  }

  /** `k'` comes after `k`, and keeps the discipline of its log unless something broke it. */
  predicate Follows(k: Link, k': Link, broken: bool) {
    && Tidy(k') && k'.returned == k.returned && k.log <= k'.log
    && (EndsOnce(k.log) ==> (EndsOnce(k'.log) <==> !broken))
  }

  lemma NoteAdded(log: seq<Note>, note: Note)
    ensures HasEnded(log + [note]) <==> HasEnded(log) || note != Emitted
    ensures EndsOnce(log + [note]) <==> !HasEnded(log)
  {
    var log' := log + [note];
    assert forall i | 0 <= i < |log| :: log'[i] == log[i];
    assert log'[|log|] == note;
  }

  lemma CloseFollows(k: Link, last: Note)
    requires Tidy(k) && last != Emitted
    ensures Follows(k, Close(k, last), false)
  {
    NoteAdded(k.log, last);
  }

  lemma AbortFollows(k: Link)
    requires Tidy(k)
    ensures Follows(k, Abort(k), k.closed)
  {
    NoteAdded(k.log, Errored);
  }

  lemma {:induction false} ActFollows(k: Link, act: Act)
    requires Tidy(k)
    ensures Follows(k, ActOn(k, act), ThrowsClosed(k, act))
    decreases act
  {
    match act
    case Nexts(inner, throws) =>
      if !k.closed {
        var k1 := k.(log := k.log + [Emitted]);
        NoteAdded(k.log, Emitted);
        ActsFollow(k1, inner);
        if throws { AbortFollows(ActAll(k1, inner)); }
      }
    case Errors => CloseFollows(k, Errored);
    case Completes => CloseFollows(k, Completed);
    case Unsubscribes => CloseFollows(k, Quit);
  }

  lemma {:induction false} ActsFollow(k: Link, acts: seq<Act>)
    requires Tidy(k)
    ensures Follows(k, ActAll(k, acts), AnyThrowsClosed(k, acts))
    decreases acts
  {
    if acts != [] {
      ActFollows(k, acts[0]);
      ActsFollow(ActOn(k, acts[0]), acts[1..]);
    }
  }

  predicate RunThrowsClosed(evs: seq<LinkEvent>) {
    evs != [] &&
    var n := |evs| - 1;
    RunThrowsClosed(evs[..n]) || (evs[n].Calls? && ThrowsClosed(LinkRun(evs[..n]), evs[n].act))
  }

  lemma {:induction false} RunIsTidy(evs: seq<LinkEvent>)
    ensures Tidy(LinkRun(evs))
    ensures EndsOnce(LinkRun(evs).log) <==> !RunThrowsClosed(evs)
  {
    if evs != [] {
      var n := |evs| - 1;
      var k := LinkRun(evs[..n]);
      RunIsTidy(evs[..n]);
      match evs[n]
      case Calls(act) => ActFollows(k, act);
      case ProducerReturns =>
      case ProducerThrows => CloseFollows(k, Errored);
    }
  }

  /**
    In a run, at most one ending reaches the observer and nothing follows it, exactly when no consumer throws out of a
    `next` during which the subscription was closed.
    */
  lemma SubscriptionEndsOnce(evs: seq<LinkEvent>)
    ensures EndsOnce(LinkRun(evs).log) <==> !RunThrowsClosed(evs)
  {
    RunIsTidy(evs);
  }

  /**
    A consumer that completes or unsubscribes its own subscription and then throws is told of an error after the end.
    */
  lemma ErrorAfterTheEnd()
    ensures LinkRun([ProducerReturns, Calls(Nexts([Completes], true))]).log == [Emitted, Completed, Errored]
    ensures LinkRun([ProducerReturns, Calls(Nexts([Unsubscribes], true))]).log == [Emitted, Quit, Errored]
  {
    var done := [ProducerReturns, Calls(Nexts([Completes], true))];
    var quit := [ProducerReturns, Calls(Nexts([Unsubscribes], true))];
    assert done[..1] == [ProducerReturns] == quit[..1] && [ProducerReturns][..0] == [];
    var k := LinkRun([ProducerReturns]);
    assert k == OPENED.(returned := true);
    var k1 := k.(log := [Emitted]);
    assert ActAll(k1, [Completes]) == ActOn(k1, Completes) && ActAll(k1, [Unsubscribes]) == ActOn(k1, Unsubscribes);
    assert ActOn(k1, Completes).log == [Emitted, Completed] && ActOn(k1, Unsubscribes).log == [Emitted, Quit];
    assert LinkRun(done).log == [Emitted, Completed] + [Errored] && LinkRun(quit).log == [Emitted, Quit] + [Errored];
  }

  /** From the call that closed it on, an observer sees nothing more and its teardown is not called again. */
  lemma {:induction false} ClosedStaysSilent(evs: seq<LinkEvent>, k: nat)
    requires k <= |evs| && LinkRun(evs[..k]).closed
    ensures LinkRun(evs).closed && LinkRun(evs).log == LinkRun(evs[..k]).log
    ensures LinkRun(evs).teardownCalls == LinkRun(evs[..k]).teardownCalls
    decreases |evs|
  {
    if k == |evs| {
      assert evs[..k] == evs;
    } else {
      assert evs[..|evs| - 1][..k] == evs[..k];
      ClosedStaysSilent(evs[..|evs| - 1], k);
      RunIsTidy(evs[..|evs| - 1]);
    }
  }

  lemma {:induction false} ActTearsDown(k: Link, act: Act)
    requires Tidy(k) && !k.closed && ActOn(k, act).closed
    ensures ActOn(k, act).teardownCalls == if k.returned then 1 else 0
    decreases act
  {
    if act.Nexts? {
      var k1 := k.(log := k.log + [Emitted]);
      NoteAdded(k.log, Emitted);
      ActsFollow(k1, act.inner);
      if ActAll(k1, act.inner).closed {
        ActsTearDown(k1, act.inner);
      }
    }
  }

  lemma {:induction false} ActsTearDown(k: Link, acts: seq<Act>)
    requires Tidy(k) && !k.closed && ActAll(k, acts).closed
    ensures ActAll(k, acts).teardownCalls == if k.returned then 1 else 0
    decreases acts
  {
    var k1 := ActOn(k, acts[0]);
    ActFollows(k, acts[0]);
    if k1.closed {
      ActTearsDown(k, acts[0]);
      ClosedActs(k1, acts[1..]);
    } else {
      ActsTearDown(k1, acts[1..]);
    }
  }

  lemma {:induction false} ClosedActs(k: Link, acts: seq<Act>)
    requires k.closed
    ensures ActAll(k, acts) == k
  {
    if acts != [] {
      ClosedActs(k, acts[1..]);
    }
  }

  /** The teardown is called exactly if the closing event came after the producer had returned; otherwise never. */
  lemma {:induction false} TeardownIffClosedAfterReturn(evs: seq<LinkEvent>, k: nat)
    requires k < |evs| && !LinkRun(evs[..k]).closed && LinkRun(evs[..k + 1]).closed
    ensures LinkRun(evs).teardownCalls == if LinkRun(evs[..k]).returned then 1 else 0
  {
    assert evs[..k + 1][..k] == evs[..k];
    RunIsTidy(evs[..k]);
    if evs[k].Calls? {
      ActTearsDown(LinkRun(evs[..k]), evs[k].act);
    }
    ClosedStaysSilent(evs, k + 1);
  }

  // ---- What an observer hears ----

  /** The call ends an open subscription: by itself, or because the consumer throws. */
  predicate Ends(act: Act) {
    !act.Nexts? || act.throws
  }

  /** What one call on an open subscription tells the observer. */
  function Notes(act: Act): seq<Note> {
    match act
    case Nexts(_, throws) => if throws then [Emitted, Errored] else [Emitted]
    case Errors => [Errored]
    case Completes => [Completed]
    case Unsubscribes => [Quit]
  }

  predicate AnyEnds(acts: seq<Act>) {
    acts != [] && (AnyEnds(acts[..|acts| - 1]) || Ends(acts[|acts| - 1]))
  }

  /** The notes of each call up to the first one that ends the subscription, and nothing after it. */
  function Heard(acts: seq<Act>): seq<Note> {
    if acts == [] then []
    else
      var n := |acts| - 1;
      Heard(acts[..n]) + if AnyEnds(acts[..n]) then [] else Notes(acts[n])
  }

  /** The consumer makes no calls of its own; unsubscribing takes a subscription that has been returned. */
  predicate PlainAct(returned: bool, act: Act) {
    (act.Nexts? ==> act.inner == []) && (act.Unsubscribes? ==> returned)
  }

  predicate Plain(returned: bool, acts: seq<Act>) {
    forall i | 0 <= i < |acts| :: PlainAct(returned, acts[i])
  }

  function Made(acts: seq<Act>): seq<LinkEvent> {
    if acts == [] then [] else Made(acts[..|acts| - 1]) + [Calls(acts[|acts| - 1])]
  }

  lemma LinkGrows(evs: seq<LinkEvent>, ev: LinkEvent)
    ensures LinkRun(evs + [ev]) == LinkStep(LinkRun(evs), ev)
  {
    assert (evs + [ev])[..|evs|] == evs;
  }

  predicate HeardSoFar(k: Link, returned: bool, log: seq<Note>, ended: bool) {
    && k.log == log && k.closed == ended && k.returned == returned && k.teardownRan == k.closed
    && k.teardownCalls == if ended && returned then 1 else 0
  }

  lemma OneHeard(k: Link, returned: bool, log: seq<Note>, ended: bool, act: Act)
    requires HeardSoFar(k, returned, log, ended) && PlainAct(returned, act)
    ensures HeardSoFar(ActOn(k, act), returned, log + if ended then [] else Notes(act), ended || Ends(act))
  {
    if ended {
      assert log + [] == log;
    } else if act.Nexts? {
      var k1 := k.(log := k.log + [Emitted]);
      assert ActAll(k1, []) == k1;
      assert log + [Emitted] + [Errored] == log + [Emitted, Errored];
    }
  }

  /**
    Calls made before or after the producer has returned reach the observer one by one, up to the first that ends the
    subscription; exactly then it is closed, and its teardown has been called if it was there to be called.
    */
  lemma {:induction false} ObserverHears(returned: bool, acts: seq<Act>)
    requires Plain(returned, acts)
    ensures HeardSoFar(LinkRun((if returned then [ProducerReturns] else []) + Made(acts)), returned,
                       Heard(acts), AnyEnds(acts))
  {
    var start: seq<LinkEvent> := if returned then [ProducerReturns] else [];
    if acts == [] {
      assert start + [] == start && [ProducerReturns][..0] == [];
    } else {
      var n := |acts| - 1;
      ObserverHears(returned, acts[..n]);
      assert start + Made(acts) == start + Made(acts[..n]) + [Calls(acts[n])];
      LinkGrows(start + Made(acts[..n]), Calls(acts[n]));
      OneHeard(LinkRun(start + Made(acts[..n])), returned, Heard(acts[..n]), AnyEnds(acts[..n]), acts[n]);
    }
  }

  /** A producer that throws is heard as an error, unless the subscription has been closed by then. */
  lemma ProducerThrowIsHeard(evs: seq<LinkEvent>)
    requires !LinkRun(evs).returned
    ensures var k, k' := LinkRun(evs), LinkRun(evs + [ProducerThrows]);
      && k'.returned && k'.closed && k'.log == k.log + if k.closed then [] else [Errored]
  {
    LinkGrows(evs, ProducerThrows);
  }

  // ==== Backpressure ====

  /** A value, numbered on arrival. */
  datatype Item<T> = Item(index: nat, value: T)

  datatype Strategy = DropOldest | DropNewest

  datatype Ending = BySource | ByError | ByUnsubscribe

  /** Where the drain stands: not scheduled, queued as a microtask, or awaiting the consumer. */
  datatype Phase = Idle | Scheduled | Awaiting

  /**
    The operator's closure variables, then what it received, delivered, and reported dropped. `pending` holds the
    arriving values of the calls of `next` that are inside `onDrop`, innermost last: the callback may call back into
    the source before the call that made it goes on.
    */
  datatype Pipe<T> = Pipe(buffer: seq<Item<T>>, draining: bool, upstreamCompleted: bool, upstreamOpen: bool,
                          ended: Option<Ending>, phase: Phase, pending: seq<Item<T>>,
                          received: seq<Item<T>>, delivered: seq<Item<T>>, dropped: seq<Item<T>>, completions: nat)

  function Fresh<T>(): Pipe<T> {
    Pipe([], false, false, true, None, Idle, [], [], [], [], 0)
  }

  /** Closing the sink runs the teardown: the buffer is emptied and the upstream unsubscribed. */
  function EndPipe<T>(p: Pipe<T>, why: Ending): Pipe<T> {
    if p.ended.Some? then p
    else p.(ended := Some(why), buffer := [], upstreamOpen := false,
            completions := p.completions + if why == BySource then 1 else 0)
  }

  function ScheduleDrain<T>(p: Pipe<T>): Pipe<T> {
    if p.draining then p else p.(draining := true, phase := Scheduled)
  }

  /** A value arrives: it is buffered, or a drop is reported and the call waits for `onDrop`. */
  function OnNext<T>(p: Pipe<T>, max: nat, strategy: Strategy, value: T): Pipe<T> {
    if !p.upstreamOpen || p.ended.Some? then p
    else
      var item := Item(|p.received|, value);
      var p1 := p.(received := p.received + [item]);
      if |p.buffer| < max || p.buffer == [] then ScheduleDrain(p1.(buffer := p.buffer + [item]))
      else if strategy == DropOldest then
        p1.(buffer := p.buffer[1..], dropped := p.dropped + [p.buffer[0]], pending := p.pending + [item])
      else p1.(dropped := p.dropped + [item], pending := p.pending + [item])
  }

  /** `onDrop` returns to the innermost call: under drop-oldest the value is pushed now, whatever happened meanwhile. */
  function OnDropReturns<T>(p: Pipe<T>, strategy: Strategy): Pipe<T> {
    if p.pending == [] then p
    else
      var item, p1 := p.pending[|p.pending| - 1], p.(pending := p.pending[..|p.pending| - 1]);
      ScheduleDrain(if strategy == DropOldest then p1.(buffer := p.buffer + [item]) else p1)
  }

  function Abandon<T>(p: Pipe<T>): Pipe<T> {
    EndPipe(p.(upstreamOpen := false, buffer := []), ByError)
  }

  /** `onDrop` throws: the upstream subscription ends the operator with that error, as for a throwing consumer. */
  function OnDropThrows<T>(p: Pipe<T>): Pipe<T> {
    if p.pending == [] then p else Abandon(p.(pending := p.pending[..|p.pending| - 1]))
  }

  function OnError<T>(p: Pipe<T>): Pipe<T> {
    if !p.upstreamOpen then p else Abandon(p)
  }

  function OnComplete<T>(p: Pipe<T>): Pipe<T> {
    if !p.upstreamOpen then p
    else
      var p1 := p.(upstreamOpen := false, upstreamCompleted := true);
      if p1.buffer == [] then EndPipe(p1, BySource) else ScheduleDrain(p1)
  }

  /** One turn of the drain loop: from the microtask or from the end of an await to the next await, or to the end. */
  function DrainTurn<T>(p: Pipe<T>): Pipe<T> {
    if p.phase == Idle then p
    else if p.buffer != [] && p.ended.None? then
      p.(buffer := p.buffer[1..], delivered := p.delivered + [p.buffer[0]], phase := Awaiting)
    else
      var p1 := p.(draining := false, phase := Idle);
      if p1.upstreamCompleted && p1.buffer == [] then EndPipe(p1, BySource) else p1
  }

  datatype PipeEvent<T> =
    | Arrives(value: T) | DropReturns | DropThrows | Fails | Finishes | Turn | ConsumerRejects | Unsubscribed

  /** No microtask and no rejected delivery comes in while a callback is running. */
  function PipeStep<T>(p: Pipe<T>, max: nat, strategy: Strategy, ev: PipeEvent<T>): Pipe<T> {
    match ev
    case Arrives(value) => OnNext(p, max, strategy, value)
    case DropReturns => OnDropReturns(p, strategy)
    case DropThrows => OnDropThrows(p)
    case Fails => OnError(p)
    case Finishes => OnComplete(p)
    case Turn => if p.pending == [] then DrainTurn(p) else p
    case ConsumerRejects => if p.pending == [] && p.phase == Awaiting then EndPipe(p, ByError) else p
    case Unsubscribed => EndPipe(p, ByUnsubscribe)
  }

  function PipeRun<T>(max: nat, strategy: Strategy, evs: seq<PipeEvent<T>>): Pipe<T> {
    if evs == [] then Fresh() else PipeStep(PipeRun(max, strategy, evs[..|evs| - 1]), max, strategy, evs[|evs| - 1])
  }

  class Backpressure<T> {
    const maxBufferSize: nat
    const strategy: Strategy
    var buffer: seq<Item<T>>
    var draining: bool
    var upstreamCompleted: bool
    var upstreamOpen: bool
    var ended: Option<Ending>
    var phase: Phase
    var pending: seq<Item<T>>
    var received: seq<Item<T>>
    var delivered: seq<Item<T>>
    var dropped: seq<Item<T>>
    var completions: nat

    function Model(): Pipe<T>
      reads this
    {
      Pipe(buffer, draining, upstreamCompleted, upstreamOpen, ended, phase, pending,
           received, delivered, dropped, completions)
    }

    constructor (maxBufferSize: nat, strategy: Strategy)
      requires maxBufferSize > 0
      ensures Model() == Fresh() && this.maxBufferSize == maxBufferSize && this.strategy == strategy
    {
      this.maxBufferSize, this.strategy := maxBufferSize, strategy;
      buffer, draining, upstreamCompleted, upstreamOpen, ended, phase := [], false, false, true, None, Idle;
      pending, received, delivered, dropped, completions := [], [], [], [], 0;
    }

    method End(why: Ending)
      modifies this
      ensures Model() == EndPipe(old(Model()), why)
    {
      if ended.Some? { return; }
      ended, buffer, upstreamOpen := Some(why), [], false;
      if why == BySource {
        completions := completions + 1;
      }
    }

    method Schedule()
      modifies this
      ensures Model() == ScheduleDrain(old(Model()))
    {
      if draining { return; }
      draining, phase := true, Scheduled;
    }

    /** Up to the end of the call, or up to `onDrop` and with what it is told. */
    method Next(value: T) returns (reported: Option<Item<T>>)
      requires maxBufferSize > 0
      modifies this
      ensures Model() == OnNext(old(Model()), maxBufferSize, strategy, value)
      ensures dropped == old(dropped) + if reported.Some? then [reported.value] else []
    {
      reported := None;
      if !upstreamOpen || ended.Some? { return; }
      var item := Item(|received|, value);
      received := received + [item];
      if |buffer| >= maxBufferSize {
        if strategy == DropOldest {
          reported := Some(buffer[0]);
          buffer := buffer[1..];
        } else {
          reported := Some(item);
        }
        dropped, pending := dropped + [reported.value], pending + [item];
        return;
      }
      buffer := buffer + [item];
      Schedule();
    }

    method DropReturned()
      requires pending != []
      modifies this
      ensures Model() == OnDropReturns(old(Model()), strategy)
    {
      var item := pending[|pending| - 1];
      pending := pending[..|pending| - 1];
      if strategy == DropOldest {
        buffer := buffer + [item];
      }
      Schedule();
    }

    method DropThrew()
      requires pending != []
      modifies this
      ensures Model() == OnDropThrows(old(Model()))
    {
      pending := pending[..|pending| - 1];
      upstreamOpen, buffer := false, [];
      End(ByError);
    }

    method Complete()
      modifies this
      ensures Model() == OnComplete(old(Model()))
    {
      if !upstreamOpen { return; }
      upstreamOpen, upstreamCompleted := false, true;
      if |buffer| == 0 {
        End(BySource);
      } else {
        Schedule();
      }
    }

    method Error()
      modifies this
      ensures Model() == OnError(old(Model()))
    {
      if !upstreamOpen { return; }
      upstreamOpen, buffer := false, [];
      End(ByError);
    }

    method Drain()
      requires phase != Idle
      modifies this
      ensures Model() == DrainTurn(old(Model()))
    {
      if |buffer| > 0 && ended.None? {
        var item := buffer[0];
        buffer, delivered, phase := buffer[1..], delivered + [item], Awaiting;
        return;
      }
      draining, phase := false, Idle;
      if upstreamCompleted && |buffer| == 0 {
        End(BySource);
      }
    }
  }

  // ---- What every state keeps ----

  /** The items delivered or waiting in the buffer. */
  function Kept<T>(p: Pipe<T>): seq<Item<T>> {
    p.delivered + p.buffer
  }

  /** The arriving values not pushed yet; under drop-newest the pending values have been dropped. */
  function Held<T>(p: Pipe<T>, strategy: Strategy): seq<Item<T>> {
    if strategy == DropOldest then p.pending else []
  }

  predicate Increasing<T>(items: seq<Item<T>>) {
    forall i, j | 0 <= i < j < |items| :: items[i].index < items[j].index
  }

  predicate From<T(==)>(items: seq<Item<T>>, received: seq<Item<T>>) {
    forall x | x in items :: x.index < |received| && received[x.index] == x
  }

  predicate Numbered<T>(received: seq<Item<T>>) {
    forall i | 0 <= i < |received| :: received[i].index == i
  }

  predicate Apart<T(==)>(a: seq<Item<T>>, b: seq<Item<T>>) {
    forall x | x in a :: x !in b
  }

  /** `items` are some of the received ones, in order. */
  predicate Picks<T(==)>(items: seq<Item<T>>, received: seq<Item<T>>) {
    Increasing(items) && From(items, received)
  }

  /** Kept, dropped and held items are disjoint subsequences of what was received. */
  predicate Splits<T(==)>(received: seq<Item<T>>, kept: seq<Item<T>>, dropped: seq<Item<T>>, held: seq<Item<T>>) {
    && Numbered(received) && Picks(kept, received) && Picks(dropped, received) && Picks(held, received)
    && Apart(kept, dropped) && Apart(kept, held) && Apart(dropped, held)
  }

  predicate Covers<T(==)>(received: seq<Item<T>>, kept: seq<Item<T>>, dropped: seq<Item<T>>, held: seq<Item<T>>) {
    forall x | x in received :: x in kept || x in dropped || x in held
  }

  /** Error and unsubscription discard the buffer; before them, and after a completion, every item is accounted for. */
  predicate Intact<T>(p: Pipe<T>) {
    p.ended.None? || p.ended.value == BySource
  }

  /** What was received is kept, dropped or held, each once. */
  predicate Partition<T(==)>(p: Pipe<T>, strategy: Strategy) {
    && Splits(p.received, Kept(p), p.dropped, Held(p, strategy))
    && (Intact(p) ==> Covers(p.received, Kept(p), p.dropped, Held(p, strategy)))
  }

  /** Drain discipline and completion. */
  predicate Scheduling<T>(p: Pipe<T>) {
    && (p.draining <==> p.phase != Idle)
    && (p.buffer != [] ==> p.ended.None? && p.phase != Idle)
    && (p.ended.Some? ==> !p.upstreamOpen)
    && (p.upstreamCompleted && p.ended.None? ==> p.phase != Idle)
    && p.completions == (if p.ended == Some(BySource) then 1 else 0)
    && (p.ended == Some(BySource) ==> p.upstreamCompleted)
    && (p.upstreamCompleted ==> !p.upstreamOpen)
  }

  /** The call inside `onDrop` has the newest value: nothing was received since. */
  predicate TopIsNewest<T>(p: Pipe<T>) {
    p.pending != [] && p.pending[|p.pending| - 1].index == |p.received| - 1
  }

  /** The buffer is what was received last, apart from a value about to be pushed. */
  predicate NewestBuffered<T(==)>(p: Pipe<T>) {
    var r, b := |p.received|, |p.buffer|;
    && (p.ended.None? && p.pending == [] ==> b <= r && p.buffer == p.received[r - b..])
    && (p.ended.None? && |p.pending| == 1 && TopIsNewest(p) ==> b < r && p.buffer == p.received[r - 1 - b..r - 1])
  }

  /**
    Drop-oldest drops in order of arrival, always something older than the newest, and leaves room for its own value.
    */
  predicate OldestFirst<T(==)>(p: Pipe<T>, max: nat) {
    && (forall x, y | x in p.dropped && y in p.buffer :: x.index < y.index)
    && (forall x | x in p.dropped :: x.index < |p.received| - 1)
    && (TopIsNewest(p) ==> |p.buffer| < max)
    && NewestBuffered(p)
  }

  predicate PipeInv<T(==)>(p: Pipe<T>, max: nat, strategy: Strategy) {
    && |p.buffer| <= max && Scheduling(p) && Partition(p, strategy)
    && (strategy == DropOldest ==> OldestFirst(p, max))
  }

  /**
    `onDrop` comes back to a call of drop-oldest after it ended the operator or made it receive another value, or
    throws after it completed the operator.
    */
  predicate Disturbs<T>(p: Pipe<T>, strategy: Strategy, ev: PipeEvent<T>) {
    && strategy == DropOldest && p.pending != []
    && match ev
       case DropReturns => p.ended.Some? || !TopIsNewest(p)
       case DropThrows => p.ended == Some(BySource)
       case _ => false
  }

  // ---- Moving items between the classes ----

  lemma PicksAppend<T>(items: seq<Item<T>>, received: seq<Item<T>>, item: Item<T>)
    requires Picks(items, received) && item.index == |received|
    ensures Picks(items, received + [item]) && Picks(items + [item], received + [item]) && item !in items
  {
    assert forall i | 0 <= i < |items| :: items[i] in items;
    assert forall x | x in items + [item] :: x in items || x == item;
  }

  lemma NewKept<T>(r: seq<Item<T>>, k: seq<Item<T>>, d: seq<Item<T>>, h: seq<Item<T>>, item: Item<T>)
    requires Splits(r, k, d, h) && Covers(r, k, d, h) && item.index == |r|
    ensures Splits(r + [item], k + [item], d, h) && Covers(r + [item], k + [item], d, h)
  {
    PicksAppend(k, r, item);
    PicksAppend(d, r, item);
    PicksAppend(h, r, item);
  }

  lemma NewDropped<T>(r: seq<Item<T>>, k: seq<Item<T>>, d: seq<Item<T>>, h: seq<Item<T>>, item: Item<T>)
    requires Splits(r, k, d, h) && Covers(r, k, d, h) && item.index == |r|
    ensures Splits(r + [item], k, d + [item], h) && Covers(r + [item], k, d + [item], h)
  {
    PicksAppend(k, r, item);
    PicksAppend(d, r, item);
    PicksAppend(h, r, item);
  }

  lemma NewHeld<T>(r: seq<Item<T>>, k: seq<Item<T>>, d: seq<Item<T>>, h: seq<Item<T>>, item: Item<T>)
    requires Splits(r, k, d, h) && Covers(r, k, d, h) && item.index == |r|
    ensures Splits(r + [item], k, d, h + [item]) && Covers(r + [item], k, d, h + [item])
  {
    PicksAppend(k, r, item);
    PicksAppend(d, r, item);
    PicksAppend(h, r, item);
  }

  /** Taking one item out of an increasing list. */
  lemma Removed<T>(a: seq<Item<T>>, item: Item<T>, b: seq<Item<T>>)
    requires Increasing(a + ([item] + b))
    ensures Increasing(a + b)
    ensures forall x :: x in a + ([item] + b) <==> x in a + b || x == item
    ensures item !in a + b
  {
    var kept := a + ([item] + b);
    assert forall i | 0 <= i < |a + b| :: (a + b)[i] == kept[if i < |a| then i else i + 1];
    assert kept[|a|] == item;
    forall x | x in a + b
      ensures x != item
    {
      var i :| 0 <= i < |a + b| && (a + b)[i] == x;
      assert kept[if i < |a| then i else i + 1].index != kept[|a|].index;
    }
  }

  lemma LastPicked<T>(items: seq<Item<T>>, item: Item<T>, received: seq<Item<T>>)
    requires Picks(items, received) && item.index < |received| && received[item.index] == item
    requires forall x | x in items :: x.index < item.index
    ensures Picks(items + [item], received)
  {
    assert forall i | 0 <= i < |items| :: items[i] in items;
  }

  /** A kept item may become a dropped one when everything dropped so far arrived before it. */
  lemma KeptDropped<T>(r: seq<Item<T>>, a: seq<Item<T>>, item: Item<T>, b: seq<Item<T>>, d: seq<Item<T>>,
                       h: seq<Item<T>>)
    requires Splits(r, a + ([item] + b), d, h) && Covers(r, a + ([item] + b), d, h)
    requires forall x | x in d :: x.index < item.index
    ensures Splits(r, a + b, d + [item], h) && Covers(r, a + b, d + [item], h)
  {
    Removed(a, item, b);
    assert item in a + ([item] + b);
    LastPicked(d, item, r);
  }

  /** The last held item may become the last kept one when nothing was received after it. */
  lemma HeldKept<T>(r: seq<Item<T>>, k: seq<Item<T>>, d: seq<Item<T>>, h: seq<Item<T>>, item: Item<T>)
    requires Splits(r, k, d, h + [item]) && Covers(r, k, d, h + [item]) && item.index == |r| - 1
    ensures Splits(r, k + [item], d, h) && Covers(r, k + [item], d, h)
  {
    assert h + ([item] + []) == h + [item] && h + [] == h && item in h + [item];
    Removed(h, item, []);
    forall x | x in k
      ensures x.index < item.index
    {
      assert x != item && r[x.index] == x && r[item.index] == item;
    }
    LastPicked(k, item, r);
  }

  /** Of an increasing list of received items without the newest, every index is below the newest. */
  lemma HeldLast<T>(h: seq<Item<T>>, item: Item<T>, x: Item<T>)
    requires Increasing(h + [item]) && x in h + [item]
    ensures x.index <= item.index && (x in h ==> x.index < item.index)
  {
    var i :| 0 <= i < |h + [item]| && (h + [item])[i] == x;
    assert (h + [item])[|h|] == item;
    if x in h {
      var j :| 0 <= j < |h| && h[j] == x;
      assert (h + [item])[j] == x;
    }
  }

  // ---- What keeps the invariant ----

  lemma BufferArrival<T>(p: Pipe<T>, max: nat, strategy: Strategy, value: T)
    requires PipeInv(p, max, strategy) && p.ended.None? && |p.buffer| < max
    ensures var item := Item(|p.received|, value);
      PipeInv(ScheduleDrain(p.(received := p.received + [item], buffer := p.buffer + [item])), max, strategy)
  {
    var item := Item(|p.received|, value);
    var p' := ScheduleDrain(p.(received := p.received + [item], buffer := p.buffer + [item]));
    NewKept(p.received, Kept(p), p.dropped, Held(p, strategy), item);
    assert Kept(p') == Kept(p) + [item];
    if strategy == DropOldest { ArrivalOrder(p, p', max, item); }
  }

  lemma ArrivalOrder<T>(p: Pipe<T>, p': Pipe<T>, max: nat, item: Item<T>)
    requires OldestFirst(p, max) && item.index == |p.received| && Picks(p.pending, p.received)
    requires p'.received == p.received + [item] && p'.buffer == p.buffer + [item]
    requires p'.dropped == p.dropped && p'.pending == p.pending && p'.ended == p.ended
    ensures OldestFirst(p', max)
  {
    assert p.pending != [] ==> p.pending[|p.pending| - 1] in p.pending;
  }

  lemma DropNewestArrival<T>(p: Pipe<T>, max: nat, value: T)
    requires PipeInv(p, max, DropNewest) && p.ended.None?
    ensures var item := Item(|p.received|, value);
      PipeInv(p.(received := p.received + [item], dropped := p.dropped + [item], pending := p.pending + [item]),
              max, DropNewest)
  {
    var item := Item(|p.received|, value);
    var p' := p.(received := p.received + [item], dropped := p.dropped + [item], pending := p.pending + [item]);
    NewDropped(p.received, Kept(p), p.dropped, [], item);
    assert Kept(p') == Kept(p);
  }

  lemma DropOldestSplits<T>(p: Pipe<T>, item: Item<T>)
    requires Partition(p, DropOldest) && p.ended.None? && p.buffer != [] && item.index == |p.received|
    requires forall x | x in p.dropped :: x.index < p.buffer[0].index
    ensures var kept, dropped := p.delivered + p.buffer[1..], p.dropped + [p.buffer[0]];
      && Splits(p.received + [item], kept, dropped, p.pending + [item])
      && Covers(p.received + [item], kept, dropped, p.pending + [item])
  {
    var head, rest := p.buffer[0], p.buffer[1..];
    assert p.buffer == [head] + rest && Kept(p) == p.delivered + ([head] + rest);
    KeptDropped(p.received, p.delivered, head, rest, p.dropped, p.pending);
    NewHeld(p.received, p.delivered + rest, p.dropped + [head], p.pending, item);
  }

  lemma DropOldestArrival<T>(p: Pipe<T>, max: nat, value: T)
    requires PipeInv(p, max, DropOldest) && p.ended.None? && p.buffer != []
    ensures var item := Item(|p.received|, value);
      PipeInv(p.(received := p.received + [item], buffer := p.buffer[1..], dropped := p.dropped + [p.buffer[0]],
                 pending := p.pending + [item]), max, DropOldest)
  {
    var item := Item(|p.received|, value);
    var p' := p.(received := p.received + [item], buffer := p.buffer[1..], dropped := p.dropped + [p.buffer[0]],
                 pending := p.pending + [item]);
    assert p.buffer[0] in p.buffer;
    DropOldestSplits(p, item);
    assert Partition(p', DropOldest);
    DropOrder(p, p', max, item);
  }

  lemma HeadIsFirst<T>(delivered: seq<Item<T>>, buffer: seq<Item<T>>)
    requires buffer != [] && Increasing(delivered + buffer)
    ensures forall y | y in buffer[1..] :: y in buffer && buffer[0].index < y.index
  {
    var n, kept := |delivered|, delivered + buffer;
    forall i | 0 < i < |buffer|
      ensures buffer[0].index < buffer[i].index
    {
      assert kept[n] == buffer[0] && kept[n + i] == buffer[i];
    }
  }

  lemma DropOrder<T>(p: Pipe<T>, p': Pipe<T>, max: nat, item: Item<T>)
    requires OldestFirst(p, max) && |p.buffer| <= max && p.buffer != [] && item.index == |p.received|
    requires Increasing(Kept(p)) && From(Kept(p), p.received)
    requires p'.received == p.received + [item] && p'.buffer == p.buffer[1..] && p'.ended == p.ended
    requires p'.dropped == p.dropped + [p.buffer[0]] && p'.pending == p.pending + [item]
    ensures OldestFirst(p', max)
  {
    HeadIsFirst(p.delivered, p.buffer);
    assert Kept(p)[|p.delivered|] == p.buffer[0] && p.buffer[0] in Kept(p);
    assert NewestBuffered(p') by {
      var r, b := |p.received|, |p.buffer|;
      if p.ended.None? && p.pending == [] {
        assert (p.received + [item])[r - b + 1..r] == p.received[r - b..][1..];
      }
    }
  }

  lemma ReturnKeeps<T>(p: Pipe<T>, max: nat)
    requires PipeInv(p, max, DropOldest) && p.ended.None? && TopIsNewest(p)
    ensures PipeInv(OnDropReturns(p, DropOldest), max, DropOldest)
  {
    var n := |p.pending| - 1;
    var item, p' := p.pending[n], OnDropReturns(p, DropOldest);
    assert p.pending == p.pending[..n] + [item];
    HeldKept(p.received, Kept(p), p.dropped, p.pending[..n], item);
    assert Kept(p') == Kept(p) + [item];
    ReturnOrder(p, p', max);
  }

  lemma ReturnOrder<T>(p: Pipe<T>, p': Pipe<T>, max: nat)
    requires OldestFirst(p, max) && p.ended.None? && TopIsNewest(p) && Picks(p.pending, p.received)
    requires var n := |p.pending| - 1;
      p'.pending == p.pending[..n] && p'.buffer == p.buffer + [p.pending[n]]
    requires p'.received == p.received && p'.dropped == p.dropped && p'.ended == p.ended
    ensures OldestFirst(p', max)
  {
    var n := |p.pending| - 1;
    assert p.pending[n] in p.pending;
    assert n > 0 ==> p.pending[n - 1].index < p.pending[n].index;
    if n == 0 {
      var r, b := |p.received|, |p.buffer|;
      assert p.received[r - 1 - b..] == p.received[r - 1 - b..r - 1] + [p.received[r - 1]];
    }
  }

  lemma PrefixPicks<T>(a: seq<Item<T>>, b: seq<Item<T>>, received: seq<Item<T>>)
    requires a <= b && Picks(b, received)
    ensures Picks(a, received) && forall x | x in a :: x in b
  {
    assert forall i | 0 <= i < |a| :: a[i] == b[i];
  }

  /** The operator ends by error or unsubscription: what is still held, buffered or arriving is forgotten. */
  lemma ForgetKeeps<T>(p: Pipe<T>, p': Pipe<T>, max: nat, strategy: Strategy)
    requires PipeInv(p, max, strategy) && p'.buffer == [] && !Intact(p') && Scheduling(p')
    requires p'.received == p.received && p'.delivered == p.delivered && p'.dropped == p.dropped
    requires p'.pending <= p.pending && max > 0
    ensures PipeInv(p', max, strategy)
  {
    assert Kept(p') == p.delivered <= Kept(p);
    PrefixPicks(Kept(p'), Kept(p), p.received);
    PrefixPicks(Held(p', strategy), Held(p, strategy), p.received);
  }

  lemma DeliveredIsKept<T>(delivered: seq<Item<T>>, buffer: seq<Item<T>>)
    requires buffer != []
    ensures (delivered + [buffer[0]]) + buffer[1..] == delivered + buffer
  {
    assert buffer == [buffer[0]] + buffer[1..];
  }

  lemma SamePartition<T>(p: Pipe<T>, p': Pipe<T>, strategy: Strategy)
    requires Partition(p, strategy) && Kept(p') == Kept(p) && Held(p', strategy) == Held(p, strategy)
    requires p'.received == p.received && p'.dropped == p.dropped && (Intact(p') ==> Intact(p))
    ensures Partition(p', strategy)
  {
  }

  lemma SameKeeps<T>(p: Pipe<T>, p': Pipe<T>, max: nat, strategy: Strategy)
    requires PipeInv(p, max, strategy) && Scheduling(p') && p'.buffer == p.buffer && p'.received == p.received
    requires p'.delivered == p.delivered && p'.dropped == p.dropped && p'.pending == p.pending
    requires (Intact(p') ==> Intact(p)) && (p'.ended.None? ==> p.ended.None?)
    ensures PipeInv(p', max, strategy)
  {
    assert Kept(p') == Kept(p) && Held(p', strategy) == Held(p, strategy);
    SamePartition(p, p', strategy);
  }

  lemma DeliverOrder<T>(p: Pipe<T>, p': Pipe<T>, max: nat)
    requires OldestFirst(p, max) && p.buffer != [] && p.ended.None? && p.pending == []
    requires p'.buffer == p.buffer[1..] && p'.received == p.received && p'.dropped == p.dropped
    requires p'.pending == [] && p'.ended.None?
    ensures OldestFirst(p', max)
  {
    assert forall y | y in p.buffer[1..] :: y in p.buffer;
  }

  lemma DeliverKeeps<T>(p: Pipe<T>, max: nat, strategy: Strategy)
    requires PipeInv(p, max, strategy) && p.buffer != [] && p.ended.None? && p.pending == []
    ensures PipeInv(p.(buffer := p.buffer[1..], delivered := p.delivered + [p.buffer[0]], phase := Awaiting),
                    max, strategy)
  {
    var p' := p.(buffer := p.buffer[1..], delivered := p.delivered + [p.buffer[0]], phase := Awaiting);
    DeliveredIsKept(p.delivered, p.buffer);
    SamePartition(p, p', strategy);
    if strategy == DropOldest { DeliverOrder(p, p', max); }
  }

  lemma TurnKeeps<T>(p: Pipe<T>, max: nat, strategy: Strategy)
    requires PipeInv(p, max, strategy) && p.pending == []
    ensures PipeInv(DrainTurn(p), max, strategy)
  {
    if p.phase != Idle {
      if p.buffer != [] && p.ended.None? {
        DeliverKeeps(p, max, strategy);
      } else {
        SameKeeps(p, DrainTurn(p), max, strategy);
      }
    }
  }

  lemma EndKeeps<T>(p: Pipe<T>, max: nat, strategy: Strategy, why: Ending)
    requires PipeInv(p, max, strategy) && max > 0 && why != BySource
    ensures PipeInv(EndPipe(p, why), max, strategy)
  {
    if p.ended.None? {
      ForgetKeeps(p, EndPipe(p, why), max, strategy);
    }
  }

  lemma FinishKeeps<T>(p: Pipe<T>, max: nat, strategy: Strategy)
    requires PipeInv(p, max, strategy)
    ensures PipeInv(OnComplete(p), max, strategy)
  {
    SameKeeps(p, OnComplete(p), max, strategy);
  }

  lemma ArriveKeeps<T>(p: Pipe<T>, max: nat, strategy: Strategy, value: T)
    requires PipeInv(p, max, strategy) && max > 0
    ensures PipeInv(OnNext(p, max, strategy, value), max, strategy)
  {
    if p.upstreamOpen && p.ended.None? {
      if |p.buffer| < max {
        BufferArrival(p, max, strategy, value);
      } else if strategy == DropOldest {
        DropOldestArrival(p, max, value);
      } else {
        DropNewestArrival(p, max, value);
      }
    }
  }

  lemma DropNewestReturns<T>(p: Pipe<T>, max: nat)
    requires PipeInv(p, max, DropNewest) && max > 0 && p.pending != []
    ensures PipeInv(OnDropReturns(p, DropNewest), max, DropNewest) && PipeInv(OnDropThrows(p), max, DropNewest)
  {
    assert Kept(OnDropReturns(p, DropNewest)) == Kept(p);
    if p.ended.None? {
      ForgetKeeps(p, OnDropThrows(p), max, DropNewest);
    } else {
      assert Kept(OnDropThrows(p)) == Kept(p);
    }
  }

  // ---- What breaks it ----

  lemma PushedTooLate<T>(kept: seq<Item<T>>, later: Item<T>, item: Item<T>)
    requires later in kept && item.index < later.index
    ensures !Increasing(kept + [item])
  {
    var i :| 0 <= i < |kept| && kept[i] == later;
    assert (kept + [item])[i] == later && (kept + [item])[|kept|] == item;
  }

  lemma OutOfOrder<T>(p: Pipe<T>, max: nat, strategy: Strategy)
    requires !Increasing(Kept(p)) || (p.buffer != [] && p.ended.Some?)
    ensures !PipeInv(p, max, strategy)
  {
  }

  lemma LateReturn<T>(p: Pipe<T>, max: nat)
    requires PipeInv(p, max, DropOldest) && p.ended.None? && p.pending != [] && !TopIsNewest(p)
    ensures !Increasing(Kept(OnDropReturns(p, DropOldest)))
  {
    var item := p.pending[|p.pending| - 1];
    PushIsLate(p, p.pending[..|p.pending| - 1], item);
    assert p.delivered + (p.buffer + [item]) == Kept(p) + [item];
  }

  lemma PushIsLate<T>(p: Pipe<T>, others: seq<Item<T>>, item: Item<T>)
    requires Partition(p, DropOldest) && p.ended.None? && p.pending == others + [item]
    requires item.index != |p.received| - 1 && forall x | x in p.dropped :: x.index < |p.received| - 1
    ensures !Increasing(Kept(p) + [item])
  {
    NewestIsKept(p.received, Kept(p), p.dropped, others, item);
    PushedTooLate(Kept(p), p.received[|p.received| - 1], item);
  }

  /** A value pushed after a later one, or after the end. */
  lemma ReturnBreaks<T>(p: Pipe<T>, max: nat)
    requires PipeInv(p, max, DropOldest) && Disturbs(p, DropOldest, DropReturns)
    ensures !PipeInv(OnDropReturns(p, DropOldest), max, DropOldest)
  {
    if p.ended.None? {
      LateReturn(p, max);
    }
    OutOfOrder(OnDropReturns(p, DropOldest), max, DropOldest);
  }

  /** If the last held item is not the newest, the newest is kept, as it can be neither dropped nor held. */
  lemma NewestIsKept<T>(r: seq<Item<T>>, k: seq<Item<T>>, d: seq<Item<T>>, h: seq<Item<T>>, item: Item<T>)
    requires Splits(r, k, d, h + [item]) && Covers(r, k, d, h + [item]) && item.index != |r| - 1
    requires forall x | x in d :: x.index < |r| - 1
    ensures |r| > 0 && r[|r| - 1] in k && item.index < r[|r| - 1].index
  {
    assert item in h + [item];
    var newest := r[|r| - 1];
    assert newest in r && newest.index == |r| - 1;
    if newest in h + [item] {
      HeldLast(h, item, newest);
    }
  }

  /** A value lost, neither kept nor reported. */
  lemma ThrowBreaks<T>(p: Pipe<T>, max: nat)
    requires PipeInv(p, max, DropOldest) && Disturbs(p, DropOldest, DropThrows)
    ensures !PipeInv(OnDropThrows(p), max, DropOldest)
  {
    var n := |p.pending| - 1;
    var item, p' := p.pending[n], OnDropThrows(p);
    assert p.pending == p.pending[..n] + [item] && item in p.pending;
    assert Kept(p') == Kept(p);
    if item in p.pending[..n] {
      HeldLast(p.pending[..n], item, item);
    }
    assert item in p'.received && !Covers(p'.received, Kept(p'), p'.dropped, p'.pending);
  }

  lemma DropEndKeeps<T>(p: Pipe<T>, max: nat, strategy: Strategy, ev: PipeEvent<T>)
    requires PipeInv(p, max, strategy) && max > 0 && (ev.DropReturns? || ev.DropThrows?)
    ensures PipeInv(PipeStep(p, max, strategy, ev), max, strategy) <==> !Disturbs(p, strategy, ev)
  {
    if p.pending != [] {
      if strategy == DropNewest {
        DropNewestReturns(p, max);
      } else if Disturbs(p, strategy, ev) {
        if ev.DropReturns? { ReturnBreaks(p, max); } else { ThrowBreaks(p, max); }
      } else if ev.DropReturns? {
        ReturnKeeps(p, max);
      } else {
        ForgetKeeps(p, OnDropThrows(p), max, strategy);
      }
    }
  }

  /** The exact condition, step by step. */
  lemma StepKeepsIff<T>(p: Pipe<T>, max: nat, strategy: Strategy, ev: PipeEvent<T>)
    requires PipeInv(p, max, strategy) && max > 0
    ensures PipeInv(PipeStep(p, max, strategy, ev), max, strategy) <==> !Disturbs(p, strategy, ev)
  {
    match ev
    case Arrives(value) => ArriveKeeps(p, max, strategy, value);
    case DropReturns => DropEndKeeps(p, max, strategy, ev);
    case DropThrows => DropEndKeeps(p, max, strategy, ev);
    case Fails => if p.upstreamOpen { ForgetKeeps(p, OnError(p), max, strategy); }
    case Finishes => FinishKeeps(p, max, strategy);
    case Turn => if p.pending == [] { TurnKeeps(p, max, strategy); }
    case ConsumerRejects => if p.pending == [] && p.phase == Awaiting { EndKeeps(p, max, strategy, ByError); }
    case Unsubscribed => EndKeeps(p, max, strategy, ByUnsubscribe);
  }

  // ---- Whole runs ----

  ghost predicate AlwaysSound<T>(max: nat, strategy: Strategy, evs: seq<PipeEvent<T>>) {
    forall k | 0 <= k <= |evs| :: PipeInv(PipeRun(max, strategy, evs[..k]), max, strategy)
  }

  ghost predicate NeverDisturbed<T>(max: nat, strategy: Strategy, evs: seq<PipeEvent<T>>) {
    forall k | 0 <= k < |evs| :: !Disturbs(PipeRun(max, strategy, evs[..k]), strategy, evs[k])
  }

  lemma {:induction false} UndisturbedIsSound<T>(max: nat, strategy: Strategy, evs: seq<PipeEvent<T>>, k: nat)
    requires max > 0 && NeverDisturbed(max, strategy, evs) && k <= |evs|
    ensures PipeInv(PipeRun(max, strategy, evs[..k]), max, strategy)
  {
    if k > 0 {
      UndisturbedIsSound(max, strategy, evs, k - 1);
      assert evs[..k][..k - 1] == evs[..k - 1];
      StepKeepsIff(PipeRun(max, strategy, evs[..k - 1]), max, strategy, evs[k - 1]);
    }
  }

  lemma SoundIsUndisturbed<T>(max: nat, strategy: Strategy, evs: seq<PipeEvent<T>>, k: nat)
    requires max > 0 && AlwaysSound(max, strategy, evs) && k < |evs|
    ensures !Disturbs(PipeRun(max, strategy, evs[..k]), strategy, evs[k])
  {
    assert evs[..k + 1][..k] == evs[..k] && PipeInv(PipeRun(max, strategy, evs[..k + 1]), max, strategy);
    StepKeepsIff(PipeRun(max, strategy, evs[..k]), max, strategy, evs[k]);
  }

  /**
    In every state of a run the buffer is bounded, what was received is delivered, buffered, dropped or about to be
    pushed, each once and in order, a buffered value has a drain, and completion is passed on at most once and only
    with an empty buffer: exactly if, under drop-oldest, no `onDrop` comes back after it has ended the operator or made
    it receive another value, and none throws after it has completed it.
    */
  lemma PipeKeeps<T>(max: nat, strategy: Strategy, evs: seq<PipeEvent<T>>)
    requires max > 0
    ensures AlwaysSound(max, strategy, evs) <==> NeverDisturbed(max, strategy, evs)
  {
    if NeverDisturbed(max, strategy, evs) {
      forall k | 0 <= k <= |evs|
        ensures PipeInv(PipeRun(max, strategy, evs[..k]), max, strategy)
      {
        UndisturbedIsSound(max, strategy, evs, k);
      }
    }
    if AlwaysSound(max, strategy, evs) {
      forall k | 0 <= k < |evs|
        ensures !Disturbs(PipeRun(max, strategy, evs[..k]), strategy, evs[k])
      {
        SoundIsUndisturbed(max, strategy, evs, k);
      }
    }
  }

  /** Drop-newest needs no such condition. */
  lemma DropNewestIsSound<T>(max: nat, evs: seq<PipeEvent<T>>)
    requires max > 0
    ensures PipeInv(PipeRun(max, DropNewest, evs), max, DropNewest)
  {
    UndisturbedIsSound(max, DropNewest, evs, |evs|);
    assert evs[..|evs|] == evs;
  }

  /** When completion has been passed on, exactly the values not dropped have been delivered, in order. */
  lemma CompletionDeliversAll<T>(max: nat, strategy: Strategy, evs: seq<PipeEvent<T>>)
    requires max > 0 && NeverDisturbed(max, strategy, evs)
    requires var p := PipeRun(max, strategy, evs); p.ended == Some(BySource) && p.pending == []
    ensures var p := PipeRun(max, strategy, evs);
      && p.completions == 1 && Increasing(p.delivered)
      && (forall x | x in p.received :: x in p.delivered <==> x !in p.dropped)
      && (forall x | x in p.delivered :: x in p.received)
  {
    UndisturbedIsSound(max, strategy, evs, |evs|);
    assert evs[..|evs|] == evs;
    var p := PipeRun(max, strategy, evs);
    assert Kept(p) == p.delivered;
    assert forall x | x in p.delivered :: p.received[x.index] == x;
  }

  /** Nothing is dropped while there is room, and under drop-newest nothing once buffered is dropped. */
  lemma StepDrops<T>(p: Pipe<T>, max: nat, strategy: Strategy, ev: PipeEvent<T>)
    requires max > 0 && Scheduling(p)
    ensures var p' := PipeStep(p, max, strategy, ev);
      && (p'.dropped != p.dropped ==> |p.buffer| >= max)
      && (strategy == DropNewest && Intact(p') ==> Intact(p) && Kept(p) <= Kept(p'))
  {
    match ev
    case Arrives(value) =>
      var item := Item(|p.received|, value);
      assert p.delivered + (p.buffer + [item]) == (p.delivered + p.buffer) + [item];
    case Turn =>
      if p.buffer != [] {
        assert (p.delivered + [p.buffer[0]]) + p.buffer[1..] == p.delivered + p.buffer;
      }
    case _ =>
  }

  /**
    Under drop-newest, what was delivered or buffered at any moment is never evicted: it is delivered in that order.
    */
  lemma {:induction false} DropNewestNeverEvicts<T>(max: nat, evs: seq<PipeEvent<T>>, k: nat)
    requires max > 0 && k <= |evs| && Intact(PipeRun(max, DropNewest, evs))
    ensures Kept(PipeRun(max, DropNewest, evs[..k])) <= Kept(PipeRun(max, DropNewest, evs))
    decreases |evs|
  {
    if k == |evs| {
      assert evs[..k] == evs;
    } else {
      var n := |evs| - 1;
      assert evs[..n][..k] == evs[..k];
      DropNewestIsSound(max, evs[..n]);
      StepDrops(PipeRun(max, DropNewest, evs[..n]), max, DropNewest, evs[n]);
      DropNewestNeverEvicts(max, evs[..n], k);
    }
  }

  // ---- Where the promises end ----

  lemma RunGrows<T>(max: nat, strategy: Strategy, evs: seq<PipeEvent<T>>, ev: PipeEvent<T>)
    ensures PipeRun(max, strategy, evs + [ev]) == PipeStep(PipeRun(max, strategy, evs), max, strategy, ev)
  {
    assert (evs + [ev])[..|evs|] == evs;
  }

  /** A buffer of one, full with `a`, when `b` arrives: `a` is being reported. */
  lemma FullThenDrops<T>(a: T, b: T)
    ensures PipeRun(1, DropOldest, [Arrives(a), Arrives(b)])
         == Fresh<T>().(received := [Item(0, a), Item(1, b)], dropped := [Item(0, a)], pending := [Item(1, b)],
                        draining := true, phase := Scheduled)
  {
    var evs: seq<PipeEvent<T>> := [];
    var p := OnNext(Fresh<T>(), 1, DropOldest, a);
    assert p == Fresh<T>().(received := [Item(0, a)], buffer := [Item(0, a)], draining := true, phase := Scheduled);
    RunGrows(1, DropOldest, evs, Arrives(a));
    RunGrows(1, DropOldest, evs + [Arrives(a)], Arrives(b));
    assert evs + [Arrives(a)] + [Arrives(b)] == [Arrives(a), Arrives(b)];
    assert OnNext(p, 1, DropOldest, b).received == [Item(0, a), Item(1, b)];
  }

  lemma ThirdWhileDropping<T>(p: Pipe<T>, a: T, b: T, c: T)
    requires p == Fresh<T>().(received := [Item(0, a), Item(1, b)], dropped := [Item(0, a)], pending := [Item(1, b)],
                              draining := true, phase := Scheduled)
    ensures OnDropReturns(OnNext(p, 1, DropOldest, c), DropOldest).buffer == [Item(2, c), Item(1, b)]
  {
    var p1 := OnNext(p, 1, DropOldest, c);
    assert p1.buffer == [Item(2, c)] && p1.pending == [Item(1, b)];
  }

  lemma TwoMore<T>(max: nat, strategy: Strategy, evs: seq<PipeEvent<T>>, ev: PipeEvent<T>, ev': PipeEvent<T>)
    ensures PipeRun(max, strategy, evs + [ev, ev'])
         == PipeStep(PipeStep(PipeRun(max, strategy, evs), max, strategy, ev), max, strategy, ev')
  {
    assert evs + [ev, ev'] == evs + [ev] + [ev'];
    RunGrows(max, strategy, evs, ev);
    RunGrows(max, strategy, evs + [ev], ev');
  }

  /** An `onDrop` that makes the source emit again: the buffer is over its bound, and out of order. */
  lemma ReentrantEmission<T>(a: T, b: T, c: T)
    ensures PipeRun(1, DropOldest, [Arrives(a), Arrives(b)] + [Arrives(c), DropReturns]).buffer
         == [Item(2, c), Item(1, b)]
  {
    FullThenDrops(a, b);
    TwoMore(1, DropOldest, [Arrives(a), Arrives(b)], Arrives(c), DropReturns);
    ThirdWhileDropping(PipeRun(1, DropOldest, [Arrives(a), Arrives(b)]), a, b, c);
  }

  /** Completion has been passed on; one value received was dropped, and the other neither dropped nor delivered. */
  predicate LostUnreported<T(==)>(p: Pipe<T>, a: T, b: T) {
    && p.completions == 1 && p.received == [Item(0, a), Item(1, b)]
    && p.delivered == [] && p.dropped == [Item(0, a)]
  }

  lemma FinishWhileDropping<T>(p: Pipe<T>, a: T, b: T)
    requires p == Fresh<T>().(received := [Item(0, a), Item(1, b)], dropped := [Item(0, a)], pending := [Item(1, b)],
                              draining := true, phase := Scheduled)
    ensures LostUnreported(PipeStep(PipeStep(p, 1, DropOldest, Finishes), 1, DropOldest, DropReturns), a, b)
  {
  }

  /** An `onDrop` that completes the source: completion is passed on, and the arriving value is lost unreported. */
  lemma ReentrantCompletion<T>(a: T, b: T)
    ensures LostUnreported(PipeRun(1, DropOldest, [Arrives(a), Arrives(b)] + [Finishes, DropReturns]), a, b)
  {
    var evs := [Arrives(a), Arrives(b)];
    FullThenDrops(a, b);
    FinishWhileDropping(PipeRun(1, DropOldest, evs), a, b);
    TwoMore(1, DropOldest, evs, Finishes, DropReturns);
  }

  // ---- Progress ----

  function Turns<T>(p: Pipe<T>, n: nat): Pipe<T>
    decreases n
  {
    if n == 0 then p else Turns(DrainTurn(p), n - 1)
  }

  /** Left to itself after the source has finished, the drain delivers the whole buffer and then completes. */
  lemma {:induction false} DrainFinishes<T>(p: Pipe<T>)
    requires Scheduling(p) && p.upstreamCompleted && p.ended.None?
    ensures var p' := Turns(p, |p.buffer| + 1);
      p'.ended == Some(BySource) && p'.completions == 1 && p'.delivered == p.delivered + p.buffer && p'.phase == Idle
    decreases |p.buffer|
  {
    var p1 := DrainTurn(p);
    if p.buffer != [] {
      DrainFinishes(p1);
      assert p.buffer == [p.buffer[0]] + p.buffer[1..];
      assert p1.delivered + p1.buffer == p.delivered + p.buffer;
    } else {
      assert Turns(p, 1) == Turns(p1, 0);
      assert p.delivered + [] == p.delivered;
    }
  }

  predicate SameOutcome<T(==)>(p: Pipe<T>, p': Pipe<T>) {
    && p'.ended == p.ended && p'.received == p.received && p'.delivered == p.delivered
    && p'.dropped == p.dropped && p'.completions == p.completions
  }

  lemma EndedIsFinal<T>(p: Pipe<T>, max: nat, strategy: Strategy, ev: PipeEvent<T>)
    requires p.ended.Some? && !p.upstreamOpen
    ensures var p' := PipeStep(p, max, strategy, ev);
      SameOutcome(p, p') && !p'.upstreamOpen
  {
  }

  lemma StepCloses<T>(p: Pipe<T>, max: nat, strategy: Strategy, ev: PipeEvent<T>)
    requires p.ended.Some? ==> !p.upstreamOpen
    ensures var p' := PipeStep(p, max, strategy, ev); p'.ended.Some? ==> !p'.upstreamOpen
  {
  }

  lemma {:induction false} EndedIsClosed<T>(max: nat, strategy: Strategy, evs: seq<PipeEvent<T>>)
    ensures var p := PipeRun(max, strategy, evs); p.ended.Some? ==> !p.upstreamOpen
  {
    if evs != [] {
      EndedIsClosed(max, strategy, evs[..|evs| - 1]);
      StepCloses(PipeRun(max, strategy, evs[..|evs| - 1]), max, strategy, evs[|evs| - 1]);
    }
  }

  lemma {:induction false} EndedStays<T>(max: nat, strategy: Strategy, evs: seq<PipeEvent<T>>, k: nat, n: nat)
    requires k <= n <= |evs| && PipeRun(max, strategy, evs[..k]).ended.Some?
    ensures SameOutcome(PipeRun(max, strategy, evs[..k]), PipeRun(max, strategy, evs[..n]))
  {
    if k < n {
      EndedStays(max, strategy, evs, k, n - 1);
      assert evs[..n] == evs[..n - 1] + [evs[n - 1]];
      RunGrows(max, strategy, evs[..n - 1], evs[n - 1]);
      EndedIsClosed(max, strategy, evs[..n - 1]);
      EndedIsFinal(PipeRun(max, strategy, evs[..n - 1]), max, strategy, evs[n - 1]);
    }
  }

  /** From any ending on, whatever callbacks do, nothing more is received, delivered, dropped or completed. */
  lemma EndedRunIsFinal<T>(max: nat, strategy: Strategy, evs: seq<PipeEvent<T>>, k: nat)
    requires k <= |evs| && PipeRun(max, strategy, evs[..k]).ended.Some?
    ensures SameOutcome(PipeRun(max, strategy, evs[..k]), PipeRun(max, strategy, evs))
  {
    assert evs[..|evs|] == evs;
    EndedStays(max, strategy, evs, k, |evs|);
  }

  // ---- What each event does to the operator ----

  /** A value comes in only from an open source, before the operator has ended. */
  predicate Receives<T>(p: Pipe<T>, ev: PipeEvent<T>) {
    ev.Arrives? && p.upstreamOpen && p.ended.None?
  }

  /** A scheduled or running drain, not held up by a callback, finds a value to deliver. */
  predicate Delivers<T>(p: Pipe<T>, ev: PipeEvent<T>) {
    ev.Turn? && p.pending == [] && p.phase != Idle && p.buffer != [] && p.ended.None?
  }

  /** Why this event ends the operator, if it does. */
  function EndedBy<T>(p: Pipe<T>, ev: PipeEvent<T>): Option<Ending> {
    match ev
    case Unsubscribed => Some(ByUnsubscribe)
    case Fails => if p.upstreamOpen then Some(ByError) else None
    case DropThrows => if p.pending != [] then Some(ByError) else None
    case ConsumerRejects => if p.pending == [] && p.phase == Awaiting then Some(ByError) else None
    case Finishes => if p.upstreamOpen && p.buffer == [] then Some(BySource) else None
    case Turn =>
      if p.pending == [] && p.phase != Idle && p.upstreamCompleted && p.buffer == [] then Some(BySource) else None
    case _ => None
  }

  predicate EndsAs<T>(p: Pipe<T>, p': Pipe<T>, ev: PipeEvent<T>) {
    && p'.ended == EndedBy(p, ev)
    && (p'.ended.Some? ==> p'.buffer == [] && !p'.upstreamOpen)
    && p'.completions == p.completions + (if p'.ended == Some(BySource) then 1 else 0)
    && p'.upstreamCompleted == (p.upstreamCompleted || (ev.Finishes? && p.upstreamOpen))
  }

  lemma DropEndsAs<T>(p: Pipe<T>, max: nat, strategy: Strategy, ev: PipeEvent<T>)
    requires p.ended.None? && (ev.Arrives? || ev.DropReturns? || ev.DropThrows?)
    ensures EndsAs(p, PipeStep(p, max, strategy, ev), ev)
  {
  }

  lemma OtherEndsAs<T>(p: Pipe<T>, max: nat, strategy: Strategy, ev: PipeEvent<T>)
    requires p.ended.None? && !ev.Arrives? && !ev.DropReturns? && !ev.DropThrows?
    ensures EndsAs(p, PipeStep(p, max, strategy, ev), ev)
  {
  }

  /**
    In every run, exactly these events end the operator, each with its own ending; ending it empties the buffer, closes
    the source and, for a completion, is passed on once.
    */
  lemma OperatorEndsIff<T>(max: nat, strategy: Strategy, evs: seq<PipeEvent<T>>, ev: PipeEvent<T>)
    requires PipeRun(max, strategy, evs).ended.None?
    ensures EndsAs(PipeRun(max, strategy, evs), PipeRun(max, strategy, evs + [ev]), ev)
  {
    var p := PipeRun(max, strategy, evs);
    RunGrows(max, strategy, evs, ev);
    if ev.Arrives? || ev.DropReturns? || ev.DropThrows? {
      DropEndsAs(p, max, strategy, ev);
    } else {
      OtherEndsAs(p, max, strategy, ev);
    }
  }

  function NewlyDropped<T>(p: Pipe<T>, max: nat, strategy: Strategy, ev: PipeEvent<T>): seq<Item<T>>
    requires max > 0
  {
    if !Receives(p, ev) || |p.buffer| < max then []
    else if strategy == DropOldest then [p.buffer[0]]
    else [Item(|p.received|, ev.value)]
  }

  predicate MovesAs<T(==)>(p: Pipe<T>, p': Pipe<T>, max: nat, strategy: Strategy, ev: PipeEvent<T>)
    requires max > 0
  {
    && p'.received == p.received + (if Receives(p, ev) then [Item(|p.received|, ev.value)] else [])
    && p'.delivered == p.delivered + (if Delivers(p, ev) then [p.buffer[0]] else [])
    && p'.dropped == p.dropped + NewlyDropped(p, max, strategy, ev)
  }

  lemma NothingAdded<T>(p: Pipe<T>)
    ensures p.received + [] == p.received && p.delivered + [] == p.delivered && p.dropped + [] == p.dropped
  {
  }

  lemma ArrivalMoves<T>(p: Pipe<T>, max: nat, strategy: Strategy, ev: PipeEvent<T>)
    requires max > 0 && ev.Arrives?
    ensures MovesAs(p, PipeStep(p, max, strategy, ev), max, strategy, ev)
  {
    NothingAdded(p);
  }

  lemma TurnMoves<T>(p: Pipe<T>, max: nat, strategy: Strategy, ev: PipeEvent<T>)
    requires max > 0 && ev.Turn?
    ensures MovesAs(p, PipeStep(p, max, strategy, ev), max, strategy, ev)
  {
    NothingAdded(p);
  }

  lemma OtherMoves<T>(p: Pipe<T>, max: nat, strategy: Strategy, ev: PipeEvent<T>)
    requires max > 0 && !ev.Arrives? && !ev.Turn?
    ensures MovesAs(p, PipeStep(p, max, strategy, ev), max, strategy, ev)
  {
    NothingAdded(p);
  }

  /**
    In every run a value is received, delivered or reported dropped by exactly these events: it is dropped when it
    comes to a full buffer, the oldest or the newest as asked for, and delivered from the front.
    */
  lemma ValuesMoveIff<T>(max: nat, strategy: Strategy, evs: seq<PipeEvent<T>>, ev: PipeEvent<T>)
    requires max > 0
    ensures MovesAs(PipeRun(max, strategy, evs), PipeRun(max, strategy, evs + [ev]), max, strategy, ev)
  {
    var p := PipeRun(max, strategy, evs);
    RunGrows(max, strategy, evs, ev);
    if ev.Arrives? {
      ArrivalMoves(p, max, strategy, ev);
    } else if ev.Turn? {
      TurnMoves(p, max, strategy, ev);
    } else {
      OtherMoves(p, max, strategy, ev);
    }
  }
}
