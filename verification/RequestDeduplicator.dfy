/**
  In-flight request deduplication over a FIFO microtask queue (ECMA-262 section 9.5: promise jobs run in the order
  in which they were enqueued).
  */
module Deduplication {
  import opened Sequences

  type Promise = nat

  /** An in-flight entry; `id` is its object identity, counting entries in order of creation. */
  datatype Entry = Entry(id: nat, promise: Promise)

  /** What the world looked like when a late caller called: the entries created and the promises settled so far. */
  datatype Moment = Moment(entries: nat, settled: set<Promise>)

  datatype Job =
    | ClearTick(id: nat)
    | Cleanup(key: string, id: nat)
    | Decide(key: string, maxAge: Option<int>, called: Moment)

  /** What a factory hands back: a promise, and whether running the factory settles it. */
  datatype Made = Made(promise: Promise, settles: bool)

  /**
    The deduplicator's fields, then the host's: the job queue, the settled promises, and the settle reactions still
    waiting on pending promises. `ticking` holds the entries whose `creationTick` is true.
    */
  datatype State = State(
    inFlight: map<string, Entry>, startedAt: map<string, int>, ticking: set<nat>, created: nat,
    requests: nat, started: nat, deduplicated: nat,
    jobs: seq<Job>, settled: set<Promise>, watchers: seq<(string, Entry)>)

  const INITIAL := State(map[], map[], {}, 0, 0, 0, 0, [], {}, [])

  // ---- Transitions ----

  function CleanupsFor(ws: seq<(string, Entry)>, p: Promise): seq<Job> {
    if ws == [] then []
    else
      var rest, w := CleanupsFor(ws[..|ws| - 1], p), ws[|ws| - 1];
      if w.1.promise == p then rest + [Cleanup(w.0, w.1.id)] else rest
  }

  function StillWaiting(ws: seq<(string, Entry)>, p: Promise): seq<(string, Entry)> {
    Filter(ws, (w: (string, Entry)) => w.1.promise != p)
  }

  /** A promise settles: its reactions become jobs, in the order they were attached. */
  function Settle(s: State, p: Promise): State {
    if p in s.settled then s
    else s.(settled := s.settled + {p}, jobs := s.jobs + CleanupsFor(s.watchers, p),
            watchers := StillWaiting(s.watchers, p))
  }

  function Invoke(s: State, made: Made): State {
    if made.settles then Settle(s, made.promise) else s
  }

  /**
    Registers the entry: the job that ends its creation tick, then the cleanup, at once or when the promise settles.
    */
  function Register(s: State, key: string, e: Entry, now: int): State {
    State(s.inFlight[key := e], s.startedAt[key := now], s.ticking + {e.id}, s.created + 1,
          s.requests, s.started, s.deduplicated,
          s.jobs + RegisterJobs(s, key, e), s.settled,
          if e.promise in s.settled then s.watchers else s.watchers + [(key, e)])
  }

  function RegisterJobs(s: State, key: string, e: Entry): seq<Job> {
    if e.promise in s.settled then [ClearTick(e.id), Cleanup(key, e.id)] else [ClearTick(e.id)]
  }

  function Start(s: State, key: string, made: Made, now: int): State {
    var s1 := Invoke(s.(started := s.started + 1), made);
    Register(s1, key, Entry(s1.created, made.promise), now)
  }

  predicate YoungEnough(s: State, key: string, maxAge: Option<int>, now: int) {
    maxAge.None? || now - (if key in s.startedAt then s.startedAt[key] else now) <= maxAge.value
  }

  /** How a call is handled; `key` is absent when it cannot be normalised. */
  datatype Verdict = BadKey | Bypass | JoinNow(key: string) | Defer(key: string) | StartNow(key: string)

  function Classify(s: State, enabled: bool, key: Option<string>, forceNew: bool, maxAge: Option<int>,
                    now: int): (v: Verdict)
    ensures v.BadKey? <==> key.None?
  {
    if key.None? then BadKey
    else if !enabled then Bypass
    else if key.value in s.inFlight && !forceNew && YoungEnough(s, key.value, maxAge, now) then
      if s.inFlight[key.value].id in s.ticking then JoinNow(key.value) else Defer(key.value)
    else StartNow(key.value)
  }

  function Handle(s: State, verdict: Verdict, maxAge: Option<int>, made: Made, now: int): State {
    match verdict
    case BadKey => s
    case Bypass => Invoke(s.(started := s.started + 1), made)
    case JoinNow(_) => s.(deduplicated := s.deduplicated + 1)
    case Defer(key) => s.(jobs := s.jobs + [Decide(key, maxAge, Moment(s.created, s.settled))])
    case StartNow(key) => Start(s, key, made, now)
  }

  function Counted(s: State): State {
    s.(requests := s.requests + 1)
  }

  function Dedupe(s: State, enabled: bool, key: Option<string>, forceNew: bool, maxAge: Option<int>, made: Made,
                  now: int): State {
    Handle(Counted(s), Classify(Counted(s), enabled, key, forceNew, maxAge, now), maxAge, made, now)
  }

  /** What the caller gets before returning to the event loop. */
  function HandedNow(s: State, verdict: Verdict, made: Made): Option<Promise> {
    match verdict
    case JoinNow(key) => if key in s.inFlight then Some(s.inFlight[key].promise) else None
    case Bypass => Some(made.promise)
    case StartNow(_) => Some(made.promise)
    case _ => None
  }

  function DedupeHands(s: State, enabled: bool, key: Option<string>, forceNew: bool, maxAge: Option<int>, made: Made,
                       now: int): Option<Promise> {
    HandedNow(Counted(s), Classify(Counted(s), enabled, key, forceNew, maxAge, now), made)
  }

  predicate StillJoinable(s: State, key: string, maxAge: Option<int>, now: int) {
    key in s.inFlight && YoungEnough(s, key, maxAge, now)
  }

  /** The oldest microtask runs. */
  function RunJob(s: State, made: Made, now: int): State {
    if s.jobs == [] then s
    else
      var s1 := s.(jobs := s.jobs[1..]);
      match s.jobs[0]
      case ClearTick(id) => s1.(ticking := s1.ticking - {id})
      case Cleanup(key, id) =>
        if key in s1.inFlight && s1.inFlight[key].id == id
        then s1.(inFlight := s1.inFlight - {key}, startedAt := s1.startedAt - {key})
        else s1
      case Decide(key, maxAge, called) =>
        if StillJoinable(s1, key, maxAge, now)
        then s1.(deduplicated := s1.deduplicated + 1)
        else Start(s1, key, made, now)
  }

  function Clear(s: State): State {
    s.(inFlight := map[], startedAt := map[])
  }

  function ResetStats(s: State): State {
    s.(requests := 0, started := 0, deduplicated := 0)
  }

  // ---- The class ----

  class RequestDeduplicator {
    const enabled: bool
    var inFlight: map<string, Entry>
    var startedAt: map<string, int>
    var ticking: set<nat>
    var created: nat
    var requests: nat
    var started: nat
    var deduplicated: nat
    // The host's side.
    var jobs: seq<Job>
    var settled: set<Promise>
    var watchers: seq<(string, Entry)>

    function Model(): State
      reads this
    {
      State(inFlight, startedAt, ticking, created, requests, started, deduplicated, jobs, settled, watchers)
    }

    constructor (enabled: bool)
      ensures Model() == INITIAL && this.enabled == enabled
    {
      this.enabled := enabled;
      inFlight, startedAt, ticking, created := map[], map[], {}, 0;
      requests, started, deduplicated := 0, 0, 0;
      jobs, settled, watchers := [], {}, [];
    }

    /** The host settles a pending promise. */
    method HostSettle(p: Promise)
      modifies this
      ensures Model() == Settle(old(Model()), p)
    {
      if p !in settled {
        settled, jobs, watchers := settled + {p}, jobs + CleanupsFor(watchers, p), StillWaiting(watchers, p);
      }
    }

    method InvokeFactory(made: Made)
      modifies this
      ensures Model() == Invoke(old(Model()), made)
    {
      if made.settles {
        HostSettle(made.promise);
      }
    }

    method RegisterEntry(key: string, entry: Entry, now: int)
      modifies this
      ensures Model() == Register(old(Model()), key, entry, now)
    {
      inFlight, startedAt := inFlight[key := entry], startedAt[key := now];
      created, ticking := created + 1, ticking + {entry.id};
      jobs := jobs + [ClearTick(entry.id)];
      if entry.promise in settled {
        jobs := jobs + [Cleanup(key, entry.id)];
      } else {
        watchers := watchers + [(key, entry)];
      }
      assert jobs == old(jobs) + RegisterJobs(old(Model()), key, entry);
    }

    method StartRequest(key: string, made: Made, now: int) returns (shared: Promise)
      modifies this
      ensures shared == made.promise
      ensures Model() == Start(old(Model()), key, made, now)
    {
      started := started + 1;
      InvokeFactory(made);
      shared := made.promise;
      RegisterEntry(key, Entry(created, shared), now);
    }

    /** The promise handed out at once, or none when the decision is deferred or the key is bad. */
    method DedupeCall(key: Option<string>, forceNew: bool, maxAge: Option<int>, made: Made, now: int)
      returns (handed: Option<Promise>)
      modifies this
      ensures Model() == Dedupe(old(Model()), enabled, key, forceNew, maxAge, made, now)
      ensures handed == DedupeHands(old(Model()), enabled, key, forceNew, maxAge, made, now)
    {
      requests := requests + 1;
      assert Model() == Counted(old(Model()));
      if key.None? {
        return None;
      }
      if !enabled {
        handed := Untracked(made);
        return;
      }
      handed := DedupeTracked(key.value, forceNew, maxAge, made, now);
    }

    method Untracked(made: Made) returns (handed: Option<Promise>)
      modifies this
      ensures Model() == Handle(old(Model()), Bypass, None, made, 0) && handed == Some(made.promise)
    {
      started := started + 1;
      InvokeFactory(made);
      return Some(made.promise);
    }

    method DedupeTracked(key: string, forceNew: bool, maxAge: Option<int>, made: Made, now: int)
      returns (handed: Option<Promise>)
      modifies this
      ensures var verdict := Classify(old(Model()), true, Some(key), forceNew, maxAge, now);
        && Model() == Handle(old(Model()), verdict, maxAge, made, now)
        && handed == HandedNow(old(Model()), verdict, made)
    {
      if key in inFlight && !forceNew && YoungEnough(Model(), key, maxAge, now) {
        if inFlight[key].id in ticking {
          deduplicated := deduplicated + 1;
          return Some(inFlight[key].promise);
        }
        jobs := jobs + [Decide(key, maxAge, Moment(created, settled))];
        return None;
      }
      var shared := StartRequest(key, made, now);
      return Some(shared);
    }

    /** One microtask; a decision hands its caller a promise. */
    method RunMicrotask(made: Made, now: int) returns (handed: Option<Promise>)
      requires jobs != []
      modifies this
      ensures Model() == RunJob(old(Model()), made, now)
      ensures old(jobs)[0].Decide? ==>
        handed == Some(if StillJoinable(old(Model()), old(jobs)[0].key, old(jobs)[0].maxAge, now)
                       then old(inFlight)[old(jobs)[0].key].promise else made.promise)
    {
      var job := jobs[0];
      jobs, handed := jobs[1..], None;
      match job
      case ClearTick(id) =>
        ticking := ticking - {id};
      case Cleanup(key, id) =>
        if key in inFlight && inFlight[key].id == id {
          inFlight, startedAt := inFlight - {key}, startedAt - {key};
        }
      case Decide(key, maxAge, called) =>
        if key in inFlight {
          if YoungEnough(Model(), key, maxAge, now) {
            deduplicated := deduplicated + 1;
            return Some(inFlight[key].promise);
          }
        }
        var shared := StartRequest(key, made, now);
        handed := Some(shared);
    }

    method ClearAll()
      modifies this
      ensures Model() == Clear(old(Model()))
    {
      inFlight, startedAt := map[], map[];
    }

    method ResetCounters()
      modifies this
      ensures Model() == ResetStats(old(Model()))
    {
      requests, started, deduplicated := 0, 0, 0;
    }
  }

  // ---- Whole runs ----

  datatype Event =
    | Call(key: Option<string>, forceNew: bool, maxAge: Option<int>, made: Made, now: int)
    | Settles(p: Promise)
    | Microtask(made: Made, now: int)
    | ClearEvent
    | ResetEvent

  function Step(s: State, enabled: bool, ev: Event): State {
    match ev
    case Call(key, forceNew, maxAge, made, now) => Dedupe(s, enabled, key, forceNew, maxAge, made, now)
    case Settles(p) => Settle(s, p)
    case Microtask(made, now) => RunJob(s, made, now)
    case ClearEvent => Clear(s)
    case ResetEvent => ResetStats(s)
  }

  function Run(enabled: bool, evs: seq<Event>): State {
    if evs == [] then INITIAL else Step(Run(enabled, evs[..|evs| - 1]), enabled, evs[|evs| - 1])
  }

  /** The entry is in flight under `key` and its removal is queued among the first `n` jobs. */
  predicate RemovalQueued(jobs: seq<Job>, n: nat, key: string, id: nat) {
    n <= |jobs| && Cleanup(key, id) in jobs[..n]
  }

  /** Every settled entry awaits its removal; every pending one is watched. */
  predicate Tracked(s: State) {
    && s.inFlight.Keys == s.startedAt.Keys
    && (forall w | w in s.watchers :: w.1.promise !in s.settled)
    && (forall k | k in s.inFlight ::
          && s.inFlight[k].id < s.created
          && (s.inFlight[k].promise in s.settled ==> RemovalQueued(s.jobs, |s.jobs|, k, s.inFlight[k].id))
          && (s.inFlight[k].promise !in s.settled ==> (k, s.inFlight[k]) in s.watchers))
  }

  /** An entry that had settled before a late caller called is removed before that caller decides. */
  predicate Ordered(s: State) {
    forall i | 0 <= i < |s.jobs| && s.jobs[i].Decide? ::
      && s.jobs[i].called.entries <= s.created && s.jobs[i].called.settled <= s.settled
      && forall k | k in s.inFlight && s.inFlight[k].id < s.jobs[i].called.entries
                    && s.inFlight[k].promise in s.jobs[i].called.settled ::
           RemovalQueued(s.jobs, i, k, s.inFlight[k].id)
  }

  predicate Inv(s: State) {
    Tracked(s) && Ordered(s)
  }

  lemma AppendQueued(jobs: seq<Job>, more: seq<Job>, n: nat, key: string, id: nat)
    requires RemovalQueued(jobs, n, key, id)
    ensures RemovalQueued(jobs + more, n, key, id) && RemovalQueued(jobs + more, |jobs + more|, key, id)
  {
    assert (jobs + more)[..n] == jobs[..n];
    assert (jobs + more)[..|jobs + more|] == jobs + more;
    assert Cleanup(key, id) in jobs;
  }

  lemma {:induction false} CleanupsCover(ws: seq<(string, Entry)>, p: Promise)
    ensures forall w | w in ws && w.1.promise == p :: Cleanup(w.0, w.1.id) in CleanupsFor(ws, p)
    ensures forall j | j in CleanupsFor(ws, p) :: j.Cleanup?
  {
    if ws != [] {
      CleanupsCover(ws[..|ws| - 1], p);
      assert ws == ws[..|ws| - 1] + [ws[|ws| - 1]];
    }
  }

  /** Jobs without decisions may be appended and promises settled: what was ordered stays ordered. */
  lemma OrderedExtends(s: State, s': State, more: seq<Job>)
    requires Ordered(s) && s'.jobs == s.jobs + more && (forall j | j in more :: !j.Decide?)
    requires s.settled <= s'.settled && s.created <= s'.created
    requires forall k | k in s'.inFlight ::
      s'.inFlight[k].id >= s.created || (k in s.inFlight && s'.inFlight[k] == s.inFlight[k])
    ensures Ordered(s')
  {
    assert forall i | |s.jobs| <= i < |s'.jobs| :: s'.jobs[i] == more[i - |s.jobs|];
    forall i, k | 0 <= i < |s'.jobs| && s'.jobs[i].Decide? && k in s'.inFlight
                  && s'.inFlight[k].id < s'.jobs[i].called.entries
                  && s'.inFlight[k].promise in s'.jobs[i].called.settled
      ensures RemovalQueued(s'.jobs, i, k, s'.inFlight[k].id)
    {
      assert s'.jobs[i] == s.jobs[i];
      AppendQueued(s.jobs, more, i, k, s.inFlight[k].id);
    }
    forall i | 0 <= i < |s'.jobs| && s'.jobs[i].Decide?
      ensures s'.jobs[i].called.entries <= s'.created && s'.jobs[i].called.settled <= s'.settled
    {
      assert s'.jobs[i] == s.jobs[i];
    }
  }

  lemma CountersDoNotMatter(s: State, requests: nat, started: nat, deduplicated: nat)
    requires Inv(s)
    ensures Inv(s.(requests := requests, started := started, deduplicated := deduplicated))
  {
  }

  lemma SettleKeeps(s: State, p: Promise)
    requires Inv(s)
    ensures Inv(Settle(s, p))
  {
    if p !in s.settled {
      var s', more := Settle(s, p), CleanupsFor(s.watchers, p);
      CleanupsCover(s.watchers, p);
      FilterElements(s.watchers, (w: (string, Entry)) => w.1.promise != p);
      OrderedExtends(s, s', more);
      forall k | k in s'.inFlight && s'.inFlight[k].promise in s'.settled
        ensures RemovalQueued(s'.jobs, |s'.jobs|, k, s'.inFlight[k].id)
      {
        if s.inFlight[k].promise == p {
          assert (k, s.inFlight[k]) in s.watchers;
          assert s'.jobs[..|s'.jobs|] == s'.jobs;
        } else {
          AppendQueued(s.jobs, more, |s.jobs|, k, s.inFlight[k].id);
        }
      }
    }
  }

  lemma StartKeeps(s: State, key: string, made: Made, now: int)
    requires Inv(s)
    ensures Inv(Start(s, key, made, now))
  {
    CountersDoNotMatter(s, s.requests, s.started + 1, s.deduplicated);
    SettleKeeps(s.(started := s.started + 1), made.promise);
    var s1 := Invoke(s.(started := s.started + 1), made);
    RegisterKeeps(s1, key, Entry(s1.created, made.promise), now);
  }

  lemma RegisterKeeps(s1: State, key: string, e: Entry, now: int)
    requires Inv(s1) && e.id == s1.created
    ensures Inv(Register(s1, key, e, now))
  {
    var s' := Register(s1, key, e, now);
    var more := RegisterJobs(s1, key, e);
    OrderedExtends(s1, s', more);
    forall k | k in s'.inFlight && s'.inFlight[k].promise in s'.settled
      ensures RemovalQueued(s'.jobs, |s'.jobs|, k, s'.inFlight[k].id)
    {
      assert s'.jobs[..|s'.jobs|] == s'.jobs;
      if k == key {
        assert more[1] == Cleanup(key, e.id);
      } else {
        AppendQueued(s1.jobs, more, |s1.jobs|, k, s1.inFlight[k].id);
      }
    }
  }

  /** Taking the head off the queue is safe once its effect has been applied. */
  lemma PopKeeps(s: State, s': State)
    requires Inv(s) && s.jobs != []
    requires s'.jobs == s.jobs[1..] && s'.settled == s.settled && s'.created == s.created && s'.watchers == s.watchers
    requires s'.inFlight.Keys == s'.startedAt.Keys
    requires forall k | k in s'.inFlight :: k in s.inFlight && s'.inFlight[k] == s.inFlight[k]
                                            && s.jobs[0] != Cleanup(k, s.inFlight[k].id)
    ensures Inv(s')
  {
    forall n: nat, k, id | 0 < n <= |s.jobs| && RemovalQueued(s.jobs, n, k, id) && s.jobs[0] != Cleanup(k, id)
      ensures RemovalQueued(s'.jobs, n - 1, k, id)
    {
      assert s.jobs[..n] == [s.jobs[0]] + s'.jobs[..n - 1];
    }
    forall i, k | 0 <= i < |s'.jobs| && s'.jobs[i].Decide? && k in s'.inFlight
                  && s'.inFlight[k].id < s'.jobs[i].called.entries
                  && s'.inFlight[k].promise in s'.jobs[i].called.settled
      ensures RemovalQueued(s'.jobs, i, k, s'.inFlight[k].id)
    {
      assert s'.jobs[i] == s.jobs[i + 1];
      assert RemovalQueued(s.jobs, i + 1, k, s.inFlight[k].id);
    }
  }

  lemma RunJobKeeps(s: State, made: Made, now: int)
    requires Inv(s)
    ensures Inv(RunJob(s, made, now))
  {
    if s.jobs != [] {
      var s1 := s.(jobs := s.jobs[1..]);
      match s.jobs[0]
      case ClearTick(id) =>
        PopKeeps(s, RunJob(s, made, now));
      case Cleanup(key, id) =>
        PopKeeps(s, RunJob(s, made, now));
      case Decide(key, maxAge, called) =>
        PopKeeps(s, s1);
        if StillJoinable(s1, key, maxAge, now) {
          CountersDoNotMatter(s1, s1.requests, s1.started, s1.deduplicated + 1);
        } else {
          StartKeeps(s1, key, made, now);
        }
    }
  }

  lemma DeferKeeps(s: State, job: Job)
    requires Inv(s) && job.Decide? && job.called == Moment(s.created, s.settled)
    ensures Inv(s.(jobs := s.jobs + [job]))
  {
    var s' := s.(jobs := s.jobs + [job]);
    forall k | k in s'.inFlight && s'.inFlight[k].promise in s'.settled
      ensures RemovalQueued(s'.jobs, |s'.jobs|, k, s'.inFlight[k].id)
      ensures RemovalQueued(s'.jobs, |s.jobs|, k, s'.inFlight[k].id)
    {
      AppendQueued(s.jobs, [job], |s.jobs|, k, s.inFlight[k].id);
    }
    forall i, k | 0 <= i < |s.jobs| && s.jobs[i].Decide? && k in s.inFlight
                  && s.inFlight[k].id < s.jobs[i].called.entries && s.inFlight[k].promise in s.jobs[i].called.settled
      ensures RemovalQueued(s'.jobs, i, k, s.inFlight[k].id)
    {
      AppendQueued(s.jobs, [job], i, k, s.inFlight[k].id);
    }
  }

  lemma HandleKeeps(s: State, verdict: Verdict, maxAge: Option<int>, made: Made, now: int)
    requires Inv(s)
    ensures Inv(Handle(s, verdict, maxAge, made, now))
  {
    match verdict
    case BadKey =>
    case JoinNow(_) => CountersDoNotMatter(s, s.requests, s.started, s.deduplicated + 1);
    case Bypass =>
      CountersDoNotMatter(s, s.requests, s.started + 1, s.deduplicated);
      SettleKeeps(s.(started := s.started + 1), made.promise);
    case StartNow(key) => StartKeeps(s, key, made, now);
    case Defer(key) => DeferKeeps(s, Decide(key, maxAge, Moment(s.created, s.settled)));
  }

  lemma StepKeeps(s: State, enabled: bool, ev: Event)
    requires Inv(s)
    ensures Inv(Step(s, enabled, ev))
  {
    match ev
    case Call(key, forceNew, maxAge, made, now) =>
      CountersDoNotMatter(s, s.requests + 1, s.started, s.deduplicated);
      HandleKeeps(Counted(s), Classify(Counted(s), enabled, key, forceNew, maxAge, now), maxAge, made, now);
    case Settles(p) => SettleKeeps(s, p);
    case Microtask(made, now) => RunJobKeeps(s, made, now);
    case ClearEvent =>
    case ResetEvent =>
  }

  /** In every reachable state the two tables agree, and every settled entry has its removal queued. */
  lemma {:induction false} RunKeeps(enabled: bool, evs: seq<Event>)
    ensures Inv(Run(enabled, evs))
  {
    if evs != [] {
      RunKeeps(enabled, evs[..|evs| - 1]);
      StepKeeps(Run(enabled, evs[..|evs| - 1]), enabled, evs[|evs| - 1]);
    }
  }

  /** Once the microtask queue has drained, everything still in flight is really pending. */
  lemma DrainedMeansPending(enabled: bool, evs: seq<Event>, k: string)
    requires Run(enabled, evs).jobs == [] && k in Run(enabled, evs).inFlight
    ensures Run(enabled, evs).inFlight[k].promise !in Run(enabled, evs).settled
  {
    RunKeeps(enabled, evs);
  }

  /**
    A late caller that joins never gets a promise settled before it called, unless the entry itself was
    created after the call by a factory handing out an old promise.
    */
  lemma LateJoinIsNotStale(enabled: bool, evs: seq<Event>, now: int)
    requires var s := Run(enabled, evs);
      s.jobs != [] && s.jobs[0].Decide? && StillJoinable(s, s.jobs[0].key, s.jobs[0].maxAge, now)
    ensures var s := Run(enabled, evs);
      var e, called := s.inFlight[s.jobs[0].key], s.jobs[0].called;
      e.promise in called.settled ==> e.id >= called.entries
  {
    RunKeeps(enabled, evs);
  }

  /** A late caller of `key` is queued who called after `p` had settled. */
  predicate SeenSettled(jobs: seq<Job>, key: string, p: Promise) {
    exists j :: j in jobs && j.Decide? && j.key == key && p in j.called.settled
  }

  /** No queued late caller faces an entry that is newer than its call and yet holds a promise settled before it. */
  predicate NoStaleEntry(s: State) {
    forall j | j in s.jobs && j.Decide? && j.key in s.inFlight && s.inFlight[j.key].id >= j.called.entries ::
      s.inFlight[j.key].promise !in j.called.settled
  }

  /** The key under which this event starts a request, if it does. */
  function StartedKey(s: State, enabled: bool, ev: Event): Option<string> {
    match ev
    case Call(key, forceNew, maxAge, _, now) =>
      var verdict := Classify(Counted(s), enabled, key, forceNew, maxAge, now);
      if verdict.StartNow? then Some(verdict.key) else None
    case Microtask(_, now) =>
      if s.jobs != [] && s.jobs[0].Decide? && !StillJoinable(s, s.jobs[0].key, s.jobs[0].maxAge, now)
      then Some(s.jobs[0].key) else None
    case _ => None
  }

  /** This event starts a request with a promise that a late caller waiting for the same key has seen settled. */
  predicate Reuses(s: State, enabled: bool, ev: Event) {
    && StartedKey(s, enabled, ev).Some?
    && SeenSettled(if ev.Microtask? then s.jobs[1..] else s.jobs, StartedKey(s, enabled, ev).value, ev.made.promise)
  }

  lemma JobsAppended(jobs: seq<Job>, more: seq<Job>, key: string, p: Promise)
    requires forall j | j in more :: !j.Decide?
    ensures forall j: Job | j.Decide? :: j in jobs + more <==> j in jobs
    ensures SeenSettled(jobs + more, key, p) <==> SeenSettled(jobs, key, p)
  {
    assert forall j :: j in jobs + more <==> j in jobs || j in more;
  }

  lemma StartJobs(s: State, key: string, made: Made, now: int) returns (more: seq<Job>)
    ensures (forall j | j in more :: !j.Decide?) && Start(s, key, made, now).jobs == s.jobs + more
    ensures Start(s, key, made, now).inFlight == s.inFlight[key := Entry(s.created, made.promise)]
  {
    CleanupsCover(s.watchers, made.promise);
    var s1 := Invoke(s.(started := s.started + 1), made);
    var settling := if made.settles && made.promise !in s.settled then CleanupsFor(s.watchers, made.promise) else [];
    more := settling + RegisterJobs(s1, key, Entry(s1.created, made.promise));
    assert s1.jobs == s.jobs + settling;
  }

  /**
    Starting a request leaves a stale entry behind exactly if a late caller of its key has seen its promise settled.
    */
  lemma StartStale(s: State, key: string, made: Made, now: int)
    requires Inv(s) && NoStaleEntry(s)
    ensures NoStaleEntry(Start(s, key, made, now)) <==> !SeenSettled(s.jobs, key, made.promise)
  {
    var s' := Start(s, key, made, now);
    var more := StartJobs(s, key, made, now);
    JobsAppended(s.jobs, more, key, made.promise);
    if j :| j in s.jobs && j.Decide? && j.key == key && made.promise in j.called.settled {
      var i :| 0 <= i < |s.jobs| && s.jobs[i] == j;
      assert j in s'.jobs && s'.inFlight[key].id >= j.called.entries;
    }
  }

  lemma SettleStale(s: State, p: Promise)
    requires NoStaleEntry(s)
    ensures NoStaleEntry(Settle(s, p))
  {
    CleanupsCover(s.watchers, p);
    JobsAppended(s.jobs, CleanupsFor(s.watchers, p), "", p);
  }

  lemma HandleStale(s: State, verdict: Verdict, maxAge: Option<int>, made: Made, now: int)
    requires Inv(s) && NoStaleEntry(s)
    ensures NoStaleEntry(Handle(s, verdict, maxAge, made, now))
       <==> !(verdict.StartNow? && SeenSettled(s.jobs, verdict.key, made.promise))
  {
    match verdict
    case BadKey =>
    case JoinNow(_) =>
    case Bypass => SettleStale(s.(started := s.started + 1), made.promise);
    case StartNow(key) => StartStale(s, key, made, now);
    case Defer(key) =>
      var job := Decide(key, maxAge, Moment(s.created, s.settled));
      assert forall j :: j in s.jobs + [job] <==> j in s.jobs || j == job;
  }

  lemma RunJobStale(s: State, made: Made, now: int)
    requires Inv(s) && NoStaleEntry(s) && s.jobs != []
    ensures NoStaleEntry(RunJob(s, made, now)) <==>
      !(s.jobs[0].Decide? && !StillJoinable(s, s.jobs[0].key, s.jobs[0].maxAge, now)
        && SeenSettled(s.jobs[1..], s.jobs[0].key, made.promise))
  {
    var s1 := s.(jobs := s.jobs[1..]);
    assert forall j | j in s1.jobs :: j in s.jobs;
    if s.jobs[0].Decide? && !StillJoinable(s1, s.jobs[0].key, s.jobs[0].maxAge, now) {
      PopKeeps(s, s1);
      StartStale(s1, s.jobs[0].key, made, now);
    }
  }

  /** The exact condition, step by step. */
  lemma StepStale(s: State, enabled: bool, ev: Event)
    requires Inv(s) && NoStaleEntry(s)
    ensures NoStaleEntry(Step(s, enabled, ev)) <==> !Reuses(s, enabled, ev)
  {
    match ev
    case Call(key, forceNew, maxAge, made, now) =>
      CountersDoNotMatter(s, s.requests + 1, s.started, s.deduplicated);
      HandleStale(Counted(s), Classify(Counted(s), enabled, key, forceNew, maxAge, now), maxAge, made, now);
    case Settles(p) => SettleStale(s, p);
    case Microtask(made, now) => if s.jobs != [] { RunJobStale(s, made, now); }
    case ClearEvent =>
    case ResetEvent =>
  }

  ghost predicate NeverStale(enabled: bool, evs: seq<Event>) {
    forall k | 0 <= k <= |evs| :: NoStaleEntry(Run(enabled, evs[..k]))
  }

  ghost predicate NeverReuses(enabled: bool, evs: seq<Event>) {
    forall k | 0 <= k < |evs| :: !Reuses(Run(enabled, evs[..k]), enabled, evs[k])
  }

  lemma StaleShorter(enabled: bool, evs: seq<Event>, n: nat)
    requires n <= |evs|
    ensures NeverStale(enabled, evs) ==> NeverStale(enabled, evs[..n])
    ensures NeverReuses(enabled, evs) ==> NeverReuses(enabled, evs[..n])
  {
    assert forall k | 0 <= k <= n :: evs[..n][..k] == evs[..k];
  }

  lemma {:induction false} ReusesNothing(enabled: bool, evs: seq<Event>)
    requires NeverReuses(enabled, evs)
    ensures NoStaleEntry(Run(enabled, evs))
  {
    if evs != [] {
      var n := |evs| - 1;
      StaleShorter(enabled, evs, n);
      ReusesNothing(enabled, evs[..n]);
      RunKeeps(enabled, evs[..n]);
      StepStale(Run(enabled, evs[..n]), enabled, evs[n]);
    }
  }

  /**
    The exact condition over a run: no late caller ever faces a newer entry with a promise it saw settled if and only
    if no request is started with a promise that a late caller waiting for the same key has seen settled.
    */
  lemma NeverStaleIffNeverReuses(enabled: bool, evs: seq<Event>)
    ensures NeverStale(enabled, evs) <==> NeverReuses(enabled, evs)
  {
    if NeverReuses(enabled, evs) {
      forall k | 0 <= k <= |evs|
        ensures NoStaleEntry(Run(enabled, evs[..k]))
      {
        StaleShorter(enabled, evs, k);
        ReusesNothing(enabled, evs[..k]);
      }
    }
    if NeverStale(enabled, evs) {
      forall k | 0 <= k < |evs|
        ensures !Reuses(Run(enabled, evs[..k]), enabled, evs[k])
      {
        RunKeeps(enabled, evs[..k]);
        assert evs[..k + 1][..k] == evs[..k] && NoStaleEntry(Run(enabled, evs[..k + 1]));
        StepStale(Run(enabled, evs[..k]), enabled, evs[k]);
      }
    }
  }

  /** Then no late caller ever joins a promise settled before it called. */
  lemma LateCallerNeverGetsSettled(enabled: bool, evs: seq<Event>, now: int)
    requires NeverReuses(enabled, evs)
    requires var s := Run(enabled, evs);
      s.jobs != [] && s.jobs[0].Decide? && StillJoinable(s, s.jobs[0].key, s.jobs[0].maxAge, now)
    ensures var s := Run(enabled, evs);
      s.inFlight[s.jobs[0].key].promise !in s.jobs[0].called.settled
  {
    LateJoinIsNotStale(enabled, evs, now);
    ReusesNothing(enabled, evs);
    assert Run(enabled, evs).jobs[0] in Run(enabled, evs).jobs;
  }

  /** Event `k` started the request of `key` whose entry is `e`, and that entry has stayed the one in flight since. */
  ghost predicate StartedAndStayed(enabled: bool, evs: seq<Event>, k: nat, key: string, e: Entry) {
    && k < |evs|
    && StartedKey(Run(enabled, evs[..k]), enabled, evs[k]) == Some(key)
    && e == Entry(Run(enabled, evs[..k]).created, evs[k].made.promise)
    && forall m | k < m <= |evs| :: InFlightAs(Run(enabled, evs[..m]), key, e)
  }

  predicate InFlightAs(s: State, key: string, e: Entry) {
    key in s.inFlight && s.inFlight[key] == e
  }

  lemma StepInFlight(s: State, enabled: bool, ev: Event, key: string)
    requires key in Step(s, enabled, ev).inFlight
    ensures if StartedKey(s, enabled, ev) == Some(key)
            then Step(s, enabled, ev).inFlight[key] == Entry(s.created, ev.made.promise)
            else InFlightAs(s, key, Step(s, enabled, ev).inFlight[key])
  {
  }

  /** Every entry in flight was started by some event, and has stayed since. */
  lemma {:induction false} EntryOrigin(enabled: bool, evs: seq<Event>, key: string) returns (k: nat)
    requires key in Run(enabled, evs).inFlight
    ensures StartedAndStayed(enabled, evs, k, key, Run(enabled, evs).inFlight[key])
  {
    var n := |evs| - 1;
    var s, e := Run(enabled, evs[..n]), Run(enabled, evs).inFlight[key];
    StepInFlight(s, enabled, evs[n], key);
    assert evs[..n + 1] == evs;
    if StartedKey(s, enabled, evs[n]) == Some(key) {
      k := n;
    } else {
      k := EntryOrigin(enabled, evs[..n], key);
      StaysOn(enabled, evs, k, key, e);
    }
  }

  lemma StaysOn(enabled: bool, evs: seq<Event>, k: nat, key: string, e: Entry)
    requires evs != [] && StartedAndStayed(enabled, evs[..|evs| - 1], k, key, e)
    requires InFlightAs(Run(enabled, evs), key, e)
    ensures StartedAndStayed(enabled, evs, k, key, e)
  {
    var n := |evs| - 1;
    assert evs[..n][..k] == evs[..k] && evs[..n + 1] == evs;
    forall m | k < m <= |evs|
      ensures InFlightAs(Run(enabled, evs[..m]), key, e)
    {
      if m <= n { assert evs[..n][..m] == evs[..m]; }
    }
  }

  /**
    What the caller observes: a late caller that joins gets a promise it saw settled exactly if, after it called, a
    request of its key was started with such a promise, and nothing has removed or replaced that entry since.
    */
  lemma JoinsSettledIff(enabled: bool, evs: seq<Event>, now: int)
    requires var s := Run(enabled, evs);
      s.jobs != [] && s.jobs[0].Decide? && StillJoinable(s, s.jobs[0].key, s.jobs[0].maxAge, now)
    ensures var s := Run(enabled, evs);
      var key, called := s.jobs[0].key, s.jobs[0].called;
      s.inFlight[key].promise in called.settled <==>
        exists k, e :: StartedAndStayed(enabled, evs, k, key, e) && e.id >= called.entries
            && e.promise in called.settled
  {
    var s := Run(enabled, evs);
    var key, called := s.jobs[0].key, s.jobs[0].called;
    LateJoinIsNotStale(enabled, evs, now);
    if s.inFlight[key].promise in called.settled {
      var k := EntryOrigin(enabled, evs, key);
    }
    forall k, e | StartedAndStayed(enabled, evs, k, key, e)
      ensures s.inFlight[key] == e
    {
      assert evs[..|evs|] == evs && InFlightAs(Run(enabled, evs[..|evs|]), key, e);
    }
  }

  /** A request for "k" whose factory returns promise `p`, pending or settled before. */
  function ExampleCall(forceNew: bool, p: Promise): Event {
    Call(Some("k"), forceNew, None, Made(p, false), 0)
  }

  lemma ExampleLateCall(s: State)
    requires s.inFlight == map[] && s.startedAt == map[] && s.jobs == [] && s.settled == {7} && s.created == 0
    ensures var s1 := Step(s, true, ExampleCall(false, 1));
      var s2 := Step(s1, true, Microtask(Made(9, false), 0));
      var s3 := Step(s2, true, ExampleCall(false, 2));
      && s3.jobs == [Decide("k", None, Moment(1, {7}))] && s3.created == 1 && s3.settled == {7}
      && s3.inFlight == map["k" := Entry(0, 1)] && s3.startedAt == map["k" := 0]
  {
    var s1 := Step(s, true, ExampleCall(false, 1));
    assert s1.jobs == [ClearTick(0)] && s1.inFlight == map["k" := Entry(0, 1)] && s1.startedAt == map["k" := 0];
    var s2 := Step(s1, true, Microtask(Made(9, false), 0));
    assert s2.jobs == [] && 0 !in s2.ticking && s2.inFlight == s1.inFlight && s2.startedAt == s1.startedAt;
  }

  /**
    A forced replacement reusing a settled promise reaches a caller who called before it: promise 7 has settled; a
    request is started, ends its creation tick, gets a late caller, and is then replaced.
    */
  lemma ReusedPromiseReachesLateCaller()
    ensures var s := Run(true, [Settles(7), ExampleCall(false, 1), Microtask(Made(9, false), 0),
                                ExampleCall(false, 2), ExampleCall(true, 7)]);
      && s.jobs != [] && s.jobs[0].Decide? && StillJoinable(s, s.jobs[0].key, s.jobs[0].maxAge, 0)
      && s.inFlight[s.jobs[0].key].promise in s.jobs[0].called.settled
  {
    var evs := [Settles(7), ExampleCall(false, 1), Microtask(Made(9, false), 0), ExampleCall(false, 2),
                ExampleCall(true, 7)];
    assert evs[..1][..0] == [] && evs[..2][..1] == evs[..1] && evs[..3][..2] == evs[..2] && evs[..4][..3] == evs[..3];
    var s0, s3 := Run(true, evs[..1]), Run(true, evs[..4]);
    assert s0 == Settle(Run(true, evs[..1][..0]), 7);
    ExampleLateCall(s0);
    assert s3 == Step(Run(true, evs[..3]), true, ExampleCall(false, 2));
    assert Run(true, evs[..3]) == Step(Run(true, evs[..2]), true, Microtask(Made(9, false), 0));
    assert Run(true, evs[..2]) == Step(s0, true, ExampleCall(false, 1));
    assert Run(true, evs) == Step(s3, true, ExampleCall(true, 7));
    assert Run(true, evs).jobs[0] == s3.jobs[0] && Run(true, evs).inFlight["k"] == Entry(1, 7);
  }

  // ---- What a call does ----

  /** A request of this key is in flight, and this caller accepts its age. */
  predicate Joinable(s: State, key: string, forceNew: bool, maxAge: Option<int>, now: int) {
    && key in s.inFlight && !forceNew
    && (maxAge.None? || (key in s.startedAt && now - s.startedAt[key] <= maxAge.value))
  }

  /** A request of `key` has been started: a new entry, within its creation turn, is in flight. */
  predicate Began(s: State, s': State, key: string, made: Made, now: int) {
    && s'.started == s.started + 1 && s'.deduplicated == s.deduplicated && s'.created == s.created + 1
    && s'.inFlight == s.inFlight[key := Entry(s.created, made.promise)] && s'.startedAt == s.startedAt[key := now]
    && s'.ticking == s.ticking + {s.created} && s'.settled == s.settled + (if made.settles then {made.promise} else {})
    && s.jobs <= s'.jobs && ClearTick(s.created) in s'.jobs[|s.jobs|..]
  }

  lemma StartBegins(s: State, key: string, made: Made, now: int)
    ensures Began(s, Start(s, key, made, now), key, made, now)
  {
    var s1 := Invoke(s.(started := s.started + 1), made);
    var s' := Start(s, key, made, now);
    assert s'.jobs == s1.jobs + RegisterJobs(s1, key, Entry(s1.created, made.promise));
    assert s'.jobs[|s1.jobs|] == ClearTick(s.created);
  }

  predicate TablesAgree(s: State) {
    s.inFlight.Keys == s.startedAt.Keys
  }

  lemma RunTablesAgree(enabled: bool, evs: seq<Event>)
    ensures TablesAgree(Run(enabled, evs))
  {
    RunKeeps(enabled, evs);
  }

  lemma RunGrows(enabled: bool, evs: seq<Event>, ev: Event)
    ensures Run(enabled, evs + [ev]) == Step(Run(enabled, evs), enabled, ev)
  {
    assert (evs + [ev])[..|evs|] == evs;
  }

  lemma YoungMeans(s: State, key: string, forceNew: bool, maxAge: Option<int>, now: int)
    requires TablesAgree(s)
    ensures Joinable(s, key, forceNew, maxAge, now) <==>
      key in s.inFlight && !forceNew && YoungEnough(Counted(s), key, maxAge, now)
    ensures Joinable(s, key, false, maxAge, now) <==> StillJoinable(s, key, maxAge, now)
  {
  }

  lemma ClassifyMeans(s: State, key: string, forceNew: bool, maxAge: Option<int>, now: int)
    requires TablesAgree(s)
    ensures Classify(Counted(s), true, Some(key), forceNew, maxAge, now)
         == if !Joinable(s, key, forceNew, maxAge, now) then StartNow(key)
            else if s.inFlight[key].id in s.ticking then JoinNow(key) else Defer(key)
  {
    YoungMeans(s, key, forceNew, maxAge, now);
  }

  /**
    A joinable request is joined within the turn that created it, changing nothing but the counters; in a later turn
    the caller is handed nothing yet and decides after the jobs already queued; otherwise a request is started.
    */
  predicate JoinsDefersOrStarts(s: State, s': State, handed: Option<Promise>, key: string, forceNew: bool,
                                maxAge: Option<int>, made: Made, now: int) {
    if !Joinable(s, key, forceNew, maxAge, now) then
      Began(s, s', key, made, now) && s'.requests == s.requests + 1 && handed == Some(made.promise)
    else if s.inFlight[key].id in s.ticking then
      && s' == s.(requests := s.requests + 1, deduplicated := s.deduplicated + 1)
      && handed == Some(s.inFlight[key].promise)
    else
      && s' == s.(requests := s.requests + 1, jobs := s.jobs + [Decide(key, maxAge, Moment(s.created, s.settled))])
      && handed == None
  }

  lemma CallByVerdict(s: State, key: string, forceNew: bool, maxAge: Option<int>, made: Made, now: int, v: Verdict)
    requires v == if !Joinable(s, key, forceNew, maxAge, now) then StartNow(key)
                  else if s.inFlight[key].id in s.ticking then JoinNow(key) else Defer(key)
    ensures JoinsDefersOrStarts(s, Handle(Counted(s), v, maxAge, made, now), HandedNow(Counted(s), v, made),
                                key, forceNew, maxAge, made, now)
  {
    if v.StartNow? {
      StartBegins(Counted(s), key, made, now);
    }
  }

  lemma OneCall(s: State, key: string, forceNew: bool, maxAge: Option<int>, made: Made, now: int)
    requires TablesAgree(s)
    ensures JoinsDefersOrStarts(s, Dedupe(s, true, Some(key), forceNew, maxAge, made, now),
                                DedupeHands(s, true, Some(key), forceNew, maxAge, made, now),
                                key, forceNew, maxAge, made, now)
  {
    ClassifyMeans(s, key, forceNew, maxAge, now);
    CallByVerdict(s, key, forceNew, maxAge, made, now, Classify(Counted(s), true, Some(key), forceNew, maxAge, now));
  }

  /** In every reachable state, this is what a call with a good key does. */
  lemma CallJoinsDefersOrStarts(evs: seq<Event>, key: string, forceNew: bool, maxAge: Option<int>, made: Made, now: int)
    ensures var s := Run(true, evs);
      JoinsDefersOrStarts(s, Run(true, evs + [Call(Some(key), forceNew, maxAge, made, now)]),
                          DedupeHands(s, true, Some(key), forceNew, maxAge, made, now),
                          key, forceNew, maxAge, made, now)
  {
    RunTablesAgree(true, evs);
    RunGrows(true, evs, Call(Some(key), forceNew, maxAge, made, now));
    OneCall(Run(true, evs), key, forceNew, maxAge, made, now);
  }

  lemma OneDecision(s: State, made: Made, now: int)
    requires TablesAgree(s) && s.jobs != [] && s.jobs[0].Decide?
    ensures var rest := s.(jobs := s.jobs[1..]);
      if Joinable(s, s.jobs[0].key, false, s.jobs[0].maxAge, now)
      then RunJob(s, made, now) == rest.(deduplicated := s.deduplicated + 1)
      else Began(rest, RunJob(s, made, now), s.jobs[0].key, made, now)
  {
    var rest := s.(jobs := s.jobs[1..]);
    YoungMeans(rest, s.jobs[0].key, false, s.jobs[0].maxAge, now);
    if !Joinable(s, s.jobs[0].key, false, s.jobs[0].maxAge, now) {
      StartBegins(rest, s.jobs[0].key, made, now);
    }
  }

  /** When it comes to decide, a late caller joins what is joinable then, and otherwise starts a request of its own. */
  lemma LateCallerDecides(enabled: bool, evs: seq<Event>, made: Made, now: int)
    requires Run(enabled, evs).jobs != [] && Run(enabled, evs).jobs[0].Decide?
    ensures var s, s' := Run(enabled, evs), Run(enabled, evs + [Microtask(made, now)]);
      var rest := s.(jobs := s.jobs[1..]);
      if Joinable(s, s.jobs[0].key, false, s.jobs[0].maxAge, now)
      then s' == rest.(deduplicated := s.deduplicated + 1)
      else Began(rest, s', s.jobs[0].key, made, now)
  {
    RunTablesAgree(enabled, evs);
    RunGrows(enabled, evs, Microtask(made, now));
    OneDecision(Run(enabled, evs), made, now);
  }

  /** Every entry in its creation turn has the end of that turn queued. */
  predicate TicksQueued(s: State) {
    forall id | id in s.ticking :: ClearTick(id) in s.jobs
  }

  lemma MoreJobsTick(s: State, s': State)
    requires TicksQueued(s) && s.jobs <= s'.jobs
    requires forall id | id in s'.ticking :: id in s.ticking || ClearTick(id) in s'.jobs
    ensures TicksQueued(s')
  {
    assert forall j | j in s.jobs :: j in s'.jobs;
  }

  lemma StepTicksQueued(s: State, enabled: bool, ev: Event)
    requires TicksQueued(s) && TablesAgree(s)
    ensures TicksQueued(Step(s, enabled, ev))
  {
    var s' := Step(s, enabled, ev);
    match ev
    case Call(key, forceNew, maxAge, made, now) =>
      if enabled && key.Some? { OneCall(s, key.value, forceNew, maxAge, made, now); }
      MoreJobsTick(s, s');
    case Microtask(made, now) => if s.jobs != [] { MicrotaskTicks(s, made, now); }
    case _ => MoreJobsTick(s, s');
  }

  lemma MicrotaskTicks(s: State, made: Made, now: int)
    requires TicksQueued(s) && TablesAgree(s) && s.jobs != []
    ensures TicksQueued(RunJob(s, made, now))
  {
    var rest := s.(jobs := s.jobs[1..], ticking := s.ticking - if s.jobs[0].ClearTick? then {s.jobs[0].id} else {});
    assert s.jobs == [s.jobs[0]] + s.jobs[1..];
    assert TicksQueued(rest);
    if s.jobs[0].Decide? { OneDecision(s, made, now); }
    MoreJobsTick(rest, RunJob(s, made, now));
  }

  /** Once the microtasks have drained, every request in flight is past its creation turn: callers must wait. */
  lemma {:induction false} TurnEndsWithMicrotasks(enabled: bool, evs: seq<Event>)
    ensures TicksQueued(Run(enabled, evs))
    ensures Run(enabled, evs).jobs == [] ==> Run(enabled, evs).ticking == {}
  {
    if evs != [] {
      var n := |evs| - 1;
      TurnEndsWithMicrotasks(enabled, evs[..n]);
      RunTablesAgree(enabled, evs[..n]);
      StepTicksQueued(Run(enabled, evs[..n]), enabled, evs[n]);
    }
  }

  /** With deduplication disabled every call starts a request of its own, and none is ever in flight. */
  lemma {:induction false} DisabledTracksNothing(evs: seq<Event>)
    ensures Run(false, evs).inFlight == map[] && Run(false, evs).deduplicated == 0 && Run(false, evs).jobs == []
    ensures Run(false, evs).watchers == []
  {
    if evs != [] { DisabledTracksNothing(evs[..|evs| - 1]); }
  }

  lemma DisabledStartsEach(evs: seq<Event>, key: string, forceNew: bool, maxAge: Option<int>, made: Made, now: int)
    ensures var s, s' := Run(false, evs), Run(false, evs + [Call(Some(key), forceNew, maxAge, made, now)]);
      && s'.requests == s.requests + 1 && s'.started == s.started + 1
      && DedupeHands(s, false, Some(key), forceNew, maxAge, made, now) == Some(made.promise)
  {
    RunGrows(false, evs, Call(Some(key), forceNew, maxAge, made, now));
  }

  // ---- How long a request stays in flight ----

  /** A queued or awaited removal concerns the entry it was made for, and is queued only once that has settled. */
  predicate RemovalsAreDue(s: State) {
    && (forall w | w in s.watchers :: w.1.id < s.created
          && (w.0 in s.inFlight && s.inFlight[w.0].id == w.1.id ==> s.inFlight[w.0] == w.1))
    && (forall j | j in s.jobs && j.Cleanup? :: j.id < s.created
          && (j.key in s.inFlight && s.inFlight[j.key].id == j.id ==> s.inFlight[j.key].promise in s.settled))
  }

  lemma {:induction false} CleanupsOf(ws: seq<(string, Entry)>, p: Promise)
    ensures forall j | j in CleanupsFor(ws, p) ::
      j.Cleanup? && exists w :: w in ws && w.1.promise == p && j == Cleanup(w.0, w.1.id)
  {
    if ws != [] {
      var n := |ws| - 1;
      CleanupsOf(ws[..n], p);
      assert ws == ws[..n] + [ws[n]];
      assert forall w | w in ws[..n] :: w in ws;
    }
  }

  lemma SettleDue(s: State, p: Promise)
    requires RemovalsAreDue(s)
    ensures RemovalsAreDue(Settle(s, p))
  {
    if p !in s.settled {
      CleanupsOf(s.watchers, p);
      FilterElements(s.watchers, (w: (string, Entry)) => w.1.promise != p);
    }
  }

  lemma RegisterDue(s: State, key: string, e: Entry, now: int)
    requires RemovalsAreDue(s) && e.id == s.created
    ensures RemovalsAreDue(Register(s, key, e, now))
  {
    assert forall j | j in RegisterJobs(s, key, e) && j.Cleanup? :: j == Cleanup(key, e.id) && e.promise in s.settled;
    assert forall w | w in s.watchers + [(key, e)] :: w in s.watchers || w == (key, e);
  }

  lemma StartDue(s: State, key: string, made: Made, now: int)
    requires RemovalsAreDue(s)
    ensures RemovalsAreDue(Start(s, key, made, now))
  {
    var s1 := s.(started := s.started + 1);
    SettleDue(s1, made.promise);
    RegisterDue(Invoke(s1, made), key, Entry(s.created, made.promise), now);
  }

  lemma FewerJobsDue(s: State, jobs: seq<Job>)
    requires RemovalsAreDue(s) && forall j | j in jobs && j.Cleanup? :: j in s.jobs
    ensures RemovalsAreDue(s.(jobs := jobs))
  {
  }

  lemma HandleDue(s: State, verdict: Verdict, maxAge: Option<int>, made: Made, now: int)
    requires RemovalsAreDue(s)
    ensures RemovalsAreDue(Handle(s, verdict, maxAge, made, now))
  {
    match verdict
    case Bypass => SettleDue(s.(started := s.started + 1), made.promise);
    case StartNow(key) => StartDue(s, key, made, now);
    case Defer(key) => FewerJobsDue(s, s.jobs + [Decide(key, maxAge, Moment(s.created, s.settled))]);
    case _ =>
  }

  lemma RunJobDue(s: State, made: Made, now: int)
    requires RemovalsAreDue(s)
    ensures RemovalsAreDue(RunJob(s, made, now))
  {
    if s.jobs != [] {
      FewerJobsDue(s, s.jobs[1..]);
      if s.jobs[0].Decide? { StartDue(s.(jobs := s.jobs[1..]), s.jobs[0].key, made, now); }
    }
  }

  lemma StepDue(s: State, enabled: bool, ev: Event)
    requires RemovalsAreDue(s)
    ensures RemovalsAreDue(Step(s, enabled, ev))
  {
    match ev
    case Call(key, forceNew, maxAge, made, now) =>
      HandleDue(Counted(s), Classify(Counted(s), enabled, key, forceNew, maxAge, now), maxAge, made, now);
    case Settles(p) => SettleDue(s, p);
    case Microtask(made, now) => RunJobDue(s, made, now);
    case ClearEvent =>
    case ResetEvent =>
  }

  lemma {:induction false} RunDue(enabled: bool, evs: seq<Event>)
    ensures RemovalsAreDue(Run(enabled, evs))
  {
    if evs != [] {
      RunDue(enabled, evs[..|evs| - 1]);
      StepDue(Run(enabled, evs[..|evs| - 1]), enabled, evs[|evs| - 1]);
    }
  }

  /** The event detaches what is in flight under `key`: it clears everything, or starts another request of that key. */
  predicate Detaches(s: State, enabled: bool, ev: Event, key: string) {
    match ev
    case ClearEvent => true
    case Call(k, forceNew, maxAge, _, now) => enabled && k == Some(key) && !Joinable(s, key, forceNew, maxAge, now)
    case Microtask(_, now) =>
      && s.jobs != [] && s.jobs[0].Decide? && s.jobs[0].key == key
      && !Joinable(s, key, false, s.jobs[0].maxAge, now)
    case _ => false
  }

  /** The event runs the removal queued when the entry settled. */
  predicate RemovesSettled(s: State, ev: Event, key: string, e: Entry) {
    ev.Microtask? && s.jobs != [] && s.jobs[0] == Cleanup(key, e.id) && e.promise in s.settled
  }

  lemma CallLeaves(s: State, enabled: bool, ev: Event, key: string)
    requires TablesAgree(s) && ev.Call? && key in s.inFlight && s.inFlight[key].id < s.created
    ensures InFlightAs(Step(s, enabled, ev), key, s.inFlight[key]) <==> !Detaches(s, enabled, ev, key)
  {
    if enabled && ev.key.Some? {
      OneCall(s, ev.key.value, ev.forceNew, ev.maxAge, ev.made, ev.now);
    }
  }

  lemma MicrotaskLeaves(s: State, enabled: bool, ev: Event, key: string)
    requires TablesAgree(s) && ev.Microtask? && key in s.inFlight && s.inFlight[key].id < s.created
    requires s.jobs != [] && s.jobs[0] == Cleanup(key, s.inFlight[key].id) ==> s.inFlight[key].promise in s.settled
    ensures InFlightAs(Step(s, enabled, ev), key, s.inFlight[key]) <==>
      !Detaches(s, enabled, ev, key) && !RemovesSettled(s, ev, key, s.inFlight[key])
  {
    if s.jobs != [] && s.jobs[0].Decide? {
      OneDecision(s, ev.made, ev.now);
    }
  }

  /** Exactly these end a request's time in flight; in particular no removal touches the entry of another request. */
  lemma LeavesFlightIff(enabled: bool, evs: seq<Event>, ev: Event, key: string)
    requires key in Run(enabled, evs).inFlight
    ensures var s := Run(enabled, evs);
      InFlightAs(Run(enabled, evs + [ev]), key, s.inFlight[key]) <==>
        !Detaches(s, enabled, ev, key) && !RemovesSettled(s, ev, key, s.inFlight[key])
  {
    var s := Run(enabled, evs);
    RunGrows(enabled, evs, ev);
    HeadIsDue(enabled, evs, key);
    match ev
    case Call(_, _, _, _, _) => CallLeaves(s, enabled, ev, key);
    case Microtask(_, _) => MicrotaskLeaves(s, enabled, ev, key);
    case _ =>
  }

  lemma HeadIsDue(enabled: bool, evs: seq<Event>, key: string)
    requires key in Run(enabled, evs).inFlight
    ensures var s := Run(enabled, evs);
      && TablesAgree(s) && s.inFlight[key].id < s.created
      && (s.jobs != [] && s.jobs[0] == Cleanup(key, s.inFlight[key].id) ==> s.inFlight[key].promise in s.settled)
  {
    var s := Run(enabled, evs);
    RunKeeps(enabled, evs);
    RunDue(enabled, evs);
    if s.jobs != [] {
      assert s.jobs[0] in s.jobs;
    }
  }

  predicate DetachedAt(enabled: bool, evs: seq<Event>, m: nat, key: string) {
    m < |evs| && Detaches(Run(enabled, evs[..m]), enabled, evs[m], key)
  }

  lemma StaysOneMore(enabled: bool, evs: seq<Event>, m: nat, key: string, e: Entry)
    requires m < |evs| && InFlightAs(Run(enabled, evs[..m]), key, e) && !DetachedAt(enabled, evs, m, key)
    requires e.promise !in Run(enabled, evs[..m + 1]).settled
    ensures InFlightAs(Run(enabled, evs[..m + 1]), key, e) && e.promise !in Run(enabled, evs[..m]).settled
  {
    assert evs[..m + 1] == evs[..m] + [evs[m]];
    RunGrows(enabled, evs[..m], evs[m]);
    SettledGrows(Run(enabled, evs[..m]), enabled, evs[m]);
    LeavesFlightIff(enabled, evs[..m], evs[m], key);
  }

  lemma {:induction false} SettledOnlyGrows(enabled: bool, evs: seq<Event>, m: nat, n: nat)
    requires m <= n <= |evs|
    ensures Run(enabled, evs[..m]).settled <= Run(enabled, evs[..n]).settled
  {
    if m < n {
      SettledOnlyGrows(enabled, evs, m, n - 1);
      assert evs[..n] == evs[..n - 1] + [evs[n - 1]];
      RunGrows(enabled, evs[..n - 1], evs[n - 1]);
      SettledGrows(Run(enabled, evs[..n - 1]), enabled, evs[n - 1]);
    }
  }

  lemma {:induction false} StaysUntil(enabled: bool, evs: seq<Event>, k: nat, n: nat, key: string, e: Entry)
    requires k <= n <= |evs| && InFlightAs(Run(enabled, evs[..k]), key, e)
    requires e.promise !in Run(enabled, evs[..n]).settled
    requires forall m: nat | k <= m < n :: !DetachedAt(enabled, evs, m, key)
    ensures InFlightAs(Run(enabled, evs[..n]), key, e)
  {
    if k < n {
      SettledOnlyGrows(enabled, evs, n - 1, n);
      StaysUntil(enabled, evs, k, n - 1, key, e);
      StaysOneMore(enabled, evs, n - 1, key, e);
    }
  }

  /** A request stays in flight until it settles, as long as nothing detaches it. */
  lemma PendingStaysInFlight(enabled: bool, evs: seq<Event>, k: nat, key: string, e: Entry)
    requires k <= |evs| && InFlightAs(Run(enabled, evs[..k]), key, e) && e.promise !in Run(enabled, evs).settled
    requires forall m: nat | k <= m < |evs| :: !DetachedAt(enabled, evs, m, key)
    ensures InFlightAs(Run(enabled, evs), key, e)
  {
    assert evs[..|evs|] == evs;
    StaysUntil(enabled, evs, k, |evs|, key, e);
  }

  lemma SettledGrows(s: State, enabled: bool, ev: Event)
    ensures s.settled <= Step(s, enabled, ev).settled
  {
  }

  /** Nothing since the first call has ended the turn, cleared the table, or refused to join the request of `key`. */
  ghost predicate SameTurn(evs: seq<Event>, from: nat, key: string) {
    forall m: nat | from <= m < |evs| :: TurnGoesOn(evs, m, key)
  }

  predicate TurnGoesOn(evs: seq<Event>, m: nat, key: string) {
    m < |evs| && !evs[m].Microtask? && !Detaches(Run(true, evs[..m]), true, evs[m], key)
  }

  predicate InItsTurn(s: State, key: string, e: Entry) {
    InFlightAs(s, key, e) && e.id in s.ticking
  }

  lemma StaysInTurn(evs: seq<Event>, m: nat, key: string, e: Entry)
    requires m < |evs| && TurnGoesOn(evs, m, key) && InItsTurn(Run(true, evs[..m]), key, e)
    ensures InItsTurn(Run(true, evs[..m + 1]), key, e)
  {
    assert evs[..m + 1] == evs[..m] + [evs[m]];
    LeavesFlightIff(true, evs[..m], evs[m], key);
    RunGrows(true, evs[..m], evs[m]);
    StepTicks(Run(true, evs[..m]), evs[m]);
  }

  lemma {:induction false} TurnKeepsEntry(evs: seq<Event>, from: nat, m: nat, key: string, e: Entry)
    requires from <= m <= |evs| && SameTurn(evs, from, key) && InItsTurn(Run(true, evs[..from]), key, e)
    ensures InItsTurn(Run(true, evs[..m]), key, e)
  {
    if from < m {
      TurnKeepsEntry(evs, from, m - 1, key, e);
      StaysInTurn(evs, m - 1, key, e);
    }
  }

  lemma StepTicks(s: State, ev: Event)
    requires !ev.Microtask?
    ensures s.ticking <= Step(s, true, ev).ticking
  {
  }

  /** What a call is handed in the turn in which it is made, if anything. */
  function Handed(s: State, call: Event): Option<Promise>
    requires call.Call?
  {
    DedupeHands(s, true, call.key, call.forceNew, call.maxAge, call.made, call.now)
  }

  /** Whoever is handed a promise at once finds it in flight, in its creation turn. */
  lemma HandedIsInFlight(evs: seq<Event>, call: Event, key: string) returns (e: Entry)
    requires call.Call? && call.key == Some(key) && Handed(Run(true, evs), call).Some?
    ensures e.promise == Handed(Run(true, evs), call).value
    ensures InItsTurn(Run(true, evs + [call]), key, e)
  {
    RunTablesAgree(true, evs);
    RunGrows(true, evs, call);
    OneCall(Run(true, evs), key, call.forceNew, call.maxAge, call.made, call.now);
    e := Run(true, evs + [call]).inFlight[key];
  }

  lemma JoinerIsHanded(evs: seq<Event>, call: Event, key: string, e: Entry)
    requires call.Call? && call.key == Some(key) && Joinable(Run(true, evs), key, call.forceNew, call.maxAge, call.now)
    requires InItsTurn(Run(true, evs), key, e)
    ensures Handed(Run(true, evs), call) == Some(e.promise)
    ensures Run(true, evs + [call]).started == Run(true, evs).started
  {
    RunTablesAgree(true, evs);
    RunGrows(true, evs, call);
    OneCall(Run(true, evs), key, call.forceNew, call.maxAge, call.made, call.now);
  }

  /** Event `n` is a call of `key` that was handed a promise at once. */
  predicate HandedAt(evs: seq<Event>, n: nat, key: string, p: Promise) {
    && n < |evs| && evs[n].Call? && evs[n].key == Some(key)
    && Handed(Run(true, evs[..n]), evs[n]) == Some(p)
  }

  lemma TurnKeepsHanded(evs: seq<Event>, n: nat, key: string, p: Promise) returns (e: Entry)
    requires HandedAt(evs, n, key, p) && SameTurn(evs, n + 1, key)
    ensures InItsTurn(Run(true, evs), key, e) && e.promise == p
  {
    e := HandedIsInFlight(evs[..n], evs[n], key);
    assert evs[..n + 1] == evs[..n] + [evs[n]] && evs[..|evs|] == evs;
    TurnKeepsEntry(evs, n + 1, |evs|, key, e);
  }

  /**
    Two calls of one key in the same synchronous turn share one promise and one request, whoever started it: whatever
    settles or is called between them, short of clearing the table or refusing to join.
    */
  lemma SameTurnSharesPromise(evs: seq<Event>, n: nat, key: string, p: Promise, call: Event)
    requires HandedAt(evs, n, key, p) && SameTurn(evs, n + 1, key)
    requires call.Call? && call.key == Some(key)
    requires Joinable(Run(true, evs), key, call.forceNew, call.maxAge, call.now)
    ensures Handed(Run(true, evs), call) == Some(p)
    ensures Run(true, evs + [call]).started == Run(true, evs).started
  {
    var e := TurnKeepsHanded(evs, n, key, p);
    JoinerIsHanded(evs, call, key, e);
  }

  // ---- Accounting ----

  function Undecided(jobs: seq<Job>): nat {
    if jobs == [] then 0
    else Undecided(jobs[..|jobs| - 1]) + if jobs[|jobs| - 1].Decide? then 1 else 0
  }

  lemma {:induction false} UndecidedConcat(a: seq<Job>, b: seq<Job>)
    ensures Undecided(a + b) == Undecided(a) + Undecided(b)
  {
    if b == [] {
      assert a + b == a;
    } else {
      assert (a + b)[..|a + b| - 1] == a + b[..|b| - 1];
      UndecidedConcat(a, b[..|b| - 1]);
    }
  }

  lemma {:induction false} NoneUndecided(jobs: seq<Job>)
    requires forall j | j in jobs :: !j.Decide?
    ensures Undecided(jobs) == 0
  {
    if jobs != [] {
      NoneUndecided(jobs[..|jobs| - 1]);
    }
  }

  /** Calls since the last reset whose key could not be normalised: they are counted, then throw. */
  function BadKeys(evs: seq<Event>): nat {
    if evs == [] || evs[|evs| - 1].ResetEvent? then 0
    else
      var ev := evs[|evs| - 1];
      BadKeys(evs[..|evs| - 1]) + if ev.Call? && ev.key.None? then 1 else 0
  }

  /** Callers still undecided when the counters were last reset. */
  function Carried(enabled: bool, evs: seq<Event>): nat {
    if evs == [] then 0
    else if evs[|evs| - 1].ResetEvent? then Undecided(Run(enabled, evs[..|evs| - 1]).jobs)
    else Carried(enabled, evs[..|evs| - 1])
  }

  lemma SettleCounts(s: State, p: Promise)
    ensures Undecided(Settle(s, p).jobs) == Undecided(s.jobs)
  {
    CleanupsCover(s.watchers, p);
    NoneUndecided(CleanupsFor(s.watchers, p));
    UndecidedConcat(s.jobs, CleanupsFor(s.watchers, p));
  }

  lemma StartCounts(s: State, key: string, made: Made, now: int)
    ensures Undecided(Start(s, key, made, now).jobs) == Undecided(s.jobs)
  {
    SettleCounts(s.(started := s.started + 1), made.promise);
    var s1 := Invoke(s.(started := s.started + 1), made);
    var more := RegisterJobs(s1, key, Entry(s1.created, made.promise));
    NoneUndecided(more);
    UndecidedConcat(s1.jobs, more);
  }

  /** requests - started - deduplicated - undecided callers. */
  function Balance(s: State): int {
    s.requests - s.started - s.deduplicated - Undecided(s.jobs)
  }

  lemma HandleBalance(s: State, verdict: Verdict, maxAge: Option<int>, made: Made, now: int)
    ensures Balance(Handle(s, verdict, maxAge, made, now)) == Balance(s) - if verdict.BadKey? then 0 else 1
  {
    match verdict
    case BadKey =>
    case JoinNow(_) =>
    case Bypass => SettleCounts(s.(started := s.started + 1), made.promise);
    case StartNow(key) => StartCounts(s, key, made, now);
    case Defer(key) =>
      var job := Decide(key, maxAge, Moment(s.created, s.settled));
      UndecidedConcat(s.jobs, [job]);
      assert [job][..0] == [];
  }

  lemma RunJobBalance(s: State, made: Made, now: int)
    ensures Balance(RunJob(s, made, now)) == Balance(s)
  {
    if s.jobs != [] {
      assert s.jobs == [s.jobs[0]] + s.jobs[1..];
      UndecidedConcat([s.jobs[0]], s.jobs[1..]);
      assert [s.jobs[0]][..0] == [];
      if s.jobs[0].Decide? {
        StartCounts(s.(jobs := s.jobs[1..]), s.jobs[0].key, made, now);
      }
    }
  }

  lemma StepBalance(s: State, enabled: bool, ev: Event)
    requires !ev.ResetEvent?
    ensures Balance(Step(s, enabled, ev)) == Balance(s) + if ev.Call? && ev.key.None? then 1 else 0
  {
    match ev
    case Call(key, forceNew, maxAge, made, now) =>
      HandleBalance(Counted(s), Classify(Counted(s), enabled, key, forceNew, maxAge, now), maxAge, made, now);
    case Settles(p) => SettleCounts(s, p);
    case Microtask(made, now) => RunJobBalance(s, made, now);
    case ClearEvent =>
  }

  /** Every counted call was started, joined, is still undecided, or had a bad key; resets only shift the balance. */
  lemma {:induction false} CallsAreAccountedFor(enabled: bool, evs: seq<Event>)
    ensures var s := Run(enabled, evs);
      s.requests + Carried(enabled, evs) == s.started + s.deduplicated + Undecided(s.jobs) + BadKeys(evs)
  {
    if evs != [] {
      var s, ev := Run(enabled, evs[..|evs| - 1]), evs[|evs| - 1];
      CallsAreAccountedFor(enabled, evs[..|evs| - 1]);
      if !ev.ResetEvent? {
        StepBalance(s, enabled, ev);
      }
    }
  }
}
