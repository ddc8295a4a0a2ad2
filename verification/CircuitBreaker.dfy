/** The circuit breaker: a timed state machine whose calls overlap, so outcomes arrive in any state. */
module Breaking {
  import opened Sequences

  datatype CircuitState = Closed | Open | HalfOpen

  datatype Config = Config(threshold: int, cooldownMs: int, probeIntervalMs: int)

  datatype Breaker = Breaker(state: CircuitState, failureCount: nat, lastFailureTime: int, lastProbeTime: int,
                             paused: bool)

  datatype Rejection = PausedByHand | CircuitOpen | ProbeTooSoon(remaining: int)

  const INITIAL := Breaker(Closed, 0, 0, 0, false)

  // ---- Transitions ----

  /** Whether a call is let through at this time. */
  function Admission(b: Breaker, c: Config, now: int): Result<(), Rejection> {
    if b.paused then Failure(PausedByHand)
    else if b.state == Open && now - b.lastFailureTime < c.cooldownMs then Failure(CircuitOpen)
    else if b.state == HalfOpen && c.probeIntervalMs - (now - b.lastProbeTime) > 0
      then Failure(ProbeTooSoon(c.probeIntervalMs - (now - b.lastProbeTime)))
    else Success(())
  }

  /** An admitted call outside Closed is a probe. */
  function Admit(b: Breaker, c: Config, now: int): Breaker {
    if Admission(b, c, now).Failure? || b.state == Closed then b
    else b.(state := HalfOpen, lastProbeTime := now)
  }

  function Reset(b: Breaker): Breaker {
    b.(state := Closed, failureCount := 0)
  }

  function Succeed(b: Breaker): Breaker {
    if b.state == Open then b else Reset(b)
  }

  function Fail(b: Breaker, c: Config, now: int): Breaker {
    var n := b.failureCount + 1;
    b.(failureCount := n, lastFailureTime := now, state := if n >= c.threshold then Open else b.state)
  }

  function PauseAt(b: Breaker, now: int): Breaker {
    b.(paused := true, state := Open, lastFailureTime := now)
  }

  function Resume(b: Breaker): Breaker {
    Reset(b.(paused := false))
  }

  // ---- The class ----

  class CircuitBreaker {
    const config: Config
    var state: CircuitState
    var failureCount: nat
    var lastFailureTime: int
    var lastProbeTime: int
    var manuallyPaused: bool

    function Model(): Breaker
      reads this
    {
      Breaker(state, failureCount, lastFailureTime, lastProbeTime, manuallyPaused)
    }

    constructor (config: Config)
      ensures Model() == INITIAL && this.config == config
    {
      this.config := config;
      state, failureCount, lastFailureTime, lastProbeTime, manuallyPaused := Closed, 0, 0, 0, false;
    }

    /** The part of call() before the wrapped operation starts. */
    method BeginCall(now: int) returns (r: Result<(), Rejection>)
      modifies this
      ensures r == Admission(old(Model()), config, now)
      ensures Model() == Admit(old(Model()), config, now)
    {
      if manuallyPaused {
        return Failure(PausedByHand);
      }
      if state == Open {
        if now - lastFailureTime >= config.cooldownMs {
          state, lastProbeTime := HalfOpen, now;
        } else {
          return Failure(CircuitOpen);
        }
      } else if state == HalfOpen {
        var remaining := config.probeIntervalMs - (now - lastProbeTime);
        if remaining > 0 {
          return Failure(ProbeTooSoon(remaining));
        }
        lastProbeTime := now;
      }
      return Success(());
    }

    method CallSucceeded()
      modifies this
      ensures Model() == Succeed(old(Model()))
    {
      if state == HalfOpen || state == Closed {
        ResetBreaker();
      }
    }

    method CallFailed(now: int)
      modifies this
      ensures Model() == Fail(old(Model()), config, now)
    {
      failureCount := failureCount + 1;
      lastFailureTime := now;
      if failureCount >= config.threshold {
        state := Open;
      }
    }

    method PauseBreaker(now: int)
      modifies this
      ensures Model() == PauseAt(old(Model()), now)
    {
      manuallyPaused, state, lastFailureTime := true, Open, now;
    }

    method ResumeBreaker()
      modifies this
      ensures Model() == Resume(old(Model()))
    {
      manuallyPaused := false;
      ResetBreaker();
    }

    method ResetBreaker()
      modifies this`state, this`failureCount
      ensures Model() == Reset(old(Model()))
    {
      state, failureCount := Closed, 0;
    }
  }

  // ---- Every reachable state ----

  datatype Event = CallBegins(now: int) | CallSucceeds | CallFails(now: int) | Pauses(now: int) | Resumes | Resets

  function Step(b: Breaker, c: Config, ev: Event): Breaker {
    match ev
    case CallBegins(now) => Admit(b, c, now)
    case CallSucceeds => Succeed(b)
    case CallFails(now) => Fail(b, c, now)
    case Pauses(now) => PauseAt(b, now)
    case Resumes => Resume(b)
    case Resets => Reset(b)
  }

  function Run(c: Config, evs: seq<Event>): Breaker {
    if evs == [] then INITIAL else Step(Run(c, evs[..|evs| - 1]), c, evs[|evs| - 1])
  }

  /** Closed exactly below the threshold, unless the breaker was opened by hand. */
  predicate CountMatchesState(b: Breaker, c: Config) {
    && (b.state == Closed ==> b.failureCount < c.threshold)
    && (!b.paused && b.state != Closed ==> b.failureCount >= c.threshold)
    && (b.paused ==> b.state != HalfOpen)
  }

  /** With a positive threshold, the failure count and the state agree in every reachable state. */
  lemma {:induction false} CountAlwaysMatches(c: Config, evs: seq<Event>)
    requires c.threshold >= 1
    ensures CountMatchesState(Run(c, evs), c)
  {
    if evs != [] { CountAlwaysMatches(c, evs[..|evs| - 1]); }
  }

  /**
    A threshold below 1 already breaks the agreement in the initial state: the positive ones are exactly those that
    keep it.
    */
  lemma CountMatchesIffPositiveThreshold(c: Config)
    ensures c.threshold >= 1 <==> forall evs: seq<Event> :: CountMatchesState(Run(c, evs), c)
  {
    if c.threshold >= 1 {
      forall evs: seq<Event> { CountAlwaysMatches(c, evs); }
    } else {
      assert !CountMatchesState(Run(c, []), c);
    }
  }

  /** A probe that fails, while nobody has paused the breaker, always opens it again and restarts the cooldown. */
  lemma FailedProbeReopens(c: Config, evs: seq<Event>, now: int)
    requires c.threshold >= 1 && Run(c, evs).state == HalfOpen
    ensures var b := Step(Run(c, evs), c, CallFails(now));
      b.state == Open && forall t | t - now < c.cooldownMs :: Admission(b, c, t) == Failure(CircuitOpen)
  {
    CountAlwaysMatches(c, evs);
  }

  /** The number of failures among the events, when they are all call starts and failures. */
  function Failures(evs: seq<Event>): nat {
    if evs == [] then 0 else Failures(evs[..|evs| - 1]) + if evs[|evs| - 1].CallFails? then 1 else 0
  }

  function RunFrom(b: Breaker, c: Config, evs: seq<Event>): Breaker {
    if evs == [] then b else Step(RunFrom(b, c, evs[..|evs| - 1]), c, evs[|evs| - 1])
  }

  /** Without successes or manual calls, a closed breaker trips at exactly the failure that reaches the threshold. */
  lemma {:induction false} TripsAtThreshold(b: Breaker, c: Config, evs: seq<Event>)
    requires CountMatchesState(b, c) && b.state == Closed && !b.paused
    requires forall i | 0 <= i < |evs| :: evs[i].CallBegins? || evs[i].CallFails?
    ensures var b' := RunFrom(b, c, evs);
      b'.failureCount == b.failureCount + Failures(evs)
          && (b'.state == Closed <==> b.failureCount + Failures(evs) < c.threshold)
  {
    if evs != [] { TripsAtThreshold(b, c, evs[..|evs| - 1]); }
  }

  // ---- Probes are spaced ----

  /** The clock readings of a run do not decrease. */
  predicate Monotone(evs: seq<Event>) {
    forall i, j | 0 <= i < j < |evs| && Reads(evs[i]) && Reads(evs[j]) :: TimeOf(evs[i]) <= TimeOf(evs[j])
  }

  predicate Reads(ev: Event) {
    ev.CallBegins? || ev.CallFails? || ev.Pauses?
  }

  function TimeOf(ev: Event): int
    requires Reads(ev)
  {
    match ev
    case CallBegins(now) => now
    case CallFails(now) => now
    case Pauses(now) => now
  }

  /** Event `k` of the run is a call admitted outside Closed. */
  predicate IsProbe(c: Config, evs: seq<Event>, k: nat) {
    k < |evs| && evs[k].CallBegins? &&
    Run(c, evs[..k]).state != Closed && Admission(Run(c, evs[..k]), c, evs[k].now).Success?
  }

  /** What a probe at time `t` leaves behind: whichever timer gates the next probe started no earlier. */
  predicate GatedSince(b: Breaker, t: int) {
    (b.state == HalfOpen ==> b.lastProbeTime >= t) && (b.state == Open ==> b.lastFailureTime >= t)
  }

  lemma {:induction false} ProbeGates(c: Config, evs: seq<Event>, i: nat)
    requires Monotone(evs) && IsProbe(c, evs, i)
    ensures GatedSince(Run(c, evs), evs[i].now)
    decreases |evs|
  {
    var n := |evs| - 1;
    assert evs[..n + 1] == evs;
    if i < n {
      assert evs[..n][..i] == evs[..i];
      ProbeGates(c, evs[..n], i);
    }
  }

  function Min(a: int, b: int): int { if a < b then a else b }

  /** Any two calls admitted outside Closed are at least the smaller of cooldown and probe interval apart. */
  lemma ProbesAreSpaced(c: Config, evs: seq<Event>, i: nat, j: nat)
    requires Monotone(evs) && i < j && IsProbe(c, evs, i) && IsProbe(c, evs, j)
    ensures evs[j].now - evs[i].now >= Min(c.cooldownMs, c.probeIntervalMs)
  {
    assert evs[..j][..i] == evs[..i];
    assert Monotone(evs[..j]);
    ProbeGates(c, evs[..j], i);
  }

  /** A pause admits nothing until it is resumed, whatever calls settle meanwhile. */
  lemma {:induction false} PauseHolds(c: Config, evs: seq<Event>, i: nat, now: int)
    requires i < |evs| && evs[i].Pauses? && forall k | i < k < |evs| :: !evs[k].Resumes?
    ensures Admission(Run(c, evs), c, now) == Failure(PausedByHand)
    decreases |evs|
  {
    var n := |evs| - 1;
    if i < n { PauseHolds(c, evs[..n], i, now); }
  }

  /** An open breaker lets a call through once the cooldown is over, and the success of any call then closes it. */
  lemma Recovers(c: Config, evs: seq<Event>, now: int)
    requires c.threshold >= 1
    requires var b := Run(c, evs); b.state == Open && !b.paused && now - b.lastFailureTime >= c.cooldownMs
    ensures var probed := Step(Run(c, evs), c, CallBegins(now));
      && Admission(Run(c, evs), c, now).Success? && probed.state == HalfOpen
      && Step(probed, c, CallSucceeds) == INITIAL.(lastFailureTime := probed.lastFailureTime, lastProbeTime := now)
  {
  }

  /** Whatever has happened, once both timers have run out a call is admitted, and its success closes the breaker. */
  lemma AlwaysRecovers(c: Config, evs: seq<Event>, now: int)
    requires c.threshold >= 1 && !Run(c, evs).paused
    requires var b := Run(c, evs);
      now - b.lastFailureTime >= c.cooldownMs && now - b.lastProbeTime >= c.probeIntervalMs
    ensures Admission(Run(c, evs), c, now).Success?
    ensures var b := Run(c, evs + [CallBegins(now), CallSucceeds]); b.state == Closed && b.failureCount == 0
  {
    var after := evs + [CallBegins(now), CallSucceeds];
    var n := |evs|;
    assert after[..n + 1][..n] == evs;
    assert Run(c, after[..n + 1]) == Step(Run(c, evs), c, CallBegins(now));
    if Run(c, evs).state == Open {
      Recovers(c, evs, now);
    }
  }

  // ---- The state as its history ----

  /** Whether the last manual call was a pause. */
  function LastPaused(evs: seq<Event>): bool {
    evs != [] && (evs[|evs| - 1].Pauses? || (!evs[|evs| - 1].Resumes? && LastPaused(evs[..|evs| - 1])))
  }

  /** When a call last failed or the breaker was last paused. */
  function LastTrouble(evs: seq<Event>): int {
    if evs == [] then 0
    else
      match evs[|evs| - 1]
      case CallFails(now) => now
      case Pauses(now) => now
      case _ => LastTrouble(evs[..|evs| - 1])
  }

  /** When a call was last admitted outside Closed. */
  function LastProbe(c: Config, evs: seq<Event>): int {
    if evs == [] then 0
    else if IsProbe(c, evs, |evs| - 1) then evs[|evs| - 1].now
    else LastProbe(c, evs[..|evs| - 1])
  }

  lemma {:induction false} TimersAreHistory(c: Config, evs: seq<Event>)
    ensures var b := Run(c, evs);
      b.paused == LastPaused(evs) && b.lastFailureTime == LastTrouble(evs) && b.lastProbeTime == LastProbe(c, evs)
  {
    if evs != [] {
      TimersAreHistory(c, evs[..|evs| - 1]);
    }
  }

  /**
    Exactly when a call is let through: nobody has paused the breaker, and it is closed, or its cooldown since the
    last trouble is over, or its probe interval since the last probe. Otherwise, why not.
    */
  lemma AdmittedIff(c: Config, evs: seq<Event>, now: int)
    ensures var state := Run(c, evs).state;
      Admission(Run(c, evs), c, now).Success? <==>
        && !LastPaused(evs)
        && (state == Closed || (state == Open && now - LastTrouble(evs) >= c.cooldownMs)
            || (state == HalfOpen && now - LastProbe(c, evs) >= c.probeIntervalMs))
    ensures var answer := Admission(Run(c, evs), c, now);
      var reason := if LastPaused(evs) then PausedByHand
                    else if Run(c, evs).state == Open then CircuitOpen
                    else ProbeTooSoon(LastProbe(c, evs) + c.probeIntervalMs - now);
      answer.Success? || answer == Failure(reason)
  {
    TimersAreHistory(c, evs);
  }

  /**
    Exactly which events move the state, and the count: a trip by the failure that reaches the threshold or by hand, a
    probe once the cooldown is over, and back by a success outside Open or by hand. A late success never closes an
    open breaker.
    */
  lemma StateMovesIff(c: Config, evs: seq<Event>, ev: Event)
    ensures var b, b' := Run(c, evs), Run(c, evs + [ev]);
      var trips := ev.Pauses? || (ev.CallFails? && b.failureCount + 1 >= c.threshold);
      var probes := ev.CallBegins? && b.state == Open && !LastPaused(evs) && ev.now - LastTrouble(evs) >= c.cooldownMs;
      var closes := ev.Resumes? || ev.Resets? || (ev.CallSucceeds? && b.state != Open);
      && b'.state == (if trips then Open else if probes then HalfOpen else if closes then Closed else b.state)
      && b'.failureCount == if closes then 0 else b.failureCount + if ev.CallFails? then 1 else 0
  {
    assert (evs + [ev])[..|evs|] == evs;
    TimersAreHistory(c, evs);
  }
}
