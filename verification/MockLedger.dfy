/** The in-memory contract ledger: flow-rate arithmetic over streams of money. Amounts and seconds are integers. */
module Ledger {
  import opened Sequences

  datatype Status = Active | Paused | Cancelled | Completed

  datatype Stream = Stream(sender: string, recipient: string, deposit: int, flowRate: int, startTime: int, endTime: int,
                           lastWithdrawTime: int, status: Status, lockUntil: Option<int>, pausedAt: Option<int>)

  datatype LedgerError =
    | InsufficientAmount | SelfStream | BadDuration | StartInPast | NotFound | NotActive | NotPaused | Locked
    | AlreadyLocked | NotOperator | BadRatio | DivisionByZero | Overflow | NotWhole

  /** A floating-point argument. */
  datatype Number = Finite(x: real) | Infinite(positive: bool) | NotANumber

  /** What BigInt() accepts. */
  predicate Whole(a: Number) {
    a.Finite? && a.x.Floor as real == a.x
  }

  /** `a <= 0`, which NaN is not. */
  predicate AtMostZero(a: Number) {
    match a
    case Finite(x) => x <= 0.0
    case Infinite(positive) => !positive
    case NotANumber => false
  }

  /** `a >= b`, which never holds of NaN. */
  predicate AtLeast(a: Number, b: Number) {
    match (a, b)
    case (Finite(x), Finite(y)) => x >= y
    case (Finite(_), Infinite(positive)) => !positive
    case (Infinite(positive), Finite(_)) => positive
    case (Infinite(p), Infinite(q)) => p || !q
    case _ => false
  }

  predicate RatioRefused(num: Number, den: Number) {
    AtMostZero(num) || AtMostZero(den) || AtLeast(num, den)
  }

  lemma WholeDuration(duration: Number)
    requires Whole(duration) && !AtMostZero(duration)
    ensures duration.x.Floor > 0
  {
  }

  lemma WholeRatio(num: Number, den: Number)
    requires Whole(num) && Whole(den) && !RatioRefused(num, den)
    ensures 0 < num.x.Floor < den.x.Floor
  {
  }

  const I128_MAX := 0x7fff_ffff_ffff_ffff_ffff_ffff_ffff_ffff

  function Min(a: int, b: int): int { if a < b then a else b }

  function Max(a: int, b: int): int { if a < b then b else a }

  // ---- One stream ----

  function SafeClaimable(flowRate: int, elapsed: int, cap: int): Result<int, LedgerError> {
    if flowRate <= 0 || elapsed <= 0 then Success(0)
    else if flowRate * elapsed > cap then Success(cap)
    else if flowRate * elapsed > I128_MAX then Failure(Overflow)
    else Success(flowRate * elapsed)
  }

  predicate IsLocked(s: Stream, now: int) {
    s.lockUntil.Some? && now < s.lockUntil.value
  }

  function ClaimableAt(s: Stream, now: int): Result<int, LedgerError> {
    if s.status == Cancelled || s.status == Completed then Success(0)
    else if IsLocked(s, now) then Success(0)
    else
      var until := if s.status == Paused && s.pausedAt.Some? then s.pausedAt.value else now;
      SafeClaimable(s.flowRate, Max(0, Min(until, s.endTime) - s.lastWithdrawTime), s.deposit)
  }

  function NewStream(sender: string, recipient: string, amount: int, duration: int, now: int,
                     lockUntil: Option<int>): Stream
    requires duration > 0
  {
    Stream(sender, recipient, amount, amount / duration, now, now + duration, now, Active, lockUntil, None)
  }

  /** What remains of a stream after a withdrawal; the amount paid is ClaimableAt. */
  function Withdrawn(s: Stream, now: int): Stream {
    var last := Min(now, s.endTime);
    s.(lastWithdrawTime := last, status := if last >= s.endTime then Completed else Active)
  }

  function ToppedUp(s: Stream, amount: int): Stream
    requires s.flowRate != 0
  {
    s.(deposit := s.deposit + amount, endTime := s.endTime + amount / s.flowRate)
  }

  function Shifted(s: Stream, seconds: int): Stream {
    s.(startTime := s.startTime - seconds, endTime := s.endTime - seconds,
        lastWithdrawTime := s.lastWithdrawTime - seconds)
  }

  function Resumed(s: Stream, now: int): Stream {
    s.(status := Active, pausedAt := None, endTime := s.endTime + PauseLength(s, now))
  }

  function PauseLength(s: Stream, now: int): int {
    now - if s.pausedAt.Some? then s.pausedAt.value else now
  }

  // ---- The ledger ----

  datatype Ledger = Ledger(streams: map<nat, Stream>, operators: map<nat, seq<string>>, senderKey: string, nextId: nat)

  /** What a call moved: money in, money out, and time credited to a resumed stream. Or why it threw. */
  datatype Outcome = Done(deposited: int, paid: int, credited: int) | Threw(error: LedgerError)

  const QUIET := Done(0, 0, 0)

  function PutStream(l: Ledger, id: nat, s: Stream): Ledger {
    l.(streams := l.streams[id := s])
  }

  /** A duration that is not whole is noticed only after it has used up a number. */
  function Create(l: Ledger, now: int, recipient: string, amount: int, duration: Number, startTime: Option<int>,
                  lockUntil: Option<int>): (Ledger, Outcome)
  {
    if amount <= 0 then (l, Threw(InsufficientAmount))
    else if l.senderKey != "" && recipient == l.senderKey then (l, Threw(SelfStream))
    else if AtMostZero(duration) then (l, Threw(BadDuration))
    else if startTime.Some? && startTime.value < now then (l, Threw(StartInPast))
    else if !Whole(duration) then (l.(nextId := l.nextId + 1), Threw(NotWhole))
    else
      WholeDuration(duration);
      var s := NewStream(l.senderKey, recipient, amount, duration.x.Floor, now, lockUntil);
      (PutStream(l, l.nextId, s).(nextId := l.nextId + 1), Done(amount, 0, 0))
  }

  function LockUntil(l: Ledger, id: nat, until: int): (Ledger, Outcome) {
    if id !in l.streams then (l, Threw(NotFound))
    else if l.streams[id].lockUntil.Some? && l.streams[id].lockUntil.value >= until then (l, Threw(AlreadyLocked))
    else (PutStream(l, id, l.streams[id].(lockUntil := Some(until))), QUIET)
  }

  /** Why a call that needs an active stream throws, if it does. */
  function ActiveError(l: Ledger, id: nat): Option<LedgerError> {
    if id !in l.streams then Some(NotFound) else if l.streams[id].status != Active then Some(NotActive) else None
  }

  function Withdraw(l: Ledger, now: int, id: nat): (Ledger, Outcome) {
    if ActiveError(l, id).Some? then (l, Threw(ActiveError(l, id).value))
    else match ClaimableAt(l.streams[id], now)
      case Failure(e) => (l, Threw(e))
      case Success(amount) => (PutStream(l, id, Withdrawn(l.streams[id], now)), Done(0, amount, 0))
  }

  function Cancel(l: Ledger, now: int, id: nat): (Ledger, Outcome) {
    if ActiveError(l, id).Some? then (l, Threw(ActiveError(l, id).value))
    else if IsLocked(l.streams[id], now) then (l, Threw(Locked))
    else (PutStream(l, id, l.streams[id].(status := Cancelled)), QUIET)
  }

  /**
    Stops at the first stream that cannot be cancelled, keeping what was cancelled before it; locks are not checked.
    */
  function BatchCancel(l: Ledger, ids: seq<nat>): (Ledger, Outcome)
    decreases |ids|
  {
    if ids == [] then (l, QUIET)
    else if ActiveError(l, ids[0]).Some? then (l, Threw(ActiveError(l, ids[0]).value))
    else BatchCancel(PutStream(l, ids[0], l.streams[ids[0]].(status := Cancelled)), ids[1..])
  }

  function TopUp(l: Ledger, id: nat, amount: int): (Ledger, Outcome) {
    if amount <= 0 then (l, Threw(InsufficientAmount))
    else if ActiveError(l, id).Some? then (l, Threw(ActiveError(l, id).value))
    else if l.streams[id].flowRate == 0 then (l, Threw(DivisionByZero))
    else (PutStream(l, id, ToppedUp(l.streams[id], amount)), Done(amount, 0, 0))
  }

  function OperatorsOf(l: Ledger, id: nat): seq<string> {
    if id in l.operators then l.operators[id] else []
  }

  function SetOperator(l: Ledger, id: nat, operator: string, approved: bool): (Ledger, Outcome) {
    if id !in l.streams then (l, Threw(NotFound))
    else
      var ops := OperatorsOf(l, id);
      if approved && operator in ops then (l, QUIET)
      else
        var ops' := if approved then ops + [operator] else Filter(ops, (o: string) => o != operator);
        (l.(operators := l.operators[id := ops']), QUIET)
  }

  /** An operator may cancel whatever the status of the stream. */
  function OperatorCancel(l: Ledger, id: nat): (Ledger, Outcome) {
    if id !in l.streams then (l, Threw(NotFound))
    else if l.senderKey !in OperatorsOf(l, id) then (l, Threw(NotOperator))
    else (PutStream(l, id, l.streams[id].(status := Cancelled)), QUIET)
  }

  function OperatorTopUp(l: Ledger, id: nat, amount: int): (Ledger, Outcome) {
    if amount <= 0 then (l, Threw(InsufficientAmount))
    else if id !in l.streams then (l, Threw(NotFound))
    else if l.senderKey !in OperatorsOf(l, id) then (l, Threw(NotOperator))
    else if l.streams[id].flowRate == 0 then (l, Threw(DivisionByZero))
    else (PutStream(l, id, ToppedUp(l.streams[id], amount)), Done(amount, 0, 0))
  }

  function Child(s: Stream, recipient: string, amount: int, remaining: int, now: int): Stream {
    Stream(s.sender, recipient, amount, amount / Max(1, remaining), now, now + remaining, now, Active, None, None)
  }

  function Remaining(s: Stream, now: int): int {
    s.endTime - Max(now, s.lastWithdrawTime)
  }

  /**
    The original is cancelled first: if then the remaining balance overflows, or the ratio is not one of whole numbers,
    it stays cancelled.
    */
  function Split(l: Ledger, now: int, id: nat, toA: string, toB: string, num: Number, den: Number): (Ledger, Outcome) {
    if ActiveError(l, id).Some? then (l, Threw(ActiveError(l, id).value))
    else if RatioRefused(num, den) then (l, Threw(BadRatio))
    else
      var s := l.streams[id];
      var l1 := PutStream(l, id, s.(status := Cancelled));
      match SafeClaimable(s.flowRate, Max(0, Remaining(s, now)), s.deposit)
      case Failure(e) => (l1, Threw(e))
      case Success(balance) =>
        if !Whole(num) || !Whole(den) then (l1, Threw(NotWhole))
        else
          WholeRatio(num, den);
          (AddChildren(l1, s, now, balance, toA, toB, num.x.Floor, den.x.Floor), QUIET)
  }

  function AddChildren(l: Ledger, s: Stream, now: int, balance: int, toA: string, toB: string, num: int,
                       den: int): Ledger
    requires den > 0
  {
    var remaining := Remaining(s, now);
    var a := Child(s, toA, balance * num / den, remaining, now);
    var b := Child(s, toB, balance * (den - num) / den, remaining, now);
    PutStream(PutStream(l, l.nextId, a), l.nextId + 1, b).(nextId := l.nextId + 2)
  }

  function Transfer(l: Ledger, id: nat, recipient: string): (Ledger, Outcome) {
    if ActiveError(l, id).Some? then (l, Threw(ActiveError(l, id).value))
    else (PutStream(l, id, l.streams[id].(recipient := recipient)), QUIET)
  }

  function Pause(l: Ledger, now: int, id: nat): (Ledger, Outcome) {
    if ActiveError(l, id).Some? then (l, Threw(ActiveError(l, id).value))
    else (PutStream(l, id, l.streams[id].(status := Paused, pausedAt := Some(now))), QUIET)
  }

  /** The end moves by the length of the pause; the last withdrawal time does not. */
  function Resume(l: Ledger, now: int, id: nat): (Ledger, Outcome) {
    if id !in l.streams then (l, Threw(NotFound))
    else if l.streams[id].status != Paused then (l, Threw(NotPaused))
    else
      var s := l.streams[id];
      (PutStream(l, id, Resumed(s, now)), Done(0, 0, s.flowRate * PauseLength(s, now)))
  }

  function AdvanceTime(l: Ledger, id: nat, seconds: int): (Ledger, Outcome) {
    if id !in l.streams then (l, Threw(NotFound))
    else (PutStream(l, id, Shifted(l.streams[id], seconds)), QUIET)
  }

  // ---- The class ----

  class MockSoroStreamClient {
    var streams: map<nat, Stream>
    var operators: map<nat, seq<string>>
    var senderKey: string
    var nextId: nat

    function Model(): Ledger
      reads this
    {
      Ledger(streams, operators, senderKey, nextId)
    }

    constructor (senderKey: string)
      ensures Model() == Ledger(map[], map[], senderKey, 1)
    {
      this.senderKey, streams, operators, nextId := senderKey, map[], map[], 1;
    }

    method SetSender(address: string)
      modifies this`senderKey
      ensures Model() == old(Model()).(senderKey := address)
    {
      senderKey := address;
    }

    method CreateStream(now: int, recipient: string, amount: int, duration: Number, startTime: Option<int>,
                        lockUntil: Option<int>)
      returns (id: Option<nat>, out: Outcome)
      modifies this`streams, this`nextId
      ensures (Model(), out) == Create(old(Model()), now, recipient, amount, duration, startTime, lockUntil)
      ensures id == if out.Done? then Some(old(nextId)) else None
    {
      if amount <= 0 { return None, Threw(InsufficientAmount); }
      if senderKey != "" && recipient == senderKey { return None, Threw(SelfStream); }
      if AtMostZero(duration) { return None, Threw(BadDuration); }
      if startTime.Some? && startTime.value < now { return None, Threw(StartInPast); }
      var number := nextId;
      nextId := nextId + 1;
      if !Whole(duration) { return None, Threw(NotWhole); }
      WholeDuration(duration);
      streams := streams[number := NewStream(senderKey, recipient, amount, duration.x.Floor, now, lockUntil)];
      return Some(number), Done(amount, 0, 0);
    }

    method LockStream(id: nat, until: int) returns (out: Outcome)
      modifies this`streams
      ensures (Model(), out) == LockUntil(old(Model()), id, until)
    {
      if id !in streams { return Threw(NotFound); }
      var stream := streams[id];
      if stream.lockUntil.Some? && stream.lockUntil.value >= until { return Threw(AlreadyLocked); }
      streams := streams[id := stream.(lockUntil := Some(until))];
      out := QUIET;
    }

    method WithdrawStream(now: int, id: nat) returns (out: Outcome)
      modifies this`streams
      ensures (Model(), out) == Withdraw(old(Model()), now, id)
    {
      if id !in streams { return Threw(NotFound); }
      var stream := streams[id];
      if stream.status != Active { return Threw(NotActive); }
      var amount := ClaimableAt(stream, now);
      if amount.Failure? { return Threw(amount.error); }
      streams := streams[id := Withdrawn(stream, now)];
      out := Done(0, amount.value, 0);
    }

    method CancelStream(now: int, id: nat) returns (out: Outcome)
      modifies this`streams
      ensures (Model(), out) == Cancel(old(Model()), now, id)
    {
      if id !in streams { return Threw(NotFound); }
      var stream := streams[id];
      if stream.status != Active { return Threw(NotActive); }
      if IsLocked(stream, now) { return Threw(Locked); }
      streams := streams[id := stream.(status := Cancelled)];
      out := QUIET;
    }

    method BatchCancelStreams(ids: seq<nat>) returns (out: Outcome)
      modifies this`streams
      ensures (Model(), out) == BatchCancel(old(Model()), ids)
    {
      for i := 0 to |ids|
        invariant BatchCancel(Model(), ids[i..]) == BatchCancel(old(Model()), ids)
      {
        assert ids[i..][0] == ids[i] && ids[i..][1..] == ids[i + 1..];
        if ids[i] !in streams { return Threw(NotFound); }
        if streams[ids[i]].status != Active { return Threw(NotActive); }
        label before:
        streams := streams[ids[i] := streams[ids[i]].(status := Cancelled)];
        assert Model() == PutStream(old@before(Model()), ids[i], old@before(streams)[ids[i]].(status := Cancelled));
      }
      out := QUIET;
    }

    method TopUpStream(id: nat, amount: int) returns (out: Outcome)
      modifies this`streams
      ensures (Model(), out) == TopUp(old(Model()), id, amount)
    {
      if amount <= 0 { return Threw(InsufficientAmount); }
      if id !in streams { return Threw(NotFound); }
      var stream := streams[id];
      if stream.status != Active { return Threw(NotActive); }
      if stream.flowRate == 0 { return Threw(DivisionByZero); }
      streams := streams[id := ToppedUp(stream, amount)];
      out := Done(amount, 0, 0);
    }

    method SetStreamOperator(id: nat, operator: string, approved: bool) returns (out: Outcome)
      modifies this`operators
      ensures (Model(), out) == SetOperator(old(Model()), id, operator, approved)
    {
      if id !in streams { return Threw(NotFound); }
      var existing := if id in operators then operators[id] else [];
      if approved {
        if operator !in existing {
          operators := operators[id := existing + [operator]];
        }
      } else {
        operators := operators[id := Filter(existing, (o: string) => o != operator)];
      }
      out := QUIET;
    }

    method OperatorCancelStream(id: nat) returns (out: Outcome)
      modifies this`streams
      ensures (Model(), out) == OperatorCancel(old(Model()), id)
    {
      if id !in streams { return Threw(NotFound); }
      if senderKey !in (if id in operators then operators[id] else []) { return Threw(NotOperator); }
      streams := streams[id := streams[id].(status := Cancelled)];
      out := QUIET;
    }

    method OperatorTopUpStream(id: nat, amount: int) returns (out: Outcome)
      modifies this`streams
      ensures (Model(), out) == OperatorTopUp(old(Model()), id, amount)
    {
      if amount <= 0 { return Threw(InsufficientAmount); }
      if id !in streams { return Threw(NotFound); }
      if senderKey !in (if id in operators then operators[id] else []) { return Threw(NotOperator); }
      var stream := streams[id];
      if stream.flowRate == 0 { return Threw(DivisionByZero); }
      streams := streams[id := ToppedUp(stream, amount)];
      out := Done(amount, 0, 0);
    }

    method SplitStream(now: int, id: nat, toA: string, toB: string, num: Number, den: Number) returns (out: Outcome)
      modifies this`streams, this`nextId
      ensures (Model(), out) == Split(old(Model()), now, id, toA, toB, num, den)
    {
      if id !in streams { return Threw(NotFound); }
      var stream := streams[id];
      if stream.status != Active { return Threw(NotActive); }
      if AtMostZero(num) || AtMostZero(den) { return Threw(BadRatio); }
      if AtLeast(num, den) { return Threw(BadRatio); }
      streams := streams[id := stream.(status := Cancelled)];
      var remaining := stream.endTime - Max(now, stream.lastWithdrawTime);
      var balance := SafeClaimable(stream.flowRate, Max(0, remaining), stream.deposit);
      if balance.Failure? { return Threw(balance.error); }
      if !Whole(num) || !Whole(den) { return Threw(NotWhole); }
      WholeRatio(num, den);
      var n, d := num.x.Floor, den.x.Floor;
      var amountA, amountB := balance.value * n / d, balance.value * (d - n) / d;
      streams := streams[nextId := Child(stream, toA, amountA, remaining, now)];
      streams := streams[nextId + 1 := Child(stream, toB, amountB, remaining, now)];
      nextId := nextId + 2;
      out := QUIET;
    }

    method TransferStream(id: nat, recipient: string) returns (out: Outcome)
      modifies this`streams
      ensures (Model(), out) == Transfer(old(Model()), id, recipient)
    {
      if id !in streams { return Threw(NotFound); }
      if streams[id].status != Active { return Threw(NotActive); }
      streams := streams[id := streams[id].(recipient := recipient)];
      out := QUIET;
    }

    method PauseStream(now: int, id: nat) returns (out: Outcome)
      modifies this`streams
      ensures (Model(), out) == Pause(old(Model()), now, id)
    {
      if id !in streams { return Threw(NotFound); }
      if streams[id].status != Active { return Threw(NotActive); }
      streams := streams[id := streams[id].(status := Paused, pausedAt := Some(now))];
      out := QUIET;
    }

    method ResumeStream(now: int, id: nat) returns (out: Outcome)
      modifies this`streams
      ensures (Model(), out) == Resume(old(Model()), now, id)
    {
      if id !in streams { return Threw(NotFound); }
      var stream := streams[id];
      if stream.status != Paused { return Threw(NotPaused); }
      streams := streams[id := Resumed(stream, now)];
      out := Done(0, 0, stream.flowRate * PauseLength(stream, now));
    }

    method Advance(id: nat, seconds: int) returns (out: Outcome)
      modifies this`streams
      ensures (Model(), out) == AdvanceTime(old(Model()), id, seconds)
    {
      if id !in streams { return Threw(NotFound); }
      streams := streams[id := Shifted(streams[id], seconds)];
      out := QUIET;
    }
  }

  // ---- Conservation over the whole ledger ----

  predicate Live(s: Stream) {
    s.status == Active || s.status == Paused
  }

  /** What a live stream may still pay at its rate before it ends. */
  function Potential(s: Stream): int {
    if Live(s) then s.flowRate * (s.endTime - s.lastWithdrawTime) else 0
  }

  /** The potential of all streams with numbers below `n`. */
  function Owed(streams: map<nat, Stream>, n: nat): int {
    if n == 0 then 0 else Owed(streams, n - 1) + if n - 1 in streams then Potential(streams[n - 1]) else 0
  }

  predicate StreamOk(s: Stream, now: int) {
    && s.flowRate >= 0 && s.deposit >= 0
    && (Live(s) ==> s.flowRate == 0 || s.lastWithdrawTime <= s.endTime)
    && (s.status == Paused ==> s.pausedAt.Some? && s.pausedAt.value <= now)
  }

  predicate Inv(l: Ledger, now: int) {
    forall id | id in l.streams :: id < l.nextId && StreamOk(l.streams[id], now)
  }

  lemma DivMul(a: int, b: int)
    requires b > 0 && a >= 0
    ensures 0 <= b * (a / b) <= a && a == b * (a / b) + a % b && a / b >= 0
  {
  }

  lemma {:induction false} OwedSame(m: map<nat, Stream>, m': map<nat, Stream>, n: nat)
    requires forall id | id < n :: (id in m <==> id in m') && (id in m ==> Potential(m[id]) == Potential(m'[id]))
    ensures Owed(m, n) == Owed(m', n)
  {
    if n > 0 { OwedSame(m, m', n - 1); }
  }

  lemma {:induction false} OwedUpdate(m: map<nat, Stream>, id: nat, s: Stream, n: nat)
    requires id < n
    ensures Owed(m[id := s], n) == Owed(m, n) + Potential(s) - if id in m then Potential(m[id]) else 0
  {
    if id < n - 1 {
      OwedUpdate(m, id, s, n - 1);
    } else {
      OwedSame(m, m[id := s], n - 1);
    }
  }

  /** Replacing a stream changes what is owed by the difference in potential. */
  lemma PutOwed(l: Ledger, id: nat, s: Stream, now: int)
    requires Inv(l, now) && id in l.streams && StreamOk(s, now)
    ensures Inv(PutStream(l, id, s), now)
    ensures Owed(PutStream(l, id, s).streams, l.nextId)
        == Owed(l.streams, l.nextId) + Potential(s) - Potential(l.streams[id])
  {
    OwedUpdate(l.streams, id, s, l.nextId);
  }

  /** Adding a stream under a new number adds its potential. */
  lemma AddOwed(l: Ledger, s: Stream, now: int)
    requires Inv(l, now) && StreamOk(s, now)
    ensures var l' := PutStream(l, l.nextId, s).(nextId := l.nextId + 1);
      Inv(l', now) && Owed(l'.streams, l'.nextId) == Owed(l.streams, l.nextId) + Potential(s)
  {
    OwedSame(l.streams, l.streams[l.nextId := s], l.nextId);
  }

  lemma ClaimIsWithinRate(rate: int, elapsed: int, cap: int)
    requires rate >= 0 && elapsed >= 0 && cap >= 0
    ensures var r := SafeClaimable(rate, elapsed, cap); r.Success? ==> 0 <= r.value <= rate * elapsed
  {
    assert rate * elapsed >= 0;
  }

  /** A withdrawal pays no more than the potential it uses up, exactly if it does not move the withdrawal time back. */
  lemma WithdrawPays(s: Stream, now: int)
    requires s.flowRate >= 0 && s.deposit >= 0 && s.status == Active && ClaimableAt(s, now).Success?
    ensures ClaimableAt(s, now).value + Potential(Withdrawn(s, now)) <= Potential(s)
       <==> s.flowRate == 0 || s.lastWithdrawTime <= Min(now, s.endTime)
  {
    var last := Min(now, s.endTime);
    if s.flowRate > 0 {
      PotentialUsed(s, now);
      if s.lastWithdrawTime <= last {
        ClaimIsWithinRate(s.flowRate, last - s.lastWithdrawTime, s.deposit);
      } else {
        MulMonotone(s.flowRate, 1, s.lastWithdrawTime - last);
      }
    }
  }

  /** A withdrawal uses up the potential of the time it withdraws for. */
  lemma PotentialUsed(s: Stream, now: int)
    requires s.status == Active
    ensures Potential(s) == Potential(Withdrawn(s, now)) + s.flowRate * (Min(now, s.endTime) - s.lastWithdrawTime)
  {
    var last := Min(now, s.endTime);
    assert s.flowRate * (s.endTime - s.lastWithdrawTime)
        == s.flowRate * (s.endTime - last) + s.flowRate * (last - s.lastWithdrawTime);
  }

  lemma TopUpPotential(s: Stream, amount: int, now: int)
    requires StreamOk(s, now) && amount > 0 && s.flowRate > 0
    ensures StreamOk(ToppedUp(s, amount), now) && Potential(ToppedUp(s, amount)) <= Potential(s) + amount
  {
    var extra := amount / s.flowRate;
    DivMul(amount, s.flowRate);
    assert s.flowRate * (s.endTime + extra - s.lastWithdrawTime)
        == s.flowRate * (s.endTime - s.lastWithdrawTime) + s.flowRate * extra;
  }

  /** A child stream promises no more than the amount split off for it. */
  lemma ChildPotential(s: Stream, recipient: string, amount: int, remaining: int, now: int)
    requires amount >= 0 && (remaining <= 0 ==> amount == 0)
    ensures var c := Child(s, recipient, amount, remaining, now); StreamOk(c, now) && 0 <= Potential(c) <= amount
  {
    DivMul(amount, Max(1, remaining));
  }

  lemma SharesFit(balance: int, num: int, den: int)
    requires balance >= 0 && 0 < num < den
    ensures 0 <= balance * num / den && 0 <= balance * (den - num) / den
    ensures balance * num / den + balance * (den - num) / den <= balance
    ensures balance == 0 ==> balance * num / den == 0 && balance * (den - num) / den == 0
  {
    var x, y := balance * num, balance * (den - num);
    MulNonNegative(balance, num);
    MulNonNegative(balance, den - num);
    assert x + y == balance * den;
    QuotientsFit(x, y, balance, den);
  }

  lemma MulNonNegative(a: int, b: int)
    requires a >= 0 && b >= 0
    ensures a * b >= 0 && (a == 0 ==> a * b == 0)
  {
  }

  lemma QuotientsFit(x: int, y: int, total: int, den: int)
    requires x >= 0 && y >= 0 && den > 0 && x + y == total * den
    ensures 0 <= x / den && 0 <= y / den && x / den + y / den <= total
  {
    var p, q := x / den, y / den;
    DivMul(x, den);
    DivMul(y, den);
    assert den * (p + q) == den * p + den * q;
    if p + q > total {
      MulMonotone(den, total + 1, p + q);
    }
  }

  lemma SplitBalance(s: Stream, now: int)
    requires StreamOk(s, now) && s.status == Active
    ensures var r := SafeClaimable(s.flowRate, Max(0, Remaining(s, now)), s.deposit);
      && (r.Success? ==> 0 <= r.value <= Potential(s) && (Remaining(s, now) <= 0 ==> r.value == 0))
      && Potential(s) >= 0
  {
    var remaining := Remaining(s, now);
    ClaimIsWithinRate(s.flowRate, Max(0, remaining), s.deposit);
    if s.flowRate > 0 {
      assert s.flowRate * Max(0, remaining) <= s.flowRate * (s.endTime - s.lastWithdrawTime);
    }
  }

  datatype Op =
    | SenderOp(address: string)
    | CreateOp(recipient: string, amount: int, duration: Number, startTime: Option<int>, lock: Option<int>)
    | LockOp(id: nat, until: int)
    | WithdrawOp(id: nat)
    | CancelOp(id: nat)
    | BatchCancelOp(ids: seq<nat>)
    | TopUpOp(id: nat, amount: int)
    | OperatorOp(id: nat, operator: string, approved: bool)
    | OperatorCancelOp(id: nat)
    | OperatorTopUpOp(id: nat, amount: int)
    | SplitOp(id: nat, toA: string, toB: string, num: Number, den: Number)
    | TransferOp(id: nat, recipient: string)
    | PauseOp(id: nat)
    | ResumeOp(id: nat)
    | AdvanceOp(id: nat, seconds: int)

  function Step(l: Ledger, now: int, op: Op): (Ledger, Outcome) {
    match op
    case SenderOp(address) => (l.(senderKey := address), QUIET)
    case CreateOp(recipient, amount, duration, startTime, lock) =>
      Create(l, now, recipient, amount, duration, startTime, lock)
    case LockOp(id, until) => LockUntil(l, id, until)
    case WithdrawOp(id) => Withdraw(l, now, id)
    case CancelOp(id) => Cancel(l, now, id)
    case BatchCancelOp(ids) => BatchCancel(l, ids)
    case TopUpOp(id, amount) => TopUp(l, id, amount)
    case OperatorOp(id, operator, approved) => SetOperator(l, id, operator, approved)
    case OperatorCancelOp(id) => OperatorCancel(l, id)
    case OperatorTopUpOp(id, amount) => OperatorTopUp(l, id, amount)
    case SplitOp(id, toA, toB, num, den) => Split(l, now, id, toA, toB, num, den)
    case TransferOp(id, recipient) => Transfer(l, id, recipient)
    case PauseOp(id) => Pause(l, now, id)
    case ResumeOp(id) => Resume(l, now, id)
    case AdvanceOp(id, seconds) => AdvanceTime(l, id, seconds)
  }

  /** The step keeps the ledger sound and pays out nothing that was not owed, deposited or credited. */
  ghost predicate Conserves(l: Ledger, now: int, step: (Ledger, Outcome)) {
    && Inv(step.0, now)
    && var moved := if step.1.Done? then step.1 else QUIET;
       moved.paid + Owed(step.0.streams, step.0.nextId) <= Owed(l.streams, l.nextId) + moved.deposited + moved.credited
  }

  lemma PotentialNonNegative(s: Stream, now: int)
    requires StreamOk(s, now)
    ensures Potential(s) >= 0
  {
    if Live(s) && s.flowRate > 0 {
      MulNonNegative(s.flowRate, s.endTime - s.lastWithdrawTime);
    }
  }

  lemma EndPotential(l: Ledger, now: int, id: nat)
    requires Inv(l, now) && id in l.streams
    ensures var l' := PutStream(l, id, l.streams[id].(status := Cancelled));
      Inv(l', now) && Owed(l'.streams, l.nextId) == Owed(l.streams, l.nextId) - Potential(l.streams[id])
    ensures Potential(l.streams[id]) >= 0
  {
    PutOwed(l, id, l.streams[id].(status := Cancelled), now);
    PotentialNonNegative(l.streams[id], now);
  }

  lemma {:induction false} BatchConserves(l: Ledger, now: int, ids: seq<nat>)
    requires Inv(l, now)
    ensures Conserves(l, now, BatchCancel(l, ids))
    decreases |ids|
  {
    if ids != [] && ActiveError(l, ids[0]).None? {
      EndPotential(l, now, ids[0]);
      BatchConserves(PutStream(l, ids[0], l.streams[ids[0]].(status := Cancelled)), now, ids[1..]);
    }
  }

  lemma CreateConserves(l: Ledger, now: int, recipient: string, amount: int, duration: Number, startTime: Option<int>,
                        lock: Option<int>)
    requires Inv(l, now)
    ensures Conserves(l, now, Create(l, now, recipient, amount, duration, startTime, lock))
  {
    if amount > 0 && !AtMostZero(duration) && Whole(duration) {
      WholeDuration(duration);
      DivMul(amount, duration.x.Floor);
      AddOwed(l, NewStream(l.senderKey, recipient, amount, duration.x.Floor, now, lock), now);
    }
  }

  lemma TwoAdded(l: Ledger, a: Stream, b: Stream, now: int)
    requires Inv(l, now) && StreamOk(a, now) && StreamOk(b, now)
    ensures var l' := PutStream(PutStream(l, l.nextId, a), l.nextId + 1, b).(nextId := l.nextId + 2);
      Inv(l', now) && Owed(l'.streams, l'.nextId) == Owed(l.streams, l.nextId) + Potential(a) + Potential(b)
  {
    AddOwed(l, a, now);
    AddOwed(PutStream(l, l.nextId, a).(nextId := l.nextId + 1), b, now);
  }

  lemma ChildrenOwed(l: Ledger, s: Stream, now: int, balance: int, toA: string, toB: string, num: int, den: int)
    requires Inv(l, now) && balance >= 0 && 0 < num < den && (Remaining(s, now) <= 0 ==> balance == 0)
    ensures var l' := AddChildren(l, s, now, balance, toA, toB, num, den);
      Inv(l', now) && Owed(l'.streams, l'.nextId) <= Owed(l.streams, l.nextId) + balance
  {
    var x, y, remaining := balance * num / den, balance * (den - num) / den, Remaining(s, now);
    SharesFit(balance, num, den);
    ChildPotential(s, toA, x, remaining, now);
    ChildPotential(s, toB, y, remaining, now);
    TwoAdded(l, Child(s, toA, x, remaining, now), Child(s, toB, y, remaining, now), now);
  }

  lemma SplitConserves(l: Ledger, now: int, id: nat, toA: string, toB: string, num: Number, den: Number)
    requires Inv(l, now)
    ensures Conserves(l, now, Split(l, now, id, toA, toB, num, den))
  {
    if ActiveError(l, id).None? && !RatioRefused(num, den) {
      var s := l.streams[id];
      EndPotential(l, now, id);
      SplitBalance(s, now);
      var r := SafeClaimable(s.flowRate, Max(0, Remaining(s, now)), s.deposit);
      if r.Success? && Whole(num) && Whole(den) {
        WholeRatio(num, den);
        var l1 := PutStream(l, id, s.(status := Cancelled));
        ChildrenOwed(l1, s, now, r.value, toA, toB, num.x.Floor, den.x.Floor);
      }
    }
  }

  /** The withdrawal time of the stream withdrawn from is not ahead of the clock, or does not matter. */
  predicate Guarded(l: Ledger, now: int, op: Op) {
    op.WithdrawOp? && ActiveError(l, op.id).None? && ClaimableAt(l.streams[op.id], now).Success? ==>
      l.streams[op.id].flowRate == 0 || l.streams[op.id].lastWithdrawTime <= now
  }

  lemma WithdrawConserves(l: Ledger, now: int, id: nat)
    requires Inv(l, now)
    ensures Conserves(l, now, Withdraw(l, now, id)) <==> Guarded(l, now, WithdrawOp(id))
  {
    if ActiveError(l, id).None? && ClaimableAt(l.streams[id], now).Success? {
      WithdrawPays(l.streams[id], now);
      PutOwed(l, id, Withdrawn(l.streams[id], now), now);
    }
  }

  lemma TopUpConserves(l: Ledger, now: int, id: nat, amount: int)
    requires Inv(l, now)
    ensures Conserves(l, now, TopUp(l, id, amount)) && Conserves(l, now, OperatorTopUp(l, id, amount))
  {
    if amount > 0 && id in l.streams && l.streams[id].flowRate != 0 {
      TopUpPotential(l.streams[id], amount, now);
      PutOwed(l, id, ToppedUp(l.streams[id], amount), now);
    }
  }

  lemma ResumeConserves(l: Ledger, now: int, id: nat)
    requires Inv(l, now)
    ensures Conserves(l, now, Resume(l, now, id))
  {
    if id in l.streams && l.streams[id].status == Paused {
      var s := l.streams[id];
      var pause := PauseLength(s, now);
      assert s.flowRate * (s.endTime + pause - s.lastWithdrawTime)
          == s.flowRate * (s.endTime - s.lastWithdrawTime) + s.flowRate * pause;
      PutOwed(l, id, Resumed(s, now), now);
    }
  }

  /** The calls that move no money. */
  lemma QuietConserves(l: Ledger, now: int, id: nat, recipient: string, until: int, seconds: int)
    requires Inv(l, now)
    ensures Conserves(l, now, LockUntil(l, id, until)) && Conserves(l, now, Transfer(l, id, recipient))
    ensures Conserves(l, now, Pause(l, now, id))
    ensures Conserves(l, now, AdvanceTime(l, id, seconds))
  {
    if id in l.streams {
      var s := l.streams[id];
      PutOwed(l, id, s.(lockUntil := Some(until)), now);
      PutOwed(l, id, s.(recipient := recipient), now);
      if s.status == Active { PutOwed(l, id, s.(status := Paused, pausedAt := Some(now)), now); }
      PutOwed(l, id, Shifted(s, seconds), now);
    }
  }

  lemma CancelConserves(l: Ledger, now: int, id: nat)
    requires Inv(l, now)
    ensures Conserves(l, now, Cancel(l, now, id)) && Conserves(l, now, OperatorCancel(l, id))
  {
    if id in l.streams {
      EndPotential(l, now, id);
    }
  }

  /**
    A call pays out nothing that was not owed, deposited or credited, unless it is an unguarded withdrawal, and then
    it does.
    */
  lemma StepConserves(l: Ledger, now: int, op: Op)
    requires Inv(l, now)
    ensures Conserves(l, now, Step(l, now, op)) <==> Guarded(l, now, op)
  {
    match op
    case SenderOp(_) =>
    case CreateOp(recipient, amount, duration, startTime, lock) =>
      CreateConserves(l, now, recipient, amount, duration, startTime, lock);
    case LockOp(id, until) => QuietConserves(l, now, id, "", until, 0);
    case WithdrawOp(id) => WithdrawConserves(l, now, id);
    case CancelOp(id) => CancelConserves(l, now, id);
    case BatchCancelOp(ids) => BatchConserves(l, now, ids);
    case TopUpOp(id, amount) => TopUpConserves(l, now, id, amount);
    case OperatorOp(_, _, _) =>
    case OperatorCancelOp(id) => CancelConserves(l, now, id);
    case OperatorTopUpOp(id, amount) => TopUpConserves(l, now, id, amount);
    case SplitOp(id, toA, toB, num, den) => SplitConserves(l, now, id, toA, toB, num, den);
    case TransferOp(id, recipient) => QuietConserves(l, now, id, recipient, 0, 0);
    case PauseOp(id) => QuietConserves(l, now, id, "", 0, 0);
    case ResumeOp(id) => ResumeConserves(l, now, id);
    case AdvanceOp(id, seconds) => QuietConserves(l, now, id, "", 0, seconds);
  }

  datatype Timed = Timed(now: int, op: Op)

  datatype Totals = Totals(deposited: int, paid: int, credited: int)

  function Initial(senderKey: string): Ledger {
    Ledger(map[], map[], senderKey, 1)
  }

  function Run(senderKey: string, ops: seq<Timed>): (Ledger, Totals) {
    if ops == [] then (Initial(senderKey), Totals(0, 0, 0))
    else
      var (l, t) := Run(senderKey, ops[..|ops| - 1]);
      var (l', out) := Step(l, ops[|ops| - 1].now, ops[|ops| - 1].op);
      (l', if out.Done? then Totals(t.deposited + out.deposited, t.paid + out.paid, t.credited + out.credited) else t)
  }

  predicate MonotoneClock(ops: seq<Timed>) {
    forall i, j | 0 <= i < j < |ops| :: ops[i].now <= ops[j].now
  }

  ghost predicate AllGuarded(senderKey: string, ops: seq<Timed>) {
    forall k | 0 <= k < |ops| :: Guarded(Run(senderKey, ops[..k]).0, ops[k].now, ops[k].op)
  }

  /** The clock never runs backwards, and no withdrawal finds a withdrawal time ahead of it. */
  ghost predicate Timely(senderKey: string, ops: seq<Timed>) {
    MonotoneClock(ops) && AllGuarded(senderKey, ops)
  }

  lemma TimelyPrefix(senderKey: string, ops: seq<Timed>)
    requires Timely(senderKey, ops) && ops != []
    ensures Timely(senderKey, ops[..|ops| - 1])
  {
    var n := |ops| - 1;
    assert forall k | 0 <= k < n :: ops[..n][..k] == ops[..k];
  }

  /**
    Over any run, what has been paid out plus what live streams may still pay never exceeds what was deposited plus
    the rate times the length of each pause that was resumed.
    */
  lemma {:induction false} LedgerConserves(senderKey: string, ops: seq<Timed>)
    requires Timely(senderKey, ops)
    ensures var (l, t) := Run(senderKey, ops);
      && t.paid + Owed(l.streams, l.nextId) <= t.deposited + t.credited
      && (ops != [] ==> Inv(l, ops[|ops| - 1].now))
  {
    if ops == [] {
      assert Owed(map[], 0) == 0;
    } else {
      var n := |ops| - 1;
      var (l, _) := Run(senderKey, ops[..n]);
      TimelyPrefix(senderKey, ops);
      LedgerConserves(senderKey, ops[..n]);
      assert Inv(l, ops[n].now) by {
        if n > 0 { assert ops[..n][n - 1] == ops[n - 1]; }
      }
      StepConserves(l, ops[n].now, ops[n].op);
    }
  }

  lemma {:induction false} OwedNonNegative(l: Ledger, now: int, n: nat)
    requires Inv(l, now)
    ensures Owed(l.streams, n) >= 0
  {
    if n > 0 {
      OwedNonNegative(l, now, n - 1);
      if n - 1 in l.streams {
        PotentialNonNegative(l.streams[n - 1], now);
      }
    }
  }

  lemma {:induction false} NoResumeNoCredit(senderKey: string, ops: seq<Timed>)
    requires forall i | 0 <= i < |ops| :: !ops[i].op.ResumeOp?
    ensures Run(senderKey, ops).1.credited == 0
  {
    if ops != [] {
      NoResumeNoCredit(senderKey, ops[..|ops| - 1]);
      if ops[|ops| - 1].op.BatchCancelOp? {
        BatchIsQuiet(Run(senderKey, ops[..|ops| - 1]).0, ops[|ops| - 1].op.ids);
      }
    }
  }

  lemma {:induction false} BatchIsQuiet(l: Ledger, ids: seq<nat>)
    ensures BatchCancel(l, ids).1.Done? ==> BatchCancel(l, ids).1 == QUIET
    decreases |ids|
  {
    if ids != [] && ActiveError(l, ids[0]).None? {
      BatchIsQuiet(PutStream(l, ids[0], l.streams[ids[0]].(status := Cancelled)), ids[1..]);
    }
  }

  /** Without resumes, payouts across all streams and splits never exceed the deposits. */
  lemma PayoutsWithinDeposits(senderKey: string, ops: seq<Timed>)
    requires Timely(senderKey, ops) && forall i | 0 <= i < |ops| :: !ops[i].op.ResumeOp?
    ensures Run(senderKey, ops).1.paid <= Run(senderKey, ops).1.deposited
  {
    LedgerConserves(senderKey, ops);
    NoResumeNoCredit(senderKey, ops);
    if ops != [] {
      var l := Run(senderKey, ops).0;
      OwedNonNegative(l, ops[|ops| - 1].now, l.nextId);
    }
  }

  /** A run that advances a stream by a negative time. */
  function BackwardsRun(): seq<Timed> {
    [Timed(0, CreateOp("bob", 10, Finite(10.0), None, None)), Timed(0, AdvanceOp(1, -5)), Timed(0, WithdrawOp(1)),
     Timed(3, WithdrawOp(1)), Timed(15, WithdrawOp(1))]
  }

  /** Withdrawing after an advance by a negative time can pay out more than was deposited. */
  lemma BackwardsAdvanceOverpays()
    ensures Run("alice", BackwardsRun()).1 == Totals(10, 13, 0)
  {
    var ops := BackwardsRun();
    assert ops[..4][..3] == ops[..3] && ops[..3][..2] == ops[..2] && ops[..2][..1] == ops[..1] && ops[..1][..0] == [];
    var s0 := Stream("alice", "bob", 10, 1, 0, 10, 0, Active, None, None);
    var s1 := s0.(startTime := 5, endTime := 15, lastWithdrawTime := 5);
    var s2, s3 := s1.(lastWithdrawTime := 0), s1.(lastWithdrawTime := 3);
    assert NewStream("alice", "bob", 10, 10, 0, None) == s0;
    assert Run("alice", ops[..1]) == (OneStream(s0), Totals(10, 0, 0));
    Replaced(s0, s1);
    assert Run("alice", ops[..2]) == (OneStream(s1), Totals(10, 0, 0));
    Replaced(s1, s2);
    assert Run("alice", ops[..3]) == (OneStream(s2), Totals(10, 0, 0));
    Replaced(s2, s3);
    assert Run("alice", ops[..4]) == (OneStream(s3), Totals(10, 3, 0));
  }

  function OneStream(s: Stream): Ledger {
    Ledger(map[1 := s], map[], "alice", 2)
  }

  lemma Replaced(s: Stream, s': Stream)
    ensures PutStream(OneStream(s), 1, s') == OneStream(s')
  {
  }

  // ---- Calls that throw ----

  /** A split that gets past its checks, and then fails to compute the shares. */
  predicate SplitFailsLate(l: Ledger, now: int, op: Op) {
    && op.SplitOp? && ActiveError(l, op.id).None? && !RatioRefused(op.num, op.den)
    && var s := l.streams[op.id];
       || !Whole(op.num) || !Whole(op.den)
       || SafeClaimable(s.flowRate, Max(0, Remaining(s, now)), s.deposit).Failure?
  }

  /** A creation that gets past its checks with a duration that is not whole. */
  predicate CreateFailsLate(l: Ledger, now: int, op: Op) {
    && op.CreateOp? && op.amount > 0 && !(l.senderKey != "" && op.recipient == l.senderKey)
    && !(op.startTime.Some? && op.startTime.value < now) && !AtMostZero(op.duration) && !Whole(op.duration)
  }

  /** The batch cancels at least its first stream before it fails. */
  predicate BatchStarts(l: Ledger, op: Op) {
    op.BatchCancelOp? && op.ids != [] && ActiveError(l, op.ids[0]).None?
  }

  lemma {:induction false} CancelledStays(l: Ledger, ids: seq<nat>, id: nat)
    requires id in l.streams && l.streams[id].status == Cancelled
    ensures var l' := BatchCancel(l, ids).0; id in l'.streams && l'.streams[id].status == Cancelled
    decreases |ids|
  {
    if ids != [] && ActiveError(l, ids[0]).None? {
      CancelledStays(PutStream(l, ids[0], l.streams[ids[0]].(status := Cancelled)), ids[1..], id);
    }
  }

  /**
    A call that throws leaves the ledger as it was, except exactly for a split whose balance overflows or whose ratio is
    not one of whole numbers, a creation whose duration is not whole, and a batch that had begun.
    */
  lemma ThrowKeepsLedger(l: Ledger, now: int, op: Op)
    requires Step(l, now, op).1.Threw?
    ensures Step(l, now, op).0 == l <==>
      !SplitFailsLate(l, now, op) && !CreateFailsLate(l, now, op) && !BatchStarts(l, op)
  {
    if BatchStarts(l, op) {
      var id := op.ids[0];
      CancelledStays(PutStream(l, id, l.streams[id].(status := Cancelled)), op.ids[1..], id);
    } else if SplitFailsLate(l, now, op) {
      assert Step(l, now, op).0.streams[op.id].status == Cancelled;
    }
  }

  /** A creation that throws creates nothing: all it uses up is a number. */
  lemma LateCreationUsesNumber(l: Ledger, now: int, op: Op)
    requires CreateFailsLate(l, now, op)
    ensures Step(l, now, op) == (l.(nextId := l.nextId + 1), Threw(NotWhole))
  {
  }

  /** A deposit above the i128 range makes a split overflow, and leaves its stream cancelled. */
  lemma SplitOverflowCancels()
    ensures var create := CreateOp("bob", 2 * (I128_MAX + 1), Finite(1.0), None, None);
      var l := Step(Initial("alice"), 0, create).0;
      var (l', out) := Step(l, 0, SplitOp(1, "carol", "dave", Finite(1.0), Finite(2.0)));
      out == Threw(Overflow) && l.streams[1].status == Active && l'.streams[1].status == Cancelled
  {
  }

  /** 0.7 to 1 gets past the checks, and 0.7 is not whole. */
  lemma SevenTenths()
    ensures !Whole(Finite(0.7)) && !RatioRefused(Finite(0.7), Finite(1.0))
  {
  }

  lemma UnwholeSplit(l: Ledger, now: int, id: nat, toA: string, toB: string, num: Number, den: Number)
    requires ActiveError(l, id).None? && !RatioRefused(num, den) && !Whole(num)
    requires var s := l.streams[id]; SafeClaimable(s.flowRate, Max(0, Remaining(s, now)), s.deposit).Success?
    ensures Split(l, now, id, toA, toB, num, den)
         == (PutStream(l, id, l.streams[id].(status := Cancelled)), Threw(NotWhole))
  {
  }

  /** Splitting any active stream in the ratio 0.7 to 1 throws, and leaves it cancelled. */
  lemma FractionalSplitCancels(l: Ledger, now: int, id: nat, toA: string, toB: string)
    requires ActiveError(l, id).None?
    requires var s := l.streams[id]; SafeClaimable(s.flowRate, Max(0, Remaining(s, now)), s.deposit).Success?
    ensures Split(l, now, id, toA, toB, Finite(0.7), Finite(1.0))
         == (PutStream(l, id, l.streams[id].(status := Cancelled)), Threw(NotWhole))
  {
    SevenTenths();
    UnwholeSplit(l, now, id, toA, toB, Finite(0.7), Finite(1.0));
  }

  // ---- One stream: the schedule of withdrawals does not matter ----

  /** What was deposited for a stream, paid out, forfeited to locks, and the dust its flow rate cannot pay. */
  datatype Account = Account(amount: int, toppedUp: int, paid: int, forfeited: int, dust: int)

  const NO_ACCOUNT := Account(0, 0, 0, 0, 0)

  /** The account of a stream just created, directly or by a split. */
  function Opened(s: Stream): Account {
    Account(s.deposit, 0, 0, 0, s.deposit % Max(1, s.endTime - s.startTime))
  }

  /** What a withdrawal while locked gives up. */
  function Forfeit(s: Stream, now: int): int {
    if IsLocked(s, now) then s.flowRate * (Min(now, s.endTime) - s.lastWithdrawTime) else 0
  }

  /** Books kept beside the ledger for stream `id`: what one call adds to its account. */
  function Book(a: Account, l: Ledger, now: int, op: Op, id: nat): Account {
    var (l', out) := Step(l, now, op);
    if id !in l.streams then if id in l'.streams then Opened(l'.streams[id]) else a
    else
      match op
      case WithdrawOp(i) =>
        if i == id && out.Done? then a.(paid := a.paid + out.paid,
            forfeited := a.forfeited + Forfeit(l.streams[id], now)) else a
      case TopUpOp(i, amount) => if i == id && out.Done? then ToppedUpAccount(a, l.streams[id], amount) else a
      case OperatorTopUpOp(i, amount) => if i == id && out.Done? then ToppedUpAccount(a, l.streams[id], amount) else a
      case _ => a
  }

  function ToppedUpAccount(a: Account, s: Stream, amount: int): Account {
    a.(toppedUp := a.toppedUp + amount, dust := a.dust + if s.flowRate == 0 then 0 else amount % s.flowRate)
  }

  function Booked(senderKey: string, ops: seq<Timed>, id: nat): Account {
    if ops == [] then NO_ACCOUNT
    else
      var n := |ops| - 1;
      Book(Booked(senderKey, ops[..n], id), Run(senderKey, ops[..n]).0, ops[n].now, ops[n].op, id)
  }

  /**
    The call leaves stream `id` to withdrawals, top-ups, locks, transfers and clock shifts: it does not pause, resume,
    split or cancel it, operators top it up only while it is active, and its withdrawals are guarded.
    */
  predicate Plain(l: Ledger, now: int, op: Op, id: nat) {
    && (op.WithdrawOp? && op.id == id ==> Guarded(l, now, op))
    && (op.OperatorTopUpOp? && op.id == id && id in l.streams ==> l.streams[id].status == Active)
    && (op.CancelOp? || op.OperatorCancelOp? || op.SplitOp? || op.PauseOp? || op.ResumeOp? ==> op.id != id)
    && (op.BatchCancelOp? ==> id !in op.ids)
  }

  ghost predicate PlainRun(senderKey: string, ops: seq<Timed>, id: nat) {
    forall k | 0 <= k < |ops| :: Plain(Run(senderKey, ops[..k]).0, ops[k].now, ops[k].op, id)
  }

  predicate BooksBalance(s: Stream, a: Account) {
    && (s.status == Active || s.status == Completed)
    && s.flowRate >= 0 && (s.flowRate > 0 ==> s.startTime <= s.lastWithdrawTime <= s.endTime)
    && s.deposit == a.amount + a.toppedUp == s.flowRate * (s.endTime - s.startTime) + a.dust && a.dust >= 0
    && a.paid + a.forfeited == s.flowRate * (s.lastWithdrawTime - s.startTime)
    && a.forfeited >= 0 && (s.lockUntil.None? ==> a.forfeited == 0)
    && (s.status == Completed ==> s.lastWithdrawTime == s.endTime)
  }

  lemma MulMonotone(r: int, a: int, b: int)
    requires r >= 0 && a <= b
    ensures r * a <= r * b
  {
    MulNonNegative(r, b - a);
  }

  /** What can be claimed is all that has flowed since the last withdrawal. */
  predicate Uncapped(s: Stream, now: int) {
    ClaimableAt(s, now).Success? ==>
      ClaimableAt(s, now).value == s.flowRate * Max(0, Min(now, s.endTime) - s.lastWithdrawTime)
  }

  /** A stream with balanced books has earned no more than its deposit: the cap never binds. */
  lemma ClaimUncapped(s: Stream, a: Account, now: int)
    requires BooksBalance(s, a) && s.status == Active && !IsLocked(s, now)
    ensures Uncapped(s, now)
  {
    var elapsed := Max(0, Min(now, s.endTime) - s.lastWithdrawTime);
    if s.flowRate > 0 {
      MulMonotone(s.flowRate, elapsed, s.endTime - s.startTime);
    }
  }

  /** Paid out or forfeited: together a withdrawal takes exactly what flowed since the last one. */
  lemma WithdrawalTakes(s: Stream, a: Account, now: int)
    requires BooksBalance(s, a) && s.status == Active && ClaimableAt(s, now).Success?
    requires s.flowRate == 0 || s.lastWithdrawTime <= now
    ensures ClaimableAt(s, now).value + Forfeit(s, now) == s.flowRate * (Min(now, s.endTime) - s.lastWithdrawTime)
    ensures Forfeit(s, now) >= 0
  {
    if s.flowRate > 0 {
      MulNonNegative(s.flowRate, Min(now, s.endTime) - s.lastWithdrawTime);
    }
    if !IsLocked(s, now) {
      ClaimUncapped(s, a, now);
    }
  }

  lemma WithdrawalBooks(s: Stream, a: Account, now: int)
    requires BooksBalance(s, a) && s.status == Active && ClaimableAt(s, now).Success?
    requires s.flowRate == 0 || s.lastWithdrawTime <= now
    ensures BooksBalance(Withdrawn(s, now),
                         a.(paid := a.paid + ClaimableAt(s, now).value, forfeited := a.forfeited + Forfeit(s, now)))
  {
    WithdrawalTakes(s, a, now);
    Distributes(s.flowRate, s.lastWithdrawTime - s.startTime, Min(now, s.endTime) - s.lastWithdrawTime);
  }

  lemma Distributes(r: int, a: int, b: int)
    ensures r * (a + b) == r * a + r * b
  {
  }

  lemma AdditionBooks(s: Stream, a: Account, amount: int)
    requires BooksBalance(s, a) && s.status == Active && amount > 0 && s.flowRate != 0
    ensures BooksBalance(ToppedUp(s, amount), ToppedUpAccount(a, s, amount))
  {
    DivMul(amount, s.flowRate);
    assert s.flowRate * (s.endTime + amount / s.flowRate - s.startTime)
        == s.flowRate * (s.endTime - s.startTime) + s.flowRate * (amount / s.flowRate);
  }

  lemma ShiftBooks(s: Stream, a: Account, seconds: int)
    requires BooksBalance(s, a)
    ensures BooksBalance(Shifted(s, seconds), a)
  {
  }

  /** A stream starts with its deposit spread over its whole seconds and the remainder as dust. */
  lemma OpenedBooks(s: Stream)
    requires s.status == Active && s.lastWithdrawTime == s.startTime && s.deposit >= 0
    requires s.flowRate == s.deposit / Max(1, s.endTime - s.startTime)
    requires s.endTime <= s.startTime ==> s.deposit == 0
    ensures BooksBalance(s, Opened(s))
  {
    DivMul(s.deposit, Max(1, s.endTime - s.startTime));
  }

  /** Rates and deposits are never negative, whatever the clock does. */
  predicate Nonnegative(l: Ledger) {
    forall id | id in l.streams :: id < l.nextId && l.streams[id].flowRate >= 0 && l.streams[id].deposit >= 0
  }

  lemma {:induction false} BatchElsewhere(l: Ledger, ids: seq<nat>, id: nat)
    requires id !in ids
    ensures var l' := BatchCancel(l, ids).0;
      (id in l'.streams <==> id in l.streams) && (id in l.streams ==> l'.streams[id] == l.streams[id])
    decreases |ids|
  {
    if ids != [] && ActiveError(l, ids[0]).None? {
      BatchElsewhere(PutStream(l, ids[0], l.streams[ids[0]].(status := Cancelled)), ids[1..], id);
    }
  }

  lemma {:induction false} BatchNonnegative(l: Ledger, ids: seq<nat>)
    requires Nonnegative(l)
    ensures Nonnegative(BatchCancel(l, ids).0)
    decreases |ids|
  {
    if ids != [] && ActiveError(l, ids[0]).None? {
      BatchNonnegative(PutStream(l, ids[0], l.streams[ids[0]].(status := Cancelled)), ids[1..]);
    }
  }

  /** The children of a split start with balanced books. */
  lemma ChildrenOpen(l: Ledger, now: int, id: nat, toA: string, toB: string, num: Number, den: Number)
    requires Nonnegative(l) && Split(l, now, id, toA, toB, num, den).1.Done?
    ensures var l' := Split(l, now, id, toA, toB, num, den).0;
      && l'.streams.Keys == l.streams.Keys + {l.nextId, l.nextId + 1} && l'.nextId == l.nextId + 2
      && (forall i | i in l.streams && i != id :: l'.streams[i] == l.streams[i])
      && Nonnegative(l')
      && BooksBalance(l'.streams[l.nextId], Opened(l'.streams[l.nextId]))
      && BooksBalance(l'.streams[l.nextId + 1], Opened(l'.streams[l.nextId + 1]))
  {
    var s, remaining := l.streams[id], Remaining(l.streams[id], now);
    var balance := SafeClaimable(s.flowRate, Max(0, remaining), s.deposit).value;
    WholeRatio(num, den);
    var n, d := num.x.Floor, den.x.Floor;
    ClaimIsWithinRate(s.flowRate, Max(0, remaining), s.deposit);
    SharesFit(balance, n, d);
    ChildOpens(s, toA, balance * n / d, remaining, now);
    ChildOpens(s, toB, balance * (d - n) / d, remaining, now);
  }

  lemma ChildOpens(s: Stream, recipient: string, amount: int, remaining: int, now: int)
    requires amount >= 0 && (remaining <= 0 ==> amount == 0)
    ensures var c := Child(s, recipient, amount, remaining, now);
      c.flowRate >= 0 && c.deposit >= 0 && BooksBalance(c, Opened(c))
  {
    DivMul(amount, Max(1, remaining));
    OpenedBooks(Child(s, recipient, amount, remaining, now));
  }

  lemma CreateOpens(l: Ledger, now: int, recipient: string, amount: int, duration: Number, startTime: Option<int>,
                    lock: Option<int>)
    requires Nonnegative(l) && Create(l, now, recipient, amount, duration, startTime, lock).1.Done?
    ensures var l' := Create(l, now, recipient, amount, duration, startTime, lock).0;
      Nonnegative(l') && BooksBalance(l'.streams[l.nextId], Opened(l'.streams[l.nextId]))
  {
    WholeDuration(duration);
    DivMul(amount, duration.x.Floor);
    OpenedBooks(NewStream(l.senderKey, recipient, amount, duration.x.Floor, now, lock));
  }

  lemma TopUpNonnegative(l: Ledger, id: nat, amount: int)
    requires Nonnegative(l)
    ensures Nonnegative(TopUp(l, id, amount).0) && Nonnegative(OperatorTopUp(l, id, amount).0)
  {
  }

  /** Calls that change neither the rate nor the deposit of any stream. */
  lemma QuietNonnegative(l: Ledger, now: int, op: Op)
    requires Nonnegative(l)
    requires !op.CreateOp? && !op.BatchCancelOp? && !op.TopUpOp? && !op.OperatorTopUpOp? && !op.SplitOp?
    ensures Nonnegative(Step(l, now, op).0)
  {
  }

  lemma SplitNonnegative(l: Ledger, now: int, id: nat, toA: string, toB: string, num: Number, den: Number)
    requires Nonnegative(l)
    ensures Nonnegative(Split(l, now, id, toA, toB, num, den).0)
  {
    if Split(l, now, id, toA, toB, num, den).1.Done? { ChildrenOpen(l, now, id, toA, toB, num, den); }
  }

  lemma StepNonnegative(l: Ledger, now: int, op: Op)
    requires Nonnegative(l)
    ensures Nonnegative(Step(l, now, op).0)
  {
    match op
    case CreateOp(recipient, amount, duration, startTime, lock) =>
      if Step(l, now, op).1.Done? { CreateOpens(l, now, recipient, amount, duration, startTime, lock); }
    case BatchCancelOp(ids) => BatchNonnegative(l, ids);
    case TopUpOp(id, amount) => TopUpNonnegative(l, id, amount);
    case OperatorTopUpOp(id, amount) => TopUpNonnegative(l, id, amount);
    case SplitOp(id, toA, toB, num, den) => SplitNonnegative(l, now, id, toA, toB, num, den);
    case _ => QuietNonnegative(l, now, op);
  }

  lemma {:induction false} RunNonnegative(senderKey: string, ops: seq<Timed>)
    ensures Nonnegative(Run(senderKey, ops).0)
  {
    if ops != [] {
      var n := |ops| - 1;
      RunNonnegative(senderKey, ops[..n]);
      StepNonnegative(Run(senderKey, ops[..n]).0, ops[n].now, ops[n].op);
    }
  }

  /** A call that creates stream `id`. */
  lemma CreationBooks(l: Ledger, now: int, op: Op, id: nat)
    requires Nonnegative(l) && id !in l.streams && id in Step(l, now, op).0.streams
    ensures BooksBalance(Step(l, now, op).0.streams[id], Opened(Step(l, now, op).0.streams[id]))
  {
    match op
    case CreateOp(recipient, amount, duration, startTime, lock) =>
      CreateOpens(l, now, recipient, amount, duration, startTime, lock);
    case BatchCancelOp(ids) => BatchCreatesNone(l, ids, id);
    case SplitOp(i, toA, toB, num, den) => ChildrenOpen(l, now, i, toA, toB, num, den);
    case _ =>
  }

  lemma {:induction false} BatchCreatesNone(l: Ledger, ids: seq<nat>, id: nat)
    ensures id in BatchCancel(l, ids).0.streams <==> id in l.streams
    decreases |ids|
  {
    if ids != [] && ActiveError(l, ids[0]).None? {
      BatchCreatesNone(PutStream(l, ids[0], l.streams[ids[0]].(status := Cancelled)), ids[1..], id);
    }
  }

  lemma TopUpBooks(l: Ledger, now: int, i: nat, amount: int, id: nat, a: Account)
    requires id in l.streams && BooksBalance(l.streams[id], a)
    ensures BooksBalance(Step(l, now, TopUpOp(i, amount)).0.streams[id], Book(a, l, now, TopUpOp(i, amount), id))
    ensures i == id && l.streams[id].status == Active ==>
      BooksBalance(Step(l, now, OperatorTopUpOp(i, amount)).0.streams[id],
                   Book(a, l, now, OperatorTopUpOp(i, amount), id))
  {
    if i == id && l.streams[id].status == Active && amount > 0 && l.streams[id].flowRate != 0 {
      AdditionBooks(l.streams[id], a, amount);
    }
  }

  /** Calls that move no money to or from stream `id`. */
  lemma QuietBooks(l: Ledger, now: int, op: Op, id: nat, a: Account)
    requires Nonnegative(l) && Plain(l, now, op, id) && id in l.streams && BooksBalance(l.streams[id], a)
    requires op.SenderOp? || op.CreateOp? || op.LockOp? || op.CancelOp? || op.OperatorOp? || op.OperatorCancelOp?
          || op.TransferOp? || op.PauseOp? || op.ResumeOp?
    ensures id in Step(l, now, op).0.streams && BooksBalance(Step(l, now, op).0.streams[id], a)
    ensures Book(a, l, now, op, id) == a
  {
  }

  /** A plain call on an existing stream keeps its books balanced. */
  lemma StepBooks(l: Ledger, now: int, op: Op, id: nat, a: Account)
    requires Nonnegative(l) && Plain(l, now, op, id) && id in l.streams && BooksBalance(l.streams[id], a)
    ensures id in Step(l, now, op).0.streams && BooksBalance(Step(l, now, op).0.streams[id], Book(a, l, now, op, id))
  {
    match op
    case WithdrawOp(i) =>
      if i == id && Step(l, now, op).1.Done? { WithdrawalBooks(l.streams[id], a, now); }
    case TopUpOp(i, amount) => TopUpBooks(l, now, i, amount, id, a);
    case OperatorTopUpOp(i, amount) => if i == id { TopUpBooks(l, now, i, amount, id, a); }
    case AdvanceOp(i, seconds) => if i == id { ShiftBooks(l.streams[id], a, seconds); }
    case BatchCancelOp(ids) => BatchElsewhere(l, ids, id);
    case SplitOp(i, toA, toB, num, den) => SplitElsewhere(l, now, i, toA, toB, num, den, id);
    case _ => QuietBooks(l, now, op, id, a);
  }

  lemma SplitElsewhere(l: Ledger, now: int, i: nat, toA: string, toB: string, num: Number, den: Number, id: nat)
    requires Nonnegative(l) && id in l.streams && id != i
    ensures var l' := Split(l, now, i, toA, toB, num, den).0; id in l'.streams && l'.streams[id] == l.streams[id]
  {
  }

  lemma PlainPrefix(senderKey: string, ops: seq<Timed>, id: nat)
    requires PlainRun(senderKey, ops, id) && ops != []
    ensures PlainRun(senderKey, ops[..|ops| - 1], id)
  {
    var n := |ops| - 1;
    assert forall k | 0 <= k < n :: ops[..n][..k] == ops[..k];
  }

  /**
    Whatever else the ledger does and whatever the schedule of withdrawals and top-ups of one stream: what was paid to
    it plus what locks forfeited is exactly its flow rate times the time withdrawn for, and its deposit is the whole
    flow plus the dust.
    */
  lemma {:induction false} FlowAccounting(senderKey: string, ops: seq<Timed>, id: nat)
    requires PlainRun(senderKey, ops, id)
    ensures var l := Run(senderKey, ops).0;
      id in l.streams ==> BooksBalance(l.streams[id], Booked(senderKey, ops, id))
  {
    if ops != [] {
      var n := |ops| - 1;
      var l := Run(senderKey, ops[..n]).0;
      PlainPrefix(senderKey, ops, id);
      FlowAccounting(senderKey, ops[..n], id);
      RunNonnegative(senderKey, ops[..n]);
      assert Plain(l, ops[n].now, ops[n].op, id);
      if id in l.streams {
        StepBooks(l, ops[n].now, ops[n].op, id, Booked(senderKey, ops[..n], id));
      } else if id in Step(l, ops[n].now, ops[n].op).0.streams {
        CreationBooks(l, ops[n].now, ops[n].op, id);
      }
    }
  }

  /** The deposit never caps what the flow rate has earned. */
  lemma CapNeverBinds(senderKey: string, ops: seq<Timed>, id: nat, now: int)
    requires PlainRun(senderKey, ops, id) && id in Run(senderKey, ops).0.streams
    requires var s := Run(senderKey, ops).0.streams[id]; s.status == Active && !IsLocked(s, now)
    ensures Uncapped(Run(senderKey, ops).0.streams[id], now)
  {
    var s := Run(senderKey, ops).0.streams[id];
    FlowAccounting(senderKey, ops, id);
    ClaimUncapped(s, Booked(senderKey, ops, id), now);
  }

  lemma CompletedBooks(s: Stream, a: Account)
    requires BooksBalance(s, a) && s.status == Completed
    ensures a.amount + a.toppedUp - a.paid == a.dust + a.forfeited
  {
  }

  lemma UnlockedBooks(s: Stream, a: Account, t: Stream, b: Account)
    requires BooksBalance(s, a) && BooksBalance(t, b) && s.lockUntil.None? && t.lockUntil.None?
    requires s.flowRate == t.flowRate && s.lastWithdrawTime - s.startTime == t.lastWithdrawTime - t.startTime
    ensures a.paid == b.paid
  {
  }

  /** At completion, what is left unpaid is exactly the remainders of the divisions, plus what locks forfeited. */
  lemma DustAtCompletion(senderKey: string, ops: seq<Timed>, id: nat)
    requires PlainRun(senderKey, ops, id)
    ensures var l, a := Run(senderKey, ops).0, Booked(senderKey, ops, id);
      id in l.streams && l.streams[id].status == Completed ==> a.amount + a.toppedUp - a.paid == a.dust + a.forfeited
  {
    var l := Run(senderKey, ops).0;
    FlowAccounting(senderKey, ops, id);
    if id in l.streams && l.streams[id].status == Completed {
      CompletedBooks(l.streams[id], Booked(senderKey, ops, id));
    }
  }

  /** Two streams never locked, of the same rate and withdrawn for equally long, have been paid the same. */
  lemma ScheduleIndependence(senderA: string, opsA: seq<Timed>, a: nat, senderB: string, opsB: seq<Timed>, b: nat)
    requires PlainRun(senderA, opsA, a) && PlainRun(senderB, opsB, b)
    requires a in Run(senderA, opsA).0.streams && b in Run(senderB, opsB).0.streams
    requires var s, t := Run(senderA, opsA).0.streams[a], Run(senderB, opsB).0.streams[b];
      && s.lockUntil.None? && t.lockUntil.None? && s.flowRate == t.flowRate
      && s.lastWithdrawTime - s.startTime == t.lastWithdrawTime - t.startTime
    ensures Booked(senderA, opsA, a).paid == Booked(senderB, opsB, b).paid
  {
    FlowAccounting(senderA, opsA, a);
    FlowAccounting(senderB, opsB, b);
    UnlockedBooks(Run(senderA, opsA).0.streams[a], Booked(senderA, opsA, a),
                  Run(senderB, opsB).0.streams[b], Booked(senderB, opsB, b));
  }

  /** Withdrawing while locked pays nothing and gives up what has accrued, exactly when something has. */
  lemma LockedWithdrawalForfeits(l: Ledger, now: int, id: nat)
    requires ActiveError(l, id).None? && IsLocked(l.streams[id], now) && l.streams[id].flowRate >= 0
    ensures var (l', out) := Withdraw(l, now, id);
      var s := l.streams[id];
      && out == Done(0, 0, 0)
      && (Potential(l'.streams[id]) < Potential(s) <==> s.flowRate > 0 && s.lastWithdrawTime < Min(now, s.endTime))
  {
    var s := l.streams[id];
    var elapsed := Min(now, s.endTime) - s.lastWithdrawTime;
    PotentialUsed(s, now);
    if s.flowRate > 0 {
      if elapsed > 0 { MulMonotone(s.flowRate, 1, elapsed); } else { MulMonotone(s.flowRate, elapsed, 0); }
    }
  }

  // ---- What each call does, on the fields ----

  predicate IsActive(l: Ledger, id: nat) {
    id in l.streams && l.streams[id].status == Active
  }

  predicate IsOperator(l: Ledger, id: nat, who: string) {
    id in l.operators && who in l.operators[id]
  }

  predicate LockedAt(s: Stream, now: int) {
    s.lockUntil.Some? && now < s.lockUntil.value
  }

  /** What flows in this time: within the cap, yet out of the i128 range. */
  predicate Overflows(s: Stream, seconds: int) {
    s.flowRate > 0 && seconds > 0 && I128_MAX < s.flowRate * seconds <= s.deposit
  }

  /** Whole numbers, the first below the second. */
  predicate ProperRatio(num: Number, den: Number) {
    && num.Finite? && den.Finite? && 0.0 < num.x < den.x
    && num.x.Floor as real == num.x && den.x.Floor as real == den.x
  }

  /** The calls that are carried out. */
  predicate Allowed(l: Ledger, now: int, op: Op) {
    match op
    case SenderOp(_) => true
    case CreateOp(recipient, amount, duration, startTime, _) =>
      && amount > 0 && (l.senderKey == "" || recipient != l.senderKey)
      && duration.Finite? && duration.x > 0.0 && duration.x.Floor as real == duration.x
      && (startTime.None? || startTime.value >= now)
    case LockOp(id, until) =>
      id in l.streams && (l.streams[id].lockUntil.None? || l.streams[id].lockUntil.value < until)
    case WithdrawOp(id) =>
      && IsActive(l, id)
      && var s := l.streams[id];
         LockedAt(s, now) || !Overflows(s, (if now < s.endTime then now else s.endTime) - s.lastWithdrawTime)
    case CancelOp(id) => IsActive(l, id) && !LockedAt(l.streams[id], now)
    case BatchCancelOp(ids) => Distinct(ids) && forall i | 0 <= i < |ids| :: IsActive(l, ids[i])
    case TopUpOp(id, amount) => amount > 0 && IsActive(l, id) && l.streams[id].flowRate != 0
    case OperatorOp(id, _, _) => id in l.streams
    case OperatorCancelOp(id) => id in l.streams && IsOperator(l, id, l.senderKey)
    case OperatorTopUpOp(id, amount) =>
      amount > 0 && id in l.streams && IsOperator(l, id, l.senderKey) && l.streams[id].flowRate != 0
    case SplitOp(id, _, _, num, den) =>
      && IsActive(l, id) && ProperRatio(num, den)
      && var s := l.streams[id];
         !Overflows(s, s.endTime - if now < s.lastWithdrawTime then s.lastWithdrawTime else now)
    case TransferOp(id, _) => IsActive(l, id)
    case PauseOp(id) => IsActive(l, id)
    case ResumeOp(id) => id in l.streams && l.streams[id].status == Paused
    case AdvanceOp(id, _) => id in l.streams
  }

  lemma {:induction false} BatchSucceedsIff(l: Ledger, ids: seq<nat>)
    ensures BatchCancel(l, ids).1.Done? <==> Distinct(ids) && forall i | 0 <= i < |ids| :: IsActive(l, ids[i])
    decreases |ids|
  {
    if ids != [] && IsActive(l, ids[0]) {
      var l', rest := PutStream(l, ids[0], l.streams[ids[0]].(status := Cancelled)), ids[1..];
      BatchSucceedsIff(l', rest);
      assert forall i | 0 <= i < |rest| :: rest[i] == ids[i + 1];
      if BatchCancel(l', rest).1.Done? {
        assert forall i | 0 <= i < |rest| :: rest[i] != ids[0] && IsActive(l, rest[i]);
      }
    }
  }

  lemma RatioAccepted(num: Number, den: Number)
    ensures ProperRatio(num, den) <==> !RatioRefused(num, den) && Whole(num) && Whole(den)
  {
  }

  /** A call is carried out exactly if it is one of these; all others throw. */
  lemma CallSucceedsIff(l: Ledger, now: int, op: Op)
    ensures Step(l, now, op).1.Done? <==> Allowed(l, now, op)
  {
    match op
    case BatchCancelOp(ids) => BatchSucceedsIff(l, ids);
    case SplitOp(_, _, _, num, den) => RatioAccepted(num, den);
    case _ =>
  }

  /** The batch gets past position `n`: up to there it meets active streams only, none of them again. */
  predicate GetsPast(l: Ledger, ids: seq<nat>, n: nat) {
    n < |ids| && forall i | 0 <= i <= n :: IsActive(l, ids[i]) && forall j | 0 <= j < i :: ids[j] != ids[i]
  }

  ghost predicate BatchReaches(l: Ledger, ids: seq<nat>, id: nat) {
    exists n: nat :: GetsPast(l, ids, n) && ids[n] == id
  }

  /** The call cancels stream `id`; a split that fails after its checks and a batch that fails later do so too. */
  ghost predicate Cancels(l: Ledger, now: int, op: Op, id: nat) {
    match op
    case CancelOp(i) => i == id && Allowed(l, now, op)
    case OperatorCancelOp(i) => i == id && Allowed(l, now, op)
    case SplitOp(i, _, _, num, den) => i == id && IsActive(l, id) && !RatioRefused(num, den)
    case BatchCancelOp(ids) => BatchReaches(l, ids, id)
    case _ => false
  }

  lemma GetsFurther(l: Ledger, ids: seq<nat>, n: nat)
    requires ids != [] && IsActive(l, ids[0])
    ensures GetsPast(l, ids, n + 1) <==>
      GetsPast(PutStream(l, ids[0], l.streams[ids[0]].(status := Cancelled)), ids[1..], n)
  {
    var l', rest := PutStream(l, ids[0], l.streams[ids[0]].(status := Cancelled)), ids[1..];
    assert forall i | 0 <= i < |rest| :: rest[i] == ids[i + 1];
    assert forall x :: IsActive(l', x) <==> IsActive(l, x) && x != ids[0];
    if GetsPast(l', rest, n) {
      forall i | 0 <= i <= n + 1
        ensures IsActive(l, ids[i]) && forall j | 0 <= j < i :: ids[j] != ids[i]
      {
        if i > 0 { assert rest[i - 1] == ids[i] && IsActive(l', rest[i - 1]); }
      }
    }
    if GetsPast(l, ids, n + 1) {
      forall i | 0 <= i <= n
        ensures IsActive(l', rest[i]) && forall j | 0 <= j < i :: rest[j] != rest[i]
      {
        assert rest[i] == ids[i + 1] && ids[0] != ids[i + 1];
      }
    }
  }

  lemma ReachesLater(l: Ledger, ids: seq<nat>, id: nat)
    requires ids != [] && IsActive(l, ids[0])
    ensures BatchReaches(l, ids, id) <==>
      ids[0] == id || BatchReaches(PutStream(l, ids[0], l.streams[ids[0]].(status := Cancelled)), ids[1..], id)
  {
    var l', rest := PutStream(l, ids[0], l.streams[ids[0]].(status := Cancelled)), ids[1..];
    if ids[0] == id {
      assert GetsPast(l, ids, 0);
    }
    if n: nat :| GetsPast(l', rest, n) && rest[n] == id {
      GetsFurther(l, ids, n);
      assert ids[n + 1] == id;
    }
    if n: nat :| GetsPast(l, ids, n) && ids[n] == id && n > 0 {
      GetsFurther(l, ids, n - 1);
      assert rest[n - 1] == id;
    }
  }

  lemma {:induction false} BatchEffect(l: Ledger, ids: seq<nat>, id: nat)
    requires id in l.streams
    ensures var l' := BatchCancel(l, ids).0;
      && id in l'.streams
      && l'.streams[id] == if BatchReaches(l, ids, id) then l.streams[id].(status := Cancelled) else l.streams[id]
    decreases |ids|
  {
    if ids != [] && IsActive(l, ids[0]) {
      ReachesLater(l, ids, id);
      BatchEffect(PutStream(l, ids[0], l.streams[ids[0]].(status := Cancelled)), ids[1..], id);
    }
  }

  /** The statuses a call leads to. */
  ghost predicate StatusFollows(l: Ledger, now: int, op: Op, id: nat, s: Stream, s': Stream) {
    if Cancels(l, now, op, id) then s'.status == Cancelled
    else if op == WithdrawOp(id) && Allowed(l, now, op) then s'.status == if now >= s.endTime then Completed else Active
    else if op == PauseOp(id) && Allowed(l, now, op) then s'.status == Paused
    else if op == ResumeOp(id) && Allowed(l, now, op) then s'.status == Active
    else s'.status == s.status
  }

  function AddedBy(op: Op, id: nat): int {
    match op
    case TopUpOp(i, amount) => if i == id then amount else 0
    case OperatorTopUpOp(i, amount) => if i == id then amount else 0
    case _ => 0
  }

  function AdvancedBy(op: Op, id: nat): int {
    if op.AdvanceOp? && op.id == id then op.seconds else 0
  }

  /** The terms a call that is carried out changes: each field by certain calls only. */
  predicate TermsFollow(now: int, op: Op, id: nat, s: Stream, s': Stream) {
    && s'.sender == s.sender && s'.flowRate == s.flowRate
    && s'.recipient == (if op.TransferOp? && op.id == id then op.recipient else s.recipient)
    && s'.lockUntil == (if op.LockOp? && op.id == id then Some(op.until) else s.lockUntil)
    && s'.pausedAt == (if op == PauseOp(id) then Some(now) else if op == ResumeOp(id) then None else s.pausedAt)
    && s'.deposit == s.deposit + AddedBy(op, id)
    && s'.startTime == s.startTime - AdvancedBy(op, id)
    && s'.lastWithdrawTime == (if op == WithdrawOp(id) then if now < s.endTime then now else s.endTime
                               else s.lastWithdrawTime - AdvancedBy(op, id))
    && if AddedBy(op, id) > 0 then
         s.flowRate * (s'.endTime - s.endTime) <= AddedBy(op, id) < s.flowRate * (s'.endTime - s.endTime + 1)
       else if op == ResumeOp(id) then
         s'.endTime == s.endTime + if s.pausedAt.Some? then now - s.pausedAt.value else 0
       else s'.endTime == s.endTime - AdvancedBy(op, id)
  }

  /** Nothing but the status. */
  predicate SameTerms(s: Stream, s': Stream) {
    s' == s.(status := s'.status)
  }

  lemma TopUpExtends(s: Stream, amount: int)
    requires s.flowRate > 0 && amount > 0
    ensures var extra := ToppedUp(s, amount).endTime - s.endTime;
      s.flowRate * extra <= amount < s.flowRate * (extra + 1)
  {
    DivMul(amount, s.flowRate);
    Distributes(s.flowRate, amount / s.flowRate, 1);
  }

  ghost predicate FieldsFollow(l: Ledger, l': Ledger, now: int, op: Op, id: nat) {
    && id in l.streams && id in l'.streams
    && StatusFollows(l, now, op, id, l.streams[id], l'.streams[id])
    && if Allowed(l, now, op) then TermsFollow(now, op, id, l.streams[id], l'.streams[id])
       else SameTerms(l.streams[id], l'.streams[id])
  }

  lemma SplitFields(l: Ledger, now: int, op: Op, id: nat)
    requires Nonnegative(l) && id in l.streams && op.SplitOp?
    ensures FieldsFollow(l, Step(l, now, op).0, now, op, id)
  {
    RatioAccepted(op.num, op.den);
  }

  lemma TopUpFields(l: Ledger, now: int, op: Op, id: nat)
    requires Nonnegative(l) && id in l.streams && (op.TopUpOp? || op.OperatorTopUpOp?)
    ensures FieldsFollow(l, Step(l, now, op).0, now, op, id)
  {
    if Allowed(l, now, op) && op.id == id {
      TopUpExtends(l.streams[id], op.amount);
    }
  }

  lemma BatchFields(l: Ledger, now: int, op: Op, id: nat)
    requires id in l.streams && op.BatchCancelOp?
    ensures FieldsFollow(l, Step(l, now, op).0, now, op, id)
  {
    BatchEffect(l, op.ids, id);
  }

  lemma WithdrawFields(l: Ledger, now: int, op: Op, id: nat)
    requires Nonnegative(l) && id in l.streams && op.WithdrawOp?
    ensures FieldsFollow(l, Step(l, now, op).0, now, op, id)
  {
  }

  lemma CreateFields(l: Ledger, now: int, op: Op, id: nat)
    requires Nonnegative(l) && id in l.streams && op.CreateOp?
    ensures FieldsFollow(l, Step(l, now, op).0, now, op, id)
  {
  }

  lemma EndFields(l: Ledger, now: int, op: Op, id: nat)
    requires id in l.streams && (op.CancelOp? || op.OperatorCancelOp?)
    ensures FieldsFollow(l, Step(l, now, op).0, now, op, id)
  {
  }

  lemma PauseFields(l: Ledger, now: int, op: Op, id: nat)
    requires id in l.streams && (op.PauseOp? || op.ResumeOp?)
    ensures FieldsFollow(l, Step(l, now, op).0, now, op, id)
  {
  }

  lemma OtherFields(l: Ledger, now: int, op: Op, id: nat)
    requires id in l.streams
    requires op.SenderOp? || op.LockOp? || op.OperatorOp? || op.TransferOp? || op.AdvanceOp?
    ensures FieldsFollow(l, Step(l, now, op).0, now, op, id)
  {
  }

  /**
    In every run each call changes exactly these fields of the streams it names, and only if it is carried out; all
    else about an existing stream stays as it was.
    */
  lemma CallChangesOnlyThese(senderKey: string, ops: seq<Timed>, now: int, op: Op, id: nat)
    requires id in Run(senderKey, ops).0.streams
    ensures var l, l' := Run(senderKey, ops).0, Run(senderKey, ops + [Timed(now, op)]).0;
      FieldsFollow(l, l', now, op, id)
  {
    var l := Run(senderKey, ops).0;
    RunNonnegative(senderKey, ops);
    assert (ops + [Timed(now, op)])[..|ops|] == ops;
    match op
    case SplitOp(_, _, _, _, _) => SplitFields(l, now, op, id);
    case TopUpOp(_, _) => TopUpFields(l, now, op, id);
    case OperatorTopUpOp(_, _) => TopUpFields(l, now, op, id);
    case BatchCancelOp(_) => BatchFields(l, now, op, id);
    case WithdrawOp(_) => WithdrawFields(l, now, op, id);
    case CreateOp(_, _, _, _, _) => CreateFields(l, now, op, id);
    case CancelOp(_) => EndFields(l, now, op, id);
    case OperatorCancelOp(_) => EndFields(l, now, op, id);
    case PauseOp(_) => PauseFields(l, now, op, id);
    case ResumeOp(_) => PauseFields(l, now, op, id);
    case _ => OtherFields(l, now, op, id);
  }

  lemma RunGrows(senderKey: string, ops: seq<Timed>, now: int, op: Op)
    ensures Run(senderKey, ops + [Timed(now, op)]).0 == Step(Run(senderKey, ops).0, now, op).0
  {
    assert (ops + [Timed(now, op)])[..|ops|] == ops;
  }

  // ---- New streams ----

  /** `rate` is what `amount` pays per second over `seconds`, rounded down. */
  predicate RoundedRate(amount: int, seconds: int, rate: int) {
    rate * seconds <= amount < (rate + 1) * seconds
  }

  /** A fresh stream of this deposit, running from `now` for `seconds`. */
  predicate FreshStream(s: Stream, sender: string, recipient: string, deposit: int, now: int, seconds: int,
                        lock: Option<int>) {
    && s.sender == sender && s.recipient == recipient && s.deposit == deposit && s.status == Active
    && s.startTime == now == s.lastWithdrawTime && s.endTime == now + seconds
    && s.lockUntil == lock && s.pausedAt == None
  }

  lemma RateIsRounded(amount: int, seconds: int)
    requires seconds > 0 && amount >= 0
    ensures RoundedRate(amount, seconds, amount / seconds)
  {
    DivMul(amount, seconds);
    Distributes(seconds, amount / seconds, 1);
  }

  /** A creation opens one stream, under the next number, with what the caller asked for. */
  lemma CreationOpens(senderKey: string, ops: seq<Timed>, now: int, recipient: string, amount: int, seconds: int,
                      startTime: Option<int>, lock: Option<int>)
    requires Allowed(Run(senderKey, ops).0, now, CreateOp(recipient, amount, Finite(seconds as real), startTime, lock))
    ensures var op := CreateOp(recipient, amount, Finite(seconds as real), startTime, lock);
      var l, l' := Run(senderKey, ops).0, Run(senderKey, ops + [Timed(now, op)]).0;
      && l'.streams.Keys == l.streams.Keys + {l.nextId} && l.nextId !in l.streams && l'.nextId == l.nextId + 1
      && FreshStream(l'.streams[l.nextId], l.senderKey, recipient, amount, now, seconds, lock)
      && RoundedRate(amount, seconds, l'.streams[l.nextId].flowRate)
  {
    RunGrows(senderKey, ops, now, CreateOp(recipient, amount, Finite(seconds as real), startTime, lock));
    RunNonnegative(senderKey, ops);
    RateIsRounded(amount, seconds);
  }

  /** What is left of a stream: what its rate still pays until its end, at most its deposit. */
  function Balance(s: Stream, now: int): int {
    var left := s.endTime - if now < s.lastWithdrawTime then s.lastWithdrawTime else now;
    if left <= 0 then 0 else if s.flowRate * left < s.deposit then s.flowRate * left else s.deposit
  }

  /** `share` is `part` of `whole` parts of the balance, rounded down. */
  predicate RoundedShare(share: int, balance: int, part: int, whole: int) {
    whole * share <= part * balance < whole * (share + 1)
  }

  lemma ShareIsRounded(balance: int, part: int, whole: int)
    requires balance >= 0 && part >= 0 && whole > 0
    ensures RoundedShare(balance * part / whole, balance, part, whole)
  {
    MulNonNegative(balance, part);
    DivMul(balance * part, whole);
    Distributes(whole, balance * part / whole, 1);
  }

  lemma SplitIsDone(l: Ledger, now: int, id: nat, toA: string, toB: string, n: int, d: int)
    requires Nonnegative(l) && Allowed(l, now, SplitOp(id, toA, toB, Finite(n as real), Finite(d as real)))
    ensures var s := l.streams[id];
      0 < n < d && Balance(s, now) >= 0 && (Remaining(s, now) <= 0 ==> Balance(s, now) == 0)
    ensures var s := l.streams[id];
      Step(l, now, SplitOp(id, toA, toB, Finite(n as real), Finite(d as real)))
      == (AddChildren(PutStream(l, id, s.(status := Cancelled)), s, now, Balance(s, now), toA, toB, n, d), QUIET)
  {
    RatioAccepted(Finite(n as real), Finite(d as real));
    var s := l.streams[id];
    var left := Max(0, Remaining(s, now));
    MulNonNegative(s.flowRate, left);
    if s.flowRate == 0 || left == 0 { assert s.flowRate * left == 0; }
  }

  lemma ChildIsFresh(s: Stream, recipient: string, amount: int, seconds: int, now: int)
    requires amount >= 0
    ensures var c := Child(s, recipient, amount, seconds, now);
      && FreshStream(c, s.sender, recipient, amount, now, seconds, None)
      && RoundedRate(amount, Max(1, seconds), c.flowRate)
  {
    RateIsRounded(amount, Max(1, seconds));
  }

  /** The share of one child of a split: a fresh stream until the old end. */
  predicate IsShare(c: Stream, s: Stream, recipient: string, now: int, part: int, whole: int) {
    var seconds := s.endTime - if now < s.lastWithdrawTime then s.lastWithdrawTime else now;
    && FreshStream(c, s.sender, recipient, c.deposit, now, seconds, None)
    && RoundedShare(c.deposit, Balance(s, now), part, whole)
    && RoundedRate(c.deposit, if seconds < 1 then 1 else seconds, c.flowRate)
  }

  lemma ChildIsShare(s: Stream, recipient: string, now: int, part: int, whole: int)
    requires Balance(s, now) >= 0 && 0 <= part && whole > 0
    ensures IsShare(Child(s, recipient, Balance(s, now) * part / whole, Remaining(s, now), now), s, recipient, now,
                    part, whole)
  {
    var balance := Balance(s, now);
    ShareIsRounded(balance, part, whole);
    MulNonNegative(balance, part);
    DivMul(balance * part, whole);
    ChildIsFresh(s, recipient, balance * part / whole, Remaining(s, now), now);
  }

  /** The stream is cancelled, and its two shares are open under the next two numbers. */
  predicate SplitsInto(l: Ledger, l': Ledger, now: int, id: nat, toA: string, toB: string, n: int, d: int) {
    && l'.streams.Keys == l.streams.Keys + {l.nextId, l.nextId + 1} && l'.nextId == l.nextId + 2
    && l.nextId !in l.streams && l.nextId + 1 !in l.streams
    && id in l.streams && l'.streams[id] == l.streams[id].(status := Cancelled)
    && IsShare(l'.streams[l.nextId], l.streams[id], toA, now, n, d)
    && IsShare(l'.streams[l.nextId + 1], l.streams[id], toB, now, d - n, d)
  }

  lemma ChildrenAdded(l: Ledger, now: int, id: nat, toA: string, toB: string, n: int, d: int)
    requires Nonnegative(l) && id in l.streams && 0 < n < d && Balance(l.streams[id], now) >= 0
    ensures var s := l.streams[id];
      var l' := AddChildren(PutStream(l, id, s.(status := Cancelled)), s, now, Balance(s, now), toA, toB, n, d);
      SplitsInto(l, l', now, id, toA, toB, n, d)
  {
    ChildIsShare(l.streams[id], toA, now, n, d);
    ChildIsShare(l.streams[id], toB, now, d - n, d);
  }

  /**
    A split cancels the stream and opens two, under the next two numbers: the first for the first recipient with the
    part asked for of what is left, the second for the second recipient with the rest, each rounded down, both until
    the old end.
    */
  lemma SplitShares(senderKey: string, ops: seq<Timed>, now: int, id: nat, toA: string, toB: string, n: int, d: int)
    requires Allowed(Run(senderKey, ops).0, now, SplitOp(id, toA, toB, Finite(n as real), Finite(d as real)))
    ensures var op := SplitOp(id, toA, toB, Finite(n as real), Finite(d as real));
      SplitsInto(Run(senderKey, ops).0, Run(senderKey, ops + [Timed(now, op)]).0, now, id, toA, toB, n, d)
  {
    RunGrows(senderKey, ops, now, SplitOp(id, toA, toB, Finite(n as real), Finite(d as real)));
    RunNonnegative(senderKey, ops);
    SplitIsDone(Run(senderKey, ops).0, now, id, toA, toB, n, d);
    ChildrenAdded(Run(senderKey, ops).0, now, id, toA, toB, n, d);
  }

  // ---- The ledger's own books ----

  /** What a call that is carried out moves: deposits, the flow withdrawn unless locked, and the pause credited. */
  predicate OutcomeFollows(l: Ledger, now: int, op: Op, out: Outcome) {
    && out.Done?
    && out.deposited == (match op
                         case CreateOp(_, amount, _, _, _) => amount
                         case TopUpOp(_, amount) => amount
                         case OperatorTopUpOp(_, amount) => amount
                         case _ => 0)
    && match op
       case WithdrawOp(id) => out.credited == 0 && id in l.streams && PaysFlow(l.streams[id], now, out.paid)
       case ResumeOp(id) =>
         && out.paid == 0 && id in l.streams
         && out.credited == l.streams[id].flowRate
                            * if l.streams[id].pausedAt.Some? then now - l.streams[id].pausedAt.value else 0
       case _ => out.paid == 0 && out.credited == 0
  }

  /** What has flowed since the last withdrawal, at most the deposit, and nothing while locked. */
  predicate PaysFlow(s: Stream, now: int, paid: int) {
    var seconds := (if now < s.endTime then now else s.endTime) - s.lastWithdrawTime;
    if LockedAt(s, now) || seconds <= 0 then paid == 0
    else if s.flowRate * seconds <= s.deposit then paid == s.flowRate * seconds
    else paid == s.deposit
  }

  lemma ClaimPaysFlow(s: Stream, now: int)
    requires s.flowRate >= 0 && s.deposit >= 0 && s.status == Active && ClaimableAt(s, now).Success?
    ensures PaysFlow(s, now, ClaimableAt(s, now).value)
  {
    if s.flowRate == 0 {
      assert s.flowRate * (Min(now, s.endTime) - s.lastWithdrawTime) == 0;
    }
  }

  lemma {:induction false} BatchKeepsBooks(l: Ledger, ids: seq<nat>)
    ensures var l' := BatchCancel(l, ids).0;
      l'.streams.Keys == l.streams.Keys && l'.operators == l.operators
      && l'.senderKey == l.senderKey && l'.nextId == l.nextId
    decreases |ids|
  {
    if ids != [] && IsActive(l, ids[0]) {
      BatchKeepsBooks(PutStream(l, ids[0], l.streams[ids[0]].(status := Cancelled)), ids[1..]);
    }
  }

  /** Who may act for a stream, who is the sender, and which streams there are: each changed by its own calls only. */
  ghost predicate BooksFollow(l: Ledger, l': Ledger, now: int, op: Op) {
    && l'.senderKey == (if op.SenderOp? then op.address else l.senderKey)
    && (!Allowed(l, now, op) || (!op.CreateOp? && !op.SplitOp?) ==> l'.streams.Keys == l.streams.Keys)
    && (!op.CreateOp? && !op.SplitOp? ==> l'.nextId == l.nextId)
    && (forall id, who :: IsOperator(l', id, who) <==>
          if op.OperatorOp? && op.id == id && op.operator == who && Allowed(l, now, op) then op.approved
          else IsOperator(l, id, who))
  }

  lemma SetOperatorBooks(l: Ledger, now: int, op: Op)
    requires op.OperatorOp?
    ensures BooksFollow(l, Step(l, now, op).0, now, op)
  {
    var was := OperatorsOf(l, op.id);
    FilterElements(was, (o: string) => o != op.operator);
    assert forall x :: x in was + [op.operator] <==> x in was || x == op.operator;
  }

  /** Calls that put one stream back changed, or change only the sender. */
  lemma OneStreamBooks(l: Ledger, now: int, op: Op)
    requires !op.OperatorOp? && !op.BatchCancelOp? && !op.SplitOp? && !op.CreateOp?
    ensures var l' := Step(l, now, op).0;
      && l'.operators == l.operators && l'.streams.Keys == l.streams.Keys && l'.nextId == l.nextId
      && l'.senderKey == if op.SenderOp? then op.address else l.senderKey
  {
  }

  lemma StepBooksFollow(l: Ledger, now: int, op: Op)
    ensures BooksFollow(l, Step(l, now, op).0, now, op)
  {
    match op
    case OperatorOp(_, _, _) => SetOperatorBooks(l, now, op);
    case BatchCancelOp(ids) => BatchKeepsBooks(l, ids);
    case SplitOp(_, _, _, num, den) => RatioAccepted(num, den);
    case CreateOp(_, _, _, _, _) =>
    case _ => OneStreamBooks(l, now, op);
  }

  /** In every run a call that is carried out moves exactly this money, and nobody else's rights or streams change. */
  lemma CallMovesExactly(senderKey: string, ops: seq<Timed>, now: int, op: Op)
    ensures var l, l' := Run(senderKey, ops).0, Run(senderKey, ops + [Timed(now, op)]).0;
      BooksFollow(l, l', now, op) && (Allowed(l, now, op) ==> OutcomeFollows(l, now, op, Step(l, now, op).1))
  {
    var l := Run(senderKey, ops).0;
    RunGrows(senderKey, ops, now, op);
    RunNonnegative(senderKey, ops);
    StepBooksFollow(l, now, op);
    CallSucceedsIff(l, now, op);
    if Allowed(l, now, op) {
      match op
      case WithdrawOp(id) => ClaimPaysFlow(l.streams[id], now);
      case BatchCancelOp(ids) => BatchIsQuiet(l, ids);
      case _ =>
    }
  }

  /** Whether the last call about this operator approved it. */
  function LastApproved(senderKey: string, ops: seq<Timed>, id: nat, who: string): bool {
    ops != [] &&
    var n := |ops| - 1;
    match ops[n].op
    case OperatorOp(i, o, approved) =>
      if i == id && o == who && id in Run(senderKey, ops[..n]).0.streams then approved
      else LastApproved(senderKey, ops[..n], id, who)
    case _ => LastApproved(senderKey, ops[..n], id, who)
  }

  /** The operators of a stream are exactly those whose last approval has not been withdrawn. */
  lemma {:induction false} OperatorsAreThoseApproved(senderKey: string, ops: seq<Timed>, id: nat, who: string)
    ensures IsOperator(Run(senderKey, ops).0, id, who) <==> LastApproved(senderKey, ops, id, who)
  {
    if ops != [] {
      var n := |ops| - 1;
      OperatorsAreThoseApproved(senderKey, ops[..n], id, who);
      StepBooksFollow(Run(senderKey, ops[..n]).0, ops[n].now, ops[n].op);
    }
  }

  /** Some call of the run cancelled the stream. */
  ghost predicate WasCancelled(senderKey: string, ops: seq<Timed>, id: nat) {
    ops != [] &&
    var n := |ops| - 1;
    WasCancelled(senderKey, ops[..n], id) || Cancels(Run(senderKey, ops[..n]).0, ops[n].now, ops[n].op, id)
  }

  lemma OpenedActive(l: Ledger, now: int, op: Op, id: nat)
    requires id !in l.streams && id in Step(l, now, op).0.streams
    ensures Step(l, now, op).0.streams[id].status == Active
  {
    if op.BatchCancelOp? { BatchKeepsBooks(l, op.ids); }
  }

  /** A stream is cancelled exactly if some call has cancelled it: nothing brings a cancelled stream back. */
  lemma {:induction false} CancelledForGood(senderKey: string, ops: seq<Timed>, id: nat)
    ensures var l := Run(senderKey, ops).0;
      WasCancelled(senderKey, ops, id) <==> id in l.streams && l.streams[id].status == Cancelled
  {
    if ops != [] {
      var n := |ops| - 1;
      var l, now, op := Run(senderKey, ops[..n]).0, ops[n].now, ops[n].op;
      CancelledForGood(senderKey, ops[..n], id);
      if id in l.streams {
        assert ops[..n] + [Timed(now, op)] == ops;
        CallChangesOnlyThese(senderKey, ops[..n], now, op, id);
      } else if id in Step(l, now, op).0.streams {
        OpenedActive(l, now, op, id);
      }
    }
  }

  // ---- Time ----

  lemma ShiftedClaim(s: Stream, now: int, seconds: int)
    requires s.lockUntil.None? && s.status != Paused
    ensures ClaimableAt(Shifted(s, seconds), now) == ClaimableAt(s, now + seconds)
  {
  }

  lemma ShiftedWithdraw(l: Ledger, now: int, id: nat, seconds: int)
    requires id in l.streams && l.streams[id].lockUntil.None?
    ensures Withdraw(AdvanceTime(l, id, seconds).0, now, id).1 == Withdraw(l, now + seconds, id).1
  {
    if l.streams[id].status == Active {
      ShiftedClaim(l.streams[id], now, seconds);
    }
  }

  /** Advancing a stream is waiting: an unlocked stream then pays at once what it would have paid that much later. */
  lemma AdvanceIsWaiting(senderKey: string, ops: seq<Timed>, now: int, id: nat, seconds: int)
    requires var l := Run(senderKey, ops).0; id in l.streams && l.streams[id].lockUntil.None?
    ensures var l, l' := Run(senderKey, ops).0, Run(senderKey, ops + [Timed(now, AdvanceOp(id, seconds))]).0;
      Step(l', now, WithdrawOp(id)).1 == Step(l, now + seconds, WithdrawOp(id)).1
  {
    RunGrows(senderKey, ops, now, AdvanceOp(id, seconds));
    ShiftedWithdraw(Run(senderKey, ops).0, now, id, seconds);
  }

  predicate Names(op: Op, id: nat) {
    match op
    case SenderOp(_) => false
    case CreateOp(_, _, _, _, _) => false
    case BatchCancelOp(ids) => id in ids
    case _ => op.id == id
  }

  /** A call that does not name a stream leaves it alone. */
  lemma UnnamedIsUntouched(senderKey: string, ops: seq<Timed>, now: int, op: Op, id: nat)
    requires id in Run(senderKey, ops).0.streams && !Names(op, id)
    ensures var l' := Run(senderKey, ops + [Timed(now, op)]).0;
      id in l'.streams && l'.streams[id] == Run(senderKey, ops).0.streams[id]
  {
    CallChangesOnlyThese(senderKey, ops, now, op, id);
  }

  lemma {:induction false} UnnamedRun(senderKey: string, ops: seq<Timed>, more: seq<Timed>, id: nat)
    requires id in Run(senderKey, ops).0.streams && forall k | 0 <= k < |more| :: !Names(more[k].op, id)
    ensures var l' := Run(senderKey, ops + more).0;
      id in l'.streams && l'.streams[id] == Run(senderKey, ops).0.streams[id]
  {
    if more == [] {
      assert ops + more == ops;
    } else {
      var n := |more| - 1;
      UnnamedRun(senderKey, ops, more[..n], id);
      assert ops + more == ops + more[..n] + [Timed(more[n].now, more[n].op)];
      UnnamedIsUntouched(senderKey, ops + more[..n], more[n].now, more[n].op, id);
    }
  }

  /** A pause and its resume, whatever happens to other streams between them, only move the end by the pause. */
  lemma PauseMovesOnlyTheEnd(senderKey: string, ops: seq<Timed>, t: int, between: seq<Timed>, t': int, id: nat)
    requires IsActive(Run(senderKey, ops).0, id) && Run(senderKey, ops).0.streams[id].pausedAt.None?
    requires forall k | 0 <= k < |between| :: !Names(between[k].op, id)
    ensures var l := Run(senderKey, ops).0;
      var paused := Run(senderKey, ops + [Timed(t, PauseOp(id))] + between).0;
      var resumed := Run(senderKey, ops + [Timed(t, PauseOp(id))] + between + [Timed(t', ResumeOp(id))]).0;
      && id in paused.streams && Step(paused, t', WithdrawOp(id)).1 == Threw(NotActive)
      && id in resumed.streams
      && resumed.streams[id] == l.streams[id].(endTime := l.streams[id].endTime + (t' - t))
  {
    var first := ops + [Timed(t, PauseOp(id))];
    CallChangesOnlyThese(senderKey, ops, t, PauseOp(id), id);
    UnnamedRun(senderKey, first, between, id);
    CallChangesOnlyThese(senderKey, first + between, t', ResumeOp(id), id);
  }
}
