/** Recording and replaying RPC calls: bigint-tagging serialisation and the parameter-matching replay queue. */
module Replay {
  import opened Sequences
  import opened Text
  import opened Json

  // ---- serialise and deserialise ----

  /** "__bigint" */
  const BIGINT_KEY: Text := [95, 95, 98, 105, 103, 105, 110, 116]

  function SerialiseItems(items: seq<Value>): (r: seq<Value>)
    ensures |r| == |items| && forall i | 0 <= i < |items| :: r[i] == Serialise(items[i])
    decreases items
  {
    if items == [] then [] else [Serialise(items[0])] + SerialiseItems(items[1..])
  }

  function SerialiseMembers(ms: seq<Member>): (r: seq<Member>)
    ensures |r| == |ms| && forall i | 0 <= i < |ms| :: r[i] == Member(ms[i].key, Serialise(ms[i].value))
    decreases ms
  {
    if ms == [] then [] else [Member(ms[0].key, Serialise(ms[0].value))] + SerialiseMembers(ms[1..])
  }

  /** Every bigint becomes an object holding its decimal text. */
  function Serialise(v: Value): Value
    decreases v
  {
    match v
    case Big(n) => Obj([Member(BIGINT_KEY, Str(Decimal(n)))])
    case Arr(items) => Arr(SerialiseItems(items))
    case Obj(ms) => Obj(SerialiseMembers(ms))
    case _ => v
  }

  function ValueAt(ms: seq<Member>, key: Text): Option<Value> {
    if ms == [] then None
    else if ms[0].key == key then Some(ms[0].value)
    else ValueAt(ms[1..], key)
  }

  /** BigInt(x): a bigint is itself, decimal text is read, and the host decides about anything else. */
  function ToBigInt(x: Value, host: Value -> Option<int>): Option<int> {
    match x
    case Big(n) => Some(n)
    case Str(s) => if DecimalValue(s).Some? then DecimalValue(s) else host(x)
    case _ => host(x)
  }

  function ReviveItems(items: seq<Value>, host: Value -> Option<int>): (r: Option<seq<Value>>)
    ensures r.Some? <==> forall i | 0 <= i < |items| :: Deserialise(items[i], host).Some?
    ensures r.Some? ==> |r.value| == |items|
    ensures r.Some? ==>
      forall i | 0 <= i < |items| :: Deserialise(items[i], host) == Some(r.value[i])
    decreases items
  {
    if items == [] then Some([])
    else
      var first, rest := Deserialise(items[0], host), ReviveItems(items[1..], host);
      if first.Some? && rest.Some? then Some([first.value] + rest.value) else None
  }

  function ReviveMembers(ms: seq<Member>, host: Value -> Option<int>): (r: Option<seq<Member>>)
    ensures r.Some? <==> forall i | 0 <= i < |ms| :: Deserialise(ms[i].value, host).Some?
    ensures r.Some? ==> |r.value| == |ms| && forall i | 0 <= i < |ms| ::
      r.value[i].key == ms[i].key && Deserialise(ms[i].value, host) == Some(r.value[i].value)
    decreases ms
  {
    if ms == [] then Some([])
    else
      var first, rest := Deserialise(ms[0].value, host), ReviveMembers(ms[1..], host);
      if first.Some? && rest.Some? then Some([Member(ms[0].key, first.value)] + rest.value) else None
  }

  /** Children are revived first; an object with the tag key becomes a bigint. None is a thrown error. */
  function Deserialise(v: Value, host: Value -> Option<int>): Option<Value>
    decreases v
  {
    match v
    case Big(_) => None
    case Arr(items) => (match ReviveItems(items, host) case Some(r) => Some(Arr(r)) case None => None)
    case Obj(ms) =>
      (match ReviveMembers(ms, host)
       case None => None
       case Some(r) =>
         match ValueAt(r, BIGINT_KEY)
         case None => Some(Obj(r))
         case Some(x) => match ToBigInt(x, host) case Some(n) => Some(Big(n)) case None => None)
    case _ => Some(v)
  }

  /** No object anywhere inside uses the tag key. */
  predicate Untagged(v: Value)
    decreases v
  {
    match v
    case Arr(items) => forall i | 0 <= i < |items| :: Untagged(items[i])
    case Obj(ms) => forall i | 0 <= i < |ms| :: ms[i].key != BIGINT_KEY && Untagged(ms[i].value)
    case _ => true
  }

  lemma {:induction false} ValueAtFinds(ms: seq<Member>, key: Text)
    ensures ValueAt(ms, key).Some? <==> exists i :: 0 <= i < |ms| && ms[i].key == key
  {
    if ms != [] && ms[0].key != key {
      ValueAtFinds(ms[1..], key);
      if i :| 0 <= i < |ms| && ms[i].key == key {
        assert ms[1..][i - 1].key == key;
      }
    }
  }

  /** Deserialising what was serialised gives the value back exactly when the value does not use the tag key itself. */
  lemma {:induction false} SerialiseRoundTrip(v: Value, host: Value -> Option<int>)
    ensures Deserialise(Serialise(v), host) == Some(v) <==> Untagged(v)
    decreases v
  {
    match v
    case Big(n) =>
      DecimalRoundTrip(n);
      var ms := [Member(BIGINT_KEY, Str(Decimal(n)))];
      assert ReviveMembers(ms, host).value == ms;
    case Arr(items) =>
      forall i | 0 <= i < |items|
        ensures Deserialise(Serialise(items[i]), host) == Some(items[i]) <==> Untagged(items[i])
      {
        SerialiseRoundTrip(items[i], host);
      }
      ItemsRoundTrip(items, host);
    case Obj(ms) =>
      forall i | 0 <= i < |ms|
        ensures Deserialise(Serialise(ms[i].value), host) == Some(ms[i].value) <==> Untagged(ms[i].value)
      {
        SerialiseRoundTrip(ms[i].value, host);
      }
      ObjectRoundTrip(ms, host);
    case _ =>
  }

  lemma ItemsRoundTrip(items: seq<Value>, host: Value -> Option<int>)
    requires forall i | 0 <= i < |items| ::
      Deserialise(Serialise(items[i]), host) == Some(items[i]) <==> Untagged(items[i])
    ensures Deserialise(Serialise(Arr(items)), host) == Some(Arr(items)) <==> Untagged(Arr(items))
  {
    var s := SerialiseItems(items);
    var r := ReviveItems(s, host);
    assert forall i | 0 <= i < |items| :: s[i] == Serialise(items[i]);
    if Untagged(Arr(items)) {
      assert forall i | 0 <= i < |items| :: Deserialise(s[i], host) == Some(items[i]);
      assert r.Some? && r.value == items;
    } else {
      var i :| 0 <= i < |items| && !Untagged(items[i]);
      assert Deserialise(s[i], host) != Some(items[i]);
    }
  }

  lemma ObjectRoundTrip(ms: seq<Member>, host: Value -> Option<int>)
    requires forall i | 0 <= i < |ms| ::
      Deserialise(Serialise(ms[i].value), host) == Some(ms[i].value) <==> Untagged(ms[i].value)
    ensures Deserialise(Serialise(Obj(ms)), host) == Some(Obj(ms)) <==> Untagged(Obj(ms))
  {
    if Untagged(Obj(ms)) {
      UntaggedObject(ms, host);
    } else {
      var i :| 0 <= i < |ms| && (ms[i].key == BIGINT_KEY || !Untagged(ms[i].value));
      TaggedObject(ms, i, host);
    }
  }

  lemma UntaggedObject(ms: seq<Member>, host: Value -> Option<int>)
    requires forall i | 0 <= i < |ms| ::
      ms[i].key != BIGINT_KEY && Deserialise(Serialise(ms[i].value), host) == Some(ms[i].value)
    ensures Deserialise(Serialise(Obj(ms)), host) == Some(Obj(ms))
  {
    var s := SerialiseMembers(ms);
    var r := ReviveMembers(s, host);
    assert forall i | 0 <= i < |ms| :: s[i] == Member(ms[i].key, Serialise(ms[i].value));
    assert r.Some? && r.value == ms;
    ValueAtFinds(ms, BIGINT_KEY);
  }

  lemma TaggedObject(ms: seq<Member>, i: nat, host: Value -> Option<int>)
    requires i < |ms|
    requires ms[i].key == BIGINT_KEY || Deserialise(Serialise(ms[i].value), host) != Some(ms[i].value)
    ensures Deserialise(Serialise(Obj(ms)), host) != Some(Obj(ms))
  {
    var s := SerialiseMembers(ms);
    var r := ReviveMembers(s, host);
    assert s[i] == Member(ms[i].key, Serialise(ms[i].value));
    if r.Some? {
      ValueAtFinds(r.value, BIGINT_KEY);
      assert r.value[i].key == s[i].key && Deserialise(s[i].value, host) == Some(r.value[i].value);
      assert ms[i].key != BIGINT_KEY ==> r.value[i] != ms[i];
    }
  }

  /** No bigint inside: what a fixture file can hold. */
  predicate IsJson(v: Value)
    decreases v
  {
    match v
    case Big(_) => false
    case Arr(items) => forall i | 0 <= i < |items| :: IsJson(items[i])
    case Obj(ms) => forall i | 0 <= i < |ms| :: IsJson(ms[i].value)
    case _ => true
  }

  lemma {:induction false} SerialiseIsJson(v: Value)
    ensures IsJson(Serialise(v))
    ensures WellFormed(v) ==> WellFormed(Serialise(v))
    decreases v
  {
    match v
    case Arr(items) =>
      forall i | 0 <= i < |items| { SerialiseIsJson(items[i]); }
    case Obj(ms) =>
      forall i | 0 <= i < |ms| { SerialiseIsJson(ms[i].value); }
    case _ =>
  }

  lemma {:induction false} SerialiseJson(v: Value)
    requires IsJson(v)
    ensures Serialise(v) == v
    decreases v
  {
    match v
    case Arr(items) =>
      forall i | 0 <= i < |items| { SerialiseJson(items[i]); }
      assert SerialiseItems(items) == items;
    case Obj(ms) =>
      forall i | 0 <= i < |ms|
        ensures SerialiseMembers(ms)[i] == ms[i]
      {
        SerialiseJson(ms[i].value);
      }
      assert SerialiseMembers(ms) == ms;
    case _ =>
  }

  // ---- Matching ----

  /** null, undefined, an absent field (all Null here) or an empty object. */
  predicate HasNoParams(request: Value) {
    request.Null? || request == Obj([])
  }

  function ParamsKey(request: Value): Text {
    StableStringify(Serialise(request))
  }

  /** Requests without parameters form a class of their own; the others are classed by their key. */
  datatype Class = NoParams | Params(key: Text)

  function ClassOf(request: Value): Class {
    if HasNoParams(request) then NoParams else Params(ParamsKey(request))
  }

  /** A request and its recorded form are in the same class. */
  lemma RecordedClass(request: Value)
    ensures ClassOf(Serialise(request)) == ClassOf(request)
  {
    SerialiseIsJson(request);
    SerialiseJson(Serialise(request));
  }

  lemma TaggedEquivalence(n: int, m: int)
    ensures Equivalent(Serialise(Big(n)), Serialise(Big(m))) <==> n == m
  {
    var a, b := [Member(BIGINT_KEY, Str(Decimal(n)))], [Member(BIGINT_KEY, Str(Decimal(m)))];
    DecimalRoundTrip(n);
    DecimalRoundTrip(m);
    assert HasEquivalent(a[0], b) <==> Equivalent(Str(Decimal(n)), Str(Decimal(m)));
  }

  lemma TagIsForeign(n: int, ms: seq<Member>)
    requires Untagged(Obj(ms))
    ensures !Equivalent(Serialise(Big(n)), Serialise(Obj(ms))) && !Equivalent(Serialise(Obj(ms)), Serialise(Big(n)))
  {
    var s, tag := SerialiseMembers(ms), Member(BIGINT_KEY, Str(Decimal(n)));
    assert forall i | 0 <= i < |s| :: s[i].key == ms[i].key != BIGINT_KEY;
    var big := [tag];
    assert Serialise(Big(n)) == Obj(big) && Serialise(Obj(ms)) == Obj(s);
    assert !HasEquivalent(big[0], s);
    if s != [] {
      assert !HasEquivalent(s[0], big);
    }
  }

  lemma MembersEquivalence(a: seq<Member>, b: seq<Member>)
    requires forall i, j | 0 <= i < |a| && 0 <= j < |b| ::
      Equivalent(Serialise(a[i].value), Serialise(b[j].value)) <==> Equivalent(a[i].value, b[j].value)
    ensures Equivalent(Serialise(Obj(a)), Serialise(Obj(b))) <==> Equivalent(Obj(a), Obj(b))
  {
    var s, t := SerialiseMembers(a), SerialiseMembers(b);
    forall i | 0 <= i < |a|
      ensures HasEquivalent(s[i], t) <==> HasEquivalent(a[i], b)
    {
      assert forall j | 0 <= j < |b| :: t[j].key == b[j].key && t[j].value == Serialise(b[j].value);
    }
  }

  /** On values that do not use the tag key, serialising neither merges nor separates anything. */
  lemma {:induction false} SerialiseKeepsEquivalence(a: Value, b: Value)
    requires Untagged(a) && Untagged(b)
    ensures Equivalent(Serialise(a), Serialise(b)) <==> Equivalent(a, b)
    decreases a
  {
    match (a, b)
    case (Big(n), Big(m)) => TaggedEquivalence(n, m);
    case (Big(n), Obj(ms)) => TagIsForeign(n, ms);
    case (Obj(ms), Big(n)) => TagIsForeign(n, ms);
    case (Arr(x), Arr(y)) =>
      forall i | 0 <= i < |x| && i < |y|
        ensures Equivalent(Serialise(x[i]), Serialise(y[i])) <==> Equivalent(x[i], y[i])
      {
        SerialiseKeepsEquivalence(x[i], y[i]);
      }
    case (Obj(x), Obj(y)) =>
      forall i, j | 0 <= i < |x| && 0 <= j < |y|
        ensures Equivalent(Serialise(x[i].value), Serialise(y[j].value)) <==> Equivalent(x[i].value, y[j].value)
      {
        SerialiseKeepsEquivalence(x[i].value, y[j].value);
      }
      MembersEquivalence(x, y);
    case _ =>
  }

  /** Two requests share a class exactly if their serialised forms do. */
  lemma SameClassIffSerialisedAlike(a: Value, b: Value)
    requires WellFormed(a) && WellFormed(b)
    ensures ClassOf(a) == ClassOf(b) <==>
      (HasNoParams(a) && HasNoParams(b)) ||
      (!HasNoParams(a) && !HasNoParams(b) && Equivalent(Serialise(a), Serialise(b)))
  {
    SerialiseIsJson(a);
    SerialiseIsJson(b);
    SameKeyIffEquivalent(Serialise(a), Serialise(b));
  }

  /** Classes are structural equality of the requests, up to the order of object keys. */
  lemma SameClassIffEquivalent(a: Value, b: Value)
    requires WellFormed(a) && WellFormed(b) && Untagged(a) && Untagged(b)
    ensures ClassOf(a) == ClassOf(b) <==>
      (HasNoParams(a) && HasNoParams(b)) || (!HasNoParams(a) && !HasNoParams(b) && Equivalent(a, b))
  {
    SameClassIffSerialisedAlike(a, b);
    SerialiseKeepsEquivalence(a, b);
  }

  /** A bigint and an object that spells its tag out share a class, although they are not equal. */
  lemma TagLooksLikeBigint(n: int)
    ensures var spelt := Obj([Member(BIGINT_KEY, Str(Decimal(n)))]);
      ClassOf(Big(n)) == ClassOf(spelt) && !Equivalent(Big(n), spelt)
  {
    var spelt := Obj([Member(BIGINT_KEY, Str(Decimal(n)))]);
    SerialiseIsJson(Big(n));
    SerialiseJson(spelt);
    assert Serialise(spelt) == spelt == Serialise(Big(n));
  }

  // ---- The replay queue ----

  datatype FixtureEntry = FixtureEntry(name: string, request: Value, response: Value)

  datatype ReplayError = NoFixture(name: string, consumed: nat) | BadBigInt

  type Queues = map<string, seq<FixtureEntry>>

  function QueueOf(qs: Queues, name: string): seq<FixtureEntry> {
    if name in qs then qs[name] else []
  }

  /** The position of the first remaining entry of a class, or the length of the queue. */
  function FirstOf(queue: seq<FixtureEntry>, c: Class): (i: nat)
    ensures i <= |queue|
    ensures i < |queue| ==> ClassOf(queue[i].request) == c
    ensures forall k | 0 <= k < i :: ClassOf(queue[k].request) != c
  {
    if queue == [] || ClassOf(queue[0].request) == c then 0 else 1 + FirstOf(queue[1..], c)
  }

  /** The entry a request is served from: its own class first, then the parameterless entries. */
  function Match(queue: seq<FixtureEntry>, request: Value): (i: nat)
    ensures i <= |queue|
  {
    var own := FirstOf(queue, ClassOf(request));
    if own < |queue| then own else FirstOf(queue, NoParams)
  }

  function AfterNext(qs: Queues, name: string, request: Value): Queues {
    var queue := QueueOf(qs, name);
    var i := Match(queue, request);
    if i < |queue| then qs[name := RemoveAt(queue, i)] else qs
  }

  /** The entry served, if any. */
  function Served(qs: Queues, name: string, request: Value): Option<FixtureEntry> {
    var queue := QueueOf(qs, name);
    var i := Match(queue, request);
    if i < |queue| then Some(queue[i]) else None
  }

  function Load(entries: seq<FixtureEntry>): Queues {
    if entries == [] then map[]
    else
      var qs, e := Load(entries[..|entries| - 1]), entries[|entries| - 1];
      qs[e.name := QueueOf(qs, e.name) + [e]]
  }

  /** The response handed out: deserialising it may still throw. */
  function Revived(e: FixtureEntry, host: Value -> Option<int>): Result<Value, ReplayError> {
    match Deserialise(e.response, host) case Some(v) => Success(v) case None => Failure(BadBigInt)
  }

  class ReplayQueue {
    var queues: Queues
    var consumed: nat

    constructor (entries: seq<FixtureEntry>)
      ensures queues == Load(entries) && consumed == 0
    {
      queues, consumed := map[], 0;
      new;
      for i := 0 to |entries|
        invariant queues == Load(entries[..i]) && consumed == 0
      {
        var e := entries[i];
        if e.name !in queues {
          queues := queues[e.name := []];
        }
        assert entries[..i + 1][..i] == entries[..i];
        queues := queues[e.name := queues[e.name] + [e]];
      }
      assert entries[..|entries|] == entries;
    }

    method FindIndex(queue: seq<FixtureEntry>, c: Class) returns (idx: int)
      ensures idx == if FirstOf(queue, c) < |queue| then FirstOf(queue, c) else -1
    {
      for i := 0 to |queue|
        invariant i <= FirstOf(queue, c)
      {
        if ClassOf(queue[i].request) == c {
          return i;
        }
      }
      return -1;
    }

    method Locate(queue: seq<FixtureEntry>, request: Value) returns (idx: int)
      ensures idx == if Match(queue, request) < |queue| then Match(queue, request) else -1
    {
      idx := -1;
      if !HasNoParams(request) {
        idx := FindIndex(queue, ClassOf(request));
      }
      if idx == -1 {
        idx := FindIndex(queue, NoParams);
      }
    }

    method Next(name: string, request: Value, host: Value -> Option<int>) returns (r: Result<Value, ReplayError>)
      modifies this
      ensures queues == AfterNext(old(queues), name, request)
      ensures match Served(old(queues), name, request)
              case None => r == Failure(NoFixture(name, old(consumed))) && consumed == old(consumed)
              case Some(e) => r == Revived(e, host) && consumed == old(consumed) + 1
    {
      if name !in queues || queues[name] == [] {
        assert QueueOf(queues, name) == [];
        return Failure(NoFixture(name, consumed));
      }
      var queue := queues[name];
      assert QueueOf(queues, name) == queue;
      var idx := Locate(queue, request);
      if idx == -1 {
        return Failure(NoFixture(name, consumed));
      }
      var entry := queue[idx];
      assert Served(queues, name, request) == Some(entry);
      queues := queues[name := RemoveAt(queue, idx)];
      consumed := consumed + 1;
      r := Revived(entry, host);
    }
  }

  // ---- One FIFO per method and class ----

  function OfClass(queue: seq<FixtureEntry>, c: Class): seq<FixtureEntry> {
    Filter(queue, (e: FixtureEntry) => ClassOf(e.request) == c)
  }

  /** The remaining entries of one method and class, oldest first. */
  function Fifo(qs: Queues, name: string, c: Class): seq<FixtureEntry> {
    OfClass(QueueOf(qs, name), c)
  }

  lemma OfClassConcat(a: seq<FixtureEntry>, b: seq<FixtureEntry>, c: Class)
    ensures OfClass(a + b, c) == OfClass(a, c) + OfClass(b, c)
  {
    FilterConcat(a, b, (e: FixtureEntry) => ClassOf(e.request) == c);
  }

  lemma OfClassOne(e: FixtureEntry, c: Class)
    ensures OfClass([e], c) == if ClassOf(e.request) == c then [e] else []
  {
    FilterOne(e, (x: FixtureEntry) => ClassOf(x.request) == c);
  }

  lemma NoneOfClass(queue: seq<FixtureEntry>, c: Class)
    requires forall k | 0 <= k < |queue| :: ClassOf(queue[k].request) != c
    ensures OfClass(queue, c) == []
  {
    FilterNone(queue, (e: FixtureEntry) => ClassOf(e.request) == c);
  }

  /** Taking the first entry of a class pops that class's FIFO and leaves every other one alone. */
  lemma TakeFirst(queue: seq<FixtureEntry>, c: Class, d: Class)
    requires FirstOf(queue, c) < |queue|
    ensures var i := FirstOf(queue, c);
      var fifo, left := OfClass(queue, d), OfClass(RemoveAt(queue, i), d);
      if c == d then fifo == [queue[i]] + left else left == fifo
  {
    FilterRemoveAt(queue, FirstOf(queue, c), (e: FixtureEntry) => ClassOf(e.request) == d);
  }

  lemma FifoEmpty(queue: seq<FixtureEntry>, c: Class)
    ensures OfClass(queue, c) == [] <==> FirstOf(queue, c) == |queue|
  {
    if FirstOf(queue, c) == |queue| {
      NoneOfClass(queue, c);
    } else {
      TakeFirst(queue, c, c);
    }
  }

  /** The class a request is served from: its own while it lasts, then the parameterless one. */
  function ServingClass(qs: Queues, name: string, request: Value): Class {
    if Fifo(qs, name, ClassOf(request)) != [] then ClassOf(request) else NoParams
  }

  /** The entry found is the first of the serving class. */
  lemma MatchServes(qs: Queues, name: string, request: Value)
    ensures Match(QueueOf(qs, name), request) == FirstOf(QueueOf(qs, name), ServingClass(qs, name, request))
  {
    FifoEmpty(QueueOf(qs, name), ClassOf(request));
  }

  /**
    next() refines one FIFO per method and class: it pops the request's own FIFO, or the method's parameterless one
    when that is empty, or fails and changes nothing when both are.
    */
  lemma NextPopsFifo(qs: Queues, name: string, request: Value, other: string, d: Class)
    ensures var from := ServingClass(qs, name, request);
      var fifo := Fifo(qs, name, from);
      && Served(qs, name, request) == (if fifo != [] then Some(fifo[0]) else None)
      && (fifo == [] ==> AfterNext(qs, name, request) == qs)
      && Fifo(AfterNext(qs, name, request), other, d)
         == if fifo != [] && other == name && d == from then fifo[1..] else Fifo(qs, other, d)
  {
    var queue, from := QueueOf(qs, name), ServingClass(qs, name, request);
    MatchServes(qs, name, request);
    FifoEmpty(queue, from);
    if FirstOf(queue, from) < |queue| {
      TakeFirst(queue, from, d);
      TakeFirst(queue, from, from);
    }
  }

  /** Neither null nor an empty object. */
  predicate HasParams(request: Value) {
    request != Null && request != Obj([])
  }

  /** Both have parameters, and the same ones. */
  predicate SameParams(recorded: Value, request: Value) {
    HasParams(recorded) && HasParams(request) && ParamsKey(recorded) == ParamsKey(request)
  }

  lemma ClassDecides(recorded: Value, request: Value)
    ensures ClassOf(recorded) == ClassOf(request) <==>
      SameParams(recorded, request) || (!HasParams(recorded) && !HasParams(request))
    ensures ClassOf(recorded) == NoParams <==> !HasParams(recorded)
  {
  }

  lemma ClassesDecide(queue: seq<FixtureEntry>, request: Value)
    ensures forall k | 0 <= k < |queue| ::
      && (ClassOf(queue[k].request) == ClassOf(request) <==>
            SameParams(queue[k].request, request) || (!HasParams(queue[k].request) && !HasParams(request)))
      && (ClassOf(queue[k].request) == NoParams <==> !HasParams(queue[k].request))
  {
    forall k | 0 <= k < |queue| { ClassDecides(queue[k].request, request); }
  }

  predicate FirstSame(queue: seq<FixtureEntry>, request: Value, i: nat) {
    && i < |queue| && SameParams(queue[i].request, request)
    && forall k | 0 <= k < i :: !SameParams(queue[k].request, request)
  }

  predicate NoneSame(queue: seq<FixtureEntry>, request: Value) {
    forall k | 0 <= k < |queue| :: !SameParams(queue[k].request, request)
  }

  predicate FirstBare(queue: seq<FixtureEntry>, i: nat) {
    i < |queue| && !HasParams(queue[i].request) && forall k | 0 <= k < i :: HasParams(queue[k].request)
  }

  predicate NoneBare(queue: seq<FixtureEntry>) {
    forall k | 0 <= k < |queue| :: HasParams(queue[k].request)
  }

  lemma MatchSame(queue: seq<FixtureEntry>, request: Value, i: nat)
    requires FirstSame(queue, request, i)
    ensures Match(queue, request) == i
  {
    ClassesDecide(queue, request);
  }

  lemma MatchBare(queue: seq<FixtureEntry>, request: Value, i: nat)
    requires NoneSame(queue, request) && FirstBare(queue, i)
    ensures Match(queue, request) == i
  {
    ClassesDecide(queue, request);
    ClassDecides(request, request);
  }

  lemma MatchNone(queue: seq<FixtureEntry>, request: Value)
    requires NoneSame(queue, request) && NoneBare(queue)
    ensures Match(queue, request) == |queue|
  {
    ClassesDecide(queue, request);
  }

  /**
    Which entry a call is served: the first recorded with the same parameters; failing that, the first recorded
    without any; failing that, none.
    */
  lemma ServedByParamsThenOrder(qs: Queues, name: string, request: Value, i: nat)
    ensures var queue, served := QueueOf(qs, name), Served(qs, name, request);
      && (FirstSame(queue, request, i) ==> served == Some(queue[i]))
      && (NoneSame(queue, request) && FirstBare(queue, i) ==> served == Some(queue[i]))
      && (NoneSame(queue, request) && NoneBare(queue) ==> served == None)
  {
    var queue := QueueOf(qs, name);
    if FirstSame(queue, request, i) { MatchSame(queue, request, i); }
    if NoneSame(queue, request) && FirstBare(queue, i) { MatchBare(queue, request, i); }
    if NoneSame(queue, request) && NoneBare(queue) { MatchNone(queue, request); }
  }

  // ---- Replaying a recording ----

  /** One call as the recording transport saw it. */
  datatype Call = Call(name: string, request: Value, response: Value)

  /** The fixture entry written for a call. */
  function Recorded(call: Call): FixtureEntry {
    FixtureEntry(call.name, Serialise(call.request), Serialise(call.response))
  }

  function Record(log: seq<Call>): (entries: seq<FixtureEntry>)
    ensures |entries| == |log|
  {
    if log == [] then [] else Record(log[..|log| - 1]) + [Recorded(log[|log| - 1])]
  }

  /** The calls of one method and class, in order. */
  function Calls(log: seq<Call>, name: string, c: Class): seq<Call> {
    if log == [] then []
    else
      var rest, call := Calls(log[..|log| - 1], name, c), log[|log| - 1];
      if call.name == name && ClassOf(call.request) == c then rest + [call] else rest
  }

  /** Loading a recording fills each FIFO with the recorded calls of its method and class. */
  lemma {:induction false} RecordingFillsFifo(log: seq<Call>, name: string, c: Class)
    ensures Fifo(Load(Record(log)), name, c) == Record(Calls(log, name, c))
  {
    if log != [] {
      var n := |log| - 1;
      var call := log[n];
      RecordingFillsFifo(log[..n], name, c);
      RecordedClass(call.request);
      var qs := Load(Record(log[..n]));
      assert Record(log)[..n] == Record(log[..n]);
      OfClassConcat(QueueOf(qs, call.name), [Recorded(call)], c);
      OfClassOne(Recorded(call), c);
      var calls := Calls(log, name, c);
      if call.name == name && ClassOf(call.request) == c {
        assert calls[..|calls| - 1] == Calls(log[..n], name, c);
      }
    }
  }

  function Replay(qs: Queues, calls: seq<Call>): Queues {
    if calls == [] then qs
    else AfterNext(Replay(qs, calls[..|calls| - 1]), calls[|calls| - 1].name, calls[|calls| - 1].request)
  }

  predicate CalledWithin(log: seq<Call>, calls: seq<Call>, name: string, c: Class) {
    |Calls(calls, name, c)| <= |Calls(log, name, c)|
  }

  /** No method and class is called more often than it was recorded. */
  ghost predicate WithinRecording(log: seq<Call>, calls: seq<Call>) {
    forall name, c :: CalledWithin(log, calls, name, c)
  }

  lemma CallsGrow(calls: seq<Call>, k: nat, name: string, c: Class)
    requires k < |calls|
    ensures |Calls(calls[..k + 1], name, c)|
         == |Calls(calls[..k], name, c)| + if calls[k].name == name && ClassOf(calls[k].request) == c then 1 else 0
  {
    assert calls[..k + 1][..k] == calls[..k];
  }

  lemma {:induction false} CallsPrefix(calls: seq<Call>, k: nat, name: string, c: Class)
    requires k <= |calls|
    ensures |Calls(calls[..k], name, c)| <= |Calls(calls, name, c)|
    decreases |calls| - k
  {
    if k == |calls| {
      assert calls[..k] == calls;
    } else {
      CallsGrow(calls, k, name, c);
      CallsPrefix(calls, k + 1, name, c);
    }
  }

  lemma CallsWithin(log: seq<Call>, calls: seq<Call>, k: nat, name: string, c: Class)
    requires WithinRecording(log, calls) && k <= |calls|
    ensures |Calls(calls[..k], name, c)| <= |Calls(log, name, c)|
  {
    CallsPrefix(calls, k, name, c);
    assert CalledWithin(log, calls, name, c);
  }

  /** A call whose own FIFO is not empty takes one entry from it and none from any other. */
  lemma OwnFifoServes(qs: Queues, call: Call, name: string, c: Class, recorded: seq<FixtureEntry>, n: nat)
    requires Fifo(qs, call.name, ClassOf(call.request)) != []
    requires n <= |recorded| && Fifo(qs, name, c) == recorded[n..]
    ensures var n' := n + if call.name == name && ClassOf(call.request) == c then 1 else 0;
      n' <= |recorded| && Fifo(AfterNext(qs, call.name, call.request), name, c) == recorded[n'..]
  {
    NextPopsFifo(qs, call.name, call.request, name, c);
  }

  /** The FIFO of one method and class after the first `k` calls, if each of them took its own entry. */
  function Remaining(log: seq<Call>, calls: seq<Call>, k: nat, name: string, c: Class): seq<FixtureEntry>
    requires k <= |calls|
  {
    var taken := |Calls(calls[..k], name, c)|;
    if taken <= |Calls(log, name, c)| then Record(Calls(log, name, c))[taken..] else []
  }

  lemma ReplayGrows(qs: Queues, calls: seq<Call>, k: nat)
    requires k < |calls|
    ensures Replay(qs, calls[..k + 1]) == AfterNext(Replay(qs, calls[..k]), calls[k].name, calls[k].request)
  {
    assert calls[..k + 1][..k] == calls[..k];
  }

  lemma DrainStep(log: seq<Call>, calls: seq<Call>, k: nat, name: string, c: Class)
    requires k < |calls| && |Calls(calls[..k + 1], name, c)| <= |Calls(log, name, c)|
    requires var qs := Replay(Load(Record(log)), calls[..k]);
      Fifo(qs, name, c) == Remaining(log, calls, k, name, c) && Fifo(qs, calls[k].name, ClassOf(calls[k].request)) != []
    ensures Fifo(Replay(Load(Record(log)), calls[..k + 1]), name, c) == Remaining(log, calls, k + 1, name, c)
  {
    ReplayGrows(Load(Record(log)), calls, k);
    CallsGrow(calls, k, name, c);
    OwnFifoServes(Replay(Load(Record(log)), calls[..k]), calls[k], name, c,
                  Record(Calls(log, name, c)), |Calls(calls[..k], name, c)|);
  }

  lemma {:induction false} FifoRemains(log: seq<Call>, calls: seq<Call>, k: nat, name: string, c: Class)
    requires WithinRecording(log, calls) && k <= |calls|
    ensures Fifo(Replay(Load(Record(log)), calls[..k]), name, c) == Remaining(log, calls, k, name, c)
    decreases k, 0
  {
    if k == 0 {
      RecordingFillsFifo(log, name, c);
    } else {
      CallsWithin(log, calls, k, name, c);
      FifoRemains(log, calls, k - 1, name, c);
      OwnFifoLeft(log, calls, k - 1);
      DrainStep(log, calls, k - 1, name, c);
    }
  }

  lemma {:induction false} OwnFifoLeft(log: seq<Call>, calls: seq<Call>, k: nat)
    requires WithinRecording(log, calls) && k < |calls|
    ensures Fifo(Replay(Load(Record(log)), calls[..k]), calls[k].name, ClassOf(calls[k].request)) != []
    decreases k, 1
  {
    var name, own := calls[k].name, ClassOf(calls[k].request);
    FifoRemains(log, calls, k, name, own);
    CallsGrow(calls, k, name, own);
    CallsWithin(log, calls, k + 1, name, own);
  }

  /** After any calls within the recording, each FIFO has lost exactly as many entries as it had calls. */
  lemma ReplayDrainsFifo(log: seq<Call>, calls: seq<Call>, k: nat, name: string, c: Class)
    requires WithinRecording(log, calls) && k <= |calls|
    ensures |Calls(calls[..k], name, c)| <= |Calls(log, name, c)|
    ensures Fifo(Replay(Load(Record(log)), calls[..k]), name, c)
         == Record(Calls(log, name, c))[|Calls(calls[..k], name, c)|..]
  {
    CallsWithin(log, calls, k, name, c);
    FifoRemains(log, calls, k, name, c);
  }

  lemma {:induction false} RecordAt(log: seq<Call>, i: nat)
    requires i < |log|
    ensures Record(log)[i] == Recorded(log[i])
  {
    if i < |log| - 1 {
      RecordAt(log[..|log| - 1], i);
    }
  }

  lemma {:induction false} CallsOf(log: seq<Call>, name: string, c: Class)
    ensures forall x | x in Calls(log, name, c) :: x in log && x.name == name && ClassOf(x.request) == c
  {
    if log != [] {
      CallsOf(log[..|log| - 1], name, c);
    }
  }

  /**
    Record, then replay any calls within the recording: no call fails, and the k-th call of a method and class gets
    exactly the response of the k-th recorded call of that method and class.
    */
  lemma ReplayIsFaithful(log: seq<Call>, calls: seq<Call>, k: nat, host: Value -> Option<int>)
    requires WithinRecording(log, calls) && k < |calls|
    requires forall call | call in log :: Untagged(call.response)
    ensures var call := calls[k];
      var own := ClassOf(call.request);
      var earlier := |Calls(calls[..k], call.name, own)|;
      var served := Served(Replay(Load(Record(log)), calls[..k]), call.name, call.request);
      && earlier < |Calls(log, call.name, own)|
      && served.Some?
      && Revived(served.value, host) == Success(Calls(log, call.name, own)[earlier].response)
  {
    var call := calls[k];
    var own := ClassOf(call.request);
    var recorded, earlier := Calls(log, call.name, own), |Calls(calls[..k], call.name, own)|;
    CallsGrow(calls, k, call.name, own);
    CallsWithin(log, calls, k + 1, call.name, own);
    ReplayDrainsFifo(log, calls, k, call.name, own);
    NextPopsFifo(Replay(Load(Record(log)), calls[..k]), call.name, call.request, call.name, own);
    RecordAt(recorded, earlier);
    CallsOf(log, call.name, own);
    assert recorded[earlier] in log;
    SerialiseRoundTrip(recorded[earlier].response, host);
  }

  lemma {:induction false} CallsConcat(a: seq<Call>, b: seq<Call>, name: string, c: Class)
    ensures |Calls(a + b, name, c)| == |Calls(a, name, c)| + |Calls(b, name, c)|
  {
    if b == [] {
      assert a + b == a;
    } else {
      assert (a + b)[..|a + b| - 1] == a + b[..|b| - 1];
      CallsConcat(a, b[..|b| - 1], name, c);
    }
  }

  /** Of two permutations, the last element of one is somewhere in the other, and the rest are permutations again. */
  lemma TakeOut(log: seq<Call>, calls: seq<Call>) returns (j: nat)
    requires log != [] && multiset(log) == multiset(calls)
    ensures j < |calls| && calls[j] == log[|log| - 1]
    ensures multiset(log[..|log| - 1]) == multiset(calls[..j] + calls[j + 1..])
  {
    var n := |log| - 1;
    assert log == log[..n] + [log[n]];
    assert log[n] in multiset(calls);
    j :| j < |calls| && calls[j] == log[n];
    var a, b := calls[..j], calls[j + 1..];
    assert calls == a + ([log[n]] + b);
    assert multiset(calls) == multiset(a + b) + multiset{log[n]};
    assert multiset(log) == multiset(log[..n]) + multiset{log[n]};
    assert multiset(log[..n]) == multiset(log) - multiset{log[n]};
  }

  lemma CallsSplit(calls: seq<Call>, j: nat, name: string, c: Class)
    requires j < |calls|
    ensures |Calls(calls, name, c)| == |Calls(calls[..j] + calls[j + 1..], name, c)| + |Calls([calls[j]], name, c)|
  {
    var a, b := calls[..j], calls[j + 1..];
    assert calls == a + ([calls[j]] + b);
    CallsConcat(a, [calls[j]] + b, name, c);
    CallsConcat([calls[j]], b, name, c);
    CallsConcat(a, b, name, c);
  }

  lemma {:induction false} PermutedCalls(log: seq<Call>, calls: seq<Call>, name: string, c: Class)
    requires multiset(log) == multiset(calls)
    ensures |Calls(log, name, c)| == |Calls(calls, name, c)|
  {
    if log == [] {
      assert calls == [] by { assert |multiset(calls)| == |calls|; }
    } else {
      var n := |log| - 1;
      var j := TakeOut(log, calls);
      PermutedCalls(log[..n], calls[..j] + calls[j + 1..], name, c);
      CallsSplit(calls, j, name, c);
      CallsSplit(log, n, name, c);
      assert log[..n] + log[n + 1..] == log[..n];
    }
  }

  /** In particular any permutation of the recorded calls is within the recording. */
  lemma PermutationIsWithin(log: seq<Call>, calls: seq<Call>)
    requires multiset(log) == multiset(calls)
    ensures WithinRecording(log, calls)
  {
    forall name, c
      ensures CalledWithin(log, calls, name, c)
    {
      PermutedCalls(log, calls, name, c);
    }
  }
}
