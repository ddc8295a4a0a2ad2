/** JavaScript data values, the canonical printer with sorted keys, and a parser that undoes it. */
module Json {
  import opened Sequences
  import opened Text

  datatype Member = Member(key: Text, value: Value)

  /** Numbers stand for their literal, as the host prints it; `Big` is a bigint. */
  datatype Value =
    | Null
    | Bool(b: bool)
    | Num(literal: Text)
    | Big(n: int)
    | Str(s: Text)
    | Arr(items: seq<Value>)
    | Obj(members: seq<Member>)

  predicate IsNumberUnit(u: CodeUnit) {
    ZERO <= u <= ZERO + 9 || u == MINUS || u == 43 || u == 46 || u == 69 || u == 101
  }

  predicate DistinctKeys(ms: seq<Member>) {
    forall i, j :: 0 <= i < j < |ms| ==> ms[i].key != ms[j].key
  }

  /** Number literals are made of number characters, and no object has a key twice. */
  predicate WellFormed(v: Value) {
    match v
    case Num(literal) => literal != [] && forall u | u in literal :: IsNumberUnit(u)
    case Arr(items) => forall i | 0 <= i < |items| :: WellFormed(items[i])
    case Obj(ms) => DistinctKeys(ms) && forall i | 0 <= i < |ms| :: WellFormed(ms[i].value)
    case _ => true
  }

  /** Equality up to the order of object keys. */
  predicate Equivalent(v: Value, w: Value)
    decreases v, 1
  {
    match (v, w)
    case (Arr(a), Arr(b)) => |a| == |b| && forall i | 0 <= i < |a| :: Equivalent(a[i], b[i])
    case (Obj(a), Obj(b)) => |a| == |b| && forall i | 0 <= i < |a| :: HasEquivalent(a[i], b)
    case (Arr(_), _) => false
    case (Obj(_), _) => false
    case _ => v == w
  }

  predicate HasEquivalent(m: Member, ms: seq<Member>)
    decreases m
  {
    exists j :: 0 <= j < |ms| && ms[j].key == m.key && Equivalent(m.value, ms[j].value)
  }

  // ---- Sorting by key ----

  function Insert<T>(p: (Text, T), ps: seq<(Text, T)>): seq<(Text, T)> {
    if ps == [] || Less(p.0, ps[0].0) then [p] + ps else [ps[0]] + Insert(p, ps[1..])
  }

  function SortByKey<T>(ps: seq<(Text, T)>): seq<(Text, T)> {
    if ps == [] then [] else Insert(ps[0], SortByKey(ps[1..]))
  }

  predicate KeySorted<T>(ps: seq<(Text, T)>) {
    forall i, j :: 0 <= i < j < |ps| ==> Less(ps[i].0, ps[j].0)
  }

  predicate DistinctFirst<T>(ps: seq<(Text, T)>) {
    forall i, j :: 0 <= i < j < |ps| ==> ps[i].0 != ps[j].0
  }

  lemma {:induction false} InsertSorted<T>(p: (Text, T), ps: seq<(Text, T)>)
    requires KeySorted(ps) && forall q | q in ps :: q.0 != p.0
    ensures KeySorted(Insert(p, ps))
    ensures SetOf(Insert(p, ps)) == SetOf(ps) + {p} && |Insert(p, ps)| == |ps| + 1
  {
    if ps != [] {
      if Less(p.0, ps[0].0) {
        forall j | 0 <= j < |ps|
          ensures Less(p.0, ps[j].0)
        {
          if j > 0 { LessTransitive(p.0, ps[0].0, ps[j].0); }
        }
      } else {
        LessTotal(p.0, ps[0].0);
        InsertSorted(p, ps[1..]);
        var rest := Insert(p, ps[1..]);
        forall j | 0 <= j < |rest|
          ensures Less(ps[0].0, rest[j].0)
        {
          assert rest[j] in SetOf(rest);
        }
        assert SetOf(ps) == SetOf(ps[1..]) + {ps[0]};
      }
    }
  }

  lemma {:induction false} SortSorts<T>(ps: seq<(Text, T)>)
    requires DistinctFirst(ps)
    ensures KeySorted(SortByKey(ps))
    ensures SetOf(SortByKey(ps)) == SetOf(ps) && |SortByKey(ps)| == |ps|
  {
    if ps != [] {
      SortSorts(ps[1..]);
      forall q | q in SortByKey(ps[1..])
        ensures q.0 != ps[0].0
      {
        assert q in SetOf(ps[1..]);
      }
      InsertSorted(ps[0], SortByKey(ps[1..]));
      assert SetOf(ps) == SetOf(ps[1..]) + {ps[0]};
    }
  }

  /** Sorted sequences with the same elements are equal. */
  lemma {:induction false} SortedUnique<T>(a: seq<(Text, T)>, b: seq<(Text, T)>)
    requires KeySorted(a) && KeySorted(b) && SetOf(a) == SetOf(b)
    ensures a == b
  {
    assert (a != [] ==> a[0] in SetOf(a)) && (b != [] ==> b[0] in SetOf(b));
    if a != [] && b != [] {
      SameHead(a, b);
      SortedTail(a);
      SortedTail(b);
      SortedUnique(a[1..], b[1..]);
    }
  }

  lemma SameHead<T>(a: seq<(Text, T)>, b: seq<(Text, T)>)
    requires KeySorted(a) && KeySorted(b) && SetOf(a) == SetOf(b) && a != [] && b != []
    ensures a[0] == b[0]
  {
    assert a[0] in SetOf(b) && b[0] in SetOf(a);
    var i :| 0 <= i < |b| && b[i] == a[0];
    var j :| 0 <= j < |a| && a[j] == b[0];
    if i > 0 && j > 0 {
      LessAsymmetric(a[0].0, a[j].0);
    }
  }

  lemma SortedTail<T>(a: seq<(Text, T)>)
    requires KeySorted(a) && a != []
    ensures KeySorted(a[1..]) && SetOf(a[1..]) == SetOf(a) - {a[0]}
  {
    forall j | 0 < j < |a|
      ensures a[j] != a[0]
    {
      LessAsymmetric(a[0].0, a[j].0);
    }
    assert SetOf(a) == SetOf(a[1..]) + {a[0]};
  }

  // ---- Canonical form ----

  function Pairs(ms: seq<Member>): (ps: seq<(Text, Value)>)
    ensures |ps| == |ms| && forall i | 0 <= i < |ms| :: ps[i] == (ms[i].key, Canonical(ms[i].value))
    decreases ms
  {
    if ms == [] then [] else [(ms[0].key, Canonical(ms[0].value))] + Pairs(ms[1..])
  }

  function Members(ps: seq<(Text, Value)>): (ms: seq<Member>)
    ensures |ms| == |ps| && forall i | 0 <= i < |ps| :: ms[i] == Member(ps[i].0, ps[i].1)
  {
    if ps == [] then [] else [Member(ps[0].0, ps[0].1)] + Members(ps[1..])
  }

  function CanonicalItems(items: seq<Value>): (r: seq<Value>)
    ensures |r| == |items| && forall i | 0 <= i < |items| :: r[i] == Canonical(items[i])
    decreases items
  {
    if items == [] then [] else [Canonical(items[0])] + CanonicalItems(items[1..])
  }

  /** The same value with the keys of every object in ascending order. */
  function Canonical(v: Value): Value
    decreases v
  {
    match v
    case Arr(items) => Arr(CanonicalItems(items))
    case Obj(ms) => Obj(Members(SortByKey(Pairs(ms))))
    case _ => v
  }

  /** Canonical forms coincide exactly for values equal up to key order. */
  lemma {:induction false} CanonicalDecides(v: Value, w: Value)
    requires WellFormed(v) && WellFormed(w)
    ensures Canonical(v) == Canonical(w) <==> Equivalent(v, w)
    decreases v
  {
    match (v, w)
    case (Arr(a), Arr(b)) =>
      if |a| == |b| {
        forall i | 0 <= i < |a|
          ensures Canonical(a[i]) == Canonical(b[i]) <==> Equivalent(a[i], b[i])
        {
          CanonicalDecides(a[i], b[i]);
        }
        assert CanonicalItems(a) == CanonicalItems(b)
          <==> forall i | 0 <= i < |a| :: CanonicalItems(a)[i] == CanonicalItems(b)[i];
      } else {
        assert |CanonicalItems(a)| != |CanonicalItems(b)|;
      }
    case (Obj(a), Obj(b)) =>
      forall i, j | 0 <= i < |a| && 0 <= j < |b|
        ensures Canonical(a[i].value) == Canonical(b[j].value) <==> Equivalent(a[i].value, b[j].value)
      {
        CanonicalDecides(a[i].value, b[j].value);
      }
      ObjectsDecide(a, b);
    case _ =>
  }

  lemma MemberDecides(m: Member, b: seq<Member>)
    requires forall j | 0 <= j < |b| :: Canonical(m.value) == Canonical(b[j].value) <==> Equivalent(m.value, b[j].value)
    ensures HasEquivalent(m, b) <==> (m.key, Canonical(m.value)) in Pairs(b)
  {
    var q := Pairs(b);
    if (m.key, Canonical(m.value)) in q {
      var j :| 0 <= j < |q| && q[j] == (m.key, Canonical(m.value));
      assert Equivalent(m.value, b[j].value);
    }
    if HasEquivalent(m, b) {
      var j :| 0 <= j < |b| && b[j].key == m.key && Equivalent(m.value, b[j].value);
      assert q[j] == (m.key, Canonical(m.value));
    }
  }

  lemma ObjectsDecide(a: seq<Member>, b: seq<Member>)
    requires DistinctKeys(a) && DistinctKeys(b)
    requires forall i, j | 0 <= i < |a| && 0 <= j < |b| ::
      Canonical(a[i].value) == Canonical(b[j].value) <==> Equivalent(a[i].value, b[j].value)
    ensures Canonical(Obj(a)) == Canonical(Obj(b)) <==> Equivalent(Obj(a), Obj(b))
  {
    var p, q := Pairs(a), Pairs(b);
    SortSorts(p);
    SortSorts(q);
    forall i | 0 <= i < |a|
      ensures HasEquivalent(a[i], b) <==> p[i] in q
    {
      MemberDecides(a[i], b);
    }
    if Equivalent(Obj(a), Obj(b)) {
      SamePairs(p, q);
      SortedUnique(SortByKey(p), SortByKey(q));
    } else if Canonical(Obj(a)) == Canonical(Obj(b)) {
      SamePairsBack(SortByKey(p), SortByKey(q));
      assert SetOf(p) == SetOf(q);
      forall i | 0 <= i < |a|
        ensures p[i] in q
      {
        assert p[i] in SetOf(p);
      }
    }
  }

  lemma SamePairs(p: seq<(Text, Value)>, q: seq<(Text, Value)>)
    requires DistinctFirst(p) && |p| == |q| && forall i | 0 <= i < |p| :: p[i] in q
    ensures SetOf(p) == SetOf(q)
  {
    assert Distinct(p);
    DistinctCardinality(p);
    DistinctCardinality(q);
    SubsetOfSameSize(SetOf(p), SetOf(q));
  }

  lemma {:induction false} SubsetOfSameSize<T>(a: set<T>, b: set<T>)
    requires a <= b && |a| >= |b|
    ensures a == b
  {
    if a != {} {
      var x :| x in a;
      SubsetOfSameSize(a - {x}, b - {x});
    }
  }

  lemma SamePairsBack(p: seq<(Text, Value)>, q: seq<(Text, Value)>)
    requires Members(p) == Members(q)
    ensures p == q
  {
    forall i | 0 <= i < |p|
      ensures p[i] == q[i]
    {
      assert Members(p)[i] == Members(q)[i];
    }
  }

  // ---- The canonical printer ----

  const COMMA: CodeUnit := 44
  const COLON: CodeUnit := 58
  const OPEN_BRACKET: CodeUnit := 91
  const CLOSE_BRACKET: CodeUnit := 93
  const OPEN_BRACE: CodeUnit := 123
  const CLOSE_BRACE: CodeUnit := 125
  const LETTER_N: CodeUnit := 110
  const NULL_TEXT: Text := [110, 117, 108, 108]
  const TRUE_TEXT: Text := [116, 114, 117, 101]
  const FALSE_TEXT: Text := [102, 97, 108, 115, 101]

  function Quote(s: Text): Text {
    [QUOTE] + QuoteBody(s) + [QUOTE]
  }

  /** JSON.stringify of a primitive, and the `n` suffix for a bigint. */
  function Scalar(v: Value): Text
    requires !v.Arr? && !v.Obj?
  {
    match v
    case Null => NULL_TEXT
    case Bool(b) => if b then TRUE_TEXT else FALSE_TEXT
    case Num(literal) => literal
    case Big(n) => Decimal(n) + [LETTER_N]
    case Str(s) => Quote(s)
  }

  /** ts.join(',') */
  function Join(ts: seq<Text>): Text {
    if ts == [] then [] else if |ts| == 1 then ts[0] else ts[0] + [COMMA] + Join(ts[1..])
  }

  function Entry(key: Text, text: Text): Text {
    Quote(key) + [COLON] + text
  }

  function Entries(ps: seq<(Text, Text)>): (ts: seq<Text>)
    ensures |ts| == |ps| && forall i | 0 <= i < |ps| :: ts[i] == Entry(ps[i].0, ps[i].1)
  {
    if ps == [] then [] else [Entry(ps[0].0, ps[0].1)] + Entries(ps[1..])
  }

  function Brackets(ts: seq<Text>): Text {
    [OPEN_BRACKET] + Join(ts) + [CLOSE_BRACKET]
  }

  function Braces(ts: seq<Text>): Text {
    [OPEN_BRACE] + Join(ts) + [CLOSE_BRACE]
  }

  function StringifyItems(items: seq<Value>): (ts: seq<Text>)
    ensures |ts| == |items| && forall i | 0 <= i < |items| :: ts[i] == StableStringify(items[i])
    decreases items
  {
    if items == [] then [] else [StableStringify(items[0])] + StringifyItems(items[1..])
  }

  function StringifyMembers(ms: seq<Member>): (ps: seq<(Text, Text)>)
    ensures |ps| == |ms| && forall i | 0 <= i < |ms| :: ps[i] == (ms[i].key, StableStringify(ms[i].value))
    decreases ms
  {
    if ms == [] then [] else [(ms[0].key, StableStringify(ms[0].value))] + StringifyMembers(ms[1..])
  }

  /** The match key: entries are sorted by key, then formatted. */
  function StableStringify(v: Value): Text
    decreases v
  {
    match v
    case Arr(items) => Brackets(StringifyItems(items))
    case Obj(ms) => Braces(Entries(SortByKey(StringifyMembers(ms))))
    case _ => Scalar(v)
  }

  // ---- It prints the canonical form ----

  function PrintItems(items: seq<Value>): (ts: seq<Text>)
    ensures |ts| == |items| && forall i | 0 <= i < |items| :: ts[i] == Print(items[i])
    decreases items
  {
    if items == [] then [] else [Print(items[0])] + PrintItems(items[1..])
  }

  function PrintMembers(ms: seq<Member>): (ps: seq<(Text, Text)>)
    ensures |ps| == |ms| && forall i | 0 <= i < |ms| :: ps[i] == (ms[i].key, Print(ms[i].value))
    decreases ms
  {
    if ms == [] then [] else [(ms[0].key, Print(ms[0].value))] + PrintMembers(ms[1..])
  }

  /** Prints a value in the key order it has. */
  function Print(v: Value): Text
    decreases v
  {
    match v
    case Arr(items) => Brackets(PrintItems(items))
    case Obj(ms) => Braces(Entries(PrintMembers(ms)))
    case _ => Scalar(v)
  }

  function PrintPairs(ps: seq<(Text, Value)>): (ts: seq<(Text, Text)>)
    ensures |ts| == |ps| && forall i | 0 <= i < |ps| :: ts[i] == (ps[i].0, Print(ps[i].1))
  {
    if ps == [] then [] else [(ps[0].0, Print(ps[0].1))] + PrintPairs(ps[1..])
  }

  lemma {:induction false} InsertPrints(p: (Text, Value), ps: seq<(Text, Value)>)
    ensures Insert((p.0, Print(p.1)), PrintPairs(ps)) == PrintPairs(Insert(p, ps))
  {
    if ps != [] && !Less(p.0, ps[0].0) {
      InsertPrints(p, ps[1..]);
      assert PrintPairs(ps)[1..] == PrintPairs(ps[1..]);
    }
  }

  lemma {:induction false} SortPrints(ps: seq<(Text, Value)>)
    ensures SortByKey(PrintPairs(ps)) == PrintPairs(SortByKey(ps))
  {
    if ps != [] {
      SortPrints(ps[1..]);
      InsertPrints(ps[0], SortByKey(ps[1..]));
      assert PrintPairs(ps)[1..] == PrintPairs(ps[1..]);
    }
  }

  lemma {:induction false} StringifyPrintsCanonical(v: Value)
    ensures StableStringify(v) == Print(Canonical(v))
    decreases v
  {
    match v
    case Arr(items) =>
      forall i | 0 <= i < |items|
        ensures StableStringify(items[i]) == Print(Canonical(items[i]))
      {
        StringifyPrintsCanonical(items[i]);
      }
      assert StringifyItems(items) == PrintItems(CanonicalItems(items));
    case Obj(ms) =>
      forall i | 0 <= i < |ms|
        ensures StableStringify(ms[i].value) == Print(Canonical(ms[i].value))
      {
        StringifyPrintsCanonical(ms[i].value);
      }
      assert StringifyMembers(ms) == PrintPairs(Pairs(ms));
      SortPrints(Pairs(ms));
      assert PrintPairs(SortByKey(Pairs(ms))) == PrintMembers(Members(SortByKey(Pairs(ms))));
    case _ =>
  }

  // ---- The parser that undoes the printer ----

  function NumberLength(t: Text): (n: nat)
    ensures n <= |t|
  {
    if t == [] || !IsNumberUnit(t[0]) then 0 else 1 + NumberLength(t[1..])
  }

  function ParseNumber(t: Text): (r: Option<(Value, Text)>)
    ensures r.Some? ==> |r.value.1| < |t|
  {
    var n := NumberLength(t);
    if n == 0 then None
    else if n < |t| && t[n] == LETTER_N then
      match DecimalValue(t[..n]) case Some(k) => Some((Big(k), t[n + 1..])) case None => None
    else Some((Num(t[..n]), t[n..]))
  }

  function ParseValue(t: Text): (r: Option<(Value, Text)>)
    ensures r.Some? ==> |r.value.1| < |t|
    decreases |t|, 0
  {
    if t == [] then None
    else if t[0] == OPEN_BRACKET then
      if |t| > 1 && t[1] == CLOSE_BRACKET then Some((Arr([]), t[2..]))
      else match ParseItems(t[1..]) case Some((items, rest)) => Some((Arr(items), rest)) case None => None
    else if t[0] == OPEN_BRACE then
      if |t| > 1 && t[1] == CLOSE_BRACE then Some((Obj([]), t[2..]))
      else match ParseMembers(t[1..]) case Some((ms, rest)) => Some((Obj(ms), rest)) case None => None
    else if t[0] == QUOTE then
      match Unquote(t[1..]) case Some((s, rest)) => Some((Str(s), rest)) case None => None
    else if NULL_TEXT <= t then Some((Null, t[4..]))
    else if TRUE_TEXT <= t then Some((Bool(true), t[4..]))
    else if FALSE_TEXT <= t then Some((Bool(false), t[5..]))
    else ParseNumber(t)
  }

  function ParseItems(t: Text): (r: Option<(seq<Value>, Text)>)
    ensures r.Some? ==> |r.value.1| < |t|
    decreases |t|, 1
  {
    match ParseValue(t)
    case None => None
    case Some((v, rest)) =>
      if rest == [] then None
      else if rest[0] == CLOSE_BRACKET then Some(([v], rest[1..]))
      else if rest[0] != COMMA then None
      else match ParseItems(rest[1..]) case Some((items, end)) => Some(([v] + items, end)) case None => None
  }

  function ParseEntry(t: Text): (r: Option<(Member, Text)>)
    ensures r.Some? ==> |r.value.1| < |t|
    decreases |t|, 1
  {
    if t == [] || t[0] != QUOTE then None
    else match Unquote(t[1..])
      case None => None
      case Some((key, rest)) =>
        if rest == [] || rest[0] != COLON then None
        else match ParseValue(rest[1..]) case Some((v, end)) => Some((Member(key, v), end)) case None => None
  }

  function ParseMembers(t: Text): (r: Option<(seq<Member>, Text)>)
    ensures r.Some? ==> |r.value.1| < |t|
    decreases |t|, 2
  {
    match ParseEntry(t)
    case None => None
    case Some((m, rest)) =>
      if rest == [] then None
      else if rest[0] == CLOSE_BRACE then Some(([m], rest[1..]))
      else if rest[0] != COMMA then None
      else match ParseMembers(rest[1..]) case Some((ms, end)) => Some(([m] + ms, end)) case None => None
  }

  /** What may follow a value without being read as part of it. */
  predicate Delimits(rest: Text) {
    rest == [] || (!IsNumberUnit(rest[0]) && rest[0] != LETTER_N)
  }

  lemma {:induction false} NumberStops(t: Text, rest: Text)
    requires (forall u | u in t :: IsNumberUnit(u)) && (rest == [] || !IsNumberUnit(rest[0]))
    ensures NumberLength(t + rest) == |t|
  {
    if t == [] {
      assert t + rest == rest;
    } else {
      NumberStops(t[1..], rest);
      assert (t + rest)[1..] == t[1..] + rest && t[0] in t;
    }
  }

  lemma ParseNum(literal: Text, rest: Text)
    requires literal != [] && (forall u | u in literal :: IsNumberUnit(u)) && Delimits(rest)
    ensures ParseValue(literal + rest) == Some((Num(literal), rest))
  {
    var t := literal + rest;
    NumberStops(literal, rest);
    assert t[0] == literal[0] && literal[0] in literal;
    assert t[..|literal|] == literal && t[|literal|..] == rest;
    assert ParseValue(t) == ParseNumber(t);
  }

  lemma ParseBig(n: int, rest: Text)
    ensures ParseValue(Decimal(n) + [LETTER_N] + rest) == Some((Big(n), rest))
  {
    var d, t := Decimal(n), Decimal(n) + [LETTER_N] + rest;
    DecimalRoundTrip(n);
    assert forall u | u in d :: IsNumberUnit(u);
    NumberStops(d, [LETTER_N] + rest);
    assert t == d + ([LETTER_N] + rest);
    assert t[0] == d[0] && d[0] in d;
    assert t[..|d|] == d && t[|d|] == LETTER_N && t[|d| + 1..] == rest;
    assert ParseValue(t) == ParseNumber(t);
  }

  lemma ParseWord(v: Value, rest: Text)
    requires v.Null? || v.Bool?
    ensures ParseValue(Scalar(v) + rest) == Some((v, rest))
  {
    var w, t := Scalar(v), Scalar(v) + rest;
    assert w <= t && t[|w|..] == rest && t[0] == w[0];
    if v != Null && !v.b {
      assert t[0] != NULL_TEXT[0] && t[0] != TRUE_TEXT[0];
    } else if v != Null {
      assert t[0] != NULL_TEXT[0];
    }
  }

  lemma ParseString(s: Text, rest: Text)
    ensures ParseValue(Quote(s) + rest) == Some((Str(s), rest))
  {
    var t := Quote(s) + rest;
    QuoteRoundTrip(s, rest);
    assert t[0] == QUOTE && t[1..] == QuoteBody(s) + [QUOTE] + rest;
  }

  lemma ArrayOpens(body: Text, items: seq<Value>, rest: Text)
    requires body != [] && body[0] != CLOSE_BRACKET && ParseItems(body) == Some((items, rest))
    ensures ParseValue([OPEN_BRACKET] + body) == Some((Arr(items), rest))
  {
    var t := [OPEN_BRACKET] + body;
    assert t[1..] == body && t[1] == body[0];
  }

  lemma ObjectOpens(body: Text, ms: seq<Member>, rest: Text)
    requires body != [] && body[0] != CLOSE_BRACE && ParseMembers(body) == Some((ms, rest))
    ensures ParseValue([OPEN_BRACE] + body) == Some((Obj(ms), rest))
  {
    var t := [OPEN_BRACE] + body;
    assert t[1..] == body && t[1] == body[0];
  }

  lemma ItemsEnd(t: Text, v: Value, rest: Text)
    requires ParseValue(t) == Some((v, [CLOSE_BRACKET] + rest))
    ensures ParseItems(t) == Some(([v], rest))
  {
    assert ([CLOSE_BRACKET] + rest)[1..] == rest;
  }

  lemma ItemsMore(t: Text, v: Value, tail: Text, items: seq<Value>, rest: Text)
    requires ParseValue(t) == Some((v, [COMMA] + tail)) && ParseItems(tail) == Some((items, rest))
    ensures ParseItems(t) == Some(([v] + items, rest))
  {
    assert ([COMMA] + tail)[1..] == tail;
  }

  lemma MembersEnd(t: Text, m: Member, rest: Text)
    requires ParseEntry(t) == Some((m, [CLOSE_BRACE] + rest))
    ensures ParseMembers(t) == Some(([m], rest))
  {
    assert ([CLOSE_BRACE] + rest)[1..] == rest;
  }

  lemma MembersMore(t: Text, m: Member, tail: Text, ms: seq<Member>, rest: Text)
    requires ParseEntry(t) == Some((m, [COMMA] + tail)) && ParseMembers(tail) == Some((ms, rest))
    ensures ParseMembers(t) == Some(([m] + ms, rest))
  {
    assert ([COMMA] + tail)[1..] == tail;
  }

  lemma EntryText(key: Text, text: Text, rest: Text)
    ensures Entry(key, text) + rest == [QUOTE] + (QuoteBody(key) + [QUOTE] + ([COLON] + (text + rest)))
  {
  }

  lemma EntryOpens(body: Text, key: Text, tail: Text, v: Value, rest: Text)
    requires Unquote(body) == Some((key, [COLON] + tail)) && ParseValue(tail) == Some((v, rest))
    ensures ParseEntry([QUOTE] + body) == Some((Member(key, v), rest))
  {
    assert ([QUOTE] + body)[1..] == body && ([COLON] + tail)[1..] == tail;
  }

  lemma EntryParses(key: Text, text: Text, v: Value, rest: Text)
    requires ParseValue(text + rest) == Some((v, rest))
    ensures ParseEntry(Entry(key, text) + rest) == Some((Member(key, v), rest))
  {
    var tail := text + rest;
    QuoteRoundTrip(key, [COLON] + tail);
    EntryOpens(QuoteBody(key) + [QUOTE] + ([COLON] + tail), key, tail, v, rest);
    EntryText(key, text, rest);
  }

  lemma EnclosedText(ts: seq<Text>, rest: Text)
    ensures Brackets(ts) + rest == [OPEN_BRACKET] + (Join(ts) + ([CLOSE_BRACKET] + rest))
    ensures Braces(ts) + rest == [OPEN_BRACE] + (Join(ts) + ([CLOSE_BRACE] + rest))
  {
  }

  lemma EmptyParses(rest: Text)
    ensures ParseValue(Brackets([]) + rest) == Some((Arr([]), rest))
    ensures ParseValue(Braces([]) + rest) == Some((Obj([]), rest))
  {
    assert Brackets([]) == [OPEN_BRACKET, CLOSE_BRACKET] && Braces([]) == [OPEN_BRACE, CLOSE_BRACE];
    assert ([OPEN_BRACKET, CLOSE_BRACKET] + rest)[2..] == rest;
    assert ([OPEN_BRACE, CLOSE_BRACE] + rest)[2..] == rest;
  }

  lemma JoinSplits(ts: seq<Text>, end: Text)
    requires |ts| > 1
    ensures Join(ts) + end == ts[0] + ([COMMA] + (Join(ts[1..]) + end))
  {
    assert ts[0] + [COMMA] + Join(ts[1..]) + end == ts[0] + ([COMMA] + (Join(ts[1..]) + end));
  }

  lemma JoinStarts(ts: seq<Text>)
    requires ts != [] && ts[0] != []
    ensures Join(ts) != [] && Join(ts)[0] == ts[0][0]
  {
  }

  /** Reading a printed value gives the value back and stops where it ended. */
  lemma {:induction false} ParsePrinted(v: Value, rest: Text)
    requires WellFormed(v) && Delimits(rest)
    ensures ParseValue(Print(v) + rest) == Some((v, rest))
    decreases v
  {
    match v
    case Arr(items) =>
      if items == [] {
        EmptyParses(rest);
      } else {
        var ts := PrintItems(items);
        ParsePrintedItems(items, rest);
        PrintStarts(items[0]);
        JoinStarts(ts);
        ArrayOpens(Join(ts) + ([CLOSE_BRACKET] + rest), items, rest);
        EnclosedText(ts, rest);
      }
    case Obj(ms) =>
      if ms == [] {
        EmptyParses(rest);
      } else {
        var ts := Entries(PrintMembers(ms));
        ParsePrintedMembers(ms, rest);
        JoinStarts(ts);
        ObjectOpens(Join(ts) + ([CLOSE_BRACE] + rest), ms, rest);
        EnclosedText(ts, rest);
      }
    case Num(literal) => ParseNum(literal, rest);
    case Big(n) => ParseBig(n, rest);
    case Str(s) => ParseString(s, rest);
    case _ => ParseWord(v, rest);
  }

  lemma PrintStarts(v: Value)
    requires WellFormed(v)
    ensures Print(v) != [] && Print(v)[0] != CLOSE_BRACKET
  {
    if v.Num? {
      assert v.literal[0] in v.literal;
    } else if v.Big? {
      assert IsNumberUnit(Decimal(v.n)[0]) by {
        if v.n >= 0 { assert Digits(v.n)[0] in Digits(v.n); }
      }
    }
  }

  lemma {:induction false} ParsePrintedItems(items: seq<Value>, rest: Text)
    requires items != [] && forall i | 0 <= i < |items| :: WellFormed(items[i])
    ensures ParseItems(Join(PrintItems(items)) + ([CLOSE_BRACKET] + rest)) == Some((items, rest))
    decreases items
  {
    var ts, end := PrintItems(items), [CLOSE_BRACKET] + rest;
    assert items == [items[0]] + items[1..];
    if |items| == 1 {
      assert items == [items[0]] && Join(ts) == ts[0];
      ParsePrinted(items[0], end);
      ItemsEnd(ts[0] + end, items[0], rest);
    } else {
      var tail := Join(ts[1..]) + end;
      assert ts[1..] == PrintItems(items[1..]);
      ParsePrintedItems(items[1..], rest);
      ParsePrinted(items[0], [COMMA] + tail);
      ItemsMore(ts[0] + ([COMMA] + tail), items[0], tail, items[1..], rest);
      JoinSplits(ts, end);
    }
  }

  lemma EntriesTail(ms: seq<Member>)
    requires ms != []
    ensures var ts := Entries(PrintMembers(ms));
      ts != [] && ts[0] == Entry(ms[0].key, Print(ms[0].value)) && ts[1..] == Entries(PrintMembers(ms[1..]))
  {
  }

  lemma {:induction false} ParsePrintedMembers(ms: seq<Member>, rest: Text)
    requires ms != [] && forall i | 0 <= i < |ms| :: WellFormed(ms[i].value)
    ensures ParseMembers(Join(Entries(PrintMembers(ms))) + ([CLOSE_BRACE] + rest)) == Some((ms, rest))
    decreases ms
  {
    var ts, end := Entries(PrintMembers(ms)), [CLOSE_BRACE] + rest;
    EntriesTail(ms);
    assert ms == [ms[0]] + ms[1..];
    if |ms| == 1 {
      assert ms == [ms[0]] && Join(ts) == ts[0];
      ParsePrintedEntry(ms[0], end);
      MembersEnd(ts[0] + end, ms[0], rest);
    } else {
      var tail := Join(ts[1..]) + end;
      ParsePrintedMembers(ms[1..], rest);
      ParsePrintedEntry(ms[0], [COMMA] + tail);
      MembersMore(ts[0] + ([COMMA] + tail), ms[0], tail, ms[1..], rest);
      JoinSplits(ts, end);
    }
  }

  lemma {:induction false} ParsePrintedEntry(m: Member, rest: Text)
    requires WellFormed(m.value) && Delimits(rest)
    ensures ParseEntry(Entry(m.key, Print(m.value)) + rest) == Some((m, rest))
    decreases m
  {
    ParsePrinted(m.value, rest);
    EntryParses(m.key, Print(m.value), m.value, rest);
  }

  // ---- The keys decide equality ----

  lemma {:induction false} CanonicalWellFormed(v: Value)
    requires WellFormed(v)
    ensures WellFormed(Canonical(v))
    decreases v
  {
    match v
    case Arr(items) =>
      forall i | 0 <= i < |items|
        ensures WellFormed(CanonicalItems(items)[i])
      {
        CanonicalWellFormed(items[i]);
      }
    case Obj(ms) =>
      var ps := Pairs(ms);
      var sorted := SortByKey(ps);
      SortSorts(ps);
      forall i | 0 <= i < |sorted|
        ensures WellFormed(sorted[i].1)
      {
        assert sorted[i] in SetOf(ps);
        var j :| 0 <= j < |ps| && ps[j] == sorted[i];
        CanonicalWellFormed(ms[j].value);
      }
      forall i, j | 0 <= i < j < |sorted|
        ensures sorted[i].0 != sorted[j].0
      {
        LessAsymmetric(sorted[i].0, sorted[j].0);
      }
    case _ =>
  }

  /** The parser returns the canonical form of whatever was printed. */
  lemma ParseUndoesStringify(v: Value)
    requires WellFormed(v)
    ensures ParseValue(StableStringify(v)) == Some((Canonical(v), []))
  {
    StringifyPrintsCanonical(v);
    CanonicalWellFormed(v);
    ParsePrinted(Canonical(v), []);
    assert Print(Canonical(v)) + [] == Print(Canonical(v));
  }

  /** Two values get the same text exactly when they are equal up to the order of object keys. */
  lemma SameKeyIffEquivalent(v: Value, w: Value)
    requires WellFormed(v) && WellFormed(w)
    ensures StableStringify(v) == StableStringify(w) <==> Equivalent(v, w)
  {
    ParseUndoesStringify(v);
    ParseUndoesStringify(w);
    CanonicalDecides(v, w);
    StringifyPrintsCanonical(v);
    StringifyPrintsCanonical(w);
  }

  // ---- The text itself, on an example ----

  /** The text [-10n,null] */
  const PRINTED_LIST: Text := [91, 45, 49, 48, 110, 44, 110, 117, 108, 108, 93]

  /** The text of a quoted line feed. */
  const PRINTED_TEXT: Text := [34, 92, 110, 34]

  lemma PrintedNumber()
    ensures StableStringify(Big(-10)) == [45, 49, 48, 110]
  {
    assert Digits(1) == [49] && 10 / 10 == 1 && 10 % 10 == 0;
    assert Digits(10) == [49] + [48];
  }

  lemma PrintedList()
    ensures StableStringify(Arr([Big(-10), Null])) == PRINTED_LIST
  {
    var items := [Big(-10), Null];
    PrintedNumber();
    assert StringifyItems(items[1..]) == [NULL_TEXT];
    var ts := StringifyItems(items);
    assert ts == [[45, 49, 48, 110], NULL_TEXT] && ts[1..] == [NULL_TEXT];
    assert Join(ts) == [45, 49, 48, 110] + [44] + NULL_TEXT;
  }

  lemma PrintedText()
    ensures StableStringify(Str([10])) == PRINTED_TEXT
  {
    assert QuoteBody([10]) == EscapeUnit(10) + QuoteBody([10][1..]) == [92, 110];
  }

  lemma PrintedEntry(u: CodeUnit, text: Text)
    requires 97 <= u <= 122
    ensures Entry([u], text) == [34, u, 34, 58] + text
  {
    assert QuoteBody([u]) == EscapeUnit(u) + QuoteBody([u][1..]) == [u];
  }

  lemma SortedPair<T>(p: (Text, T), q: (Text, T))
    requires Less(q.0, p.0)
    ensures SortByKey([p, q]) == [q, p]
  {
    assert [p, q][1..] == [q] && [q][1..] == [];
    assert SortByKey([q]) == Insert(q, []) == [q];
    LessAsymmetric(q.0, p.0);
    assert Insert(p, [q]) == [q] + Insert(p, []);
  }

  lemma BracedPair(p: (Text, Text), q: (Text, Text))
    ensures Braces(Entries([p, q])) == [123] + Entry(p.0, p.1) + [44] + Entry(q.0, q.1) + [125]
  {
    assert [p, q][1..] == [q];
    var ts := Entries([p, q]);
    assert ts == [Entry(p.0, p.1), Entry(q.0, q.1)] && ts[1..] == [ts[1]];
    assert Join(ts) == ts[0] + [44] + ts[1];
  }

  lemma PrintedMembers(ms: seq<Member>)
    requires |ms| == 2
    ensures StringifyMembers(ms)
         == [(ms[0].key, StableStringify(ms[0].value)), (ms[1].key, StableStringify(ms[1].value))]
  {
  }

  /** {"b":[-10n,null],"a":"\n"} has the key {"a":"\n","b":[-10n,null]}. */
  lemma PrintedExample()
    ensures StableStringify(Obj([Member([98], Arr([Big(-10), Null])), Member([97], Str([10]))]))
         == [123] + ([34, 97, 34, 58] + PRINTED_TEXT) + [44] + ([34, 98, 34, 58] + PRINTED_LIST) + [125]
  {
    var ms := [Member([98], Arr([Big(-10), Null])), Member([97], Str([10]))];
    var a: (Text, Text), b: (Text, Text) := ([97], PRINTED_TEXT), ([98], PRINTED_LIST);
    PrintedList();
    PrintedText();
    PrintedMembers(ms);
    assert Less(a.0, b.0);
    SortedPair(b, a);
    BracedPair(a, b);
    PrintedEntry(97, PRINTED_TEXT);
    PrintedEntry(98, PRINTED_LIST);
    assert StableStringify(Obj(ms)) == Braces(Entries([a, b]));
  }
}
