/** Plugins ordered by named before/after constraints: Kahn's algorithm with rollback of a rejected registration. */
module Plugins {
  import opened Sequences
  import opened Graph

  type Plugin = Node

  /** One Map entry. A missing or empty name leaves the plugin unaddressable. */
  datatype Registration = Registration(plugin: Plugin, name: Option<string>, before: seq<string>, after: seq<string>)

  datatype RegistryError = CircularDependency

  // ---- The stated constraint graph ----

  function Keys(es: seq<Registration>): (ps: seq<Plugin>)
    ensures |ps| == |es| && forall i | 0 <= i < |es| :: ps[i] == es[i].plugin
  {
    if es == [] then [] else Keys(es[..|es| - 1]) + [es[|es| - 1].plugin]
  }

  predicate Addressable(r: Registration) {
    r.name.Some? && r.name.value != ""
  }

  /** The plugin a name stands for: the last one registered under it. */
  function Resolve(es: seq<Registration>, name: string): Option<Plugin> {
    if es == [] then None
    else
      var r := es[|es| - 1];
      if Addressable(r) && r.name.value == name then Some(r.plugin) else Resolve(es[..|es| - 1], name)
  }

  function BeforeEdges(es: seq<Registration>, p: Plugin, names: seq<string>): seq<Edge> {
    if names == [] then []
    else BeforeEdges(es, p, names[..|names| - 1]) +
         match Resolve(es, names[|names| - 1])
         case Some(q) => if q != p then [(p, q)] else []
         case None => []
  }

  function AfterEdges(es: seq<Registration>, p: Plugin, names: seq<string>): seq<Edge> {
    if names == [] then []
    else AfterEdges(es, p, names[..|names| - 1]) +
         match Resolve(es, names[|names| - 1])
         case Some(q) => if q != p then [(q, p)] else []
         case None => []
  }

  /** The resolved constraints of one registration. */
  function StatedBy(es: seq<Registration>, r: Registration): seq<Edge> {
    BeforeEdges(es, r.plugin, r.before) + AfterEdges(es, r.plugin, r.after)
  }

  /** Every resolved constraint of `part`, in the order it is read, with repetitions. */
  function Stated(es: seq<Registration>, part: seq<Registration>): seq<Edge> {
    if part == [] then []
    else Stated(es, part[..|part| - 1]) + StatedBy(es, part[|part| - 1])
  }

  function Constraints(es: seq<Registration>): seq<Edge> {
    Stated(es, es)
  }

  /** What the sort really demands: no cycle, and no pair of plugins constrained twice. */
  ghost predicate Sortable(es: seq<Registration>) {
    Acyclic(Constraints(es)) && Distinct(Constraints(es))
  }

  ghost predicate IsTopologicalOrder(es: seq<Registration>, o: seq<Plugin>) {
    && Distinct(o)
    && SetOf(o) == SetOf(Keys(es))
    && |o| == |es|
    && forall e | e in Constraints(es) :: Before(o, e.0, e.1)
  }

  lemma {:induction false} ResolvesToKey(es: seq<Registration>, name: string)
    ensures Resolve(es, name).Some? ==> Resolve(es, name).value in Keys(es)
  {
    if es != [] {
      ResolvesToKey(es[..|es| - 1], name);
      assert Keys(es)[|es| - 1] == es[|es| - 1].plugin;
    }
  }

  // ---- What the constraints say, on the entries themselves ----

  /** The `j`-th entry is the last one registered under this name. */
  ghost predicate LastNamed(es: seq<Registration>, name: string, j: nat) {
    && name != "" && j < |es| && es[j].name == Some(name)
    && forall k | j < k < |es| :: es[k].name != Some(name)
  }

  ghost predicate Names(es: seq<Registration>, name: string, p: Plugin) {
    exists j: nat :: LastNamed(es, name, j) && es[j].plugin == p
  }

  /** One name in one list of one entry, in the order in which the sort reads them. */
  datatype Statement = Ahead(entry: nat, k: nat) | Behind(entry: nat, k: nat)

  /** `Ahead` puts the entry's plugin before the named one, `Behind` after it; naming itself says nothing. */
  ghost predicate Says(es: seq<Registration>, st: Statement, e: Edge) {
    && st.entry < |es| && e.0 != e.1
    && match st
       case Ahead(i, k) => k < |es[i].before| && e.0 == es[i].plugin && Names(es, es[i].before[k], e.1)
       case Behind(i, k) => k < |es[i].after| && e.1 == es[i].plugin && Names(es, es[i].after[k], e.0)
  }

  ghost predicate IsSaid(es: seq<Registration>, e: Edge) {
    exists st :: Says(es, st, e)
  }

  /** No pair of plugins is put in the same order twice. */
  ghost predicate SaidOnce(es: seq<Registration>) {
    forall st, st', e | Says(es, st, e) && Says(es, st', e) :: st == st'
  }

  ghost predicate SaidInCircles(es: seq<Registration>) {
    exists w: seq<Plugin> ::
      |w| >= 2 && w[0] == w[|w| - 1] && forall i | 0 <= i < |w| - 1 :: IsSaid(es, (w[i], w[i + 1]))
  }

  /** Whoever names another plugin in `before` stands before it, and in `after` behind it. */
  ghost predicate Obeys(es: seq<Registration>, o: seq<Plugin>) {
    forall i, name, j: nat, a, b | 0 <= i < |es| && LastNamed(es, name, j) && es[i].plugin != es[j].plugin
                                   && 0 <= a < |o| && 0 <= b < |o| && o[a] == es[i].plugin && o[b] == es[j].plugin ::
      (name in es[i].before ==> a < b) && (name in es[i].after ==> b < a)
  }

  lemma {:induction false} ResolvesToLastNamed(es: seq<Registration>, name: string, p: Plugin)
    ensures Resolve(es, name) == Some(p) <==> Names(es, name, p)
  {
    if es != [] {
      var n := |es| - 1;
      ResolvesToLastNamed(es[..n], name, p);
      if Addressable(es[n]) && es[n].name.value == name {
        assert LastNamed(es, name, n);
      } else if name != "" {
        assert forall j: nat | j < n :: LastNamed(es[..n], name, j) <==> LastNamed(es, name, j);
      }
    }
  }

  /** The statement comes before this point of the reading: entry by entry, `before` first. */
  predicate ReadBy(st: Statement, entry: nat, inAfter: bool, k: nat) {
    st.entry < entry || (st.entry == entry && (if st.Ahead? then inAfter || st.k < k else inAfter && st.k < k))
  }

  /** `sts` are the statements behind the edges `E`, one each: all that say something up to this point. */
  ghost predicate Accounts(es: seq<Registration>, sts: seq<Statement>, E: seq<Edge>,
                           entry: nat, inAfter: bool, k: nat) {
    && |sts| == |E| && Distinct(sts) && (forall m | 0 <= m < |E| :: Says(es, sts[m], E[m]))
    && (forall st | st in sts :: ReadBy(st, entry, inAfter, k))
    && (forall st, e | Says(es, st, e) && ReadBy(st, entry, inAfter, k) :: st in sts)
  }

  function Current(i: nat, inAfter: bool, k: nat): Statement {
    if inAfter then Behind(i, k) else Ahead(i, k)
  }

  lemma NowRead(i: nat, inAfter: bool, k: nat)
    ensures forall x: Statement ::
      ReadBy(x, i, inAfter, k + 1) <==> ReadBy(x, i, inAfter, k) || x == Current(i, inAfter, k)
    ensures !ReadBy(Current(i, inAfter, k), i, inAfter, k)
  {
  }

  lemma SpokenRead(es: seq<Registration>, sts: seq<Statement>, E: seq<Edge>, i: nat, inAfter: bool, k: nat, e: Edge)
    requires Accounts(es, sts, E, i, inAfter, k) && Says(es, Current(i, inAfter, k), e)
    ensures Accounts(es, sts + [Current(i, inAfter, k)], E + [e], i, inAfter, k + 1)
  {
    var st := Current(i, inAfter, k);
    var sts', E' := sts + [st], E + [e];
    NowRead(i, inAfter, k);
    assert st !in sts;
    assert forall m | 0 <= m < |E| :: sts'[m] == sts[m] && E'[m] == E[m] && Says(es, sts[m], E[m]);
    assert sts'[|E|] == st && E'[|E|] == e;
    assert forall x :: x in sts' <==> x in sts || x == st;
  }

  /** Reading one more name adds its edge, if it says something. */
  lemma OneRead(es: seq<Registration>, sts: seq<Statement>, E: seq<Edge>, i: nat, inAfter: bool, k: nat,
                e: Option<Edge>)
    returns (sts': seq<Statement>)
    requires Accounts(es, sts, E, i, inAfter, k)
    requires forall e' :: Says(es, Current(i, inAfter, k), e') <==> e == Some(e')
    ensures Accounts(es, sts', E + if e.Some? then [e.value] else [], i, inAfter, k + 1)
  {
    NowRead(i, inAfter, k);
    if e.Some? {
      SpokenRead(es, sts, E, i, inAfter, k, e.value);
      sts' := sts + [Current(i, inAfter, k)];
    } else {
      sts' := sts;
      assert E + [] == E;
    }
  }

  /** One list has been read, and the next one begins. */
  lemma TurnPage(es: seq<Registration>, sts: seq<Statement>, E: seq<Edge>, i: nat)
    requires i < |es|
    ensures Accounts(es, sts, E, i, false, |es[i].before|) ==> Accounts(es, sts, E, i, true, 0)
    ensures Accounts(es, sts, E, i, true, |es[i].after|) ==> Accounts(es, sts, E, i + 1, false, 0)
  {
  }

  lemma StatedExtends(es: seq<Registration>, i: nat)
    requires i < |es|
    ensures Stated(es, es[..i + 1]) == Stated(es, es[..i]) + BeforeEdges(es, es[i].plugin, es[i].before)
                                     + AfterEdges(es, es[i].plugin, es[i].after)
  {
    assert es[..i + 1][..i] == es[..i];
  }

  lemma OneSaid(es: seq<Registration>, i: nat, inAfter: bool, k: nat)
    requires i < |es| && k < |if inAfter then es[i].after else es[i].before|
    ensures var p, name := es[i].plugin, if inAfter then es[i].after[k] else es[i].before[k];
      var q := Resolve(es, name);
      var e := if q.Some? && q.value != p then Some(if inAfter then (q.value, p) else (p, q.value)) else None;
      forall e' :: Says(es, Current(i, inAfter, k), e') <==> e == Some(e')
  {
    var p, name := es[i].plugin, if inAfter then es[i].after[k] else es[i].before[k];
    forall q { ResolvesToLastNamed(es, name, q); }
  }

  lemma {:induction false} BeforeRead(es: seq<Registration>, i: nat, k: nat, sts: seq<Statement>, E: seq<Edge>)
    returns (sts': seq<Statement>)
    requires i < |es| && k <= |es[i].before| && Accounts(es, sts, E, i, false, 0)
    ensures Accounts(es, sts', E + BeforeEdges(es, es[i].plugin, es[i].before[..k]), i, false, k)
  {
    if k == 0 {
      sts' := sts;
      assert E + [] == E;
    } else {
      var names := es[i].before[..k];
      var q := Resolve(es, names[k - 1]);
      var e := if q.Some? && q.value != es[i].plugin then Some((es[i].plugin, q.value)) else None;
      sts' := BeforeRead(es, i, k - 1, sts, E);
      OneSaid(es, i, false, k - 1);
      assert names[..k - 1] == es[i].before[..k - 1];
      sts' := OneRead(es, sts', E + BeforeEdges(es, es[i].plugin, names[..k - 1]), i, false, k - 1, e);
      assert E + BeforeEdges(es, es[i].plugin, names)
          == E + BeforeEdges(es, es[i].plugin, names[..k - 1]) + if e.Some? then [e.value] else [];
    }
  }

  lemma {:induction false} AfterRead(es: seq<Registration>, i: nat, k: nat, sts: seq<Statement>, E: seq<Edge>)
    returns (sts': seq<Statement>)
    requires i < |es| && k <= |es[i].after| && Accounts(es, sts, E, i, true, 0)
    ensures Accounts(es, sts', E + AfterEdges(es, es[i].plugin, es[i].after[..k]), i, true, k)
  {
    if k == 0 {
      sts' := sts;
      assert E + [] == E;
    } else {
      var names := es[i].after[..k];
      var q := Resolve(es, names[k - 1]);
      var e := if q.Some? && q.value != es[i].plugin then Some((q.value, es[i].plugin)) else None;
      sts' := AfterRead(es, i, k - 1, sts, E);
      OneSaid(es, i, true, k - 1);
      assert names[..k - 1] == es[i].after[..k - 1];
      sts' := OneRead(es, sts', E + AfterEdges(es, es[i].plugin, names[..k - 1]), i, true, k - 1, e);
      assert E + AfterEdges(es, es[i].plugin, names)
          == E + AfterEdges(es, es[i].plugin, names[..k - 1]) + if e.Some? then [e.value] else [];
    }
  }

  lemma {:induction false} EntriesRead(es: seq<Registration>, n: nat) returns (sts: seq<Statement>)
    requires n <= |es|
    ensures Accounts(es, sts, Stated(es, es[..n]), n, false, 0)
  {
    if n == 0 {
      sts := [];
    } else {
      var r, i := es[n - 1], n - 1;
      assert r.before[..|r.before|] == r.before && r.after[..|r.after|] == r.after;
      sts := EntriesRead(es, i);
      sts := BeforeRead(es, i, |r.before|, sts, Stated(es, es[..i]));
      var E := Stated(es, es[..i]) + BeforeEdges(es, r.plugin, r.before);
      TurnPage(es, sts, E, i);
      sts := AfterRead(es, i, |r.after|, sts, E);
      TurnPage(es, sts, E + AfterEdges(es, r.plugin, r.after), i);
      StatedExtends(es, i);
    }
  }

  /** The constraints sorted by are exactly what the entries say, and repeated exactly when it is said twice. */
  lemma ConstraintsAreSaid(es: seq<Registration>)
    ensures forall e :: e in Constraints(es) <==> IsSaid(es, e)
    ensures Distinct(Constraints(es)) <==> SaidOnce(es)
  {
    assert es[..|es|] == es;
    var sts := EntriesRead(es, |es|);
    var E := Constraints(es);
    forall e
      ensures e in E <==> IsSaid(es, e)
    {
      if e in E {
        var m :| 0 <= m < |E| && E[m] == e;
        assert Says(es, sts[m], e);
      }
      if st :| Says(es, st, e) { var _ := PlaceOf(es, sts, E, st, e); }
    }
    SaidTwice(es, sts, E);
  }

  lemma PlaceOf(es: seq<Registration>, sts: seq<Statement>, E: seq<Edge>, st: Statement, e: Edge) returns (m: nat)
    requires Accounts(es, sts, E, |es|, false, 0) && Says(es, st, e)
    ensures m < |E| && sts[m] == st && E[m] == e
  {
    assert st in sts;
    m :| m < |sts| && sts[m] == st;
    SaysOne(es, st, e, E[m]);
  }

  lemma SaidTwice(es: seq<Registration>, sts: seq<Statement>, E: seq<Edge>)
    requires Accounts(es, sts, E, |es|, false, 0)
    ensures Distinct(E) <==> SaidOnce(es)
  {
    if SaidOnce(es) {
      forall i, j | 0 <= i < j < |E|
        ensures E[i] != E[j]
      {
        assert Says(es, sts[i], E[i]) && Says(es, sts[j], E[j]) && sts[i] != sts[j];
      }
    }
    if Distinct(E) {
      forall st, st', e | Says(es, st, e) && Says(es, st', e)
        ensures st == st'
      {
        var m := PlaceOf(es, sts, E, st, e);
        var n := PlaceOf(es, sts, E, st', e);
        assert E[m] == E[n];
      }
    }
  }

  lemma SaysOne(es: seq<Registration>, st: Statement, e: Edge, e': Edge)
    requires Says(es, st, e) && Says(es, st, e')
    ensures e == e'
  {
    var name := if st.Ahead? then es[st.entry].before[st.k] else es[st.entry].after[st.k];
    ResolvesToLastNamed(es, name, if st.Ahead? then e.1 else e.0);
    ResolvesToLastNamed(es, name, if st.Ahead? then e'.1 else e'.0);
  }

  /** The sort returns exactly if the entries say nothing in circles and nothing twice. */
  lemma SortableIffSaid(es: seq<Registration>)
    ensures Sortable(es) <==> !SaidInCircles(es) && SaidOnce(es)
  {
    ConstraintsAreSaid(es);
    if !Acyclic(Constraints(es)) {
      var w :| IsCycle(Constraints(es), w);
      assert forall i | 0 <= i < |w| - 1 :: (w[i], w[i + 1]) in Constraints(es);
    }
    if w: seq<Plugin> :| |w| >= 2 && w[0] == w[|w| - 1] && forall i | 0 <= i < |w| - 1 :: IsSaid(es, (w[i], w[i + 1])) {
      assert IsCycle(Constraints(es), w);
    }
  }

  ghost predicate SaidHolds(es: seq<Registration>, o: seq<Plugin>) {
    forall e | IsSaid(es, e) :: Before(o, e.0, e.1)
  }

  /** A topological order of the constraints puts every plugin where the entries ask for it. */
  lemma OrderObeys(es: seq<Registration>, o: seq<Plugin>)
    requires IsTopologicalOrder(es, o)
    ensures Obeys(es, o)
  {
    ConstraintsAreSaid(es);
    assert SaidHolds(es, o);
    SaidIsObeyed(es, o);
  }

  lemma SaidIsObeyed(es: seq<Registration>, o: seq<Plugin>)
    requires Distinct(o) && SaidHolds(es, o)
    ensures Obeys(es, o)
  {
    forall i, name, j: nat, a, b | 0 <= i < |es| && LastNamed(es, name, j) && es[i].plugin != es[j].plugin
                                   && 0 <= a < |o| && 0 <= b < |o| && o[a] == es[i].plugin && o[b] == es[j].plugin {
      OneObeyed(es, o, i, name, j, a, b);
    }
  }

  lemma OneObeyed(es: seq<Registration>, o: seq<Plugin>, i: nat, name: string, j: nat, a: nat, b: nat)
    requires Distinct(o) && SaidHolds(es, o)
    requires i < |es| && LastNamed(es, name, j) && es[i].plugin != es[j].plugin
    requires a < |o| && b < |o| && o[a] == es[i].plugin && o[b] == es[j].plugin
    ensures (name in es[i].before ==> a < b) && (name in es[i].after ==> b < a)
  {
    NamedIsSaid(es, i, name, j);
    if name in es[i].before { StandsBefore(o, a, b); }
    if name in es[i].after { StandsBefore(o, b, a); }
  }

  lemma NamedIsSaid(es: seq<Registration>, i: nat, name: string, j: nat)
    requires i < |es| && LastNamed(es, name, j) && es[i].plugin != es[j].plugin
    ensures name in es[i].before ==> IsSaid(es, (es[i].plugin, es[j].plugin))
    ensures name in es[i].after ==> IsSaid(es, (es[j].plugin, es[i].plugin))
  {
    assert Names(es, name, es[j].plugin);
    if k :| 0 <= k < |es[i].before| && es[i].before[k] == name {
      assert Says(es, Ahead(i, k), (es[i].plugin, es[j].plugin));
    }
    if k :| 0 <= k < |es[i].after| && es[i].after[k] == name {
      assert Says(es, Behind(i, k), (es[j].plugin, es[i].plugin));
    }
  }

  lemma StandsBefore(o: seq<Plugin>, a: nat, b: nat)
    requires Distinct(o) && a < |o| && b < |o| && Before(o, o[a], o[b])
    ensures a < b
  {
  }

  /** Nothing is asked to stand before this plugin. */
  ghost predicate Free(es: seq<Registration>, p: Plugin) {
    forall q :: !IsSaid(es, (q, p))
  }

  /** The plugins that nothing precedes come first, in the order of registration. */
  ghost predicate FreeFirst(es: seq<Registration>, o: seq<Plugin>) {
    forall i, j | 0 <= i < |es| && 0 <= j < |es| && Free(es, es[i].plugin) && (i < j || !Free(es, es[j].plugin)) ::
      Before(o, es[i].plugin, es[j].plugin)
  }

  // ---- The sort ----

  /**
    Adjacency and in-degree tables describe the edges stated so far; `edges` drops repetitions, `inDegree` does not.
    */
  ghost predicate Tables(P: set<Plugin>, E: seq<Edge>, edges: map<Plugin, seq<Plugin>>, inDegree: map<Plugin, int>) {
    && edges.Keys == P == inDegree.Keys
    && (forall e | e in E :: e.0 in P && e.1 in P)
    && (forall p | p in P :: Distinct(edges[p]) && forall q :: q in edges[p] <==> (p, q) in E)
    && (forall q | q in P :: inDegree[q] == InDegree(E, q))
  }

  method AddEdge(ghost P: set<Plugin>, ghost E: seq<Edge>, edges: map<Plugin, seq<Plugin>>,
                 inDegree: map<Plugin, int>, p: Plugin, q: Plugin)
    returns (edges': map<Plugin, seq<Plugin>>, inDegree': map<Plugin, int>)
    requires Tables(P, E, edges, inDegree) && p in P && q in P
    ensures Tables(P, E + [(p, q)], edges', inDegree')
  {
    edges' := if q in edges[p] then edges else edges[p := edges[p] + [q]];
    inDegree' := inDegree[q := inDegree[q] + 1];
    ghost var E' := E + [(p, q)];
    assert E'[..|E|] == E;
    assert forall e :: e in E' <==> e in E || e == (p, q);
  }

  ghost predicate NameTable(es: seq<Registration>, names: map<string, Plugin>) {
    forall n :: Resolve(es, n) == if n in names then Some(names[n]) else None
  }

  method BuildNames(es: seq<Registration>) returns (names: map<string, Plugin>)
    ensures NameTable(es, names)
  {
    names := map[];
    for i := 0 to |es|
      invariant NameTable(es[..i], names)
    {
      assert es[..i + 1][..i] == es[..i];
      if Addressable(es[i]) {
        names := names[es[i].name.value := es[i].plugin];
      }
    }
    assert es[..|es|] == es;
  }

  lemma TablesReassociate(P: set<Plugin>, E: seq<Edge>, F: seq<Edge>, G: seq<Edge>,
                          edges: map<Plugin, seq<Plugin>>, inDegree: map<Plugin, int>)
    requires Tables(P, (E + F) + G, edges, inDegree)
    ensures Tables(P, E + (F + G), edges, inDegree)
  {
    assert (E + F) + G == E + (F + G);
  }

  lemma BeforeEdgesGrow(es: seq<Registration>, p: Plugin, before: seq<string>, k: nat, names: map<string, Plugin>)
    requires NameTable(es, names) && k < |before|
    ensures BeforeEdges(es, p, before[..k + 1]) == BeforeEdges(es, p, before[..k]) +
            if before[k] in names && names[before[k]] != p then [(p, names[before[k]])] else []
  {
    assert before[..k + 1][..k] == before[..k];
    assert Resolve(es, before[k]) == if before[k] in names then Some(names[before[k]]) else None;
  }

  method AddBefore(es: seq<Registration>, p: Plugin, before: seq<string>, names: map<string, Plugin>,
                   ghost P: set<Plugin>, ghost E: seq<Edge>, edges: map<Plugin, seq<Plugin>>,
                   inDegree: map<Plugin, int>)
    returns (edges': map<Plugin, seq<Plugin>>, inDegree': map<Plugin, int>)
    requires NameTable(es, names) && names.Values <= P && p in P && Tables(P, E, edges, inDegree)
    ensures Tables(P, E + BeforeEdges(es, p, before), edges', inDegree')
  {
    edges', inDegree' := edges, inDegree;
    assert E + BeforeEdges(es, p, before[..0]) == E;
    for k := 0 to |before|
      invariant Tables(P, E + BeforeEdges(es, p, before[..k]), edges', inDegree')
    {
      ghost var E0 := BeforeEdges(es, p, before[..k]);
      BeforeEdgesGrow(es, p, before, k, names);
      if before[k] in names && names[before[k]] != p {
        var q := names[before[k]];
        assert q in names.Values;
        edges', inDegree' := AddEdge(P, E + E0, edges', inDegree', p, q);
        TablesReassociate(P, E, E0, [(p, q)], edges', inDegree');
      } else {
        assert E0 + [] == E0;
      }
    }
    assert before[..|before|] == before;
  }

  lemma AfterEdgesGrow(es: seq<Registration>, p: Plugin, after: seq<string>, k: nat, names: map<string, Plugin>)
    requires NameTable(es, names) && k < |after|
    ensures AfterEdges(es, p, after[..k + 1]) == AfterEdges(es, p, after[..k]) +
            if after[k] in names && names[after[k]] != p then [(names[after[k]], p)] else []
  {
    assert after[..k + 1][..k] == after[..k];
    assert Resolve(es, after[k]) == if after[k] in names then Some(names[after[k]]) else None;
  }

  method AddAfter(es: seq<Registration>, p: Plugin, after: seq<string>, names: map<string, Plugin>,
                  ghost P: set<Plugin>, ghost E: seq<Edge>, edges: map<Plugin, seq<Plugin>>, inDegree: map<Plugin, int>)
    returns (edges': map<Plugin, seq<Plugin>>, inDegree': map<Plugin, int>)
    requires NameTable(es, names) && names.Values <= P && p in P && Tables(P, E, edges, inDegree)
    ensures Tables(P, E + AfterEdges(es, p, after), edges', inDegree')
  {
    edges', inDegree' := edges, inDegree;
    assert E + AfterEdges(es, p, after[..0]) == E;
    for k := 0 to |after|
      invariant Tables(P, E + AfterEdges(es, p, after[..k]), edges', inDegree')
    {
      ghost var E0 := AfterEdges(es, p, after[..k]);
      AfterEdgesGrow(es, p, after, k, names);
      if after[k] in names && names[after[k]] != p {
        var q := names[after[k]];
        assert q in names.Values;
        edges', inDegree' := AddEdge(P, E + E0, edges', inDegree', q, p);
        TablesReassociate(P, E, E0, [(q, p)], edges', inDegree');
      } else {
        assert E0 + [] == E0;
      }
    }
    assert after[..|after|] == after;
  }

  method AddRegistration(es: seq<Registration>, ghost part: seq<Registration>, r: Registration,
                         names: map<string, Plugin>, ghost P: set<Plugin>,
                         edges: map<Plugin, seq<Plugin>>, inDegree: map<Plugin, int>)
    returns (edges': map<Plugin, seq<Plugin>>, inDegree': map<Plugin, int>)
    requires NameTable(es, names) && names.Values <= P && r.plugin in P && Tables(P, Stated(es, part), edges, inDegree)
    ensures Tables(P, Stated(es, part + [r]), edges', inDegree')
  {
    ghost var E := Stated(es, part);
    ghost var E1 := E + BeforeEdges(es, r.plugin, r.before);
    edges', inDegree' := AddBefore(es, r.plugin, r.before, names, P, E, edges, inDegree);
    edges', inDegree' := AddAfter(es, r.plugin, r.after, names, P, E1, edges', inDegree');
    TablesReassociate(P, E, BeforeEdges(es, r.plugin, r.before), AfterEdges(es, r.plugin, r.after), edges', inDegree');
    assert (part + [r])[..|part|] == part;
  }

  lemma KeysGrow(es: seq<Registration>, i: nat)
    requires i < |es|
    ensures SetOf(Keys(es[..i + 1])) == SetOf(Keys(es[..i])) + {es[i].plugin}
  {
    assert es[..i + 1][..i] == es[..i];
    assert Keys(es[..i + 1]) == Keys(es[..i]) + [es[i].plugin];
  }

  method EmptyTables(es: seq<Registration>) returns (edges: map<Plugin, seq<Plugin>>, inDegree: map<Plugin, int>)
    ensures Tables(SetOf(Keys(es)), [], edges, inDegree)
  {
    edges, inDegree := map[], map[];
    for i := 0 to |es|
      invariant edges.Keys == inDegree.Keys == SetOf(Keys(es[..i]))
      invariant forall p | p in edges :: edges[p] == [] && inDegree[p] == 0
    {
      KeysGrow(es, i);
      edges, inDegree := edges[es[i].plugin := []], inDegree[es[i].plugin := 0];
    }
    assert es[..|es|] == es;
  }

  lemma NamesAreKeys(es: seq<Registration>, names: map<string, Plugin>)
    requires NameTable(es, names)
    ensures names.Values <= SetOf(Keys(es))
  {
    forall n | n in names
      ensures names[n] in Keys(es)
    {
      ResolvesToKey(es, n);
    }
  }

  predicate PluginsIn(es: seq<Registration>, P: set<Plugin>) {
    forall i | 0 <= i < |es| :: es[i].plugin in P
  }

  method FillTables(es: seq<Registration>, names: map<string, Plugin>, ghost P: set<Plugin>,
                    empty: map<Plugin, seq<Plugin>>, zero: map<Plugin, int>)
    returns (edges: map<Plugin, seq<Plugin>>, inDegree: map<Plugin, int>)
    requires NameTable(es, names) && names.Values <= P && PluginsIn(es, P) && Tables(P, [], empty, zero)
    ensures Tables(P, Constraints(es), edges, inDegree)
  {
    edges, inDegree := empty, zero;
    assert Stated(es, es[..0]) == [];
    for i := 0 to |es|
      invariant Tables(P, Stated(es, es[..i]), edges, inDegree)
    {
      assert es[i].plugin in P && es[..i + 1] == es[..i] + [es[i]];
      edges, inDegree := AddRegistration(es, es[..i], es[i], names, P, edges, inDegree);
    }
    assert es[..|es|] == es;
  }

  method BuildTables(es: seq<Registration>, ghost P: set<Plugin>)
    returns (edges: map<Plugin, seq<Plugin>>, inDegree: map<Plugin, int>)
    requires P == SetOf(Keys(es))
    ensures Tables(P, Constraints(es), edges, inDegree)
  {
    var names := BuildNames(es);
    NamesAreKeys(es, names);
    edges, inDegree := EmptyTables(es);
    assert PluginsIn(es, P) by { assert forall i | 0 <= i < |es| :: es[i].plugin == Keys(es)[i]; }
    edges, inDegree := FillTables(es, names, P, edges, inDegree);
  }

  /** How many plugins of `done` precede `q`. */
  function Met(E: seq<Edge>, done: seq<Plugin>, q: Plugin): nat {
    if done == [] then 0
    else Met(E, done[..|done| - 1], q) + if (done[|done| - 1], q) in E then 1 else 0
  }

  lemma {:induction false} MetCountsPreds(E: seq<Edge>, done: seq<Plugin>, q: Plugin)
    requires Distinct(done)
    ensures Met(E, done, q) == |Preds(E, q) * SetOf(done)|
  {
    if done == [] {
      assert Preds(E, q) * SetOf(done) == {};
    } else {
      var c, rest := done[|done| - 1], done[..|done| - 1];
      DistinctSplitLast(done);
      MetCountsPreds(E, rest, q);
      MeetGrows(Preds(E, q), SetOf(rest), c);
      assert c in Preds(E, q) <==> (c, q) in E;
    }
  }

  /** How many stated edges into `q` the plugins in `done` have not discharged. */
  function Residual(E: seq<Edge>, done: seq<Plugin>, q: Plugin): int {
    InDegree(E, q) - Met(E, done, q)
  }

  /**
    Between two rounds of the loop: `done` is the output, `todo` the queue, and `behind` the neighbours of the
    plugin just output that still have to be decremented (empty between rounds).
    */
  ghost predicate KahnState(P: set<Plugin>, E: seq<Edge>, inDegree: map<Plugin, int>, done: seq<Plugin>,
                            todo: seq<Plugin>, behind: seq<Plugin>) {
    && inDegree.Keys == P
    && (forall e | e in E :: e.0 in P && e.1 in P)
    && Distinct(done + todo)
    && (forall p | p in done + todo :: p in P)
    && (forall q | q in P :: inDegree[q] == Residual(E, done, q) + if q in behind then 1 else 0)
    && (forall q | q in P :: q in done + todo <==> inDegree[q] == 0)
    && (forall e | e in E && e.1 in done :: Before(done, e.0, e.1))
  }

  /** A plugin whose residual is zero has all its predecessors behind it and no constraint stated twice. */
  lemma DischargedPreds(E: seq<Edge>, done: seq<Plugin>, q: Plugin)
    requires Distinct(done)
    ensures Residual(E, done, q) >= 0
    ensures Residual(E, done, q) == 0 <==> NoRepeatInto(E, q) && forall u | (u, q) in E :: u in done
  {
    var met := Preds(E, q) * SetOf(done);
    MetCountsPreds(E, done, q);
    InDegreeCountsPreds(E, q);
    SubsetSize(met, Preds(E, q));
    if Residual(E, done, q) == 0 {
      forall u | (u, q) in E
        ensures u in done
      {
        assert met == Preds(E, q) && u in Preds(E, q);
      }
    }
    if forall u | (u, q) in E :: u in done {
      assert Preds(E, q) <= SetOf(done);
      assert met == Preds(E, q);
    }
  }

  /** One round: output the head of the queue, then release its neighbours one by one. */
  method Round(ghost P: set<Plugin>, ghost E: seq<Edge>, neighbours: seq<Plugin>, inDegree: map<Plugin, int>,
               done: seq<Plugin>, todo: seq<Plugin>)
    returns (inDegree': map<Plugin, int>, done': seq<Plugin>, todo': seq<Plugin>)
    requires todo != [] && KahnState(P, E, inDegree, done, todo, [])
    requires Distinct(neighbours) && forall q :: q in neighbours <==> (todo[0], q) in E
    ensures KahnState(P, E, inDegree', done', todo', [])
    ensures |done'| == |done| + 1 && done + todo <= done' + todo'
  {
    var c := todo[0];
    inDegree', done', todo' := inDegree, done + [c], todo[1..];
    OutputHead(P, E, inDegree, done, todo, neighbours);
    for k := 0 to |neighbours|
      invariant KahnState(P, E, inDegree', done', todo', neighbours[k..])
      invariant done' == done + [c] && todo[1..] <= todo'
    {
      var q := neighbours[k];
      assert (c, q) in E;
      var newDeg := inDegree'[q] - 1;
      assert neighbours[k..] == [q] + neighbours[k + 1..];
      Release(P, E, inDegree', done', todo', q, neighbours[k + 1..]);
      inDegree' := inDegree'[q := newDeg];
      if newDeg == 0 {
        todo' := todo' + [q];
      }
    }
    assert neighbours[|neighbours|..] == [];
    assert done + todo == done' + todo[1..];
  }

  lemma Release(P: set<Plugin>, E: seq<Edge>, inDegree: map<Plugin, int>, done: seq<Plugin>, todo: seq<Plugin>,
                q: Plugin, rest: seq<Plugin>)
    requires KahnState(P, E, inDegree, done, todo, [q] + rest) && q in P && q !in rest
    ensures var inDegree' := inDegree[q := inDegree[q] - 1];
      KahnState(P, E, inDegree', done, if inDegree'[q] == 0 then todo + [q] else todo, rest)
  {
    DistinctPrefix(done, todo);
    DischargedPreds(E, done, q);
    assert q in [q] + rest;
    assert q !in done + todo;
    assert forall p | p != q :: p in [q] + rest <==> p in rest;
    var todo' := todo + [q];
    assert done + todo' == (done + todo) + [q];
  }

  lemma OutputHead(P: set<Plugin>, E: seq<Edge>, inDegree: map<Plugin, int>, done: seq<Plugin>, todo: seq<Plugin>,
                   neighbours: seq<Plugin>)
    requires todo != [] && KahnState(P, E, inDegree, done, todo, [])
    requires Distinct(neighbours) && forall q :: q in neighbours <==> (todo[0], q) in E
    ensures KahnState(P, E, inDegree, done + [todo[0]], todo[1..], neighbours)
  {
    var c := todo[0];
    assert (done + [c]) + todo[1..] == done + todo;
    assert (done + todo)[|done|] == c;
    assert forall i | 0 <= i < |done| :: done[i] == (done + todo)[i] != c;
    forall q | q in P
      ensures inDegree[q] == Residual(E, done + [c], q) + if q in neighbours then 1 else 0
    {
      assert (done + [c])[..|done|] == done;
    }
    assert c in done + todo;
    DischargedPreds(E, done, c);
    forall e | e in E && e.1 in done + [c]
      ensures Before(done + [c], e.0, e.1)
    {
      if e.1 == c {
        var i :| 0 <= i < |done| && done[i] == e.0;
        assert (done + [c])[i] == e.0 && (done + [c])[|done|] == c;
      } else {
        var i, j :| 0 <= i < j < |done| && done[i] == e.0 && done[j] == e.1;
        assert (done + [c])[i] == e.0 && (done + [c])[j] == e.1;
      }
    }
  }

  /** With the queue empty, a plugin was output exactly when nothing it waits for is left. */
  lemma OutputWhenDischarged(P: set<Plugin>, E: seq<Edge>, inDegree: map<Plugin, int>, done: seq<Plugin>, q: Plugin)
    requires KahnState(P, E, inDegree, done, [], []) && q in P
    ensures q in done <==> NoRepeatInto(E, q) && forall u | (u, q) in E :: u in done
  {
    assert done + [] == done;
    DischargedPreds(E, done, q);
  }

  lemma AllOutputIsSortable(P: set<Plugin>, E: seq<Edge>, inDegree: map<Plugin, int>, done: seq<Plugin>)
    requires KahnState(P, E, inDegree, done, [], []) && SetOf(done) == P
    ensures Acyclic(E) && Distinct(E)
  {
    forall i, j | 0 <= i < j < |E|
      ensures E[i] != E[j]
    {
      assert E[i] in E && E[i].1 in SetOf(done);
      OutputWhenDischarged(P, E, inDegree, done, E[i].1);
    }
    assert done + [] == done;
    forall e | e in E
      ensures Before(done, e.0, e.1)
    {
      assert e.1 in SetOf(done);
    }
    OrderedIsAcyclic(E, done);
  }

  lemma LeftoverIsCyclic(P: set<Plugin>, E: seq<Edge>, inDegree: map<Plugin, int>, done: seq<Plugin>)
    requires KahnState(P, E, inDegree, done, [], []) && SetOf(done) != P && SetOf(done) <= P && Distinct(E)
    ensures !Acyclic(E)
  {
    var L := P - SetOf(done);
    forall v | v in L
      ensures WaitsIn(E, L, v)
    {
      OutputWhenDischarged(P, E, inDegree, done, v);
      var u :| (u, v) in E && u !in done;
      assert (u, v).0 in P;
    }
    var p :| p in P && p !in SetOf(done);
    assert p in L;
    StuckHasCycle(E, L);
  }

  /** With the queue empty, everything has been output exactly when the constraints were sortable. */
  lemma KahnEnds(P: set<Plugin>, E: seq<Edge>, inDegree: map<Plugin, int>, done: seq<Plugin>)
    requires KahnState(P, E, inDegree, done, [], [])
    ensures |done| == |P| <==> Acyclic(E) && Distinct(E)
    ensures |done| == |P| ==> SetOf(done) == P
  {
    assert done + [] == done;
    DistinctCardinality(done);
    SubsetSize(SetOf(done), P);
    if SetOf(done) == P {
      AllOutputIsSortable(P, E, inDegree, done);
    } else if Distinct(E) {
      LeftoverIsCyclic(P, E, inDegree, done);
    }
  }

  /** Those of the first `n` plugins that are in `o` stand there in the same order. */
  ghost predicate InSameOrder(ps: seq<Plugin>, n: nat, o: seq<Plugin>) {
    forall i, j | 0 <= i < j < n <= |ps| && ps[i] in o && ps[j] in o :: Before(o, ps[i], ps[j])
  }

  lemma BeforeExtends(o: seq<Plugin>, o': seq<Plugin>, p: Plugin, q: Plugin)
    requires o <= o' && Before(o, p, q)
    ensures Before(o', p, q)
  {
    var i, j :| 0 <= i < j < |o| && o[i] == p && o[j] == q;
    assert o'[i] == p && o'[j] == q;
  }

  lemma BeforeLast(o: seq<Plugin>, p: Plugin, q: Plugin)
    requires p in o
    ensures Before(o + [q], p, q)
  {
    var a :| 0 <= a < |o| && o[a] == p;
    assert (o + [q])[a] == p && (o + [q])[|o|] == q;
  }

  lemma LastInOrder(ps: seq<Plugin>, n: nat, o: seq<Plugin>)
    requires n < |ps| && Distinct(ps) && InSameOrder(ps, n, o) && ps[n] !in o
    ensures InSameOrder(ps, n + 1, o) && InSameOrder(ps, n + 1, o + [ps[n]])
  {
    var o' := o + [ps[n]];
    forall i, j | 0 <= i < j < n + 1 && ps[i] in o' && ps[j] in o'
      ensures Before(o', ps[i], ps[j])
    {
      assert ps[i] in o && (j < n ==> ps[j] in o);
      if j < n { BeforeExtends(o, o', ps[i], ps[j]); } else { BeforeLast(o, ps[i], ps[n]); }
    }
  }

  /** `queue` holds those of the first `n` plugins that wait for nothing, in order. */
  ghost predicate ReadyAmong(ps: seq<Plugin>, n: nat, inDegree: map<Plugin, int>, queue: seq<Plugin>) {
    && n <= |ps| && Distinct(queue) && InSameOrder(ps, n, queue)
    && forall q :: q in queue <==> q in ps[..n] && q in inDegree && inDegree[q] == 0
  }

  lemma ReadyGrows(ps: seq<Plugin>, i: nat, inDegree: map<Plugin, int>, queue: seq<Plugin>)
    requires i < |ps| && Distinct(ps) && ps[i] in inDegree && ReadyAmong(ps, i, inDegree, queue)
    ensures ReadyAmong(ps, i + 1, inDegree, if inDegree[ps[i]] == 0 then queue + [ps[i]] else queue)
  {
    assert ps[..i + 1] == ps[..i] + [ps[i]];
    assert ps[i] !in ps[..i];
    LastInOrder(ps, i, queue);
  }

  /** The queue starts with the plugins nothing is stated to precede, in registration order. */
  method FirstReady(es: seq<Registration>, ghost P: set<Plugin>, ghost E: seq<Edge>, inDegree: map<Plugin, int>)
    returns (queue: seq<Plugin>)
    requires Distinct(Keys(es)) && P == SetOf(Keys(es)) == inDegree.Keys
    requires (forall q | q in P :: inDegree[q] == InDegree(E, q)) && forall e | e in E :: e.0 in P && e.1 in P
    ensures KahnState(P, E, inDegree, [], queue, []) && InSameOrder(Keys(es), |es|, queue)
  {
    ghost var ps := Keys(es);
    queue := [];
    for i := 0 to |es|
      invariant ReadyAmong(ps, i, inDegree, queue)
    {
      assert ps[i] == es[i].plugin && ps[i] in P;
      ReadyGrows(ps, i, inDegree, queue);
      if inDegree[es[i].plugin] == 0 {
        queue := queue + [es[i].plugin];
      }
    }
    assert ps[..|es|] == ps;
    FirstQueue(P, E, inDegree, queue);
  }

  lemma FirstQueue(P: set<Plugin>, E: seq<Edge>, inDegree: map<Plugin, int>, queue: seq<Plugin>)
    requires Distinct(queue) && inDegree.Keys == P && forall q :: q in queue <==> q in P && inDegree[q] == 0
    requires (forall q | q in P :: inDegree[q] == InDegree(E, q)) && forall e | e in E :: e.0 in P && e.1 in P
    ensures KahnState(P, E, inDegree, [], queue, [])
  {
    assert [] + queue == queue;
  }

  method TopologicalSort(es: seq<Registration>) returns (r: Result<seq<Plugin>, RegistryError>)
    requires Distinct(Keys(es))
    ensures r.Success? <==> Sortable(es)
    ensures r.Success? <==> !SaidInCircles(es) && SaidOnce(es)
    ensures r.Success? ==> IsTopologicalOrder(es, r.value) && Obeys(es, r.value) && FreeFirst(es, r.value)
  {
    ghost var P, E := SetOf(Keys(es)), Constraints(es);
    DistinctCardinality(Keys(es));
    var edges, inDegree := BuildTables(es, P);
    var queue := FirstReady(es, P, E, inDegree);
    var sorted: seq<Plugin> := [];
    ghost var first := queue;
    assert sorted + queue == first;
    QueueIsFree(es, P, inDegree, first);
    while queue != []
      invariant KahnState(P, E, inDegree, sorted, queue, []) && first <= sorted + queue
      decreases |P| - |sorted|
    {
      SortedFits(P, sorted, queue);
      inDegree, sorted, queue := Round(P, E, edges[queue[0]], inDegree, sorted, queue);
    }
    assert sorted + [] == sorted;
    KahnEnds(P, E, inDegree, sorted);
    SortableIffSaid(es);
    if |sorted| != |es| {
      return Failure(CircularDependency);
    }
    assert forall e | e in E :: e.1 in SetOf(sorted);
    OrderObeys(es, sorted);
    FirstIsFree(es, Keys(es), first, sorted);
    return Success(sorted);
  }

  /** The first queue holds the plugins that nothing is asked to precede. */
  lemma QueueIsFree(es: seq<Registration>, P: set<Plugin>, inDegree: map<Plugin, int>, queue: seq<Plugin>)
    requires KahnState(P, Constraints(es), inDegree, [], queue, [])
    ensures forall p | p in P :: p in queue <==> Free(es, p)
  {
    assert [] + queue == queue;
    forall p | p in P
      ensures p in queue <==> Free(es, p)
    {
      ReadyIsFree(es, p);
    }
  }

  lemma ReadyIsFree(es: seq<Registration>, q: Plugin)
    ensures Residual(Constraints(es), [], q) == 0 <==> Free(es, q)
  {
    var E := Constraints(es);
    ConstraintsAreSaid(es);
    DischargedPreds(E, [], q);
    NoPredsNoRepeat(E, q);
    assert forall u: Plugin :: IsSaid(es, (u, q)) <==> (u, q) in E;
  }

  lemma NoPredsNoRepeat(E: seq<Edge>, q: Plugin)
    ensures (forall u :: (u, q) !in E) ==> NoRepeatInto(E, q)
  {
    assert forall i | 0 <= i < |E| :: (E[i].0, E[i].1) in E;
  }

  lemma FirstIsFree(es: seq<Registration>, ps: seq<Plugin>, first: seq<Plugin>, o: seq<Plugin>)
    requires |ps| == |es| && forall i | 0 <= i < |es| :: ps[i] == es[i].plugin
    requires first <= o && SetOf(o) == SetOf(ps) && InSameOrder(ps, |ps|, first)
    requires forall p | p in ps :: p in first <==> Free(es, p)
    ensures FreeFirst(es, o)
  {
    forall i, j | 0 <= i < |es| && 0 <= j < |es| && Free(es, es[i].plugin) && (i < j || !Free(es, es[j].plugin))
      ensures Before(o, es[i].plugin, es[j].plugin)
    {
      assert ps[i] in ps && ps[j] in ps;
      if Free(es, ps[j]) {
        BeforeExtends(first, o, ps[i], ps[j]);
      } else {
        assert ps[j] in SetOf(o);
        FirstBeforeRest(first, o, ps[i], ps[j]);
      }
    }
  }

  lemma FirstBeforeRest(first: seq<Plugin>, o: seq<Plugin>, p: Plugin, q: Plugin)
    requires first <= o && p in first && q in o && q !in first
    ensures Before(o, p, q)
  {
    var a :| 0 <= a < |first| && first[a] == p;
    var b :| 0 <= b < |o| && o[b] == q;
    assert o[a] == p && b >= |first|;
  }

  ghost predicate AllFree(es: seq<Registration>) {
    forall i | 0 <= i < |es| :: Free(es, es[i].plugin)
  }

  /** Without constraints, list() is the order of registration. */
  lemma UnconstrainedKeepsOrder(es: seq<Registration>, o: seq<Plugin>)
    requires Distinct(Keys(es)) && IsTopologicalOrder(es, o) && FreeFirst(es, o) && AllFree(es)
    ensures o == Keys(es)
  {
    AllInOrder(es, Keys(es), o);
  }

  lemma AllInOrder(es: seq<Registration>, ps: seq<Plugin>, o: seq<Plugin>)
    requires |ps| == |es| && forall i | 0 <= i < |es| :: ps[i] == es[i].plugin
    requires Distinct(ps) && Distinct(o) && SetOf(ps) == SetOf(o) && |ps| == |o| && FreeFirst(es, o) && AllFree(es)
    ensures o == ps
  {
    forall i, j | 0 <= i < j < |ps|
      ensures Before(o, ps[i], ps[j])
    {
      assert Free(es, es[i].plugin) && Before(o, es[i].plugin, es[j].plugin);
    }
    SameOrder(ps, o);
  }

  ghost predicate Follows(a: seq<Plugin>, b: seq<Plugin>) {
    forall i, j | 0 <= i < j < |a| :: Before(b, a[i], a[j])
  }

  lemma SameLast(a: seq<Plugin>, b: seq<Plugin>)
    requires a != [] && |a| == |b| && Distinct(b) && SetOf(a) == SetOf(b) && Follows(a, b)
    ensures a[|a| - 1] == b[|b| - 1]
  {
    var n := |a| - 1;
    assert b[n] in SetOf(a);
    var i :| 0 <= i <= n && a[i] == b[n];
    assert i < n ==> Before(b, a[i], a[n]);
  }

  lemma TrimmedFollows(a: seq<Plugin>, b: seq<Plugin>)
    requires a != [] && |a| == |b| && Distinct(a) && Follows(a, b) && a[|a| - 1] == b[|b| - 1]
    ensures Follows(a[..|a| - 1], b[..|b| - 1])
  {
    var n := |a| - 1;
    forall i, j | 0 <= i < j < n
      ensures Before(b[..n], a[i], a[j])
    {
      assert Before(b, a[i], a[j]);
      var x, y :| 0 <= x < y < |b| && b[x] == a[i] && b[y] == a[j];
      assert y < n && b[..n][x] == a[i] && b[..n][y] == a[j];
    }
  }

  lemma {:induction false} SameOrder(a: seq<Plugin>, b: seq<Plugin>)
    requires Distinct(a) && Distinct(b) && SetOf(a) == SetOf(b) && |a| == |b| && Follows(a, b)
    ensures a == b
  {
    if a != [] {
      var n := |a| - 1;
      SameLast(a, b);
      TrimmedFollows(a, b);
      DistinctSplitLast(a);
      DistinctSplitLast(b);
      assert SetOf(a[..n]) == SetOf(a) - {a[n]} && SetOf(b[..n]) == SetOf(b) - {b[n]};
      SameOrder(a[..n], b[..n]);
      assert a == a[..n] + [a[n]] && b == b[..n] + [b[n]];
    }
  }

  lemma SortedFits(P: set<Plugin>, done: seq<Plugin>, todo: seq<Plugin>)
    requires todo != [] && Distinct(done + todo) && forall p | p in done + todo :: p in P
    ensures |done| < |P| && todo[0] in P
  {
    DistinctCardinality(done + todo);
    SubsetSize(SetOf(done + todo), P);
    assert todo[0] in done + todo;
  }

  // ---- Registration and rollback ----

  function Position(es: seq<Registration>, p: Plugin): (i: nat)
    ensures i <= |es| && (i < |es| ==> es[i].plugin == p)
    ensures i == |es| ==> forall k | 0 <= k < |es| :: es[k].plugin != p
  {
    if es == [] || es[0].plugin == p then 0 else 1 + Position(es[1..], p)
  }

  /** Map.set: replaces in place, or appends. */
  function Put(es: seq<Registration>, r: Registration): seq<Registration> {
    var i := Position(es, r.plugin);
    if i < |es| then es[i := r] else es + [r]
  }

  /** Map.set on the entries themselves: the plugin's entry becomes `r` in its place, or at the end if it had none. */
  ghost predicate IsMapSet(es: seq<Registration>, r: Registration, full: seq<Registration>) {
    && full != []
    && (forall i | 0 <= i < |es| :: i < |full| && full[i] == if es[i].plugin == r.plugin then r else es[i])
    && if exists i :: 0 <= i < |es| && es[i].plugin == r.plugin then |full| == |es| else full == es + [r]
  }

  lemma PutIsMapSet(es: seq<Registration>, r: Registration)
    requires Distinct(Keys(es))
    ensures IsMapSet(es, r, Put(es, r))
  {
    assert forall i | 0 <= i < |es| :: Keys(es)[i] == es[i].plugin;
  }

  lemma PutKeys(es: seq<Registration>, r: Registration)
    requires Distinct(Keys(es))
    ensures Distinct(Keys(Put(es, r))) && Put(es, r) != []
    ensures r.plugin in Keys(es) ==> |Put(es, r)| == |es|
    ensures r.plugin !in Keys(es) ==> Put(es, r) == es + [r]
  {
    var es', i := Put(es, r), Position(es, r.plugin);
    if i < |es| {
      assert Keys(es)[i] == r.plugin;
      assert Keys(es') == Keys(es);
    } else {
      assert Keys(es') == Keys(es) + [r.plugin];
    }
  }

  /** What a call to register leaves behind: on failure the last Map key goes, whichever plugin that is. */
  ghost function AfterRegister(es: seq<Registration>, r: Registration): seq<Registration> {
    var es' := Put(es, r);
    if Sortable(es') || es' == [] then es' else es'[..|es'| - 1]
  }

  /** Map.delete of every plugin in `gone`. */
  function Without(es: seq<Registration>, gone: set<Plugin>): seq<Registration> {
    if es == [] then []
    else
      var rest, last := Without(es[..|es| - 1], gone), es[|es| - 1];
      if last.plugin in gone then rest else rest + [last]
  }

  function NamedExactly(es: seq<Registration>, name: string): set<Plugin> {
    set r | r in es && r.name == Some(name) :: r.plugin
  }

  lemma NamedGrows(es: seq<Registration>, j: nat, name: string)
    requires j < |es|
    ensures NamedExactly(es[..j + 1], name) != {} <==> NamedExactly(es[..j], name) != {} || es[j].name == Some(name)
  {
    var now, was := NamedExactly(es[..j + 1], name), NamedExactly(es[..j], name);
    assert es[..j + 1] == es[..j] + [es[j]];
    assert forall x :: x in es[..j + 1] <==> x in es[..j] || x == es[j];
    assert now == was + if es[j].name == Some(name) then {es[j].plugin} else {};
  }

  lemma WithoutGrows(es: seq<Registration>, r: Registration, gone: set<Plugin>)
    ensures Without(es + [r], gone) == if r.plugin in gone then Without(es, gone) else Without(es, gone) + [r]
  {
    assert (es + [r])[..|es|] == es;
  }

  /** One step of deleting from `cur`, which holds the survivors of `es[..j]` followed by the untouched rest. */
  lemma RemovalStep(cur: seq<Registration>, es: seq<Registration>, i: nat, j: nat, gone: set<Plugin>)
    requires i < |cur| && j < |es| && cur[..i] == Without(es[..j], gone) && cur[i..] == es[j..]
    ensures cur[i] == es[j]
    ensures var (cur', i') := if es[j].plugin in gone then (RemoveAt(cur, i), i) else (cur, i + 1);
      cur'[..i'] == Without(es[..j + 1], gone) && cur'[i'..] == es[j + 1..]
  {
    assert cur[i..][0] == es[j..][0];
    assert es[..j + 1] == es[..j] + [es[j]];
    WithoutGrows(es[..j], es[j], gone);
    assert cur[i + 1..] == es[j + 1..] by { assert cur[i..][1..] == es[j..][1..]; }
    assert RemoveAt(cur, i)[..i] == cur[..i] && RemoveAt(cur, i)[i..] == cur[i + 1..];
    assert cur[..i + 1] == cur[..i] + [cur[i]];
  }

  lemma {:induction false} WithoutKeys(es: seq<Registration>, gone: set<Plugin>)
    ensures Subseq(Keys(Without(es, gone)), Keys(es))
    ensures forall p :: p in Keys(Without(es, gone)) <==> p in Keys(es) && p !in gone
  {
    if es != [] {
      var n := |es| - 1;
      WithoutKeys(es[..n], gone);
      assert Keys(es) == Keys(es[..n]) + [es[n].plugin];
      if es[n].plugin in gone {
        SubseqSkip(Keys(Without(es[..n], gone)), Keys(es[..n]), es[n].plugin);
      } else {
        SubseqSnoc(Keys(Without(es[..n], gone)), Keys(es[..n]), es[n].plugin);
        var kept := Without(es, gone);
        assert kept[..|kept| - 1] == Without(es[..n], gone);
      }
    }
  }

  lemma WithoutDistinct(es: seq<Registration>, gone: set<Plugin>)
    requires Distinct(Keys(es))
    ensures Distinct(Keys(Without(es, gone)))
  {
    WithoutKeys(es, gone);
    SubseqKeeps(Keys(Without(es, gone)), Keys(es));
  }

  /** The other entries stay, in order. */
  lemma {:induction false} WithoutEntries(es: seq<Registration>, gone: set<Plugin>)
    ensures Subseq(Without(es, gone), es)
    ensures forall r :: r in Without(es, gone) <==> r in es && r.plugin !in gone
  {
    if es != [] {
      var n := |es| - 1;
      WithoutEntries(es[..n], gone);
      assert es == es[..n] + [es[n]];
      if es[n].plugin in gone {
        SubseqSkip(Without(es[..n], gone), es[..n], es[n]);
      } else {
        SubseqSnoc(Without(es[..n], gone), es[..n], es[n]);
      }
    }
  }

  lemma NamedEntries(es: seq<Registration>, name: string)
    requires Distinct(Keys(es))
    ensures forall r | r in es :: r.plugin in NamedExactly(es, name) <==> r.name == Some(name)
  {
    forall r | r in es
      ensures r.plugin in NamedExactly(es, name) <==> r.name == Some(name)
    {
      var j :| 0 <= j < |es| && es[j] == r;
      SamePluginSameEntry(es, j, name);
    }
  }

  class PluginRegistry {
    var entries: seq<Registration>

    ghost predicate Valid()
      reads this
    {
      Distinct(Keys(entries))
    }

    constructor ()
      ensures Valid() && entries == []
    {
      entries := [];
    }

    method Register(r: Registration) returns (result: Result<(), RegistryError>)
      requires Valid()
      modifies this
      ensures Valid()
      ensures result.Success? <==> Sortable(Put(old(entries), r))
      ensures entries == AfterRegister(old(entries), r)
      ensures exists full ::
        IsMapSet(old(entries), r, full) && entries == if result.Success? then full else full[..|full| - 1]
    {
      PutKeys(entries, r);
      PutIsMapSet(entries, r);
      entries := Put(entries, r);
      var sorted := TopologicalSort(entries);
      if sorted.Failure? {
        DistinctSplitLast(Keys(entries));
        assert Keys(entries)[..|entries| - 1] == Keys(entries[..|entries| - 1]);
        entries := entries[..|entries| - 1];
        return Failure(sorted.error);
      }
      return Success(());
    }

    method List() returns (result: Result<seq<Plugin>, RegistryError>)
      requires Valid()
      ensures result.Success? <==> Sortable(entries)
      ensures result.Success? <==> !SaidInCircles(entries) && SaidOnce(entries)
      ensures result.Success? ==>
        && IsTopologicalOrder(entries, result.value) && Obeys(entries, result.value) && FreeFirst(entries, result.value)
    {
      result := TopologicalSort(entries);
    }

    method Unregister(p: Plugin) returns (removed: bool)
      requires Valid()
      modifies this
      ensures Valid() && entries == Without(old(entries), {p})
      ensures Subseq(entries, old(entries)) && forall r :: r in entries <==> r in old(entries) && r.plugin != p
      ensures removed <==> p in Keys(old(entries))
    {
      WithoutEntries(entries, {p});
      WithoutDistinct(entries, {p});
      removed := p in Keys(entries);
      entries := Without(entries, {p});
    }

    method UnregisterByName(name: string) returns (removed: bool)
      requires Valid()
      modifies this
      ensures Valid() && entries == Without(old(entries), NamedExactly(old(entries), name))
      ensures Subseq(entries, old(entries)) && forall r :: r in entries <==> r in old(entries) && r.name != Some(name)
      ensures removed <==> NamedExactly(old(entries), name) != {}
    {
      ghost var es := entries;
      ghost var gone := NamedExactly(es, name);
      var i := 0;
      ghost var j := 0;
      removed := false;
      while i < |entries|
        invariant 0 <= i <= |entries| && 0 <= j <= |es| && |entries| - i == |es| - j
        invariant entries[..i] == Without(es[..j], gone) && entries[i..] == es[j..]
        invariant removed <==> NamedExactly(es[..j], name) != {}
        decreases |entries| - i
      {
        RemovalStep(entries, es, i, j, gone);
        SamePluginSameEntry(es, j, name);
        NamedGrows(es, j, name);
        if entries[i].name == Some(name) {
          entries := entries[..i] + entries[i + 1..];
          removed := true;
        } else {
          i := i + 1;
        }
        j := j + 1;
      }
      assert es[..j] == es && entries[..i] == entries;
      WithoutDistinct(es, gone);
      WithoutEntries(es, gone);
      NamedEntries(es, name);
    }
  }

  lemma OneEntryPerPlugin(es: seq<Registration>, i: nat, j: nat)
    requires i < |es| && j < |es| && Distinct(Keys(es)) && es[i].plugin == es[j].plugin
    ensures i == j
  {
    assert Keys(es)[i] == Keys(es)[j];
  }

  lemma SamePluginSameEntry(es: seq<Registration>, j: nat, name: string)
    requires j < |es| && Distinct(Keys(es))
    ensures es[j].plugin in NamedExactly(es, name) <==> es[j].name == Some(name)
  {
    var p := es[j].plugin;
    if es[j].name == Some(name) {
      assert es[j] in es;
    }
    if p in NamedExactly(es, name) {
      var r :| r in es && r.name == Some(name) && r.plugin == p;
      var i :| 0 <= i < |es| && es[i] == r;
      OneEntryPerPlugin(es, i, j);
    }
  }

  // ---- Whole runs ----

  /** A rejected registration leaves the registry exactly as it was if and only if the plugin was new to it. */
  lemma RejectedRegisterRestores(es: seq<Registration>, r: Registration)
    requires Distinct(Keys(es)) && !Sortable(Put(es, r))
    ensures AfterRegister(es, r) == es <==> r.plugin !in Keys(es)
  {
    PutKeys(es, r);
    if r.plugin !in Keys(es) {
      assert (es + [r])[..|es|] == es;
    }
  }

  ghost predicate DistinctNames(es: seq<Registration>) {
    forall i, j :: 0 <= i < j < |es| && Addressable(es[i]) && Addressable(es[j]) ==> es[i].name != es[j].name
  }

  lemma {:induction false} UnnamedResolvesNowhere(es: seq<Registration>, name: string)
    ensures Resolve(es, name).None? <==> forall r | r in es :: Addressable(r) ==> r.name.value != name
  {
    if es != [] {
      UnnamedResolvesNowhere(es[..|es| - 1], name);
      assert es == es[..|es| - 1] + [es[|es| - 1]];
    }
  }

  /** With names used once, removing plugins never redirects a constraint: it survives or disappears. */
  lemma {:induction false} ResolveWithout(es: seq<Registration>, gone: set<Plugin>, name: string)
    requires DistinctNames(es)
    ensures Resolve(Without(es, gone), name)
         == match Resolve(es, name) case Some(p) => (if p in gone then None else Some(p)) case None => None
  {
    if es != [] {
      var n := |es| - 1;
      var r := es[n];
      assert forall i | 0 <= i < n :: es[..n][i] == es[i];
      ResolveWithout(es[..n], gone, name);
      if r.plugin !in gone {
        var kept := Without(es[..n], gone) + [r];
        assert kept[..|kept| - 1] == Without(es[..n], gone);
      }
      if Addressable(r) && r.name.value == name {
        forall s | s in es[..n] && Addressable(s)
          ensures s.name.value != name
        {
          var i :| 0 <= i < n && es[i] == s;
        }
        UnnamedResolvesNowhere(es[..n], name);
      }
    }
  }

  /** No name of a removed plugin passes to another plugin registered under it before. */
  ghost predicate NoneUncovered(es: seq<Registration>, gone: set<Plugin>) {
    forall name :: Resolve(es, name).Some? && Resolve(es, name).value in gone ==> Resolve(Without(es, gone), name).None?
  }

  lemma {:induction false} KeptStillResolves(es: seq<Registration>, gone: set<Plugin>, name: string)
    requires Resolve(es, name).Some? ==> Resolve(es, name).value !in gone
    ensures Resolve(Without(es, gone), name) == Resolve(es, name)
  {
    if es != [] {
      var n := |es| - 1;
      WithoutGrows(es[..n], es[n], gone);
      assert es == es[..n] + [es[n]];
      if es[n].plugin !in gone {
        var kept := Without(es[..n], gone) + [es[n]];
        assert kept[..|kept| - 1] == Without(es[..n], gone);
      }
      if !(Addressable(es[n]) && es[n].name.value == name) {
        KeptStillResolves(es[..n], gone, name);
      }
    }
  }

  lemma DistinctNamesUncoverNone(es: seq<Registration>, gone: set<Plugin>)
    requires DistinctNames(es)
    ensures NoneUncovered(es, gone)
  {
    forall name
      ensures Resolve(es, name).Some? && Resolve(es, name).value in gone ==> Resolve(Without(es, gone), name).None?
    {
      ResolveWithout(es, gone, name);
    }
  }

  lemma {:induction false} ResolvesToNamed(es: seq<Registration>, name: string)
    ensures Resolve(es, name).Some? ==>
      exists i :: 0 <= i < |es| && es[i].name == Some(name) && es[i].plugin == Resolve(es, name).value
  {
    if es != [] {
      var n := |es| - 1;
      ResolvesToNamed(es[..n], name);
      if Resolve(es, name).Some? {
        if Addressable(es[n]) && es[n].name.value == name {
          assert es[n].name == Some(name);
        } else {
          var i :| 0 <= i < n && es[..n][i].name == Some(name) && es[..n][i].plugin == Resolve(es, name).value;
          assert es[i] == es[..n][i];
        }
      }
    }
  }

  /** Removing every plugin of a name uncovers nothing. */
  lemma ByNameUncoversNone(es: seq<Registration>, name: string)
    requires Distinct(Keys(es))
    ensures NoneUncovered(es, NamedExactly(es, name))
  {
    var gone := NamedExactly(es, name);
    forall n | Resolve(es, n).Some? && Resolve(es, n).value in gone
      ensures Resolve(Without(es, gone), n).None?
    {
      ResolvesToNamed(es, n);
      var i :| 0 <= i < |es| && es[i].name == Some(n) && es[i].plugin == Resolve(es, n).value;
      SamePluginSameEntry(es, i, name);
      NoneLeftNamed(es, name);
      UnnamedResolvesNowhere(Without(es, gone), n);
    }
  }

  lemma NoneLeftNamed(es: seq<Registration>, name: string)
    ensures forall r | r in Without(es, NamedExactly(es, name)) :: r.name != Some(name)
  {
    var gone := NamedExactly(es, name);
    WithoutEntries(es, gone);
    forall r | r in Without(es, gone)
      ensures r.name != Some(name)
    {
      assert r.name == Some(name) ==> r.plugin in gone;
    }
  }

  // ---- What a removal can break ----

  /** A name of a removed plugin passes to `q`. */
  ghost predicate UncoversTo(es: seq<Registration>, gone: set<Plugin>, q: Plugin) {
    exists name ::
      Resolve(es, name).Some? && Resolve(es, name).value in gone && Resolve(Without(es, gone), name) == Some(q)
  }

  ghost predicate Untouched(es: seq<Registration>, gone: set<Plugin>, e: Edge) {
    !UncoversTo(es, gone, e.0) && !UncoversTo(es, gone, e.1)
  }

  ghost function UntouchedOf(es: seq<Registration>, gone: set<Plugin>, edges: seq<Edge>): seq<Edge> {
    Filter(edges, e => Untouched(es, gone, e))
  }

  lemma UntouchedConcat(es: seq<Registration>, gone: set<Plugin>, a: seq<Edge>, b: seq<Edge>)
    ensures UntouchedOf(es, gone, a + b) == UntouchedOf(es, gone, a) + UntouchedOf(es, gone, b)
  {
    FilterConcat(a, b, e => Untouched(es, gone, e));
  }

  lemma UntouchedOne(es: seq<Registration>, gone: set<Plugin>, e: Edge)
    ensures UntouchedOf(es, gone, [e]) == if Untouched(es, gone, e) then [e] else []
  {
    FilterOne(e, e => Untouched(es, gone, e));
  }

  lemma UntouchedResolves(es: seq<Registration>, gone: set<Plugin>, name: string)
    requires Resolve(Without(es, gone), name).Some? && !UncoversTo(es, gone, Resolve(Without(es, gone), name).value)
    ensures Resolve(es, name) == Resolve(Without(es, gone), name)
  {
    if !(Resolve(es, name).Some? && Resolve(es, name).value in gone) {
      KeptStillResolves(es, gone, name);
    }
  }

  lemma {:induction false} BeforeEdgesWithout(es: seq<Registration>, gone: set<Plugin>, p: Plugin, names: seq<string>)
    ensures Subseq(UntouchedOf(es, gone, BeforeEdges(Without(es, gone), p, names)), BeforeEdges(es, p, names))
  {
    if names != [] {
      var n := |names| - 1;
      BeforeEdgesWithout(es, gone, p, names[..n]);
      var q, q' := Resolve(es, names[n]), Resolve(Without(es, gone), names[n]);
      var was := if q.Some? && q.value != p then [(p, q.value)] else [];
      var now := if q'.Some? && q'.value != p then [(p, q'.value)] else [];
      UntouchedConcat(es, gone, BeforeEdges(Without(es, gone), p, names[..n]), now);
      if now != [] {
        UntouchedOne(es, gone, now[0]);
        if Untouched(es, gone, now[0]) { UntouchedResolves(es, gone, names[n]); }
      }
      SubseqRefl(was);
      SubseqConcat(UntouchedOf(es, gone, BeforeEdges(Without(es, gone), p, names[..n])), BeforeEdges(es, p, names[..n]),
                   UntouchedOf(es, gone, now), was);
    }
  }

  lemma {:induction false} AfterEdgesWithout(es: seq<Registration>, gone: set<Plugin>, p: Plugin, names: seq<string>)
    ensures Subseq(UntouchedOf(es, gone, AfterEdges(Without(es, gone), p, names)), AfterEdges(es, p, names))
  {
    if names != [] {
      var n := |names| - 1;
      AfterEdgesWithout(es, gone, p, names[..n]);
      var q, q' := Resolve(es, names[n]), Resolve(Without(es, gone), names[n]);
      var was := if q.Some? && q.value != p then [(q.value, p)] else [];
      var now := if q'.Some? && q'.value != p then [(q'.value, p)] else [];
      UntouchedConcat(es, gone, AfterEdges(Without(es, gone), p, names[..n]), now);
      if now != [] {
        UntouchedOne(es, gone, now[0]);
        if Untouched(es, gone, now[0]) { UntouchedResolves(es, gone, names[n]); }
      }
      SubseqRefl(was);
      SubseqConcat(UntouchedOf(es, gone, AfterEdges(Without(es, gone), p, names[..n])), AfterEdges(es, p, names[..n]),
                   UntouchedOf(es, gone, now), was);
    }
  }

  lemma StatedGrows(es: seq<Registration>, part: seq<Registration>, r: Registration)
    ensures Stated(es, part + [r]) == Stated(es, part) + StatedBy(es, r)
  {
    assert (part + [r])[..|part|] == part;
  }

  lemma RegistrationWithout(es: seq<Registration>, gone: set<Plugin>, r: Registration)
    ensures Subseq(UntouchedOf(es, gone, StatedBy(Without(es, gone), r)), StatedBy(es, r))
  {
    var b, a := BeforeEdges(Without(es, gone), r.plugin, r.before), AfterEdges(Without(es, gone), r.plugin, r.after);
    BeforeEdgesWithout(es, gone, r.plugin, r.before);
    AfterEdgesWithout(es, gone, r.plugin, r.after);
    UntouchedConcat(es, gone, b, a);
    SubseqConcat(UntouchedOf(es, gone, b), BeforeEdges(es, r.plugin, r.before),
                 UntouchedOf(es, gone, a), AfterEdges(es, r.plugin, r.after));
  }

  lemma StatedKept(es: seq<Registration>, gone: set<Plugin>, now: seq<Edge>, was: seq<Edge>, r: Registration)
    requires Subseq(UntouchedOf(es, gone, now), was)
    ensures Subseq(UntouchedOf(es, gone, now + StatedBy(Without(es, gone), r)), was + StatedBy(es, r))
    ensures Subseq(UntouchedOf(es, gone, now), was + StatedBy(es, r))
  {
    RegistrationWithout(es, gone, r);
    UntouchedConcat(es, gone, now, StatedBy(Without(es, gone), r));
    SubseqConcat(UntouchedOf(es, gone, now), was,
                 UntouchedOf(es, gone, StatedBy(Without(es, gone), r)), StatedBy(es, r));
    SubseqConcat(UntouchedOf(es, gone, now), was, [], StatedBy(es, r));
    assert UntouchedOf(es, gone, now) + [] == UntouchedOf(es, gone, now);
  }

  /** Whatever constraint of the rest does not touch an uncovered plugin was already stated before, as often. */
  lemma {:induction false} StatedWithout(es: seq<Registration>, gone: set<Plugin>, part: seq<Registration>)
    ensures Subseq(UntouchedOf(es, gone, Stated(Without(es, gone), Without(part, gone))), Stated(es, part))
  {
    if part != [] {
      var rest, r := part[..|part| - 1], part[|part| - 1];
      assert part == rest + [r];
      StatedWithout(es, gone, rest);
      WithoutGrows(rest, r, gone);
      StatedGrows(es, rest, r);
      StatedGrows(Without(es, gone), Without(rest, gone), r);
      StatedKept(es, gone, Stated(Without(es, gone), Without(rest, gone)), Stated(es, rest), r);
    }
  }

  /** The rest has a cycle through a plugin to which a removed name passed. */
  ghost predicate ClosesCycle(es: seq<Registration>, gone: set<Plugin>) {
    exists w :: IsCycle(Constraints(Without(es, gone)), w) && Visits(es, gone, w)
  }

  ghost predicate Visits(es: seq<Registration>, gone: set<Plugin>, w: seq<Plugin>) {
    exists i :: 0 <= i < |w| && UncoversTo(es, gone, w[i])
  }

  /** The rest states a constraint of such a plugin twice. */
  ghost predicate DoublesConstraint(es: seq<Registration>, gone: set<Plugin>) {
    var left := Constraints(Without(es, gone));
    exists i, j :: 0 <= i < j < |left| && left[i] == left[j] && !Untouched(es, gone, left[i])
  }

  ghost predicate RemovalBreaks(es: seq<Registration>, gone: set<Plugin>) {
    ClosesCycle(es, gone) || DoublesConstraint(es, gone)
  }

  lemma UntouchedWereStated(es: seq<Registration>, gone: set<Plugin>, e: Edge)
    requires e in Constraints(Without(es, gone)) && Untouched(es, gone, e)
    ensures e in Constraints(es)
  {
    StatedWithout(es, gone, es);
    FilterElements(Constraints(Without(es, gone)), e => Untouched(es, gone, e));
    SubseqKeeps(UntouchedOf(es, gone, Constraints(Without(es, gone))), Constraints(es));
  }

  lemma UnbrokenIsAcyclic(es: seq<Registration>, gone: set<Plugin>)
    requires Sortable(es) && !ClosesCycle(es, gone)
    ensures Acyclic(Constraints(Without(es, gone)))
  {
    var left := Constraints(Without(es, gone));
    forall w: seq<Node> | IsCycle(left, w)
      ensures false
    {
      assert !Visits(es, gone, w);
      forall i | 0 <= i < |w| - 1
        ensures (w[i], w[i + 1]) in Constraints(es)
      {
        assert (w[i], w[i + 1]) in left && !UncoversTo(es, gone, w[i]) && !UncoversTo(es, gone, w[i + 1]);
        UntouchedWereStated(es, gone, (w[i], w[i + 1]));
      }
      assert IsCycle(Constraints(es), w);
    }
  }

  lemma UnbrokenIsDistinct(es: seq<Registration>, gone: set<Plugin>)
    requires Sortable(es) && !DoublesConstraint(es, gone)
    ensures Distinct(Constraints(Without(es, gone)))
  {
    var left := Constraints(Without(es, gone));
    StatedWithout(es, gone, es);
    SubseqKeeps(UntouchedOf(es, gone, left), Constraints(es));
    forall i, j | 0 <= i < j < |left|
      ensures left[i] != left[j]
    {
      if left[i] == left[j] {
        FilterTwice(left, i, j, e => Untouched(es, gone, e));
      }
    }
  }

  /** Removing plugins from a sortable registry breaks it exactly through the plugins to which their names pass. */
  lemma RemovalSortableIff(es: seq<Registration>, gone: set<Plugin>)
    requires Sortable(es)
    ensures Sortable(Without(es, gone)) <==> !RemovalBreaks(es, gone)
  {
    if !RemovalBreaks(es, gone) {
      UnbrokenIsAcyclic(es, gone);
      UnbrokenIsDistinct(es, gone);
    }
  }

  /** In particular, removing plugins whose names pass to no other plugin keeps a registry sortable. */
  lemma RemovalKeepsSortable(es: seq<Registration>, gone: set<Plugin>)
    requires NoneUncovered(es, gone) && Sortable(es)
    ensures Sortable(Without(es, gone)) && !RemovalBreaks(es, gone)
  {
    assert forall q :: !UncoversTo(es, gone, q);
    RemovalSortableIff(es, gone);
  }

  datatype Op = Register(r: Registration) | Unregister(p: Plugin) | UnregisterByName(name: string)

  ghost function Step(es: seq<Registration>, op: Op): seq<Registration> {
    match op
    case Register(r) => AfterRegister(es, r)
    case Unregister(p) => Without(es, {p})
    case UnregisterByName(name) => Without(es, NamedExactly(es, name))
  }

  ghost function Run(es: seq<Registration>, ops: seq<Op>): seq<Registration> {
    if ops == [] then es else Step(Run(es, ops[..|ops| - 1]), ops[|ops| - 1])
  }

  /** A caller registers only plugins, and names, that are not in the registry at that moment. */
  predicate IsFresh(es: seq<Registration>, op: Op) {
    op.Register? ==>
      op.r.plugin !in Keys(es) && (Addressable(op.r) ==> forall r | r in es :: r.name != op.r.name)
  }

  ghost predicate AllFresh(ops: seq<Op>) {
    forall k | 0 <= k < |ops| :: IsFresh(Run([], ops[..k]), ops[k])
  }

  lemma {:induction false} SubseqDistinctNames(a: seq<Registration>, b: seq<Registration>)
    requires Subseq(a, b) && DistinctNames(b)
    ensures DistinctNames(a)
    decreases |b|
  {
    if a != [] {
      var b' := b[..|b| - 1];
      assert forall i | 0 <= i < |b'| :: b'[i] == b[i];
      if a[|a| - 1] == b[|b| - 1] {
        var a' := a[..|a| - 1];
        SubseqDistinctNames(a', b');
        SubseqKeeps(a', b');
        assert forall i | 0 <= i < |a'| :: a'[i] == a[i] && a'[i] in b';
      } else {
        SubseqDistinctNames(a, b');
      }
    }
  }

  ghost predicate Sound(es: seq<Registration>) {
    Sortable(es) && Distinct(Keys(es)) && DistinctNames(es)
  }

  lemma RemovalKeepsAll(es: seq<Registration>, gone: set<Plugin>)
    requires Sound(es)
    ensures Sound(Without(es, gone))
  {
    DistinctNamesUncoverNone(es, gone);
    RemovalKeepsSortable(es, gone);
    WithoutDistinct(es, gone);
    WithoutEntries(es, gone);
    SubseqDistinctNames(Without(es, gone), es);
  }

  lemma RegisterKeepsAll(es: seq<Registration>, r: Registration)
    requires Sound(es) && IsFresh(es, Register(r))
    ensures Sound(AfterRegister(es, r))
  {
    PutKeys(es, r);
    if Sortable(Put(es, r)) {
      assert forall i | 0 <= i < |es| :: es[i] in es;
    } else {
      RejectedRegisterRestores(es, r);
    }
  }

  /** After any run of fresh registrations and any removals, list() succeeds. */
  lemma {:induction false} ListNeverThrows(ops: seq<Op>)
    requires AllFresh(ops)
    ensures var es := Run([], ops); Sortable(es) && Distinct(Keys(es)) && DistinctNames(es)
  {
    if ops == [] {
      OrderedIsAcyclic([], []);
    } else {
      var n := |ops| - 1;
      assert AllFresh(ops[..n]) by {
        assert forall k | 0 <= k < n :: ops[..n][..k] == ops[..k];
      }
      ListNeverThrows(ops[..n]);
      var es := Run([], ops[..n]);
      match ops[n]
      case Register(r) => RegisterKeepsAll(es, r);
      case Unregister(p) => RemovalKeepsAll(es, {p});
      case UnregisterByName(name) => RemovalKeepsAll(es, NamedExactly(es, name));
    }
  }

  // ---- When list() breaks ----

  /**
    The step breaks list(): a rejected registration of a known plugin that drops a bystander and leaves the rejected
    constraints behind unsortably, or a removal that breaks through an uncovered plugin.
    */
  ghost predicate Breaks(es: seq<Registration>, op: Op) {
    match op
    case Register(r) =>
      && r.plugin in Keys(es) && es != [] && !Sortable(Put(es, r))
      && if es[|es| - 1].plugin == r.plugin then RemovalBreaks(es, {r.plugin}) else !Sortable(Put(es[..|es| - 1], r))
    case Unregister(p) => RemovalBreaks(es, {p})
    case UnregisterByName(name) => false
  }

  lemma {:induction false} PositionGrows(es: seq<Registration>, last: Registration, p: Plugin)
    ensures Position(es + [last], p) == if Position(es, p) < |es| then Position(es, p)
                                        else if last.plugin == p then |es| else |es| + 1
  {
    if es != [] && es[0].plugin != p {
      assert (es + [last])[1..] == es[1..] + [last];
      PositionGrows(es[1..], last, p);
    }
  }

  /** Rolling back a re-registration drops the last entry, which may not be the one replaced. */
  lemma RollbackKeepsNew(es: seq<Registration>, r: Registration)
    requires es != [] && r.plugin in Keys(es[..|es| - 1]) && es[|es| - 1].plugin != r.plugin
    ensures Put(es, r)[..|es| - 1] == Put(es[..|es| - 1], r) && |Put(es, r)| == |es|
  {
    var n := |es| - 1;
    assert es == es[..n] + [es[n]];
    PositionGrows(es[..n], es[n], r.plugin);
    KnownHasPosition(es[..n], r.plugin);
  }

  lemma KnownHasPosition(es: seq<Registration>, p: Plugin)
    requires p in Keys(es)
    ensures Position(es, p) < |es|
  {
    var i :| 0 <= i < |es| && Keys(es)[i] == p;
    assert es[i].plugin == p;
  }

  lemma LastOnlyDropped(es: seq<Registration>, r: Registration)
    requires es != [] && Distinct(Keys(es)) && es[|es| - 1].plugin == r.plugin
    ensures |Put(es, r)| == |es| && Put(es, r)[..|es| - 1] == Without(es, {r.plugin})
  {
    var n := |es| - 1;
    assert Keys(es)[n] == r.plugin;
    KnownHasPosition(es, r.plugin);
    OneEntryPerPlugin(es, Position(es, r.plugin), n);
    assert Put(es, r)[..n] == es[..n];
    assert es == es[..n] + [es[n]];
    WithoutGrows(es[..n], es[n], {r.plugin});
    forall i | 0 <= i < n
      ensures es[..n][i].plugin != r.plugin
    {
      assert Keys(es)[i] != Keys(es)[n];
    }
    WithoutNone(es[..n], {r.plugin});
  }

  lemma {:induction false} WithoutNone(es: seq<Registration>, gone: set<Plugin>)
    requires forall i | 0 <= i < |es| :: es[i].plugin !in gone
    ensures Without(es, gone) == es
  {
    if es != [] {
      WithoutNone(es[..|es| - 1], gone);
      assert es == es[..|es| - 1] + [es[|es| - 1]];
    }
  }

  lemma RejectedSortable(es: seq<Registration>, r: Registration)
    requires Sortable(es) && Distinct(Keys(es)) && es != [] && r.plugin in Keys(es) && !Sortable(Put(es, r))
    ensures Sortable(Put(es, r)[..|Put(es, r)| - 1]) <==> !Breaks(es, Register(r))
  {
    if es[|es| - 1].plugin == r.plugin {
      LastOnlyDropped(es, r);
      RemovalSortableIff(es, {r.plugin});
    } else {
      KnownBeforeLast(es, r.plugin);
      RollbackKeepsNew(es, r);
    }
  }

  lemma RegisterSortable(es: seq<Registration>, r: Registration)
    requires Sortable(es) && Distinct(Keys(es))
    ensures Sortable(AfterRegister(es, r)) <==> !Breaks(es, Register(r))
  {
    PutKeys(es, r);
    if !Sortable(Put(es, r)) {
      if r.plugin in Keys(es) {
        RejectedSortable(es, r);
      } else {
        RejectedRegisterRestores(es, r);
      }
    }
  }

  lemma KnownBeforeLast(es: seq<Registration>, p: Plugin)
    requires p in Keys(es) && es[|es| - 1].plugin != p
    ensures p in Keys(es[..|es| - 1])
  {
    var n := |es| - 1;
    var i :| 0 <= i < |es| && Keys(es)[i] == p;
    assert es[..n][i].plugin == p;
    assert Keys(es[..n])[i] == p;
  }

  lemma RegisterKeepsKeys(es: seq<Registration>, r: Registration)
    requires Distinct(Keys(es))
    ensures Distinct(Keys(AfterRegister(es, r)))
  {
    PutKeys(es, r);
    var es' := Put(es, r);
    DistinctSplitLast(Keys(es'));
    assert Keys(es')[..|es'| - 1] == Keys(es'[..|es'| - 1]);
  }

  /** One step from a sortable registry breaks list() exactly under these conditions. */
  lemma StepSortable(es: seq<Registration>, op: Op)
    requires Sortable(es) && Distinct(Keys(es))
    ensures Sortable(Step(es, op)) <==> !Breaks(es, op)
  {
    match op
    case Register(r) => RegisterSortable(es, r);
    case Unregister(p) => RemovalSortableIff(es, {p});
    case UnregisterByName(name) =>
      ByNameUncoversNone(es, name);
      RemovalKeepsSortable(es, NamedExactly(es, name));
  }

  lemma {:induction false} RunKeepsKeys(ops: seq<Op>)
    ensures Distinct(Keys(Run([], ops)))
  {
    if ops != [] {
      RunKeepsKeys(ops[..|ops| - 1]);
      var es := Run([], ops[..|ops| - 1]);
      match ops[|ops| - 1]
      case Register(r) => RegisterKeepsKeys(es, r);
      case Unregister(p) => WithoutDistinct(es, {p});
      case UnregisterByName(name) => WithoutDistinct(es, NamedExactly(es, name));
    }
  }

  ghost predicate AlwaysSortable(ops: seq<Op>) {
    forall k | 0 <= k <= |ops| :: Sortable(Run([], ops[..k]))
  }

  ghost predicate NeverBreaks(ops: seq<Op>) {
    forall k | 0 <= k < |ops| :: !Breaks(Run([], ops[..k]), ops[k])
  }

  lemma {:induction false} UnbrokenIsSortable(ops: seq<Op>, k: nat)
    requires NeverBreaks(ops) && k <= |ops|
    ensures Sortable(Run([], ops[..k]))
  {
    if k == 0 {
      OrderedIsAcyclic([], []);
    } else {
      UnbrokenIsSortable(ops, k - 1);
      assert ops[..k][..k - 1] == ops[..k - 1];
      RunKeepsKeys(ops[..k - 1]);
      StepSortable(Run([], ops[..k - 1]), ops[k - 1]);
    }
  }

  /**
    Over any run whatever, names reused and plugins registered again: list() works throughout exactly if no step
    breaks it.
    */
  lemma ListWorksIffNothingBreaks(ops: seq<Op>)
    ensures AlwaysSortable(ops) <==> NeverBreaks(ops)
  {
    if NeverBreaks(ops) {
      forall k | 0 <= k <= |ops|
        ensures Sortable(Run([], ops[..k]))
      {
        UnbrokenIsSortable(ops, k);
      }
    }
    if AlwaysSortable(ops) {
      forall k | 0 <= k < |ops|
        ensures !Breaks(Run([], ops[..k]), ops[k])
      {
        assert ops[..k + 1][..k] == ops[..k] && Sortable(Run([], ops[..k + 1]));
        RunKeepsKeys(ops[..k]);
        StepSortable(Run([], ops[..k]), ops[k]);
      }
    }
  }

  /** With distinct names, a rejected re-registration breaks list() exactly under these conditions. */
  lemma RejectedReRegistrationBreaksIff(es: seq<Registration>, r: Registration)
    requires Sound(es) && r.plugin in Keys(es) && !Sortable(Put(es, r))
    ensures !Sortable(AfterRegister(es, r)) <==>
      es[|es| - 1].plugin != r.plugin && !Sortable(Put(es[..|es| - 1], r))
  {
    DistinctNamesUncoverNone(es, {r.plugin});
    RemovalKeepsSortable(es, {r.plugin});
    RegisterSortable(es, r);
  }

  // ---- Where the promises end ----

  /** The same pair constrained from both sides is acyclic, and still rejected. */
  lemma DoublyStatedIsRejected()
    ensures var es := [Registration(1, Some("p"), ["q"], []), Registration(2, Some("q"), [], ["p"])];
      Acyclic(Constraints(es)) && !Sortable(es)
  {
    var p, q := Registration(1, Some("p"), ["q"], []), Registration(2, Some("q"), [], ["p"]);
    var es := [p, q];
    assert es[..1] == [p] && [p][..0] == [];
    assert Resolve(es, "q") == Some(2) && Resolve(es, "p") == Some(1);
    assert BeforeEdges(es, 1, ["q"]) == [(1, 2)];
    assert AfterEdges(es, 2, ["p"]) == [(1, 2)];
    assert Stated(es, [p]) == [(1, 2)];
    assert Constraints(es) == [(1, 2), (1, 2)];
    assert Constraints(es)[0] == Constraints(es)[1];
    assert [1, 2][0] == 1 && [1, 2][1] == 2;
    OrderedIsAcyclic(Constraints(es), [1, 2]);
  }

  lemma PairCycle(E: seq<Edge>, p: Plugin, q: Plugin)
    requires (p, q) in E && (q, p) in E
    ensures !Acyclic(E)
  {
    var w: seq<Node> := [p, q, p];
    assert IsWalk(E, w) by {
      assert (w[0], w[1]) in E && (w[1], w[2]) in E;
    }
    assert IsCycle(E, w);
  }

  lemma OneFollowsTheOther(a: Registration, b: Registration, c: Registration)
    requires a == Registration(1, Some("a"), [], []) && b == Registration(2, Some("b"), [], ["a"])
    requires c == Registration(3, None, [], [])
    ensures Sortable([a, b, c])
  {
    var es := [a, b, c];
    assert es[..2] == [a, b] && [a, b][..1] == [a] && [a][..0] == [];
    assert Resolve([a], "a") == Some(1) && Resolve([a, b], "a") == Some(1) && Resolve(es, "a") == Some(1);
    assert AfterEdges(es, 2, ["a"]) == [(1, 2)];
    assert Stated(es, [a]) == [];
    assert Stated(es, [a, b]) == [(1, 2)];
    assert Constraints(es) == [(1, 2)];
    assert [1, 2][0] == 1 && [1, 2][1] == 2;
    OrderedIsAcyclic(Constraints(es), [1, 2]);
  }

  lemma ReplacesFirst(a: Registration, b: Registration, c: Registration, again: Registration)
    requires again.plugin == a.plugin
    ensures Put([a, b, c], again) == [again, b, c]
  {
  }

  /**
    A rejected re-registration after which list() throws: the rejected constraints stay, the last plugin, a bystander,
    is dropped, and what they conflict with is still there.
    */
  lemma RejectedReRegistrationBreaksList()
    ensures var es := [Registration(1, Some("a"), [], []), Registration(2, Some("b"), [], ["a"]),
                       Registration(3, None, [], [])];
      var again := Registration(1, Some("a"), [], ["b"]);
      && Sortable(es) && !Sortable(Put(es, again))
      && AfterRegister(es, again) == [again, es[1]] && !Sortable(AfterRegister(es, again))
  {
    var a, b := Registration(1, Some("a"), [], []), Registration(2, Some("b"), [], ["a"]);
    var c, again := Registration(3, None, [], []), Registration(1, Some("a"), [], ["b"]);
    OneFollowsTheOther(a, b, c);
    ReplacesFirst(a, b, c, again);
    CrossedIsCyclic(again, b, [again, b]);
    CrossedIsCyclic(again, b, [again, b, c]);
    assert [again, b, c][..2] == [again, b];
  }

  /**
    A rejected re-registration that list() survives: the plugin it conflicts with is the one dropped.
    */
  lemma RejectedReRegistrationSpared()
    ensures var es := [Registration(1, Some("a"), [], []), Registration(2, Some("b"), [], ["a"])];
      var again := Registration(1, Some("a"), [], ["b"]);
      !Sortable(Put(es, again)) && AfterRegister(es, again) == [again] && Sortable([again])
  {
    var a, b := Registration(1, Some("a"), [], []), Registration(2, Some("b"), [], ["a"]);
    var again := Registration(1, Some("a"), [], ["b"]);
    assert Put([a, b], again) == [again, b];
    CrossedIsCyclic(again, b, [again, b]);
    assert [again][..0] == [] && ["b"][..0] == [];
    assert Resolve([again], "b") == Resolve([again][..0], "b") == None;
    assert AfterEdges([again], 1, ["b"]) == AfterEdges([again], 1, ["b"][..0]) + [] == [];
    assert BeforeEdges([again], 1, []) == [] && Stated([again], [again][..0]) == [];
    assert Constraints([again]) == [];
    OrderedIsAcyclic([], []);
  }

  /** Removing a plugin whose name passes to an earlier plugin can close a cycle. */
  lemma UncoveredNameBreaksList()
    ensures var es := [Registration(1, Some("a"), ["b"], []), Registration(2, Some("a"), [], []),
                       Registration(3, Some("b"), ["a"], [])];
      Sortable(es) && !NoneUncovered(es, {2}) && !Sortable(Without(es, {2}))
  {
    var p, q := Registration(1, Some("a"), ["b"], []), Registration(2, Some("a"), [], []);
    var r := Registration(3, Some("b"), ["a"], []);
    var es := [p, q, r];
    assert es[..2] == [p, q] && [p, q][..1] == [p] && [p][..0] == [];
    assert Without([p], {2}) == [p] && Without([p, q], {2}) == [p] && Without(es, {2}) == [p, r];
    assert Resolve(es, "a") == Some(2);
    CoveredIsSortable(p, q, r);
    UncoveredIsCyclic(p, r);
  }

  lemma OneName(es: seq<Registration>, p: Plugin, name: string, q: Plugin)
    requires Resolve(es, name) == Some(q) && q != p
    ensures BeforeEdges(es, p, [name]) == [(p, q)]
  {
    assert [name][..0] == [];
    assert BeforeEdges(es, p, [name][..0]) == [];
  }

  lemma CoveredIsSortable(p: Registration, q: Registration, r: Registration)
    requires p == Registration(1, Some("a"), ["b"], []) && q == Registration(2, Some("a"), [], [])
    requires r == Registration(3, Some("b"), ["a"], [])
    ensures Sortable([p, q, r])
  {
    var es, o := [p, q, r], [1, 3, 2];
    assert es[..2] == [p, q] && [p, q][..1] == [p] && [p][..0] == [];
    assert Resolve([p, q], "a") == Some(2);
    assert Resolve(es, "a") == Some(2) && Resolve(es, "b") == Some(3);
    OneName(es, 1, "b", 3);
    OneName(es, 3, "a", 2);
    assert Stated(es, [p]) == [(1, 3)];
    assert Stated(es, [p, q]) == [(1, 3)] + [];
    assert Constraints(es) == [(1, 3), (3, 2)];
    assert o[0] == 1 && o[1] == 3 && o[2] == 2;
    OrderedIsAcyclic(Constraints(es), o);
  }

  lemma UncoveredIsCyclic(p: Registration, r: Registration)
    requires p == Registration(1, Some("a"), ["b"], []) && r == Registration(3, Some("b"), ["a"], [])
    ensures !Sortable([p, r]) && Resolve([p, r], "a") == Some(1)
  {
    var es := [p, r];
    assert es[..1] == [p] && [p][..0] == [];
    assert Resolve([p], "a") == Some(1);
    assert Resolve(es, "a") == Some(1) && Resolve(es, "b") == Some(3);
    OneName(es, 1, "b", 3);
    OneName(es, 3, "a", 1);
    assert Stated(es, [p]) == [(1, 3)];
    assert Constraints(es) == [(1, 3), (3, 1)];
    assert Constraints(es)[0] == (1, 3) && Constraints(es)[1] == (3, 1);
    PairCycle(Constraints(es), 1, 3);
  }

  lemma CrossedIsCyclic(a: Registration, b: Registration, es: seq<Registration>)
    requires a == Registration(1, Some("a"), [], ["b"]) && b == Registration(2, Some("b"), [], ["a"])
    requires es == [a, b] || es == [a, b, Registration(3, None, [], [])]
    ensures !Sortable(es)
  {
    assert [a, b][..1] == [a] && [a][..0] == [] && es[..2] == [a, b];
    assert Resolve([a], "a") == Some(1) && Resolve([a, b], "a") == Some(1) && Resolve([a, b], "b") == Some(2);
    assert Resolve(es, "a") == Some(1) && Resolve(es, "b") == Some(2);
    assert AfterEdges(es, 2, ["a"]) == [(1, 2)] && AfterEdges(es, 1, ["b"]) == [(2, 1)];
    assert Stated(es, [a]) == [(2, 1)];
    assert Stated(es, [a, b]) == [(2, 1), (1, 2)];
    assert Constraints(es) == [(2, 1), (1, 2)];
    assert Constraints(es)[0] == (2, 1) && Constraints(es)[1] == (1, 2);
    PairCycle(Constraints(es), 1, 2);
  }
}