/**
 * Deletions and creations that come too early or too late for a resource further down: the mark the cascade itself
 * makes then overtakes the creation event, and the collector drops its finalizer above a stored dependent.
 */
module CascadeBelow {
  import opened Wrappers
  import opened Digraphs
  import opened Relationships
  import opened GraphRuns
  import opened Cascade
  import opened CascadeSafety
  import opened CascadeTheorems
  import opened CascadeProgress
  import opened CascadeStranded
  import opened CascadeCalm
  import opened CascadeRaces
  import opened CascadeRest
  import opened CascadeEarly

  lemma {:induction false} LeadsOn(s: State, acts: seq<Action>, t: State, more: seq<Action>, u: State)
    requires CollectorLeads(s, acts, t) && CollectorLeads(t, more, u)
    ensures CollectorLeads(s, acts + more, u)
    decreases |acts|
  {
    if acts == [] {
      assert acts + more == more;
    } else {
      LeadsOn(Apply(s, acts[0]), acts[1..], t, more, u);
      assert (acts + more)[1..] == acts[1..] + more;
    }
  }

  // ---------------------------------------------------------------------------------------------
  // A line of known dependents
  // ---------------------------------------------------------------------------------------------

  /** `y` is stored and idle, and whatever the collector knows of its dependents is stored. */
  ghost predicate Standing(s: State, y: ResourceRef) {
    && y in s.api.store && WellFormed(s, y, s.api.store[y]) && EventsOk(s, y) && y !in s.gc.workers
    && forall d :: Known(s, y, d) ==> d in s.api.store
  }

  /** The collector knows that `y` owns `d`. */
  ghost predicate Known(s: State, y: ResourceRef, d: ResourceRef) {
    d in s.past.born && y in s.past.born[d] && !Undelivered(s, d) && d !in s.past.buried
  }

  lemma KnownIsListed(s: State, y: ResourceRef, d: ResourceRef)
    requires InvGraph(s)
    ensures d in Dependents(s.gc.graph, y) <==> Known(s, y, d)
  {
    assert d in Dependents(s.gc.graph, y) <==> (y, d) in EdgesOf(s.gc.graph);
  }

  predicate Live(s: State, y: ResourceRef) {
    y in s.api.store && !s.api.store[y].deleted
  }

  /** The second one is a live known dependent of the first, and so on down the line. */
  ghost predicate Below(s: State, path: seq<ResourceRef>)
    decreases |path|, 0
  {
    |path| > 1 && Known(s, path[0], path[1]) && Live(s, path[1]) && Line(s, path[1..])
  }

  /** All are standing, each is a known dependent of the one before, and the last has none. */
  ghost predicate Line(s: State, path: seq<ResourceRef>)
    decreases |path|, 1
  {
    path != [] && Standing(s, path[0]) && if |path| == 1 then forall d :: !Known(s, path[0], d) else Below(s, path)
  }

  lemma {:induction false} BelowIsWalk(s: State, path: seq<ResourceRef>)
    requires Below(s, path)
    ensures WalkFromTo(Ownership(s.past.born), path[0], path[|path| - 1], path)
    decreases |path|
  {
    var e := Ownership(s.past.born);
    if |path| == 2 {
      ReachesSelf(e, path[1]);
    } else {
      BelowIsWalk(s, path[1..]);
    }
    assert WalkFromTo(e, path[1], path[|path| - 1], path[1..]);
    ConsWalk(e, path[0], path[1], path[|path| - 1], path[1..]);
    assert [path[0]] + path[1..] == path;
  }

  lemma {:induction false} LineGetsYounger(s: State, path: seq<ResourceRef>, i: nat)
    requires Aged(s.past.born, s.past.age) && Below(s, path) && 0 < i < |path|
    ensures path[0] in s.past.born && path[i] in s.past.born && s.past.age[path[0]] < s.past.age[path[i]]
    decreases |path|
  {
    if i > 1 {
      LineGetsYounger(s, path[1..], i - 1);
    }
  }

  /** A walk of one edge and a longer one to the same place: not with unique walks. */
  lemma EdgeIsOnlyWalk(e: Edges<ResourceRef>, p: seq<ResourceRef>, u: ResourceRef, v: ResourceRef)
    requires TreeFrom(e, u) && (u, v) in e && WalkFromTo(e, u, v, p)
    ensures |p| == 2
  {
    assert WalkFromTo(e, u, v, [u, v]);
  }

  /** A known dependent of the head that is not next on the line is not on it at all. */
  lemma SiblingIsOff(s: State, path: seq<ResourceRef>, d: ResourceRef, i: nat)
    requires InvBirth(s) && Below(s, path) && Known(s, path[0], d) && d != path[1] && 0 < i < |path|
    ensures path[i] != d
  {
    if path[i] == d {
      var e, p := Ownership(s.past.born), path[..i + 1];
      BelowIsWalk(s, path);
      forall j | 0 <= j < |p| - 1 ensures (p[j], p[j + 1]) in e {
        assert (path[j], path[j + 1]) in e;
      }
      EdgeIsOnlyWalk(e, p, path[0], d);
    }
  }

  // ---------------------------------------------------------------------------------------------
  // What the work for the head leaves alone
  // ---------------------------------------------------------------------------------------------

  /** Between `s` and `t` only `x` has been worked for, and only `m` has been marked. */
  ghost predicate Spares(s: State, t: State, x: ResourceRef, m: ResourceRef) {
    && t.past == s.past && t.api.store.Keys == s.api.store.Keys
    && (forall y :: y != m && y in s.api.store ==> t.api.store[y] == s.api.store[y])
    && (forall y :: y in s.api.store ==> t.api.store[y].owners == s.api.store[y].owners)
    && (forall y :: y != x ==> (Undelivered(t, y) <==> Undelivered(s, y)))
    && (forall y :: EventsOk(s, y) ==> EventsOk(t, y))
    && (forall y :: y != x && y in t.gc.workers ==> y in s.gc.workers)
  }

  lemma StandingStays(s: State, t: State, x: ResourceRef, m: ResourceRef, y: ResourceRef)
    requires Spares(s, t, x, m) && Standing(s, y) && y !in t.gc.workers && WellFormed(t, y, t.api.store[y])
    requires x in s.past.born ==> y !in s.past.born[x]
    ensures Standing(t, y)
    ensures forall d :: Known(t, y, d) <==> Known(s, y, d)
  {
  }

  lemma {:induction false} LineStays(s: State, t: State, x: ResourceRef, m: ResourceRef, path: seq<ResourceRef>)
    requires Spares(s, t, x, m) && Line(s, path)
    requires forall y :: y in path ==> y != x && y != m && (x in s.past.born ==> y !in s.past.born[x])
    ensures Line(t, path)
    decreases |path|
  {
    assert path[0] in path;
    assert WellFormed(t, path[0], t.api.store[path[0]]);
    StandingStays(s, t, x, m, path[0]);
    if |path| > 1 {
      assert path[1] in path && forall y :: y in path[1..] ==> y in path;
      LineStays(s, t, x, m, path[1..]);
    }
  }

  /** The rest of the line stays when its head is worked for and something off the line is marked. */
  lemma BelowStays(s: State, t: State, m: ResourceRef, path: seq<ResourceRef>)
    requires InvBirth(s) && Below(s, path) && Spares(s, t, path[0], m)
    requires forall i :: 0 < i < |path| ==> path[i] != m
    ensures Below(t, path)
  {
    forall y | y in path[1..] ensures y != path[0] && y != m && y !in s.past.born[path[0]] {
      var i :| 0 <= i < |path[1..]| && path[1..][i] == y;
      LineGetsYounger(s, path, i + 1);
      assert path[i + 1] != m;
    }
    LineStays(s, t, path[0], m, path[1..]);
    LineGetsYounger(s, path, 1);
  }

  // ---------------------------------------------------------------------------------------------
  // The steps for the head
  // ---------------------------------------------------------------------------------------------

  ghost predicate Base(s: State) {
    InvBirth(s) && InvStore(s) && InvGraph(s)
  }

  lemma DeliverySpares(s: State, a: ResourceRef, g: Adjacency, m: ResourceRef)
    requires Pending(s, a) != [] && !Pending(s, a)[0].kind.DELETED?
    ensures Spares(s, Enqueue(Taken(s, a).(gc := s.gc.(graph := g)), a, Pending(s, a)[0].obj), a, m)
  {
    var mid := Taken(s, a).(gc := s.gc.(graph := g));
    var t := Enqueue(mid, a, Pending(s, a)[0].obj);
    forall y | EventsOk(s, y) ensures EventsOk(t, y) {
      TakeKeepsEventsOf(s, mid, a, y);
      SameEventsOk(mid, t, y);
    }
    TakenEvents(s, a);
    assert forall y :: y != a ==> Pending(t, y) == Pending(s, y);
  }

  lemma SameEventsOk(s: State, t: State, y: ResourceRef)
    requires t.api == s.api && t.past == s.past && t.gc.handlers == s.gc.handlers && EventsOk(s, y)
    ensures EventsOk(t, y)
  {
  }

  lemma DeliveryKeepsBase(s: State, a: ResourceRef, visited: set<ResourceRef>)
    requires Pending(s, a) != [] && !Pending(s, a)[0].kind.DELETED? && Base(s) && EventsOk(s, a)
    ensures Base(Enqueue(Taken(s, a).(gc := s.gc.(graph := Touch(DeliveredGraph(s, a), visited))), a,
      Pending(s, a)[0].obj))
  {
    var mid := Taken(s, a).(gc := s.gc.(graph := Touch(DeliveredGraph(s, a), visited)));
    var t := Enqueue(mid, a, Pending(s, a)[0].obj);
    GraphStays(s, mid, a, visited);
    SameUndelivered(mid, t);
    SameGraph(mid, t);
    SameStoreOk(s, t);
  }

  lemma SameStoreOk(s: State, t: State)
    requires InvBirth(s) && InvStore(s) && t.api.store == s.api.store && t.past == s.past
    ensures InvBirth(t) && InvStore(t)
  {
    forall r | r in t.api.store ensures WellFormed(t, r, t.api.store[r]) {
      assert WellFormed(s, r, s.api.store[r]);
    }
  }

  lemma HeadStays(s: State, t: State, path: seq<ResourceRef>)
    requires InvBirth(s) && Line(s, path) && Spares(s, t, path[0], path[0]) && path[0] !in t.gc.workers
    requires t.api.store == s.api.store
    ensures Line(t, path)
  {
    assert WellFormed(t, path[0], t.api.store[path[0]]);
    StandingStays(s, t, path[0], path[0], path[0]);
    if |path| > 1 {
      forall i | 0 < i < |path| ensures path[i] != path[0] {
        LineGetsYounger(s, path, i);
      }
      BelowStays(s, t, path[0], path);
    }
  }

  /** One event about the head delivered. */
  lemma HeadDelivered(s: State, path: seq<ResourceRef>, obj: Resource) returns (visited: set<ResourceRef>)
    requires Base(s) && Line(s, path) && Pending(s, path[0]) != [] && Due(s, path[0], obj)
    ensures Enabled(s, Deliver(path[0], visited))
    ensures var t := Apply(s, Deliver(path[0], visited));
      && Base(t) && Line(t, path) && Due(t, path[0], obj) && SameKeys(s, t)
      && |Pending(t, path[0])| == |Pending(s, path[0])| - 1
  {
    var a := path[0];
    HeadFacts(s, a);
    visited := VisitedExists(s, a);
    DeliveryApplied(s, a, visited);
    DeliveryKeepsBase(s, a, visited);
    DeliverySpares(s, a, Touch(DeliveredGraph(s, a), visited), a);
    DueStays(s, a, Touch(DeliveredGraph(s, a), visited), obj);
    HeadStays(s, Apply(s, Deliver(a, visited)), path);
  }

  /** The same resources are stored, with the same owners. */
  ghost predicate SameKeys(s: State, t: State) {
    && t.api.store.Keys == s.api.store.Keys && t.past == s.past
    && forall y :: y in s.api.store ==> t.api.store[y].owners == s.api.store[y].owners
  }

  /** A worker of the head is at position `n` of its dependents, all of which are stored. */
  ghost predicate AtPosition(s: State, path: seq<ResourceRef>, n: nat) {
    && Below(s, path) && path[0] in s.gc.workers
    && var ds := Dependents(s.gc.graph, path[0]);
       && n < |ds| && s.gc.workers[path[0]] == Marking(n, Some(ds[n])) && forall d :: d in ds ==> d in s.api.store
  }

  lemma TakeSpares(s: State, a: ResourceRef, m: ResourceRef)
    requires a in s.gc.queue
    ensures Spares(s, ApplyTake(s, a), a, m)
  {
    SameUndelivered(s, ApplyTake(s, a));
    forall y | EventsOk(s, y) ensures EventsOk(ApplyTake(s, a), y) {
      SameEventsOk(s, ApplyTake(s, a), y);
    }
  }

  lemma TakeKeepsBase(s: State, a: ResourceRef)
    requires Base(s) && a in s.gc.queue
    ensures Base(ApplyTake(s, a))
  {
    var t := ApplyTake(s, a);
    TouchKeepsEdges(s.gc.graph, {a});
    SameUndelivered(s, t);
    TouchedGraph(s, t);
    SameStoreOk(s, t);
  }

  lemma TouchedGraph(s: State, t: State)
    requires InvGraph(s) && t.past == s.past && DuplicateFree(t.gc.graph) && EdgesOf(t.gc.graph) == EdgesOf(s.gc.graph)
    requires forall x :: Undelivered(t, x) <==> Undelivered(s, x)
    ensures InvGraph(t)
  {
  }

  lemma HeadTaken(s: State, path: seq<ResourceRef>, obj: Resource)
    requires Base(s) && Line(s, path) && |path| > 1 && Pending(s, path[0]) == [] && Due(s, path[0], obj)
    ensures Enabled(s, Take(path[0]))
    ensures var t := ApplyTake(s, path[0]); Base(t) && AtPosition(t, path, 0) && SameKeys(s, t)
  {
    var a, t := path[0], ApplyTake(s, path[0]);
    TakeKeepsBase(s, a);
    TakeSpares(s, a, a);
    forall i | 0 < i < |path| ensures path[i] != a {
      LineGetsYounger(s, path, i);
    }
    BelowStays(s, t, a, path);
    KnownIsListed(s, a, path[1]);
    forall d | d in Dependents(s.gc.graph, a) ensures d in s.api.store {
      KnownIsListed(s, a, d);
    }
  }

  // ---------------------------------------------------------------------------------------------
  // Marking on, down to the next one on the line
  // ---------------------------------------------------------------------------------------------

  lemma MarkSpares(s: State, a: ResourceRef, d: ResourceRef)
    requires MarkingOf(s, a, d) && d in s.api.store && WellFormed(s, d, s.api.store[d])
    ensures Spares(s, ApplyCall(s, a), a, d) && ApplyCall(s, a).gc.graph == s.gc.graph
  {
    var m, t := ApiDelete(s, d).value, ApplyCall(s, a);
    CallMarkingApplied(s, a, d);
    if !s.api.store[d].deleted {
      MarkedEvents(s, d);
      MarkedUndelivered(s, d);
    }
    SameUndelivered(m, t);
    forall y | EventsOk(s, y) ensures EventsOk(t, y) {
      MarkKeepsEventsOf(s, d, y);
      SameEventsOk(m, t, y);
    }
  }

  lemma MarkKeepsEventsOf(s: State, d: ResourceRef, y: ResourceRef)
    requires d in s.api.store && WellFormed(s, d, s.api.store[d]) && EventsOk(s, y)
    ensures EventsOk(ApiDelete(s, d).value, y)
  {
    if !s.api.store[d].deleted {
      MarkedEvents(s, d);
      if y == d {
        MarkedEventsOk(s, d);
      }
    }
  }

  lemma MarkKeepsBase(s: State, a: ResourceRef, d: ResourceRef)
    requires Base(s) && MarkingOf(s, a, d) && d in s.api.store
    ensures Base(ApplyCall(s, a))
  {
    var m, t := ApiDelete(s, d).value, ApplyCall(s, a);
    CallMarkingApplied(s, a, d);
    if !s.api.store[d].deleted {
      MarkedGraph(s, d);
      MarkedStoreOk(s, d);
    }
    SameUndelivered(m, t);
    SameGraph(m, t);
    SameStoreOk(m, t);
  }

  lemma MarkedStoreOk(s: State, d: ResourceRef)
    requires InvStore(s) && d in s.api.store && !s.api.store[d].deleted
    ensures InvStore(ApiDelete(s, d).value)
  {
    var m := ApiDelete(s, d).value;
    MarkedEvents(s, d);
    forall r | r in m.api.store ensures WellFormed(m, r, m.api.store[r]) {
      assert WellFormed(s, r, s.api.store[r]);
    }
  }

  lemma ContinueSpares(s: State, a: ResourceRef, m: ResourceRef)
    requires a in s.gc.workers && s.gc.workers[a].Marking?
    ensures Spares(s, ApplyContinue(s, a), a, m)
  {
    ContinueChangesWorkers(s, a);
    SameUndelivered(s, ApplyContinue(s, a));
    forall y | EventsOk(s, y) ensures EventsOk(ApplyContinue(s, a), y) {
      SameEventsOk(s, ApplyContinue(s, a), y);
    }
  }

  lemma ContinueKeepsBase(s: State, a: ResourceRef)
    requires Base(s) && a in s.gc.workers && s.gc.workers[a].Marking?
    ensures Base(ApplyContinue(s, a))
  {
    ContinueChangesWorkers(s, a);
    SameUndelivered(s, ApplyContinue(s, a));
    SameGraph(s, ApplyContinue(s, a));
    SameStoreOk(s, ApplyContinue(s, a));
  }

  lemma TargetIsKnown(s: State, path: seq<ResourceRef>, n: nat)
    requires InvGraph(s) && InvStore(s) && AtPosition(s, path, n)
    ensures var d := Dependents(s.gc.graph, path[0])[n];
      Known(s, path[0], d) && MarkingOf(s, path[0], d) && d in s.api.store && WellFormed(s, d, s.api.store[d])
  {
    var d := Dependents(s.gc.graph, path[0])[n];
    assert d in Dependents(s.gc.graph, path[0]);
    KnownIsListed(s, path[0], d);
  }

  lemma SiblingSparesLine(s: State, t: State, path: seq<ResourceRef>, d: ResourceRef)
    requires InvBirth(s) && Below(s, path) && Known(s, path[0], d) && d != path[1] && Spares(s, t, path[0], d)
    ensures Below(t, path)
  {
    forall i | 0 < i < |path| ensures path[i] != d {
      SiblingIsOff(s, path, d, i);
    }
    BelowStays(s, t, d, path);
  }

  lemma CalledAt(s: State, a: ResourceRef, d: ResourceRef)
    requires MarkingOf(s, a, d) && d in s.api.store
    ensures Enabled(s, Call(a))
    ensures var t := ApplyCall(s, a);
      a in t.gc.workers && t.gc.workers[a] == Marking(s.gc.workers[a].next + 1, None) && t.gc.graph == s.gc.graph
  {
    CallMarkingApplied(s, a, d);
  }

  lemma SparesSameKeys(s: State, t: State, x: ResourceRef, m: ResourceRef)
    requires Spares(s, t, x, m)
    ensures SameKeys(s, t)
  {
  }

  /** The call for a known dependent of the head. */
  lemma CalledSpares(s: State, a: ResourceRef, d: ResourceRef)
    requires Base(s) && MarkingOf(s, a, d) && d in s.api.store
    ensures Base(ApplyCall(s, a)) && Spares(s, ApplyCall(s, a), a, d)
  {
    assert WellFormed(s, d, s.api.store[d]);
    MarkKeepsBase(s, a, d);
    MarkSpares(s, a, d);
  }

  lemma CallSparesLine(s: State, path: seq<ResourceRef>, n: nat)
    requires Base(s) && AtPosition(s, path, n) && Dependents(s.gc.graph, path[0])[n] != path[1]
    ensures Base(ApplyCall(s, path[0])) && Below(ApplyCall(s, path[0]), path) && SameKeys(s, ApplyCall(s, path[0]))
  {
    var a, d := path[0], Dependents(s.gc.graph, path[0])[n];
    TargetIsKnown(s, path, n);
    CalledSpares(s, a, d);
    SiblingSpared(s, ApplyCall(s, a), path, d);
  }

  lemma SiblingSpared(s: State, t: State, path: seq<ResourceRef>, d: ResourceRef)
    requires InvBirth(s) && Below(s, path) && Known(s, path[0], d) && d != path[1] && Spares(s, t, path[0], d)
    ensures Below(t, path) && SameKeys(s, t)
  {
    SparesSameKeys(s, t, path[0], d);
    SiblingSparesLine(s, t, path, d);
  }

  lemma ContinuedSpares(s: State, path: seq<ResourceRef>)
    requires Base(s) && Below(s, path) && path[0] in s.gc.workers && s.gc.workers[path[0]].Marking?
    ensures var t := ApplyContinue(s, path[0]); Base(t) && Below(t, path) && SameKeys(s, t)
  {
    var a, t := path[0], ApplyContinue(s, path[0]);
    ContinueKeepsBase(s, a);
    ContinueSpares(s, a, a);
    HeadSpared(s, t, path);
  }

  lemma HeadSpared(s: State, t: State, path: seq<ResourceRef>)
    requires InvBirth(s) && Below(s, path) && Spares(s, t, path[0], path[0])
    ensures Below(t, path) && SameKeys(s, t)
  {
    SparesSameKeys(s, t, path[0], path[0]);
    HeadSparesLine(s, t, path);
  }

  lemma ContinuedAt(s: State, path: seq<ResourceRef>, n: nat)
    requires path != [] && path[0] in s.gc.workers && s.gc.workers[path[0]] == Marking(n, None)
    requires Below(ApplyContinue(s, path[0]), path)
    requires n < |Dependents(s.gc.graph, path[0])|
    requires forall d :: d in Dependents(s.gc.graph, path[0]) ==> d in s.api.store
    ensures Enabled(s, Continue(path[0])) && AtPosition(ApplyContinue(s, path[0]), path, n)
    ensures ApplyContinue(s, path[0]).gc.graph == s.gc.graph
  {
  }

  lemma HeadSparesLine(s: State, t: State, path: seq<ResourceRef>)
    requires InvBirth(s) && Below(s, path) && Spares(s, t, path[0], path[0])
    ensures Below(t, path)
  {
    forall i | 0 < i < |path| ensures path[i] != path[0] {
      LineGetsYounger(s, path, i);
    }
    BelowStays(s, t, path[0], path);
  }

  lemma TwoSteps(s: State, a: Action, b: Action)
    requires IsCollector(a) && Enabled(s, a) && IsCollector(b) && Enabled(Apply(s, a), b)
    ensures CollectorLeads(s, [a, b], Apply(Apply(s, a), b))
  {
    var t := Apply(s, a);
    assert [b] + [] == [b] && [a] + [b] == [a, b];
    assert CollectorLeads(Apply(t, b), [], Apply(t, b));
    ThenCollector(t, b, [], Apply(t, b));
    ThenCollector(s, a, [b], Apply(t, b));
  }

  /** The call for a dependent that is not on the line, and on to the next one. */
  lemma StepOn(s: State, path: seq<ResourceRef>, n: nat) returns (t: State)
    requires Base(s) && AtPosition(s, path, n)
    requires var ds := Dependents(s.gc.graph, path[0]); ds[n] != path[1] && n + 1 < |ds|
    ensures CollectorLeads(s, [Call(path[0]), Continue(path[0])], t)
    ensures Base(t) && AtPosition(t, path, n + 1) && SameKeys(s, t) && t.gc.graph == s.gc.graph
  {
    var called := CalledOn(s, path, n);
    t := ContinuedOn(called, path, n + 1);
    TwoSteps(s, Call(path[0]), Continue(path[0]));
    SameKeysOn(s, called, t);
  }

  lemma SameKeysOn(s: State, t: State, u: State)
    requires SameKeys(s, t) && SameKeys(t, u)
    ensures SameKeys(s, u)
  {
  }

  lemma CalledOn(s: State, path: seq<ResourceRef>, n: nat) returns (t: State)
    requires Base(s) && AtPosition(s, path, n) && Dependents(s.gc.graph, path[0])[n] != path[1]
    ensures Enabled(s, Call(path[0])) && t == ApplyCall(s, path[0])
    ensures Base(t) && Below(t, path) && SameKeys(s, t) && t.gc.graph == s.gc.graph
    ensures path[0] in t.gc.workers && t.gc.workers[path[0]] == Marking(n + 1, None)
  {
    t := PositionCalled(s, path, n);
    CallSparesLine(s, path, n);
  }

  lemma PositionCalled(s: State, path: seq<ResourceRef>, n: nat) returns (t: State)
    requires InvGraph(s) && InvStore(s) && AtPosition(s, path, n)
    ensures Enabled(s, Call(path[0])) && t == ApplyCall(s, path[0]) && t.gc.graph == s.gc.graph
    ensures path[0] in t.gc.workers && t.gc.workers[path[0]] == Marking(n + 1, None)
  {
    TargetIsKnown(s, path, n);
    CalledAt(s, path[0], Dependents(s.gc.graph, path[0])[n]);
    t := ApplyCall(s, path[0]);
  }

  lemma ContinuedOn(s: State, path: seq<ResourceRef>, n: nat) returns (t: State)
    requires Base(s) && Below(s, path) && path[0] in s.gc.workers && s.gc.workers[path[0]] == Marking(n, None)
    requires n < |Dependents(s.gc.graph, path[0])|
    requires forall d :: d in Dependents(s.gc.graph, path[0]) ==> d in s.api.store
    ensures t == ApplyContinue(s, path[0]) && Enabled(s, Continue(path[0]))
    ensures Base(t) && AtPosition(t, path, n) && SameKeys(s, t) && t.gc.graph == s.gc.graph
  {
    t := ApplyContinue(s, path[0]);
    ContinuedSpares(s, path);
    ContinuedAt(s, path, n);
  }

  lemma {:induction false} MarkOn(s: State, path: seq<ResourceRef>, n: nat, i: nat)
    returns (acts: seq<Action>, t: State)
    requires Base(s) && AtPosition(s, path, n) && n <= i
    requires var ds := Dependents(s.gc.graph, path[0]); i < |ds| && ds[i] == path[1] && NoDuplicates(ds)
    ensures CollectorLeads(s, acts, t) && Base(t) && AtPosition(t, path, i) && SameKeys(s, t)
    ensures t.gc.graph == s.gc.graph
    decreases i - n
  {
    if n == i {
      acts, t := [], s;
    } else {
      var u := StepOn(s, path, n);
      var rest: seq<Action>;
      rest, t := MarkOn(u, path, n + 1, i);
      acts := [Call(path[0]), Continue(path[0])] + rest;
      LeadsOn(s, [Call(path[0]), Continue(path[0])], u, rest, t);
    }
  }

  /** The call for the next one on the line makes it the head. */
  lemma NextIsHead(s: State, path: seq<ResourceRef>, n: nat) returns (t: State)
    requires Base(s) && AtPosition(s, path, n) && Dependents(s.gc.graph, path[0])[n] == path[1]
    ensures CollectorLeads(s, [Call(path[0])], t) && Heads(t, path[1..]) && SameKeys(s, t)
  {
    var a, d := path[0], path[1];
    TargetIsKnown(s, path, n);
    CalledAt(s, a, d);
    t := ApplyCall(s, a);
    CalledSpares(s, a, d);
    SparesSameKeys(s, t, a, d);
    NextIsIdle(s, path);
    NextIsDue(s, a, d);
    NextLine(s, t, path);
    OneStep(s, Call(a));
  }

  /** The head of the line is marked and due. */
  ghost predicate Heads(s: State, path: seq<ResourceRef>) {
    Base(s) && Line(s, path) && path[0] in s.api.store && Due(s, path[0], s.api.store[path[0]])
  }

  lemma OneStep(s: State, a: Action)
    requires IsCollector(a) && Enabled(s, a)
    ensures CollectorLeads(s, [a], Apply(s, a))
  {
    assert [a] + [] == [a];
    assert CollectorLeads(Apply(s, a), [], Apply(s, a));
    ThenCollector(s, a, [], Apply(s, a));
  }

  lemma NextIsIdle(s: State, path: seq<ResourceRef>)
    requires Aged(s.past.born, s.past.age) && Below(s, path)
    ensures Live(s, path[1]) && path[0] != path[1] && path[1] !in s.gc.workers
  {
    LineGetsYounger(s, path, 1);
    assert Standing(s, path[1]);
  }

  lemma NextIsDue(s: State, a: ResourceRef, d: ResourceRef)
    requires MarkingOf(s, a, d) && Live(s, d) && a != d && d !in s.gc.workers
    ensures var t := ApplyCall(s, a); d in t.api.store && Due(t, d, t.api.store[d])
  {
    CallMarkingApplied(s, a, d);
    MarkedIsDue(s, d);
    DueStaysBeside(ApiDelete(s, d).value, ApplyCall(s, a), d);
  }

  lemma NextLine(s: State, t: State, path: seq<ResourceRef>)
    requires InvBirth(s) && Below(s, path) && InvStore(t) && Spares(s, t, path[0], path[1])
    ensures Line(t, path[1..])
  {
    var a, d := path[0], path[1];
    LineGetsYounger(s, path, 1);
    assert Standing(s, d) && WellFormed(t, d, t.api.store[d]);
    StandingStays(s, t, a, d, d);
    if |path| > 2 {
      TailStays(s, t, path);
    }
  }

  lemma DueStaysBeside(s: State, t: State, d: ResourceRef)
    requires d in s.api.store && Due(s, d, s.api.store[d])
    requires t.api == s.api && t.gc.queue == s.gc.queue && d !in t.gc.workers
    ensures Due(t, d, t.api.store[d])
  {
    assert Pending(t, d) == Pending(s, d);
  }

  lemma TailStays(s: State, t: State, path: seq<ResourceRef>)
    requires InvBirth(s) && Below(s, path) && |path| > 2 && Spares(s, t, path[0], path[1])
    ensures Below(t, path[1..])
  {
    var tail := path[2..];
    assert path[1..][1..] == tail && Below(s, path[1..]);
    forall y | y in tail ensures y != path[0] && y != path[1] && y !in s.past.born[path[0]] {
      var i :| 0 <= i < |tail| && tail[i] == y;
      LineGetsYounger(s, path, i + 2);
      LineGetsYounger(s, path[1..], i + 1);
    }
    LineStays(s, t, path[0], path[1], tail);
    LineGetsYounger(s, path, 2);
    LineGetsYounger(s, path[1..], 1);
  }

  /** The last one on the line has lost the finalizer; whatever else was stored still is, with the same owners. */
  ghost predicate LastDropped(s: State, t: State, z: ResourceRef) {
    && !Holds(t, z) && (z in t.api.store ==> t.api.store[z].deleted)
    && forall y :: y != z && y in s.api.store ==> y in t.api.store && t.api.store[y].owners == s.api.store[y].owners
  }

  lemma LastDroppedFrom(s: State, t: State, u: State, z: ResourceRef)
    requires SameKeys(s, t) && LastDropped(t, u, z)
    ensures LastDropped(s, u, z)
  {
  }

  /** The cascade goes down the line and drops the finalizer of the last one. */
  lemma {:induction false} GoesDown(s: State, path: seq<ResourceRef>) returns (acts: seq<Action>, t: State)
    requires Heads(s, path)
    ensures CollectorLeads(s, acts, t) && LastDropped(s, t, path[|path| - 1])
    decreases |path|
  {
    if |path| == 1 {
      acts, t := LastGoes(s, path);
    } else {
      var first, u := NextTakesOver(s, path);
      var rest: seq<Action>;
      rest, t := GoesDown(u, path[1..]);
      LastDroppedFrom(s, u, t, path[|path| - 1]);
      LeadsOn(s, first, u, rest, t);
      acts := first + rest;
    }
  }

  lemma LastGoes(s: State, path: seq<ResourceRef>) returns (acts: seq<Action>, t: State)
    requires Heads(s, path) && |path| == 1
    ensures CollectorLeads(s, acts, t) && LastDropped(s, t, path[0])
  {
    NothingKnown(s, path[0]);
    acts, t := BacklogDelivered(s, path[0], s.api.store[path[0]]);
  }

  lemma NextTakesOver(s: State, path: seq<ResourceRef>) returns (acts: seq<Action>, t: State)
    requires Heads(s, path) && |path| > 1
    ensures CollectorLeads(s, acts, t) && Heads(t, path[1..]) && SameKeys(s, t)
  {
    var first, u := EventsDelivered(s, path, s.api.store[path[0]]);
    var second: seq<Action>;
    second, t := MarksNext(u, path);
    LeadsOn(s, first, u, second, t);
    SameKeysOn(s, u, t);
    acts := first + second;
  }

  /** All events about the head, one after the other. */
  lemma {:induction false} EventsDelivered(s: State, path: seq<ResourceRef>, obj: Resource)
    returns (acts: seq<Action>, t: State)
    requires Base(s) && Line(s, path) && Due(s, path[0], obj)
    ensures CollectorLeads(s, acts, t) && Heads(t, path) && SameKeys(s, t) && Pending(t, path[0]) == []
    decreases |Pending(s, path[0])|
  {
    if Pending(s, path[0]) == [] {
      acts, t := [], s;
    } else {
      var visited := HeadDelivered(s, path, obj);
      var rest: seq<Action>;
      rest, t := EventsDelivered(Apply(s, Deliver(path[0], visited)), path, obj);
      acts := [Deliver(path[0], visited)] + rest;
      ThenCollector(s, Deliver(path[0], visited), rest, t);
    }
  }

  lemma NothingKnown(s: State, a: ResourceRef)
    requires Base(s) && Standing(s, a) && forall d :: !Known(s, a, d)
    ensures Childless(s, a)
  {
    NonEmptyHasMember(Dependents(s.gc.graph, a));
    forall d ensures d !in Dependents(s.gc.graph, a) {
      KnownIsListed(s, a, d);
    }
  }

  /** A worker takes the head and marks its dependents up to the next one on the line. */
  lemma MarksNext(s: State, path: seq<ResourceRef>) returns (acts: seq<Action>, t: State)
    requires Heads(s, path) && |path| > 1 && Pending(s, path[0]) == []
    ensures CollectorLeads(s, acts, t) && Heads(t, path[1..]) && SameKeys(s, t)
  {
    HeadTaken(s, path, s.api.store[path[0]]);
    OneStep(s, Take(path[0]));
    var taken := Apply(s, Take(path[0]));
    var n := NextIsListed(taken, path);
    var calls, u := MarkOn(taken, path, 0, n);
    t := NextIsHead(u, path, n);
    LeadsOn(taken, calls, u, [Call(path[0])], t);
    LeadsOn(s, [Take(path[0])], taken, calls + [Call(path[0])], t);
    acts := [Take(path[0])] + (calls + [Call(path[0])]);
  }

  lemma NextIsListed(s: State, path: seq<ResourceRef>) returns (n: nat)
    requires InvGraph(s) && Below(s, path)
    ensures n < |Dependents(s.gc.graph, path[0])| && Dependents(s.gc.graph, path[0])[n] == path[1]
    ensures NoDuplicates(Dependents(s.gc.graph, path[0]))
  {
    KnownIsListed(s, path[0], path[1]);
    n :| n < |Dependents(s.gc.graph, path[0])| && Dependents(s.gc.graph, path[0])[n] == path[1];
  }

  // ---------------------------------------------------------------------------------------------
  // What comes too early or too late further down
  // ---------------------------------------------------------------------------------------------

  /** A stored dependent of `z` of which the collector has not heard, and `z` deleted past the collector. */
  ghost predicate OrphanedBy(s: State, z: ResourceRef, c: ResourceRef) {
    && c in s.api.store && z in s.api.store[c].owners
    && !Holds(s, z) && (z in s.api.store ==> s.api.store[z].deleted)
  }

  /**
   * The head of a line is deleted while a dependent of the last one is unheard of: the collector alone, by its own
   * marks, drops the finalizer above it.
   */
  lemma EarlyDeletionOrphansBelow(s: State, path: seq<ResourceRef>, c: ResourceRef)
    returns (acts: seq<Action>, t: State)
    requires Inv(s) && Line(s, path) && Live(s, path[0])
    requires c in s.api.store && path[|path| - 1] in s.api.store[c].owners && c != path[|path| - 1]
    requires forall y :: y in path ==> !SameKind(y, c)
    ensures ApiDelete(s, path[0]).Some? && CollectorLeads(ApiDelete(s, path[0]).value, acts, t)
    ensures OrphanedBy(t, path[|path| - 1], c)
  {
    MarkedHeads(s, path);
    acts, t := GoesDown(ApiDelete(s, path[0]).value, path);
  }

  lemma MarkedHeads(s: State, path: seq<ResourceRef>)
    requires Base(s) && Line(s, path) && Live(s, path[0])
    ensures Heads(ApiDelete(s, path[0]).value, path) && SameKeys(s, ApiDelete(s, path[0]).value)
  {
    var a := path[0];
    MarkedBase(s, a);
    MarkedIsDue(s, a);
    MarkedSpares(s, a);
    SparesSameKeys(s, ApiDelete(s, a).value, a, a);
    MarkedLine(s, ApiDelete(s, a).value, path);
  }

  lemma MarkedBase(s: State, a: ResourceRef)
    requires Base(s) && Live(s, a)
    ensures Base(ApiDelete(s, a).value)
  {
    MarkedGraph(s, a);
    MarkedStoreOk(s, a);
  }

  lemma MarkedLine(s: State, m: State, path: seq<ResourceRef>)
    requires InvBirth(s) && Line(s, path) && Spares(s, m, path[0], path[0]) && InvStore(m)
    requires m.gc.workers == s.gc.workers
    ensures Line(m, path)
  {
    var a := path[0];
    assert WellFormed(m, a, m.api.store[a]);
    StandingStays(s, m, a, a, a);
    if |path| > 1 {
      HeadSparesLine(s, m, path);
    }
  }

  lemma MarkedSpares(s: State, a: ResourceRef)
    requires Live(s, a) && WellFormed(s, a, s.api.store[a])
    ensures Spares(s, ApiDelete(s, a).value, a, a)
  {
    MarkedEvents(s, a);
    MarkedUndelivered(s, a);
    forall y | EventsOk(s, y) ensures EventsOk(ApiDelete(s, a).value, y) {
      MarkKeepsEventsOf(s, a, y);
    }
  }

  /** `t` is `s` with the new resource `c`, of which nobody has heard. */
  ghost predicate WithNew(s: State, t: State, c: ResourceRef) {
    && c !in s.past.born && c in t.api.store && Undelivered(t, c) && t.gc == s.gc && t.past.buried == s.past.buried
    && (forall y :: y != c ==> (y in t.past.born <==> y in s.past.born) && (y in t.api.store <==> y in s.api.store))
    && (forall y :: y != c && y in s.past.born ==> t.past.born[y] == s.past.born[y])
    && (forall y :: y != c && y in s.api.store ==> t.api.store[y] == s.api.store[y])
    && (forall y :: y != c ==> Pending(t, y) == Pending(s, y))
  }

  lemma StandingBesideNew(s: State, t: State, c: ResourceRef, y: ResourceRef)
    requires WithNew(s, t, c) && Standing(s, y)
    ensures Standing(t, y) && forall d :: Known(t, y, d) <==> Known(s, y, d)
  {
    assert y != c && forall d :: d != c ==> (Undelivered(t, d) <==> Undelivered(s, d));
  }

  lemma {:induction false} LineBesideNew(s: State, t: State, c: ResourceRef, path: seq<ResourceRef>)
    requires WithNew(s, t, c) && Line(s, path)
    ensures Line(t, path)
    decreases |path|
  {
    StandingBesideNew(s, t, c, path[0]);
    if |path| > 1 {
      assert Live(t, path[1]);
      LineBesideNew(s, t, c, path[1..]);
    }
  }

  lemma CreatedIsNew(s: State, c: ResourceRef, owners: seq<ResourceRef>, finalizers: seq<Finalizer>)
    requires EventsOk(s, c) && CreationOk(s, c, owners, finalizers)
    ensures WithNew(s, ApplyCreate(s, c, owners, finalizers), c)
  {
    var t := ApplyCreate(s, c, owners, finalizers);
    NonEmptyHasMember(Pending(s, c));
    assert Pending(t, c) == [Event(ADDED, Resource(owners, finalizers, false, 0))];
  }

  lemma CreatedBase(s: State, c: ResourceRef, owners: seq<ResourceRef>, finalizers: seq<Finalizer>)
    requires Base(s) && CreationOk(s, c, owners, finalizers) && WithNew(s, ApplyCreate(s, c, owners, finalizers), c)
    ensures Base(ApplyCreate(s, c, owners, finalizers))
  {
    CreatedBirth(s, c, owners, finalizers);
    CreatedStoreOk(s, c, owners, finalizers);
    NewGraphOk(s, ApplyCreate(s, c, owners, finalizers), c);
  }

  lemma CreatedBirth(s: State, c: ResourceRef, owners: seq<ResourceRef>, finalizers: seq<Finalizer>)
    requires InvBirth(s) && CreationOk(s, c, owners, finalizers)
    ensures InvBirth(ApplyCreate(s, c, owners, finalizers))
  {
    BornLater(s.past.born, s.past.age, c, owners);
  }

  lemma CreatedStoreOk(s: State, c: ResourceRef, owners: seq<ResourceRef>, finalizers: seq<Finalizer>)
    requires InvStore(s) && CreationOk(s, c, owners, finalizers)
    ensures InvStore(ApplyCreate(s, c, owners, finalizers))
  {
    var t := ApplyCreate(s, c, owners, finalizers);
    forall r | r in t.api.store ensures WellFormed(t, r, t.api.store[r]) {
      assert r != c ==> WellFormed(s, r, s.api.store[r]);
    }
  }

  lemma NewGraphOk(s: State, t: State, c: ResourceRef)
    requires InvGraph(s) && WithNew(s, t, c)
    ensures InvGraph(t)
  {
    assert forall x :: x != c ==> (Undelivered(t, x) <==> Undelivered(s, x));
  }

  /**
   * A worker is marking the dependents of a resource in deletion; something is created below one that is still live.
   * Its creation is overtaken by the cascade on its way down.
   */
  lemma LateCreationOrphansBelow(
      s: State, path: seq<ResourceRef>, n: nat, i: nat, c: ResourceRef, owners: seq<ResourceRef>,
      finalizers: seq<Finalizer>) returns (acts: seq<Action>, t: State)
    requires Inv(s) && AtPosition(s, path, n) && CreationOk(s, c, owners, finalizers)
    requires n <= i < |Dependents(s.gc.graph, path[0])| && Dependents(s.gc.graph, path[0])[i] == path[1]
    requires path[|path| - 1] in owners && forall y :: y in path ==> !SameKind(y, c)
    ensures CollectorLeads(ApplyCreate(s, c, owners, finalizers), acts, t)
    ensures OrphanedBy(t, path[|path| - 1], c)
  {
    var born := ApplyCreate(s, c, owners, finalizers);
    assert EventsOk(s, c);
    CreatedIsNew(s, c, owners, finalizers);
    CreatedBase(s, c, owners, finalizers);
    PositionBesideNew(s, born, c, path, n);
    NextIsListedAt(s, path[0]);
    acts, t := GoesDownFrom(born, path, n, i);
    assert c in born.api.store && born.api.store[c].owners == owners;
  }

  lemma NextIsListedAt(s: State, a: ResourceRef)
    requires InvGraph(s)
    ensures NoDuplicates(Dependents(s.gc.graph, a))
  {
  }

  lemma PositionBesideNew(s: State, t: State, c: ResourceRef, path: seq<ResourceRef>, n: nat)
    requires WithNew(s, t, c) && AtPosition(s, path, n)
    ensures AtPosition(t, path, n)
  {
    assert forall d :: d != c ==> (Undelivered(t, d) <==> Undelivered(s, d));
    LineBesideNew(s, t, c, path[1..]);
    assert Known(t, path[0], path[1]) && Live(t, path[1]);
  }

  lemma GoesDownFrom(s: State, path: seq<ResourceRef>, n: nat, i: nat) returns (acts: seq<Action>, t: State)
    requires Base(s) && AtPosition(s, path, n) && n <= i
    requires var ds := Dependents(s.gc.graph, path[0]); i < |ds| && ds[i] == path[1] && NoDuplicates(ds)
    ensures CollectorLeads(s, acts, t) && LastDropped(s, t, path[|path| - 1])
  {
    var calls, u := MarkOn(s, path, n, i);
    var v := NextIsHead(u, path, i);
    var rest: seq<Action>;
    rest, t := GoesDown(v, path[1..]);
    SameKeysOn(s, u, v);
    LastDroppedFrom(s, v, t, path[|path| - 1]);
    LeadsOn(u, [Call(path[0])], v, rest, t);
    LeadsOn(s, calls, u, [Call(path[0])] + rest, t);
    acts := calls + ([Call(path[0])] + rest);
  }
}
