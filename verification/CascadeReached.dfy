/** Runs that lead to the states other modules speak of. */
module CascadeReached {
  import opened Wrappers
  import opened Digraphs
  import opened Relationships
  import opened GraphRuns
  import opened Cascade
  import opened CascadeSafety
  import opened CascadePasses
  import opened CascadeProgress
  import opened CascadeStranded
  import opened CascadeCalm
  import opened CascadeRaces
  import opened CascadeEarly
  import opened CascadeBelow

  function OwnerOf(a: ResourceRef, o: ResourceRef): map<ResourceRef, seq<ResourceRef>> {
    map[a := [], o := [a]]
  }

  /** `a` owns `o`, both live and known. */
  lemma OwnerKnown(a: ResourceRef, o: ResourceRef) returns (s: State)
    requires a != o
    ensures Reached(s, true, true)
    ensures View(s) == Look(map[a := LIVE, o := NewResource([a])], map[], map[], map[], map[], OwnerOf(a, o), {})
  {
    EmptyReached(true, true);
    UnownedKeepsUniqueWalks(EMPTY, a);
    var s1 := Created(EMPTY, a, [], true, true);
    ReachedKeepsSingle(s1, o, a);
    assert View(s1).workers == s1.gc.workers;
    s := Created(s1, o, [a], true, true);
  }

  /** What the view says of the collector's knowledge. */
  lemma KnownByView(s: State, y: ResourceRef, d: ResourceRef)
    ensures Known(s, y, d) <==>
      && d in s.past.born && y in s.past.born[d] && d !in s.past.buried
      && !(d in View(s).pending && View(s).pending[d][0].kind.ADDED?)
  {
    PendingIs(s);
  }

  lemma StandingByView(s: State, y: ResourceRef, single: bool, calm: bool)
    requires Reached(s, single, calm) && y in s.api.store && y !in View(s).workers
    requires forall d :: Known(s, y, d) ==> d in s.api.store
    ensures Standing(s, y)
  {
    ReachedIsInv(s, single, calm);
    assert WellFormed(s, y, s.api.store[y]) && EventsOk(s, y);
  }

  function UnheardBelow(a: ResourceRef, o: ResourceRef, c: ResourceRef): Look {
    Look(map[a := LIVE, o := NewResource([a]), c := NewResource([o])], map[c := [Event(ADDED, NewResource([o]))]],
         map[], map[], map[], map[a := [], o := [a], c := [o]], {})
  }

  lemma UnheardBelowIsReached(a: ResourceRef, o: ResourceRef, c: ResourceRef) returns (s: State)
    requires a != o && a != c && o != c
    ensures Reached(s, true, true) && View(s) == UnheardBelow(a, o, c)
  {
    var s1 := OwnerKnown(a, o);
    ReachedKeepsSingle(s1, c, o);
    assert View(s1).workers == s1.gc.workers;
    s := CreatedUnheard(s1, c, [o], true, true);
  }

  /** A line of two with a dependent below it that the collector has not heard of. */
  lemma LineIsReached(a: ResourceRef, o: ResourceRef, c: ResourceRef) returns (s: State)
    requires a != o && !SameKind(a, c) && !SameKind(o, c)
    ensures Reached(s, true, true) && Inv(s) && Line(s, [a, o]) && Live(s, a)
    ensures c in s.api.store && o in s.api.store[c].owners && Undelivered(s, c)
  {
    s := UnheardBelowIsReached(a, o, c);
    LineByView(s, a, o, c);
    ReachedIsInv(s, true, true);
  }

  lemma LineByView(s: State, a: ResourceRef, o: ResourceRef, c: ResourceRef)
    requires Reached(s, true, true) && a != o && a != c && o != c && View(s) == UnheardBelow(a, o, c)
    ensures Line(s, [a, o]) && Live(s, a)
    ensures c in s.api.store && o in s.api.store[c].owners && Undelivered(s, c)
  {
    PendingIs(s);
    assert s.api.store == View(s).store && s.past.born == View(s).born && s.past.buried == View(s).buried;
    LineOfTwo(s, a, o);
  }

  lemma LineOfTwo(s: State, a: ResourceRef, o: ResourceRef)
    requires Reached(s, true, true) && a != o && View(s).workers == map[] && s.past.buried == {}
    requires a in s.api.store && o in s.api.store && !s.api.store[o].deleted && o !in View(s).pending
    requires o in s.past.born && a in s.past.born[o]
    requires forall d :: d in s.past.born && a in s.past.born[d] ==> d == o
    requires forall d :: d in s.past.born && o in s.past.born[d] ==> Undelivered(s, d)
    ensures Line(s, [a, o])
  {
    StandingByView(s, a, true, true);
    StandingByView(s, o, true, true);
    KnownByView(s, a, o);
    assert [a, o][1..] == [o];
    assert Line(s, [o]);
  }

  /** A worker of `a` about to mark its dependent `o`. */
  lemma PositionIsReached(a: ResourceRef, o: ResourceRef) returns (s: State)
    requires a != o
    ensures Reached(s, true, true) && Inv(s) && AtPosition(s, [a, o], 0)
    ensures View(s) == Look(map[a := DELETED_OWNER, o := NewResource([a])], map[], map[],
                            map[a := Marking(0, Some(o))], map[], OwnerOf(a, o), {})
  {
    var s1 := OwnerKnown(a, o);
    MarkedLive();
    var s2 := MarkedAndQueued(s1, a, true, true);
    assert View(s2).store == map[a := DELETED_OWNER, o := NewResource([a])];
    assert OnlyDependent(s2, a, o);
    s := TakenUp(s2, a, true, true);
    ReachedIsInv(s, true, true);
    PendingIs(s);
    BelowOfTwo(s, a, o);
    DependentsAre(s, a);
    FirstIsListed(s, a, o);
  }

  lemma BelowOfTwo(s: State, a: ResourceRef, o: ResourceRef)
    requires Reached(s, true, true) && a != o && o !in View(s).workers && s.past.buried == {}
    requires o in s.api.store && !s.api.store[o].deleted && o !in View(s).pending
    requires o in s.past.born && a in s.past.born[o]
    requires forall d :: d in s.past.born ==> o !in s.past.born[d]
    ensures Below(s, [a, o])
  {
    StandingByView(s, o, true, true);
    KnownByView(s, a, o);
    assert [a, o][1..] == [o];
    assert Line(s, [o]);
  }

  lemma FirstIsListed(s: State, a: ResourceRef, o: ResourceRef)
    requires forall c :: c in Dependents(s.gc.graph, a) <==> c == o
    ensures Dependents(s.gc.graph, a) != [] && Dependents(s.gc.graph, a)[0] == o
  {
    var ds := Dependents(s.gc.graph, a);
    assert o in ds;
    assert ds[0] in ds;
  }

  /** The state of `PositionIsReached` is one from which a creation below `o` comes too late. */
  lemma LateCreationIsReached(a: ResourceRef, o: ResourceRef, c: ResourceRef) returns (s: State)
    requires a != o && !SameKind(a, c) && !SameKind(o, c)
    ensures Reached(s, true, true) && Inv(s) && AtPosition(s, [a, o], 0) && CreationOk(s, c, [o], [])
    ensures Dependents(s.gc.graph, a) != [] && Dependents(s.gc.graph, a)[0] == o
  {
    s := PositionIsReached(a, o);
    ReachedKeepsSingle(s, c, o);
  }

  /**
   * The list of dependents grows under the loop that walks it: a dependent created and heard of after the worker has
   * started stands last in the list when the worker looks again.
   */
  lemma ListGrowsUnderLoop(a: ResourceRef, o: ResourceRef, d: ResourceRef) returns (s: State, t: State)
    requires a != o && a != d && o != d
    ensures Reached(s, true, true) && Reached(t, true, true)
    ensures View(s).workers == View(t).workers == map[a := Marking(0, Some(o))]
    ensures Dependents(s.gc.graph, a) == [o] && Dependents(t.gc.graph, a) == [o, d]
    ensures View(t).pending == map[] && View(t).handlers == map[]
    ensures o in t.api.store && t.api.store[o] == NewResource([a])
  {
    s := PositionIsReached(a, o);
    OnlyListed(s, a, o);
    DeletedOwnerKeepsOut(s, a);
    ReachedKeepsSingle(s, d, a);
    t := HeardInLoop(s, a, d);
  }

  lemma OnlyListed(s: State, a: ResourceRef, o: ResourceRef)
    requires InvGraph(s) && DuplicateFree(s.gc.graph) && View(s).pending == map[]
    requires s.past.born == OwnerOf(a, o) && s.past.buried == {} && a != o
    ensures Dependents(s.gc.graph, a) == [o]
  {
    DependentsAre(s, a);
    var ds := Dependents(s.gc.graph, a);
    assert a in s.past.born[o] && o in ds;
    assert ds[0] in ds && ds[|ds| - 1] in ds;
  }

  lemma DeletedOwnerKeepsOut(s: State, a: ResourceRef)
    requires a in s.api.store && s.api.store[a] == DELETED_OWNER && a in s.gc.workers && s.gc.workers[a].Marking?
    ensures !Spending(s, a)
  {
    assert CascadeDeletion == DELETED_OWNER.finalizers[0];
  }

  lemma HeardInLoop(s: State, a: ResourceRef, d: ResourceRef) returns (t: State)
    requires Reached(s, true, true) && View(s).pending == map[] && View(s).handlers == map[]
    requires d !in s.past.born && d !in s.api.store && a in s.api.store && !Spending(s, a)
    requires UniqueWalks(Ownership(s.past.born[d := [a]])) && d !in Dependents(s.gc.graph, a)
    ensures Reached(t, true, true) && Dependents(t.gc.graph, a) == Dependents(s.gc.graph, a) + [d]
    ensures View(t).pending == map[] && View(t).handlers == map[]
    ensures View(t).workers == View(s).workers && t.api.store == s.api.store[d := NewResource([a])]
  {
    var unheard := CreatedUnheard(s, d, [a], true, true);
    assert unheard.gc.handlers == View(unheard).handlers == map[];
    t := Delivered(unheard, d, Event(ADDED, NewResource([a])), true, true);
    assert View(t).pending == map[];
    assert t.api.store == View(t).store == s.api.store[d := NewResource([a])];
    ReachedIsInv(unheard, true, true);
    HeardStandsLast(unheard, t, d, a);
  }

  lemma HeardStandsLast(s: State, t: State, d: ResourceRef, a: ResourceRef)
    requires exists visited :: Enabled(s, Deliver(d, visited)) && t == Apply(s, Deliver(d, visited))
    requires View(s).pending == map[d := [Event(ADDED, NewResource([a]))]] && Inv(s)
    requires d !in Dependents(s.gc.graph, a)
    ensures Dependents(t.gc.graph, a) == Dependents(s.gc.graph, a) + [d]
  {
    var visited :| Enabled(s, Deliver(d, visited)) && t == Apply(s, Deliver(d, visited));
    PendingIs(s);
    ProtocolPasses(s, Deliver(d, visited));
    DeliveredLists(s, d, visited, a);
  }

  /** The loop does skip: two dependents, the first one marked, and the event of that on its way. */
  lemma SkipIsReached(a: ResourceRef, o: ResourceRef, d: ResourceRef) returns (s: State, visited: set<ResourceRef>)
    requires a != o && a != d && o != d
    ensures Reached(s, true, true) && Dependents(s.gc.graph, a) == [o, d]
    ensures Enabled(s, Deliver(o, visited)) && HearsOfMarked(s, Deliver(o, visited), a, 0)
  {
    var _, t := ListGrowsUnderLoop(a, o, d);
    Extend(t, Call(a), true, true);
    s := Apply(t, Call(a));
    MarkedByLoop(t, a, o, {});
    ReachedIsInv(s, true, true);
    visited := VisitedExists(s, o);
    MarkedByLoop(t, a, o, visited);
  }

  lemma MarkedByLoop(s: State, a: ResourceRef, o: ResourceRef, visited: set<ResourceRef>)
    requires a in s.gc.workers && s.gc.workers[a] == Marking(0, Some(o)) && View(s).pending == map[] && a != o
    requires o in s.api.store && s.api.store[o] == NewResource([a]) && 1 < |Dependents(s.gc.graph, a)|
    requires Dependents(s.gc.graph, a)[0] == o
    ensures var t := Apply(s, Call(a));
      && t.gc.graph == s.gc.graph
      && Pending(t, o) == [Event(MODIFIED, MarkedAs(NewResource([a])))]
      && HearsOfMarked(t, Deliver(o, visited), a, 0)
  {
    PendingIs(s);
    var t, obj := Apply(s, Call(a)), MarkedAs(NewResource([a]));
    assert Pending(t, o) == Pending(s, o) + [Event(MODIFIED, obj)];
    assert t.gc.workers[a] == Marking(1, None) && obj.owners == [a];
    assert InLoop(t, a);
  }
}
