/**
 * What an unsound step leads to: a worker that has not heard of a dependent, a creation below an owner that is past
 * the collector, or an update that leaves it out lets the finalizer go above a stored dependent. And how the code
 * gets there.
 */
module CascadeEarly {
  import opened Wrappers
  import opened Digraphs
  import opened Relationships
  import opened GraphRuns
  import opened Cascade
  import opened CascadeSafety
  import opened CascadeTheorems
  import opened CascadeCalm
  import opened CascadeRaces
  import opened CascadeRest

  lemma ThenCollector(s: State, a: Action, acts: seq<Action>, t: State)
    requires IsCollector(a) && Enabled(s, a) && CollectorLeads(Apply(s, a), acts, t)
    ensures CollectorLeads(s, [a] + acts, t)
  {
    assert ([a] + acts)[1..] == acts;
  }

  // ---------------------------------------------------------------------------------------------
  // A take that has not heard of a dependent
  // ---------------------------------------------------------------------------------------------

  /**
   * A worker finds no dependents although one is stored. If the other finalizers it has seen are still there, its
   * update takes `cascade_deletion` off above that dependent.
   */
  lemma UnsoundTakeOrphans(s: State, k: ResourceRef, c: ResourceRef)
    requires InvStore(s) && InvGraph(s) && InvCopies(s) && InvEvents(s) && Enabled(s, Take(k)) && k in s.api.store
    requires Dependents(s.gc.graph, k) == [] && c in s.api.store && k in s.api.store[c].owners && c != k
    requires AllIn(Popped(s.gc.queue[k]).finalizers, s.api.store[k].finalizers)
    ensures !Sound(s, Take(k)) && Enabled(ApplyTake(s, k), Call(k))
    ensures var t := ApplyCall(ApplyTake(s, k), k);
      !Holds(t, k) && c in t.api.store && k in t.api.store[c].owners
  {
    UnlistedIsUnheard(s, k, c);
    assert Stamped(s, k, s.gc.queue[k]) && WellFormed(s, k, s.api.store[k]);
    TakenCopyOrphans(s, k, c);
  }

  /** The copy without its last finalizer is accepted, and the dependent stays. */
  lemma TakenCopyOrphans(s: State, k: ResourceRef, c: ResourceRef)
    requires k in s.gc.queue && k !in s.gc.workers && Dependents(s.gc.graph, k) == []
    requires k in s.api.store && WellFormed(s, k, s.api.store[k]) && Stamped(s, k, s.gc.queue[k])
    requires c in s.api.store && k in s.api.store[c].owners && c != k
    requires AllIn(Popped(s.gc.queue[k]).finalizers, s.api.store[k].finalizers)
    ensures Enabled(ApplyTake(s, k), Call(k))
    ensures var t := ApplyCall(ApplyTake(s, k), k);
      !Holds(t, k) && c in t.api.store && k in t.api.store[c].owners
  {
    var copy, body := s.gc.queue[k], Popped(s.gc.queue[k]);
    assert copy.finalizers == body.finalizers + [CascadeDeletion];
    SentIsPop(s, k, body);
    TakenBeside(s, k);
    AcceptedDropOrphans(ApplyTake(s, k), k, c, body);
  }

  lemma AcceptedDropOrphans(s: State, k: ResourceRef, c: ResourceRef, body: Resource)
    requires k in s.gc.workers && s.gc.workers[k] == Dropping(body) && ApiUpdate(s, k, body).Some?
    requires CascadeDeletion !in body.finalizers && c in s.api.store && k in s.api.store[c].owners && c != k
    ensures var t := ApplyCall(s, k);
      !Holds(t, k) && c in t.api.store && k in t.api.store[c].owners
  {
    UpdateStores(s, k, body);
  }

  lemma UnlistedIsUnheard(s: State, k: ResourceRef, c: ResourceRef)
    requires InvStore(s) && InvGraph(s) && EventsOk(s, c) && Dependents(s.gc.graph, k) == []
    requires c in s.api.store && k in s.api.store[c].owners
    ensures c in s.past.born && k in s.past.born[c] && Undelivered(s, c)
  {
    assert WellFormed(s, c, s.api.store[c]);
    assert (k, c) !in EdgesOf(s.gc.graph);
  }

  lemma TakenBeside(s: State, k: ResourceRef)
    requires k in s.gc.queue && Dependents(s.gc.graph, k) == []
    ensures ApplyTake(s, k).api == s.api && k in ApplyTake(s, k).gc.workers
    ensures ApplyTake(s, k).gc.workers[k] == Dropping(Popped(s.gc.queue[k]))
    ensures forall body :: ApiUpdate(ApplyTake(s, k), k, body).Some? <==> ApiUpdate(s, k, body).Some?
  {
  }

  // ---------------------------------------------------------------------------------------------
  // A deletion that overtakes a creation event
  // ---------------------------------------------------------------------------------------------

  /** Nothing else of the kind of `a` is on its way or being handled, so its own events come next. */
  ghost predicate OwnTurn(s: State, a: ResourceRef) {
    forall x :: SameKind(x, a) && x != a ==> Pending(s, x) == [] && x !in s.gc.handlers
  }

  /** `a` is live, and of what it owns the collector has heard nothing; the creation of `c` is on its way. */
  ghost predicate Unheard(s: State, a: ResourceRef, c: ResourceRef) {
    && a in s.api.store && !s.api.store[a].deleted && Dependents(s.gc.graph, a) == []
    && c in s.api.store && a in s.api.store[c].owners && Undelivered(s, c)
  }

  /** The collector knows of no dependent of `a`, and its events can be delivered. */
  ghost predicate Childless(s: State, a: ResourceRef) {
    && InvBirth(s) && InvGraph(s) && EventsOk(s, a) && Dependents(s.gc.graph, a) == []
  }

  /** `a` is marked; the collector is to get `obj` last of all, or holds it in its queue. */
  ghost predicate Due(s: State, a: ResourceRef, obj: Resource) {
    && a in s.api.store && s.api.store[a] == obj && InDeletion(obj) && a !in s.gc.workers
    && if Pending(s, a) == [] then a in s.gc.queue && s.gc.queue[a] == obj
       else Pending(s, a)[|Pending(s, a)| - 1].obj == obj
  }

  lemma MarkedEvents(s: State, a: ResourceRef)
    requires a in s.api.store && !s.api.store[a].deleted
    ensures var t := ApiDelete(s, a).value;
      && a in t.api.store && t.gc == s.gc && t.past == s.past && t.api.store == s.api.store[a := t.api.store[a]]
      && Pending(t, a) == Pending(s, a) + [Event(MODIFIED, t.api.store[a])]
      && (forall x :: x != a ==> Pending(t, x) == Pending(s, x))
  {
  }

  lemma MarkedEventsOk(s: State, a: ResourceRef)
    requires EventsOk(s, a) && a in s.api.store && !s.api.store[a].deleted && WellFormed(s, a, s.api.store[a])
    ensures EventsOk(ApiDelete(s, a).value, a)
  {
    MarkedEvents(s, a);
  }

  lemma SameGraph(s: State, t: State)
    requires InvGraph(s) && t.gc.graph == s.gc.graph && t.past == s.past
    requires forall x :: Undelivered(t, x) <==> Undelivered(s, x)
    ensures InvGraph(t)
  {
  }

  lemma SameUndelivered(s: State, t: State)
    requires t.api.events == s.api.events
    ensures forall x :: Undelivered(t, x) <==> Undelivered(s, x)
  {
  }

  lemma MarkedUndelivered(s: State, a: ResourceRef)
    requires a in s.api.store && !s.api.store[a].deleted
    ensures forall x :: Undelivered(ApiDelete(s, a).value, x) <==> Undelivered(s, x)
  {
    MarkedEvents(s, a);
  }

  lemma MarkedGraph(s: State, a: ResourceRef)
    requires InvBirth(s) && InvGraph(s) && a in s.api.store && !s.api.store[a].deleted
    ensures InvBirth(ApiDelete(s, a).value) && InvGraph(ApiDelete(s, a).value)
  {
    MarkedUndelivered(s, a);
    SameGraph(s, ApiDelete(s, a).value);
  }

  lemma MarkedIsDue(s: State, a: ResourceRef)
    requires a in s.api.store && !s.api.store[a].deleted && a !in s.gc.workers
    ensures var t := ApiDelete(s, a).value; a in t.api.store && Due(t, a, t.api.store[a])
  {
  }

  lemma MarkedIsChildless(s: State, a: ResourceRef)
    requires InvBirth(s) && InvGraph(s) && EventsOk(s, a) && a in s.api.store && WellFormed(s, a, s.api.store[a])
    requires !s.api.store[a].deleted && Dependents(s.gc.graph, a) == []
    ensures Childless(ApiDelete(s, a).value, a)
  {
    MarkedEventsOk(s, a);
    MarkedGraph(s, a);
  }

  /** One event about `a` delivered. */
  lemma DeliveredOne(s: State, a: ResourceRef, obj: Resource) returns (visited: set<ResourceRef>)
    requires Pending(s, a) != [] && Childless(s, a) && Due(s, a, obj)
    ensures Enabled(s, Deliver(a, visited))
    ensures var t := Apply(s, Deliver(a, visited));
      Childless(t, a) && Due(t, a, obj) && t.api.store == s.api.store && |Pending(t, a)| == |Pending(s, a)| - 1
  {
    HeadFacts(s, a);
    visited := VisitedExists(s, a);
    DeliveryApplied(s, a, visited);
    ChildlessStays(s, a, visited);
    DueStays(s, a, Touch(DeliveredGraph(s, a), visited), obj);
  }

  lemma DueStays(s: State, a: ResourceRef, g: Adjacency, obj: Resource)
    requires Pending(s, a) != [] && Due(s, a, obj)
    ensures var t := Enqueue(Taken(s, a).(gc := s.gc.(graph := g)), a, Pending(s, a)[0].obj);
      Due(t, a, obj) && t.api.store == s.api.store && |Pending(t, a)| == |Pending(s, a)| - 1
  {
    assert Pending(Taken(s, a), a) == Pending(s, a)[1..];
  }

  lemma ChildlessStays(s: State, a: ResourceRef, visited: set<ResourceRef>)
    requires Pending(s, a) != [] && !Pending(s, a)[0].kind.DELETED? && Childless(s, a)
    ensures var t := Taken(s, a).(gc := s.gc.(graph := Touch(DeliveredGraph(s, a), visited)));
      Childless(Enqueue(t, a, Pending(s, a)[0].obj), a)
  {
    var t := Taken(s, a).(gc := s.gc.(graph := Touch(DeliveredGraph(s, a), visited)));
    HeadFacts(s, a);
    GraphStays(s, t, a, visited);
    StillNoDependents(s, t, a);
    EventsStay(s, t, a);
    EnqueuedIsChildless(t, a, Pending(s, a)[0].obj);
  }

  lemma EventsStay(s: State, t: State, a: ResourceRef)
    requires Pending(s, a) != [] && !Pending(s, a)[0].kind.DELETED? && EventsOk(s, a)
    requires t == Taken(s, a).(gc := s.gc.(graph := t.gc.graph))
    ensures EventsOk(t, a)
  {
    TakeKeepsEventsOf(s, t, a, a);
  }

  lemma EdgesStay(s: State, a: ResourceRef, visited: set<ResourceRef>)
    requires Pending(s, a) != [] && !Pending(s, a)[0].kind.DELETED? && Aged(s.past.born, s.past.age)
    requires InvGraph(s) && EventsOk(s, a)
    ensures DuplicateFree(Touch(DeliveredGraph(s, a), visited))
    ensures forall o, c :: (o, c) in EdgesOf(Touch(DeliveredGraph(s, a), visited)) <==>
      if c == a then o in s.past.born[a] else (o, c) in EdgesOf(s.gc.graph)
  {
    HeadFacts(s, a);
    DeliveryEdges(s, a);
    TouchKeepsEdges(DeliveredGraph(s, a), visited);
  }

  lemma GraphStays(s: State, t: State, a: ResourceRef, visited: set<ResourceRef>)
    requires Pending(s, a) != [] && !Pending(s, a)[0].kind.DELETED?
    requires InvBirth(s) && InvGraph(s) && EventsOk(s, a)
    requires t == Taken(s, a).(gc := s.gc.(graph := Touch(DeliveredGraph(s, a), visited)))
    ensures InvBirth(t) && InvGraph(t)
    ensures forall o, c :: (o, c) in EdgesOf(t.gc.graph) <==>
      if c == a then o in s.past.born[a] else (o, c) in EdgesOf(s.gc.graph)
  {
    HeadFacts(s, a);
    EdgesStay(s, a, visited);
    TakenIsUndelivered(s, t, a);
    SettledEdges(s, t, a);
  }

  lemma TakenIsUndelivered(s: State, t: State, a: ResourceRef)
    requires Pending(s, a) != [] && EventsOk(s, a)
    requires t == Taken(s, a).(gc := s.gc.(graph := t.gc.graph))
    ensures !Undelivered(t, a) && forall x :: x != a ==> Pending(t, x) == Pending(s, x)
  {
    assert Pending(t, a) == Pending(s, a)[1..];
  }

  lemma StillNoDependents(s: State, t: State, a: ResourceRef)
    requires Aged(s.past.born, s.past.age) && a in s.past.born && Dependents(s.gc.graph, a) == []
    requires forall o, c :: (o, c) in EdgesOf(t.gc.graph) <==>
      if c == a then o in s.past.born[a] else (o, c) in EdgesOf(s.gc.graph)
    ensures Dependents(t.gc.graph, a) == []
  {
    NonEmptyHasMember(Dependents(t.gc.graph, a));
    forall x ensures x !in Dependents(t.gc.graph, a) {
      assert x in Dependents(t.gc.graph, a) <==> (a, x) in EdgesOf(t.gc.graph);
      assert (a, x) !in EdgesOf(s.gc.graph);
    }
  }

  lemma EnqueuedEvents(s: State, a: ResourceRef, obj: Resource)
    requires InvBirth(s) && EventsOk(s, a)
    ensures InvBirth(Enqueue(s, a, obj)) && EventsOk(Enqueue(s, a, obj), a)
    ensures Enqueue(s, a, obj).api == s.api && Enqueue(s, a, obj).past == s.past
    ensures Enqueue(s, a, obj).gc.graph == s.gc.graph
  {
  }

  /** The queue has no part in the graph or the events. */
  lemma EnqueuedIsChildless(s: State, a: ResourceRef, obj: Resource)
    requires Childless(s, a)
    ensures Childless(Enqueue(s, a, obj), a)
  {
    EnqueuedEvents(s, a, obj);
    SameUndelivered(s, Enqueue(s, a, obj));
    SameGraph(s, Enqueue(s, a, obj));
  }

  /** A worker takes `a` and drops its finalizer. */
  lemma Dropped(s: State, a: ResourceRef, obj: Resource) returns (t: State)
    requires Dependents(s.gc.graph, a) == [] && Due(s, a, obj) && Pending(s, a) == [] && WellFormed(s, a, obj)
    ensures CollectorLeads(s, [Take(a), Call(a)], t)
    ensures DroppedFrom(s, t, a)
  {
    var taken := ApplyTake(s, a);
    assert taken.api == s.api && taken.past == s.past && taken.gc.workers[a] == Dropping(Popped(obj));
    t := DroppedNow(taken, a, obj);
    assert [Take(a)] + [Call(a)] == [Take(a), Call(a)];
    ThenCollector(s, Take(a), [Call(a)], t);
  }

  /** The deletion of `a` has gone past the collector, and everything else is stored as it was. */
  ghost predicate DroppedFrom(s: State, t: State, a: ResourceRef) {
    && !Holds(t, a) && (a in t.api.store ==> t.api.store[a].deleted)
    && forall x :: x != a && x in s.api.store ==> x in t.api.store && t.api.store[x] == s.api.store[x]
  }

  lemma DroppedNow(s: State, a: ResourceRef, obj: Resource) returns (t: State)
    requires a in s.gc.workers && s.gc.workers[a] == Dropping(Popped(obj)) && a in s.api.store && s.api.store[a] == obj
    requires WellFormed(s, a, obj) && InDeletion(obj)
    ensures CollectorLeads(s, [Call(a)], t)
    ensures DroppedFrom(s, t, a)
  {
    t := Apply(s, Call(a));
    assert |Popped(obj).finalizers| < |obj.finalizers|;
    assert ApiUpdate(s, a, Popped(obj)) == Some(StoreOrRemove(s, a, Renewed(Popped(obj))));
    assert CollectorLeads(t, [], t);
    assert [Call(a)] + [] == [Call(a)];
    ThenCollector(s, Call(a), [], t);
  }

  /** The events about `a` that came before the mark are delivered one after the other. */
  lemma {:induction false} BacklogDelivered(s: State, a: ResourceRef, obj: Resource)
    returns (acts: seq<Action>, t: State)
    requires Childless(s, a) && Due(s, a, obj) && WellFormed(s, a, obj)
    ensures CollectorLeads(s, acts, t)
    ensures DroppedFrom(s, t, a)
    decreases |Pending(s, a)|
  {
    if Pending(s, a) == [] {
      t := Dropped(s, a, obj);
      acts := [Take(a), Call(a)];
    } else {
      var visited := DeliveredOne(s, a, obj);
      var rest: seq<Action>;
      rest, t := BacklogDelivered(Apply(s, Deliver(a, visited)), a, obj);
      acts := [Deliver(a, visited)] + rest;
      ThenCollector(s, Deliver(a, visited), rest, t);
    }
  }

  /**
   * Whenever `a` is deleted before the collector has heard of any of its dependents, the collector alone drops the
   * finalizer from above every stored one.
   */
  lemma EarlyDeletionOrphans(s: State, a: ResourceRef, c: ResourceRef) returns (acts: seq<Action>, t: State)
    requires Inv(s) && Unheard(s, a, c) && OwnTurn(s, a)
    ensures ApiDelete(s, a).Some? && Holds(ApiDelete(s, a).value, a) && CollectorLeads(ApiDelete(s, a).value, acts, t)
    ensures DroppedFrom(ApiDelete(s, a).value, t, a) && c in t.api.store && a in t.api.store[c].owners
  {
    assert EventsOk(s, a) && WellFormed(s, a, s.api.store[a]) && WellFormed(s, c, s.api.store[c]);
    assert a in s.gc.workers ==> WorkerOk(s, a, s.gc.workers[a]);
    acts, t := MarkedAndDropped(s, a);
    MarkedEvents(s, a);
  }

  lemma MarkedAndDropped(s: State, a: ResourceRef) returns (acts: seq<Action>, t: State)
    requires InvBirth(s) && InvGraph(s) && EventsOk(s, a) && a !in s.gc.workers
    requires a in s.api.store && !s.api.store[a].deleted && WellFormed(s, a, s.api.store[a])
    requires Dependents(s.gc.graph, a) == []
    ensures ApiDelete(s, a).Some? && Holds(ApiDelete(s, a).value, a) && CollectorLeads(ApiDelete(s, a).value, acts, t)
    ensures DroppedFrom(ApiDelete(s, a).value, t, a)
  {
    MarkedIsDue(s, a);
    MarkedIsChildless(s, a);
    MarkedIsWellFormed(s, a);
    var marked := ApiDelete(s, a).value;
    acts, t := BacklogDelivered(marked, a, marked.api.store[a]);
  }

  lemma MarkedIsWellFormed(s: State, a: ResourceRef)
    requires a in s.api.store && !s.api.store[a].deleted && WellFormed(s, a, s.api.store[a])
    ensures var t := ApiDelete(s, a).value; a in t.api.store && WellFormed(t, a, t.api.store[a]) && Holds(t, a)
  {
    var obj := ApiDelete(s, a).value.api.store[a];
    assert obj.finalizers[..|obj.finalizers| - 1] == s.api.store[a].finalizers;
    assert obj.finalizers[|obj.finalizers| - 1] == CascadeDeletion;
  }

  /** Two resources of different kinds suffice to get there. */
  lemma UnheardIsReached(a: ResourceRef, c: ResourceRef) returns (s: State)
    requires !SameKind(a, c)
    ensures Reached(s, true, true) && Inv(s) && Unheard(s, a, c) && OwnTurn(s, a)
  {
    EmptyReached(true, true);
    UnownedKeepsUniqueWalks(EMPTY, a);
    var s1 := Created(EMPTY, a, [], true, true);
    assert View(s1) == Look(map[a := LIVE], map[], map[], map[], map[], map[a := []], {});
    s := DependentCreated(s1, a, c);
    ReachedIsInv(s, true, true);
    OnlyDependentUnheard(s, a, c);
  }

  lemma OnlyDependentUnheard(s: State, a: ResourceRef, c: ResourceRef)
    requires InvGraph(s) && !SameKind(a, c) && View(s) == JustCreated(a, c)
    ensures Unheard(s, a, c) && OwnTurn(s, a)
  {
    PendingIs(s);
    NonEmptyHasMember(Dependents(s.gc.graph, a));
    forall x ensures x !in Dependents(s.gc.graph, a) {
      assert x in Dependents(s.gc.graph, a) <==> (a, x) in EdgesOf(s.gc.graph);
    }
  }

  function JustCreated(a: ResourceRef, c: ResourceRef): Look {
    var obj := NewResource([a]);
    Look(map[a := LIVE, c := obj], map[c := [Event(ADDED, obj)]], map[], map[], map[], map[a := [], c := [a]], {})
  }

  lemma DependentCreated(s: State, a: ResourceRef, c: ResourceRef) returns (t: State)
    requires a != c && Reached(s, true, true)
    requires View(s) == Look(map[a := LIVE], map[], map[], map[], map[], map[a := []], {})
    ensures Reached(t, true, true) && View(t) == JustCreated(a, c)
  {
    ReachedKeepsSingle(s, c, a);
    assert View(s).workers == s.gc.workers;
    t := CreatedUnheard(s, c, [a], true, true);
  }

  lemma ReachedKeepsSingle(s: State, r: ResourceRef, o: ResourceRef)
    requires Reached(s, true, true) && r !in s.past.born && o in s.api.store
    ensures UniqueWalks(Ownership(s.past.born[r := [o]]))
  {
    ReachedIsInv(s, true, true);
    SingleOwnerKeepsUniqueWalks(s, r, [o]);
  }

  // ---------------------------------------------------------------------------------------------
  // A creation below a deletion
  // ---------------------------------------------------------------------------------------------

  /** The worker has found no dependents and is about to drop the finalizer; a creation now comes too late. */
  lemma LateCreationOrphans(
      s: State, a: ResourceRef, c: ResourceRef, owners: seq<ResourceRef>, finalizers: seq<Finalizer>)
    requires InvStore(s) && InvWorkers(s) && Holds(s, a) && a in s.gc.workers && s.gc.workers[a].Dropping?
    requires ApiUpdate(s, a, s.gc.workers[a].body).Some? && c !in s.api.store && a in owners
    ensures var born := ApplyCreate(s, c, owners, finalizers);
      Enabled(born, Call(a)) && Holds(born, a) && !Holds(Apply(born, Call(a)), a)
    ensures var t := Apply(ApplyCreate(s, c, owners, finalizers), Call(a));
      c in t.api.store && !t.api.store[c].deleted && t.api.store[c].owners == owners
  {
    WorkerIsOk(s, a);
    CreatedBeside(s, c, owners, finalizers);
    DropsAsBefore(s, ApplyCreate(s, c, owners, finalizers), a, s.gc.workers[a].body);
  }

  /** An owner that has lost the finalizer waits for another controller only, which then removes it from above. */
  lemma ReleaseOrphans(
      s: State, o: ResourceRef, c: ResourceRef, owners: seq<ResourceRef>, finalizers: seq<Finalizer>, modified: nat)
    requires o in s.api.store && s.api.store[o].deleted && CascadeDeletion !in s.api.store[o].finalizers
    requires c !in s.api.store && o in owners && s.api.store[o].modified < modified
    ensures var born := ApplyCreate(s, c, owners, finalizers);
      Enabled(s, Create(c, owners, finalizers)) && Enabled(born, Write(o, [], modified))
    ensures var t := Apply(ApplyCreate(s, c, owners, finalizers), Write(o, [], modified));
      o !in t.api.store && c in t.api.store && o in t.api.store[c].owners
  {
    CreatedBeside(s, c, owners, finalizers);
  }

  lemma CreatedBeside(s: State, c: ResourceRef, owners: seq<ResourceRef>, finalizers: seq<Finalizer>)
    ensures var t := ApplyCreate(s, c, owners, finalizers);
      t.gc == s.gc && t.api.store == s.api.store[c := Resource(owners, finalizers, false, 0)]
  {
  }

  /** An update looks at nothing but the resource itself. */
  lemma DropsAsBefore(s: State, t: State, a: ResourceRef, body: Resource)
    requires Holds(s, a) && a in t.api.store && t.api.store[a] == s.api.store[a]
    requires a in t.gc.workers && t.gc.workers[a] == Dropping(body)
    requires ApiUpdate(s, a, body).Some? && CascadeDeletion !in body.finalizers
    ensures Holds(t, a) && !Holds(ApplyCall(t, a), a)
    ensures forall x :: x != a && x in t.api.store ==>
      x in ApplyCall(t, a).api.store && ApplyCall(t, a).api.store[x] == t.api.store[x]
  {
    assert ApiUpdate(t, a, body).Some?;
    UpdateStores(t, a, body);
  }

  lemma UpdateStores(s: State, a: ResourceRef, body: Resource)
    requires ApiUpdate(s, a, body).Some?
    ensures a in s.api.store
    ensures var obj := Renewed(s.api.store[a].(owners := body.owners, finalizers := body.finalizers));
      ApiUpdate(s, a, body).value.api.store ==
        if obj.deleted && obj.finalizers == [] then s.api.store - {a} else s.api.store[a := obj]
  {
  }

  // ---------------------------------------------------------------------------------------------
  // An update that leaves the finalizer out
  // ---------------------------------------------------------------------------------------------

  /** An accepted update takes the collector's finalizer off exactly if its body leaves it out, whoever sends it. */
  lemma UpdateDropsExactly(s: State, r: ResourceRef, body: Resource)
    requires Holds(s, r) && ApiUpdate(s, r, body).Some?
    ensures !Holds(ApiUpdate(s, r, body).value, r) <==> CascadeDeletion !in body.finalizers
  {
    UpdateStores(s, r, body);
  }

  /** What was read before the deletion and is put back after it is accepted, with dependents still stored. */
  lemma PutBackOrphans(s: State, r: ResourceRef, c: ResourceRef)
    requires r in s.api.store && !s.api.store[r].deleted && WellFormed(s, r, s.api.store[r])
    requires c != r && c in s.api.store && r in s.api.store[c].owners
    ensures ApiDelete(s, r).Some?
    ensures var marked := ApiDelete(s, r).value;
      var put := ApiUpdate(marked, r, s.api.store[r]);
      && Holds(marked, r) && put.Some? && !Holds(put.value, r)
      && (s.api.store[r].finalizers == [] ==> r !in put.value.api.store)
      && c in put.value.api.store && r in put.value.api.store[c].owners
  {
    MarkedIsWellFormed(s, r);
    var marked := ApiDelete(s, r).value;
    assert ApiUpdate(marked, r, s.api.store[r]).Some?;
    UpdateStores(marked, r, s.api.store[r]);
  }

  /** The update as a write of others, at the next moment. */
  function AsWrite(s: State, r: ResourceRef, body: Resource): Action
    requires r in s.api.store
  {
    Write(r, body.finalizers, s.api.store[r].modified + 1)
  }

  /** Of the updates accepted during a deletion those are unsound that take the finalizer off above something. */
  lemma UpdateIsSoundExactly(s: State, r: ResourceRef, body: Resource)
    requires r in s.api.store && s.api.store[r].deleted && body.owners == s.api.store[r].owners
    requires NoDuplicates(body.finalizers) && ApiUpdate(s, r, body).Some?
    ensures Enabled(s, AsWrite(s, r, body)) && ApiUpdate(s, r, body).value == Apply(s, AsWrite(s, r, body))
    ensures Sound(s, AsWrite(s, r, body)) <==>
      (Holds(s, r) && !Holds(ApiUpdate(s, r, body).value, r) ==> Spent(s, r))
  {
    UpdateStores(s, r, body);
  }
}
