/**
 * Neither condition of CascadeCalm can be dropped: for any three (two) resources there are runs, with no other
 * controller involved, that end quiescent with a resource in deletion that nothing will ever attend to. Where events
 * about the owner are delivered while a DELETED handler of the dependent runs, the two are of different kinds, for
 * the watch of one kind handles one event after the other.
 */
module CascadeRaces {
  import opened Wrappers
  import opened Digraphs
  import opened Relationships
  import opened GraphRuns
  import opened Cascade
  import opened CascadeSafety
  import opened CascadeProgress
  import opened CascadeCalm

  /** Resources of one kind share a watch. */
  predicate SameKind(a: ResourceRef, b: ResourceRef) {
    a.api == b.api && a.kind == b.kind
  }

  ghost predicate Reached(s: State, single: bool, calm: bool) {
    exists ss, acts :: Path(ss, acts, single, calm) && ss[|acts|] == s
  }

  lemma Extend(s: State, a: Action, single: bool, calm: bool)
    requires Reached(s, single, calm) && SoundStep(s, a) && (single ==> SingleOwner(a)) && (calm ==> Calm(s, a))
    ensures Reached(Apply(s, a), single, calm)
  {
    var ss, acts :| Path(ss, acts, single, calm) && ss[|acts|] == s;
    ExtendPath(ss, acts, a, Apply(s, a), single, calm);
    assert (ss + [Apply(s, a)])[|acts + [a]|] == Apply(s, a);
  }

  lemma ExtendPath(ss: seq<State>, acts: seq<Action>, a: Action, t: State, single: bool, calm: bool)
    requires Path(ss, acts, single, calm) && SoundStep(ss[|acts|], a) && t == Apply(ss[|acts|], a)
    requires (single ==> SingleOwner(a)) && (calm ==> Calm(ss[|acts|], a))
    ensures Path(ss + [t], acts + [a], single, calm)
  {
    var ss', acts' := ss + [t], acts + [a];
    forall i | 0 <= i < |acts'|
      ensures SoundStep(ss'[i], acts'[i]) && ss'[i + 1] == Apply(ss'[i], acts'[i])
      ensures (single ==> SingleOwner(acts'[i])) && (calm ==> Calm(ss'[i], acts'[i]))
    {
      if i < |acts| {
        assert ss'[i] == ss[i] && ss'[i + 1] == ss[i + 1];
      }
    }
  }

  lemma ReachedIsInv(s: State, single: bool, calm: bool)
    requires Reached(s, single, calm)
    ensures Inv(s)
  {
    var ss, acts :| Path(ss, acts, single, calm) && ss[|acts|] == s;
    EveryRunKeepsInv(ss, acts, |acts|);
  }

  /** With a single owner, a creation can never open a second path. */
  lemma SingleOwnerKeepsUniqueWalks(s: State, r: ResourceRef, owners: seq<ResourceRef>)
    requires InvBirth(s) && r !in s.past.born && |owners| <= 1 && forall o :: o in owners ==> o in s.api.store
    ensures UniqueWalks(Ownership(s.past.born[r := owners]))
  {
    NewLeafKeepsUniqueWalks(Ownership(s.past.born), Ownership(s.past.born[r := owners]), r);
  }

  // ---------------------------------------------------------------------------------------------
  // Following a run
  // ---------------------------------------------------------------------------------------------

  /** A state without its graph and ages, and without empty event queues. */
  datatype Look = Look(
    store: map<ResourceRef, Resource>,
    pending: map<ResourceRef, seq<Event>>,
    queue: map<ResourceRef, Resource>,
    workers: map<ResourceRef, Worker>,
    handlers: map<ResourceRef, Handler>,
    born: map<ResourceRef, seq<ResourceRef>>,
    buried: set<ResourceRef>
  )

  function View(s: State): Look {
    Look(s.api.store, map r | r in s.api.events && s.api.events[r] != [] :: s.api.events[r],
         s.gc.queue, s.gc.workers, s.gc.handlers, s.past.born, s.past.buried)
  }

  lemma PendingIs(s: State)
    ensures forall r :: Pending(s, r) == if r in View(s).pending then View(s).pending[r] else []
  {
  }

  lemma PostedView(s: State, r: ResourceRef, ev: Event)
    requires r !in View(s).pending
    ensures View(Post(s, r, ev.kind, ev.obj)) == View(s).(pending := View(s).pending[r := [ev]])
  {
    PendingIs(s);
    var t := Post(s, r, ev.kind, ev.obj);
    assert Pending(s, r) + [ev] == [ev];
    assert View(t).pending == View(s).pending[r := [ev]];
  }

  lemma TakenView(s: State, r: ResourceRef, ev: Event)
    requires r in View(s).pending && View(s).pending[r] == [ev]
    ensures Pending(s, r) == [ev] && View(Taken(s, r)) == View(s).(pending := View(s).pending - {r})
  {
    PendingIs(s);
    assert View(Taken(s, r)).pending == View(s).pending - {r};
  }

  lemma Delivered(s: State, r: ResourceRef, ev: Event, single: bool, calm: bool) returns (t: State)
    requires Reached(s, single, calm)
    requires r in View(s).pending && View(s).pending[r] == [ev] && !ev.kind.DELETED?
    requires calm ==> Calm(s, Deliver(r, {}))
    ensures Reached(t, single, calm)
    ensures View(t) == View(s).(
      pending := View(s).pending - {r},
      queue := if InDeletion(ev.obj) then View(s).queue[r := ev.obj] else View(s).queue)
    ensures exists visited :: Enabled(s, Deliver(r, visited)) && t == Apply(s, Deliver(r, visited))
  {
    ReachedIsInv(s, single, calm);
    TakenView(s, r, ev);
    assert EventsOk(s, r);
    var visited := VisitedExists(s, r);
    Extend(s, Deliver(r, visited), single, calm);
    DeliveryApplied(s, r, visited);
    t := Apply(s, Deliver(r, visited));
  }

  lemma DeliveredDeletion(s: State, r: ResourceRef, ev: Event, single: bool, calm: bool) returns (t: State)
    requires Reached(s, single, calm)
    requires r in View(s).pending && View(s).pending[r] == [ev] && ev.kind.DELETED? && ev.obj.owners != []
    requires View(s).handlers == map[]
    ensures Reached(t, single, calm)
    ensures View(t) == View(s).(
      pending := View(s).pending - {r}, handlers := map[r := Handler(ev.obj.owners, 0, None)])
  {
    TakenView(s, r, ev);
    Extend(s, Deliver(r, {}), single, calm);
    t := Apply(s, Deliver(r, {}));
    assert View(t) == View(Taken(s, r)).(handlers := map[r := Handler(ev.obj.owners, 0, None)]);
  }

  function NewResource(owners: seq<ResourceRef>): Resource {
    Resource(owners, [], false, 0)
  }

  /** A new resource of which the collector has not heard. */
  lemma CreatedUnheard(s: State, r: ResourceRef, owners: seq<ResourceRef>, single: bool, calm: bool) returns (t: State)
    requires Reached(s, single, calm) && View(s).pending == map[]
    requires r !in s.past.born && r !in s.api.store && (single ==> |owners| <= 1)
    requires forall o :: o in owners ==> o in s.api.store && !Spending(s, o)
    requires UniqueWalks(Ownership(s.past.born[r := owners]))
    ensures Reached(t, single, calm)
    ensures View(t) == View(s).(
      store := s.api.store[r := NewResource(owners)], pending := map[r := [Event(ADDED, NewResource(owners))]],
      born := s.past.born[r := owners])
    ensures t.gc == s.gc
  {
    Extend(s, Create(r, owners, []), single, calm);
    t := Apply(s, Create(r, owners, []));
    CreatedView(s, r, owners);
  }

  lemma CreatedView(s: State, r: ResourceRef, owners: seq<ResourceRef>)
    requires View(s).pending == map[]
    ensures View(ApplyCreate(s, r, owners, [])) == View(s).(
      store := s.api.store[r := NewResource(owners)], pending := map[r := [Event(ADDED, NewResource(owners))]],
      born := s.past.born[r := owners])
  {
    var obj := NewResource(owners);
    var past := s.past.(born := s.past.born[r := owners], age := s.past.age[r := |s.past.born|]);
    var stored := s.(api := s.api.(store := s.api.store[r := obj]), past := past);
    assert View(stored).pending == map[];
    PostedView(stored, r, Event(ADDED, obj));
  }

  /** A new live resource, known to the collector. */
  lemma Created(s: State, r: ResourceRef, owners: seq<ResourceRef>, single: bool, calm: bool) returns (t: State)
    requires Reached(s, single, calm) && View(s).pending == map[] && View(s).handlers == map[]
    requires r !in s.past.born && r !in s.api.store && (single ==> |owners| <= 1)
    requires forall o :: o in owners ==> o in s.api.store && !Spending(s, o)
    requires UniqueWalks(Ownership(s.past.born[r := owners]))
    ensures Reached(t, single, calm)
    ensures View(t) == View(s).(store := s.api.store[r := NewResource(owners)], born := s.past.born[r := owners])
  {
    var unheard := CreatedUnheard(s, r, owners, single, calm);
    assert unheard.gc.handlers == View(unheard).handlers == map[];
    t := Delivered(unheard, r, Event(ADDED, NewResource(owners)), single, calm);
    assert View(t).pending == map[];
  }

  function MarkedAs(obj: Resource): Resource {
    obj.(deleted := true, finalizers := obj.finalizers + [CascadeDeletion])
  }

  lemma Marked(s: State, r: ResourceRef, single: bool, calm: bool) returns (t: State)
    requires Reached(s, single, calm) && View(s).pending == map[]
    requires r in s.api.store && !s.api.store[r].deleted
    ensures Reached(t, single, calm)
    ensures var obj := MarkedAs(s.api.store[r]);
      View(t) == View(s).(store := s.api.store[r := obj], pending := map[r := [Event(MODIFIED, obj)]])
  {
    PendingIs(s);
    Extend(s, Mark(r), single, calm);
    var obj := MarkedAs(s.api.store[r]);
    var stored := s.(api := s.api.(store := s.api.store[r := obj]));
    assert View(stored).pending == map[];
    PostedView(stored, r, Event(MODIFIED, obj));
    t := Apply(s, Mark(r));
  }

  /** Another controller changes the finalizers, and the collector hears of it. */
  lemma Refinalized(s: State, r: ResourceRef, finalizers: seq<Finalizer>, single: bool, calm: bool) returns (t: State)
    requires Reached(s, single, calm) && View(s).pending == map[] && r in s.api.store
    requires SoundStep(s, Write(r, finalizers, s.api.store[r].modified + 1)) && finalizers != []
    requires calm ==> View(s).handlers == map[]
    ensures Reached(t, single, calm)
    ensures var obj := Renewed(s.api.store[r].(finalizers := finalizers));
      View(t) == View(s).(
        store := s.api.store[r := obj], queue := if InDeletion(obj) then View(s).queue[r := obj] else View(s).queue)
  {
    var obj := Renewed(s.api.store[r].(finalizers := finalizers));
    var written := StoreOrRemove(s, r, obj);
    WriteReached(s, r, finalizers, single, calm);
    WrittenView(s, r, obj);
    assert written.gc.handlers == View(written).handlers == View(s).handlers;
    t := Delivered(written, r, Event(MODIFIED, obj), single, calm);
    assert View(t).pending == map[];
  }

  lemma WriteReached(s: State, r: ResourceRef, finalizers: seq<Finalizer>, single: bool, calm: bool)
    requires Reached(s, single, calm) && r in s.api.store
    requires SoundStep(s, Write(r, finalizers, s.api.store[r].modified + 1))
    ensures Reached(StoreOrRemove(s, r, Renewed(s.api.store[r].(finalizers := finalizers))), single, calm)
  {
    var a := Write(r, finalizers, s.api.store[r].modified + 1);
    Extend(s, a, single, calm);
    assert Apply(s, a) == StoreOrRemove(s, r, Renewed(s.api.store[r].(finalizers := finalizers)));
  }

  lemma WrittenView(s: State, r: ResourceRef, obj: Resource)
    requires View(s).pending == map[] && r in s.api.store && obj.finalizers != []
    ensures View(StoreOrRemove(s, r, obj)) ==
      View(s).(store := s.api.store[r := obj], pending := map[r := [Event(MODIFIED, obj)]])
  {
    var stored := s.(api := s.api.(store := s.api.store[r := obj]));
    assert View(stored).pending == map[];
    PostedView(stored, r, Event(MODIFIED, obj));
  }

  /** Delivered just now, not yet buried: what depends on `k`. */
  lemma DependentsAre(s: State, k: ResourceRef)
    requires InvGraph(s) && View(s).pending == map[]
    ensures forall c :: c in Dependents(s.gc.graph, k) <==>
      c in s.past.born && k in s.past.born[c] && c !in s.past.buried
  {
    PendingIs(s);
    assert forall c :: c in Dependents(s.gc.graph, k) <==> (k, c) in EdgesOf(s.gc.graph);
  }

  /** A leaf in deletion goes all the way to its DELETED handler. */
  lemma LeafGone(s: State, c: ResourceRef, single: bool, calm: bool) returns (t: State)
    requires Reached(s, single, calm)
    requires View(s).pending == map[] && View(s).queue == map[] && View(s).workers == map[] && View(s).handlers == map[]
    requires c in s.api.store && !s.api.store[c].deleted && s.api.store[c].finalizers == []
    requires s.api.store[c].owners != []
    requires forall d :: d in s.past.born ==> c !in s.past.born[d]
    ensures Reached(t, single, calm)
    ensures View(t) == View(s).(
      store := s.api.store - {c}, handlers := map[c := Handler(s.api.store[c].owners, 0, None)])
  {
    var obj := Resource(s.api.store[c].owners, [CascadeDeletion], true, s.api.store[c].modified);
    var marked := Marked(s, c, single, calm);
    assert [] + [CascadeDeletion] == [CascadeDeletion];
    assert MarkedAs(s.api.store[c]) == obj;
    var queued := Delivered(marked, c, Event(MODIFIED, obj), single, calm);
    assert View(queued) == View(s).(store := s.api.store[c := obj], queue := map[c := obj]);
    t := QueuedLeafGone(queued, c, obj, single, calm);
    assert s.api.store[c := obj] - {c} == s.api.store - {c};
  }

  lemma QueuedLeafGone(s: State, c: ResourceRef, obj: Resource, single: bool, calm: bool) returns (t: State)
    requires Reached(s, single, calm)
    requires View(s).pending == map[] && View(s).queue == map[c := obj] && View(s).workers == map[]
    requires View(s).handlers == map[] && c in s.api.store && s.api.store[c] == obj && obj.owners != []
    requires obj == Resource(obj.owners, [CascadeDeletion], true, obj.modified)
    requires forall d :: d in s.past.born ==> c !in s.past.born[d]
    ensures Reached(t, single, calm)
    ensures View(t) == View(s).(
      store := s.api.store - {c}, queue := map[], handlers := map[c := Handler(obj.owners, 0, None)])
  {
    var dropping := TakenUp(s, c, single, calm);
    var gone := DroppedLast(dropping, c, obj, single, calm);
    t := DeliveredDeletion(gone, c, Event(DELETED, obj), single, calm);
    assert View(t).pending == map[];
  }

  ghost predicate OnlyDependent(s: State, k: ResourceRef, c: ResourceRef) {
    && c in s.past.born && k in s.past.born[c] && c !in s.past.buried
    && forall d :: d in s.past.born && k in s.past.born[d] ==> d == c
  }

  lemma TakenUp(s: State, k: ResourceRef, single: bool, calm: bool) returns (t: State)
    requires Reached(s, single, calm) && View(s).pending == map[]
    requires k in View(s).queue && View(s).queue.Keys == {k} && View(s).workers == map[]
    ensures Reached(t, single, calm) && k in View(t).workers
    ensures View(t) == View(s).(queue := map[], workers := map[k := View(t).workers[k]])
    ensures (forall c :: c in s.past.born && k in s.past.born[c] ==> c in s.past.buried) ==>
      View(t).workers[k] == Dropping(Popped(s.gc.queue[k]))
    ensures forall c :: OnlyDependent(s, k, c) ==> View(t).workers[k] == Marking(0, Some(c))
  {
    TakeIsSound(s, k);
    DependentsTaken(s, k, single, calm);
    Extend(s, Take(k), single, calm);
    t := Apply(s, Take(k));
    assert s.gc.queue - {k} == map[];
  }

  lemma TakeIsSound(s: State, k: ResourceRef)
    requires View(s).pending == map[] && k in s.gc.queue && View(s).workers == map[]
    ensures SoundStep(s, Take(k))
  {
    PendingIs(s);
    assert View(s).workers == s.gc.workers;
  }

  lemma DependentsTaken(s: State, k: ResourceRef, single: bool, calm: bool)
    requires Reached(s, single, calm) && View(s).pending == map[]
    ensures (forall c :: c in s.past.born && k in s.past.born[c] ==> c in s.past.buried) ==>
      Dependents(s.gc.graph, k) == []
    ensures forall c :: OnlyDependent(s, k, c) ==>
      Dependents(s.gc.graph, k) != [] && Dependents(s.gc.graph, k)[0] == c
  {
    ReachedIsInv(s, single, calm);
    DependentsAre(s, k);
    FirstOfDependents(s, k);
  }

  lemma FirstOfDependents(s: State, k: ResourceRef)
    requires forall c :: c in Dependents(s.gc.graph, k) <==>
      c in s.past.born && k in s.past.born[c] && c !in s.past.buried
    ensures (forall c :: c in s.past.born && k in s.past.born[c] ==> c in s.past.buried) ==>
      Dependents(s.gc.graph, k) == []
    ensures forall c :: OnlyDependent(s, k, c) ==>
      Dependents(s.gc.graph, k) != [] && Dependents(s.gc.graph, k)[0] == c
  {
    var ds := Dependents(s.gc.graph, k);
    NonEmptyHasMember(ds);
    assert ds != [] ==> ds[0] in ds;
  }

  lemma DroppedLast(s: State, c: ResourceRef, obj: Resource, single: bool, calm: bool) returns (t: State)
    requires Reached(s, single, calm) && View(s).pending == map[]
    requires c in s.api.store && s.api.store[c] == obj
    requires obj == Resource(obj.owners, [CascadeDeletion], true, obj.modified)
    requires View(s).workers == map[c := Dropping(Popped(obj))]
    ensures Reached(t, single, calm)
    ensures View(t) == View(s).(
      store := s.api.store - {c}, pending := map[c := [Event(DELETED, obj)]], workers := map[])
  {
    Extend(s, Call(c), single, calm);
    var removed := s.(api := s.api.(store := s.api.store - {c}));
    assert View(removed).pending == map[];
    PostedView(removed, c, Event(DELETED, obj));
    assert ApiUpdate(s, c, Popped(obj)) == Some(Post(removed, c, DELETED, obj));
    t := Apply(s, Call(c));
    assert s.gc.workers - {c} == map[];
  }

  lemma TargetMissing(s: State, k: ResourceRef, c: ResourceRef, single: bool, calm: bool) returns (t: State)
    requires Reached(s, single, calm) && View(s).workers == map[k := Marking(0, Some(c))] && c !in s.api.store
    ensures Reached(t, single, calm) && View(t) == View(s).(workers := map[])
  {
    Extend(s, Call(k), single, calm);
    t := Apply(s, Call(k));
    assert s.gc.workers - {k} == map[];
  }

  lemma Read(s: State, c: ResourceRef, h: Handler, single: bool, calm: bool) returns (t: State)
    requires Reached(s, single, calm) && View(s).handlers == map[c := h]
    requires h.answer.None? && h.next < |h.owners| && CurrentOwner(h) in s.api.store
    ensures Reached(t, single, calm)
    ensures View(t) == View(s).(handlers := map[c := h.(answer := Some(s.api.store[CurrentOwner(h)]))])
  {
    Extend(s, ReadOwner(c), single, calm);
    t := Apply(s, ReadOwner(c));
  }

  lemma Enqueued(s: State, c: ResourceRef, h: Handler, single: bool, calm: bool) returns (t: State)
    requires Reached(s, single, calm) && View(s).handlers == map[c := h]
    requires h.answer.Some? && h.next < |h.owners|
    ensures Reached(t, single, calm)
    ensures var queue := if InDeletion(h.answer.value) then View(s).queue[CurrentOwner(h) := h.answer.value]
                         else View(s).queue;
      View(t) == if h.next + 1 == |h.owners|
                 then View(s).(queue := queue, handlers := map[], buried := s.past.buried + {c})
                 else View(s).(queue := queue, handlers := map[c := Handler(h.owners, h.next + 1, None)])
  {
    Extend(s, EnqueueOwner(c), single, calm);
    t := Apply(s, EnqueueOwner(c));
    EnqueuedView(s, c, h);
  }

  lemma EnqueuedView(s: State, c: ResourceRef, h: Handler)
    requires s.gc.handlers == map[c := h] && h.answer.Some? && h.next < |h.owners|
    ensures var queue := if InDeletion(h.answer.value) then View(s).queue[CurrentOwner(h) := h.answer.value]
                         else View(s).queue;
      View(ApplyEnqueueOwner(s, c)) == if h.next + 1 == |h.owners|
                 then View(s).(queue := queue, handlers := map[], buried := s.past.buried + {c})
                 else View(s).(queue := queue, handlers := map[c := Handler(h.owners, h.next + 1, None)])
  {
    assert s.gc.handlers - {c} == map[];
    assert View(ApplyEnqueueOwner(s, c)).pending == View(s).pending;
  }

  // ---------------------------------------------------------------------------------------------
  // The races
  // ---------------------------------------------------------------------------------------------

  /** Quiescent, nobody else owes anything, and yet `a` stays in deletion. */
  ghost predicate StuckFor(s: State, a: ResourceRef) {
    Quiescent(s) && StoredInDeletion(s, a) && forall w :: !WaitsForAnother(s, w)
  }

  lemma EmptyReached(single: bool, calm: bool)
    ensures Reached(EMPTY, single, calm)
    ensures View(EMPTY) == Look(map[], map[], map[], map[], map[], map[], {})
  {
    assert Path([EMPTY], [], single, calm);
    assert View(EMPTY).pending == map[];
  }

  lemma StuckView(s: State, a: ResourceRef)
    requires View(s).pending == map[] && View(s).queue == map[] && View(s).workers == map[] && View(s).handlers == map[]
    requires a in s.api.store && InDeletion(s.api.store[a])
    requires forall w :: w in s.api.store && s.api.store[w].deleted ==> w == a
    ensures StuckFor(s, a)
  {
    PendingIs(s);
  }

  const LIVE := Resource([], [], false, 0)
  const DELETED_OWNER := Resource([], [CascadeDeletion], true, 0)

  lemma OwnerAndDependent(a: ResourceRef, c: ResourceRef) returns (s: State)
    requires a != c
    ensures Reached(s, true, false)
    ensures View(s) == Look(map[a := LIVE, c := NewResource([a])], map[], map[], map[], map[],
                            map[a := [], c := [a]], {})
  {
    EmptyReached(true, false);
    UnownedKeepsUniqueWalks(EMPTY, a);
    var s1 := Created(EMPTY, a, [], true, false);
    ReachedIsInv(s1, true, false);
    SingleOwnerKeepsUniqueWalks(s1, c, [a]);
    s := Created(s1, c, [a], true, false);
  }

  /** The owner `a` of `c` is alive, `c` is gone, and its DELETED handler has read `a`. */
  lemma OwnerReadAlive(a: ResourceRef, c: ResourceRef) returns (s: State)
    requires a != c
    ensures Reached(s, true, false)
    ensures View(s) == Look(map[a := LIVE], map[], map[], map[], map[c := Handler([a], 0, Some(LIVE))],
                            map[a := [], c := [a]], {})
  {
    var s2 := OwnerAndDependent(a, c);
    var s3 := LeafGone(s2, c, true, false);
    assert View(s3).store == map[a := LIVE];
    s := Read(s3, c, Handler([a], 0, None), true, false);
  }

  /** A worker takes `a` up, but its only dependent `c` is already gone: the call fails and the work ends. */
  lemma WorkFails(s: State, a: ResourceRef, c: ResourceRef, single: bool, calm: bool) returns (t: State)
    requires Reached(s, single, calm) && View(s).pending == map[] && View(s).workers == map[]
    requires View(s).queue.Keys == {a} && OnlyDependent(s, a, c) && c !in s.api.store
    ensures Reached(t, single, calm) && View(t) == View(s).(queue := map[])
  {
    var taken := TakenUp(s, a, single, calm);
    t := TargetMissing(taken, a, c, single, calm);
  }

  /** Marking `a` and delivering the event puts it in the queue. */
  lemma MarkedAndQueued(s: State, a: ResourceRef, single: bool, calm: bool) returns (t: State)
    requires Reached(s, single, calm) && View(s).pending == map[] && View(s).queue == map[]
    requires a in s.api.store && !s.api.store[a].deleted && (calm ==> Calm(s, Deliver(a, {})))
    ensures Reached(t, single, calm)
    ensures var obj := MarkedAs(s.api.store[a]);
      View(t) == View(s).(store := s.api.store[a := obj], queue := map[a := obj])
  {
    var marked := Marked(s, a, single, calm);
    assert marked.gc.handlers == View(marked).handlers == s.gc.handlers;
    t := Delivered(marked, a, Event(MODIFIED, MarkedAs(s.api.store[a])), single, calm);
    assert View(t).pending == map[];
  }

  lemma MarkedLive()
    ensures MarkedAs(LIVE) == DELETED_OWNER
  {
    assert [] + [CascadeDeletion] == [CascadeDeletion];
  }

  /**
   * One owner each, but the event about the owner overtakes the handler that had read it alive: the worker
   * finds the dependent gone, and the handler then leaves the owner alone.
   */
  lemma OvertakenHandlerStrandsOwner(a: ResourceRef, c: ResourceRef)
    requires !SameKind(a, c)
    ensures exists s :: Reached(s, true, false) && StuckFor(s, a)
  {
    var s1 := OwnerReadAlive(a, c);
    MarkedLive();
    var s2 := MarkedAndQueued(s1, a, true, false);
    assert View(s2).store == map[a := DELETED_OWNER];
    var s3 := WorkFails(s2, a, c, true, false);
    var s4 := Enqueued(s3, c, Handler([a], 0, Some(LIVE)), true, false);
    StuckView(s4, a);
  }

  /** The owner `a` as it is before, during and after another controller has its say. */
  const HELD := Resource([], [Foreign("other")], false, 1)
  const HELD_DELETED := Resource([], [Foreign("other"), CascadeDeletion], true, 1)
  const RELEASED := Resource([], [CascadeDeletion], true, 2)

  /** The owner `a` is held by another controller, `c` is gone, and its DELETED handler is about to read `a`. */
  lemma OwnerHeld(a: ResourceRef, c: ResourceRef) returns (s: State)
    requires a != c
    ensures Reached(s, true, false)
    ensures View(s) == Look(map[a := HELD], map[], map[], map[], map[c := Handler([a], 0, None)],
                            map[a := [], c := [a]], {})
  {
    var s1 := OwnerAndDependent(a, c);
    var s2 := Refinalized(s1, a, [Foreign("other")], true, false);
    assert View(s2).store == map[a := HELD, c := NewResource([a])];
    s := LeafGone(s2, c, true, false);
    assert View(s).store == map[a := HELD];
  }

  /** The handler has read `a` in deletion. */
  lemma HeldIsRead(a: ResourceRef, c: ResourceRef) returns (s: State)
    requires a != c
    ensures Reached(s, true, false)
    ensures View(s) == Look(map[a := HELD_DELETED], map[], map[a := HELD_DELETED], map[],
                            map[c := Handler([a], 0, Some(HELD_DELETED))], map[a := [], c := [a]], {})
  {
    var s1 := OwnerHeld(a, c);
    assert MarkedAs(HELD) == HELD_DELETED by {
      assert [Foreign("other")] + [CascadeDeletion] == [Foreign("other"), CascadeDeletion];
    }
    var s2 := MarkedAndQueued(s1, a, true, false);
    assert View(s2).store == map[a := HELD_DELETED];
    s := Read(s2, c, Handler([a], 0, None), true, false);
  }

  /** Then the other controller releases it, and the queue holds the news. */
  lemma ReleasedAfterRead(a: ResourceRef, c: ResourceRef) returns (s: State)
    requires a != c
    ensures Reached(s, true, false)
    ensures View(s) == Look(map[a := RELEASED], map[], map[a := RELEASED], map[],
                            map[c := Handler([a], 0, Some(HELD_DELETED))], map[a := [], c := [a]], {})
  {
    var s1 := HeldIsRead(a, c);
    assert CascadeDeletion == HELD_DELETED.finalizers[1];
    s := Refinalized(s1, a, [CascadeDeletion], true, false);
    assert View(s).store == map[a := RELEASED] && View(s).queue == map[a := RELEASED];
  }

  /** A worker drops the finalizer with a copy that names another one which is gone: the update is refused. */
  lemma DropRefused(s: State, a: ResourceRef, c: ResourceRef) returns (t: State)
    requires a != c && Reached(s, true, false)
    requires View(s) == Look(map[a := RELEASED], map[], map[a := HELD_DELETED], map[], map[],
                             map[a := [], c := [a]], {c})
    ensures Reached(t, true, false) && View(t) == View(s).(queue := map[])
  {
    var s1 := TakenUp(s, a, true, false);
    assert Popped(HELD_DELETED).finalizers == [Foreign("other")];
    assert Foreign("other") in Popped(HELD_DELETED).finalizers && Foreign("other") !in RELEASED.finalizers;
    assert ApiUpdate(s1, a, Popped(HELD_DELETED)) == None;
    Extend(s1, Call(a), true, false);
    t := Apply(s1, Call(a));
    assert s1.gc.workers - {a} == map[];
  }

  /**
   * One owner each: the answer a handler has read is older than the value in the queue it replaces. The worker's
   * copy then names a finalizer that is gone, its update is refused, and nothing brings the owner back.
   */
  lemma OldAnswerStrandsOwner(a: ResourceRef, c: ResourceRef)
    requires !SameKind(a, c)
    ensures exists s :: Reached(s, true, false) && StuckFor(s, a)
  {
    var s1 := ReleasedAfterRead(a, c);
    var s2 := Enqueued(s1, c, Handler([a], 0, Some(HELD_DELETED)), true, false);
    assert View(s2).queue == map[a := HELD_DELETED];
    var s3 := DropRefused(s2, a, c);
    StuckView(s3, a);
  }

  lemma TwoLive(a: ResourceRef, b: ResourceRef) returns (s: State)
    requires a != b
    ensures Reached(s, false, true)
    ensures View(s) == Look(map[a := LIVE, b := LIVE], map[], map[], map[], map[], map[a := [], b := []], {})
  {
    EmptyReached(false, true);
    UnownedKeepsUniqueWalks(EMPTY, a);
    var s1 := Created(EMPTY, a, [], false, true);
    UnownedKeepsUniqueWalks(s1, b);
    s := Created(s1, b, [], false, true);
  }

  /** Two unrelated owners `a` and `b` of `c`; `c` is gone and its DELETED handler is about to read `a`. */
  lemma TwoOwners(a: ResourceRef, b: ResourceRef, c: ResourceRef) returns (s: State)
    requires a != b && b != c && a != c
    ensures Reached(s, false, true)
    ensures View(s) == Look(map[a := LIVE, b := LIVE], map[], map[], map[], map[c := Handler([a, b], 0, None)],
                            map[a := [], b := [], c := [a, b]], {})
  {
    var s3 := OwnersAndDependent(a, b, c);
    s := LeafGone(s3, c, false, true);
    assert View(s).store == map[a := LIVE, b := LIVE];
  }

  lemma OwnersAndDependent(a: ResourceRef, b: ResourceRef, c: ResourceRef) returns (s: State)
    requires a != b && b != c && a != c
    ensures Reached(s, false, true)
    ensures View(s) == Look(map[a := LIVE, b := LIVE, c := NewResource([a, b])], map[], map[], map[], map[],
                            map[a := [], b := [], c := [a, b]], {})
  {
    var s2 := TwoLive(a, b);
    ReachedKeepsUniqueWalks(s2, a, b, c);
    s := Created(s2, c, [a, b], false, true);
  }

  lemma ReachedKeepsUniqueWalks(s: State, a: ResourceRef, b: ResourceRef, c: ResourceRef)
    requires Reached(s, false, true) && s.past.born == map[a := [], b := []] && c !in s.past.born
    ensures UniqueWalks(Ownership(s.past.born[c := [a, b]]))
  {
    ReachedIsInv(s, false, true);
    TwoOwnersKeepUniqueWalks(s, a, b, c);
  }

  lemma TwoOwnersKeepUniqueWalks(s: State, a: ResourceRef, b: ResourceRef, c: ResourceRef)
    requires InvBirth(s) && s.past.born == map[a := [], b := []] && c !in s.past.born
    ensures UniqueWalks(Ownership(s.past.born[c := [a, b]]))
  {
    var e, f := Ownership(s.past.born), Ownership(s.past.born[c := [a, b]]);
    forall u, v, p | WalkFromTo(e, u, v, p) ensures u == v {
      if |p| > 1 {
        SplitWalk(e, u, v, p);
      }
    }
    NewLeafKeepsUniqueWalks(e, f, c);
  }

  /**
   * Calm deliveries, but two owners: the first is back in the queue while the handler asks for the second,
   * a worker takes it, meets the dependent that is still in the graph but gone from the store, and fails.
   */
  lemma SecondOwnerStrandsFirst(a: ResourceRef, b: ResourceRef, c: ResourceRef)
    requires !SameKind(a, c) && a != b && b != c
    ensures exists s :: Reached(s, false, true) && StuckFor(s, a)
  {
    var s1 := TwoOwners(a, b, c);
    MarkedLive();
    var s2 := MarkedAndQueued(s1, a, false, true);
    assert View(s2).store == map[a := DELETED_OWNER, b := LIVE];
    var s3 := FirstOwnerLost(s2, a, b, c);
    var s4 := Read(s3, c, Handler([a, b], 1, None), false, true);
    var s5 := Enqueued(s4, c, Handler([a, b], 1, Some(LIVE)), false, true);
    StuckView(s5, a);
  }

  lemma FirstOwnerLost(s: State, a: ResourceRef, b: ResourceRef, c: ResourceRef) returns (t: State)
    requires a != b && b != c && a != c && Reached(s, false, true)
    requires View(s) == Look(
      map[a := DELETED_OWNER, b := LIVE], map[], map[a := DELETED_OWNER], map[], map[c := Handler([a, b], 0, None)],
      map[a := [], b := [], c := [a, b]], {})
    ensures Reached(t, false, true)
    ensures View(t) == View(s).(queue := map[], handlers := map[c := Handler([a, b], 1, None)])
  {
    var s1 := Read(s, c, Handler([a, b], 0, None), false, true);
    var s2 := Enqueued(s1, c, Handler([a, b], 0, Some(DELETED_OWNER)), false, true);
    t := WorkFails(s2, a, c, false, true);
  }

  lemma UnownedKeepsUniqueWalks(s: State, r: ResourceRef)
    requires Reached(s, true, false) || Reached(s, false, true)
    requires r !in s.past.born
    ensures UniqueWalks(Ownership(s.past.born[r := []]))
  {
    if Reached(s, true, false) {
      ReachedIsInv(s, true, false);
    } else {
      ReachedIsInv(s, false, true);
    }
    SingleOwnerKeepsUniqueWalks(s, r, []);
  }
}
