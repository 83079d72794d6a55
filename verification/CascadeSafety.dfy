/** Bottom-up deletion: what every step of the cascade keeps, and what follows for every run. */
module CascadeSafety {
  import opened Wrappers
  import opened Digraphs
  import opened Relationships
  import opened GraphRuns
  import opened Cascade

  // ---------------------------------------------------------------------------------------------
  // The invariant
  // ---------------------------------------------------------------------------------------------

  /** Owners are older than what they own. */
  ghost predicate Aged(born: map<ResourceRef, seq<ResourceRef>>, age: map<ResourceRef, nat>) {
    && age.Keys == born.Keys
    && (forall c :: c in born ==> age[c] < |born|)
    && (forall c, o :: c in born && o in born[c] ==> o in born && age[o] < age[c])
  }

  ghost predicate InvBirth(s: State) {
    && s.api.store.Keys <= s.past.born.Keys && s.past.buried <= s.past.born.Keys
    && Aged(s.past.born, s.past.age)
    && UniqueWalks(Ownership(s.past.born))
  }

  ghost predicate WellFormed(s: State, r: ResourceRef, obj: Resource) {
    && r in s.past.born && obj.owners == s.past.born[r] && NoDuplicates(obj.finalizers)
    && (if obj.deleted then obj.finalizers != [] else CascadeDeletion !in obj.finalizers)
  }

  ghost predicate InvStore(s: State) {
    forall r :: r in s.api.store ==> WellFormed(s, r, s.api.store[r])
  }

  /** Events of one resource: ADDED comes first, DELETED comes last. */
  ghost predicate InOrder(events: seq<Event>) {
    && (forall i :: 0 < i < |events| ==> !events[i].kind.ADDED?)
    && (forall i :: 0 <= i < |events| - 1 ==> !events[i].kind.DELETED?)
  }

  ghost predicate Announced(s: State, r: ResourceRef) {
    Pending(s, r) != [] && Pending(s, r)[|Pending(s, r)| - 1].kind.DELETED?
  }

  /** A created resource is stored, or its removal is on its way, being handled, or done: one of these. */
  ghost predicate EventsOk(s: State, r: ResourceRef) {
    && InOrder(Pending(s, r))
    && (forall e :: e in Pending(s, r) ==> r in s.past.born && e.obj.owners == s.past.born[r])
    && (r in s.api.store ==> !Announced(s, r) && r !in s.past.buried && r !in s.gc.handlers)
    && (r in s.past.born && r !in s.api.store ==> r in s.past.buried || r in s.gc.handlers || Announced(s, r))
    && (r in s.past.buried || r in s.gc.handlers ==> Pending(s, r) == [])
    && (r in s.gc.handlers ==>
      && r !in s.past.buried
      && r in s.past.born && s.gc.handlers[r].owners == s.past.born[r] && s.gc.handlers[r].next < |s.past.born[r]|)
  }

  ghost predicate InvEvents(s: State) {
    forall r :: EventsOk(s, r)
  }

  /** The graph holds exactly the ownership edges of the resources delivered and not yet buried. */
  ghost predicate InvGraph(s: State) {
    && DuplicateFree(s.gc.graph)
    && forall o, c :: (o, c) in EdgesOf(s.gc.graph) <==>
      c in s.past.born && o in s.past.born[c] && !Undelivered(s, c) && c !in s.past.buried
  }

  /** Until a resource is buried its owners are stored. */
  ghost predicate InvOwners(s: State) {
    forall c, o :: c in s.past.born && c !in s.past.buried && o in s.past.born[c] ==> o in s.api.store
  }

  ghost predicate InvSpent(s: State) {
    forall k :: k in s.api.store && s.api.store[k].deleted && CascadeDeletion !in s.api.store[k].finalizers ==>
      Spent(s, k)
  }

  /** A copy of `r` taken while it was in deletion: since then finalizers only left, and not without a new stamp. */
  ghost predicate Stamped(s: State, r: ResourceRef, obj: Resource) {
    && WellFormed(s, r, obj) && InDeletion(obj)
    && (r in s.api.store ==> s.api.store[r].deleted && Follows(obj, s.api.store[r]))
  }

  predicate Follows(was: Resource, now: Resource) {
    && AllIn(now.finalizers, was.finalizers) && was.modified <= now.modified
    && (now.finalizers != was.finalizers ==> was.modified < now.modified)
  }

  ghost predicate InvCopies(s: State) {
    && (forall r, e :: e in Pending(s, r) && InDeletion(e.obj) ==> Stamped(s, r, e.obj))
    && (forall r :: r in s.gc.queue ==> Stamped(s, r, s.gc.queue[r]))
    && (forall r :: r in s.gc.handlers ==> AnswerOk(s, s.gc.handlers[r]))
  }

  ghost predicate AnswerOk(s: State, h: Handler) {
    h.next < |h.owners| && h.answer.Some? && InDeletion(h.answer.value) ==>
      Stamped(s, CurrentOwner(h), h.answer.value)
  }

  ghost predicate WorkerOk(s: State, k: ResourceRef, w: Worker) {
    && k in s.past.born && (k in s.api.store ==> s.api.store[k].deleted)
    && match w
       case Marking(n, None) => n > 0
       case Marking(n, Some(c)) => c in s.past.born && k in s.past.born[c]
       case Dropping(body) =>
         && Spent(s, k) && CascadeDeletion !in body.finalizers
         && Stamped(s, k, body.(finalizers := body.finalizers + [CascadeDeletion]))
  }

  ghost predicate InvWorkers(s: State) {
    forall k :: k in s.gc.workers ==> WorkerOk(s, k, s.gc.workers[k])
  }

  ghost predicate Inv(s: State) {
    && InvBirth(s) && InvStore(s) && InvEvents(s) && InvGraph(s) && InvOwners(s)
    && InvSpent(s) && InvCopies(s) && InvWorkers(s)
  }

  // ---------------------------------------------------------------------------------------------
  // Writes to the store
  // ---------------------------------------------------------------------------------------------

  /** One resource is rewritten or removed and one event about it is posted. */
  ghost predicate StoreChange(s: State, t: State, r: ResourceRef, ev: Event) {
    && r in s.api.store
    && t == s.(api := s.api.(store := t.api.store, events := Post(s, r, ev.kind, ev.obj).api.events))
    && !ev.kind.ADDED? && (ev.kind.DELETED? <==> r !in t.api.store)
    && (forall x :: x != r ==> (x in t.api.store <==> x in s.api.store))
    && (forall x :: x != r && x in s.api.store ==> t.api.store[x] == s.api.store[x])
    && r in s.past.born && ev.obj.owners == s.past.born[r]
    && (InDeletion(ev.obj) ==> Stamped(t, r, ev.obj))
    && (r !in t.api.store ==> Spent(s, r))
    && (r in t.api.store ==> Rewritten(s, t, r))
  }

  ghost predicate Rewritten(s: State, t: State, r: ResourceRef)
    requires r in s.api.store && r in t.api.store
  {
    var was, now := s.api.store[r], t.api.store[r];
    && WellFormed(s, r, now)
    && (was.deleted ==> now.deleted && Follows(was, now))
    && (now.deleted && CascadeDeletion !in now.finalizers ==> Spent(s, r))
  }

  /** Posting about a stored resource keeps its events in order and nobody's head changes to ADDED. */
  lemma PostKeepsEvents(s: State, t: State, r: ResourceRef, ev: Event)
    requires InvEvents(s) && StoreChange(s, t, r, ev)
    ensures InvEvents(t)
    ensures forall x :: Undelivered(t, x) <==> Undelivered(s, x)
    ensures forall x :: x != r ==> Pending(t, x) == Pending(s, x)
    ensures Pending(t, r) == Pending(s, r) + [ev]
  {
    forall x
      ensures EventsOk(t, x) && (Undelivered(t, x) <==> Undelivered(s, x))
      ensures x != r ==> Pending(t, x) == Pending(s, x)
    {
      assert EventsOk(s, x);
      PostKeepsEventsOf(s, t, r, ev, x);
    }
  }

  lemma PostKeepsEventsOf(s: State, t: State, r: ResourceRef, ev: Event, x: ResourceRef)
    requires EventsOk(s, x) && StoreChange(s, t, r, ev)
    ensures EventsOk(t, x)
    ensures Undelivered(t, x) <==> Undelivered(s, x)
    ensures Pending(t, x) == if x == r then Pending(s, x) + [ev] else Pending(s, x)
  {
  }

  lemma StoreChangeKeepsStamp(s: State, t: State, r: ResourceRef, ev: Event, x: ResourceRef, obj: Resource)
    requires StoreChange(s, t, r, ev) && Stamped(s, x, obj)
    ensures Stamped(t, x, obj)
  {
  }

  lemma StoreChangeKeepsCopies(s: State, t: State, r: ResourceRef, ev: Event)
    requires InvEvents(s) && InvCopies(s) && StoreChange(s, t, r, ev)
    ensures InvCopies(t)
  {
    PostKeepsEvents(s, t, r, ev);
    forall x, e | e in Pending(t, x) && InDeletion(e.obj) ensures Stamped(t, x, e.obj) {
      if x != r || e != ev {
        assert e in Pending(s, x);
        StoreChangeKeepsStamp(s, t, r, ev, x, e.obj);
      }
    }
    forall x | x in t.gc.queue ensures Stamped(t, x, t.gc.queue[x]) {
      StoreChangeKeepsStamp(s, t, r, ev, x, s.gc.queue[x]);
    }
    forall x | x in t.gc.handlers ensures AnswerOk(t, t.gc.handlers[x]) {
      assert AnswerOk(s, s.gc.handlers[x]);
    }
  }

  lemma StoreChangeKeepsWorkers(s: State, t: State, r: ResourceRef, ev: Event)
    requires InvWorkers(s) && StoreChange(s, t, r, ev)
    ensures InvWorkers(t)
  {
    forall k | k in t.gc.workers ensures WorkerOk(t, k, t.gc.workers[k]) {
      assert WorkerOk(s, k, s.gc.workers[k]);
      if t.gc.workers[k].Dropping? {
        var body := t.gc.workers[k].body;
        StoreChangeKeepsStamp(s, t, r, ev, k, body.(finalizers := body.finalizers + [CascadeDeletion]));
      }
    }
  }

  lemma StoreChangeKeepsInv(s: State, t: State, r: ResourceRef, ev: Event)
    requires Inv(s) && StoreChange(s, t, r, ev)
    ensures Inv(t)
  {
    PostKeepsEvents(s, t, r, ev);
    StoreChangeKeepsCopies(s, t, r, ev);
    StoreChangeKeepsWorkers(s, t, r, ev);
    StoreChangeKeepsOwners(s, t, r, ev);
    StoreChangeKeepsGraph(s, t, r, ev);
  }

  lemma StoreChangeKeepsOwners(s: State, t: State, r: ResourceRef, ev: Event)
    requires InvBirth(s) && InvStore(s) && InvOwners(s) && InvSpent(s) && StoreChange(s, t, r, ev)
    ensures InvBirth(t) && InvStore(t) && InvOwners(t) && InvSpent(t)
  {
    assert forall k :: Spent(t, k) <==> Spent(s, k);
  }

  lemma StoreChangeKeepsGraph(s: State, t: State, r: ResourceRef, ev: Event)
    requires InvEvents(s) && InvGraph(s) && StoreChange(s, t, r, ev)
    ensures InvGraph(t)
  {
    PostKeepsEvents(s, t, r, ev);
  }

  lemma DeleteIsStoreChange(s: State, r: ResourceRef)
    requires r in s.api.store && !s.api.store[r].deleted && WellFormed(s, r, s.api.store[r])
    ensures var t := ApiDelete(s, r).value; r in t.api.store && StoreChange(s, t, r, Event(MODIFIED, t.api.store[r]))
  {
    var t := ApiDelete(s, r).value;
    var obj := t.api.store[r];
    assert obj.finalizers[|obj.finalizers| - 1] == CascadeDeletion;
    assert CascadeDeletion in obj.finalizers;
    assert WellFormed(s, r, obj) && Stamped(t, r, obj);
    assert Rewritten(s, t, r);
  }

  lemma DeleteKeepsInv(s: State, r: ResourceRef)
    requires Inv(s) && r in s.api.store
    ensures Inv(ApiDelete(s, r).value)
  {
    if !s.api.store[r].deleted {
      DeleteIsStoreChange(s, r);
      var t := ApiDelete(s, r).value;
      StoreChangeKeepsInv(s, t, r, Event(MODIFIED, t.api.store[r]));
    }
  }

  /** The event that tells of a resource being stored, or removed. */
  function Announcement(s: State, r: ResourceRef, obj: Resource): Event
    requires r in s.api.store
  {
    if obj.deleted && obj.finalizers == [] then Event(DELETED, s.api.store[r]) else Event(MODIFIED, obj)
  }

  /** New contents for a stored resource: neither owners nor deletion change. */
  ghost predicate Contents(s: State, r: ResourceRef, obj: Resource)
    requires r in s.api.store
  {
    var was := s.api.store[r];
    && WellFormed(s, r, was) && obj.owners == was.owners && obj.deleted == was.deleted && NoDuplicates(obj.finalizers)
    && if obj.deleted then Follows(was, obj) && (CascadeDeletion !in obj.finalizers ==> Spent(s, r))
       else CascadeDeletion !in obj.finalizers
  }

  lemma ContentsAreStoreChange(s: State, r: ResourceRef, obj: Resource)
    requires r in s.api.store && Contents(s, r, obj)
    ensures StoreChange(s, StoreOrRemove(s, r, obj), r, Announcement(s, r, obj))
  {
    var t := StoreOrRemove(s, r, obj);
    if r in t.api.store {
      assert Rewritten(s, t, r);
    }
  }

  lemma ContentsKeepInv(s: State, r: ResourceRef, obj: Resource)
    requires Inv(s) && r in s.api.store && Contents(s, r, obj)
    ensures Inv(StoreOrRemove(s, r, obj))
  {
    ContentsAreStoreChange(s, r, obj);
    StoreChangeKeepsInv(s, StoreOrRemove(s, r, obj), r, Announcement(s, r, obj));
  }

  /** What a write of others stores. */
  function WrittenBy(s: State, a: Action): Resource
    requires a.Write? && a.ref in s.api.store
  {
    s.api.store[a.ref].(finalizers := a.finalizers, modified := a.modified)
  }

  lemma WriteIsContents(s: State, a: Action)
    requires a.Write? && SoundStep(s, a) && WellFormed(s, a.ref, s.api.store[a.ref])
    requires s.api.store[a.ref].deleted && CascadeDeletion !in s.api.store[a.ref].finalizers ==> Spent(s, a.ref)
    ensures Contents(s, a.ref, WrittenBy(s, a)) && Apply(s, a) == StoreOrRemove(s, a.ref, WrittenBy(s, a))
  {
  }

  lemma WriteKeepsInv(s: State, a: Action)
    requires Inv(s) && a.Write? && SoundStep(s, a)
    ensures Inv(Apply(s, a))
  {
    WriteIsContents(s, a);
    ContentsKeepInv(s, a.ref, WrittenBy(s, a));
  }

  lemma MarkKeepsInv(s: State, r: ResourceRef)
    requires Inv(s) && Enabled(s, Mark(r))
    ensures Inv(Apply(s, Mark(r)))
  {
    DeleteKeepsInv(s, r);
  }

  // ---------------------------------------------------------------------------------------------
  // Creation
  // ---------------------------------------------------------------------------------------------

  lemma NonEmptyHasMember<T>(xs: seq<T>)
    ensures xs == [] || exists x :: x in xs
  {
    if xs != [] {
      assert xs[0] in xs;
    }
  }

  lemma CreateKeepsEvents(s: State, a: Action)
    requires InvBirth(s) && InvEvents(s) && SoundStep(s, a) && a.Create?
    ensures InvEvents(Apply(s, a))
    ensures Pending(s, a.ref) == [] && Undelivered(Apply(s, a), a.ref)
    ensures forall x :: x != a.ref ==> Pending(Apply(s, a), x) == Pending(s, x)
  {
    var t := Apply(s, a);
    assert EventsOk(s, a.ref);
    NonEmptyHasMember(Pending(s, a.ref));
    forall x ensures EventsOk(t, x) && (x != a.ref ==> Pending(t, x) == Pending(s, x)) {
      assert EventsOk(s, x);
    }
  }

  lemma BornLater(
      born: map<ResourceRef, seq<ResourceRef>>, age: map<ResourceRef, nat>, r: ResourceRef, owners: seq<ResourceRef>)
    requires Aged(born, age) && r !in born && forall o :: o in owners ==> o in born
    ensures Aged(born[r := owners], age[r := |born|])
  {
    assert |born[r := owners]| == |born| + 1;
  }

  lemma CreateKeepsBirth(s: State, a: Action)
    requires InvBirth(s) && SoundStep(s, a) && a.Create?
    ensures InvBirth(Apply(s, a))
  {
    BornLater(s.past.born, s.past.age, a.ref, a.owners);
  }

  lemma CreateKeepsStore(s: State, a: Action)
    requires InvBirth(s) && InvStore(s) && SoundStep(s, a) && a.Create?
    ensures InvStore(Apply(s, a))
  {
    var t := Apply(s, a);
    forall r | r in t.api.store ensures WellFormed(t, r, t.api.store[r]) {
      assert r != a.ref ==> WellFormed(s, r, s.api.store[r]);
    }
  }

  lemma CreateKeepsOwners(s: State, a: Action)
    requires InvBirth(s) && InvOwners(s) && SoundStep(s, a) && a.Create?
    ensures InvOwners(Apply(s, a))
  {
  }

  lemma CreateKeepsGraph(s: State, a: Action)
    requires InvBirth(s) && InvEvents(s) && InvGraph(s) && SoundStep(s, a) && a.Create?
    ensures InvGraph(Apply(s, a))
  {
    CreateKeepsEvents(s, a);
    var t := Apply(s, a);
    assert forall c :: c != a.ref ==> (Undelivered(t, c) <==> Undelivered(s, c));
  }

  /** Whoever is past the collector, or gone, gains no dependents. */
  lemma CreateKeepsSpent(s: State, a: Action, k: ResourceRef)
    requires SoundStep(s, a) && a.Create? && Spent(s, k) && (k in s.api.store ==> Spending(s, k))
    ensures Spent(Apply(s, a), k)
  {
  }

  lemma CreateKeepsInvSpent(s: State, a: Action)
    requires InvBirth(s) && InvSpent(s) && SoundStep(s, a) && a.Create?
    ensures InvSpent(Apply(s, a))
  {
    var t := Apply(s, a);
    forall k | k in t.api.store && t.api.store[k].deleted && CascadeDeletion !in t.api.store[k].finalizers
      ensures Spent(t, k)
    {
      CreateKeepsSpent(s, a, k);
    }
  }

  lemma CreateKeepsStamp(s: State, a: Action, x: ResourceRef, obj: Resource)
    requires InvBirth(s) && SoundStep(s, a) && a.Create? && Stamped(s, x, obj)
    ensures Stamped(Apply(s, a), x, obj)
  {
  }

  lemma CreateKeepsCopies(s: State, a: Action)
    requires InvBirth(s) && InvEvents(s) && InvCopies(s) && SoundStep(s, a) && a.Create?
    ensures InvCopies(Apply(s, a))
  {
    CreateKeepsEvents(s, a);
    var t := Apply(s, a);
    forall x, e | e in Pending(t, x) && InDeletion(e.obj) ensures Stamped(t, x, e.obj) {
      assert x != a.ref && e in Pending(s, x);
      CreateKeepsStamp(s, a, x, e.obj);
    }
    forall x | x in t.gc.queue ensures Stamped(t, x, t.gc.queue[x]) {
      CreateKeepsStamp(s, a, x, s.gc.queue[x]);
    }
    forall x | x in t.gc.handlers ensures AnswerOk(t, t.gc.handlers[x]) {
      assert AnswerOk(s, s.gc.handlers[x]);
    }
  }

  lemma CreateKeepsWorkers(s: State, a: Action)
    requires InvBirth(s) && InvWorkers(s) && SoundStep(s, a) && a.Create?
    ensures InvWorkers(Apply(s, a))
  {
    var t := Apply(s, a);
    forall k | k in t.gc.workers ensures WorkerOk(t, k, t.gc.workers[k]) {
      assert WorkerOk(s, k, s.gc.workers[k]);
      if s.gc.workers[k].Dropping? {
        CreateKeepsSpent(s, a, k);
      }
    }
  }

  lemma CreateKeepsInv(s: State, a: Action)
    requires Inv(s) && SoundStep(s, a) && a.Create?
    ensures Inv(Apply(s, a))
  {
    CreateKeepsEvents(s, a);
    CreateKeepsBirth(s, a);
    CreateKeepsStore(s, a);
    CreateKeepsOwners(s, a);
    CreateKeepsGraph(s, a);
    CreateKeepsInvSpent(s, a);
    CreateKeepsCopies(s, a);
    CreateKeepsWorkers(s, a);
  }

  // ---------------------------------------------------------------------------------------------
  // The event handlers of the garbage collector
  // ---------------------------------------------------------------------------------------------

  /** The parts of the invariant that do not look at the queue, the workers or the handlers. */
  lemma FrameStore(s: State, t: State)
    requires t == s.(gc := s.gc.(queue := t.gc.queue, workers := t.gc.workers, handlers := t.gc.handlers))
    requires InvBirth(s) && InvStore(s) && InvOwners(s) && InvSpent(s)
    ensures InvBirth(t) && InvStore(t) && InvOwners(t) && InvSpent(t)
  {
    assert forall k :: Spent(t, k) <==> Spent(s, k);
  }

  lemma FrameGraph(s: State, t: State)
    requires t == s.(gc := s.gc.(queue := t.gc.queue, workers := t.gc.workers, handlers := t.gc.handlers))
    requires InvGraph(s)
    ensures InvGraph(t)
  {
    assert forall x :: Undelivered(t, x) <==> Undelivered(s, x);
  }

  lemma FrameEvents(s: State, t: State)
    requires t == s.(gc := s.gc.(queue := t.gc.queue, workers := t.gc.workers, graph := t.gc.graph))
    requires InvEvents(s)
    ensures InvEvents(t)
  {
    forall x ensures EventsOk(t, x) {
      assert EventsOk(s, x);
    }
  }

  /** Copies stay accurate while the store, the owners and the pending events are left alone. */
  lemma FrameCopies(s: State, t: State)
    requires t.api.store == s.api.store && t.past.born == s.past.born && InvCopies(s)
    requires forall x, e :: e in Pending(t, x) ==> e in Pending(s, x)
    requires forall x :: x in t.gc.queue ==> Stamped(t, x, t.gc.queue[x])
    requires forall x :: x in t.gc.handlers ==> AnswerOk(t, t.gc.handlers[x])
    ensures InvCopies(t)
  {
    forall x, e | e in Pending(t, x) && InDeletion(e.obj) ensures Stamped(t, x, e.obj) {
      assert Stamped(s, x, e.obj);
    }
  }

  lemma FrameWorker(s: State, t: State, k: ResourceRef, w: Worker)
    requires t.api.store == s.api.store && t.past.born == s.past.born && s.past.buried <= t.past.buried
    requires WorkerOk(s, k, w)
    ensures WorkerOk(t, k, w)
  {
  }

  lemma EnqueueKeepsInv(s: State, r: ResourceRef, obj: Resource)
    requires Inv(s) && (InDeletion(obj) ==> Stamped(s, r, obj))
    ensures Inv(Enqueue(s, r, obj))
  {
    var t := Enqueue(s, r, obj);
    FrameStore(s, t);
    FrameGraph(s, t);
    FrameEvents(s, t);
    EnqueueKeepsCopies(s, r, obj);
    EnqueueKeepsWorkers(s, r, obj);
  }

  lemma EnqueueKeepsCopies(s: State, r: ResourceRef, obj: Resource)
    requires InvCopies(s) && (InDeletion(obj) ==> Stamped(s, r, obj))
    ensures InvCopies(Enqueue(s, r, obj))
  {
    var t := Enqueue(s, r, obj);
    forall x | x in t.gc.queue ensures Stamped(t, x, t.gc.queue[x]) {
      assert x in s.gc.queue ==> Stamped(s, x, s.gc.queue[x]);
    }
    forall x | x in t.gc.handlers ensures AnswerOk(t, t.gc.handlers[x]) {
      assert AnswerOk(s, s.gc.handlers[x]);
    }
    FrameCopies(s, t);
  }

  lemma EnqueueKeepsWorkers(s: State, r: ResourceRef, obj: Resource)
    requires InvWorkers(s)
    ensures InvWorkers(Enqueue(s, r, obj))
  {
    var t := Enqueue(s, r, obj);
    forall k | k in t.gc.workers ensures WorkerOk(t, k, t.gc.workers[k]) {
      FrameWorker(s, t, k, s.gc.workers[k]);
    }
  }

  /** The state right after an event is taken from its queue. */
  function Taken(s: State, r: ResourceRef): State
    requires Pending(s, r) != []
  {
    s.(api := s.api.(events := s.api.events[r := Pending(s, r)[1..]]))
  }

  ghost function DeliveredGraph(s: State, r: ResourceRef): Adjacency
    requires Pending(s, r) != []
  {
    var event := Pending(s, r)[0];
    Changed(s.gc.graph, if event.kind.ADDED? then Added(r, event.obj.owners) else Modified(r, event.obj.owners))
  }

  lemma HeadFacts(s: State, r: ResourceRef)
    requires EventsOk(s, r) && Pending(s, r) != []
    ensures r in s.past.born && Pending(s, r)[0].obj.owners == s.past.born[r]
    ensures r !in s.past.buried && r !in s.gc.handlers
    ensures forall i :: 0 < i < |Pending(s, r)| ==> !Pending(s, r)[i].kind.ADDED?
    ensures Pending(s, r)[0].kind.DELETED? ==> |Pending(s, r)| == 1 && r !in s.api.store
  {
    assert Pending(s, r)[0] in Pending(s, r);
  }

  /** Delivering ADDED or MODIFIED makes the edges into `r` its owners and changes no other edge. */
  lemma DeliveryEdges(s: State, r: ResourceRef)
    requires Aged(s.past.born, s.past.age) && InvGraph(s) && r in s.past.born
    requires Pending(s, r) != [] && !Pending(s, r)[0].kind.DELETED? && Pending(s, r)[0].obj.owners == s.past.born[r]
    requires Pending(s, r)[0].kind.MODIFIED? ==> r !in s.past.buried
    ensures DuplicateFree(DeliveredGraph(s, r))
    ensures forall o, c :: (o, c) in EdgesOf(DeliveredGraph(s, r)) <==>
      if c == r then o in s.past.born[r] else (o, c) in EdgesOf(s.gc.graph)
  {
    if Pending(s, r)[0].kind.ADDED? {
      WithOwnersEdges(s.gc.graph, r, s.past.born[r]);
    } else {
      UpdatedEdges(s.gc.graph, r, s.past.born[r]);
    }
  }

  lemma DeliveryPasses(s: State, r: ResourceRef)
    requires InvBirth(s) && InvGraph(s) && r in s.past.born
    requires Pending(s, r) != [] && !Pending(s, r)[0].kind.DELETED? && Pending(s, r)[0].obj.owners == s.past.born[r]
    requires Pending(s, r)[0].kind.MODIFIED? ==> r !in s.past.buried
    ensures TreeFrom(EdgesOf(DeliveredGraph(s, r)), r)
  {
    DeliveryEdges(s, r);
    assert EdgesOf(DeliveredGraph(s, r)) <= Ownership(s.past.born);
    SubgraphTree(EdgesOf(DeliveredGraph(s, r)), Ownership(s.past.born), r);
  }

  lemma TakeKeepsEvents(s: State, t: State, r: ResourceRef)
    requires InvEvents(s) && Pending(s, r) != [] && !Pending(s, r)[0].kind.DELETED?
    requires t == Taken(s, r).(gc := s.gc.(graph := t.gc.graph))
    ensures InvEvents(t) && !Undelivered(t, r)
    ensures forall x :: x != r ==> Pending(t, x) == Pending(s, x)
    ensures Pending(t, r) == Pending(s, r)[1..]
  {
    HeadFacts(s, r);
    forall x ensures EventsOk(t, x) && (x != r ==> Pending(t, x) == Pending(s, x)) {
      assert EventsOk(s, x);
      TakeKeepsEventsOf(s, t, r, x);
    }
    assert Pending(t, r) == Pending(s, r)[1..];
  }

  lemma TakeKeepsEventsOf(s: State, t: State, r: ResourceRef, x: ResourceRef)
    requires EventsOk(s, x) && Pending(s, r) != [] && !Pending(s, r)[0].kind.DELETED?
    requires t == Taken(s, r).(gc := s.gc.(graph := t.gc.graph))
    ensures EventsOk(t, x)
  {
    assert Pending(t, x) == if x == r then Pending(s, x)[1..] else Pending(s, x);
  }

  lemma DeliverChangeKeepsInv(s: State, r: ResourceRef, visited: set<ResourceRef>)
    requires Enabled(s, Deliver(r, visited)) && Inv(s) && !Pending(s, r)[0].kind.DELETED?
    ensures Inv(Apply(s, Deliver(r, visited)))
    ensures Apply(s, Deliver(r, visited)) ==
      Enqueue(Taken(s, r).(gc := s.gc.(graph := Touch(DeliveredGraph(s, r), visited))), r, Pending(s, r)[0].obj)
  {
    var obj := Pending(s, r)[0].obj;
    var t := Taken(s, r).(gc := s.gc.(graph := Touch(DeliveredGraph(s, r), visited)));
    DeliveryApplied(s, r, visited);
    DeliverKeepsStore(s, t, r);
    TakeKeepsEvents(s, t, r);
    DeliverKeepsGraph(s, t, r, visited);
    DeliverKeepsCopies(s, t, r);
    EnqueueKeepsInv(t, r, obj);
  }

  lemma DeliveryApplied(s: State, r: ResourceRef, visited: set<ResourceRef>)
    requires InvBirth(s) && InvGraph(s) && EventsOk(s, r)
    requires Pending(s, r) != [] && !Pending(s, r)[0].kind.DELETED?
    ensures ApplyDelivery(s, r, visited) ==
      Enqueue(Taken(s, r).(gc := s.gc.(graph := Touch(DeliveredGraph(s, r), visited))), r, Pending(s, r)[0].obj)
  {
    HeadFacts(s, r);
    DeliveryPasses(s, r);
  }

  lemma DeliverKeepsStore(s: State, t: State, r: ResourceRef)
    requires InvBirth(s) && InvStore(s) && InvOwners(s) && InvSpent(s) && Pending(s, r) != []
    requires t == Taken(s, r).(gc := s.gc.(graph := t.gc.graph))
    ensures InvBirth(t) && InvStore(t) && InvOwners(t) && InvSpent(t)
  {
    assert forall k :: Spent(t, k) <==> Spent(s, k);
  }

  lemma DeliverKeepsGraph(s: State, t: State, r: ResourceRef, visited: set<ResourceRef>)
    requires InvBirth(s) && InvEvents(s) && InvGraph(s)
    requires Pending(s, r) != [] && !Pending(s, r)[0].kind.DELETED?
    requires t == Taken(s, r).(gc := s.gc.(graph := Touch(DeliveredGraph(s, r), visited)))
    ensures InvGraph(t)
  {
    assert EventsOk(s, r);
    HeadFacts(s, r);
    DeliveryEdges(s, r);
    TouchKeepsEdges(DeliveredGraph(s, r), visited);
    TakeKeepsEvents(s, t, r);
    SettledEdges(s, t, r);
  }

  lemma SettledEdges(s: State, t: State, r: ResourceRef)
    requires InvGraph(s) && r in s.past.born && r !in s.past.buried
    requires t == s.(api := s.api.(events := t.api.events), gc := s.gc.(graph := t.gc.graph))
    requires forall x :: x != r ==> Pending(t, x) == Pending(s, x)
    requires !Undelivered(t, r) && DuplicateFree(t.gc.graph)
    requires forall o, c :: (o, c) in EdgesOf(t.gc.graph) <==>
      if c == r then o in s.past.born[r] else (o, c) in EdgesOf(s.gc.graph)
    ensures InvGraph(t)
  {
    assert forall c :: c != r ==> (Undelivered(t, c) <==> Undelivered(s, c));
  }

  lemma DeliverKeepsCopies(s: State, t: State, r: ResourceRef)
    requires InvCopies(s) && InvWorkers(s) && Pending(s, r) != []
    requires t == Taken(s, r).(gc := s.gc.(graph := t.gc.graph))
    ensures InvCopies(t) && InvWorkers(t)
    ensures forall obj :: Stamped(s, r, obj) ==> Stamped(t, r, obj)
  {
    assert forall x :: x != r ==> Pending(t, x) == Pending(s, x);
    assert Pending(t, r) == Pending(s, r)[1..];
    forall x | x in t.gc.queue ensures Stamped(t, x, t.gc.queue[x]) {
      assert Stamped(s, x, s.gc.queue[x]);
    }
    forall x | x in t.gc.handlers ensures AnswerOk(t, t.gc.handlers[x]) {
      assert AnswerOk(s, s.gc.handlers[x]);
    }
    FrameCopies(s, t);
    forall k | k in t.gc.workers ensures WorkerOk(t, k, t.gc.workers[k]) {
      FrameWorker(s, t, k, s.gc.workers[k]);
    }
  }

  /** What is gone from the store has no dependents in the graph: the refusal in the handler is unreachable. */
  lemma GoneHasNoDependents(s: State, r: ResourceRef)
    requires InvGraph(s) && InvOwners(s) && r !in s.api.store
    ensures Dependents(s.gc.graph, r) == [] && Spent(s, r)
  {
    assert forall c :: c in Dependents(s.gc.graph, r) ==> (r, c) in EdgesOf(s.gc.graph);
    NonEmptyHasMember(Dependents(s.gc.graph, r));
  }

  /** A handler finishes for a resource that is gone and has no event left. */
  ghost predicate ReadyToBury(s: State, r: ResourceRef) {
    && InvBirth(s) && InvStore(s) && InvGraph(s) && InvOwners(s) && InvSpent(s)
    && InvCopies(s) && InvWorkers(s)
    && (forall x :: x != r ==> EventsOk(s, x))
    && Pending(s, r) == [] && r in s.past.born && r !in s.api.store && r !in s.past.buried
  }

  lemma BuryKeepsInv(s: State, r: ResourceRef)
    requires ReadyToBury(s, r)
    ensures Inv(Bury(s, r))
  {
    BuryKeepsEvents(s, r);
    BuryKeepsGraph(s, r);
    BuryKeepsOwners(s, r);
    BuryKeepsCopies(s, r);
  }

  lemma BuryKeepsEvents(s: State, r: ResourceRef)
    requires forall x :: x != r ==> EventsOk(s, x)
    requires Pending(s, r) == [] && r in s.past.born && r !in s.api.store
    ensures InvEvents(Bury(s, r))
  {
    var t := Bury(s, r);
    forall x ensures EventsOk(t, x) {
      assert Pending(t, x) == Pending(s, x);
      if x != r {
        assert EventsOk(s, x);
      }
    }
  }

  lemma BuryKeepsGraph(s: State, r: ResourceRef)
    requires InvGraph(s) && InvOwners(s) && Pending(s, r) == [] && r in s.past.born && r !in s.api.store
    ensures InvGraph(Bury(s, r))
  {
    GoneHasNoDependents(s, r);
    RemoveAllEdges(s.gc.graph, {r});
    var t := Bury(s, r);
    assert forall x :: Undelivered(t, x) <==> Undelivered(s, x);
  }

  lemma BuryKeepsOwners(s: State, r: ResourceRef)
    requires InvBirth(s) && InvStore(s) && InvOwners(s) && InvSpent(s) && r in s.past.born
    ensures InvBirth(Bury(s, r)) && InvStore(Bury(s, r)) && InvOwners(Bury(s, r)) && InvSpent(Bury(s, r))
  {
    assert forall k :: Spent(s, k) ==> Spent(Bury(s, r), k);
  }

  lemma BuryKeepsCopies(s: State, r: ResourceRef)
    requires InvCopies(s) && InvWorkers(s)
    ensures InvCopies(Bury(s, r)) && InvWorkers(Bury(s, r))
  {
    var t := Bury(s, r);
    forall x | x in t.gc.queue ensures Stamped(t, x, t.gc.queue[x]) {
      assert Stamped(s, x, s.gc.queue[x]);
    }
    forall x | x in t.gc.handlers ensures AnswerOk(t, t.gc.handlers[x]) {
      assert AnswerOk(s, s.gc.handlers[x]);
    }
    assert forall x :: Pending(t, x) == Pending(s, x);
    FrameCopies(s, t);
    forall k | k in t.gc.workers ensures WorkerOk(t, k, t.gc.workers[k]) {
      FrameWorker(s, t, k, s.gc.workers[k]);
    }
  }

  lemma DeliverDeletedKeepsInv(s: State, r: ResourceRef, visited: set<ResourceRef>)
    requires Enabled(s, Deliver(r, visited)) && Inv(s) && Pending(s, r)[0].kind.DELETED?
    ensures Inv(Apply(s, Deliver(r, visited)))
  {
    TakeDeletedIsReady(s, r);
    DeletionApplied(s, r, visited);
    if s.past.born[r] == [] {
      BuryKeepsInv(Taken(s, r), r);
    } else {
      StartHandlerKeepsInv(Taken(s, r), r);
    }
  }

  lemma DeletionApplied(s: State, r: ResourceRef, visited: set<ResourceRef>)
    requires EventsOk(s, r) && Pending(s, r) != [] && Pending(s, r)[0].kind.DELETED?
    ensures r in s.past.born
    ensures ApplyDelivery(s, r, visited) ==
      var t := Taken(s, r);
      if s.past.born[r] == [] then Bury(t, r)
      else t.(gc := t.gc.(handlers := t.gc.handlers[r := Handler(s.past.born[r], 0, None)]))
  {
    HeadFacts(s, r);
  }

  lemma TakeDeletedEvents(s: State, r: ResourceRef)
    requires InvEvents(s) && Pending(s, r) != [] && Pending(s, r)[0].kind.DELETED?
    ensures forall x :: x != r ==> EventsOk(Taken(s, r), x)
    ensures Pending(Taken(s, r), r) == []
    ensures r in s.past.born && r !in s.api.store && r !in s.past.buried && r !in s.gc.handlers
    ensures forall x :: Undelivered(Taken(s, r), x) <==> Undelivered(s, x)
  {
    var t := Taken(s, r);
    assert EventsOk(s, r);
    HeadFacts(s, r);
    assert Pending(t, r) == [];
    forall x ensures x != r ==> EventsOk(t, x) && Pending(t, x) == Pending(s, x) {
      assert EventsOk(s, x);
    }
  }

  lemma TakeDeletedIsReady(s: State, r: ResourceRef)
    requires Inv(s) && Pending(s, r) != [] && Pending(s, r)[0].kind.DELETED?
    ensures ReadyToBury(Taken(s, r), r)
  {
    var t := Taken(s, r);
    TakeDeletedEvents(s, r);
    DeliverKeepsStore(s, t, r);
    DeliverKeepsCopies(s, t, r);
    FrameEdges(s, t);
  }

  lemma FrameEdges(s: State, t: State)
    requires InvGraph(s)
    requires t == s.(api := s.api.(events := t.api.events)) && forall x :: Undelivered(t, x) <==> Undelivered(s, x)
    ensures InvGraph(t)
  {
  }

  /** The handler of a deleted resource moves to position `next` of its owner list, with nothing read yet. */
  lemma StartHandlerKeepsInv(s: State, r: ResourceRef)
    requires ReadyToBury(s, r) && s.past.born[r] != []
    ensures Inv(s.(gc := s.gc.(handlers := s.gc.handlers[r := Handler(s.past.born[r], 0, None)])))
  {
    var h := Handler(s.past.born[r], 0, None);
    HandlerStepKeepsInv(s, r, h);
  }

  lemma HandlerStepKeepsInv(s: State, r: ResourceRef, h: Handler)
    requires ReadyToBury(s, r) && h.owners == s.past.born[r] && h.next < |h.owners| && AnswerOk(s, h)
    ensures Inv(s.(gc := s.gc.(handlers := s.gc.handlers[r := h])))
  {
    var t := s.(gc := s.gc.(handlers := s.gc.handlers[r := h]));
    FrameStore(s, t);
    FrameGraph(s, t);
    HandlerStepKeepsEvents(s, r, h);
    HandlerStepKeepsCopies(s, r, h);
  }

  lemma HandlerStepKeepsEvents(s: State, r: ResourceRef, h: Handler)
    requires forall x :: x != r ==> EventsOk(s, x)
    requires Pending(s, r) == [] && r in s.past.born && r !in s.api.store && r !in s.past.buried
    requires h.owners == s.past.born[r] && h.next < |h.owners|
    ensures InvEvents(s.(gc := s.gc.(handlers := s.gc.handlers[r := h])))
  {
    var t := s.(gc := s.gc.(handlers := s.gc.handlers[r := h]));
    forall x ensures EventsOk(t, x) {
      assert Pending(t, x) == Pending(s, x);
      if x != r {
        assert EventsOk(s, x);
      }
    }
  }

  lemma HandlerStepKeepsCopies(s: State, r: ResourceRef, h: Handler)
    requires InvCopies(s) && InvWorkers(s) && AnswerOk(s, h)
    ensures InvCopies(s.(gc := s.gc.(handlers := s.gc.handlers[r := h])))
    ensures InvWorkers(s.(gc := s.gc.(handlers := s.gc.handlers[r := h])))
  {
    var t := s.(gc := s.gc.(handlers := s.gc.handlers[r := h]));
    forall x | x in t.gc.queue ensures Stamped(t, x, t.gc.queue[x]) {
      assert Stamped(s, x, s.gc.queue[x]);
    }
    forall x | x in t.gc.handlers ensures AnswerOk(t, t.gc.handlers[x]) {
      assert x != r ==> AnswerOk(s, s.gc.handlers[x]);
    }
    assert forall x :: Pending(t, x) == Pending(s, x);
    FrameCopies(s, t);
    forall k | k in t.gc.workers ensures WorkerOk(t, k, t.gc.workers[k]) {
      FrameWorker(s, t, k, s.gc.workers[k]);
    }
  }

  lemma InHandlerIsReady(s: State, r: ResourceRef)
    requires Inv(s) && r in s.gc.handlers
    ensures ReadyToBury(s, r)
    ensures s.gc.handlers[r].owners == s.past.born[r] && s.gc.handlers[r].next < |s.past.born[r]|
    ensures AnswerOk(s, s.gc.handlers[r])
  {
    assert EventsOk(s, r);
  }

  /** The owner a DELETED handler asks for is still stored: its read never ends in a 404. */
  lemma OwnerIsFound(s: State, r: ResourceRef)
    requires InvOwners(s) && EventsOk(s, r) && r in s.gc.handlers
    ensures CurrentOwner(s.gc.handlers[r]) in s.api.store
  {
    assert CurrentOwner(s.gc.handlers[r]) in s.past.born[r];
  }

  lemma ReadKeepsInv(s: State, r: ResourceRef)
    requires Inv(s) && Enabled(s, ReadOwner(r))
    ensures Inv(Apply(s, ReadOwner(r)))
  {
    InHandlerIsReady(s, r);
    assert EventsOk(s, r);
    OwnerIsFound(s, r);
    var h := s.gc.handlers[r];
    var o := CurrentOwner(h);
    assert WellFormed(s, o, s.api.store[o]);
    HandlerStepKeepsInv(s, r, h.(answer := Some(s.api.store[o])));
  }

  lemma EnqueueOwnerKeepsInv(s: State, r: ResourceRef)
    requires Inv(s) && Enabled(s, EnqueueOwner(r))
    ensures Inv(Apply(s, EnqueueOwner(r)))
  {
    var h := s.gc.handlers[r];
    AnswerIsStamped(s, r);
    EnqueueKeepsInv(s, CurrentOwner(h), h.answer.value);
    NextOwnerKeepsInv(Enqueue(s, CurrentOwner(h), h.answer.value), r);
  }

  lemma AnswerIsStamped(s: State, r: ResourceRef)
    requires InvCopies(s) && Enabled(s, EnqueueOwner(r))
    ensures var h := s.gc.handlers[r];
      InDeletion(h.answer.value) ==> Stamped(s, CurrentOwner(h), h.answer.value)
  {
    assert AnswerOk(s, s.gc.handlers[r]);
  }

  lemma NextOwnerFromReady(s: State, r: ResourceRef)
    requires ReadyToBury(s, r) && r in s.gc.handlers
    requires s.gc.handlers[r].owners == s.past.born[r] && s.gc.handlers[r].next < |s.past.born[r]|
    ensures Inv(NextOwner(s, r))
  {
    var h := s.gc.handlers[r];
    var next := Handler(h.owners, h.next + 1, None);
    if h.next + 1 == |h.owners| {
      BuryKeepsInv(s, r);
    } else {
      HandlerStepKeepsInv(s, r, next);
    }
    NextOwnerIs(s, r, next);
  }

  lemma NextOwnerIs(s: State, r: ResourceRef, next: Handler)
    requires r in s.gc.handlers
    requires next == Handler(s.gc.handlers[r].owners, s.gc.handlers[r].next + 1, None)
    ensures NextOwner(s, r) ==
      if next.next >= |next.owners| then Bury(s, r)
      else s.(gc := s.gc.(handlers := s.gc.handlers[r := next]))
  {
  }

  lemma NextOwnerKeepsInv(s: State, r: ResourceRef)
    requires Inv(s) && r in s.gc.handlers
    ensures Inv(NextOwner(s, r))
  {
    InHandlerIsReady(s, r);
    NextOwnerFromReady(s, r);
  }

  // ---------------------------------------------------------------------------------------------
  // The workers
  // ---------------------------------------------------------------------------------------------

  /** A resource without dependents in the graph has none anywhere, if the collector has heard of all. */
  lemma NoDependentsIsSpent(s: State, k: ResourceRef)
    requires InvGraph(s) && Dependents(s.gc.graph, k) == [] && ChildrenAreKnown(s, k)
    ensures Spent(s, k)
  {
    assert forall c :: (k, c) !in EdgesOf(s.gc.graph);
  }

  lemma DependentIsOwned(s: State, k: ResourceRef, n: nat)
    requires InvGraph(s) && n < |Dependents(s.gc.graph, k)|
    ensures var c := Dependents(s.gc.graph, k)[n]; c in s.past.born && k in s.past.born[c]
  {
    var ds := Dependents(s.gc.graph, k);
    assert ds[n] in ds;
    assert (k, ds[n]) in EdgesOf(s.gc.graph);
  }

  lemma TakenWorkerOk(s: State, k: ResourceRef)
    requires InvGraph(s) && k in s.gc.queue && Stamped(s, k, s.gc.queue[k]) && Sound(s, Take(k))
    ensures WorkerOk(s, k, ApplyTake(s, k).gc.workers[k])
  {
    var obj, ds := s.gc.queue[k], Dependents(s.gc.graph, k);
    if ds == [] {
      NoDependentsIsSpent(s, k);
      assert obj.finalizers == Popped(obj).finalizers + [CascadeDeletion];
    } else {
      DependentIsOwned(s, k, 0);
    }
  }

  /** A change to the queue, to the workers and to lazily created lists. */
  lemma WorkerStepKeepsInv(s: State, t: State, rs: set<ResourceRef>)
    requires Inv(s)
    requires t == s.(gc := s.gc.(graph := Touch(s.gc.graph, rs), queue := t.gc.queue, workers := t.gc.workers))
    requires forall k :: k in t.gc.queue ==> k in s.gc.queue && t.gc.queue[k] == s.gc.queue[k]
    requires forall k :: k in t.gc.workers ==> WorkerOk(s, k, t.gc.workers[k])
    ensures Inv(t)
  {
    TouchKeepsEdges(s.gc.graph, rs);
    WorkerStepKeepsStore(s, t);
    FrameEvents(s, t);
    WorkerStepKeepsGraph(s, t, rs);
    WorkerStepKeepsCopies(s, t);
    forall k | k in t.gc.workers ensures WorkerOk(t, k, t.gc.workers[k]) {
      FrameWorker(s, t, k, t.gc.workers[k]);
    }
  }

  lemma WorkerStepKeepsStore(s: State, t: State)
    requires t == s.(gc := s.gc.(graph := t.gc.graph, queue := t.gc.queue, workers := t.gc.workers))
    requires InvBirth(s) && InvStore(s) && InvOwners(s) && InvSpent(s)
    ensures InvBirth(t) && InvStore(t) && InvOwners(t) && InvSpent(t)
  {
    assert forall k :: Spent(t, k) <==> Spent(s, k);
  }

  lemma WorkerStepKeepsGraph(s: State, t: State, rs: set<ResourceRef>)
    requires t == s.(gc := s.gc.(graph := Touch(s.gc.graph, rs), queue := t.gc.queue, workers := t.gc.workers))
    requires InvGraph(s)
    ensures InvGraph(t)
  {
    TouchKeepsEdges(s.gc.graph, rs);
    assert forall x :: Undelivered(t, x) <==> Undelivered(s, x);
  }

  lemma WorkerStepKeepsCopies(s: State, t: State)
    requires t == s.(gc := s.gc.(graph := t.gc.graph, queue := t.gc.queue, workers := t.gc.workers)) && InvCopies(s)
    requires forall k :: k in t.gc.queue ==> k in s.gc.queue && t.gc.queue[k] == s.gc.queue[k]
    ensures InvCopies(t)
  {
    forall x | x in t.gc.queue ensures Stamped(t, x, t.gc.queue[x]) {
      assert Stamped(s, x, s.gc.queue[x]);
    }
    forall x | x in t.gc.handlers ensures AnswerOk(t, t.gc.handlers[x]) {
      assert AnswerOk(s, s.gc.handlers[x]);
    }
    FrameCopies(s, t);
  }

  lemma TakeKeepsWorkers(s: State, k: ResourceRef)
    requires InvGraph(s) && InvCopies(s) && InvWorkers(s) && k in s.gc.queue && Sound(s, Take(k))
    ensures forall x :: x in ApplyTake(s, k).gc.workers ==> WorkerOk(s, x, ApplyTake(s, k).gc.workers[x])
  {
    TakenWorkerOk(s, k);
    forall x | x in s.gc.workers ensures WorkerOk(s, x, s.gc.workers[x]) {}
  }

  lemma TakeKeepsInv(s: State, k: ResourceRef)
    requires Inv(s) && SoundStep(s, Take(k))
    ensures Inv(Apply(s, Take(k)))
  {
    TakeKeepsWorkers(s, k);
    WorkerStepKeepsInv(s, ApplyTake(s, k), {k});
  }

  lemma TouchNothing(g: Adjacency)
    ensures Touch(g, {}) == g
  {
  }

  lemma WorkersKeepInv(s: State, workers: map<ResourceRef, Worker>)
    requires Inv(s) && forall k :: k in workers ==> WorkerOk(s, k, workers[k])
    ensures Inv(s.(gc := s.gc.(workers := workers)))
  {
    TouchNothing(s.gc.graph);
    WorkerStepKeepsInv(s, s.(gc := s.gc.(workers := workers)), {});
  }

  lemma ContinueKeepsInv(s: State, k: ResourceRef)
    requires Inv(s) && Enabled(s, Continue(k))
    ensures Inv(Apply(s, Continue(k)))
  {
    ContinuedWorkerOk(s, k);
    ContinueChangesWorkers(s, k);
    WorkersKeepInv(s, ApplyContinue(s, k).gc.workers);
  }

  lemma ContinueChangesWorkers(s: State, k: ResourceRef)
    requires k in s.gc.workers && s.gc.workers[k].Marking?
    ensures ApplyContinue(s, k) == s.(gc := s.gc.(workers := ApplyContinue(s, k).gc.workers))
  {
  }

  lemma NextTargetOk(s: State, k: ResourceRef)
    requires Enabled(s, Continue(k)) && InvGraph(s) && WorkerOk(s, k, s.gc.workers[k])
    requires s.gc.workers[k].next < |Dependents(s.gc.graph, k)|
    ensures WorkerOk(s, k, ApplyContinue(s, k).gc.workers[k])
  {
    DependentIsOwned(s, k, s.gc.workers[k].next);
  }

  lemma ContinuedWorkerOk(s: State, k: ResourceRef)
    requires Enabled(s, Continue(k)) && InvWorkers(s) && InvGraph(s)
    ensures forall x :: x in ApplyContinue(s, k).gc.workers ==> WorkerOk(s, x, ApplyContinue(s, k).gc.workers[x])
  {
    assert WorkerOk(s, k, s.gc.workers[k]);
    if s.gc.workers[k].next < |Dependents(s.gc.graph, k)| {
      NextTargetOk(s, k);
    }
  }

  lemma EndWorkKeepsInv(s: State, k: ResourceRef)
    requires Inv(s)
    ensures Inv(WorkEnded(s, k))
  {
    WorkersKeepInv(s, s.gc.workers - {k});
  }

  lemma CallMarkingKeepsInv(s: State, k: ResourceRef)
    requires Inv(s) && k in s.gc.workers && s.gc.workers[k].Marking? && s.gc.workers[k].target.Some?
    ensures Inv(ApplyCall(s, k))
  {
    var c := s.gc.workers[k].target.value;
    CallMarkingApplied(s, k, c);
    if c in s.api.store {
      DeleteKeepsInv(s, c);
      MarkingReturns(ApiDelete(s, c).value, k);
    } else {
      EndWorkKeepsInv(s, k);
    }
  }

  lemma CallMarkingApplied(s: State, k: ResourceRef, c: ResourceRef)
    requires k in s.gc.workers && s.gc.workers[k].Marking? && s.gc.workers[k].target == Some(c)
    ensures c !in s.api.store ==> ApplyCall(s, k) == WorkEnded(s, k)
    ensures c in s.api.store ==>
      var t := ApiDelete(s, c).value;
      k in t.gc.workers && t.gc.workers[k].Marking? && ApplyCall(s, k) == MarkingReturned(t, k)
  {
  }

  lemma MarkingReturns(t: State, k: ResourceRef)
    requires Inv(t) && k in t.gc.workers && t.gc.workers[k].Marking?
    ensures Inv(MarkingReturned(t, k))
  {
    assert WorkerOk(t, k, t.gc.workers[k]);
    WorkersKeepInv(t, MarkingReturned(t, k).gc.workers);
  }

  /** What a worker's update makes of the stored resource. */
  function WithoutLast(s: State, k: ResourceRef, body: Resource): Resource
    requires k in s.api.store
  {
    Renewed(s.api.store[k].(finalizers := body.finalizers))
  }

  /**
   * Whatever happened since a copy was taken in deletion, sending it without its last finalizer is accepted exactly
   * if every other finalizer of the copy is still there, and then takes the collector's finalizer off, if it is still
   * there, and nothing else.
   */
  lemma SentIsPop(s: State, k: ResourceRef, body: Resource)
    requires k in s.api.store && WellFormed(s, k, s.api.store[k]) && CascadeDeletion !in body.finalizers
    requires Stamped(s, k, body.(finalizers := body.finalizers + [CascadeDeletion]))
    ensures ApiUpdate(s, k, body) ==
      if AllIn(body.finalizers, s.api.store[k].finalizers) then Some(StoreOrRemove(s, k, WithoutLast(s, k, body)))
      else None
    ensures AllIn(body.finalizers, s.api.store[k].finalizers) ==>
      forall f :: f in body.finalizers <==> f in s.api.store[k].finalizers && f != CascadeDeletion
  {
    var was := s.api.store[k];
    var copy := body.(finalizers := body.finalizers + [CascadeDeletion]);
    assert copy.finalizers[|body.finalizers|] == CascadeDeletion && copy.finalizers != body.finalizers;
    assert body != was;
    assert was.(owners := body.owners, finalizers := body.finalizers) == was.(finalizers := body.finalizers);
  }

  /** What a worker about to drop the finalizer sends, and that everything below is gone. */
  lemma DropIsPop(s: State, k: ResourceRef, body: Resource)
    requires k in s.api.store && WellFormed(s, k, s.api.store[k]) && WorkerOk(s, k, Dropping(body))
    ensures Spent(s, k) && s.api.store[k].deleted
    ensures ApiUpdate(s, k, body) ==
      if AllIn(body.finalizers, s.api.store[k].finalizers) then Some(StoreOrRemove(s, k, WithoutLast(s, k, body)))
      else None
    ensures AllIn(body.finalizers, s.api.store[k].finalizers) ==>
      forall f :: f in body.finalizers <==> f in s.api.store[k].finalizers && f != CascadeDeletion
  {
    SentIsPop(s, k, body);
  }

  lemma DropIsContents(s: State, k: ResourceRef, body: Resource)
    requires k in s.api.store && WellFormed(s, k, s.api.store[k]) && WorkerOk(s, k, Dropping(body))
    requires AllIn(body.finalizers, s.api.store[k].finalizers)
    ensures Contents(s, k, WithoutLast(s, k, body))
  {
    DropIsPop(s, k, body);
    var copy := body.finalizers + [CascadeDeletion];
    assert forall i :: 0 <= i < |body.finalizers| ==> copy[i] == body.finalizers[i];
  }

  lemma UpdateKeepsInv(s: State, k: ResourceRef, body: Resource)
    requires Inv(s) && k in s.gc.workers && s.gc.workers[k] == Dropping(body) && ApiUpdate(s, k, body).Some?
    ensures Inv(ApiUpdate(s, k, body).value)
  {
    WorkerIsOk(s, k);
    DropIsPop(s, k, body);
    DropIsContents(s, k, body);
    ContentsKeepInv(s, k, WithoutLast(s, k, body));
  }

  lemma WorkerIsOk(s: State, k: ResourceRef)
    requires InvStore(s) && InvWorkers(s) && k in s.gc.workers
    ensures WorkerOk(s, k, s.gc.workers[k])
    ensures k in s.api.store ==> WellFormed(s, k, s.api.store[k])
  {
  }

  lemma CallDroppingKeepsInv(s: State, k: ResourceRef)
    requires Inv(s) && k in s.gc.workers && s.gc.workers[k].Dropping?
    ensures Inv(ApplyCall(s, k))
  {
    var body := s.gc.workers[k].body;
    if ApiUpdate(s, k, body).Some? {
      UpdateKeepsInv(s, k, body);
      EndWorkKeepsInv(ApiUpdate(s, k, body).value, k);
    } else {
      EndWorkKeepsInv(s, k);
    }
  }

  // ---------------------------------------------------------------------------------------------
  // Runs
  // ---------------------------------------------------------------------------------------------

  lemma UserStepKeepsInv(s: State, a: Action)
    requires Inv(s) && SoundStep(s, a) && !IsCollector(a)
    ensures Inv(Apply(s, a))
  {
    match a {
      case Create(_, _, _) => CreateKeepsInv(s, a);
      case Mark(r) => MarkKeepsInv(s, r);
      case Write(_, _, _) => WriteKeepsInv(s, a);
    }
  }

  lemma CollectorStepKeepsInv(s: State, a: Action)
    requires Inv(s) && Enabled(s, a) && IsCollector(a) && !a.Take?
    ensures Inv(Apply(s, a))
  {
    match a {
      case Deliver(r, visited) =>
        if Pending(s, r)[0].kind.DELETED? {
          DeliverDeletedKeepsInv(s, r, visited);
        } else {
          DeliverChangeKeepsInv(s, r, visited);
        }
      case ReadOwner(r) => ReadKeepsInv(s, r);
      case EnqueueOwner(r) => EnqueueOwnerKeepsInv(s, r);
      case Call(r) =>
        if s.gc.workers[r].Marking? {
          CallMarkingKeepsInv(s, r);
        } else {
          CallDroppingKeepsInv(s, r);
        }
      case Continue(r) => ContinueKeepsInv(s, r);
    }
  }

  lemma SoundStepKeepsInv(s: State, a: Action)
    requires Inv(s) && SoundStep(s, a)
    ensures Inv(Apply(s, a))
  {
    if !IsCollector(a) {
      UserStepKeepsInv(s, a);
    } else if a.Take? {
      TakeKeepsInv(s, a.ref);
    } else {
      CollectorStepKeepsInv(s, a);
    }
  }

  // ---------------------------------------------------------------------------------------------
  // Only sound steps keep it
  // ---------------------------------------------------------------------------------------------

  /** A name used again: its removal has not been handled, or it is buried. */
  lemma OldNameBreaksInv(s: State, a: Action)
    requires EventsOk(s, a.ref) && a.Create? && Enabled(s, a) && a.ref in s.past.born
    ensures !EventsOk(Apply(s, a), a.ref)
  {
    var t := Apply(s, a);
    assert Pending(t, a.ref) == Pending(s, a.ref) + [Event(ADDED, Resource(a.owners, a.finalizers, false, 0))];
    if Announced(s, a.ref) {
      assert Pending(t, a.ref)[|Pending(s, a.ref)| - 1].kind.DELETED?;
    }
  }

  /** The parts of the invariant that speak of names, owners and finalizers. */
  lemma CreationIsOk(s: State, a: Action)
    requires InvBirth(s) && a.Create? && Enabled(s, a) && a.ref !in s.past.born
    requires var t := Apply(s, a); InvBirth(t) && InvStore(t) && InvOwners(t)
    ensures CreationOk(s, a.ref, a.owners, a.finalizers)
  {
    var t := Apply(s, a);
    assert WellFormed(t, a.ref, t.api.store[a.ref]);
    forall o | o in a.owners ensures o in s.api.store {
      assert a.ref !in t.past.buried && o in t.past.born[a.ref];
      assert t.past.age[o] < t.past.age[a.ref] && o in t.api.store;
    }
  }

  /** The new resource is below an owner that will not wait for it. */
  lemma SpendingOwnerBreaksInv(s: State, a: Action, o: ResourceRef)
    requires InvBirth(s) && a.Create? && Enabled(s, a) && a.ref !in s.past.born && o in a.owners && Spending(s, o)
    requires o != a.ref
    ensures var t := Apply(s, a); !(InvSpent(t) && InvWorkers(t))
  {
    var t := Apply(s, a);
    assert !Spent(t, o);
    if o in s.gc.workers && s.gc.workers[o].Dropping? {
      assert !WorkerOk(t, o, t.gc.workers[o]);
    }
  }

  lemma BadCreationBreaksInv(s: State, a: Action)
    requires InvBirth(s) && a.Create? && Enabled(s, a) && a.ref !in s.past.born
    requires !CreationOk(s, a.ref, a.owners, a.finalizers)
    ensures var t := Apply(s, a); !(InvBirth(t) && InvStore(t) && InvOwners(t))
  {
    var t := Apply(s, a);
    if InvBirth(t) && InvStore(t) && InvOwners(t) {
      CreationIsOk(s, a);
    }
  }

  lemma UnsoundCreateBreaksInv(s: State, a: Action)
    requires InvBirth(s) && EventsOk(s, a.ref) && a.Create? && Enabled(s, a) && !Sound(s, a)
    ensures !Inv(Apply(s, a))
  {
    if a.ref in s.past.born {
      OldNameBreaksInv(s, a);
    } else if !CreationOk(s, a.ref, a.owners, a.finalizers) {
      BadCreationBreaksInv(s, a);
    } else {
      var o :| o in a.owners && Spending(s, o);
      SpendingOwnerBreaksInv(s, a, o);
    }
  }

  /** The finalizer goes although something is left below. */
  lemma UnsoundWriteBreaksInv(s: State, a: Action)
    requires InvStore(s) && a.Write? && Enabled(s, a) && !Sound(s, a)
    ensures var t := Apply(s, a); !(InvStore(t) && InvOwners(t) && InvSpent(t))
  {
    var r, t := a.ref, Apply(s, a);
    assert WellFormed(s, r, s.api.store[r]);
    assert Spent(t, r) <==> Spent(s, r);
    if r in t.api.store {
      assert WellFormed(t, r, t.api.store[r]) ==> NoDuplicates(a.finalizers);
    }
  }

  /** The worker takes what it has not heard of for nothing. */
  lemma UnsoundTakeBreaksInv(s: State, k: ResourceRef)
    requires InvEvents(s) && k in s.gc.queue && !Sound(s, Take(k))
    ensures !InvWorkers(ApplyTake(s, k))
  {
    var t := ApplyTake(s, k);
    var c :| c in s.past.born && k in s.past.born[c] && Undelivered(s, c);
    assert EventsOk(s, c);
    assert !WorkerOk(t, k, t.gc.workers[k]);
  }

  /** Of all that the code lets through exactly the sound steps keep the invariant. */
  lemma EveryStepKeepsInv(s: State, a: Action)
    requires Inv(s) && Enabled(s, a)
    ensures Inv(Apply(s, a)) <==> Sound(s, a)
  {
    if Sound(s, a) {
      SoundStepKeepsInv(s, a);
    } else if a.Create? {
      assert EventsOk(s, a.ref);
      UnsoundCreateBreaksInv(s, a);
    } else if a.Write? {
      UnsoundWriteBreaksInv(s, a);
    } else {
      UnsoundTakeBreaksInv(s, a.ref);
    }
  }

  lemma EmptyIsInv()
    ensures Inv(EMPTY)
  {
    forall u, v, p, q |
      WalkFromTo(Ownership(EMPTY.past.born), u, v, p) && WalkFromTo(Ownership(EMPTY.past.born), u, v, q)
      ensures p == q
    {
      if |p| > 1 {
        SplitWalk(Ownership(EMPTY.past.born), u, v, p);
      }
      if |q| > 1 {
        SplitWalk(Ownership(EMPTY.past.born), u, v, q);
      }
    }
  }

  lemma {:induction false} EveryRunKeepsInv(ss: seq<State>, acts: seq<Action>, n: nat)
    requires Run(ss, acts) && n < |ss|
    ensures Inv(ss[n])
  {
    if n == 0 {
      EmptyIsInv();
    } else {
      EveryRunKeepsInv(ss, acts, n - 1);
      EveryStepKeepsInv(ss[n - 1], acts[n - 1]);
    }
  }
}
