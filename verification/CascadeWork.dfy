/** How much the collector can still write: a measure that each of its writes lowers, and a bound for every run. */
module CascadeWork {
  import opened Wrappers
  import opened Digraphs
  import opened Relationships
  import opened GraphRuns
  import opened Cascade
  import opened CascadeSafety
  import opened CascadeTheorems

  // ---------------------------------------------------------------------------------------------
  // The measure
  // ---------------------------------------------------------------------------------------------

  /**
   * What the stored resource can still cause: to be marked, copied by that, and popped, and one read of each
   * owner when it is gone.
   */
  function StoreLoad(s: State, x: ResourceRef): nat {
    if x !in s.api.store then 0
    else
      |s.api.store[x].owners|
      + if !s.api.store[x].deleted then 3 else if CascadeDeletion in s.api.store[x].finalizers then 1 else 0
  }

  /** An event brings a copy of a resource in deletion, or the reads of a DELETED handler. */
  function EventLoad(e: Event): nat {
    if e.kind.DELETED? then |e.obj.owners| else if InDeletion(e.obj) then 1 else 0
  }

  function EventsLoad(events: seq<Event>): nat {
    if events == [] then 0 else EventLoad(events[0]) + EventsLoad(events[1..])
  }

  /** The reads to come, and the answer just received if it is a copy in deletion. */
  function HandlerLoad(h: Handler): nat {
    if h.next >= |h.owners| then 0
    else
      |h.owners| - h.next
      - if h.answer.None? || InDeletion(h.answer.value) then 0 else 1
  }

  /** A copy waiting in the queue, or held by a worker that is about to send it back. */
  function QueueLoad(gc: Collector, x: ResourceRef): nat {
    (if x in gc.queue then 1 else 0) + if x in gc.workers && gc.workers[x].Dropping? then 1 else 0
  }

  function Load(s: State, x: ResourceRef): nat {
    StoreLoad(s, x) + EventsLoad(Pending(s, x)) + QueueLoad(s.gc, x) + ReadsLoad(s.gc, x)
  }

  function ReadsLoad(gc: Collector, x: ResourceRef): nat {
    if x in gc.handlers then HandlerLoad(gc.handlers[x]) else 0
  }

  ghost function Total(s: State, xs: set<ResourceRef>): nat {
    if xs == {} then 0
    else
      var x :| x in xs;
      Load(s, x) + Total(s, xs - {x})
  }

  /** The work left: all a state can still make the collector write. */
  ghost function WorkLeft(s: State): nat {
    Total(s, s.past.born.Keys)
  }

  lemma {:induction false} TotalSplit(s: State, xs: set<ResourceRef>, x: ResourceRef)
    requires x in xs
    ensures Total(s, xs) == Load(s, x) + Total(s, xs - {x})
    decreases xs
  {
    var y :| y in xs && Total(s, xs) == Load(s, y) + Total(s, xs - {y});
    if y != x {
      TotalSplit(s, xs - {y}, x);
      TotalSplit(s, xs - {x}, y);
      assert xs - {y} - {x} == xs - {x} - {y};
    }
  }

  lemma {:induction false} TotalSame(s: State, t: State, xs: set<ResourceRef>)
    requires forall x :: x in xs ==> Load(t, x) == Load(s, x)
    ensures Total(t, xs) == Total(s, xs)
    decreases xs
  {
    if xs != {} {
      var x :| x in xs;
      TotalSplit(s, xs, x);
      TotalSplit(t, xs, x);
      TotalSame(s, t, xs - {x});
    }
  }

  /** A step that changes the load of one resource only. */
  lemma WorkChangesAt(s: State, t: State, r: ResourceRef)
    requires t.past.born == s.past.born && r in s.past.born
    requires forall x :: x != r ==> Load(t, x) == Load(s, x)
    ensures WorkLeft(t) - WorkLeft(s) == Load(t, r) - Load(s, r)
  {
    TotalSplit(s, s.past.born.Keys, r);
    TotalSplit(t, s.past.born.Keys, r);
    TotalSame(s, t, s.past.born.Keys - {r});
  }

  lemma {:induction false} EventsLoadAppend(events: seq<Event>, e: Event)
    ensures EventsLoad(events + [e]) == EventsLoad(events) + EventLoad(e)
  {
    if events == [] {
      assert [e][1..] == [];
    } else {
      EventsLoadAppend(events[1..], e);
      assert (events + [e])[1..] == events[1..] + [e];
    }
  }

  // ---------------------------------------------------------------------------------------------
  // Writes to the store
  // ---------------------------------------------------------------------------------------------

  /** A change of one stored resource, with its event. */
  lemma PostedLoad(s: State, t: State, r: ResourceRef, ev: Event)
    requires t.gc == s.gc && t.api.events == Post(s, r, ev.kind, ev.obj).api.events
    requires forall x :: x != r ==> StoreLoad(t, x) == StoreLoad(s, x)
    ensures Load(t, r) - Load(s, r) == StoreLoad(t, r) - StoreLoad(s, r) + EventLoad(ev)
    ensures forall x :: x != r ==> Load(t, x) == Load(s, x)
  {
    assert Pending(t, r) == Pending(s, r) + [ev];
    EventsLoadAppend(Pending(s, r), ev);
    assert forall x :: x != r ==> Pending(t, x) == Pending(s, x);
  }

  /** Marking turns one of the three into a copy on its way. */
  lemma MarkingLowersWork(s: State, r: ResourceRef)
    requires r in s.api.store && r in s.past.born && !s.api.store[r].deleted
    ensures WorkLeft(ApiDelete(s, r).value) == WorkLeft(s) - 1
  {
    var t := ApiDelete(s, r).value;
    var obj := t.api.store[r];
    assert obj.finalizers[|obj.finalizers| - 1] == CascadeDeletion;
    PostedLoad(s, t, r, Event(MODIFIED, obj));
    WorkChangesAt(s, t, r);
  }

  function One(b: bool): nat {
    if b then 1 else 0
  }

  /**
   * Storing keeps the work but for a copy in deletion that is sent and for the collector's finalizer that leaves;
   * with the last finalizer the reads move to the DELETED event.
   */
  lemma StoringWork(s: State, r: ResourceRef, obj: Resource)
    requires r in s.past.born && r in s.api.store && Contents(s, r, obj)
    ensures WorkLeft(StoreOrRemove(s, r, obj)) == WorkLeft(s) + One(InDeletion(obj))
      + (if !obj.deleted then 0
         else One(CascadeDeletion in obj.finalizers) - One(CascadeDeletion in s.api.store[r].finalizers))
  {
    PostedLoad(s, StoreOrRemove(s, r, obj), r, Announcement(s, r, obj));
    WorkChangesAt(s, StoreOrRemove(s, r, obj), r);
  }

  lemma WritingAddsACopy(s: State, a: Action)
    requires SoundStep(s, a) && a.Write? && a.ref in s.past.born && WellFormed(s, a.ref, s.api.store[a.ref])
    requires s.api.store[a.ref].deleted && CascadeDeletion !in s.api.store[a.ref].finalizers ==> Spent(s, a.ref)
    ensures WorkLeft(Apply(s, a)) <= WorkLeft(s) + One(InDeletion(WrittenBy(s, a)))
  {
    WriteIsContents(s, a);
    StoringWork(s, a.ref, WrittenBy(s, a));
  }

  // ---------------------------------------------------------------------------------------------
  // The collector's own steps
  // ---------------------------------------------------------------------------------------------

  lemma TakenLoad(s: State, r: ResourceRef)
    requires Pending(s, r) != []
    ensures EventsLoad(Pending(s, r)) == EventLoad(Pending(s, r)[0]) + EventsLoad(Pending(Taken(s, r), r))
    ensures forall x :: x != r ==> Pending(Taken(s, r), x) == Pending(s, x)
  {
    assert Pending(Taken(s, r), r) == Pending(s, r)[1..];
  }

  /** An event leaves its queue, and what it brings goes to the work queue or to a handler. */
  lemma DeliveredWork(s: State, t: State, r: ResourceRef)
    requires r in s.past.born && Pending(s, r) != []
    requires t.api == Taken(s, r).api && t.past.born == s.past.born
    requires forall x :: x != r ==> QueueLoad(t.gc, x) == QueueLoad(s.gc, x) && ReadsLoad(t.gc, x) == ReadsLoad(s.gc, x)
    requires QueueLoad(t.gc, r) + ReadsLoad(t.gc, r) <=
      QueueLoad(s.gc, r) + ReadsLoad(s.gc, r) + EventLoad(Pending(s, r)[0])
    ensures WorkLeft(t) <= WorkLeft(s)
  {
    TakenLoad(s, r);
    assert forall x :: Pending(t, x) == Pending(Taken(s, r), x);
    WorkChangesAt(s, t, r);
  }

  lemma ChangeDeliveredWork(s: State, r: ResourceRef, g: Adjacency)
    requires r in s.past.born && Pending(s, r) != [] && !Pending(s, r)[0].kind.DELETED?
    ensures WorkLeft(Enqueue(Taken(s, r).(gc := s.gc.(graph := g)), r, Pending(s, r)[0].obj)) <= WorkLeft(s)
  {
    DeliveredWork(s, Enqueue(Taken(s, r).(gc := s.gc.(graph := g)), r, Pending(s, r)[0].obj), r);
  }

  lemma DeletionDeliveredWork(s: State, r: ResourceRef, visited: set<ResourceRef>)
    requires EventsOk(s, r) && Pending(s, r) != [] && Pending(s, r)[0].kind.DELETED?
    ensures WorkLeft(ApplyDelivery(s, r, visited)) <= WorkLeft(s)
  {
    HeadFacts(s, r);
    DeletionApplied(s, r, visited);
    DeliveredWork(s, ApplyDelivery(s, r, visited), r);
  }

  lemma DeliveryKeepsWork(s: State, r: ResourceRef, visited: set<ResourceRef>)
    requires Pending(s, r) != [] && InvBirth(s) && InvGraph(s) && EventsOk(s, r)
    ensures WorkLeft(ApplyDelivery(s, r, visited)) <= WorkLeft(s)
  {
    HeadFacts(s, r);
    if Pending(s, r)[0].kind.DELETED? {
      DeletionDeliveredWork(s, r, visited);
    } else {
      DeliveryApplied(s, r, visited);
      ChangeDeliveredWork(s, r, Touch(DeliveredGraph(s, r), visited));
    }
  }

  /** A change of one handler. */
  lemma HandlerChangeWork(s: State, t: State, r: ResourceRef)
    requires t.api == s.api && t.past.born == s.past.born && r in s.past.born
    requires t.gc.queue == s.gc.queue && t.gc.workers == s.gc.workers
    requires forall x :: x != r ==> ReadsLoad(t.gc, x) == ReadsLoad(s.gc, x)
    ensures WorkLeft(t) - WorkLeft(s) == ReadsLoad(t.gc, r) - ReadsLoad(s.gc, r)
  {
    assert forall x :: Pending(t, x) == Pending(s, x) && QueueLoad(t.gc, x) == QueueLoad(s.gc, x);
    WorkChangesAt(s, t, r);
  }

  lemma ReadKeepsWork(s: State, r: ResourceRef)
    requires r in s.past.born && Enabled(s, ReadOwner(r))
    ensures WorkLeft(ApplyRead(s, r)) <= WorkLeft(s)
  {
    HandlerChangeWork(s, ApplyRead(s, r), r);
  }

  lemma EnqueueAddsACopy(s: State, o: ResourceRef, obj: Resource)
    requires o in s.past.born
    ensures WorkLeft(Enqueue(s, o, obj)) <= WorkLeft(s) + if InDeletion(obj) then 1 else 0
  {
    var t := Enqueue(s, o, obj);
    assert forall x :: Pending(t, x) == Pending(s, x);
    WorkChangesAt(s, t, o);
  }

  lemma NextOwnerLowersWork(s: State, r: ResourceRef)
    requires r in s.past.born && r in s.gc.handlers && s.gc.handlers[r].next < |s.gc.handlers[r].owners|
    requires s.gc.handlers[r].answer.Some?
    ensures WorkLeft(NextOwner(s, r)) ==
      WorkLeft(s) - if InDeletion(s.gc.handlers[r].answer.value) then 1 else 0
  {
    HandlerChangeWork(s, NextOwner(s, r), r);
  }

  /** The copy read moves to the queue. */
  lemma EnqueueOwnerKeepsWork(s: State, r: ResourceRef)
    requires r in s.past.born && Enabled(s, EnqueueOwner(r)) && CurrentOwner(s.gc.handlers[r]) in s.past.born
    ensures WorkLeft(ApplyEnqueueOwner(s, r)) <= WorkLeft(s)
  {
    var h := s.gc.handlers[r];
    EnqueueAddsACopy(s, CurrentOwner(h), h.answer.value);
    NextOwnerLowersWork(Enqueue(s, CurrentOwner(h), h.answer.value), r);
  }

  /** A change of queue and workers for one key. */
  lemma QueueChangeWork(s: State, t: State, k: ResourceRef)
    requires t.api == s.api && t.past == s.past && t.gc.handlers == s.gc.handlers && k in s.past.born
    requires forall x :: x != k ==> QueueLoad(t.gc, x) == QueueLoad(s.gc, x)
    ensures WorkLeft(t) - WorkLeft(s) == QueueLoad(t.gc, k) - QueueLoad(s.gc, k)
  {
    assert forall x :: Pending(t, x) == Pending(s, x);
    WorkChangesAt(s, t, k);
  }

  lemma TakeKeepsWork(s: State, k: ResourceRef)
    requires k in s.past.born && Enabled(s, Take(k))
    ensures WorkLeft(ApplyTake(s, k)) <= WorkLeft(s)
  {
    QueueChangeWork(s, ApplyTake(s, k), k);
  }

  lemma ContinueKeepsWork(s: State, k: ResourceRef)
    requires k in s.past.born && Enabled(s, Continue(k))
    ensures WorkLeft(ApplyContinue(s, k)) == WorkLeft(s)
  {
    QueueChangeWork(s, ApplyContinue(s, k), k);
  }

  lemma EndedWork(s: State, k: ResourceRef)
    requires k in s.past.born && k in s.gc.workers
    ensures WorkLeft(WorkEnded(s, k)) == WorkLeft(s) - if s.gc.workers[k].Dropping? then 1 else 0
  {
    QueueChangeWork(s, WorkEnded(s, k), k);
  }

  lemma ReturnedWork(s: State, k: ResourceRef)
    requires k in s.past.born && k in s.gc.workers && s.gc.workers[k].Marking?
    ensures WorkLeft(MarkingReturned(s, k)) == WorkLeft(s)
  {
    QueueChangeWork(s, MarkingReturned(s, k), k);
  }

  /** A marking call that writes lowers the work. */
  lemma MarkingCallWork(s: State, k: ResourceRef)
    requires s.api.store.Keys <= s.past.born.Keys && k in s.past.born
    requires k in s.gc.workers && s.gc.workers[k].Marking? && s.gc.workers[k].target.Some?
    ensures var t := ApplyCall(s, k);
      WorkLeft(t) + (if t.api.store != s.api.store then 1 else 0) <= WorkLeft(s)
  {
    var c := s.gc.workers[k].target.value;
    CallMarkingApplied(s, k, c);
    if c in s.api.store {
      if !s.api.store[c].deleted {
        MarkingLowersWork(s, c);
      }
      ReturnedWork(ApiDelete(s, c).value, k);
    } else {
      EndedWork(s, k);
    }
  }

  /** A worker that sends its copy uses it up, whatever becomes of it. */
  lemma DroppingCallWork(s: State, k: ResourceRef)
    requires InvStore(s) && InvWorkers(s) && k in s.past.born && k in s.gc.workers && s.gc.workers[k].Dropping?
    ensures WorkLeft(ApplyCall(s, k)) < WorkLeft(s)
  {
    WorkerIsOk(s, k);
    if k !in s.api.store {
      EndedWork(s, k);
    } else {
      var body := s.gc.workers[k].body;
      DropIsPop(s, k, body);
      if AllIn(body.finalizers, s.api.store[k].finalizers) {
        AcceptedWork(s, k, body);
        EndedWork(StoreOrRemove(s, k, WithoutLast(s, k, body)), k);
      } else {
        EndedWork(s, k);
      }
    }
  }

  lemma AcceptedWork(s: State, k: ResourceRef, body: Resource)
    requires k in s.past.born && k in s.api.store && WellFormed(s, k, s.api.store[k]) && WorkerOk(s, k, Dropping(body))
    requires AllIn(body.finalizers, s.api.store[k].finalizers)
    ensures WorkLeft(StoreOrRemove(s, k, WithoutLast(s, k, body))) <= WorkLeft(s)
  {
    DropIsContents(s, k, body);
    StoringWork(s, k, WithoutLast(s, k, body));
    NotInDeletion(WithoutLast(s, k, body));
  }

  lemma NotInDeletion(obj: Resource)
    requires CascadeDeletion !in obj.finalizers
    ensures !InDeletion(obj)
  {
  }

  // ---------------------------------------------------------------------------------------------
  // Creation
  // ---------------------------------------------------------------------------------------------

  lemma UnbornHasNoLoad(s: State, r: ResourceRef)
    requires InvBirth(s) && EventsOk(s, r) && InvCopies(s) && InvWorkers(s) && r !in s.past.born
    ensures Load(s, r) == 0
  {
    NonEmptyHasMember(Pending(s, r));
    assert r in s.gc.queue ==> Stamped(s, r, s.gc.queue[r]);
    assert r in s.gc.workers ==> WorkerOk(s, r, s.gc.workers[r]);
  }

  lemma CreatingAddsWork(s: State, a: Action)
    requires InvBirth(s) && EventsOk(s, a.ref) && InvCopies(s) && InvWorkers(s) && SoundStep(s, a) && a.Create?
    ensures WorkLeft(Apply(s, a)) == WorkLeft(s) + 3 + |a.owners|
  {
    var t := Apply(s, a);
    UnbornHasNoLoad(s, a.ref);
    PostedLoad(s, t, a.ref, Event(ADDED, Resource(a.owners, a.finalizers, false, 0)));
    assert t.past.born.Keys == s.past.born.Keys + {a.ref};
    TotalSplit(t, t.past.born.Keys, a.ref);
    assert t.past.born.Keys - {a.ref} == s.past.born.Keys;
    TotalSame(s, t, s.past.born.Keys);
  }

  // ---------------------------------------------------------------------------------------------
  // Every step, and every run
  // ---------------------------------------------------------------------------------------------

  /** What others may add: a creation, or a write that leaves the resource in deletion. */
  function AddedWork(s: State, a: Action): nat {
    if a.Create? then 3 + |a.owners|
    else if a.Write? && a.ref in s.api.store then One(InDeletion(WrittenBy(s, a)))
    else 0
  }

  /** The collector has changed the store by this step. */
  predicate Wrote(s: State, a: Action, t: State) {
    IsCollector(a) && t.api.store != s.api.store
  }

  lemma RefIsBorn(s: State, a: Action)
    requires Inv(s) && Enabled(s, a) && !a.Create?
    ensures a.ref in s.past.born
    ensures a.EnqueueOwner? ==> CurrentOwner(s.gc.handlers[a.ref]) in s.past.born
  {
    assert EventsOk(s, a.ref);
    NonEmptyHasMember(Pending(s, a.ref));
    assert a.ref in s.gc.queue ==> Stamped(s, a.ref, s.gc.queue[a.ref]);
    assert a.ref in s.gc.workers ==> WorkerOk(s, a.ref, s.gc.workers[a.ref]);
    if a.EnqueueOwner? {
      OwnerIsFound(s, a.ref);
    }
  }

  /** Each write of the collector lowers the work left, and none of its steps raises it. */
  lemma CollectorStepAndWork(s: State, a: Action)
    requires Inv(s) && Enabled(s, a) && IsCollector(a)
    ensures WorkLeft(Apply(s, a)) + (if Wrote(s, a, Apply(s, a)) then 1 else 0) <= WorkLeft(s)
  {
    RefIsBorn(s, a);
    if !a.Call? {
      OnlyCallsWrite(s, a);
    }
    match a {
      case Deliver(r, visited) =>
        assert EventsOk(s, r);
        DeliveryKeepsWork(s, r, visited);
      case ReadOwner(r) => ReadKeepsWork(s, r);
      case EnqueueOwner(r) => EnqueueOwnerKeepsWork(s, r);
      case Take(r) => TakeKeepsWork(s, r);
      case Continue(r) => ContinueKeepsWork(s, r);
      case Call(r) =>
        if s.gc.workers[r].Marking? {
          MarkingCallWork(s, r);
        } else {
          DroppingCallWork(s, r);
        }
      case _ =>
    }
  }

  /** Of all other steps only creations and writes to resources in deletion raise it. */
  lemma OtherStepAndWork(s: State, a: Action)
    requires Inv(s) && SoundStep(s, a) && !IsCollector(a)
    ensures WorkLeft(Apply(s, a)) <= WorkLeft(s) + AddedWork(s, a)
  {
    assert EventsOk(s, a.ref);
    if !a.Create? {
      RefIsBorn(s, a);
    }
    match a {
      case Create(_, _, _) => CreatingAddsWork(s, a);
      case Mark(r) =>
        if !s.api.store[r].deleted {
          MarkingLowersWork(s, r);
        }
      case Write(_, _, _) => WritingAddsACopy(s, a);
      case _ =>
    }
  }

  lemma StepAndWork(s: State, a: Action)
    requires Inv(s) && SoundStep(s, a)
    ensures WorkLeft(Apply(s, a)) + (if Wrote(s, a, Apply(s, a)) then 1 else 0) <= WorkLeft(s) + AddedWork(s, a)
  {
    if IsCollector(a) {
      CollectorStepAndWork(s, a);
    } else {
      OtherStepAndWork(s, a);
    }
  }

  /** How many steps of the collector have changed the store so far. */
  function Writes(ss: seq<State>, acts: seq<Action>, n: nat): nat
    requires n <= |acts| && |ss| == |acts| + 1
  {
    if n == 0 then 0 else Writes(ss, acts, n - 1) + if Wrote(ss[n - 1], acts[n - 1], ss[n]) then 1 else 0
  }

  /** Three per resource created and one per owner of it, and one per write of others that leaves one in deletion. */
  function Allowance(ss: seq<State>, acts: seq<Action>, n: nat): nat
    requires n <= |acts| && |ss| == |acts| + 1
  {
    if n == 0 then 0 else Allowance(ss, acts, n - 1) + AddedWork(ss[n - 1], acts[n - 1])
  }

  /** In any run, however long, the collector writes boundedly often. */
  lemma {:induction false} CollectorWritesAreBounded(ss: seq<State>, acts: seq<Action>, n: nat)
    requires Run(ss, acts) && n <= |acts|
    ensures Writes(ss, acts, n) + WorkLeft(ss[n]) <= Allowance(ss, acts, n)
  {
    if n > 0 {
      CollectorWritesAreBounded(ss, acts, n - 1);
      RunStepAndWork(ss, acts, n - 1);
    }
  }

  lemma RunStepAndWork(ss: seq<State>, acts: seq<Action>, n: nat)
    requires Run(ss, acts) && n < |acts|
    ensures WorkLeft(ss[n + 1]) + (if Wrote(ss[n], acts[n], ss[n + 1]) then 1 else 0)
      <= WorkLeft(ss[n]) + AddedWork(ss[n], acts[n])
  {
    EveryRunKeepsInv(ss, acts, n);
    StepAndWork(ss[n], acts[n]);
  }
}
