/**
 * Progress of the cascade, for any number of owners. What can lose a resource is a worker whose first call fails,
 * because its target is gone or its copy is out of date: then nothing but the rest of the system brings it back.
 */
module CascadeProgress {
  import opened Wrappers
  import opened Digraphs
  import opened Relationships
  import opened GraphRuns
  import opened Cascade
  import opened CascadeSafety
  import opened CascadeTheorems

  // ---------------------------------------------------------------------------------------------
  // Everything in deletion is attended to
  // ---------------------------------------------------------------------------------------------

  ghost predicate StoredInDeletion(s: State, a: ResourceRef) {
    a in s.api.store && InDeletion(s.api.store[a])
  }

  ghost predicate OnItsWay(s: State, a: ResourceRef) {
    exists e :: e in Pending(s, a) && InDeletion(e.obj)
  }

  /** The handler is still to look at `a`, or has just read it in deletion. */
  predicate Ahead(h: Handler, a: ResourceRef) {
    exists j :: h.next <= j < |h.owners| && h.owners[j] == a
      && (j > h.next || h.answer.None? || InDeletion(h.answer.value))
  }

  /** The DELETED handler of `c` has not passed its owner `a`. */
  predicate NotPassed(s: State, c: ResourceRef, a: ResourceRef) {
    c !in s.past.buried && (c in s.gc.handlers ==> Ahead(s.gc.handlers[c], a))
  }

  /** `c` is deleted or gone, and its DELETED handler will bring its owner `a` back. */
  predicate Dying(s: State, c: ResourceRef, a: ResourceRef) {
    && c in s.past.born && a in s.past.born[c] && (c in s.api.store ==> s.api.store[c].deleted)
    && NotPassed(s, c, a)
  }

  /** `a` will be in the queue again: by an event, by a dependent, or it is there already. */
  ghost predicate ComesBack(s: State, a: ResourceRef) {
    OnItsWay(s, a) || a in s.gc.queue || exists c :: Dying(s, c, a)
  }

  /** A worker about to make its first call for a resource, or to drop its finalizer. */
  predicate WorkedOn(s: State, a: ResourceRef) {
    && a in s.gc.workers
    && (s.gc.workers[a].Dropping? || (s.gc.workers[a].next == 0 && s.gc.workers[a].target.Some?))
  }

  ghost predicate AllAttended(s: State) {
    forall a :: StoredInDeletion(s, a) ==> ComesBack(s, a) || WorkedOn(s, a)
  }

  /** A worker's first call is about to fail: the target is gone, or the copy names a finalizer that is. */
  predicate FirstCallFails(s: State, k: ResourceRef) {
    && k in s.gc.workers
    && match s.gc.workers[k]
       case Marking(n, target) => n == 0 && target.Some? && target.value !in s.api.store
       case Dropping(body) => k in s.api.store && !AllIn(body.finalizers, s.api.store[k].finalizers)
  }

  /** The one condition on runs: a first call that fails is for a resource that comes back anyway. */
  ghost predicate Orderly(s: State, a: Action) {
    a.Call? && FirstCallFails(s, a.ref) && StoredInDeletion(s, a.ref) ==> ComesBack(s, a.ref)
  }

  ghost predicate OrderlyRun(ss: seq<State>, acts: seq<Action>) {
    Run(ss, acts) && forall i :: 0 <= i < |acts| ==> Orderly(ss[i], acts[i])
  }

  /** In particular a first call may fail as long as the handler of its target has not passed the resource. */
  lemma UnpassedTargetIsOrderly(s: State, k: ResourceRef)
    requires InvWorkers(s) && FirstCallFails(s, k) && s.gc.workers[k].Marking?
    requires NotPassed(s, s.gc.workers[k].target.value, k)
    ensures Orderly(s, Call(k))
  {
    assert WorkerOk(s, k, s.gc.workers[k]);
    assert Dying(s, s.gc.workers[k].target.value, k);
  }

  // ---------------------------------------------------------------------------------------------
  // What comes back keeps coming back until it is taken, in every run
  // ---------------------------------------------------------------------------------------------

  lemma PostKeepsOnItsWay(s: State, t: State, r: ResourceRef, ev: Event)
    requires t.api.events == Post(s, r, ev.kind, ev.obj).api.events
    ensures forall a :: OnItsWay(s, a) ==> OnItsWay(t, a)
    ensures InDeletion(ev.obj) ==> OnItsWay(t, r)
  {
    assert forall a :: a != r ==> Pending(t, a) == Pending(s, a);
    assert Pending(t, r) == Pending(s, r) + [ev];
    forall a | OnItsWay(s, a) ensures OnItsWay(t, a) {
      var e :| e in Pending(s, a) && InDeletion(e.obj);
      assert e in Pending(t, a);
    }
    assert ev in Pending(t, r);
  }

  lemma StoreChangeKeepsBack(s: State, t: State, r: ResourceRef, ev: Event, a: ResourceRef)
    requires StoreChange(s, t, r, ev) && StoredInDeletion(t, a)
    requires a == r && !StoredInDeletion(s, r) ==> InDeletion(ev.obj)
    requires StoredInDeletion(s, a) ==> ComesBack(s, a)
    ensures ComesBack(t, a)
  {
    PostKeepsOnItsWay(s, t, r, ev);
    assert forall c :: Dying(s, c, a) ==> Dying(t, c, a);
  }

  lemma MarkKeepsBack(s: State, r: ResourceRef, a: ResourceRef)
    requires r in s.api.store && WellFormed(s, r, s.api.store[r])
    requires StoredInDeletion(ApiDelete(s, r).value, a) && (StoredInDeletion(s, a) ==> ComesBack(s, a))
    ensures ComesBack(ApiDelete(s, r).value, a)
  {
    if !s.api.store[r].deleted {
      DeleteIsStoreChange(s, r);
      var t := ApiDelete(s, r).value;
      StoreChangeKeepsBack(s, t, r, Event(MODIFIED, t.api.store[r]), a);
    }
  }

  lemma ContentsKeepBack(s: State, r: ResourceRef, obj: Resource, a: ResourceRef)
    requires r in s.api.store && Contents(s, r, obj) && StoredInDeletion(StoreOrRemove(s, r, obj), a)
    requires StoredInDeletion(s, a) ==> ComesBack(s, a)
    ensures ComesBack(StoreOrRemove(s, r, obj), a)
  {
    ContentsAreStoreChange(s, r, obj);
    StoreChangeKeepsBack(s, StoreOrRemove(s, r, obj), r, Announcement(s, r, obj), a);
  }

  lemma CreateKeepsBack(s: State, act: Action, a: ResourceRef)
    requires InvBirth(s) && InvEvents(s) && SoundStep(s, act) && act.Create?
    requires StoredInDeletion(Apply(s, act), a) && (StoredInDeletion(s, a) ==> ComesBack(s, a))
    ensures ComesBack(Apply(s, act), a)
  {
    var t := Apply(s, act);
    CreateKeepsEvents(s, act);
    assert a != act.ref && Pending(t, a) == Pending(s, a);
    assert forall c :: Dying(s, c, a) ==> Dying(t, c, a);
  }

  /** Workers and lazily created lists come and go. */
  lemma FrameBack(s: State, t: State, a: ResourceRef)
    requires t.api == s.api && t.past == s.past && t.gc.handlers == s.gc.handlers
    requires a in s.gc.queue ==> a in t.gc.queue
    ensures ComesBack(s, a) ==> ComesBack(t, a)
  {
    assert Pending(t, a) == Pending(s, a);
    assert forall c :: Dying(t, c, a) <==> Dying(s, c, a);
  }

  lemma TakenEvents(s: State, r: ResourceRef)
    requires Pending(s, r) != []
    ensures forall a :: a != r ==> Pending(Taken(s, r), a) == Pending(s, a)
    ensures Pending(s, r) == [Pending(s, r)[0]] + Pending(Taken(s, r), r)
    ensures forall a :: OnItsWay(s, a) ==>
      OnItsWay(Taken(s, r), a) || (a == r && InDeletion(Pending(s, r)[0].obj))
  {
    var t := Taken(s, r);
    assert forall a :: a != r ==> Pending(t, a) == Pending(s, a);
    assert Pending(t, r) == Pending(s, r)[1..];
    forall a | OnItsWay(s, a) ensures OnItsWay(t, a) || (a == r && InDeletion(Pending(s, r)[0].obj)) {
      var e :| e in Pending(s, a) && InDeletion(e.obj);
      assert e in Pending(t, a) || (a == r && e == Pending(s, r)[0]);
    }
  }

  /** The event taken is not about a deletion, or leads straight to the queue. */
  lemma ChangeDeliveredKeepsBack(s: State, r: ResourceRef, g: Adjacency, a: ResourceRef)
    requires Pending(s, r) != [] && ComesBack(s, a)
    ensures ComesBack(Enqueue(Taken(s, r).(gc := s.gc.(graph := g)), r, Pending(s, r)[0].obj), a)
  {
    var mid := Taken(s, r);
    var t := Enqueue(mid.(gc := s.gc.(graph := g)), r, Pending(s, r)[0].obj);
    TakenEvents(s, r);
    assert Pending(t, a) == Pending(mid, a);
    assert forall c :: Dying(s, c, a) ==> Dying(t, c, a);
  }

  /** Starting a handler loses nobody: all its owners are ahead of it. */
  lemma DeletionDeliveredKeepsBack(s: State, r: ResourceRef, visited: set<ResourceRef>, a: ResourceRef)
    requires EventsOk(s, r) && Pending(s, r) != [] && Pending(s, r)[0].kind.DELETED? && r !in s.api.store
    requires StoredInDeletion(s, a) && ComesBack(s, a)
    ensures ComesBack(ApplyDelivery(s, r, visited), a)
  {
    var t := ApplyDelivery(s, r, visited);
    DeletionApplied(s, r, visited);
    TakenEvents(s, r);
    assert Pending(t, a) == Pending(Taken(s, r), a);
    forall c | Dying(s, c, a) ensures Dying(t, c, a) {
      if c == r {
        var j :| 0 <= j < |s.past.born[r]| && s.past.born[r][j] == a;
        assert t.gc.handlers[r].owners[j] == a;
      }
    }
  }

  lemma DeliverKeepsBack(s: State, r: ResourceRef, visited: set<ResourceRef>, a: ResourceRef)
    requires Pending(s, r) != [] && InvBirth(s) && InvGraph(s) && EventsOk(s, r)
    requires StoredInDeletion(s, a) && ComesBack(s, a)
    ensures ComesBack(ApplyDelivery(s, r, visited), a)
  {
    HeadFacts(s, r);
    if Pending(s, r)[0].kind.DELETED? {
      DeletionDeliveredKeepsBack(s, r, visited, a);
    } else {
      DeliveryApplied(s, r, visited);
      ChangeDeliveredKeepsBack(s, r, Touch(DeliveredGraph(s, r), visited), a);
    }
  }

  /** Only the handler of `r` moves on; it must not lose `a`. */
  lemma HandlerKeepsBack(s: State, t: State, r: ResourceRef, a: ResourceRef)
    requires t.api == s.api && t.past.born == s.past.born && (a in s.gc.queue ==> a in t.gc.queue)
    requires forall c :: c != r ==> (c in t.past.buried <==> c in s.past.buried)
    requires forall c :: c != r ==> (c in t.gc.handlers <==> c in s.gc.handlers)
    requires forall c :: c != r && c in s.gc.handlers ==> t.gc.handlers[c] == s.gc.handlers[c]
    requires Dying(s, r, a) ==> ComesBack(t, a)
    requires ComesBack(s, a)
    ensures ComesBack(t, a)
  {
    assert Pending(t, a) == Pending(s, a);
    if c :| Dying(s, c, a) {
      if c != r {
        assert Dying(t, c, a);
      }
    }
  }

  /** What the read returns is the owner as it is stored now. */
  lemma ReadKeepsBack(s: State, r: ResourceRef, a: ResourceRef)
    requires EventsOk(s, r) && Enabled(s, ReadOwner(r)) && CurrentOwner(s.gc.handlers[r]) in s.api.store
    requires StoredInDeletion(s, a) && ComesBack(s, a)
    ensures ComesBack(ApplyRead(s, r), a)
  {
    var t := ApplyRead(s, r);
    if Dying(s, r, a) {
      var h := s.gc.handlers[r];
      var j :| h.next <= j < |h.owners| && h.owners[j] == a;
      assert t.gc.handlers[r].owners[j] == a;
      assert Dying(t, r, a);
    }
    HandlerKeepsBack(s, t, r, a);
  }

  /** The owner just read is in the queue if it was in deletion; the others are still ahead. */
  lemma EnqueueOwnerKeepsBack(s: State, r: ResourceRef, a: ResourceRef)
    requires EventsOk(s, r) && Enabled(s, EnqueueOwner(r)) && ComesBack(s, a)
    ensures ComesBack(ApplyEnqueueOwner(s, r), a)
  {
    var t := ApplyEnqueueOwner(s, r);
    if Dying(s, r, a) {
      var h := s.gc.handlers[r];
      var j :| h.next <= j < |h.owners| && h.owners[j] == a && (j > h.next || InDeletion(h.answer.value));
      if j > h.next {
        assert t.gc.handlers[r].owners[j] == a;
        assert Dying(t, r, a);
      }
    }
    HandlerKeepsBack(s, t, r, a);
  }

  lemma CallMarkingKeepsBack(s: State, k: ResourceRef, a: ResourceRef)
    requires InvBirth(s) && InvStore(s) && InvEvents(s) && InvOwners(s) && InvWorkers(s)
    requires k in s.gc.workers && s.gc.workers[k].Marking? && s.gc.workers[k].target.Some?
    requires StoredInDeletion(ApplyCall(s, k), a) && (StoredInDeletion(s, a) ==> ComesBack(s, a))
    ensures ComesBack(ApplyCall(s, k), a)
  {
    var c := s.gc.workers[k].target.value;
    CallMarkingApplied(s, k, c);
    if c in s.api.store {
      assert WellFormed(s, c, s.api.store[c]);
      MarkKeepsBack(s, c, a);
      FrameBack(ApiDelete(s, c).value, ApplyCall(s, k), a);
    } else {
      FrameBack(s, ApplyCall(s, k), a);
    }
  }

  lemma CallDroppingKeepsBack(s: State, k: ResourceRef, a: ResourceRef)
    requires InvStore(s) && InvWorkers(s) && k in s.gc.workers && s.gc.workers[k].Dropping?
    requires StoredInDeletion(ApplyCall(s, k), a) && (StoredInDeletion(s, a) ==> ComesBack(s, a))
    ensures ComesBack(ApplyCall(s, k), a)
  {
    WorkerIsOk(s, k);
    var t := ApplyCall(s, k);
    if k !in s.api.store {
      FrameBack(s, t, a);
    } else {
      var body := s.gc.workers[k].body;
      DropIsPop(s, k, body);
      if AllIn(body.finalizers, s.api.store[k].finalizers) {
        DropIsContents(s, k, body);
        ContentsKeepBack(s, k, WithoutLast(s, k, body), a);
        FrameBack(StoreOrRemove(s, k, WithoutLast(s, k, body)), t, a);
      } else {
        FrameBack(s, t, a);
      }
    }
  }

  lemma WriteKeepsBack(s: State, act: Action, a: ResourceRef)
    requires InvStore(s) && InvSpent(s) && act.Write? && SoundStep(s, act)
    requires StoredInDeletion(Apply(s, act), a) && (StoredInDeletion(s, a) ==> ComesBack(s, a))
    ensures ComesBack(Apply(s, act), a)
  {
    WriteIsContents(s, act);
    ContentsKeepBack(s, act.ref, WrittenBy(s, act), a);
  }

  lemma UserStepKeepsBack(s: State, act: Action, a: ResourceRef)
    requires InvBirth(s) && InvEvents(s) && InvStore(s) && InvSpent(s) && SoundStep(s, act) && !IsCollector(act)
    requires StoredInDeletion(Apply(s, act), a) && (StoredInDeletion(s, a) ==> ComesBack(s, a))
    ensures ComesBack(Apply(s, act), a)
  {
    match act {
      case Create(_, _, _) => CreateKeepsBack(s, act, a);
      case Mark(r) => MarkKeepsBack(s, r, a);
      case Write(_, _, _) => WriteKeepsBack(s, act, a);
    }
  }

  lemma HandlerStepKeepsBack(s: State, act: Action, a: ResourceRef)
    requires InvBirth(s) && InvGraph(s) && InvOwners(s) && EventsOk(s, act.ref) && Enabled(s, act)
    requires act.Deliver? || act.ReadOwner? || act.EnqueueOwner?
    requires StoredInDeletion(s, a) && ComesBack(s, a)
    ensures ComesBack(Apply(s, act), a)
  {
    match act {
      case Deliver(r, visited) => DeliverKeepsBack(s, r, visited, a);
      case ReadOwner(r) =>
        OwnerIsFound(s, r);
        ReadKeepsBack(s, r, a);
      case EnqueueOwner(r) => EnqueueOwnerKeepsBack(s, r, a);
    }
  }

  lemma TakeKeepsBack(s: State, k: ResourceRef, a: ResourceRef)
    requires k in s.gc.queue && k != a && ComesBack(s, a)
    ensures ComesBack(ApplyTake(s, k), a)
  {
    FrameBack(s, ApplyTake(s, k), a);
  }

  lemma ContinueKeepsBack(s: State, k: ResourceRef, a: ResourceRef)
    requires k in s.gc.workers && s.gc.workers[k].Marking? && ComesBack(s, a)
    ensures ComesBack(ApplyContinue(s, k), a)
  {
    FrameBack(s, ApplyContinue(s, k), a);
  }

  lemma CallKeepsBack(s: State, k: ResourceRef, a: ResourceRef)
    requires InvBirth(s) && InvStore(s) && InvEvents(s) && InvOwners(s) && InvWorkers(s)
    requires Enabled(s, Call(k))
    requires StoredInDeletion(ApplyCall(s, k), a) && (StoredInDeletion(s, a) ==> ComesBack(s, a))
    ensures ComesBack(ApplyCall(s, k), a)
  {
    if s.gc.workers[k].Marking? {
      CallMarkingKeepsBack(s, k, a);
    } else {
      CallDroppingKeepsBack(s, k, a);
    }
  }

  /**
   * In every run: a resource newly in deletion comes back, and one that comes back keeps coming back until a
   * worker takes it.
   */
  lemma StepKeepsBack(s: State, act: Action, a: ResourceRef)
    requires Inv(s) && SoundStep(s, act) && act != Take(a)
    requires StoredInDeletion(Apply(s, act), a) && (StoredInDeletion(s, a) ==> ComesBack(s, a))
    ensures ComesBack(Apply(s, act), a)
  {
    if !IsCollector(act) {
      UserStepKeepsBack(s, act, a);
    } else if act.Call? {
      CallKeepsBack(s, act.ref, a);
    } else {
      OnlyCallsWrite(s, act);
      QuietStepKeepsBack(s, act, a);
    }
  }

  /** Steps of the collector that leave the store alone. */
  lemma QuietStepKeepsBack(s: State, act: Action, a: ResourceRef)
    requires InvBirth(s) && InvGraph(s) && InvOwners(s) && EventsOk(s, act.ref)
    requires Enabled(s, act) && IsCollector(act) && !act.Call? && act != Take(a)
    requires StoredInDeletion(s, a) && ComesBack(s, a)
    ensures ComesBack(Apply(s, act), a)
  {
    if act.Take? {
      TakeKeepsBack(s, act.ref, a);
    } else if act.Continue? {
      ContinueKeepsBack(s, act.ref, a);
    } else {
      HandlerStepKeepsBack(s, act, a);
    }
  }

  // ---------------------------------------------------------------------------------------------
  // Steps of the workers
  // ---------------------------------------------------------------------------------------------

  /** A worker is left alone by everybody but itself. */
  lemma OthersKeepWorker(s: State, act: Action, a: ResourceRef)
    requires Enabled(s, act) && a in s.gc.workers && act != Call(a) && act != Continue(a)
    ensures a in Apply(s, act).gc.workers && Apply(s, act).gc.workers[a] == s.gc.workers[a]
  {
  }

  lemma TakenIsWorkedOn(s: State, k: ResourceRef)
    requires k in s.gc.queue
    ensures WorkedOn(ApplyTake(s, k), k)
  {
  }

  /** A drop that is accepted takes the resource out of deletion. */
  lemma DroppedIsOut(s: State, k: ResourceRef)
    requires InvStore(s) && InvWorkers(s) && k in s.gc.workers && s.gc.workers[k].Dropping? && !FirstCallFails(s, k)
    ensures !StoredInDeletion(ApplyCall(s, k), k)
  {
    WorkerIsOk(s, k);
    if k in s.api.store {
      DropIsPop(s, k, s.gc.workers[k].body);
    }
  }

  /** A first call that succeeds leaves a dependent that is dying. */
  lemma FirstCallBringsBack(s: State, k: ResourceRef)
    requires InvEvents(s) && InvWorkers(s) && k in s.gc.workers && s.gc.workers[k].Marking?
    requires s.gc.workers[k].target.Some? && s.gc.workers[k].target.value in s.api.store
    ensures ComesBack(ApplyCall(s, k), k)
  {
    var c, t := s.gc.workers[k].target.value, ApplyCall(s, k);
    assert WorkerOk(s, k, s.gc.workers[k]) && EventsOk(s, c);
    CallMarkingApplied(s, k, c);
    assert Dying(t, c, k);
  }

  lemma CallKeepsAttended(s: State, a: ResourceRef)
    requires InvStore(s) && InvEvents(s) && InvWorkers(s) && Enabled(s, Call(a)) && Orderly(s, Call(a))
    requires WorkedOn(s, a) && StoredInDeletion(s, a) && !ComesBack(s, a) && StoredInDeletion(ApplyCall(s, a), a)
    ensures ComesBack(ApplyCall(s, a), a)
  {
    if s.gc.workers[a].Dropping? {
      DroppedIsOut(s, a);
    } else {
      FirstCallBringsBack(s, a);
    }
  }

  /** One step loses nobody, although a marking pass may skip dependents: if and only if it is orderly. */
  lemma EveryStepKeepsProgress(s: State, act: Action)
    requires Inv(s) && AllAttended(s) && SoundStep(s, act)
    ensures AllAttended(Apply(s, act)) <==> Orderly(s, act)
  {
    var t := Apply(s, act);
    if Orderly(s, act) {
      forall a | StoredInDeletion(t, a) ensures ComesBack(t, a) || WorkedOn(t, a) {
        StepAttends(s, act, a);
      }
    } else {
      FailedCallLoses(s, act.ref);
    }
  }

  lemma FailedCallLoses(s: State, k: ResourceRef)
    requires FirstCallFails(s, k) && StoredInDeletion(s, k) && !ComesBack(s, k)
    ensures StoredInDeletion(ApplyCall(s, k), k) && !ComesBack(ApplyCall(s, k), k) && k !in ApplyCall(s, k).gc.workers
  {
    FailedCallEnds(s, k);
    FrameBack(WorkEnded(s, k), s, k);
  }

  lemma FailedCallEnds(s: State, k: ResourceRef)
    requires FirstCallFails(s, k) && (k in s.api.store ==> s.api.store[k].deleted)
    ensures Enabled(s, Call(k)) && ApplyCall(s, k) == WorkEnded(s, k)
  {
  }

  lemma StepAttends(s: State, act: Action, a: ResourceRef)
    requires Inv(s) && SoundStep(s, act) && Orderly(s, act) && StoredInDeletion(Apply(s, act), a)
    requires StoredInDeletion(s, a) ==> ComesBack(s, a) || WorkedOn(s, a)
    ensures ComesBack(Apply(s, act), a) || WorkedOn(Apply(s, act), a)
  {
    if act == Take(a) {
      TakenIsWorkedOn(s, a);
    } else if StoredInDeletion(s, a) && !ComesBack(s, a) {
      if act == Call(a) {
        CallKeepsAttended(s, a);
      } else {
        OthersKeepWorker(s, act, a);
      }
    } else {
      StepKeepsBack(s, act, a);
    }
  }

  // ---------------------------------------------------------------------------------------------
  // Runs
  // ---------------------------------------------------------------------------------------------

  lemma {:induction false} EveryOrderlyRunKeepsProgress(ss: seq<State>, acts: seq<Action>, n: nat)
    requires OrderlyRun(ss, acts) && n < |ss|
    ensures Inv(ss[n]) && AllAttended(ss[n])
  {
    EveryRunKeepsInv(ss, acts, n);
    if n > 0 {
      EveryOrderlyRunKeepsProgress(ss, acts, n - 1);
      EveryStepKeepsProgress(ss[n - 1], acts[n - 1]);
    }
  }

  /** The garbage collector has nothing left to do. */
  ghost predicate Quiescent(s: State) {
    && (forall r :: Pending(s, r) == [])
    && s.gc.queue == map[] && s.gc.workers == map[] && s.gc.handlers == map[]
  }

  /** Deleted, with a last finalizer that belongs to another controller. */
  ghost predicate WaitsForAnother(s: State, w: ResourceRef) {
    && w in s.api.store && s.api.store[w].deleted
    && s.api.store[w].finalizers != [] && !InDeletion(s.api.store[w])
  }

  /**
   * Cascade progress: when the garbage collector is quiescent, whatever is still in deletion waits for a
   * descendant that another controller has yet to release. Passes that skipped dependents do not matter.
   */
  lemma {:induction false} NothingGetsStuck(ss: seq<State>, acts: seq<Action>, n: nat, a: ResourceRef)
    returns (w: ResourceRef)
    requires OrderlyRun(ss, acts) && n < |ss| && Quiescent(ss[n]) && StoredInDeletion(ss[n], a)
    ensures WaitsForAnother(ss[n], w) && Reaches(Ownership(ss[n].past.born), a, w)
  {
    EveryOrderlyRunKeepsProgress(ss, acts, n);
    w := FindTheWaiting(ss[n], a);
  }

  lemma {:induction false} FindTheWaiting(s: State, a: ResourceRef) returns (w: ResourceRef)
    requires Aged(s.past.born, s.past.age) && InvStore(s) && InvEvents(s) && AllAttended(s)
    requires Quiescent(s) && StoredInDeletion(s, a)
    ensures WaitsForAnother(s, w) && Reaches(Ownership(s.past.born), a, w)
    decreases |s.past.born| - if a in s.past.age then s.past.age[a] else 0
  {
    assert WellFormed(s, a, s.api.store[a]);
    var c := DyingOne(s, a);
    if InDeletion(s.api.store[c]) {
      w := FindTheWaiting(s, c);
      EdgeThenReaches(Ownership(s.past.born), a, c, w);
    } else {
      w := c;
      EdgeReaches(Ownership(s.past.born), a, c);
    }
  }

  lemma DyingOne(s: State, a: ResourceRef) returns (c: ResourceRef)
    requires InvStore(s) && InvEvents(s) && AllAttended(s) && Quiescent(s) && StoredInDeletion(s, a)
    ensures c in s.api.store && s.api.store[c].deleted && s.api.store[c].finalizers != []
    ensures c in s.past.born && a in s.past.born[c]
  {
    assert Pending(s, a) == [];
    c :| Dying(s, c, a);
    assert EventsOk(s, c) && Pending(s, c) == [];
    assert WellFormed(s, c, s.api.store[c]);
  }

  /** If no other controller owes anything either, every deleted resource is gone. */
  lemma NothingDeletedRemains(ss: seq<State>, acts: seq<Action>, n: nat)
    requires OrderlyRun(ss, acts) && n < |ss| && Quiescent(ss[n])
    requires forall w :: !WaitsForAnother(ss[n], w)
    ensures forall a :: a in ss[n].api.store ==> !ss[n].api.store[a].deleted
  {
    forall a | a in ss[n].api.store ensures !ss[n].api.store[a].deleted {
      DeletedMeansWaiting(ss, acts, n, a);
    }
  }

  lemma DeletedMeansWaiting(ss: seq<State>, acts: seq<Action>, n: nat, a: ResourceRef)
    requires OrderlyRun(ss, acts) && n < |ss| && Quiescent(ss[n]) && a in ss[n].api.store
    ensures ss[n].api.store[a].deleted ==> exists w :: WaitsForAnother(ss[n], w)
  {
    if InDeletion(ss[n].api.store[a]) {
      var w := NothingGetsStuck(ss, acts, n, a);
    } else {
      EveryRunKeepsInv(ss, acts, n);
      assert WellFormed(ss[n], a, ss[n].api.store[a]);
      assert ss[n].api.store[a].deleted ==> WaitsForAnother(ss[n], a);
    }
  }
}
