/** The life of an application under any interleaving of API handlers, stale requests included. */
module Lifecycle {
  import opened Wrappers
  import opened Relationships
  import opened Etcd
  import opened Sessions
  import opened SessionRuns
  import opened KubernetesApi

  /** Handlers in flight are the objects held; each write in the log keeps the request that caused it. */
  datatype State = State(world: World<Application>, requests: seq<Request>)

  datatype Step = Arrive(id: Id, key: Key) | Finish(id: Id, request: Request) | Create(id: Id, request: Request)

  /** The write of a handler, with what it has made of its entity. The handler is over, whether or not it passed. */
  function AfterWrite(
      keyOf: Application -> Key, s: State, id: Id, o: Held<Application>, delete: bool, r: Request): State
  {
    var w := s.world.(held := s.world.held[id := o]);
    var after := if delete then AfterDelete(w, id, keyOf(o.value)) else AfterPut(w, id, keyOf(o.value));
    State(after.(held := after.held - {id}),
      if |after.history| > |w.history| then s.requests + [r] else s.requests)
  }

  function Finished(keyOf: Application -> Key, s: State, id: Id, r: Request): State
    requires id in s.world.held
  {
    var o := s.world.held[id];
    match Handle(o.value, r)
    case Stored(app) => AfterWrite(keyOf, s, id, o.(value := app), false, r)
    case Removed(app) => AfterWrite(keyOf, s, id, o.(value := app), true, r)
    case _ => s.(world := s.world.(held := s.world.held - {id}))
  }

  predicate Enabled(s: State, a: Step) {
    match a
    case Arrive(id, _) => id !in s.world.held
    case Finish(id, _) => id in s.world.held
    case Create(id, r) => id !in s.world.held && r.CreateRequest?
  }

  function Next(keyOf: Application -> Key, s: State, a: Step): State
    requires Enabled(s, a)
  {
    match a
    case Arrive(id, key) => s.(world := AfterLoad(s.world, id, key))
    case Finish(id, r) => Finished(keyOf, s, id, r)
    case Create(id, r) => AfterWrite(keyOf, s, id, Held(Created(r), None, None), false, r)
  }

  ghost predicate LifecycleRun(keyOf: Application -> Key, ss: seq<State>, acts: seq<Step>) {
    && |ss| == |acts| + 1
    && ss[0] == State(World([], map[], []), [])
    && forall i :: 0 <= i < |acts| ==> Enabled(ss[i], acts[i]) && ss[i + 1] == Next(keyOf, ss[i], acts[i])
  }

  // ---------------------------------------------------------------------------------------------
  // Every log is a sequence of whole handlers
  // ---------------------------------------------------------------------------------------------

  /** The write is what the handler of the request makes of the stored entity, or of nothing if it creates one. */
  ghost predicate Serves(before: Option<Kv<Application>>, w: Write<Application>, r: Request) {
    match before
    case None => r.CreateRequest? && w.Put? && w.value == Created(r)
    case Some(kv) =>
      if w.Put? then Handle(kv.value, r) == Stored(w.value) else Handle(kv.value, r).Removed?
  }

  ghost predicate Serial(h: History<Application>, requests: seq<Request>) {
    |requests| == |h| && forall i {:trigger Serves(Find(h[..i], h[i].key), h[i], requests[i])} ::
      0 <= i < |h| ==> Serves(Find(h[..i], h[i].key), h[i], requests[i])
  }

  /** Handlers in flight hold an entity exactly as it was read. */
  ghost predicate AsRead(w: World<Application>) {
    forall id :: id in w.held ==> w.held[id].read.Some? && w.held[id].value == w.held[id].read.value.value
  }

  ghost predicate Orderly(s: State) {
    AllKnown(s.world) && Chained(s.world.history, s.world.replaced) && AsRead(s.world)
    && Serial(s.world.history, s.requests)
  }

  lemma SerialGrows(h: History<Application>, requests: seq<Request>, w: Write<Application>, r: Request)
    requires Serial(h, requests) && Serves(Find(h, w.key), w, r)
    ensures Serial(h + [w], requests + [r])
  {
    var after := h + [w];
    forall i | 0 <= i < |after| ensures Serves(Find(after[..i], after[i].key), after[i], (requests + [r])[i]) {
      assert after[..i] == h[..i];
      assert h[..|h|] == h;
    }
  }

  lemma WriteKeepsSerial(
      keyOf: Application -> Key, s: State, id: Id, o: Held<Application>, delete: bool, r: Request)
    requires Serial(s.world.history, s.requests) && Known(s.world.history, o) && MadeBy(o, delete, r)
    ensures var t := AfterWrite(keyOf, s, id, o, delete, r); Serial(t.world.history, t.requests)
  {
    var h, key := s.world.history, keyOf(o.value);
    if delete && o.revision.Some? && ModRevision(h, key) == o.revision.value.modified {
      DeletePassesOnlyUnchanged(h, key, o);
      SerialGrows(h, s.requests, Delete(key), r);
    } else if !delete && PutPasses(h, key, o.revision) {
      PredictionIsExact(h, key, o.value, o);
      SerialGrows(h, s.requests, Put(key, o.value), r);
    }
  }

  /** What the handler of the request has made of what was read. */
  ghost predicate MadeBy(o: Held<Application>, delete: bool, r: Request) {
    match o.read
    case None => !delete && o.revision.None? && r.CreateRequest? && o.value == Created(r)
    case Some(kv) => Handle(kv.value, r) == if delete then Removed(o.value) else Stored(o.value)
  }

  lemma WriteKeepsOrderly(
      keyOf: Application -> Key, s: State, id: Id, o: Held<Application>, delete: bool, r: Request)
    requires Orderly(s) && Known(s.world.history, o) && MadeBy(o, delete, r)
    ensures Orderly(AfterWrite(keyOf, s, id, o, delete, r))
  {
    var w := s.world.(held := s.world.held[id := o]);
    WriteKeepsSerial(keyOf, s, id, o, delete, r);
    if delete {
      DeleteKeeps(w, id, keyOf(o.value));
    } else {
      PutKeeps(w, id, keyOf(o.value));
    }
  }

  lemma StepKeepsOrderly(keyOf: Application -> Key, s: State, a: Step)
    requires Orderly(s) && Enabled(s, a)
    ensures Orderly(Next(keyOf, s, a))
  {
    match a {
      case Arrive(id, key) => LoadKeeps(s.world, id, key);
      case Finish(id, r) =>
        var o := s.world.held[id];
        match Handle(o.value, r) {
          case Stored(app) => WriteKeepsOrderly(keyOf, s, id, o.(value := app), false, r);
          case Removed(app) => WriteKeepsOrderly(keyOf, s, id, o.(value := app), true, r);
          case _ =>
        }
      case Create(id, r) => WriteKeepsOrderly(keyOf, s, id, Held(Created(r), None, None), false, r);
    }
  }

  /** However handlers interleave, the log reads as if they had run one after the other. */
  lemma {:induction false} EveryRunIsSerial(keyOf: Application -> Key, ss: seq<State>, acts: seq<Step>, n: nat)
    requires LifecycleRun(keyOf, ss, acts) && n < |ss|
    ensures Orderly(ss[n])
  {
    if n > 0 {
      EveryRunIsSerial(keyOf, ss, acts, n - 1);
      StepKeepsOrderly(keyOf, ss[n - 1], acts[n - 1]);
    }
  }

  // ---------------------------------------------------------------------------------------------
  // One incarnation of a key
  // ---------------------------------------------------------------------------------------------

  /** The key holds the same incarnation after `i` and after `j` writes. */
  ghost predicate SameIncarnation(h: History<Application>, k: Key, i: nat, j: nat) {
    && i <= j <= |h| && k in Store(h[..i]) && k in Store(h[..j])
    && Store(h[..i])[k].created == Store(h[..j])[k].created
  }

  ghost function At(h: History<Application>, k: Key, i: nat): Application
    requires i <= |h| && k in Store(h[..i])
  {
    Store(h[..i])[k].value
  }

  /** Going back one write within an incarnation: the key existed then, too. */
  lemma IncarnationSoFar(h: History<Application>, k: Key, i: nat, j: nat)
    requires SameIncarnation(h, k, i, j) && i < j
    ensures SameIncarnation(h, k, i, j - 1)
    ensures h[j - 1].key == k ==> h[j - 1].Put? && Store(h[..j])[k].value == h[j - 1].value
    ensures h[j - 1].key != k ==> Store(h[..j])[k] == Store(h[..j - 1])[k]
  {
    assert h[..j] == h[..j - 1] + [h[j - 1]];
    StoreAfter(h[..j - 1], h[j - 1]);
    ModifiedByLastWrite(h[..i], k);
  }

  lemma WriteIsHandled(h: History<Application>, requests: seq<Request>, k: Key, i: nat)
    requires Serial(h, requests) && i < |h| && h[i].key == k && h[i].Put? && k in Store(h[..i])
    ensures Handle(Store(h[..i])[k].value, requests[i]) == Stored(h[i].value)
  {
    assert Serves(Find(h[..i], k), h[i], requests[i]);
  }

  ghost predicate HasFinalizer(h: History<Application>, k: Key, i: nat, f: string)
    requires i <= |h|
  {
    k in Store(h[..i]) && f in Store(h[..i])[k].value.metadata.finalizers
  }

  ghost predicate IsDeleted(h: History<Application>, k: Key, i: nat)
    requires i <= |h|
  {
    k in Store(h[..i]) && Store(h[..i])[k].value.metadata.deleted.Some?
  }

  lemma OneWriteShrinks(h: History<Application>, requests: seq<Request>, k: Key, i: nat, m: nat, f: string)
    requires Serial(h, requests) && SameIncarnation(h, k, i, m + 1) && i <= m && IsDeleted(h, k, m)
    ensures IsDeleted(h, k, m + 1) && (HasFinalizer(h, k, m + 1, f) ==> HasFinalizer(h, k, m, f))
  {
    IncarnationSoFar(h, k, i, m + 1);
    if h[m].key == k {
      WriteIsHandled(h, requests, k, m);
      DeletionIsFinal(Store(h[..m])[k].value, requests[m], h[m].value);
    }
  }

  /** Once an incarnation is marked as deleted it stays so, and no name ever enters its finalizers. */
  lemma {:induction false} FinalizersOnlyShrink(
      h: History<Application>, requests: seq<Request>, k: Key, i: nat, j: nat, f: string)
    requires Serial(h, requests) && SameIncarnation(h, k, i, j) && IsDeleted(h, k, i)
    ensures IsDeleted(h, k, j) && (HasFinalizer(h, k, j, f) ==> HasFinalizer(h, k, i, f))
    decreases j
  {
    if i < j {
      IncarnationSoFar(h, k, i, j);
      FinalizersOnlyShrink(h, requests, k, i, j - 1, f);
      OneWriteShrinks(h, requests, k, i, j - 1, f);
    }
  }

  /** The request at `m` is an update of the key that leaves the name out. */
  ghost predicate DroppedAt(h: History<Application>, requests: seq<Request>, k: Key, f: string, m: nat) {
    && m < |h| && m < |requests| && h[m].key == k
    && requests[m].UpdateRequest? && f !in requests[m].body.metadata.finalizers
  }

  lemma LostInOneWrite(h: History<Application>, requests: seq<Request>, k: Key, f: string, i: nat, m: nat)
    requires Serial(h, requests) && SameIncarnation(h, k, i, m + 1) && i <= m
    requires HasFinalizer(h, k, m, f) && !HasFinalizer(h, k, m + 1, f)
    ensures DroppedAt(h, requests, k, f, m)
  {
    IncarnationSoFar(h, k, i, m + 1);
    WriteIsHandled(h, requests, k, m);
    OnlyUpdatesDrop(Store(h[..m])[k].value, requests[m], h[m].value, f);
  }

  /** A finalizer that is gone was dropped by an update, never by any other handler. */
  lemma {:induction false} SomebodyDropped(
      h: History<Application>, requests: seq<Request>, k: Key, f: string, i: nat, j: nat) returns (m: nat)
    requires Serial(h, requests) && SameIncarnation(h, k, i, j)
    requires HasFinalizer(h, k, i, f) && !HasFinalizer(h, k, j, f)
    ensures i <= m < j && DroppedAt(h, requests, k, f, m)
    decreases j
  {
    m := j - 1;
    if HasFinalizer(h, k, m, f) {
      LostInOneWrite(h, requests, k, f, i, m);
    } else {
      IncarnationSoFar(h, k, i, j);
      m := SomebodyDropped(h, requests, k, f, i, m);
    }
  }

  /**
   * Without force a key is removed only while its entity is marked as deleted, and every finalizer the
   * incarnation ever had, the garbage collector's included, was dropped by an update before or at the removal.
   */
  lemma RemovalComesLast(h: History<Application>, requests: seq<Request>, i: nat, j: nat, f: string)
    requires Serial(h, requests) && j < |h| && h[j].Delete? && !Forced(requests[j])
    requires SameIncarnation(h, h[j].key, i, j) && HasFinalizer(h, h[j].key, i, f)
    ensures IsDeleted(h, h[j].key, j)
    ensures exists m :: i <= m <= j && DroppedAt(h, requests, h[j].key, f, m)
  {
    var k := h[j].key;
    assert Serves(Find(h[..j], k), h[j], requests[j]);
    RemovedExactlyWhen(Store(h[..j])[k].value, requests[j]);
    if HasFinalizer(h, k, j, f) {
      assert DroppedAt(h, requests, k, f, j);
    } else {
      var m := SomebodyDropped(h, requests, k, f, i, j);
    }
  }

  /**
   * The finalizer lifecycle for the log of any run, under every interleaving of handlers: what is deleted stays
   * deleted and gains no name, and an unforced removal meets a deleted entity whose finalizers were all dropped.
   */
  lemma EveryRunKeepsLifecycle(
      keyOf: Application -> Key, ss: seq<State>, acts: seq<Step>, n: nat, k: Key, i: nat, j: nat)
    requires LifecycleRun(keyOf, ss, acts) && n < |ss| && SameIncarnation(ss[n].world.history, k, i, j)
    ensures var h := ss[n].world.history;
      IsDeleted(h, k, i) ==> IsDeleted(h, k, j) && forall f :: HasFinalizer(h, k, j, f) ==> HasFinalizer(h, k, i, f)
    ensures var h, requests := ss[n].world.history, ss[n].requests;
      j < |h| && h[j] == Delete(k) && j < |requests| && !Forced(requests[j]) ==>
        && IsDeleted(h, k, j)
        && forall f :: HasFinalizer(h, k, i, f) ==> exists m :: i <= m <= j && DroppedAt(h, requests, k, f, m)
  {
    EveryRunIsSerial(keyOf, ss, acts, n);
    var h, requests := ss[n].world.history, ss[n].requests;
    if IsDeleted(h, k, i) {
      FinalizersOnlyShrink(h, requests, k, i, j, CASCADE_DELETION);
      forall f | HasFinalizer(h, k, j, f) ensures HasFinalizer(h, k, i, f) {
        FinalizersOnlyShrink(h, requests, k, i, j, f);
      }
    }
    if j < |h| && h[j] == Delete(k) && j < |requests| && !Forced(requests[j]) {
      RemovalMeetsDeleted(h, requests, j);
      forall f | HasFinalizer(h, k, i, f)
        ensures exists m :: i <= m <= j && DroppedAt(h, requests, k, f, m)
      {
        RemovalComesLast(h, requests, i, j, f);
      }
    }
  }

  lemma RemovalMeetsDeleted(h: History<Application>, requests: seq<Request>, j: nat)
    requires Serial(h, requests) && j < |h| && h[j].Delete? && !Forced(requests[j])
    ensures IsDeleted(h, h[j].key, j)
  {
    assert Serves(Find(h[..j], h[j].key), h[j], requests[j]);
  }

  // ---------------------------------------------------------------------------------------------
  // Marks, bindings and retries
  // ---------------------------------------------------------------------------------------------

  /** The write at `m` is an unforced delete request's. */
  ghost predicate MarkedAt(h: History<Application>, requests: seq<Request>, k: Key, m: nat) {
    m < |h| && m < |requests| && h[m].key == k && requests[m].DeleteRequest? && !requests[m].force
  }

  /** A mark appends the collector's finalizer; what is deleted already, by whatever request, is not marked. */
  lemma MarkIsFirst(h: History<Application>, requests: seq<Request>, k: Key, m: nat)
    requires Serial(h, requests) && MarkedAt(h, requests, k, m)
    ensures k in Store(h[..m]) && !IsDeleted(h, k, m) && h[m].Put?
    ensures h[m].value.metadata.finalizers == At(h, k, m).metadata.finalizers + [CASCADE_DELETION]
    ensures h[m].value.metadata.deleted.Some?
  {
    assert Serves(Find(h[..m], k), h[m], requests[m]);
  }

  /** An incarnation is marked at most once, and never after it was deleted in another way. */
  lemma DeletedIsNotMarked(h: History<Application>, requests: seq<Request>, k: Key, i: nat, j: nat)
    requires Serial(h, requests) && SameIncarnation(h, k, i, j) && IsDeleted(h, k, i)
    ensures !MarkedAt(h, requests, k, j)
  {
    FinalizersOnlyShrink(h, requests, k, i, j, CASCADE_DELETION);
    if MarkedAt(h, requests, k, j) {
      MarkIsFirst(h, requests, k, j);
    }
  }

  lemma StoredByWrite(h: History<Application>, k: Key, i: nat)
    requires i < |h| && h[i].key == k && h[i].Put?
    ensures k in Store(h[..i + 1]) && At(h, k, i + 1) == h[i].value
  {
    assert h[..i + 1] == h[..i] + [h[i]];
    StoreAfter(h[..i], h[i]);
  }

  /** The complete hook deletes past the collector: its finalizer never comes to that incarnation any more. */
  lemma CompletedStaysOutside(h: History<Application>, requests: seq<Request>, k: Key, i: nat, j: nat)
    requires Serial(h, requests) && i < |h| && h[i].key == k && requests[i].CompleteRequest?
    requires !HasFinalizer(h, k, i, CASCADE_DELETION) && SameIncarnation(h, k, i + 1, j)
    ensures IsDeleted(h, k, j) && !HasFinalizer(h, k, j, CASCADE_DELETION) && !MarkedAt(h, requests, k, j)
  {
    assert Serves(Find(h[..i], k), h[i], requests[i]);
    StoredByWrite(h, k, i);
    FinalizersOnlyShrink(h, requests, k, i + 1, j, CASCADE_DELETION);
    DeletedIsNotMarked(h, requests, k, i + 1, j);
  }

  /** The write at `m` binds the key to the cluster. */
  ghost predicate BoundAt(h: History<Application>, requests: seq<Request>, k: Key, cluster: ResourceRef, m: nat) {
    m < |h| && m < |requests| && h[m].key == k && requests[m].BindingRequest? && requests[m].cluster == cluster
  }

  lemma {:induction false} OwnerStays(
      h: History<Application>, requests: seq<Request>, k: Key, o: ResourceRef, i: nat, j: nat)
    requires Serial(h, requests) && SameIncarnation(h, k, i, j) && o in At(h, k, i).metadata.owners
    requires forall n :: i <= n < j && UpdatedAt(h, requests, k, n) ==> o in requests[n].body.metadata.owners
    ensures o in At(h, k, j).metadata.owners
    decreases j
  {
    if i < j {
      IncarnationSoFar(h, k, i, j);
      OwnerStays(h, requests, k, o, i, j - 1);
      if h[j - 1].key == k {
        WriteIsHandled(h, requests, k, j - 1);
      }
    }
  }

  /** Whatever is written after a binding, the cluster owns the application until an update leaves it out. */
  lemma BoundStaysOwned(
      h: History<Application>, requests: seq<Request>, k: Key, cluster: ResourceRef, m: nat, j: nat)
    requires Serial(h, requests) && BoundAt(h, requests, k, cluster, m) && SameIncarnation(h, k, m + 1, j)
    requires forall n :: m < n < j && UpdatedAt(h, requests, k, n) ==> cluster in requests[n].body.metadata.owners
    ensures cluster in At(h, k, j).metadata.owners
  {
    assert Serves(Find(h[..m], k), h[m], requests[m]);
    StoredByWrite(h, k, m);
    OwnerStays(h, requests, k, cluster, m + 1, j);
  }

  /** The write at `m` is a status update that reports the application as degraded. */
  ghost predicate ReportedAt(h: History<Application>, requests: seq<Request>, k: Key, m: nat) {
    && m < |h| && m < |requests| && h[m].key == k && requests[m].StatusRequest?
    && requests[m].body.status.state == DEGRADED
  }

  ghost predicate IsDegraded(h: History<Application>, k: Key, i: nat)
    requires i <= |h|
  {
    k in Store(h[..i]) && At(h, k, i).status.state == DEGRADED
  }

  lemma OneWriteReports(h: History<Application>, requests: seq<Request>, k: Key, m: nat)
    requires Serial(h, requests) && m < |h| && IsDegraded(h, k, m + 1) && !ReportedAt(h, requests, k, m)
    ensures SameIncarnation(h, k, m, m + 1) && IsDegraded(h, k, m)
  {
    assert h[..m + 1] == h[..m] + [h[m]];
    StoreAfter(h[..m], h[m]);
    if h[m].key == k {
      assert Serves(Find(h[..m], k), h[m], requests[m]);
    }
  }

  /** A degraded application was reported so in this incarnation, and has been degraded ever since. */
  lemma {:induction false} DegradedWasReported(h: History<Application>, requests: seq<Request>, k: Key, j: nat)
    returns (m: nat)
    requires Serial(h, requests) && j <= |h| && IsDegraded(h, k, j)
    ensures m < j && ReportedAt(h, requests, k, m) && SameIncarnation(h, k, m + 1, j)
    ensures forall n :: m < n <= j ==> IsDegraded(h, k, n)
    decreases j
  {
    assert j > 0;
    m := j - 1;
    if !ReportedAt(h, requests, k, m) {
      OneWriteReports(h, requests, k, m);
      m := DegradedWasReported(h, requests, k, j - 1);
    }
  }

  /** The write at `m` is a retry. */
  ghost predicate RetriedAt(h: History<Application>, requests: seq<Request>, k: Key, m: nat) {
    m < |h| && m < |requests| && h[m].key == k && requests[m].RetryRequest?
  }

  /** A retry needs a report that the application is degraded, and the next one needs another. */
  lemma EachRetryHasItsReport(h: History<Application>, requests: seq<Request>, k: Key, j: nat) returns (m: nat)
    requires Serial(h, requests) && RetriedAt(h, requests, k, j)
    ensures m < j && ReportedAt(h, requests, k, m) && SameIncarnation(h, k, m + 1, j)
    ensures forall i: nat :: RetriedAt(h, requests, k, i) && i < j ==> i < m
  {
    assert Serves(Find(h[..j], k), h[j], requests[j]);
    m := DegradedWasReported(h, requests, k, j);
    forall i: nat | RetriedAt(h, requests, k, i) && i < j ensures i < m {
      assert Serves(Find(h[..i], k), h[i], requests[i]);
      StoredByWrite(h, k, i);
      assert !IsDegraded(h, k, i + 1);
    }
  }

  // ---------------------------------------------------------------------------------------------
  // Specification and status, each from its own requests
  // ---------------------------------------------------------------------------------------------

  lemma {:induction false} IncarnationBetween(h: History<Application>, k: Key, i: nat, m: nat, j: nat)
    requires SameIncarnation(h, k, i, j) && i <= m <= j
    ensures SameIncarnation(h, k, i, m) && SameIncarnation(h, k, m, j)
    decreases j
  {
    if m < j {
      IncarnationSoFar(h, k, i, j);
      IncarnationBetween(h, k, i, m, j - 1);
    }
  }

  /** The write at `m` is an update of the key. */
  ghost predicate UpdatedAt(h: History<Application>, requests: seq<Request>, k: Key, m: nat) {
    m < |h| && m < |requests| && h[m].key == k && requests[m].UpdateRequest?
  }

  lemma OneWriteSpecifies(h: History<Application>, requests: seq<Request>, k: Key, i: nat, m: nat)
    requires Serial(h, requests) && SameIncarnation(h, k, i, m + 1) && i <= m
    ensures SameIncarnation(h, k, i, m)
    ensures UpdatedAt(h, requests, k, m) ==>
      At(h, k, m + 1).spec == requests[m].body.spec && At(h, k, m + 1).status == At(h, k, m).status
    ensures !UpdatedAt(h, requests, k, m) ==> At(h, k, m + 1).spec == At(h, k, m).spec
    ensures h[m].key != k ==> At(h, k, m + 1).status == At(h, k, m).status
  {
    IncarnationSoFar(h, k, i, m + 1);
    if h[m].key == k {
      WriteIsHandled(h, requests, k, m);
    }
  }

  lemma {:induction false} NobodyElseSpecifies(h: History<Application>, requests: seq<Request>, k: Key, i: nat, j: nat)
    requires Serial(h, requests) && SameIncarnation(h, k, i, j)
    requires forall n :: i <= n < j ==> !UpdatedAt(h, requests, k, n)
    ensures At(h, k, j).spec == At(h, k, i).spec
    decreases j
  {
    if i < j {
      OneWriteSpecifies(h, requests, k, i, j - 1);
      NobodyElseSpecifies(h, requests, k, i, j - 1);
    }
  }

  /** Whatever other handlers write after it, the specification stored is that of the last update accepted. */
  lemma LastUpdateStands(h: History<Application>, requests: seq<Request>, k: Key, i: nat, m: nat, j: nat)
    requires Serial(h, requests) && SameIncarnation(h, k, i, j) && i <= m < j && UpdatedAt(h, requests, k, m)
    requires forall n :: m < n < j ==> !UpdatedAt(h, requests, k, n)
    ensures At(h, k, j).spec == requests[m].body.spec
  {
    IncarnationBetween(h, k, i, m + 1, j);
    OneWriteSpecifies(h, requests, k, i, m);
    NobodyElseSpecifies(h, requests, k, m + 1, j);
  }

  /** Updates do not take back a status: as long as nobody else writes the key it stays, whatever the bodies say. */
  lemma {:induction false} UpdatesKeepStatus(h: History<Application>, requests: seq<Request>, k: Key, i: nat, j: nat)
    requires Serial(h, requests) && SameIncarnation(h, k, i, j)
    requires forall n :: i <= n < j && h[n].key == k ==> UpdatedAt(h, requests, k, n)
    ensures At(h, k, j).status == At(h, k, i).status
    decreases j
  {
    if i < j {
      OneWriteSpecifies(h, requests, k, i, j - 1);
      UpdatesKeepStatus(h, requests, k, i, j - 1);
    }
  }

  // ---------------------------------------------------------------------------------------------
  // The tokens of the hooks
  // ---------------------------------------------------------------------------------------------

  /** The token of the complete hook, or of the shutdown hook. */
  function TokenOf(status: Status, complete: bool): Option<string> {
    if complete then status.completeToken else status.shutdownToken
  }

  /** The write at `m` is a status update that stores the token. */
  ghost predicate GivenAt(
      h: History<Application>, requests: seq<Request>, k: Key, complete: bool, token: string, m: nat)
  {
    && m < |h| && m < |requests| && h[m].key == k && requests[m].StatusRequest?
    && TokenOf(requests[m].body.status, complete) == Some(token)
  }

  lemma OneWriteGives(
      h: History<Application>, requests: seq<Request>, k: Key, m: nat, complete: bool, token: string)
    requires Serial(h, requests) && m < |h| && k in Store(h[..m + 1])
    requires TokenOf(At(h, k, m + 1).status, complete) == Some(token) && !GivenAt(h, requests, k, complete, token, m)
    ensures SameIncarnation(h, k, m, m + 1) && TokenOf(At(h, k, m).status, complete) == Some(token)
  {
    assert h[..m + 1] == h[..m] + [h[m]];
    StoreAfter(h[..m], h[m]);
    if h[m].key == k {
      assert Serves(Find(h[..m], k), h[m], requests[m]);
    }
  }

  /** A token that is stored was given by a status update to this incarnation: creations and updates bring none. */
  lemma {:induction false} TokenWasGiven(
      h: History<Application>, requests: seq<Request>, k: Key, j: nat, complete: bool, token: string) returns (m: nat)
    requires Serial(h, requests) && j <= |h| && k in Store(h[..j])
    requires TokenOf(At(h, k, j).status, complete) == Some(token)
    ensures m < j && GivenAt(h, requests, k, complete, token, m) && SameIncarnation(h, k, m + 1, j)
    decreases j
  {
    assert j > 0;
    m := j - 1;
    if !GivenAt(h, requests, k, complete, token, m) {
      OneWriteGives(h, requests, k, m, complete, token);
      m := TokenWasGiven(h, requests, k, j - 1, complete, token);
    }
  }

  /** The token a hook's request brings, if the request is one. */
  function Brought(r: Request): Option<string> {
    match r
    case CompleteRequest(token, _) => token
    case ShutdownRequest(token) => token
    case _ => None
  }

  /**
   * In every run: a hook writes its key only with the token that a status update has stored in the same incarnation,
   * however many requests came in between.
   */
  lemma EveryHookHadItsToken(keyOf: Application -> Key, ss: seq<State>, acts: seq<Step>, n: nat, j: nat)
    returns (m: nat)
    requires LifecycleRun(keyOf, ss, acts) && n < |ss|
    requires j < |ss[n].world.history| && j < |ss[n].requests|
    requires ss[n].requests[j].CompleteRequest? || ss[n].requests[j].ShutdownRequest?
    ensures var h, requests := ss[n].world.history, ss[n].requests;
      && Brought(requests[j]).Some? && m < j
      && GivenAt(h, requests, h[j].key, requests[j].CompleteRequest?, Brought(requests[j]).value, m)
      && SameIncarnation(h, h[j].key, m + 1, j)
  {
    EveryRunIsSerial(keyOf, ss, acts, n);
    m := HookHadItsToken(ss[n].world.history, ss[n].requests, j);
  }

  lemma HookHadItsToken(h: History<Application>, requests: seq<Request>, j: nat) returns (m: nat)
    requires Serial(h, requests) && j < |h| && (requests[j].CompleteRequest? || requests[j].ShutdownRequest?)
    ensures Brought(requests[j]).Some? && m < j && SameIncarnation(h, h[j].key, m + 1, j)
    ensures GivenAt(h, requests, h[j].key, requests[j].CompleteRequest?, Brought(requests[j]).value, m)
  {
    assert Serves(Find(h[..j], h[j].key), h[j], requests[j]);
    m := TokenWasGiven(h, requests, h[j].key, j, requests[j].CompleteRequest?, Brought(requests[j]).value);
  }
}
