/**
 * Where each stored field of an application comes from: over any log, the last request that sets a field, or the
 * creation if there was none, and nothing else.
 */
module LifecycleFields {
  import opened Wrappers
  import opened Relationships
  import opened Etcd
  import opened Sessions
  import opened KubernetesApi
  import opened Lifecycle

  // ---------------------------------------------------------------------------------------------
  // Which requests set which fields, and to what
  // ---------------------------------------------------------------------------------------------

  /** An unforced delete request that finds the application not yet deleted. */
  predicate Marks(app: Application, r: Request) {
    r.DeleteRequest? && !r.force && app.metadata.deleted.None?
  }

  predicate Updates(app: Application, r: Request) {
    r.UpdateRequest?
  }

  predicate Reports(app: Application, r: Request) {
    r.StatusRequest?
  }

  predicate Schedules(app: Application, r: Request) {
    r.BindingRequest? || r.StatusRequest?
  }

  /** A shutdown hook that is waited for. */
  predicate Answers(app: Application, r: Request) {
    r.ShutdownRequest? && (app.status.state == WAITING_FOR_CLEANING || app.status.state == DEGRADED)
  }

  /** What moves the state: a report, either hook, a retry, or a mark if the shutdown hook has to be waited for. */
  predicate Decides(app: Application, r: Request) {
    || r.StatusRequest? || r.CompleteRequest? || r.RetryRequest? || Answers(app, r)
    || (Marks(app, r) && "shutdown" in app.spec.hooks)
  }

  function Decision(r: Request): ApplicationState {
    match r
    case StatusRequest(body) => body.status.state
    case CompleteRequest(_, _) => READY_FOR_ACTION
    case ShutdownRequest(_) => READY_FOR_ACTION
    case _ => WAITING_FOR_CLEANING
  }

  predicate SetsGracePeriod(app: Application, r: Request) {
    r.StatusRequest? || r.RetryRequest? || Answers(app, r)
  }

  predicate SetsOwners(app: Application, r: Request) {
    r.UpdateRequest? || r.BindingRequest?
  }

  predicate SetsFinalizers(app: Application, r: Request) {
    r.UpdateRequest? || Marks(app, r)
  }

  predicate Deletes(app: Application, r: Request) {
    r.CompleteRequest? || Marks(app, r)
  }

  /** The write at `m` is of a request of this kind, on the stored application. */
  ghost predicate SetAt(
      h: History<Application>, requests: seq<Request>, k: Key, sets: (Application, Request) -> bool, m: nat)
  {
    m < |h| && m < |requests| && h[m].key == k && k in Store(h[..m]) && sets(At(h, k, m), requests[m])
  }

  /** No write from `i` up to `j` is. */
  ghost predicate NotSet(
      h: History<Application>, requests: seq<Request>, k: Key, sets: (Application, Request) -> bool, i: nat, j: nat)
  {
    forall n: nat :: i <= n < j ==> !SetAt(h, requests, k, sets, n)
  }

  // ---------------------------------------------------------------------------------------------
  // A field stands until it is set
  // ---------------------------------------------------------------------------------------------

  /** Handlers of other requests keep the field. */
  ghost predicate OnlySets<T(!new)>(sets: (Application, Request) -> bool, f: Application -> T) {
    forall app, r, next :: Handle(app, r) == Stored(next) && !sets(app, r) ==> f(next) == f(app)
  }

  lemma {:induction false} FieldStands<T(!new)>(
      h: History<Application>, requests: seq<Request>, k: Key, i: nat, j: nat,
      sets: (Application, Request) -> bool, f: Application -> T)
    requires Serial(h, requests) && SameIncarnation(h, k, i, j) && OnlySets(sets, f)
    requires NotSet(h, requests, k, sets, i, j)
    ensures f(At(h, k, j)) == f(At(h, k, i))
    decreases j
  {
    if i < j {
      IncarnationSoFar(h, k, i, j);
      FieldStands(h, requests, k, i, j - 1, sets, f);
      if h[j - 1].key == k {
        WriteIsHandled(h, requests, k, j - 1);
        assert !SetAt(h, requests, k, sets, j - 1);
      }
    }
  }

  /** Of the state, what is reported, what is bound and what the owner may change, each stands until it is set. */
  lemma FieldsStand(h: History<Application>, requests: seq<Request>, k: Key, i: nat, j: nat)
    requires Serial(h, requests) && SameIncarnation(h, k, i, j)
    ensures var was, now := At(h, k, i), At(h, k, j);
      && (NotSet(h, requests, k, Decides, i, j) ==> now.status.state == was.status.state)
      && (NotSet(h, requests, k, Reports, i, j) ==>
        now.status.completeToken == was.status.completeToken && now.status.shutdownToken == was.status.shutdownToken)
      && (NotSet(h, requests, k, Schedules, i, j) ==>
        && now.status.scheduledTo == was.status.scheduledTo && now.status.scheduled == was.status.scheduled
        && now.status.kubeControllerTriggered == was.status.kubeControllerTriggered)
      && (NotSet(h, requests, k, SetsGracePeriod, i, j) ==>
        now.status.shutdownGracePeriod == was.status.shutdownGracePeriod)
    ensures var was, now := At(h, k, i).metadata, At(h, k, j).metadata;
      && (NotSet(h, requests, k, Updates, i, j) ==> now.labels == was.labels && now.modified == was.modified)
      && (NotSet(h, requests, k, SetsOwners, i, j) ==> now.owners == was.owners)
      && (NotSet(h, requests, k, SetsFinalizers, i, j) ==> now.finalizers == was.finalizers)
      && (NotSet(h, requests, k, Deletes, i, j) ==> now.deleted == was.deleted)
  {
    StatusStands(h, requests, k, i, j);
    MetadataStands(h, requests, k, i, j);
  }

  lemma StatusStands(h: History<Application>, requests: seq<Request>, k: Key, i: nat, j: nat)
    requires Serial(h, requests) && SameIncarnation(h, k, i, j)
    ensures var was, now := At(h, k, i).status, At(h, k, j).status;
      && (NotSet(h, requests, k, Decides, i, j) ==> now.state == was.state)
      && (NotSet(h, requests, k, Reports, i, j) ==>
        now.completeToken == was.completeToken && now.shutdownToken == was.shutdownToken)
      && (NotSet(h, requests, k, Schedules, i, j) ==>
        && now.scheduledTo == was.scheduledTo && now.scheduled == was.scheduled
        && now.kubeControllerTriggered == was.kubeControllerTriggered)
      && (NotSet(h, requests, k, SetsGracePeriod, i, j) ==> now.shutdownGracePeriod == was.shutdownGracePeriod)
  {
    if NotSet(h, requests, k, Decides, i, j) {
      FieldStands(h, requests, k, i, j, Decides, (app: Application) => app.status.state);
    }
    if NotSet(h, requests, k, Reports, i, j) {
      FieldStands(h, requests, k, i, j, Reports,
        (app: Application) => (app.status.completeToken, app.status.shutdownToken));
    }
    if NotSet(h, requests, k, Schedules, i, j) {
      FieldStands(h, requests, k, i, j, Schedules,
        (app: Application) => (app.status.scheduledTo, app.status.scheduled, app.status.kubeControllerTriggered));
    }
    if NotSet(h, requests, k, SetsGracePeriod, i, j) {
      FieldStands(h, requests, k, i, j, SetsGracePeriod, (app: Application) => app.status.shutdownGracePeriod);
    }
  }

  lemma MetadataStands(h: History<Application>, requests: seq<Request>, k: Key, i: nat, j: nat)
    requires Serial(h, requests) && SameIncarnation(h, k, i, j)
    ensures var was, now := At(h, k, i).metadata, At(h, k, j).metadata;
      && (NotSet(h, requests, k, Updates, i, j) ==> now.labels == was.labels && now.modified == was.modified)
      && (NotSet(h, requests, k, SetsOwners, i, j) ==> now.owners == was.owners)
      && (NotSet(h, requests, k, SetsFinalizers, i, j) ==> now.finalizers == was.finalizers)
      && (NotSet(h, requests, k, Deletes, i, j) ==> now.deleted == was.deleted)
  {
    DeletionFieldsStand(h, requests, k, i, j);
    if NotSet(h, requests, k, Updates, i, j) {
      FieldStands(h, requests, k, i, j, Updates, (app: Application) => (app.metadata.labels, app.metadata.modified));
    }
    if NotSet(h, requests, k, SetsOwners, i, j) {
      FieldStands(h, requests, k, i, j, SetsOwners, (app: Application) => app.metadata.owners);
    }
  }

  lemma DeletionFieldsStand(h: History<Application>, requests: seq<Request>, k: Key, i: nat, j: nat)
    requires Serial(h, requests) && SameIncarnation(h, k, i, j)
    ensures var was, now := At(h, k, i).metadata, At(h, k, j).metadata;
      && (NotSet(h, requests, k, SetsFinalizers, i, j) ==> now.finalizers == was.finalizers)
      && (NotSet(h, requests, k, Deletes, i, j) ==> now.deleted == was.deleted)
  {
    if NotSet(h, requests, k, SetsFinalizers, i, j) {
      FieldStands(h, requests, k, i, j, SetsFinalizers, (app: Application) => app.metadata.finalizers);
    }
    if NotSet(h, requests, k, Deletes, i, j) {
      FieldStands(h, requests, k, i, j, Deletes, (app: Application) => app.metadata.deleted);
    }
  }

  // ---------------------------------------------------------------------------------------------
  // What it is set to
  // ---------------------------------------------------------------------------------------------

  function GracePeriodSet(r: Request): Option<Time> {
    if r.StatusRequest? then r.body.status.shutdownGracePeriod else None
  }

  /** The fields right after the request that sets them. */
  ghost predicate Set(was: Application, r: Request, now: Application) {
    && (Decides(was, r) ==> now.status.state == Decision(r))
    && (Reports(was, r) ==> now.status == r.body.status)
    && (r.BindingRequest? ==>
      && now.status.scheduledTo == Some(r.cluster)
      && now.status.scheduled == Some(r.now) && now.status.kubeControllerTriggered == Some(r.now)
      && now.metadata.owners == was.metadata.owners + Newly(r.cluster !in was.metadata.owners, r.cluster))
    && (SetsGracePeriod(was, r) ==> now.status.shutdownGracePeriod == GracePeriodSet(r))
    && (Updates(was, r) ==>
      && now.metadata.labels == r.body.metadata.labels && now.metadata.owners == r.body.metadata.owners
      && now.metadata.finalizers == r.body.metadata.finalizers && now.metadata.modified == r.now)
    && (Marks(was, r) ==> now.metadata.finalizers == was.metadata.finalizers + [CASCADE_DELETION])
    && (Deletes(was, r) ==> now.metadata.deleted == Some(r.now))
  }

  lemma RequestSets(app: Application, r: Request, next: Application)
    requires Handle(app, r) == Stored(next)
    ensures Set(app, r, next)
  {
  }

  lemma WriteSets(h: History<Application>, requests: seq<Request>, k: Key, m: nat, j: nat)
    requires Serial(h, requests) && SameIncarnation(h, k, m, j) && m < j && h[m].key == k
    ensures SameIncarnation(h, k, m + 1, j) && Set(At(h, k, m), requests[m], At(h, k, m + 1))
  {
    IncarnationBetween(h, k, m, m + 1, j);
    IncarnationSoFar(h, k, m, m + 1);
    WriteIsHandled(h, requests, k, m);
    RequestSets(At(h, k, m), requests[m], At(h, k, m + 1));
  }

  /** The state stored is what the last request decided that moves it. */
  lemma LastDecisionStands(h: History<Application>, requests: seq<Request>, k: Key, m: nat, j: nat)
    requires Serial(h, requests) && SameIncarnation(h, k, m, j)
    requires SetAt(h, requests, k, Decides, m) && m < j && NotSet(h, requests, k, Decides, m + 1, j)
    ensures At(h, k, j).status.state == Decision(requests[m])
  {
    WriteSets(h, requests, k, m, j);
    StatusStands(h, requests, k, m + 1, j);
  }

  /** The status stored is that of the last status update, in each part until another request sets that part. */
  lemma LastReportStands(h: History<Application>, requests: seq<Request>, k: Key, m: nat, j: nat)
    requires Serial(h, requests) && SameIncarnation(h, k, m, j)
    requires SetAt(h, requests, k, Reports, m) && m < j && NotSet(h, requests, k, Reports, m + 1, j)
    ensures var sent, now := requests[m].body.status, At(h, k, j).status;
      && now.completeToken == sent.completeToken && now.shutdownToken == sent.shutdownToken
      && (NotSet(h, requests, k, Decides, m + 1, j) ==> now.state == sent.state)
      && (NotSet(h, requests, k, Schedules, m + 1, j) ==>
        && now.scheduledTo == sent.scheduledTo && now.scheduled == sent.scheduled
        && now.kubeControllerTriggered == sent.kubeControllerTriggered)
      && (NotSet(h, requests, k, SetsGracePeriod, m + 1, j) ==> now.shutdownGracePeriod == sent.shutdownGracePeriod)
  {
    WriteSets(h, requests, k, m, j);
    StatusStands(h, requests, k, m + 1, j);
  }

  /** The cluster stored is that of the last binding, stamped with its time, until a report says otherwise. */
  lemma LastBindingStands(h: History<Application>, requests: seq<Request>, k: Key, m: nat, j: nat)
    requires Serial(h, requests) && SameIncarnation(h, k, m, j) && m < j && h[m].key == k
    requires requests[m].BindingRequest? && NotSet(h, requests, k, Schedules, m + 1, j)
    ensures var r, now := requests[m], At(h, k, j).status;
      && now.scheduledTo == Some(r.cluster)
      && now.scheduled == Some(r.now) && now.kubeControllerTriggered == Some(r.now)
  {
    WriteSets(h, requests, k, m, j);
    StatusStands(h, requests, k, m + 1, j);
  }

  /** A retry, or a shutdown hook that is waited for, takes the grace period back until a report sets one. */
  lemma GracePeriodIsOver(h: History<Application>, requests: seq<Request>, k: Key, m: nat, j: nat)
    requires Serial(h, requests) && SameIncarnation(h, k, m, j) && m < j
    requires SetAt(h, requests, k, SetsGracePeriod, m) && !requests[m].StatusRequest?
    requires NotSet(h, requests, k, Reports, m + 1, j)
    ensures At(h, k, j).status.shutdownGracePeriod == None
  {
    WriteSets(h, requests, k, m, j);
    StaysNone(h, requests, k, m + 1, j);
  }

  lemma {:induction false} StaysNone(h: History<Application>, requests: seq<Request>, k: Key, i: nat, j: nat)
    requires Serial(h, requests) && SameIncarnation(h, k, i, j) && At(h, k, i).status.shutdownGracePeriod == None
    requires NotSet(h, requests, k, Reports, i, j)
    ensures At(h, k, j).status.shutdownGracePeriod == None
    decreases j
  {
    if i < j {
      IncarnationSoFar(h, k, i, j);
      StaysNone(h, requests, k, i, j - 1);
      if h[j - 1].key == k {
        WriteIsHandled(h, requests, k, j - 1);
        assert !SetAt(h, requests, k, Reports, j - 1);
      }
    }
  }

  /** What the owner of an application may change is as in the last update, each part until another request sets it. */
  lemma LastBodyStands(h: History<Application>, requests: seq<Request>, k: Key, m: nat, j: nat)
    requires Serial(h, requests) && SameIncarnation(h, k, m, j) && m < j && h[m].key == k
    requires requests[m].UpdateRequest? && NotSet(h, requests, k, Updates, m + 1, j)
    ensures var sent, now := requests[m].body.metadata, At(h, k, j).metadata;
      && now.labels == sent.labels && now.modified == requests[m].now
      && (NotSet(h, requests, k, SetsOwners, m + 1, j) ==> now.owners == sent.owners)
      && (NotSet(h, requests, k, SetsFinalizers, m + 1, j) ==> now.finalizers == sent.finalizers)
  {
    WriteSets(h, requests, k, m, j);
    MetadataStands(h, requests, k, m + 1, j);
  }

  /** The time of deletion is that of the mark, or of the last completion after it; finalizers wait for updates. */
  lemma DeletionStands(h: History<Application>, requests: seq<Request>, k: Key, m: nat, j: nat)
    requires Serial(h, requests) && SameIncarnation(h, k, m, j) && m < j
    requires SetAt(h, requests, k, Deletes, m) && NotSet(h, requests, k, Deletes, m + 1, j)
    ensures At(h, k, j).metadata.deleted == Some(requests[m].now)
    ensures SetAt(h, requests, k, Marks, m) && NotSet(h, requests, k, SetsFinalizers, m + 1, j) ==>
      At(h, k, j).metadata.finalizers == At(h, k, m).metadata.finalizers + [CASCADE_DELETION]
  {
    WriteSets(h, requests, k, m, j);
    MetadataStands(h, requests, k, m + 1, j);
  }

  /** The write at `m` brings a key to life. */
  ghost predicate BornAt(h: History<Application>, k: Key, m: nat) {
    m < |h| && h[m].key == k && h[m].Put? && k !in Store(h[..m])
  }

  /**
   * What no request has set since is as created: taken from the body, but for identity, times and status, which no
   * creation can choose.
   */
  lemma CreationStands(h: History<Application>, requests: seq<Request>, k: Key, m: nat, j: nat)
    requires Serial(h, requests) && BornAt(h, k, m) && SameIncarnation(h, k, m + 1, j)
    ensures requests[m].CreateRequest?
    ensures var r, now := requests[m], At(h, k, j);
      && (NotSet(h, requests, k, Updates, m + 1, j) ==>
        now.spec == r.body.spec && now.metadata.labels == r.body.metadata.labels && now.metadata.modified == r.now)
      && (NotSet(h, requests, k, SetsOwners, m + 1, j) ==> now.metadata.owners == r.body.metadata.owners)
      && (NotSet(h, requests, k, SetsFinalizers, m + 1, j) ==> now.metadata.finalizers == r.body.metadata.finalizers)
      && (NotSet(h, requests, k, Deletes, m + 1, j) ==> now.metadata.deleted == None)
    ensures var now := At(h, k, j).status;
      && (NotSet(h, requests, k, Decides, m + 1, j) ==> now.state == PENDING)
      && (NotSet(h, requests, k, Reports, m + 1, j) ==> now.completeToken == None && now.shutdownToken == None)
      && (NotSet(h, requests, k, Schedules, m + 1, j) ==>
        now.scheduledTo == None && now.scheduled == None && now.kubeControllerTriggered == None)
      && (NotSet(h, requests, k, SetsGracePeriod, m + 1, j) ==> now.shutdownGracePeriod == None)
  {
    assert Serves(Find(h[..m], k), h[m], requests[m]);
    StoredByWrite(h, k, m);
    FieldsStand(h, requests, k, m + 1, j);
    if NotSet(h, requests, k, Updates, m + 1, j) {
      FieldStands(h, requests, k, m + 1, j, Updates, (app: Application) => app.spec);
    }
  }

  /** Name, namespace, identity and time of creation are those of the creation for as long as the incarnation lives. */
  lemma IdentityIsBorn(h: History<Application>, requests: seq<Request>, k: Key, m: nat, j: nat)
    requires Serial(h, requests) && BornAt(h, k, m) && SameIncarnation(h, k, m + 1, j)
    ensures requests[m].CreateRequest?
    ensures var r, now := requests[m], At(h, k, j).metadata;
      && now.name == r.body.metadata.name && now.namespace == r.namespace
      && now.uid == r.uid && now.created == r.now
  {
    assert Serves(Find(h[..m], k), h[m], requests[m]);
    StoredByWrite(h, k, m);
    FieldStands(h, requests, k, m + 1, j, (app, r) => false,
      (app: Application) => (app.metadata.name, app.metadata.namespace, app.metadata.uid, app.metadata.created));
  }

  // ---------------------------------------------------------------------------------------------
  // What follows for the hooks
  // ---------------------------------------------------------------------------------------------

  /** Once completed, only a report takes the application out of its state: no hook, retry or deletion request does. */
  lemma {:induction false} CompletedStaysReady(
      h: History<Application>, requests: seq<Request>, k: Key, m: nat, j: nat)
    requires Serial(h, requests) && SameIncarnation(h, k, m, j) && m < j && h[m].key == k
    requires requests[m].CompleteRequest? && NotSet(h, requests, k, Reports, m + 1, j)
    ensures At(h, k, j).status.state == READY_FOR_ACTION && IsDeleted(h, k, j)
    decreases j
  {
    if j == m + 1 {
      WriteSets(h, requests, k, m, j);
    } else {
      IncarnationSoFar(h, k, m, j);
      CompletedStaysReady(h, requests, k, m, j - 1);
      if h[j - 1].key == k {
        WriteIsHandled(h, requests, k, j - 1);
        assert !SetAt(h, requests, k, Reports, j - 1);
      }
    }
  }

  /** An application deleted with a shutdown hook waits until that hook answers, it is completed, or it is reported. */
  lemma {:induction false} MarkedWaits(h: History<Application>, requests: seq<Request>, k: Key, m: nat, j: nat)
    requires Serial(h, requests) && SameIncarnation(h, k, m, j) && m < j
    requires SetAt(h, requests, k, Marks, m) && "shutdown" in At(h, k, m).spec.hooks
    requires NotSet(h, requests, k, Reports, m + 1, j)
    requires forall n :: m < n < j && h[n].key == k ==> !requests[n].ShutdownRequest? && !requests[n].CompleteRequest?
    ensures At(h, k, j).status.state == WAITING_FOR_CLEANING && IsDeleted(h, k, j)
    decreases j
  {
    if j == m + 1 {
      WriteSets(h, requests, k, m, j);
    } else {
      IncarnationSoFar(h, k, m, j);
      MarkedWaits(h, requests, k, m, j - 1);
      if h[j - 1].key == k {
        WriteIsHandled(h, requests, k, j - 1);
        assert !SetAt(h, requests, k, Reports, j - 1);
      }
    }
  }
}
