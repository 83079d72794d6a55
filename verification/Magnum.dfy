/**
 * The Magnum controller: a finite state machine over the persisted status of a cluster, between an API that others
 * write to as well and an OpenStack service that decides freely what becomes of the actual cluster.
 */
module Magnum {
  import opened Wrappers

  type Id = nat

  datatype State = PENDING | CREATING | RUNNING | RECONCILING | DELETING | FAILED

  datatype Status = Status(
    state: State, project: Option<string>, template: Option<string>, clusterId: Option<Id>, cluster: Option<string>,
    nodeCount: Option<nat>)

  datatype MagnumCluster = MagnumCluster(deleted: bool, finalizers: seq<string>, nodeCount: Option<nat>, status: Status)

  const DELETION_FINALIZER := "magnum_cluster_deletion"

  /** What the service says about an existing cluster; `Busy` stands for every status that is not final. */
  datatype Answer = Complete(nodeCount: nat) | CreateFailed | UpdateFailed | DeleteFailed | Busy

  datatype OpenStackResult = Found(answer: Answer) | NotFound | ServiceError

  /** A request to the service and how it was answered; `Other` stands for requests about templates and the like. */
  datatype Exchange =
    | Creation(id: Option<Id>)
    | Deletion(of: Option<Id>, result: OpenStackResult)
    | Reading(of: Option<Id>, result: OpenStackResult)
    | Resizing(of: Option<Id>, nodeCount: nat, ok: bool)
    | Other(ok: bool)

  /** How a call of the API ends. */
  datatype ApiResult = Ok | ApiError

  /** How an action of the controller ends: with an error it handles, or with another one that escapes. */
  datatype Ending = Continue(next: Option<Action>) | ControllerError | OtherError

  datatype Action = OnPending | OnCreating | OnRunning | OnReconciling

  function WithoutFirst(fs: seq<string>, f: string): (gs: seq<string>)
    ensures forall g :: g in gs ==> g in fs
    ensures f in fs && NoDuplicates(fs) ==> f !in gs && NoDuplicates(gs)
    ensures forall g :: g in fs && g != f ==> g in gs
  {
    if fs == [] then []
    else if fs[0] == f then fs[1..]
    else
      var rest := WithoutFirst(fs[1..], f);
      assert fs[0] in fs && forall g :: g in fs[1..] ==> g in fs;
      assert NoDuplicates(fs) ==> NoDuplicates(fs[1..]) && fs[0] !in fs[1..];
      [fs[0]] + rest
  }

  // ---------------------------------------------------------------------------------------------
  // The invariant between the resource and the actual clusters
  // ---------------------------------------------------------------------------------------------

  /** A cluster identifier is only recorded for scheduled resources that refer to a Kubernetes cluster. */
  predicate Recorded(status: Status) {
    && (status.clusterId.Some? ==> status.cluster.Some? && status.project.Some? && status.template.Some?)
    && (status.project.Some? ==> status.template.Some?)
    && (status.state == PENDING ==> status.clusterId.None?)
    && (status.state == RUNNING ==> status.clusterId.Some?)
  }

  /** The actual clusters created for the resource are the recorded one at most, and the finalizer guards it. */
  predicate Guarded(stored: Option<MagnumCluster>, live: set<Id>) {
    if stored.None? then live == {}
    else
      && NoDuplicates(stored.value.finalizers)
      && Recorded(stored.value.status)
      && (forall id :: id in live ==> stored.value.status.clusterId == Some(id))
      && (live != {} ==> DELETION_FINALIZER in stored.value.finalizers)
  }

  /** The service has reported an operation on the cluster as complete, with this many nodes. */
  predicate Reported(log: seq<Exchange>, id: Option<Id>, nodeCount: Option<nat>) {
    nodeCount.Some? && Reading(id, Found(Complete(nodeCount.value))) in log
  }

  /** What is recorded as running, the service has reported so. */
  predicate Backed(status: Status, log: seq<Exchange>) {
    status.state == RUNNING ==> Reported(log, status.clusterId, status.nodeCount)
  }

  lemma StaysBackedIn(stored: Option<MagnumCluster>, log: seq<Exchange>, longer: seq<Exchange>)
    requires (stored.Some? ==> Backed(stored.value.status, log)) && log <= longer
    ensures stored.Some? ==> Backed(stored.value.status, longer)
  {
    assert longer == log + longer[|log|..];
  }

  predicate HasFinalizer(stored: Option<MagnumCluster>) {
    stored.Some? && DELETION_FINALIZER in stored.value.finalizers
  }

  /** What the invariant is for. */
  lemma GuardedMeans(stored: Option<MagnumCluster>, live: set<Id>)
    requires Guarded(stored, live)
    ensures |live| <= 1 && (!HasFinalizer(stored) ==> live == {})
    ensures stored.Some? && stored.value.status.state == PENDING ==> live == {}
    ensures stored.Some? && stored.value.status.state == RUNNING ==>
      stored.value.status.cluster.Some? && stored.value.status.clusterId.Some? && stored.value.status.template.Some?
  {
    if live != {} {
      var id := stored.value.status.clusterId.value;
      assert live == {id};
    }
  }

  /** The scheduler binds resources that are neither bound nor deleted yet. */
  predicate Binds(b: MagnumCluster, a: MagnumCluster) {
    && !b.deleted && b.status.project.None? && a.status.template.Some?
    && a.status == b.status.(project := a.status.project, template := a.status.template)
  }

  /** What other users and controllers may do to the resource: anything but touch this controller's finalizer. */
  predicate Foreign(before: Option<MagnumCluster>, after: Option<MagnumCluster>) {
    match before
    case None => after.None?
    case Some(b) =>
      if after.None? then b.deleted && DELETION_FINALIZER !in b.finalizers
      else
        var a := after.value;
        && NoDuplicates(a.finalizers) && (DELETION_FINALIZER in a.finalizers <==> DELETION_FINALIZER in b.finalizers)
        && (b.deleted ==> a.deleted && AllIn(a.finalizers, b.finalizers))
        && (a.status == b.status || Binds(b, a))
  }

  lemma ForeignKeepsGuarded(before: Option<MagnumCluster>, after: Option<MagnumCluster>, live: set<Id>)
    requires Guarded(before, live) && Foreign(before, after)
    ensures Guarded(after, live)
  {
  }

  // ---------------------------------------------------------------------------------------------
  // The environment
  // ---------------------------------------------------------------------------------------------

  /** The resource in the API. With every call, others may have come first. */
  class Api {
    var stored: Option<MagnumCluster>
    /** How many calls have failed. */
    ghost var refused: nat

    constructor (cluster: MagnumCluster)
      ensures stored == Some(cluster) && refused == 0
    {
      stored, refused := Some(cluster), 0;
    }

    method Others()
      requires stored.Some? ==> NoDuplicates(stored.value.finalizers)
      modifies this`stored
      ensures Foreign(old(stored), stored)
    {
      var after: Option<MagnumCluster> := *;
      if Foreign(stored, after) {
        stored := after;
      }
    }

    method Read() returns (found: bool)
      requires stored.Some? ==> NoDuplicates(stored.value.finalizers)
      modifies this`stored
      ensures Foreign(old(stored), stored) && (found <==> stored.Some?)
    {
      Others();
      found := stored.Some?;
    }

    /** The template is immutable; everything else of the status is taken over. */
    method UpdateStatus(body: MagnumCluster) returns (result: ApiResult, ghost mid: Option<MagnumCluster>)
      requires stored.Some? ==> NoDuplicates(stored.value.finalizers)
      modifies this
      ensures Foreign(old(stored), mid)
      ensures result == Ok <==> mid.Some? && mid.value.status.template == body.status.template
      ensures stored == if result == Ok then Some(mid.value.(status := body.status)) else mid
      ensures refused == old(refused) + if result == Ok then 0 else 1
    {
      Others();
      mid := stored;
      if stored.None? || stored.value.status.template != body.status.template {
        result, refused := ApiError, refused + 1;
      } else {
        stored := Some(stored.value.(status := body.status));
        result := Ok;
      }
    }

    /** As every update: finalizers only go during deletion, and the resource goes with the last of them. */
    method Update(body: MagnumCluster) returns (result: ApiResult, ghost mid: Option<MagnumCluster>)
      requires stored.Some? ==> NoDuplicates(stored.value.finalizers)
      modifies this
      ensures Foreign(old(stored), mid)
      ensures result == Ok <==>
        mid.Some? && mid.value != body && (mid.value.deleted ==> AllIn(body.finalizers, mid.value.finalizers))
      ensures stored ==
        if result == ApiError || mid.None? then mid
        else if mid.value.deleted && body.finalizers == [] then None
        else Some(mid.value.(finalizers := body.finalizers, nodeCount := body.nodeCount))
      ensures refused == old(refused) + if result == Ok then 0 else 1
    {
      Others();
      mid := stored;
      if
        || stored.None? || stored.value == body
        || (stored.value.deleted && !AllIn(body.finalizers, stored.value.finalizers))
      {
        result, refused := ApiError, refused + 1;
      } else {
        stored := Some(stored.value.(finalizers := body.finalizers, nodeCount := body.nodeCount));
        if stored.value.deleted && stored.value.finalizers == [] {
          stored := None;
        }
        result := Ok;
      }
    }

    /** A call that leaves the resource as it is succeeds or fails. */
    method Request() returns (ok: bool)
      modifies this`refused
      ensures refused == old(refused) + if ok then 0 else 1
    {
      ok := *;
      if !ok {
        refused := refused + 1;
      }
    }
  }

  /** The clusters created for the resource. They may vanish at any time, and never appear by themselves. */
  class OpenStack {
    var live: set<Id>
    var nextId: Id
    /** How often it still makes a caller ask again before it fails the call. */
    var patience: nat
    ghost var log: seq<Exchange>

    constructor (patience: nat)
      ensures live == {} && log == [] && Valid()
    {
      live, nextId, this.patience, log := {}, 0, patience, [];
    }

    predicate Valid()
      reads this
    {
      forall id :: id in live ==> id < nextId
    }

    method Evolve()
      requires Valid()
      modifies this`live
      ensures Valid() && live <= old(live)
    {
      var gone: set<Id> := *;
      live := live - gone;
    }

    /** A failed request has created nothing. */
    method Create() returns (id: Option<Id>)
      requires Valid()
      modifies this
      ensures Valid() && patience == old(patience) && log == old(log) + [Creation(id)]
      ensures id.None? ==> live <= old(live)
      ensures id.Some? ==> id.value !in old(live) && id.value in live && live <= old(live) + {id.value}
    {
      Evolve();
      var fails: bool := *;
      id := if fails then None else Some(nextId);
      log := log + [Creation(id)];
      if !fails {
        live, nextId := live + {nextId}, nextId + 1;
      }
    }

    /** An unset identifier names no cluster. */
    method Answer(id: Option<Id>) returns (result: OpenStackResult)
      requires Valid()
      modifies this`live
      ensures Valid() && live <= old(live)
      ensures result.NotFound? <==> id.None? || id.value !in live
    {
      Evolve();
      var fails: bool, answer: Answer := *, *;
      result := if id.None? || id.value !in live then NotFound else if fails then ServiceError else Found(answer);
    }

    method Delete(id: Option<Id>) returns (result: OpenStackResult)
      requires Valid()
      modifies this`live, this`log
      ensures Valid() && live <= old(live) && log == old(log) + [Deletion(id, result)]
      ensures result.NotFound? <==> id.None? || id.value !in live
    {
      result := Answer(id);
      log := log + [Deletion(id, result)];
    }

    method Get(id: Option<Id>) returns (result: OpenStackResult)
      requires Valid()
      modifies this`live, this`patience, this`log
      ensures Valid() && live <= old(live) && log == old(log) + [Reading(id, result)]
      ensures result.NotFound? <==> id.None? || id.value !in live
      ensures patience <= old(patience) && (result.Found? ==> patience < old(patience))
    {
      result := Answer(id);
      if result.Found? {
        if patience == 0 {
          result := ServiceError;
        } else {
          patience := patience - 1;
        }
      }
      log := log + [Reading(id, result)];
    }

    method Resize(id: Option<Id>, nodeCount: nat) returns (ok: bool)
      requires Valid()
      modifies this`live, this`log
      ensures Valid() && live <= old(live) && log == old(log) + [Resizing(id, nodeCount, ok)]
    {
      Evolve();
      ok := *;
      log := log + [Resizing(id, nodeCount, ok)];
    }

    /** Any other request: it succeeds or fails. */
    method Request() returns (ok: bool)
      requires Valid()
      modifies this`live, this`log
      ensures Valid() && live <= old(live) && log == old(log) + [Other(ok)]
    {
      Evolve();
      ok := *;
      log := log + [Other(ok)];
    }
  }

  // ---------------------------------------------------------------------------------------------
  // The controller
  // ---------------------------------------------------------------------------------------------

  /** The resource object that a worker has been handed, and changes as it goes. */
  class Snapshot {
    var value: MagnumCluster

    constructor (value: MagnumCluster)
      ensures this.value == value
    {
      this.value := value;
    }

    method SetState(state: State)
      modifies this
      ensures value == old(value).(status := old(value).status.(state := state))
    {
      value := value.(status := value.status.(state := state));
    }
  }

  /** What `enqueue` lets through. */
  predicate Accepted(c: MagnumCluster) {
    if c.deleted then c.finalizers != [] && c.finalizers[|c.finalizers| - 1] == DELETION_FINALIZER
    else c.status.state != FAILED && c.status.project.Some?
  }

  /** A snapshot that misses at most what others have done since. */
  predicate Fresh(stored: Option<MagnumCluster>, c: MagnumCluster) {
    && NoDuplicates(c.finalizers)
    && (stored.None? ==> c.deleted || DELETION_FINALIZER !in c.finalizers)
    && (stored.Some? ==>
      && stored.value.status == c.status && (c.deleted ==> stored.value.deleted)
      && (DELETION_FINALIZER in stored.value.finalizers <==> DELETION_FINALIZER in c.finalizers))
  }

  lemma ForeignKeepsFresh(before: Option<MagnumCluster>, after: Option<MagnumCluster>, c: MagnumCluster)
    requires Fresh(before, c) && Foreign(before, after) && (c.deleted || c.status.project.Some?)
    ensures Fresh(after, c)
  {
  }

  /** The state an action is for. */
  function StateFor(action: Action): State {
    match action
    case OnPending => PENDING
    case OnCreating => CREATING
    case OnRunning => RUNNING
    case OnReconciling => RECONCILING
  }

  predicate NeedsResize(c: MagnumCluster) {
    c.nodeCount.Some? && c.status.nodeCount != c.nodeCount
  }

  predicate HasAction(state: State) {
    state.PENDING? || state.CREATING? || state.RUNNING? || state.RECONCILING?
  }

  // What the service's answers lead to

  /** An answer the controller handles as an error; what failed before a deletion does not stop it. */
  predicate Fails(x: Exchange, deleting: bool) {
    match x
    case Creation(id) => id.None?
    case Deletion(_, result) => result.ServiceError?
    case Reading(_, result) =>
      result.ServiceError? || (result.Found? &&
        (result.answer.DeleteFailed? || (!deleting && (result.answer.CreateFailed? || result.answer.UpdateFailed?))))
    case Resizing(_, _, ok) => !ok
    case Other(ok) => !ok
  }

  /**
   * Work goes on as long as nothing fails. A handled error is the failure of the last request to the service; another
   * one is that of a call of the API, or of a request in a way the controller does not recognise.
   */
  ghost predicate Went(asked: seq<Exchange>, refused: int, ending: Ending, deleting: bool) {
    && (forall i :: 0 <= i < |asked| - 1 ==> !Fails(asked[i], deleting))
    && match ending
       case Continue(_) => refused == 0 && forall i :: 0 <= i < |asked| ==> !Fails(asked[i], deleting)
       case ControllerError => refused == 0 && asked != [] && Fails(asked[|asked| - 1], deleting)
       case OtherError => refused == 1 || (refused == 0 && asked != [] && Fails(asked[|asked| - 1], deleting))
  }

  /** What a piece of work may ask the service for: no creation, resize or deletion but the one that is wanted. */
  predicate Warranted(was: MagnumCluster, x: Exchange) {
    match x
    case Creation(_) => !was.deleted && was.status.state == PENDING
    case Deletion(of, _) => was.deleted && of == was.status.clusterId
    case Reading(of, _) => was.status.state == PENDING || of == was.status.clusterId
    case Resizing(of, n, _) =>
      !was.deleted && was.status.state == RUNNING && NeedsResize(was) && of == was.status.clusterId
      && was.nodeCount == Some(n)
    case Other(_) => true
  }

  ghost predicate AllWarranted(was: MagnumCluster, asked: seq<Exchange>) {
    forall i :: 0 <= i < |asked| ==> Warranted(was, asked[i])
  }

  /** What it has asked for when it has gone well, from the state it found. */
  ghost predicate DoneAsDue(was: MagnumCluster, asked: seq<Exchange>) {
    if was.deleted then
      if was.status.project.None? || was.status.state == PENDING then asked == []
      else
        && asked != [] && asked[|asked| - 1] == Reading(was.status.clusterId, NotFound)
        && (was.status.state != DELETING ==> exists answer :: Deletion(was.status.clusterId, answer) in asked)
    else
      match was.status.state
      case PENDING => exists id: Id :: Creation(Some(id)) in asked
      case RUNNING => NeedsResize(was) ==> Resizing(was.status.clusterId, was.nodeCount.value, true) in asked
      case CREATING => exists answer :: Reading(was.status.clusterId, answer) in asked
      case RECONCILING => exists answer :: Reading(was.status.clusterId, answer) in asked
      case _ => true
  }

  /** Requests that came before or after take nothing back. */
  lemma StaysDue(was: MagnumCluster, others: seq<Exchange>, asked: seq<Exchange>)
    requires !was.deleted && DoneAsDue(was, asked)
    ensures DoneAsDue(was, others + asked) && DoneAsDue(was, asked + others)
  {
    assert forall x :: x in asked ==> x in others + asked && x in asked + others;
  }

  /** Only this controller's finalizer goes, and the resource with it if that was the last one. */
  predicate Released(was: MagnumCluster, stored: Option<MagnumCluster>) {
    var left := WithoutFirst(was.finalizers, DELETION_FINALIZER);
    if left == [] then stored.None? else stored.Some? && stored.value.finalizers == left
  }

  /**
   * The end of a piece of work that was handed `was`. A failure of the service is recorded; without one everything
   * due was asked for, the finalizer is gone from what is deleted, and what is not is in a stable state. A resource
   * that is gone by then is left alone.
   */
  ghost predicate Worked(
      was: MagnumCluster, gone: bool, asked: seq<Exchange>, escaped: bool, stored: Option<MagnumCluster>)
  {
    && AllWarranted(was, asked)
    && (!escaped ==>
      if AnyFails(asked, was.deleted) then stored.Some? && stored.value.status.state == FAILED
      else
        && (if was.deleted && gone then asked == [] else DoneAsDue(was, asked))
        && (was.deleted ==> !HasFinalizer(stored) && (!gone ==> Released(was, stored)))
        && (!was.deleted && HasAction(was.status.state) ==>
          stored.Some? && stored.value.status.state in {PENDING, RUNNING}))
  }

  lemma DeletedAsDue(
      was: MagnumCluster, log: seq<Exchange>, connected: seq<Exchange>, started: seq<Exchange>, after: seq<Exchange>)
    requires was.deleted && was.status.project.Some? && was.status.state != PENDING
    requires log <= connected <= started < after && after[|after| - 1] == Reading(was.status.clusterId, NotFound)
    requires was.status.state != DELETING ==>
      exists answer :: started == connected + [Deletion(was.status.clusterId, answer)]
    ensures DoneAsDue(was, after[|log|..])
  {
    if was.status.state != DELETING {
      var answer :| started == connected + [Deletion(was.status.clusterId, answer)];
      assert after[|log|..][|connected| - |log|] == Deletion(was.status.clusterId, answer);
    }
  }

  /** What follows a connection to the service, for the resource with the finalizer on. */
  lemma ConnectedThen(
      was: MagnumCluster, guarded: MagnumCluster, log: seq<Exchange>, after: seq<Exchange>, refused: int,
      ending: Ending)
    requires !was.deleted && guarded == was.(finalizers := guarded.finalizers) && log + [Other(true)] <= after
    requires Went(after[|log| + 1..], refused, ending, false) && AllWarranted(guarded, after[|log| + 1..])
    requires ending.Continue? ==> DoneAsDue(guarded, after[|log| + 1..])
    ensures Went(after[|log|..], refused, ending, false) && AllWarranted(was, after[|log|..])
    ensures ending.Continue? ==> DoneAsDue(was, after[|log|..])
  {
    var asked := after[|log| + 1..];
    assert after[|log|..] == [Other(true)] + asked;
    if ending.Continue? {
      StaysDue(guarded, [Other(true)], asked);
    }
  }

  predicate AnyFails(asked: seq<Exchange>, deleting: bool) {
    exists i :: 0 <= i < |asked| && Fails(asked[i], deleting)
  }

  /** What happened since the log was `before`, of which a first part up to `mid` went well. */
  lemma WentOn(
      before: seq<Exchange>, mid: seq<Exchange>, after: seq<Exchange>, next: Option<Action>, refused: int,
      ending: Ending, deleting: bool)
    requires before <= mid <= after && Went(mid[|before|..], 0, Continue(next), deleting)
    requires Went(after[|mid|..], refused, ending, deleting)
    ensures Went(after[|before|..], refused, ending, deleting)
  {
    assert after[|before|..] == mid[|before|..] + after[|mid|..];
  }

  /**
   * Waiting ends with the first answer that is not about an operation still under way: running with the number of
   * nodes reported, back to pending with no cluster recorded once it is gone, or in a handled error.
   */
  ghost predicate Waited(was: Status, asked: seq<Exchange>, ending: Ending, now: Status) {
    && asked != [] && asked[|asked| - 1].Reading? && asked[|asked| - 1].of == was.clusterId
    && (forall i :: 0 <= i < |asked| - 1 ==> asked[i] == Reading(was.clusterId, Found(Busy)))
    && match asked[|asked| - 1].result
       case Found(Complete(n)) => ending == Continue(None) && now == was.(nodeCount := Some(n), state := RUNNING)
       case NotFound => ending == Continue(None) && now == was.(clusterId := None, state := PENDING)
       case Found(Busy) => false
       case _ => ending == ControllerError && now == was
  }

  class MagnumClusterController {
    const api: Api
    const magnum: OpenStack

    constructor (api: Api, magnum: OpenStack)
      ensures this.api == api && this.magnum == magnum
    {
      this.api, this.magnum := api, magnum;
    }

    ghost predicate Valid()
      reads this, api, magnum
    {
      && magnum.Valid() && Guarded(api.stored, magnum.live)
      && (api.stored.Some? ==> Backed(api.stored.value.status, magnum.log))
    }

    /** While the finite state machine runs, the resource is guarded and the worker knows its status. */
    ghost predicate Working(cluster: Snapshot)
      reads this, api, magnum, cluster
    {
      && Valid() && api.stored.Some? && DELETION_FINALIZER in api.stored.value.finalizers
      && api.stored.value.status == cluster.value.status && cluster.value.status.project.Some?
    }

    /** Persists a status that records no less than what is live. */
    method SaveStatus(cluster: Snapshot)
      requires magnum.Valid() && api.stored.Some? && DELETION_FINALIZER in api.stored.value.finalizers
      requires NoDuplicates(api.stored.value.finalizers) && api.stored.value.status.project.Some?
      requires cluster.value.status.template == api.stored.value.status.template
      requires Recorded(cluster.value.status) && cluster.value.status.project.Some?
      requires forall id :: id in magnum.live ==> cluster.value.status.clusterId == Some(id)
      requires Backed(cluster.value.status, magnum.log)
      modifies api
      ensures Working(cluster) && (old(api.stored.value.deleted) ==> api.stored.value.deleted)
      ensures api.refused == old(api.refused)
    {
      var result, _ := api.UpdateStatus(cluster.value);
      assert result == Ok;
    }

    /** Reads the project from the API and connects to the service; only a failure of the latter is handled. */
    method CreateMagnumClient() returns (ending: Ending, ghost asked: bool)
      requires Valid()
      modifies api`refused, magnum`live, magnum`log
      ensures Valid() && magnum.live <= old(magnum.live)
      ensures api.refused == old(api.refused) + if asked then 0 else 1
      ensures ending == Continue(None) || ending == ControllerError || ending == OtherError
      ensures magnum.log == old(magnum.log) + (if asked then [Other(ending.Continue?)] else [])
      ensures !asked ==> ending == OtherError
    {
      var project := api.Request();
      if !project {
        return OtherError, false;
      }
      asked := true;
      var client := magnum.Request();
      StaysBackedIn(api.stored, old(magnum.log), magnum.log);
      var recognised: bool := *;
      ending := if client then Continue(None) else if recognised then ControllerError else OtherError;
    }

    method OnPending(cluster: Snapshot) returns (ending: Ending)
      requires Working(cluster) && cluster.value.status.state == PENDING
      modifies api, magnum, cluster
      ensures Working(cluster) && magnum.patience == old(magnum.patience) && old(magnum.log) <= magnum.log
      ensures cluster.value.deleted == old(cluster.value.deleted)
      ensures ending == Continue(Some(Action.OnCreating)) || ending == ControllerError
      ensures old(magnum.live) == {} && cluster.value.status.state == CREATING
      ensures var status := cluster.value.status;
        magnum.log == old(magnum.log) +
          if ending.Continue? then [Other(true), Creation(status.clusterId)]
          else if |magnum.log| == |old(magnum.log)| + 1 then [Other(false)]
          else [Other(true), Creation(None)]
      ensures ending.Continue? ==> cluster.value.status.clusterId.Some?
      ensures old(cluster.value.status.cluster.Some?) ==>
        cluster.value.status.cluster == old(cluster.value.status.cluster)
      ensures Went(magnum.log[|old(magnum.log)|..], api.refused - old(api.refused), ending, false)
    {
      cluster.SetState(CREATING);
      if cluster.value.status.cluster.None? {
        var name: string := *;
        cluster.value := cluster.value.(status := cluster.value.status.(cluster := Some(name)));
      }
      SaveStatus(cluster);
      var template := magnum.Request();
      if !template {
        return ControllerError;
      }
      var id := magnum.Create();
      if id.None? {
        return ControllerError;
      }
      cluster.value := cluster.value.(status := cluster.value.status.(clusterId := id));
      SaveStatus(cluster);
      ending := Continue(Some(Action.OnCreating));
    }

    method WaitForRunning(cluster: Snapshot) returns (ending: Ending)
      requires Working(cluster) && cluster.value.status.state in {CREATING, RECONCILING}
      modifies api, magnum, cluster
      ensures Working(cluster) && cluster.value.deleted == old(cluster.value.deleted)
      ensures old(magnum.log) <= magnum.log
      ensures api.refused == old(api.refused)
      ensures Waited(old(cluster.value.status), magnum.log[|old(magnum.log)|..], ending, cluster.value.status)
      ensures ending.Continue? && cluster.value.status.state == PENDING ==> magnum.live == {}
    {
      ghost var was, log := cluster.value.status, magnum.log;
      var nodeCount := 0;
      var waiting := true;
      while waiting
        invariant Working(cluster) && cluster.value == old(cluster.value)
        invariant log <= magnum.log && api.refused == old(api.refused)
        invariant forall i :: |log| <= i < |magnum.log| - (if waiting then 0 else 1) ==>
          magnum.log[i] == Reading(was.clusterId, Found(Busy))
        invariant !waiting ==> was.clusterId.Some? && log < magnum.log
        invariant !waiting ==> magnum.log[|magnum.log| - 1] == Reading(was.clusterId, Found(Complete(nodeCount)))
        decreases waiting, magnum.patience
      {
        var response := magnum.Get(cluster.value.status.clusterId);
        match response {
          case NotFound =>
            cluster.value := cluster.value.(status := cluster.value.status.(clusterId := None, state := PENDING));
            SaveStatus(cluster);
            return Continue(None);
          case ServiceError => return ControllerError;
          case Found(Complete(n)) => nodeCount, waiting := n, false;
          case Found(Busy) =>
          case Found(_) => return ControllerError;
        }
      }
      cluster.value := cluster.value.(status := cluster.value.status.(nodeCount := Some(nodeCount), state := RUNNING));
      assert magnum.log[|magnum.log| - 1] in magnum.log;
      SaveStatus(cluster);
      ending := Continue(None);
    }

    /**
     * What the controller asserts about a running cluster holds; the rest is calls of the two APIs. One that can be
     * reached with its configuration is left alone.
     */
    method ReconcileKubernetesResource(cluster: Snapshot) returns (ending: Ending)
      requires Working(cluster)
      modifies api`refused, magnum`live, magnum`log
      ensures Working(cluster) && (ending == Continue(None) || ending == ControllerError || ending == OtherError)
      ensures cluster.value.status.state == RUNNING ==>
        var status := cluster.value.status; status.cluster.Some? && status.clusterId.Some? && status.template.Some?
      ensures cluster.value.status.state != RUNNING ==> ending == Continue(None) && magnum.log == old(magnum.log)
      ensures magnum.log == old(magnum.log) || exists ok :: magnum.log == old(magnum.log) + [Other(ok)]
      ensures Went(magnum.log[|old(magnum.log)|..], api.refused - old(api.refused), ending, false)
    {
      if cluster.value.status.state != RUNNING {
        return Continue(None);
      }
      assert cluster.value.status.cluster.Some?;
      assert cluster.value.status.clusterId.Some?;
      assert cluster.value.status.template.Some?;
      var read := api.Request();
      if !read {
        return OtherError;
      }
      var reachable: bool := *;
      if reachable {
        return Continue(None);
      }
      var certificates := magnum.Request();
      StaysBackedIn(api.stored, old(magnum.log), magnum.log);
      if !certificates {
        return ControllerError;
      }
      var stored := api.Request();
      ending := if stored then Continue(None) else OtherError;
    }

    method OnCreating(cluster: Snapshot) returns (ending: Ending)
      requires Working(cluster) && cluster.value.status.state in {CREATING, RECONCILING}
      modifies api, magnum, cluster
      ensures Working(cluster) && cluster.value.deleted == old(cluster.value.deleted)
      ensures old(magnum.log) <= magnum.log
      ensures Went(magnum.log[|old(magnum.log)|..], api.refused - old(api.refused), ending, false)
      ensures ending == Continue(None) || ending == ControllerError || ending == OtherError
      ensures ending.Continue? ==> cluster.value.status.state in {PENDING, RUNNING}
      ensures forall i :: |old(magnum.log)| <= i < |magnum.log| ==>
        magnum.log[i].Other? || (magnum.log[i].Reading? && magnum.log[i].of == old(cluster.value.status.clusterId))
      ensures exists answer :: Reading(old(cluster.value.status.clusterId), answer) in magnum.log[|old(magnum.log)|..]
    {
      ghost var log := magnum.log;
      ending := WaitForRunning(cluster);
      ghost var mid := magnum.log;
      assert Reading(old(cluster.value.status.clusterId), mid[|mid| - 1].result) in mid[|log|..];
      if ending.Continue? {
        ending := ReconcileKubernetesResource(cluster);
        WentOn(log, mid, magnum.log, None, api.refused - old(api.refused), ending, false);
        assert magnum.log[|log|..] == mid[|log|..] + magnum.log[|mid|..];
      }
    }

    /** A resize is asked for exactly if the node count differs from the wanted one, and for the wanted one. */
    method OnRunning(cluster: Snapshot) returns (ending: Ending)
      requires Working(cluster) && cluster.value.status.state == RUNNING
      modifies api, magnum, cluster
      ensures Working(cluster) && cluster.value.deleted == old(cluster.value.deleted)
      ensures old(magnum.log) <= magnum.log
      ensures Went(magnum.log[|old(magnum.log)|..], api.refused - old(api.refused), ending, false)
      ensures old(cluster.value).status.clusterId == cluster.value.status.clusterId
      ensures if NeedsResize(old(cluster.value)) then
          && cluster.value.status.state == RECONCILING
          && ending == (if Fails(magnum.log[|magnum.log| - 1], false) then ControllerError
                        else Continue(Some(Action.OnReconciling)))
          && var wanted := old(cluster.value).nodeCount.value;
             exists ok :: magnum.log == old(magnum.log) + [Resizing(cluster.value.status.clusterId, wanted, ok)]
        else
          && cluster.value.status.state == RUNNING && (ending.Continue? ==> ending.next == None)
          && forall i :: |old(magnum.log)| <= i < |magnum.log| ==> magnum.log[i].Other?
    {
      if NeedsResize(cluster.value) {
        cluster.SetState(RECONCILING);
        SaveStatus(cluster);
        var resized := magnum.Resize(cluster.value.status.clusterId, cluster.value.nodeCount.value);
        return if resized then Continue(Some(Action.OnReconciling)) else ControllerError;
      }
      ending := ReconcileKubernetesResource(cluster);
    }

    /** One action asks for what is due in its state, and for nothing else. */
    method Act(cluster: Snapshot, action: Action) returns (ending: Ending)
      requires Working(cluster) && !cluster.value.deleted && cluster.value.status.state == StateFor(action)
      modifies api, magnum, cluster
      ensures Working(cluster) && !cluster.value.deleted
      ensures old(magnum.log) <= magnum.log
      ensures Went(magnum.log[|old(magnum.log)|..], api.refused - old(api.refused), ending, false)
      ensures AllWarranted(old(cluster.value), magnum.log[|old(magnum.log)|..])
      ensures ending.Continue? ==> DoneAsDue(old(cluster.value), magnum.log[|old(magnum.log)|..])
      ensures ending.Continue? ==> match ending.next
        case None => cluster.value.status.state in {PENDING, RUNNING}
        case Some(next) =>
          && (next.OnCreating? || next.OnReconciling?) && cluster.value.status.state == StateFor(next)
          && (action.OnPending? || action.OnRunning?)
          && (action.OnRunning? ==> cluster.value.status.clusterId == old(cluster.value.status.clusterId))
    {
      ghost var log := magnum.log;
      match action {
        case OnPending =>
          ending := OnPending(cluster);
          if ending.Continue? {
            assert magnum.log[|log|..][1] == Creation(cluster.value.status.clusterId);
          }
        case OnCreating => ending := OnCreating(cluster);
        case OnRunning =>
          ghost var was := cluster.value;
          ending := OnRunning(cluster);
          if NeedsResize(was) && ending.Continue? {
            assert magnum.log[|log|..][0] == Resizing(was.status.clusterId, was.nodeCount.value, true);
          }
        case OnReconciling => ending := OnCreating(cluster);
      }
    }

    /** The finite state machine; no run takes more than two actions. */
    method RunActions(cluster: Snapshot, first: Action) returns (ending: Ending, actions: nat)
      requires Working(cluster) && !cluster.value.deleted && cluster.value.status.state == StateFor(first)
      modifies api, magnum, cluster
      ensures Working(cluster) && actions <= 2 && !cluster.value.deleted
      ensures old(magnum.log) <= magnum.log
      ensures Went(magnum.log[|old(magnum.log)|..], api.refused - old(api.refused), ending, false)
      ensures AllWarranted(old(cluster.value), magnum.log[|old(magnum.log)|..])
      ensures ending.Continue? ==>
        cluster.value.status.state in {PENDING, RUNNING}
        && DoneAsDue(old(cluster.value), magnum.log[|old(magnum.log)|..])
    {
      ghost var log, was := magnum.log, cluster.value;
      var action := Some(first);
      actions, ending := 0, Continue(action);
      while action.Some?
        invariant Working(cluster) && actions <= 2 && !cluster.value.deleted && ending == Continue(action)
        invariant log <= magnum.log && Went(magnum.log[|log|..], api.refused - old(api.refused), ending, false)
        invariant AllWarranted(was, magnum.log[|log|..])
        invariant actions == 0 ==> cluster.value == was && action == Some(first)
        invariant actions > 0 ==> DoneAsDue(was, magnum.log[|log|..])
        invariant if action.None? then actions > 0 && cluster.value.status.state in {PENDING, RUNNING}
          else actions <= 1 && cluster.value.status.state == StateFor(action.value)
        invariant action.Some? && actions == 1 ==>
          (action.value.OnCreating? || action.value.OnReconciling?)
          && (was.status.state == PENDING || cluster.value.status.clusterId == was.status.clusterId)
        decreases action.Some?, 2 - actions
      {
        ghost var mid, next := magnum.log, action;
        ending := Act(cluster, action.value);
        WentOn(log, mid, magnum.log, next, api.refused - old(api.refused), ending, false);
        assert magnum.log[|log|..] == mid[|log|..] + magnum.log[|mid|..];
        if actions == 1 {
          StaysDue(was, magnum.log[|mid|..], mid[|log|..]);
        }
        actions := actions + 1;
        if !ending.Continue? {
          return;
        }
        action := ending.next;
      }
    }

    /** The finalizer is on the stored resource before the service is asked for anything that it has to guard. */
    method EnsureFinalizer(cluster: Snapshot) returns (ok: bool)
      requires Valid() && Fresh(api.stored, cluster.value) && !cluster.value.deleted
      requires cluster.value.status.project.Some?
      modifies api, cluster
      ensures Valid() && (ok ==> Working(cluster))
      ensures api.refused == old(api.refused) + if ok then 0 else 1
      ensures var fs := old(cluster.value.finalizers);
        if DELETION_FINALIZER in fs then ok && unchanged(api) && cluster.value == old(cluster.value)
        else
          && cluster.value == old(cluster.value).(finalizers := fs + [DELETION_FINALIZER])
          && (ok ==> api.stored.value.finalizers == fs + [DELETION_FINALIZER])
      ensures old(HasFinalizer(api.stored)) ==> HasFinalizer(api.stored)
    {
      ok := true;
      if DELETION_FINALIZER !in cluster.value.finalizers {
        cluster.value := cluster.value.(finalizers := cluster.value.finalizers + [DELETION_FINALIZER]);
        var result, _ := api.Update(cluster.value);
        ok := result == Ok;
      }
    }

    method Reconcile(cluster: Snapshot) returns (ending: Ending, actions: nat)
      requires Valid() && Fresh(api.stored, cluster.value) && !cluster.value.deleted && Accepted(cluster.value)
      modifies api, magnum, cluster
      ensures Valid() && actions <= 2 && cluster.value.deleted == old(cluster.value.deleted)
      ensures old(magnum.log) <= magnum.log
      ensures Went(magnum.log[|old(magnum.log)|..], api.refused - old(api.refused), ending, false)
      ensures ending == ControllerError ==> SaveAllowed(cluster)
      ensures old(HasFinalizer(api.stored)) ==> HasFinalizer(api.stored)
      ensures ending.Continue? && HasAction(old(cluster.value.status.state)) ==>
        HasFinalizer(api.stored) && api.stored.value.status.state in {PENDING, RUNNING}
      ensures AllWarranted(old(cluster.value), magnum.log[|old(magnum.log)|..])
      ensures ending.Continue? ==> DoneAsDue(old(cluster.value), magnum.log[|old(magnum.log)|..])
    {
      actions := 0;
      ghost var log, was, asked := magnum.log, cluster.value, false;
      ending, asked := CreateMagnumClient();
      assert Went(magnum.log[|log|..], api.refused - old(api.refused), ending, false);
      if !ending.Continue? {
        return;
      }
      var guarded := EnsureFinalizer(cluster);
      if !guarded {
        return OtherError, 0;
      }
      var first: Option<Action> := match cluster.value.status.state
        case PENDING => Some(Action.OnPending)
        case CREATING => Some(Action.OnCreating)
        case RUNNING => Some(Action.OnRunning)
        case RECONCILING => Some(Action.OnReconciling)
        case _ => None;
      if first.Some? {
        ghost var then' := cluster.value;
        ending, actions := RunActions(cluster, first.value);
        ConnectedThen(was, then', log, magnum.log, api.refused - old(api.refused), ending);
      }
    }

    /** After an error the worker may persist its status if the resource is still there. */
    ghost predicate SaveAllowed(cluster: Snapshot)
      reads this, api, magnum, cluster
    {
      api.stored.Some? ==> api.stored.value.status == cluster.value.status && cluster.value.status.project.Some?
    }

    /** The service is asked to delete the cluster, unless it has been before; it may be gone already. */
    method StartDeletion(cluster: Snapshot) returns (ending: Ending)
      requires Working(cluster) && cluster.value.deleted && api.stored.value.deleted
      requires cluster.value.status.state != PENDING
      modifies api, magnum`live, magnum`log, cluster
      ensures Working(cluster) && api.stored.value.deleted && api.refused == old(api.refused)
      ensures ending == Continue(None) || ending == ControllerError
      ensures if old(cluster.value.status.state) == DELETING then ending.Continue? && magnum.log == old(magnum.log)
        else exists answer :: magnum.log == old(magnum.log) + [Deletion(cluster.value.status.clusterId, answer)]
                              && (ending == ControllerError <==> answer.ServiceError?)
      ensures var state := if ending.Continue? then DELETING else old(cluster.value).status.state;
        cluster.value == old(cluster.value).(status := old(cluster.value).status.(state := state))
    {
      if cluster.value.status.state != DELETING {
        var result := magnum.Delete(cluster.value.status.clusterId);
        StaysBackedIn(api.stored, old(magnum.log), magnum.log);
        if result.ServiceError? {
          return ControllerError;
        }
        cluster.SetState(DELETING);
        SaveStatus(cluster);
      }
      ending := Continue(None);
    }

    /** Until the service answers that there is no cluster any more. */
    method WaitForDeletion(cluster: Snapshot) returns (ending: Ending)
      requires Working(cluster)
      modifies magnum`live, magnum`patience, magnum`log
      ensures Working(cluster) && (ending == Continue(None) || ending == ControllerError)
      ensures old(magnum.log) < magnum.log
      ensures Went(magnum.log[|old(magnum.log)|..], api.refused - old(api.refused), ending, true)
      ensures ending.Continue? ==>
        magnum.live == {} && magnum.log[|magnum.log| - 1] == Reading(cluster.value.status.clusterId, NotFound)
      ensures forall i :: |old(magnum.log)| <= i < |magnum.log| ==>
        magnum.log[i].Reading? && magnum.log[i].of == cluster.value.status.clusterId
    {
      ghost var log := magnum.log;
      var waiting := true;
      while waiting
        invariant Working(cluster)
        invariant log <= magnum.log && Went(magnum.log[|log|..], api.refused - old(api.refused), Continue(None), true)
        invariant forall i :: |log| <= i < |magnum.log| ==>
          magnum.log[i].Reading? && magnum.log[i].of == cluster.value.status.clusterId
        invariant !waiting ==> magnum.live == {} && log < magnum.log
        invariant !waiting ==> magnum.log[|magnum.log| - 1] == Reading(cluster.value.status.clusterId, NotFound)
        decreases waiting, magnum.patience
      {
        ghost var before := magnum.log;
        var response := magnum.Get(cluster.value.status.clusterId);
        StaysBackedIn(api.stored, before, magnum.log);
        match response {
          case NotFound => waiting := false;
          case ServiceError => return ControllerError;
          case Found(DeleteFailed) => return ControllerError;
          case Found(_) =>
        }
      }
      ending := Continue(None);
    }

    /** Where a cluster may have been created: the service is asked to delete it, and until it answers that it has. */
    method DeleteActualCluster(cluster: Snapshot) returns (ending: Ending)
      requires Working(cluster) && cluster.value.deleted && api.stored.value.deleted
      requires cluster.value.status.state != PENDING
      modifies api, magnum, cluster
      ensures Valid() && cluster.value == old(cluster.value).(status := cluster.value.status)
      ensures ending == ControllerError || ending == OtherError || ending == Continue(None)
      ensures ending != OtherError ==> Working(cluster) && api.stored.value.deleted
      ensures ending.Continue? ==> magnum.live == {}
      ensures old(magnum.log) <= magnum.log
      ensures Went(magnum.log[|old(magnum.log)|..], api.refused - old(api.refused), ending, true)
      ensures AllWarranted(old(cluster.value), magnum.log[|old(magnum.log)|..])
      ensures ending.Continue? ==> DoneAsDue(old(cluster.value), magnum.log[|old(magnum.log)|..])
    {
      ghost var log, was, asked := magnum.log, cluster.value, false;
      ending, asked := CreateMagnumClient();
      assert Went(magnum.log[|log|..], api.refused - old(api.refused), ending, true);
      if !ending.Continue? {
        return;
      }
      ghost var connected := magnum.log;
      ending := StartDeletion(cluster);
      WentOn(log, connected, magnum.log, None, api.refused - old(api.refused), ending, true);
      if !ending.Continue? {
        return;
      }
      ghost var started := magnum.log;
      ending := WaitForDeletion(cluster);
      WentOn(log, started, magnum.log, None, api.refused - old(api.refused), ending, true);
      if ending.Continue? {
        DeletedAsDue(was, log, connected, started, magnum.log);
      }
    }

    /** The finalizer is removed only once no cluster is left. */
    method DeleteMagnumCluster(cluster: Snapshot) returns (ending: Ending)
      requires Valid() && Fresh(api.stored, cluster.value) && cluster.value.deleted && Accepted(cluster.value)
      modifies api, magnum, cluster
      ensures Valid()
      ensures ending == ControllerError ==> SaveAllowed(cluster) && HasFinalizer(api.stored)
      ensures ending.Continue? ==> !HasFinalizer(api.stored)
      ensures ending == ControllerError || ending == OtherError || ending == Continue(None)
      ensures old(magnum.log) <= magnum.log
      ensures Went(magnum.log[|old(magnum.log)|..], api.refused - old(api.refused), ending, true)
      ensures AllWarranted(old(cluster.value), magnum.log[|old(magnum.log)|..])
      ensures old(api.stored).None? ==> magnum.log == old(magnum.log)
      ensures ending.Continue? && old(api.stored).Some? ==>
        DoneAsDue(old(cluster.value), magnum.log[|old(magnum.log)|..]) && Released(old(cluster.value), api.stored)
    {
      var answered := api.Request();
      if !answered {
        return OtherError;
      }
      var found := api.Read();
      if !found {
        return Continue(None);
      }
      if cluster.value.status.project.Some? && cluster.value.status.state != PENDING {
        ending := DeleteActualCluster(cluster);
        if !ending.Continue? {
          return;
        }
      }
      assert magnum.live == {};
      cluster.value := cluster.value.(finalizers := WithoutFirst(cluster.value.finalizers, DELETION_FINALIZER));
      var result, _ := api.Update(cluster.value);
      ending := if result == Ok then Continue(None) else OtherError;
    }

    /**
     * One piece of work: controller and service errors end in the failed state, others escape. The finalizer goes
     * only when the resource is being deleted and no cluster is left, and it does go unless there was an error.
     */
    method ProcessCluster(cluster: Snapshot) returns (escaped: bool)
      requires Valid() && Fresh(api.stored, cluster.value) && Accepted(cluster.value)
      modifies api, magnum, cluster
      ensures Valid() && old(magnum.log) <= magnum.log
      ensures old(HasFinalizer(api.stored)) && !HasFinalizer(api.stored) ==>
        old(cluster.value.deleted) && magnum.live == {}
      ensures escaped ==>
        api.refused > old(api.refused) || AnyFails(magnum.log[|old(magnum.log)|..], old(cluster.value.deleted))
      ensures !escaped ==> api.refused == old(api.refused)
      ensures Worked(
        old(cluster.value), old(api.stored).None?, magnum.log[|old(magnum.log)|..], escaped, api.stored)
    {
      ghost var deleting := cluster.value.deleted;
      var ending, actions := Continue(None), 0;
      if cluster.value.deleted {
        ending := DeleteMagnumCluster(cluster);
      } else {
        ending, actions := Reconcile(cluster);
      }
      escaped := ending == OtherError;
      if ending == ControllerError {
        cluster.SetState(FAILED);
        var result, _ := api.UpdateStatus(cluster.value);
        escaped := result == ApiError;
      }
      GuardedMeans(api.stored, magnum.live);
    }

    /**
     * One round: what others have made of the resource is seen, and handed to a worker if it is in deletion and this
     * controller's finalizer is the last, or live, scheduled and not failed. Everything else is left alone.
     */
    method Round() returns (ghost seen: Option<MagnumCluster>, escaped: bool)
      requires Valid()
      modifies api, magnum
      ensures Valid() && old(magnum.log) <= magnum.log && Foreign(old(api.stored), seen)
      ensures seen.None? || (if seen.value.deleted then
          seen.value.finalizers == [] || seen.value.finalizers[|seen.value.finalizers| - 1] != DELETION_FINALIZER
        else seen.value.status.state == FAILED || seen.value.status.project.None?) ==>
        api.stored == seen && magnum.log == old(magnum.log) && !escaped
      ensures seen.Some? && (if seen.value.deleted then
          seen.value.finalizers != [] && seen.value.finalizers[|seen.value.finalizers| - 1] == DELETION_FINALIZER
        else seen.value.status.state != FAILED && seen.value.status.project.Some?) ==>
        Worked(seen.value, false, magnum.log[|old(magnum.log)|..], escaped, api.stored)
    {
      ghost var before := api.stored;
      escaped := false;
      api.Others();
      seen := api.stored;
      ForeignKeepsGuarded(before, api.stored, magnum.live);
      if api.stored.Some? && Accepted(api.stored.value) {
        var cluster := new Snapshot(api.stored.value);
        ghost var read := api.stored;
        api.Others();
        ForeignKeepsGuarded(read, api.stored, magnum.live);
        ForeignKeepsFresh(read, api.stored, cluster.value);
        magnum.Evolve();
        escaped := ProcessCluster(cluster);
      }
    }

    /** Any number of rounds, whatever the users, the other controllers and the service do in between. */
    method Consume(rounds: nat)
      requires Valid()
      modifies api, magnum
      ensures Valid() && |magnum.live| <= 1 && (!HasFinalizer(api.stored) ==> magnum.live == {})
      ensures api.stored.Some? && api.stored.value.status.state == RUNNING ==>
        var status := api.stored.value.status;
        && status.cluster.Some? && status.clusterId.Some? && status.template.Some?
        && Reported(magnum.log, status.clusterId, status.nodeCount)
    {
      for i := 0 to rounds
        invariant Valid()
      {
        ghost var seen, _ := Round();
      }
      GuardedMeans(api.stored, magnum.live);
    }
  }
}
