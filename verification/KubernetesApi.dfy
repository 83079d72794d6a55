/** The handlers of the application API: what each one makes of the entity it has loaded. */
module KubernetesApi {
  import opened Wrappers
  import opened Relationships
  import opened Etcd
  import opened Sessions
  import K = KeyTemplates

  type Time = nat

  datatype ApplicationState =
    | PENDING | CREATING | RUNNING | RECONCILING | TRANSLATING | RETRYING | RESTARTING | WAITING_FOR_CLEANING
    | READY_FOR_ACTION | MIGRATING | WAITING_FOR_CLUSTER_CREATION | DELETING | DELETED | DEGRADED | FAILED | COMPLETED

  datatype Metadata = Metadata(
    name: string, namespace: string, uid: string, created: Time, modified: Time, deleted: Option<Time>,
    finalizers: seq<string>, owners: seq<ResourceRef>, labels: map<string, string>)

  /** The enabled hooks; the rest of the specification is never looked at. */
  datatype Spec = Spec(hooks: seq<string>, manifest: string)

  datatype Status = Status(
    state: ApplicationState, scheduled: Option<Time>, kubeControllerTriggered: Option<Time>,
    scheduledTo: Option<ResourceRef>, completeToken: Option<string>, shutdownToken: Option<string>,
    shutdownGracePeriod: Option<Time>)

  datatype Application = Application(metadata: Metadata, spec: Spec, status: Status)

  datatype Request =
    | CreateRequest(body: Application, namespace: string, uid: string, now: Time)
    | DeleteRequest(force: bool, now: Time)
    | UpdateRequest(body: Application, now: Time)
    | BindingRequest(cluster: ResourceRef, now: Time)
    | CompleteRequest(token: Option<string>, now: Time)
    | ShutdownRequest(token: Option<string>)
    | StatusRequest(body: Application)
    | RetryRequest

  /** Which write a handler sends to the database, if any. */
  datatype Outcome = Stored(app: Application) | Removed(app: Application) | Unchanged | Rejected(status: nat)

  const CASCADE_DELETION := "cascade_deletion"

  const NEW_STATUS := Status(PENDING, None, None, None, None, None, None)

  const APPLICATION_KEY: K.Template :=
    [K.Lit("/kubernetes/applications/"), K.Param("namespace"), K.Lit("/"), K.Param("name")]

  function KeyArguments(app: Application): K.Arguments {
    map["namespace" := app.metadata.namespace, "name" := app.metadata.name]
  }

  lemma ApplicationParams()
    ensures K.Params(APPLICATION_KEY) == ["namespace", "name"] && K.Separated(APPLICATION_KEY)
  {
    var t := APPLICATION_KEY;
    assert t[1..] == [K.Param("namespace"), K.Lit("/"), K.Param("name")];
    assert t[1..][1..] == [K.Lit("/"), K.Param("name")];
    assert t[1..][1..][1..] == [K.Param("name")];
    assert t[1..][1..][1..][1..] == [];
  }

  function ApplicationKey(app: Application): Key {
    ApplicationParams();
    K.Format(APPLICATION_KEY, KeyArguments(app))
  }

  predicate ValidNames(app: Application) {
    K.ValidArgument(app.metadata.namespace) && K.ValidArgument(app.metadata.name)
  }

  /** Two applications share a key exactly if they share namespace and name. */
  lemma ApplicationKeyIdentifies(a: Application, b: Application)
    requires ValidNames(a) && ValidNames(b)
    ensures ApplicationKey(a) == ApplicationKey(b) <==>
      a.metadata.namespace == b.metadata.namespace && a.metadata.name == b.metadata.name
  {
    ApplicationParams();
    if ApplicationKey(a) == ApplicationKey(b) {
      K.FormatIsInjective(APPLICATION_KEY, KeyArguments(a), KeyArguments(b));
      assert "namespace" in K.Params(APPLICATION_KEY) && "name" in K.Params(APPLICATION_KEY);
      assert KeyArguments(a)["name"] == KeyArguments(b)["name"];
    }
  }

  /** What `create_application` stores; read-only fields are not accepted from the request. */
  function Created(request: Request): Application
    requires request.CreateRequest?
  {
    var body := request.body;
    Application(
      Metadata(body.metadata.name, request.namespace, request.uid, request.now, request.now, None,
        body.metadata.finalizers, body.metadata.owners, body.metadata.labels),
      body.spec, NEW_STATUS)
  }

  /** `Serializable.update`: None when an immutable field differs; read-only fields and the status stay. */
  function Overwritten(app: Application, body: Application): Option<Application> {
    if app.metadata.name != body.metadata.name || app.metadata.namespace != body.metadata.namespace then None
    else
      Some(Application(
        app.metadata.(
          finalizers := body.metadata.finalizers, owners := body.metadata.owners, labels := body.metadata.labels),
        body.spec, app.status))
  }

  function HandleDelete(app: Application, force: bool, now: Time): Outcome {
    if force then Removed(app)
    else if app.metadata.deleted.Some? then Unchanged
    else
      var status := if "shutdown" in app.spec.hooks then app.status.(state := WAITING_FOR_CLEANING) else app.status;
      Stored(Application(
        app.metadata.(deleted := Some(now), finalizers := app.metadata.finalizers + [CASCADE_DELETION]),
        app.spec, status))
  }

  function HandleUpdate(app: Application, body: Application, now: Time): Outcome {
    if app.metadata.deleted.Some? && !AllIn(body.metadata.finalizers, app.metadata.finalizers) then Rejected(409)
    else if body == app then Rejected(400)
    else
      match Overwritten(app, body)
      case None => Rejected(400)
      case Some(updated) =>
        var stamped := updated.(metadata := updated.metadata.(modified := now));
        if stamped.metadata.deleted.Some? && stamped.metadata.finalizers == [] then Removed(stamped)
        else Stored(stamped)
  }

  function HandleBinding(app: Application, cluster: ResourceRef, now: Time): Outcome {
    var owners := app.metadata.owners;
    Stored(Application(
      app.metadata.(owners := if cluster in owners then owners else owners + [cluster]), app.spec,
      app.status.(scheduled := Some(now), kubeControllerTriggered := Some(now), scheduledTo := Some(cluster))))
  }

  function HandleComplete(app: Application, token: Option<string>, now: Time): Outcome {
    if app.status.completeToken.None? || app.status.completeToken != token then Rejected(401)
    else
      Stored(Application(
        app.metadata.(deleted := Some(now)), app.spec, app.status.(state := READY_FOR_ACTION)))
  }

  function HandleShutdown(app: Application, token: Option<string>): Outcome {
    if app.status.shutdownToken.None? || app.status.shutdownToken != token then Rejected(401)
    else if app.status.state == WAITING_FOR_CLEANING || app.status.state == DEGRADED then
      Stored(app.(status := app.status.(state := READY_FOR_ACTION, shutdownGracePeriod := None)))
    else Stored(app)
  }

  function HandleRetry(app: Application): Outcome {
    if app.status.state == DEGRADED then
      Stored(app.(status := app.status.(state := WAITING_FOR_CLEANING, shutdownGracePeriod := None)))
    else Rejected(400)
  }

  /** Every handler that works on a loaded entity. */
  function Handle(app: Application, request: Request): Outcome {
    match request
    case CreateRequest(_, _, _, _) => Rejected(409)  // the key exists
    case DeleteRequest(force, now) => HandleDelete(app, force, now)
    case UpdateRequest(body, now) => HandleUpdate(app, body, now)
    case BindingRequest(cluster, now) => HandleBinding(app, cluster, now)
    case CompleteRequest(token, now) => HandleComplete(app, token, now)
    case ShutdownRequest(token) => HandleShutdown(app, token)
    case StatusRequest(body) => Stored(app.(status := body.status))
    case RetryRequest => HandleRetry(app)
  }

  predicate Forced(request: Request) {
    request.DeleteRequest? && request.force
  }

  /** Deletion is final and finalizers only go: the one-step form, for every handler and every request. */
  lemma DeletionIsFinal(app: Application, request: Request, next: Application)
    requires app.metadata.deleted.Some? && Handle(app, request) == Stored(next)
    ensures next.metadata.deleted.Some? && AllIn(next.metadata.finalizers, app.metadata.finalizers)
  {
  }

  /** A name leaves the finalizers only through an update that leaves it out. */
  lemma OnlyUpdatesDrop(app: Application, request: Request, next: Application, f: string)
    requires Handle(app, request) == Stored(next) && f in app.metadata.finalizers && f !in next.metadata.finalizers
    ensures request.UpdateRequest? && f !in request.body.metadata.finalizers
  {
  }

  predicate Names(app: Application, body: Application) {
    body.metadata.name == app.metadata.name && body.metadata.namespace == app.metadata.namespace
  }

  /**
   * Exactly when a request removes the entity: it is a forced deletion, or the entity is in deletion, and the update
   * leaves no finalizer, names the same object and changes something.
   */
  lemma RemovedExactlyWhen(app: Application, request: Request)
    ensures Handle(app, request).Removed? <==>
      || Forced(request)
      || (request.UpdateRequest? && app.metadata.deleted.Some? && request.body.metadata.finalizers == []
          && request.body != app && Names(app, request.body))
  {
  }

  predicate Holds(token: Option<string>, brought: Option<string>) {
    token.Some? && token == brought
  }

  /**
   * Exactly when a request is refused, and how: a conflict with a deletion comes before everything else, a hook needs
   * the token stored, and a retry needs a degraded application. Nothing but a repeated deletion changes nothing.
   */
  lemma RefusedExactlyWhen(app: Application, request: Request)
    ensures Handle(app, request) == Rejected(409) <==>
      request.CreateRequest? || (request.UpdateRequest? && app.metadata.deleted.Some? &&
        exists f :: f in request.body.metadata.finalizers && f !in app.metadata.finalizers)
    ensures Handle(app, request) == Rejected(400) <==>
      || (request.RetryRequest? && app.status.state != DEGRADED)
      || (request.UpdateRequest? && (request.body == app || !Names(app, request.body))
          && (app.metadata.deleted.None? || AllIn(request.body.metadata.finalizers, app.metadata.finalizers)))
    ensures Handle(app, request) == Rejected(401) <==>
      || (request.CompleteRequest? && !Holds(app.status.completeToken, request.token))
      || (request.ShutdownRequest? && !Holds(app.status.shutdownToken, request.token))
    ensures Handle(app, request).Rejected? ==> Handle(app, request).status in {400, 401, 409}
    ensures Handle(app, request).Unchanged? <==>
      request.DeleteRequest? && !request.force && app.metadata.deleted.Some?
  {
  }

  /** No handler moves an entity to another key, revives it under a new identity, or changes its creation. */
  lemma IdentityStays(app: Application, request: Request, next: Application)
    requires Handle(app, request) == Stored(next) || Handle(app, request) == Removed(next)
    ensures next.metadata.name == app.metadata.name && next.metadata.namespace == app.metadata.namespace
    ensures next.metadata.uid == app.metadata.uid && next.metadata.created == app.metadata.created
  {
  }

  // ---------------------------------------------------------------------------------------------
  // The handlers, changing the loaded entity in place and then writing it
  // ---------------------------------------------------------------------------------------------

  datatype Response = Ok | Problem(status: nat) | TransactionFailed

  /** The effect of a handler on the log, given what it makes of the entity. */
  ghost predicate Commits(
      keyOf: Application -> Key, h: History<Application>, o: Held<Application>, outcome: Outcome,
      after: History<Application>, response: Response)
    requires o.revision.Some?
  {
    match outcome
    case Unchanged => after == h && response == Ok
    case Rejected(status) => after == h && response == Problem(status)
    case Stored(app) =>
      if PutPasses(h, keyOf(app), o.revision) then after == h + [Put(keyOf(app), app)] && response == Ok
      else after == h && response == TransactionFailed
    case Removed(app) =>
      if ModRevision(h, keyOf(app)) == o.revision.value.modified then
        after == h + [Delete(keyOf(app))] && response == Ok
      else after == h && response == TransactionFailed
  }

  class KubernetesApi {
    const session: Session<Application>

    constructor (session: Session<Application>)
      ensures this.session == session
    {
      this.session := session;
    }

    /** A loaded entity: it has a revision, and no one has touched it yet. */
    ghost predicate Loaded(entity: Instance<Application>)
      reads entity, session.client
    {
      entity.revision.Some? && Known(session.client.history, entity.State())
    }

    method Save(entity: Instance<Application>) returns (response: Response)
      requires Loaded(entity)
      modifies session.client, entity
      ensures Commits(session.keyOf, old(session.client.history), old(entity.State()), Stored(old(entity.value)),
        session.client.history, response)
    {
      var error := session.Put(entity);
      response := if error.None? then Ok else TransactionFailed;
    }

    method Drop(entity: Instance<Application>) returns (response: Response)
      requires Loaded(entity)
      modifies session.client, entity
      ensures Commits(session.keyOf, old(session.client.history), old(entity.State()), Removed(old(entity.value)),
        session.client.history, response)
    {
      var error := session.Delete(entity);
      response := if error.None? then Ok else TransactionFailed;
    }

    method CreateApplication(body: Application, namespace: string, uid: string, now: Time) returns (response: Response)
      modifies session.client
      ensures var app := Created(CreateRequest(body, namespace, uid, now));
        var h := old(session.client.history);
        if session.keyOf(app) in Store(h) then session.client.history == h && response == Problem(409)
        else session.client.history == h + [Put(session.keyOf(app), app)] && response == Ok
    {
      var metadata := body.metadata.(
        namespace := namespace, uid := uid, created := now, modified := now, deleted := None);
      var app := body.(metadata := metadata, status := NEW_STATUS);
      var instance := new Instance(app);
      if session.keyOf(app) in Store(session.client.history) {
        ModifiedByLastWrite(session.client.history, session.keyOf(app));
      }
      var error := session.Put(instance);
      response := if error.None? then Ok else Problem(409);
    }

    method DeleteApplication(entity: Instance<Application>, force: bool, now: Time) returns (response: Response)
      requires Loaded(entity)
      modifies session.client, entity
      ensures Commits(session.keyOf, old(session.client.history), old(entity.State()),
        Handle(old(entity.value), DeleteRequest(force, now)), session.client.history, response)
    {
      if force {
        response := Drop(entity);
        return;
      }
      if entity.value.metadata.deleted.Some? {
        return Ok;
      }
      if "shutdown" in entity.value.spec.hooks {
        entity.value := entity.value.(status := entity.value.status.(state := WAITING_FOR_CLEANING));
      }
      entity.value := entity.value.(metadata := entity.value.metadata.(deleted := Some(now)));
      entity.value := entity.value.(metadata :=
        entity.value.metadata.(finalizers := entity.value.metadata.finalizers + [CASCADE_DELETION]));
      response := Save(entity);
    }

    method UpdateApplication(entity: Instance<Application>, body: Application, now: Time) returns (response: Response)
      requires Loaded(entity)
      modifies session.client, entity
      ensures Commits(session.keyOf, old(session.client.history), old(entity.State()),
        Handle(old(entity.value), UpdateRequest(body, now)), session.client.history, response)
    {
      if entity.value.metadata.deleted.Some? && !AllIn(body.metadata.finalizers, entity.value.metadata.finalizers) {
        return Problem(409);
      }
      if body == entity.value {
        return Problem(400);
      }
      var updated := Overwritten(entity.value, body);
      if updated.None? {
        return Problem(400);
      }
      entity.value := updated.value;
      entity.value := entity.value.(metadata := entity.value.metadata.(modified := now));
      if entity.value.metadata.deleted.Some? && entity.value.metadata.finalizers == [] {
        response := Drop(entity);
      } else {
        response := Save(entity);
      }
    }

    method UpdateApplicationBinding(entity: Instance<Application>, cluster: ResourceRef, now: Time)
      returns (response: Response)
      requires Loaded(entity)
      modifies session.client, entity
      ensures Commits(session.keyOf, old(session.client.history), old(entity.State()),
        Handle(old(entity.value), BindingRequest(cluster, now)), session.client.history, response)
    {
      var app := entity.value;
      entity.value := app.(status :=
        app.status.(scheduled := Some(now), kubeControllerTriggered := Some(now), scheduledTo := Some(cluster)));
      if cluster !in app.metadata.owners {
        entity.value := entity.value.(metadata := app.metadata.(owners := app.metadata.owners + [cluster]));
      }
      response := Save(entity);
    }

    method UpdateApplicationComplete(entity: Instance<Application>, token: Option<string>, now: Time)
      returns (response: Response)
      requires Loaded(entity)
      modifies session.client, entity
      ensures Commits(session.keyOf, old(session.client.history), old(entity.State()),
        Handle(old(entity.value), CompleteRequest(token, now)), session.client.history, response)
    {
      var app := entity.value;
      if app.status.completeToken.None? || app.status.completeToken != token {
        return Problem(401);
      }
      entity.value := app.(status := app.status.(state := READY_FOR_ACTION));
      entity.value := entity.value.(metadata := app.metadata.(deleted := Some(now)));
      response := Save(entity);
    }

    method UpdateApplicationShutdown(entity: Instance<Application>, token: Option<string>) returns (response: Response)
      requires Loaded(entity)
      modifies session.client, entity
      ensures Commits(session.keyOf, old(session.client.history), old(entity.State()),
        Handle(old(entity.value), ShutdownRequest(token)), session.client.history, response)
    {
      var app := entity.value;
      if app.status.shutdownToken.None? || app.status.shutdownToken != token {
        return Problem(401);
      }
      if app.status.state == WAITING_FOR_CLEANING || app.status.state == DEGRADED {
        entity.value := app.(status := app.status.(state := READY_FOR_ACTION, shutdownGracePeriod := None));
      }
      response := Save(entity);
    }

    method UpdateApplicationStatus(entity: Instance<Application>, body: Application) returns (response: Response)
      requires Loaded(entity)
      modifies session.client, entity
      ensures Commits(session.keyOf, old(session.client.history), old(entity.State()),
        Handle(old(entity.value), StatusRequest(body)), session.client.history, response)
    {
      entity.value := entity.value.(status := body.status);
      response := Save(entity);
    }

    method RetryApplication(entity: Instance<Application>) returns (response: Response)
      requires Loaded(entity)
      modifies session.client, entity
      ensures Commits(session.keyOf, old(session.client.history), old(entity.State()),
        Handle(old(entity.value), RetryRequest), session.client.history, response)
    {
      var app := entity.value;
      if app.status.state == DEGRADED {
        entity.value := app.(status := app.status.(state := WAITING_FOR_CLEANING, shutdownGracePeriod := None));
        response := Save(entity);
      } else {
        response := Problem(400);
      }
    }

    /** The router: the entity is loaded before, and every request but creation works on it. */
    method Dispatch(entity: Instance<Application>, request: Request) returns (response: Response)
      requires Loaded(entity)
      modifies session.client, entity
      ensures Commits(session.keyOf, old(session.client.history), old(entity.State()),
        Handle(old(entity.value), request), session.client.history, response)
    {
      match request {
        case CreateRequest(_, _, _, _) => response := Problem(409);
        case DeleteRequest(force, now) => response := DeleteApplication(entity, force, now);
        case UpdateRequest(body, now) => response := UpdateApplication(entity, body, now);
        case BindingRequest(cluster, now) => response := UpdateApplicationBinding(entity, cluster, now);
        case CompleteRequest(token, now) => response := UpdateApplicationComplete(entity, token, now);
        case ShutdownRequest(token) => response := UpdateApplicationShutdown(entity, token);
        case StatusRequest(body) => response := UpdateApplicationStatus(entity, body);
        case RetryRequest => response := RetryApplication(entity);
      }
    }
  }
}
