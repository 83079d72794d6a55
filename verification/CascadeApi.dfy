/** The API the protocol of cascading deletion assumes is the one the handlers provide. */
module CascadeApi {
  import opened Wrappers
  import opened Relationships
  import A = KubernetesApi
  import C = Cascade

  function FinalizerOf(name: string): C.Finalizer {
    if name == A.CASCADE_DELETION then C.CascadeDeletion else C.Foreign(name)
  }

  function FinalizersOf(names: seq<string>): (fs: seq<C.Finalizer>)
    ensures |fs| == |names| && forall i :: 0 <= i < |fs| ==> fs[i] == FinalizerOf(names[i])
  {
    seq(|names|, i requires 0 <= i < |names| => FinalizerOf(names[i]))
  }

  /** What the protocol sees of an application. */
  function ResourceOf(app: A.Application): C.Resource {
    C.Resource(
      app.metadata.owners, FinalizersOf(app.metadata.finalizers), app.metadata.deleted.Some?, app.metadata.modified)
  }

  lemma MembersOf(names: seq<string>, name: string)
    ensures name in names <==> FinalizerOf(name) in FinalizersOf(names)
  {
    if i :| 0 <= i < |names| && names[i] == name {
      assert FinalizersOf(names)[i] == FinalizerOf(name);
    }
    if FinalizerOf(name) in FinalizersOf(names) {
      var i :| 0 <= i < |names| && FinalizersOf(names)[i] == FinalizerOf(name);
      assert names[i] == name;
    }
  }

  /** The check for new finalizers is the same on both sides. */
  lemma NewFinalizers(names: seq<string>, stored: seq<string>)
    ensures AllIn(names, stored) <==> AllIn(FinalizersOf(names), FinalizersOf(stored))
  {
    forall f | AllIn(names, stored) && f in FinalizersOf(names) ensures f in FinalizersOf(stored) {
      var i :| 0 <= i < |names| && FinalizersOf(names)[i] == f;
      MembersOf(stored, names[i]);
    }
    forall name | AllIn(FinalizersOf(names), FinalizersOf(stored)) && name in names ensures name in stored {
      MembersOf(names, name);
      MembersOf(stored, name);
    }
  }

  /** A delete request marks the stored resource, or finds it marked, on both sides. */
  lemma DeletesAgree(s: C.State, r: ResourceRef, app: A.Application, now: A.Time)
    requires r in s.api.store && s.api.store[r] == ResourceOf(app)
    ensures match A.Handle(app, A.DeleteRequest(false, now))
      case Stored(next) => C.ApiDelete(s, r) ==
        Some(C.Post(s.(api := s.api.(store := s.api.store[r := ResourceOf(next)])), r, MODIFIED, ResourceOf(next)))
      case outcome => outcome.Unchanged? && C.ApiDelete(s, r) == Some(s)
  {
    var names := app.metadata.finalizers;
    assert FinalizersOf(names + [A.CASCADE_DELETION]) == FinalizersOf(names) + [C.CascadeDeletion];
  }

  /**
   * An update is refused, stored or turned into a removal alike, as long as two versions of an application with the
   * same stamp are the same.
   */
  lemma UpdatesAgree(s: C.State, r: ResourceRef, app: A.Application, body: A.Application)
    requires r in s.api.store && s.api.store[r] == ResourceOf(app)
    requires body.metadata.name == app.metadata.name && body.metadata.namespace == app.metadata.namespace
    requires body.metadata.modified == app.metadata.modified ==> (body == app <==> ResourceOf(body) == ResourceOf(app))
    ensures match A.Handle(app, A.UpdateRequest(body, app.metadata.modified + 1))
      case Stored(next) => C.ApiUpdate(s, r, ResourceOf(body)) ==
        Some(C.Post(s.(api := s.api.(store := s.api.store[r := ResourceOf(next)])), r, MODIFIED, ResourceOf(next)))
      case Removed(_) => C.ApiUpdate(s, r, ResourceOf(body)) ==
        Some(C.Post(s.(api := s.api.(store := s.api.store - {r})), r, DELETED, ResourceOf(app)))
      case outcome => outcome.Rejected? && C.ApiUpdate(s, r, ResourceOf(body)) == None
  {
    NewFinalizers(body.metadata.finalizers, app.metadata.finalizers);
  }
}
