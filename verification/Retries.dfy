/** The middleware that repeats a handler whose transaction has failed. */
module Retries {
  import opened Wrappers
  import opened Etcd
  import opened Sessions
  import opened KubernetesApi
  import opened Lifecycle

  /** What all other writers do around one attempt: before the entity is loaded, and until its write. */
  datatype Others = Others(before: History<Application>, between: History<Application>)

  /** The log after `n` attempts that wrote nothing themselves. */
  function AfterAttempts(h: History<Application>, others: seq<Others>, n: nat): History<Application>
    requires n <= |others|
  {
    if n == 0 then h else AfterAttempts(h, others, n - 1) + others[n - 1].before + others[n - 1].between
  }

  ghost predicate WritesKey(ws: History<Application>, k: Key) {
    exists i :: 0 <= i < |ws| && ws[i].key == k
  }

  ghost predicate WantsWrite(app: Application, request: Request) {
    Handle(app, request).Stored? || Handle(app, request).Removed?
  }

  /** The attempt that starts on `h` loses against a write of somebody else. */
  ghost predicate Conflict(h: History<Application>, o: Others, k: Key, request: Request) {
    && k in Store(h + o.before) && WantsWrite(Store(h + o.before)[k].value, request)
    && WritesKey(o.between, k)
  }

  /** The first `n` attempts all lose. */
  ghost predicate AllConflict(h: History<Application>, others: seq<Others>, n: nat, k: Key, request: Request)
    requires n <= |others|
  {
    forall i {:trigger Conflict(AfterAttempts(h, others, i), others[i], k, request)} ::
      0 <= i < n ==> Conflict(AfterAttempts(h, others, i), others[i], k, request)
  }

  lemma OneMoreConflict(h: History<Application>, others: seq<Others>, n: nat, k: Key, request: Request)
    requires n < |others|
    ensures AllConflict(h, others, n + 1, k, request)
      <==> AllConflict(h, others, n, k, request) && Conflict(AfterAttempts(h, others, n), others[n], k, request)
    ensures AllConflict(h, others, |others|, k, request) ==> AllConflict(h, others, n + 1, k, request)
  {
  }

  /** Entities are stored under keys made of name and namespace. */
  ghost predicate KeysByName(keyOf: Application -> Key) {
    forall a: Application, b: Application ::
      a.metadata.name == b.metadata.name && a.metadata.namespace == b.metadata.namespace ==> keyOf(a) == keyOf(b)
  }

  lemma ApplicationsAreKeyedByName()
    ensures KeysByName(ApplicationKey)
  {
  }

  ghost predicate StoredByName(keyOf: Application -> Key, h: History<Application>) {
    forall i :: 0 <= i < |h| && h[i].Put? ==> keyOf(h[i].value) == h[i].key
  }

  /** The comparison of the handler's write, held back while others wrote. */
  lemma WritePassesIff(h: History<Application>, between: History<Application>, k: Key)
    requires k in Store(h)
    ensures var o, after := RevisionOf(k, Store(h)[k]), h + between;
      && o.version > 0
      && (PutPasses(after, k, Some(o)) <==> !WritesKey(between, k))
      && (ModRevision(after, k) == o.modified <==> !WritesKey(between, k))
  {
    var kv, after := Store(h)[k], h + between;
    var o := Held(kv.value, Some(RevisionOf(k, kv)), Some(kv));
    ModifiedByLastWrite(h, k);
    assert after[..|h|] == h;
    PassesIffNobodyWrote(after, |h|, k, o);
    if WritesKey(between, k) {
      var i :| 0 <= i < |between| && between[i].key == k;
      assert after[|h| + i].key == k;
    } else {
      forall i | |h| <= i < |after| ensures after[i].key != k {
        assert after[i] == between[i - |h|];
      }
    }
  }

  lemma HandledKeepsKey(keyOf: Application -> Key, h: History<Application>, k: Key, request: Request)
    requires KeysByName(keyOf) && StoredByName(keyOf, h) && k in Store(h) && WantsWrite(Store(h)[k].value, request)
    ensures keyOf(Handle(Store(h)[k].value, request).app) == k
  {
    ModifiedByLastWrite(h, k);
    var app := Store(h)[k].value;
    IdentityStays(app, request, Handle(app, request).app);
  }

  /**
   * The end of an attempt that read the log `read`: the response is the handler's on the entity found there, and it
   * has written exactly what that response says.
   */
  ghost predicate Answered(
      read: History<Application>, between: History<Application>, key: Key, request: Request, response: Response,
      own: History<Application>, after: History<Application>)
  {
    if key !in Store(read) then response == Problem(404) && own == [] && after == read
    else
      && after == read + between + own
      && match Handle(Store(read)[key].value, request)
         case Unchanged => response == Ok && own == []
         case Rejected(status) => response == Problem(status) && own == []
         case Stored(next) =>
           if WritesKey(between, key) then response == TransactionFailed && own == []
           else response == Ok && own == [Put(key, next)]
         case Removed(_) =>
           if WritesKey(between, key) then response == TransactionFailed && own == []
           else response == Ok && own == [Delete(key)]
  }

  /** What each response means: accepted, not found, refused for a reason, or overtaken. */
  lemma ResponsesMean(
      read: History<Application>, between: History<Application>, key: Key, request: Request, response: Response,
      own: History<Application>, after: History<Application>)
    requires Answered(read, between, key, request, response, own, after)
    ensures response == Problem(404) <==> key !in Store(read)
    ensures forall n: nat :: n != 404 ==>
      (response == Problem(n) <==> key in Store(read) && Handle(Store(read)[key].value, request) == Rejected(n))
    ensures response == TransactionFailed <==>
      key in Store(read) && WantsWrite(Store(read)[key].value, request) && WritesKey(between, key)
    ensures response != Ok ==> own == [] && (after == read || after == read + between)
    ensures response == Ok ==> |own| == if WantsWrite(Store(read)[key].value, request) then 1 else 0
    ensures response == Ok && own != [] ==>
      !WritesKey(between, key) && Serves(Find(read, key), own[0], request) && own[0].key == key
  {
    if key in Store(read) {
      RefusedExactlyWhen(Store(read)[key].value, request);
    }
  }

  /** One attempt, held up by others before it reads and before it writes. */
  method Attempt(api: KubernetesApi, key: Key, request: Request, others: Others)
    returns (response: Response, ghost own: History<Application>)
    requires KeysByName(api.session.keyOf)
    requires StoredByName(api.session.keyOf, api.session.client.history + others.before)
    modifies api.session.client
    ensures Answered(old(api.session.client.history) + others.before, others.between, key, request, response, own,
      api.session.client.history)
  {
    var client := api.session.client;
    client.history := client.history + others.before;
    ghost var read := client.history;
    own := [];
    var entity := api.session.GetByKey(key, None);
    if entity.None? {
      response := Problem(404);
      return;
    }
    client.history := client.history + others.between;
    assert client.history[..|read|] == read;
    WritePassesIff(read, others.between, key);
    if WantsWrite(Store(read)[key].value, request) {
      HandledKeepsKey(api.session.keyOf, read, key, request);
    }
    response := api.Dispatch(entity.value, request);
    own := client.history[|read + others.between|..];
  }

  /** Nobody stores an entity under a key that is not its own. */
  ghost predicate OthersByName(keyOf: Application -> Key, others: seq<Others>) {
    forall i :: 0 <= i < |others| ==> StoredByName(keyOf, others[i].before) && StoredByName(keyOf, others[i].between)
  }

  lemma {:induction false} AttemptsByName(
      keyOf: Application -> Key, h: History<Application>, others: seq<Others>, n: nat)
    requires StoredByName(keyOf, h) && OthersByName(keyOf, others) && n <= |others|
    ensures StoredByName(keyOf, AfterAttempts(h, others, n))
    ensures n < |others| ==> StoredByName(keyOf, AfterAttempts(h, others, n) + others[n].before)
  {
    if n > 0 {
      AttemptsByName(keyOf, h, others, n - 1);
    }
  }

  /** The `n`-th attempt, after others that wrote nothing, ends with this response. */
  ghost predicate AnsweredLast(
      h: History<Application>, others: seq<Others>, n: nat, key: Key, request: Request, response: Response,
      own: History<Application>, after: History<Application>)
    requires 1 <= n <= |others|
  {
    Answered(AfterAttempts(h, others, n - 1) + others[n - 1].before, others[n - 1].between, key, request, response,
      own, after)
  }

  /**
   * At most `retry + 1` attempts, all but the last overtaken by somebody else's write of the same key and without a
   * write of their own. The response and the write, if any, are those of the last one; a transaction error is final
   * only if every attempt was overtaken.
   */
  ghost predicate Retried(
      h: History<Application>, others: seq<Others>, key: Key, request: Request, response: Response, attempts: nat,
      own: History<Application>, after: History<Application>)
    requires 1 <= attempts <= |others|
  {
    && AnsweredLast(h, others, attempts, key, request, response, own, after)
    && AllConflict(h, others, attempts - 1, key, request)
    && (response == TransactionFailed ==> attempts == |others|)
    && (response == TransactionFailed <==> AllConflict(h, others, |others|, key, request))
  }

  lemma OvertakenGoesOn(
      h: History<Application>, others: seq<Others>, n: nat, key: Key, request: Request, response: Response,
      own: History<Application>, after: History<Application>)
    requires 1 <= n <= |others| && AnsweredLast(h, others, n, key, request, response, own, after)
    requires AllConflict(h, others, n - 1, key, request)
    ensures response == TransactionFailed ==> after == AfterAttempts(h, others, n)
    ensures response == TransactionFailed <==> AllConflict(h, others, n, key, request)
    ensures response != TransactionFailed ==> !AllConflict(h, others, |others|, key, request)
  {
    ResponsesMean(AfterAttempts(h, others, n - 1) + others[n - 1].before, others[n - 1].between, key, request,
      response, own, after);
    OneMoreConflict(h, others, n - 1, key, request);
  }

  method RetryTransaction(api: KubernetesApi, key: Key, request: Request, retry: nat, others: seq<Others>)
    returns (response: Response, attempts: nat, ghost own: History<Application>)
    requires |others| == retry + 1 && KeysByName(api.session.keyOf) && OthersByName(api.session.keyOf, others)
    requires StoredByName(api.session.keyOf, api.session.client.history)
    modifies api.session.client
    ensures 1 <= attempts <= retry + 1
    ensures Retried(old(api.session.client.history), others, key, request, response, attempts, own,
      api.session.client.history)
  {
    ghost var h := api.session.client.history;
    attempts, own := 0, [];
    while attempts < retry + 1
      invariant attempts <= retry + 1
      invariant api.session.client.history == AfterAttempts(h, others, attempts)
      invariant AllConflict(h, others, attempts, key, request)
      invariant attempts > 0 ==>
        AnsweredLast(h, others, attempts, key, request, TransactionFailed, own, api.session.client.history)
    {
      AttemptsByName(api.session.keyOf, h, others, attempts);
      response, own := Attempt(api, key, request, others[attempts]);
      attempts := attempts + 1;
      OvertakenGoesOn(h, others, attempts, key, request, response, own, api.session.client.history);
      if response != TransactionFailed {
        return;
      }
    }
    response := TransactionFailed;
  }

  /** The middleware around the handlers of applications: their keys are made of name and namespace. */
  method RetryApplicationTransaction(api: KubernetesApi, key: Key, request: Request, retry: nat, others: seq<Others>)
    returns (response: Response, attempts: nat, ghost own: History<Application>)
    requires |others| == retry + 1 && api.session.keyOf == ApplicationKey && OthersByName(ApplicationKey, others)
    requires StoredByName(ApplicationKey, api.session.client.history)
    modifies api.session.client
    ensures 1 <= attempts <= retry + 1
    ensures Retried(old(api.session.client.history), others, key, request, response, attempts, own,
      api.session.client.history)
  {
    ApplicationsAreKeyedByName();
    response, attempts, own := RetryTransaction(api, key, request, retry, others);
  }
}
