/**
 * An etcd key space as the log of its writes: the write at index `i` creates revision `i + 2`, since an empty
 * key space already has revision 1.
 */
module Etcd {
  import opened Wrappers

  type Key = string

  datatype Write<+V> = Put(key: Key, value: V) | Delete(key: Key)

  type History<+V> = seq<Write<V>>

  /** What a range request returns for a key. */
  datatype Kv<+V> = Kv(value: V, created: nat, modified: nat, version: nat)

  function CurrentRevision<V>(h: History<V>): nat {
    |h| + 1
  }

  /** One write, at its revision. */
  function Written<V>(store: map<Key, Kv<V>>, w: Write<V>, revision: nat): map<Key, Kv<V>> {
    if w.Delete? then store - {w.key}
    else if w.key in store then
      store[w.key := Kv(w.value, store[w.key].created, revision, store[w.key].version + 1)]
    else store[w.key := Kv(w.value, revision, revision, 1)]
  }

  /** The store after a log of writes. */
  function Store<V>(h: History<V>): map<Key, Kv<V>> {
    if h == [] then map[] else Written(Store(h[..|h| - 1]), h[|h| - 1], CurrentRevision(h))
  }

  function Find<V>(h: History<V>, k: Key): Option<Kv<V>> {
    if k in Store(h) then Some(Store(h)[k]) else None
  }

  /** A read at a past revision sees the log up to it. */
  function FindAt<V>(h: History<V>, k: Key, revision: nat): Option<Kv<V>>
    requires 1 <= revision <= CurrentRevision(h)
  {
    Find(h[..revision - 1], k)
  }

  /** Nothing is deleted that does not exist. */
  ghost predicate NoVoidDeletes<V>(h: History<V>) {
    forall i {:trigger NoVoidDelete(h, i)} :: 0 <= i < |h| ==> NoVoidDelete(h, i)
  }

  ghost predicate NoVoidDelete<V>(h: History<V>, i: nat)
    requires i < |h|
  {
    h[i].Delete? ==> h[i].key in Store(h[..i])
  }

  lemma StoreAfter<V>(h: History<V>, w: Write<V>)
    ensures Store(h + [w]) == Written(Store(h), w, |h| + 2)
  {
    assert (h + [w])[..|h|] == h;
  }

  /** A stored key-value pair was written by the last write of its key, at the revision it says. */
  lemma {:induction false} ModifiedByLastWrite<V>(h: History<V>, k: Key)
    requires k in Store(h)
    ensures var kv := Store(h)[k];
      && 2 <= kv.created <= kv.modified <= CurrentRevision(h) && 1 <= kv.version
      && (kv.version == 1 <==> kv.created == kv.modified)
      && h[kv.modified - 2] == Put(k, kv.value)
      && forall i :: kv.modified - 2 < i < |h| ==> h[i].key != k
  {
    if h != [] {
      var init, last := h[..|h| - 1], h[|h| - 1];
      if k in Store(init) {
        ModifiedByLastWrite(init, k);
      }
      if last.key != k {
        var m := Store(init)[k].modified;
        assert init[m - 2] == h[m - 2];
        forall i | m - 2 < i < |h| ensures h[i].key != k {
          assert i < |init| ==> init[i] == h[i];
        }
      }
    }
  }

  /** Writes of other keys leave a key alone. */
  lemma {:induction false} OtherWrites<V>(h: History<V>, n: nat, k: Key)
    requires n <= |h| && forall i :: n <= i < |h| ==> h[i].key != k
    ensures Find(h, k) == Find(h[..n], k)
  {
    if n < |h| {
      OtherWrites(h[..|h| - 1], n, k);
      assert h[..|h| - 1][..n] == h[..n];
    } else {
      assert h[..n] == h;
    }
  }

  /** A modification revision identifies one write: seen again, the whole pair is unchanged. */
  lemma NoAba<V>(h: History<V>, n: nat, k: Key)
    requires n <= |h| && k in Store(h[..n]) && k in Store(h)
    requires Store(h[..n])[k].modified == Store(h)[k].modified
    ensures Store(h[..n])[k] == Store(h)[k]
    ensures forall i :: n <= i < |h| ==> h[i].key != k
  {
    ModifiedByLastWrite(h[..n], k);
    ModifiedByLastWrite(h, k);
    OtherWrites(h, n, k);
  }

  /** Conversely a key changed since has another modification revision, or none. */
  lemma ChangedSince<V>(h: History<V>, n: nat, k: Key)
    requires n <= |h| && k in Store(h[..n])
    ensures (k in Store(h) && Store(h)[k].modified == Store(h[..n])[k].modified)
      <==> forall i :: n <= i < |h| ==> h[i].key != k
  {
    ModifiedByLastWrite(h[..n], k);
    if forall i :: n <= i < |h| ==> h[i].key != k {
      OtherWrites(h, n, k);
    } else if k in Store(h) {
      ModifiedByLastWrite(h, k);
    }
  }
}
