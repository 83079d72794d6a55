/** The adjacency lists of the dependency graph, and the pure effect of every change made to them. */
module Relationships {
  import opened Wrappers
  import opened Digraphs

  datatype ResourceRef = ResourceRef(api: string, namespace: Option<string>, kind: string, name: string)

  /** Each dependency is mapped to the list of its dependents; a missing key stands for an empty list. */
  type Adjacency = map<ResourceRef, seq<ResourceRef>>

  function Dependents(g: Adjacency, r: ResourceRef): seq<ResourceRef> {
    if r in g then g[r] else []
  }

  ghost function EdgesOf(g: Adjacency): Edges<ResourceRef> {
    iset u: ResourceRef, v: ResourceRef | v in Dependents(g, u) :: (u, v)
  }

  ghost predicate DuplicateFree(g: Adjacency) {
    forall r :: NoDuplicates(Dependents(g, r))
  }

  /** Reading a missing key of a `defaultdict` stores an empty list. */
  function Touch(g: Adjacency, rs: set<ResourceRef>): Adjacency {
    g + (map r | r in rs && r !in g :: [])
  }

  function Without(s: seq<ResourceRef>, rs: set<ResourceRef>): seq<ResourceRef> {
    if s == [] then []
    else Without(s[..|s| - 1], rs) + (if s[|s| - 1] in rs then [] else [s[|s| - 1]])
  }

  /** Python's `list.remove`: drops the first occurrence only. */
  function RemoveFirst(s: seq<ResourceRef>, r: ResourceRef): seq<ResourceRef>
    requires r in s
  {
    if s[0] == r then s[1..] else [s[0]] + RemoveFirst(s[1..], r)
  }

  function RemoveAll(g: Adjacency, rs: set<ResourceRef>): Adjacency {
    map r | r in g && r !in rs :: Without(g[r], rs)
  }

  function WithOwners(g: Adjacency, r: ResourceRef, owners: seq<ResourceRef>): Adjacency {
    if owners == [] then g
    else
      var h := WithOwners(g, r, owners[..|owners| - 1]);
      var o := owners[|owners| - 1];
      var ds := Dependents(h, o);
      h[o := if r in ds then ds else ds + [r]]
  }

  function Updated(g: Adjacency, r: ResourceRef, owners: seq<ResourceRef>): Adjacency {
    WithOwners(RemoveAll(g, {r}), r, owners)[r := Dependents(g, r)]
  }

  lemma {:induction false} WithoutMembers(s: seq<ResourceRef>, rs: set<ResourceRef>)
    ensures forall x :: x in Without(s, rs) <==> x in s && x !in rs
    ensures NoDuplicates(s) ==> NoDuplicates(Without(s, rs))
  {
    if s != [] {
      var t := s[..|s| - 1];
      assert s == t + [s[|s| - 1]];
      WithoutMembers(t, rs);
    }
  }

  lemma {:induction false} WithoutTwice(s: seq<ResourceRef>, xs: set<ResourceRef>, ys: set<ResourceRef>)
    ensures Without(Without(s, xs), ys) == Without(s, xs + ys)
  {
    if s != [] {
      WithoutTwice(s[..|s| - 1], xs, ys);
      var t := Without(s[..|s| - 1], xs);
      if s[|s| - 1] !in xs {
        assert (t + [s[|s| - 1]])[..|t|] == t;
      } else {
        assert t + [] == t;
      }
    }
  }

  lemma {:induction false} WithoutPrepend(x: ResourceRef, s: seq<ResourceRef>, rs: set<ResourceRef>)
    ensures Without([x] + s, rs) == (if x in rs then [] else [x]) + Without(s, rs)
  {
    var t := [x] + s;
    if s == [] {
      assert t[..0] == [];
    } else {
      assert t[..|t| - 1] == [x] + s[..|s| - 1];
      WithoutPrepend(x, s[..|s| - 1], rs);
    }
  }

  lemma {:induction false} WithoutNothing(s: seq<ResourceRef>, rs: set<ResourceRef>)
    requires forall x :: x in s ==> x !in rs
    ensures Without(s, rs) == s
  {
    if s != [] {
      assert s == s[..|s| - 1] + [s[|s| - 1]];
      WithoutNothing(s[..|s| - 1], rs);
    }
  }

  /** On a list without duplicates, dropping one occurrence drops them all. */
  lemma {:induction false} RemoveFirstIsWithout(s: seq<ResourceRef>, r: ResourceRef)
    requires r in s && NoDuplicates(s)
    ensures RemoveFirst(s, r) == Without(s, {r})
  {
    assert s == [s[0]] + s[1..];
    WithoutPrepend(s[0], s[1..], {r});
    if s[0] == r {
      WithoutNothing(s[1..], {r});
    } else {
      RemoveFirstIsWithout(s[1..], r);
    }
  }

  lemma TouchKeepsEdges(g: Adjacency, rs: set<ResourceRef>)
    ensures forall r :: Dependents(Touch(g, rs), r) == Dependents(g, r)
    ensures EdgesOf(Touch(g, rs)) == EdgesOf(g)
    ensures DuplicateFree(g) ==> DuplicateFree(Touch(g, rs))
  {
    var h := Touch(g, rs);
    forall r ensures Dependents(h, r) == Dependents(g, r) {}
    assert forall r :: Dependents(h, r) == Dependents(g, r);
  }

  lemma TouchTwice(g: Adjacency, xs: set<ResourceRef>, ys: set<ResourceRef>)
    ensures Touch(Touch(g, xs), ys) == Touch(g, xs + ys)
  {
  }

  lemma RemoveAllEdges(g: Adjacency, rs: set<ResourceRef>)
    ensures forall r :: Dependents(RemoveAll(g, rs), r) == if r in rs then [] else Without(Dependents(g, r), rs)
    ensures forall u, v :: (u, v) in EdgesOf(RemoveAll(g, rs)) <==> (u, v) in EdgesOf(g) && u !in rs && v !in rs
    ensures DuplicateFree(g) ==> DuplicateFree(RemoveAll(g, rs))
  {
    var h := RemoveAll(g, rs);
    forall r
      ensures Dependents(h, r) == if r in rs then [] else Without(Dependents(g, r), rs)
      ensures forall v :: v in Dependents(h, r) <==> v in Dependents(g, r) && r !in rs && v !in rs
      ensures NoDuplicates(Dependents(g, r)) ==> NoDuplicates(Dependents(h, r))
    {
      WithoutMembers(Dependents(g, r), rs);
    }
  }

  /** Deleting the key and then dropping the resource from every list removes the node. */
  lemma DeleteThenDrop(g: Adjacency, r: ResourceRef)
    ensures var h := Touch(g, {r}) - {r};
      (map x | x in h :: Without(h[x], {r})) == RemoveAll(g, {r})
    ensures DuplicateFree(g) ==> forall x :: x in Touch(g, {r}) - {r} ==> NoDuplicates((Touch(g, {r}) - {r})[x])
  {
    var h := Touch(g, {r}) - {r};
    forall x | x in h ensures h[x] == Dependents(g, x) {}
  }

  lemma RemoveAllTwice(g: Adjacency, xs: set<ResourceRef>, ys: set<ResourceRef>)
    ensures RemoveAll(RemoveAll(g, xs), ys) == RemoveAll(g, xs + ys)
  {
    var h := RemoveAll(RemoveAll(g, xs), ys);
    assert h.Keys == RemoveAll(g, xs + ys).Keys;
    forall r | r in h ensures h[r] == RemoveAll(g, xs + ys)[r] {
      WithoutTwice(g[r], xs, ys);
    }
  }

  lemma {:induction false} WithOwnersEdges(g: Adjacency, r: ResourceRef, owners: seq<ResourceRef>)
    ensures forall u, v :: (u, v) in EdgesOf(WithOwners(g, r, owners)) <==>
      (u, v) in EdgesOf(g) || (v == r && u in owners)
    ensures DuplicateFree(g) ==> DuplicateFree(WithOwners(g, r, owners))
  {
    if owners != [] {
      var init, o := owners[..|owners| - 1], owners[|owners| - 1];
      assert owners == init + [o];
      WithOwnersEdges(g, r, init);
      var h := WithOwners(g, r, init);
      var k := WithOwners(g, r, owners);
      forall u, v ensures (u, v) in EdgesOf(k) <==> (u, v) in EdgesOf(h) || (v == r && u == o) {
        assert u != o ==> Dependents(k, u) == Dependents(h, u);
      }
      if DuplicateFree(g) {
        forall u ensures NoDuplicates(Dependents(k, u)) {
          assert NoDuplicates(Dependents(h, u));
        }
      }
    }
  }

  function Newly(listed: bool, r: ResourceRef): seq<ResourceRef> {
    if listed then [r] else []
  }

  /** `a` stands before `b` somewhere in the list. */
  ghost predicate Precedes(s: seq<ResourceRef>, a: ResourceRef, b: ResourceRef) {
    exists i, j :: 0 <= i < j < |s| && s[i] == a && s[j] == b
  }

  lemma PrecedesAtEnd(s: seq<ResourceRef>, x: ResourceRef, a: ResourceRef, b: ResourceRef)
    ensures Precedes(s + [x], a, b) <==> Precedes(s, a, b) || (a in s && b == x)
  {
    var t := s + [x];
    if Precedes(s, a, b) {
      var i, j :| 0 <= i < j < |s| && s[i] == a && s[j] == b;
      assert t[i] == a && t[j] == b;
    }
    if a in s && b == x {
      var i :| 0 <= i < |s| && s[i] == a;
      assert t[i] == a && t[|s|] == b;
    }
  }

  /** What stays in a list keeps its order. */
  lemma {:induction false} WithoutKeepsOrder(s: seq<ResourceRef>, rs: set<ResourceRef>, a: ResourceRef, b: ResourceRef)
    ensures Precedes(Without(s, rs), a, b) <==> Precedes(s, a, b) && a !in rs && b !in rs
  {
    if s != [] {
      var init, x := s[..|s| - 1], s[|s| - 1];
      assert s == init + [x];
      WithoutKeepsOrder(init, rs, a, b);
      WithoutMembers(init, rs);
      PrecedesAtEnd(init, x, a, b);
      PrecedesAtEnd(Without(init, rs), x, a, b);
      assert Without(init, rs) + [] == Without(init, rs);
    }
  }

  /** Each owner's list is the old one, with a new name behind it; neither repeated owners nor their order matter. */
  lemma {:induction false} WithOwnersAppends(g: Adjacency, r: ResourceRef, owners: seq<ResourceRef>, o: ResourceRef)
    ensures Dependents(WithOwners(g, r, owners), o)
      == Dependents(g, o) + Newly(o in owners && r !in Dependents(g, o), r)
  {
    if owners != [] {
      var init, last := owners[..|owners| - 1], owners[|owners| - 1];
      assert owners == init + [last];
      WithOwnersAppends(g, r, init, o);
    }
  }

  /** Each list is as before, followed by the resource if its owner did not list it. */
  ghost predicate Appended(g: Adjacency, r: ResourceRef, owners: seq<ResourceRef>, h: Adjacency) {
    forall o :: Dependents(h, o) == Dependents(g, o) + Newly(o in owners && r !in Dependents(g, o), r)
  }

  /** Each other list is as before without the resource, followed by it if it names the list's holder as an owner. */
  ghost predicate MovedToEnd(g: Adjacency, r: ResourceRef, owners: seq<ResourceRef>, h: Adjacency) {
    && Dependents(h, r) == Dependents(g, r)
    && forall o :: o != r ==> Dependents(h, o) == Without(Dependents(g, o), {r}) + Newly(o in owners, r)
  }

  lemma AddedAreAppended(g: Adjacency, r: ResourceRef, owners: seq<ResourceRef>, h: Adjacency)
    requires forall o :: Dependents(h, o) == Dependents(WithOwners(g, r, owners), o)
    ensures Appended(g, r, owners, h)
  {
    forall o ensures Dependents(h, o) == Dependents(g, o) + Newly(o in owners && r !in Dependents(g, o), r) {
      WithOwnersAppends(g, r, owners, o);
    }
  }

  lemma UpdatedAreMoved(g: Adjacency, r: ResourceRef, owners: seq<ResourceRef>, h: Adjacency)
    requires forall o :: Dependents(h, o) == Dependents(Updated(g, r, owners), o)
    ensures MovedToEnd(g, r, owners, h)
  {
    UpdatedLists(g, r, owners, r);
    forall o | o != r ensures Dependents(h, o) == Without(Dependents(g, o), {r}) + Newly(o in owners, r) {
      UpdatedLists(g, r, owners, o);
    }
  }

  lemma UpdatedLists(g: Adjacency, r: ResourceRef, owners: seq<ResourceRef>, o: ResourceRef)
    ensures Dependents(Updated(g, r, owners), o)
      == if o == r then Dependents(g, r) else Without(Dependents(g, o), {r}) + Newly(o in owners, r)
  {
    if o != r {
      var h := RemoveAll(g, {r});
      assert Dependents(h, o) == Without(Dependents(g, o), {r});
      WithOwnersAppends(h, r, owners, o);
      WithoutMembers(Dependents(g, o), {r});
      assert Dependents(Updated(g, r, owners), o) == Dependents(WithOwners(h, r, owners), o);
    }
  }

  /** After an update the resource stands last with each owner, and the others in each list keep their order. */
  lemma UpdatedMovesToEnd(g: Adjacency, r: ResourceRef, owners: seq<ResourceRef>, o: ResourceRef)
    requires o != r
    ensures var now := Dependents(Updated(g, r, owners), o);
      if o in owners then now != [] && now[|now| - 1] == r && r !in now[..|now| - 1] else r !in now
    ensures forall a, b :: a != r && b != r ==>
      (Precedes(Dependents(Updated(g, r, owners), o), a, b) <==> Precedes(Dependents(g, o), a, b))
  {
    var was := Dependents(g, o);
    var kept := Without(was, {r});
    UpdatedLists(g, r, owners, o);
    WithoutMembers(was, {r});
    forall a, b | a != r && b != r
      ensures Precedes(Dependents(Updated(g, r, owners), o), a, b) <==> Precedes(was, a, b)
    {
      WithoutKeepsOrder(was, {r}, a, b);
      PrecedesAtEnd(kept, r, a, b);
      assert kept + [] == kept;
    }
  }

  /** The exact edges after an update, for every graph and owner list. */
  lemma UpdatedEdges(g: Adjacency, r: ResourceRef, owners: seq<ResourceRef>)
    ensures forall u, v :: (u, v) in EdgesOf(Updated(g, r, owners)) <==>
      if u == r then (r, v) in EdgesOf(g) else if v == r then u in owners else (u, v) in EdgesOf(g)
    ensures DuplicateFree(g) ==> DuplicateFree(Updated(g, r, owners))
  {
    var h := RemoveAll(g, {r});
    RemoveAllEdges(g, {r});
    var k := WithOwners(h, r, owners);
    WithOwnersEdges(h, r, owners);
    var f := Updated(g, r, owners);
    forall u, v ensures (u, v) in EdgesOf(f) <==> if u == r then (r, v) in EdgesOf(g) else (u, v) in EdgesOf(k) {
      assert u != r ==> Dependents(f, u) == Dependents(k, u);
    }
    if DuplicateFree(g) {
      forall u ensures NoDuplicates(Dependents(f, u)) {
        assert NoDuplicates(Dependents(k, u)) && NoDuplicates(Dependents(g, u));
      }
    }
  }

  /**
   * After an update the dependencies of a resource are exactly its owners if and only if it is listed
   * among its own owners just when it already depended on itself; all other edges are kept.
   */
  lemma UpdateRefinesOwnership(g: Adjacency, r: ResourceRef, owners: seq<ResourceRef>)
    ensures (forall u :: (u, r) in EdgesOf(Updated(g, r, owners)) <==> u in owners)
      <==> (r in owners <==> (r, r) in EdgesOf(g))
    ensures forall u, v :: v != r ==> ((u, v) in EdgesOf(Updated(g, r, owners)) <==> (u, v) in EdgesOf(g))
    ensures Dependents(Updated(g, r, owners), r) == Dependents(g, r)
  {
    UpdatedEdges(g, r, owners);
    var e := EdgesOf(Updated(g, r, owners));
    assert (r, r) in e <==> (r, r) in EdgesOf(g);
  }
}
