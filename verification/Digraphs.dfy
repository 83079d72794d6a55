/** Walks, reachability, cycles and rooted trees in a directed graph, given as its set of edges. */
module Digraphs {

  type Edges<!V(==)> = iset<(V, V)>

  ghost predicate Walk<V(!new)>(e: Edges<V>, p: seq<V>) {
    && |p| > 0
    && forall i :: 0 <= i < |p| - 1 ==> (p[i], p[i + 1]) in e
  }

  ghost predicate WalkFromTo<V(!new)>(e: Edges<V>, u: V, v: V, p: seq<V>) {
    Walk(e, p) && p[0] == u && p[|p| - 1] == v
  }

  ghost predicate Reaches<V(!new)>(e: Edges<V>, u: V, v: V) {
    exists p :: WalkFromTo(e, u, v, p)
  }

  /** No walk with at least one edge returns to its start. */
  ghost predicate Acyclic<V(!new)>(e: Edges<V>) {
    forall u, p :: WalkFromTo(e, u, u, p) ==> |p| == 1
  }

  /** The part of the graph reachable from `s` is a tree rooted at `s`: one walk to each node. */
  ghost predicate TreeFrom<V(!new)>(e: Edges<V>, s: V) {
    forall v, p, q :: WalkFromTo(e, s, v, p) && WalkFromTo(e, s, v, q) ==> p == q
  }

  /** No two walks between any pair of nodes. */
  ghost predicate UniqueWalks<V(!new)>(e: Edges<V>) {
    forall s :: TreeFrom(e, s)
  }

  lemma ReachesSelf<V(!new)>(e: Edges<V>, u: V)
    ensures Reaches(e, u, u)
  {
    assert WalkFromTo(e, u, u, [u]);
  }

  lemma ConsWalk<V(!new)>(e: Edges<V>, u: V, v: V, w: V, p: seq<V>)
    requires (u, v) in e && WalkFromTo(e, v, w, p)
    ensures WalkFromTo(e, u, w, [u] + p)
    ensures Reaches(e, u, w)
  {
    var q := [u] + p;
    forall i | 0 <= i < |q| - 1 ensures (q[i], q[i + 1]) in e {
      if i > 0 {
        assert (p[i - 1], p[i]) in e;
      }
    }
    assert WalkFromTo(e, u, w, q);
  }

  lemma EdgeThenReaches<V(!new)>(e: Edges<V>, u: V, v: V, w: V)
    requires (u, v) in e && Reaches(e, v, w)
    ensures Reaches(e, u, w)
  {
    var p :| WalkFromTo(e, v, w, p);
    ConsWalk(e, u, v, w, p);
  }

  lemma EdgeReaches<V(!new)>(e: Edges<V>, u: V, v: V)
    requires (u, v) in e
    ensures Reaches(e, u, v)
  {
    ReachesSelf(e, v);
    EdgeThenReaches(e, u, v, v);
  }

  /** A walk that is not a single node starts with an edge. */
  lemma SplitWalk<V(!new)>(e: Edges<V>, u: V, w: V, p: seq<V>)
    requires WalkFromTo(e, u, w, p) && |p| > 1
    ensures (u, p[1]) in e && WalkFromTo(e, p[1], w, p[1..]) && Reaches(e, p[1], w)
    ensures p == [u] + p[1..]
  {
    assert (p[0], p[1]) in e;
    var q := p[1..];
    forall i | 0 <= i < |q| - 1 ensures (q[i], q[i + 1]) in e {
      assert (p[i + 1], p[i + 2]) in e;
    }
    assert WalkFromTo(e, p[1], w, q);
  }

  /** Whatever `u` reaches is `u` itself or is reached from a successor of `u`. */
  lemma ReachesThroughSuccessor<V(!new)>(e: Edges<V>, u: V, w: V) returns (v: V)
    requires Reaches(e, u, w) && u != w
    ensures (u, v) in e && Reaches(e, v, w)
  {
    var p :| WalkFromTo(e, u, w, p);
    SplitWalk(e, u, w, p);
    v := p[1];
  }

  lemma SubgraphWalk<V(!new)>(e: Edges<V>, f: Edges<V>, u: V, v: V, p: seq<V>)
    requires e <= f && WalkFromTo(e, u, v, p)
    ensures WalkFromTo(f, u, v, p)
  {
    forall i | 0 <= i < |p| - 1 ensures (p[i], p[i + 1]) in f {
      assert (p[i], p[i + 1]) in e;
    }
  }

  lemma SubgraphAcyclic<V(!new)>(e: Edges<V>, f: Edges<V>)
    requires e <= f && Acyclic(f)
    ensures Acyclic(e)
  {
    forall u, p | WalkFromTo(e, u, u, p) ensures |p| == 1 {
      SubgraphWalk(e, f, u, u, p);
    }
  }

  lemma SubgraphTree<V(!new)>(e: Edges<V>, f: Edges<V>, s: V)
    requires e <= f && TreeFrom(f, s)
    ensures TreeFrom(e, s)
  {
    forall v, p, q | WalkFromTo(e, s, v, p) && WalkFromTo(e, s, v, q) ensures p == q {
      SubgraphWalk(e, f, s, v, p);
      SubgraphWalk(e, f, s, v, q);
    }
  }

  /** A closed walk can be started at any of its nodes. */
  lemma Rotate<V(!new)>(e: Edges<V>, u: V, p: seq<V>, i: nat)
    requires WalkFromTo(e, u, u, p) && i < |p|
    ensures WalkFromTo(e, p[i], p[i], p[i..] + p[1..i + 1])
  {
    var q := p[i..] + p[1..i + 1];
    forall j | 0 <= j < |q| - 1 ensures (q[j], q[j + 1]) in e {
      if j < |p| - 1 - i {
        assert (p[i + j], p[i + j + 1]) in e;
      } else {
        var k := j - (|p| - 1 - i);
        assert q[j] == p[k] && q[j + 1] == p[k + 1];
        assert (p[k], p[k + 1]) in e;
      }
    }
  }

  /** If the edges of `f` missing from the acyclic `e` all enter `r`, a downward check from `r` suffices. */
  lemma TreeFromNewTargetAcyclic<V(!new)>(e: Edges<V>, f: Edges<V>, r: V)
    requires Acyclic(e) && TreeFrom(f, r)
    requires forall u, v :: (u, v) in f ==> (u, v) in e || v == r
    ensures Acyclic(f)
  {
    forall u, p | WalkFromTo(f, u, u, p) ensures |p| == 1 {
      if r in p {
        var i: nat :| i < |p| && p[i] == r;
        Rotate(f, u, p, i);
        assert WalkFromTo(f, r, r, [r]);
      } else {
        forall i | 0 <= i < |p| - 1 ensures (p[i], p[i + 1]) in e {
          assert (p[i], p[i + 1]) in f;
          assert p[i + 1] in p;
        }
        assert WalkFromTo(e, u, u, p);
      }
    }
  }

  lemma TreeHasNoCycleAtRoot<V(!new)>(e: Edges<V>, s: V, d: V)
    requires (s, d) in e && Reaches(e, d, s)
    ensures !TreeFrom(e, s)
  {
    var p :| WalkFromTo(e, d, s, p);
    ConsWalk(e, s, d, s, p);
    assert WalkFromTo(e, s, s, [s]);
    assert |[s]| != |[s] + p|;
  }

  lemma TreeChildrenDisjoint<V(!new)>(e: Edges<V>, s: V, c: V, d: V, x: V)
    requires (s, c) in e && (s, d) in e && c != d && Reaches(e, c, x) && Reaches(e, d, x)
    ensures !TreeFrom(e, s)
  {
    var p :| WalkFromTo(e, c, x, p);
    var q :| WalkFromTo(e, d, x, q);
    ConsWalk(e, s, c, x, p);
    ConsWalk(e, s, d, x, q);
    assert ([s] + p)[1] == c && ([s] + q)[1] == d;
  }

  lemma SubtreeOfTree<V(!new)>(e: Edges<V>, s: V, d: V)
    requires (s, d) in e && TreeFrom(e, s)
    ensures TreeFrom(e, d)
  {
    forall v, p, q | WalkFromTo(e, d, v, p) && WalkFromTo(e, d, v, q) ensures p == q {
      ConsWalk(e, s, d, v, p);
      ConsWalk(e, s, d, v, q);
      assert p == ([s] + p)[1..] && q == ([s] + q)[1..];
    }
  }

  /** A root over disjoint subtrees, none of which leads back to it, is a tree. */
  lemma TreeFromSubtrees<V(!new)>(e: Edges<V>, s: V)
    requires forall d :: (s, d) in e ==> TreeFrom(e, d) && !Reaches(e, d, s)
    requires forall c, d, x :: (s, c) in e && (s, d) in e && Reaches(e, c, x) && Reaches(e, d, x) ==> c == d
    ensures TreeFrom(e, s)
  {
    forall v, p, q | WalkFromTo(e, s, v, p) && WalkFromTo(e, s, v, q) ensures p == q {
      if |p| > 1 {
        SplitWalk(e, s, v, p);
      }
      if |q| > 1 {
        SplitWalk(e, s, v, q);
      }
      if |p| > 1 && |q| > 1 {
        assert p[1] == q[1];
        assert p[1..] == q[1..];
      }
    }
  }

  /** A new node without successors whose owners have no common ancestor keeps walks unique. */
  lemma NewLeafKeepsUniqueWalks<V(!new)>(e: Edges<V>, f: Edges<V>, c: V)
    requires UniqueWalks(e) && e <= f
    requires forall u, v :: (u, v) in f ==> u != c && ((u, v) in e || v == c)
    requires forall v :: (v, c) !in e
    requires forall s, o, o' :: (o, c) in f && (o', c) in f && Reaches(e, s, o) && Reaches(e, s, o') ==> o == o'
    ensures UniqueWalks(f)
  {
    forall s, v, p, q | WalkFromTo(f, s, v, p) && WalkFromTo(f, s, v, q) ensures p == q {
      NewLeafWalk(e, f, c, s, v, p);
      NewLeafWalk(e, f, c, s, v, q);
      assert TreeFrom(e, s);
      if |p| > 1 && v == c && |q| > 1 {
        assert p == p[..|p| - 1] + [c] && q == q[..|q| - 1] + [c];
      }
    }
  }

  lemma NewLeafWalk<V(!new)>(e: Edges<V>, f: Edges<V>, c: V, s: V, v: V, p: seq<V>)
    requires forall u, v :: (u, v) in f ==> u != c && ((u, v) in e || v == c)
    requires WalkFromTo(f, s, v, p)
    ensures v != c ==> WalkFromTo(e, s, v, p)
    ensures v == c && |p| > 1 ==>
      && (p[|p| - 2], c) in f
      && WalkFromTo(e, s, p[|p| - 2], p[..|p| - 1])
      && Reaches(e, s, p[|p| - 2])
    ensures s == c ==> |p| == 1
  {
    if |p| > 1 {
      assert (p[0], p[1]) in f;
      assert (p[|p| - 2], p[|p| - 1]) in f;
    }
    forall i | 0 <= i < |p| - 2 ensures (p[i], p[i + 1]) in e {
      assert (p[i], p[i + 1]) in f;
      assert (p[i + 1], p[i + 2]) in f;
    }
    if |p| > 1 {
      var q := p[..|p| - 1];
      assert WalkFromTo(e, s, p[|p| - 2], q);
    }
  }
}
