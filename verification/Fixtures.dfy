/** Dependency injection for the command line client: a depth-first resolution of fixtures, each run at most once. */
module Fixtures {
  import opened Wrappers
  import opened Digraphs

  type Name = string

  /** A function with the fixtures it depends on, and its parameters that have a default. */
  datatype Function = Function(depends: seq<Name>, defaults: set<Name>, generator: bool)

  type Registry = map<Name, Function>

  datatype Outcome = Returned | Circular(name: Name) | NotFound(name: Name)

  ghost function Needs(fixtures: Registry): Edges<Name> {
    iset u: Name, v: Name | u in fixtures && v in fixtures[u].depends && v in fixtures :: (u, v)
  }

  ghost predicate OnCycle(e: Edges<Name>, u: Name) {
    exists p :: WalkFromTo(e, u, u, p) && |p| > 1
  }

  ghost predicate LeadsToCycle(fixtures: Registry, depends: seq<Name>, name: Name) {
    exists d :: d in depends && d in fixtures && Reaches(Needs(fixtures), d, name) && OnCycle(Needs(fixtures), name)
  }

  ghost predicate AllRegistered(fixtures: Registry, depends: seq<Name>) {
    && (forall d :: d in depends ==> d in fixtures)
    && (forall n, d :: n in fixtures && d in fixtures[n].depends ==> d in fixtures)
  }

  /** A dependency without a fixture, among those given or in the registry. */
  ghost predicate Unregistered(fixtures: Registry, depends: seq<Name>, name: Name) {
    name !in fixtures && (name in depends || exists n :: n in fixtures && name in fixtures[n].depends)
  }

  /** Every dependency is met: it has run, was given from outside, or is left to its default. */
  ghost predicate Met(fixtures: Registry, f: Function, ran: seq<Name>, given: set<Name>) {
    forall d :: d in f.depends ==> d in ran || d in given || (d !in fixtures && d in f.defaults)
  }

  /** Fixtures run once each, and after everything they depend on. */
  ghost predicate InOrder(fixtures: Registry, ran: seq<Name>, given: set<Name>) {
    && NoDuplicates(ran)
    && forall i :: 0 <= i < |ran| ==> ran[i] in fixtures && Met(fixtures, fixtures[ran[i]], ran[..i], given)
  }

  lemma RunNext(fixtures: Registry, ran: seq<Name>, given: set<Name>, n: Name)
    requires InOrder(fixtures, ran, given) && n !in ran && n in fixtures && Met(fixtures, fixtures[n], ran, given)
    ensures InOrder(fixtures, ran + [n], given)
  {
    var after := ran + [n];
    forall i | 0 <= i < |after| ensures after[i] in fixtures && Met(fixtures, fixtures[after[i]], after[..i], given) {
      assert after[..i] == ran[..i];
      assert ran[..|ran|] == ran;
    }
  }

  /** Along the dependencies of what has run one only goes back in time. */
  lemma {:induction false} WalksGoBack(fixtures: Registry, ran: seq<Name>, i: nat, p: seq<Name>, v: Name)
    returns (j: nat)
    requires InOrder(fixtures, ran, {}) && i < |ran| && WalkFromTo(Needs(fixtures), ran[i], v, p)
    ensures j <= i && ran[j] == v && (|p| > 1 ==> j < i)
    decreases |p|
  {
    j := i;
    if |p| > 1 {
      SplitWalk(Needs(fixtures), ran[i], v, p);
      assert Met(fixtures, fixtures[ran[i]], ran[..i], {});
      var k :| 0 <= k < i && ran[k] == p[1];
      j := WalksGoBack(fixtures, ran, k, p[1..], v);
    }
  }

  lemma NoCycleBehind(fixtures: Registry, ran: seq<Name>, d: Name, name: Name)
    requires InOrder(fixtures, ran, {}) && d in ran && Reaches(Needs(fixtures), d, name)
    ensures !OnCycle(Needs(fixtures), name)
  {
    var i: nat :| i < |ran| && ran[i] == d;
    var p :| WalkFromTo(Needs(fixtures), d, name, p);
    var j := WalksGoBack(fixtures, ran, i, p, name);
    forall q | WalkFromTo(Needs(fixtures), name, name, q) ensures |q| <= 1 {
      var k := WalksGoBack(fixtures, ran, j, q, name);
      assert k == j;
    }
  }

  lemma ReturnsWithoutCycle(fixtures: Registry, func: Function, ran: seq<Name>)
    requires InOrder(fixtures, ran, {}) && Met(fixtures, func, ran, {}) && AllRegistered(fixtures, func.depends)
    ensures forall name :: !LeadsToCycle(fixtures, func.depends, name)
  {
    forall name, d | d in func.depends && Reaches(Needs(fixtures), d, name) ensures !OnCycle(Needs(fixtures), name) {
      NoCycleBehind(fixtures, ran, d, name);
    }
  }

  lemma MoreGiven(fixtures: Registry, ran: seq<Name>, given: set<Name>, more: set<Name>)
    requires InOrder(fixtures, ran, given)
    ensures InOrder(fixtures, ran, given + more)
  {
    forall i | 0 <= i < |ran| ensures Met(fixtures, fixtures[ran[i]], ran[..i], given + more) {
      assert Met(fixtures, fixtures[ran[i]], ran[..i], given);
    }
  }

  /** A name met again while it is being resolved closes a cycle. */
  lemma ChainCloses(fixtures: Registry, chain: seq<Name>, name: Name)
    requires chain != [] && Walk(Needs(fixtures), chain) && name in chain
    requires (chain[|chain| - 1], name) in Needs(fixtures)
    ensures OnCycle(Needs(fixtures), name)
  {
    var k :| 0 <= k < |chain| && chain[k] == name;
    var e, p := Needs(fixtures), chain[k..] + [name];
    forall i | 0 <= i < |p| - 1 ensures (p[i], p[i + 1]) in e {
      assert i < |chain[k..]| - 1 ==> (chain[k + i], chain[k + i + 1]) in e;
    }
    assert WalkFromTo(e, name, name, p);
  }

  /** Fixtures under way: each depends on the next, and none of them has run yet. */
  ghost predicate Chain(fixtures: Registry, chain: seq<Name>, resolved: set<Name>) {
    && NoDuplicates(chain) && (forall n :: n in chain ==> n in fixtures && n !in resolved)
    && (chain != [] ==> Walk(Needs(fixtures), chain))
  }

  lemma ChainShrinks(fixtures: Registry, chain: seq<Name>, resolved: set<Name>)
    requires chain != [] && Chain(fixtures, chain, resolved)
    ensures Chain(fixtures, chain[..|chain| - 1], resolved + {chain[|chain| - 1]})
  {
    var rest := chain[..|chain| - 1];
    assert forall i :: 0 <= i < |rest| - 1 ==> (chain[i], chain[i + 1]) in Needs(fixtures);
  }

  lemma RanLast(ran: seq<Name>, resolved: set<Name>)
    requires ran != [] && forall n :: n in resolved <==> n in ran[..|ran| - 1]
    ensures forall n :: n in resolved + {ran[|ran| - 1]} <==> n in ran
  {
    assert ran == ran[..|ran| - 1] + [ran[|ran| - 1]];
  }

  const CONFIG := "config"

  /** The fixtures that are not under way. */
  function Left(fixtures: Registry, chain: seq<Name>): set<Name> {
    set n | n in fixtures && n !in chain
  }

  /** Needed by a function with these dependencies, of which some are given. */
  ghost predicate Needed(fixtures: Registry, depends: seq<Name>, kwargs: set<Name>, n: Name) {
    exists d :: d in depends && d !in kwargs && d in fixtures && Reaches(Needs(fixtures), d, n)
  }

  /** What a function is called with by the time its `i`-th dependency is looked at. */
  function Arguments(fixtures: Registry, depends: seq<Name>, kwargs: set<Name>, i: nat): set<Name>
    requires i <= |depends|
  {
    kwargs + set d | d in depends[..i] && d in fixtures
  }

  /** The `i`-th dependency is the configuration, not given and not needed by those before it. */
  ghost predicate ConfigFirst(fixtures: Registry, depends: seq<Name>, kwargs: set<Name>, i: nat) {
    && i < |depends| && depends[i] == CONFIG && CONFIG in fixtures && CONFIG !in kwargs
    && !Needed(fixtures, depends[..i], kwargs, CONFIG)
  }

  /** Nothing new runs that is not needed. */
  ghost predicate OnlyNeeded(
      fixtures: Registry, depends: seq<Name>, kwargs: set<Name>, before: set<Name>, after: set<Name>)
  {
    forall n :: n in after && n !in before ==> Needed(fixtures, depends, kwargs, n)
  }

  ghost predicate OnlyBelow(fixtures: Registry, name: Name, before: set<Name>, after: set<Name>) {
    forall n :: n in after && n !in before ==> Reaches(Needs(fixtures), name, n)
  }

  lemma OneMoreNeeded(
      fixtures: Registry, depends: seq<Name>, kwargs: set<Name>, i: nat, before: set<Name>, mid: set<Name>,
      after: set<Name>)
    requires i < |depends| && OnlyNeeded(fixtures, depends[..i], kwargs, before, mid)
    requires mid == after || (depends[i] in fixtures && depends[i] !in kwargs &&
      OnlyBelow(fixtures, depends[i], mid, after))
    ensures OnlyNeeded(fixtures, depends[..i + 1], kwargs, before, after)
  {
    assert depends[..i + 1] == depends[..i] + [depends[i]];
    forall n | n in after && n !in before ensures Needed(fixtures, depends[..i + 1], kwargs, n) {
      assert n in mid ==> Needed(fixtures, depends[..i], kwargs, n);
      assert depends[i] in depends[..i + 1];
    }
  }

  lemma NeededIsBelow(
      fixtures: Registry, name: Name, kwargs: set<Name>, before: set<Name>, after: set<Name>)
    requires name in fixtures && OnlyNeeded(fixtures, fixtures[name].depends, kwargs, before, after)
    ensures OnlyBelow(fixtures, name, before, after + {name})
  {
    ReachesSelf(Needs(fixtures), name);
    forall n | n in after && n !in before ensures Reaches(Needs(fixtures), name, n) {
      var d :|
        && d in fixtures[name].depends && d !in kwargs && d in fixtures && Reaches(Needs(fixtures), d, n);
      EdgeThenReaches(Needs(fixtures), name, d, n);
    }
  }

  /** The configuration was loaded with exactly what its caller had by then, where that asked for it first. */
  ghost predicate ConfiguredFirst(
      fixtures: Registry, depends: seq<Name>, kwargs: set<Name>, n: nat, configured: Option<set<Name>>)
    requires n <= |depends|
  {
    forall i :: 0 <= i < n && ConfigFirst(fixtures, depends, kwargs, i) ==>
      configured == Some(Arguments(fixtures, depends, kwargs, i))
  }

  lemma FirstIsNotGiven(fixtures: Registry, depends: seq<Name>, kwargs: set<Name>, i: nat)
    requires i < |depends|
    ensures ConfigFirst(fixtures, depends, kwargs, i) ==> CONFIG !in Arguments(fixtures, depends, kwargs, i)
  {
    ReachesSelf(Needs(fixtures), CONFIG);
  }

  ghost predicate ConfiguredSince(
      fixtures: Registry, depends: seq<Name>, kwargs: set<Name>, n: nat, before: set<Name>, resolved: set<Name>,
      was: Option<set<Name>>, configured: Option<set<Name>>)
    requires n <= |depends|
  {
    && (CONFIG in before || CONFIG !in resolved ==> configured == was)
    && (CONFIG !in before ==> ConfiguredFirst(fixtures, depends, kwargs, n, configured))
    && (CONFIG !in before && CONFIG !in resolved ==>
      forall i :: 0 <= i < n ==> !ConfigFirst(fixtures, depends, kwargs, i))
  }

  lemma ConfiguredNext(
      fixtures: Registry, depends: seq<Name>, kwargs: set<Name>, n: nat, before: set<Name>, mid: set<Name>,
      after: set<Name>, was: Option<set<Name>>, then': Option<set<Name>>, now: Option<set<Name>>)
    requires n < |depends| && before <= mid <= after
    requires OnlyNeeded(fixtures, depends[..n], kwargs, before, mid)
    requires ConfiguredSince(fixtures, depends, kwargs, n, before, mid, was, then')
    requires CONFIG in mid || CONFIG !in after ==> now == then'
    requires depends[n] == CONFIG && CONFIG in fixtures && CONFIG !in Arguments(fixtures, depends, kwargs, n) ==>
      CONFIG in mid || (CONFIG in after && now == Some(Arguments(fixtures, depends, kwargs, n)))
    ensures ConfiguredSince(fixtures, depends, kwargs, n + 1, before, after, was, now)
  {
    FirstIsNotGiven(fixtures, depends, kwargs, n);
    if CONFIG !in before && ConfigFirst(fixtures, depends, kwargs, n) {
      assert CONFIG !in mid;
    }
  }

  ghost predicate MetSoFar(fixtures: Registry, func: Function, i: nat, resolved: set<Name>, given: set<Name>)
    requires i <= |func.depends|
  {
    forall j :: 0 <= j < i ==> IsMet(fixtures, func, func.depends[j], resolved, given)
  }

  predicate IsMet(fixtures: Registry, func: Function, d: Name, resolved: set<Name>, given: set<Name>) {
    d in resolved || d in given || (d !in fixtures && d in func.defaults)
  }

  lemma MetNext(
      fixtures: Registry, func: Function, i: nat, before: set<Name>, after: set<Name>, given: set<Name>)
    requires i < |func.depends| && before <= after && MetSoFar(fixtures, func, i, before, given)
    requires IsMet(fixtures, func, func.depends[i], after, given)
    ensures MetSoFar(fixtures, func, i + 1, after, given)
  {
    forall j | 0 <= j < i ensures IsMet(fixtures, func, func.depends[j], after, given) {
      assert IsMet(fixtures, func, func.depends[j], before, given);
    }
  }

  lemma GatheredNext(
      fixtures: Registry, func: Function, was: set<Name>, i: nat, before: set<Name>, mid: set<Name>, after: set<Name>,
      given: set<Name>, configuredBefore: Option<set<Name>>, then': Option<set<Name>>, now: Option<set<Name>>)
    requires i < |func.depends| && before <= mid <= after
    requires OnlyNeeded(fixtures, func.depends[..i], was, before, mid)
    requires ConfiguredSince(fixtures, func.depends, was, i, before, mid, configuredBefore, then')
    requires CONFIG in mid || CONFIG !in after ==> now == then'
    requires var d := func.depends[i];
      d == CONFIG && CONFIG in fixtures && CONFIG !in Arguments(fixtures, func.depends, was, i) ==>
        CONFIG in mid || (CONFIG in after && now == Some(Arguments(fixtures, func.depends, was, i)))
    requires MetSoFar(fixtures, func, i, mid, given) && IsMet(fixtures, func, func.depends[i], after, given)
    ensures MetSoFar(fixtures, func, i + 1, after, given)
    ensures ConfiguredSince(fixtures, func.depends, was, i + 1, before, after, configuredBefore, now)
    ensures Arguments(fixtures, func.depends, was, i + 1) ==
      Arguments(fixtures, func.depends, was, i) + if func.depends[i] in fixtures then {func.depends[i]} else {}
  {
    MetNext(fixtures, func, i, mid, after, given);
    ConfiguredNext(fixtures, func.depends, was, i, before, mid, after, configuredBefore, then', now);
    assert func.depends[..i + 1] == func.depends[..i] + [func.depends[i]];
  }

  lemma StillNeeded(
      fixtures: Registry, depends: seq<Name>, kwargs: set<Name>, i: nat, before: set<Name>, mid: set<Name>,
      after: set<Name>)
    requires i < |depends| && OnlyNeeded(fixtures, depends[..i], kwargs, before, mid)
    requires mid == after || (depends[i] in fixtures && depends[i] !in Arguments(fixtures, depends, kwargs, i) &&
      OnlyBelow(fixtures, depends[i], mid, after))
    ensures OnlyNeeded(fixtures, depends[..i + 1], kwargs, before, after)
    ensures OnlyNeeded(fixtures, depends, kwargs, before, after)
  {
    OneMoreNeeded(fixtures, depends, kwargs, i, before, mid, after);
    AllNeeded(fixtures, depends, i + 1, kwargs, before, after);
  }

  lemma AllNeeded(
      fixtures: Registry, depends: seq<Name>, n: nat, kwargs: set<Name>, before: set<Name>, after: set<Name>)
    requires n <= |depends| && OnlyNeeded(fixtures, depends[..n], kwargs, before, after)
    ensures OnlyNeeded(fixtures, depends, kwargs, before, after)
  {
    forall m | m in after && m !in before ensures Needed(fixtures, depends, kwargs, m) {
      assert Needed(fixtures, depends[..n], kwargs, m);
      assert forall d :: d in depends[..n] ==> d in depends;
    }
  }

  class Resolver {
    const fixtures: Registry
    var resolved: set<Name>
    var resolving: seq<Name>
    var generators: set<Name>
    /** The fixtures run in this context, in order, and the names of all arguments given from outside. */
    ghost var ran: seq<Name>
    ghost var given: set<Name>
    /** The names of the arguments the configuration was loaded with. */
    ghost var configured: Option<set<Name>>

    ghost predicate Valid()
      reads this
    {
      && InOrder(fixtures, ran, given)
      && (forall n :: n in resolved <==> n in ran)
      && Chain(fixtures, resolving, resolved) && Finishing()
    }

    /** The generators to be finished at the end of the context are exactly those that have run. */
    ghost predicate Finishing()
      reads this
    {
      forall n :: n in generators <==> n in resolved && n in fixtures && fixtures[n].generator
    }

    constructor (fixtures: Registry)
      ensures this.fixtures == fixtures && Valid() && resolving == [] && ran == [] && given == {}
    {
      this.fixtures := fixtures;
      resolved, resolving, generators, ran, given, configured := {}, [], {}, [], {}, None;
    }

    /** Entering the context again starts over. */
    method Enter()
      modifies this
      ensures Valid() && resolving == [] && ran == [] && given == {}
    {
      resolved, resolving, generators, ran, given, configured := {}, [], {}, [], {}, None;
    }

    /** The function called: the fixture at the end of the chain, or the outermost one. */
    ghost predicate Runs(func: Function)
      reads this
    {
      resolving != [] ==> resolving[|resolving| - 1] in fixtures && func == fixtures[resolving[|resolving| - 1]]
    }

    /** Runs a function once its dependencies are resolved; a fixture that returns still has to be recorded. */
    method Call(func: Function, kwargs: set<Name>) returns (outcome: Outcome)
      requires Valid() && Runs(func)
      requires forall n :: n in kwargs ==> n in resolved || n in given
      modifies this`resolved, this`resolving, this`generators, this`ran, this`configured
      ensures old(ran) <= ran && old(resolved) <= resolved && Finishing()
      ensures OnlyNeeded(fixtures, func.depends, kwargs, old(resolved), resolved)
      ensures CONFIG in old(resolved) || CONFIG !in resolved ==> configured == old(configured)
      ensures outcome.Returned? && CONFIG !in old(resolved) ==>
        ConfiguredFirst(fixtures, func.depends, kwargs, |func.depends|, configured)
      ensures outcome.Returned? ==>
        && resolving == old(resolving) && Met(fixtures, func, ran, given)
        && (resolving == [] ==> Valid())
        && (resolving != [] ==> Returns(resolving[|resolving| - 1]))
      ensures outcome.Circular? ==> LeadsToCycle(fixtures, func.depends, outcome.name)
      ensures outcome.NotFound? ==> Unregistered(fixtures, func.depends, outcome.name)
      decreases Left(fixtures, resolving), 1, 0
    {
      ghost var was, before := kwargs, resolved;
      var kwargs := kwargs;
      for i := 0 to |func.depends|
        invariant Valid() && resolving == old(resolving) && old(ran) <= ran
        invariant Gathered(func, was, i, kwargs, before, old(configured))
      {
        outcome, kwargs := ProvideNext(func, was, i, kwargs, before, old(configured));
        if !outcome.Returned? {
          return;
        }
      }
      assert func.depends[..|func.depends|] == func.depends;
      Execute(func);
      outcome := Returned;
    }

    ghost predicate Gathered(
        func: Function, was: set<Name>, i: nat, kwargs: set<Name>, before: set<Name>,
        configuredBefore: Option<set<Name>>)
      reads this
    {
      && i <= |func.depends| && before <= resolved && (forall n :: n in kwargs ==> n in resolved || n in given)
      && kwargs == Arguments(fixtures, func.depends, was, i)
      && OnlyNeeded(fixtures, func.depends[..i], was, before, resolved)
      && ConfiguredSince(fixtures, func.depends, was, i, before, resolved, configuredBefore, configured)
      && MetSoFar(fixtures, func, i, resolved, given)
    }

    method ProvideNext(
        func: Function, ghost was: set<Name>, i: nat, kwargs: set<Name>, ghost before: set<Name>,
        ghost configuredBefore: Option<set<Name>>)
      returns (outcome: Outcome, arguments: set<Name>)
      requires Valid() && Runs(func) && i < |func.depends|
      requires Gathered(func, was, i, kwargs, before, configuredBefore)
      modifies this`resolved, this`resolving, this`generators, this`ran, this`configured
      ensures old(ran) <= ran && old(resolved) <= resolved && Finishing()
      ensures OnlyNeeded(fixtures, func.depends, was, before, resolved)
      ensures CONFIG in before || CONFIG !in resolved ==> configured == configuredBefore
      ensures outcome.Returned? ==>
        && Valid() && resolving == old(resolving)
        && Gathered(func, was, i + 1, arguments, before, configuredBefore)
      ensures outcome.Circular? ==> LeadsToCycle(fixtures, func.depends, outcome.name)
      ensures outcome.NotFound? ==> Unregistered(fixtures, func.depends, outcome.name)
      decreases Left(fixtures, resolving), 0, 2
    {
      ghost var mid, was' := resolved, configured;
      outcome, arguments := Provide(func, func.depends[i], kwargs);
      StillNeeded(fixtures, func.depends, was, i, before, mid, resolved);
      if outcome.Returned? {
        GatheredNext(fixtures, func, was, i, before, mid, resolved, given, configuredBefore, was', configured);
      }
    }

    /** One dependency: given, already there, loaded, left to its default, or missing. */
    method Provide(func: Function, name: Name, kwargs: set<Name>) returns (outcome: Outcome, arguments: set<Name>)
      requires Valid() && Runs(func) && name in func.depends
      requires forall n :: n in kwargs ==> n in resolved || n in given
      modifies this`resolved, this`resolving, this`generators, this`ran, this`configured
      ensures old(ran) <= ran && old(resolved) <= resolved && Finishing()
      ensures resolved == old(resolved) || (name in fixtures && name !in kwargs && name !in old(resolved) &&
        OnlyBelow(fixtures, name, old(resolved), resolved))
      ensures CONFIG in old(resolved) || CONFIG !in resolved ==> configured == old(configured)
      ensures outcome.Returned? ==>
        && Valid() && resolving == old(resolving)
        && IsMet(fixtures, func, name, resolved, given)
        && arguments == kwargs + (if name in fixtures then {name} else {})
        && (forall n :: n in arguments ==> n in resolved || n in given)
        && (name == CONFIG && CONFIG in fixtures && CONFIG !in kwargs ==> CONFIG in resolved)
        && (name == CONFIG && CONFIG in fixtures && CONFIG !in kwargs && CONFIG !in old(resolved) ==>
          configured == Some(kwargs))
      ensures outcome.Circular? ==> LeadsToCycle(fixtures, func.depends, outcome.name)
      ensures outcome.NotFound? ==> Unregistered(fixtures, func.depends, outcome.name)
      decreases Left(fixtures, resolving), 0, 1
    {
      arguments, outcome := kwargs, Returned;
      if name in kwargs {
      } else if name in resolved {
        arguments := kwargs + {name};
      } else if name in fixtures {
        outcome := Load(name, if name == CONFIG then kwargs else {});
        arguments := kwargs + {name};
      } else if name in func.defaults {
      } else {
        outcome := NotFound(name);
      }
    }

    /** The function itself is called with what it asked for. */
    method Execute(func: Function)
      requires Valid() && Runs(func) && Met(fixtures, func, ran, given)
      modifies this`ran
      ensures old(ran) <= ran && Met(fixtures, func, ran, given)
      ensures if resolving == [] then Valid() else Returns(resolving[|resolving| - 1])
    {
      if resolving != [] {
        RunNext(fixtures, ran, given, resolving[|resolving| - 1]);
        ran := ran + [resolving[|resolving| - 1]];
      }
    }

    /** The fixture at the end of the chain has just run and everything else that ran is recorded. */
    ghost predicate Returns(name: Name)
      reads this
    {
      && InOrder(fixtures, ran, given) && ran != [] && ran[|ran| - 1] == name
      && (forall n :: n in resolved <==> n in ran[..|ran| - 1])
      && Chain(fixtures, resolving, resolved) && Finishing()
    }

    /**
     * The outermost call. Without arguments from outside and with every dependency registered, it reports a
     * circular dependency exactly if a cycle can be reached; sharing a dependency is none. Only fixtures run that are
     * needed for a dependency not given from outside, and these arguments reach the configuration exactly where it is
     * loaded for the function itself.
     */
    method Resolve(func: Function, kwargs: set<Name>) returns (outcome: Outcome)
      requires Valid() && resolving == []
      modifies this
      ensures old(ran) <= ran && given == old(given) + kwargs && Finishing()
      ensures OnlyNeeded(fixtures, func.depends, kwargs, old(resolved), resolved)
      ensures outcome.Returned? && CONFIG !in old(resolved) ==>
        ConfiguredFirst(fixtures, func.depends, kwargs, |func.depends|, configured)
      ensures outcome.Returned? ==> Valid() && resolving == [] && Met(fixtures, func, ran, given)
      ensures outcome.Circular? ==> LeadsToCycle(fixtures, func.depends, outcome.name)
      ensures given == {} && AllRegistered(fixtures, func.depends) ==>
        (outcome.Circular? <==> exists name :: LeadsToCycle(fixtures, func.depends, name))
        && (outcome.Returned? <==> !outcome.Circular?)
    {
      MoreGiven(fixtures, ran, given, kwargs);
      given := given + kwargs;
      outcome := Call(func, kwargs);
      if outcome.Returned? && given == {} && AllRegistered(fixtures, func.depends) {
        ReturnsWithoutCycle(fixtures, func, ran);
      }
    }

    /** The branch that loads a fixture, with `resolving` as the chain of fixtures under way. */
    method Load(name: Name, kwargs: set<Name>) returns (outcome: Outcome)
      requires Valid() && name in fixtures && name !in resolved
      requires resolving != [] ==> name in fixtures[resolving[|resolving| - 1]].depends
      requires forall n :: n in kwargs ==> n in resolved || n in given
      modifies this`resolved, this`resolving, this`generators, this`ran, this`configured
      ensures old(ran) <= ran && old(resolved) <= resolved && Finishing()
      ensures OnlyBelow(fixtures, name, old(resolved), resolved)
      ensures CONFIG in old(resolved) || CONFIG !in resolved ==> configured == old(configured)
      ensures outcome.Returned? && name == CONFIG ==> configured == Some(kwargs)
      ensures outcome.Returned? ==> Valid() && resolving == old(resolving) && name in resolved
      ensures outcome.Circular? ==>
        Reaches(Needs(fixtures), name, outcome.name) && OnCycle(Needs(fixtures), outcome.name)
      ensures outcome.NotFound? ==> Unregistered(fixtures, [], outcome.name)
      decreases Left(fixtures, resolving), 0, 0
    {
      ghost var chain := resolving;
      if name in resolving {
        ChainCloses(fixtures, resolving, name);
        ReachesSelf(Needs(fixtures), name);
        return Circular(name);
      }
      ChainGrows(fixtures, chain, resolved, name);
      resolving := resolving + [name];
      outcome := Call(fixtures[name], kwargs);
      NeededIsBelow(fixtures, name, kwargs, old(resolved), resolved);
      if outcome.Circular? {
        CycleBehind(fixtures, name, outcome.name);
      }
      if !outcome.Returned? {
        return;
      }
      Record(name);
      if name == CONFIG {
        configured := Some(kwargs);
      }
    }

    /** After a fixture has returned: it leaves the chain, whose end it always is, and its value is kept. */
    method Record(name: Name)
      requires Returns(name) && resolving != [] && resolving[|resolving| - 1] == name && name in fixtures
      modifies this`resolved, this`resolving, this`generators
      ensures Valid() && resolving == old(resolving)[..|old(resolving)| - 1] && resolved == old(resolved) + {name}
    {
      ChainShrinks(fixtures, resolving, resolved);
      RanLast(ran, resolved);
      var popped := resolving[|resolving| - 1];
      resolving := resolving[..|resolving| - 1];
      assert popped == name;
      if fixtures[name].generator {
        generators := generators + {name};
      }
      resolved := resolved + {name};
    }
  }

  lemma ChainGrows(fixtures: Registry, chain: seq<Name>, resolved: set<Name>, name: Name)
    requires Chain(fixtures, chain, resolved) && name in fixtures && name !in chain && name !in resolved
    requires chain != [] ==> name in fixtures[chain[|chain| - 1]].depends
    ensures Chain(fixtures, chain + [name], resolved)
    ensures Left(fixtures, chain + [name]) < Left(fixtures, chain)
    ensures (chain + [name])[..|chain|] == chain
  {
    assert name in Left(fixtures, chain) && name !in Left(fixtures, chain + [name]);
  }

  lemma CycleBehind(fixtures: Registry, name: Name, c: Name)
    requires name in fixtures && LeadsToCycle(fixtures, fixtures[name].depends, c)
    ensures Reaches(Needs(fixtures), name, c) && OnCycle(Needs(fixtures), c)
  {
    var d :|
      && d in fixtures[name].depends && d in fixtures
      && Reaches(Needs(fixtures), d, c) && OnCycle(Needs(fixtures), c);
    EdgeThenReaches(Needs(fixtures), name, d, c);
  }
}
