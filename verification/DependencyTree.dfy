/** copyDependencyTree and its root loop in scripts/build-server.ts. */
module DependencyTree {
  import opened JsText
  import opened Wrappers

  /** node_modules as the build sees it: the packages that exist, each with the dependencies its
      package.json names, in order; None when that file is missing or malformed. */
  type Modules = map<Text, Option<seq<Text>>>

  function DependenciesOf(modules: Modules, name: Text): seq<Text> {
    if name in modules && modules[name].Some? then modules[name].value else []
  }

  /** Each package on the path depends on the next, and all but perhaps the last exist. */
  ghost predicate IsPath(modules: Modules, path: seq<Text>) {
    && path != []
    && forall i | 0 <= i < |path| - 1 :: path[i] in modules && path[i + 1] in DependenciesOf(modules, path[i])
  }

  ghost predicate Reaches(modules: Modules, from: Text, to: Text) {
    exists path :: IsPath(modules, path) && path[0] == from && path[|path| - 1] == to
  }

  ghost predicate Needed(modules: Modules, roots: set<Text>, name: Text) {
    exists root | root in roots :: Reaches(modules, root, name)
  }

  function Names(deps: seq<Text>): (s: set<Text>)
    ensures forall d :: d in s <==> d in deps
  {
    set d | d in deps
  }

  /** The packages a build needs: those that exist and that some root reaches. */
  ghost function Closure(modules: Modules, roots: set<Text>): set<Text> {
    set name | name in modules && Needed(modules, roots, name)
  }

  /** Every dependency of a package in s that exists is in s. */
  ghost predicate Closed(modules: Modules, s: set<Text>, within: set<Text>) {
    forall name | name in s && name in modules :: forall d | d in DependenciesOf(modules, name) :: d in within
  }

  lemma {:induction false} ReachesItself(modules: Modules, name: Text)
    ensures Reaches(modules, name, name)
  {
    assert IsPath(modules, [name]);
  }

  lemma {:induction false} ReachesThrough(modules: Modules, from: Text, via: Text, to: Text)
    requires from in modules && via in DependenciesOf(modules, from) && Reaches(modules, via, to)
    ensures Reaches(modules, from, to)
  {
    var path :| IsPath(modules, path) && path[0] == via && path[|path| - 1] == to;
    assert IsPath(modules, [from] + path);
  }

  lemma {:induction false} NeededThrough(modules: Modules, from: Text, to: Text)
    requires from in modules && Needed(modules, Names(DependenciesOf(modules, from)), to)
    ensures Reaches(modules, from, to)
  {
    var via :| via in Names(DependenciesOf(modules, from)) && Reaches(modules, via, to);
    ReachesThrough(modules, from, via, to);
  }

  lemma {:induction false} ReachedStaysInside(modules: Modules, s: set<Text>, from: Text, to: Text)
    requires Closed(modules, s, s) && from in s && Reaches(modules, from, to)
    ensures to in s
  {
    var path :| IsPath(modules, path) && path[0] == from && path[|path| - 1] == to;
    PathStaysInside(modules, s, path, |path| - 1);
  }

  lemma {:induction false} PathStaysInside(modules: Modules, s: set<Text>, path: seq<Text>, i: nat)
    requires Closed(modules, s, s) && IsPath(modules, path) && path[0] in s && i < |path|
    ensures path[i] in s
  {
    if i > 0 { PathStaysInside(modules, s, path, i - 1); }
  }

  /** The copied packages, in order, are exactly the existing ones among the visited, once each. */
  ghost predicate Matches(modules: Modules, visited: set<Text>, copied: seq<Text>) {
    && (forall i, j | 0 <= i < j < |copied| :: copied[i] != copied[j])
    && (forall name :: name in copied <==> name in visited && name in modules)
  }

  class Copier {
    const modules: Modules
    var visited: set<Text>
    var copied: seq<Text>

    ghost predicate Valid()
      reads this
    {
      Matches(modules, visited, copied)
    }

    constructor (modules: Modules)
      ensures Valid() && this.modules == modules && visited == {} && copied == []
    {
      this.modules, visited, copied := modules, {}, [];
    }

    /** Marks before it descends, so a cycle ends; stops at packages that do not exist. */
    method CopyDependencyTree(dep: Text)
      requires Valid()
      modifies this
      ensures Valid() && old(visited) + {dep} <= visited && old(copied) <= copied
      ensures forall name | name in visited - old(visited) :: Reaches(modules, dep, name)
      ensures Closed(modules, visited - old(visited), visited)
      decreases modules.Keys - visited, 1
    {
      ReachesItself(modules, dep);
      if dep in visited { return; }
      visited := visited + {dep};
      if dep !in modules { return; }
      copied := copied + [dep];
      ghost var marked := visited;
      CopyAll(DependenciesOf(modules, dep));
      forall name | name in visited - marked ensures Reaches(modules, dep, name) {
        NeededThrough(modules, dep, name);
      }
    }

    /** The loop over the dependencies of one package, or over the roots. */
    method CopyAll(deps: seq<Text>)
      requires Valid()
      modifies this
      ensures Valid() && old(visited) <= visited && old(copied) <= copied
      ensures forall d | d in deps :: d in visited
      ensures forall name | name in visited - old(visited) :: Needed(modules, Names(deps), name)
      ensures Closed(modules, visited - old(visited), visited)
      decreases modules.Keys - visited, 2
    {
      for i := 0 to |deps|
        invariant Valid() && old(visited) <= visited && old(copied) <= copied
        invariant forall j | 0 <= j < i :: deps[j] in visited
        invariant forall name | name in visited - old(visited) :: Needed(modules, Names(deps), name)
        invariant Closed(modules, visited - old(visited), visited)
      {
        ghost var before := visited;
        CopyDependencyTree(deps[i]);
        assert deps[i] in Names(deps);
        assert forall name | name in visited - before :: Needed(modules, Names(deps), name);
      }
    }

    /** The root loop, on a fresh visited set: it copies exactly what the roots need, once each. */
    method CopyRoots(roots: seq<Text>)
      requires Valid() && visited == {}
      modifies this
      ensures Valid()
      ensures (set name | name in copied) == Closure(modules, Names(roots))
      ensures forall i, j | 0 <= i < j < |copied| :: copied[i] != copied[j]
    {
      CopyAll(roots);
      VisitedIsClosure(modules, Names(roots), visited);
      assert forall name :: name in copied <==> name in visited && name in modules;
    }
  }

  lemma {:induction false} VisitedIsClosure(modules: Modules, roots: set<Text>, visited: set<Text>)
    requires roots <= visited && Closed(modules, visited, visited)
    requires forall name | name in visited :: Needed(modules, roots, name)
    ensures forall name :: name in Closure(modules, roots) <==> name in visited && name in modules
  {
    forall name | Needed(modules, roots, name) ensures name in visited {
      var root :| root in roots && Reaches(modules, root, name);
      ReachedStaysInside(modules, visited, root, name);
    }
  }

  /** What is needed depends neither on the order of the roots nor on repetitions: it is the least
      set of packages that holds the existing roots and the existing dependencies of its members. */
  lemma {:induction false} ClosureIsLeast(modules: Modules, roots: set<Text>, s: set<Text>)
    requires forall r | r in roots && r in modules :: r in s
    requires forall name, d | name in s && name in modules && d in DependenciesOf(modules, name) && d in modules :: d in s
    ensures Closure(modules, roots) <= s
    ensures forall r | r in roots && r in modules :: r in Closure(modules, roots)
    ensures forall name, d | name in Closure(modules, roots) && d in DependenciesOf(modules, name) && d in modules ::
              d in Closure(modules, roots)
  {
    forall name | name in modules && Needed(modules, roots, name) ensures name in s {
      var root :| root in roots && Reaches(modules, root, name);
      ReachedStaysInLeast(modules, s, root, name);
    }
    forall r | r in roots && r in modules ensures Needed(modules, roots, r) { ReachesItself(modules, r); }
    forall name, d | name in Closure(modules, roots) && d in DependenciesOf(modules, name) && d in modules
      ensures Needed(modules, roots, d)
    {
      var root :| root in roots && Reaches(modules, root, name);
      ReachesChild(modules, root, name, d);
    }
  }

  lemma {:induction false} ReachesChild(modules: Modules, from: Text, via: Text, to: Text)
    requires Reaches(modules, from, via) && via in modules && to in DependenciesOf(modules, via)
    ensures Reaches(modules, from, to)
  {
    var path :| IsPath(modules, path) && path[0] == from && path[|path| - 1] == via;
    var longer := path + [to];
    assert IsPath(modules, longer) && longer[0] == from && longer[|longer| - 1] == to;
  }

  lemma {:induction false} ReachedStaysInLeast(modules: Modules, s: set<Text>, root: Text, name: Text)
    requires root in modules ==> root in s
    requires forall n, d | n in s && n in modules && d in DependenciesOf(modules, n) && d in modules :: d in s
    requires Reaches(modules, root, name) && name in modules
    ensures name in s
  {
    var path :| IsPath(modules, path) && path[0] == root && path[|path| - 1] == name;
    ExistingPathStaysInside(modules, s, path, |path| - 1);
  }

  lemma {:induction false} ExistingPathStaysInside(modules: Modules, s: set<Text>, path: seq<Text>, i: nat)
    requires IsPath(modules, path) && i < |path| && path[i] in modules
    requires path[0] in modules ==> path[0] in s
    requires forall name, d | name in s && name in modules && d in DependenciesOf(modules, name) && d in modules :: d in s
    ensures path[i] in s
  {
    if i > 0 { ExistingPathStaysInside(modules, s, path, i - 1); }
  }
}
