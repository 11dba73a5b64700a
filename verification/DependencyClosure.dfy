/**
 The bundled runtime dependencies: scripts/build-release.ts, `runtimeDependenciesFromLock`, lines
 282-317. A search of the lockfile's graph with an explicit stack, which may hold names repeatedly and
 whose graph may have cycles.
 */
module DependencyClosure {
  import opened Characters
  import opened Wrappers
  import opened Ordering

  datatype Workspace = Workspace(dependencies: seq<string>, optionalDependencies: seq<string>)

  datatype Package = Package(
    resolution: string, dependencies: seq<string>, optionalDependencies: seq<string>, integrity: Option<string>)

  datatype Lockfile = Lockfile(workspaces: map<string, Workspace>, packages: map<string, Package>)

  datatype RuntimeDependency = RuntimeDependency(name: string, version: string, integrity: Option<string>)

  datatype LockError = MissingBundled(path: string) | MissingPackage(name: string) | MissingWorkspace(path: string)

  const BUNDLED_WORKSPACES := ["apps/gateway", "apps/web", "packages/collab-client"]
  const WORKSPACE_MARK := "@workspace:"
  const CHAR_RANK: char -> int := c => c as int

  /** `resolution.match(/@workspace:(.+)$/)?.[1]`: the leftmost match that runs to the end on one line. */
  function WorkspacePath(resolution: string): Option<string> {
    var n := |WORKSPACE_MARK|;
    if WORKSPACE_MARK <= resolution && |resolution| > n && (forall c :: c in resolution[n..] ==> !IsLineEnd(c))
    then Some(resolution[n..])
    else if resolution == "" then None
    else WorkspacePath(resolution[1..])
  }

  /** `resolution.slice(resolution.lastIndexOf("@") + 1)` */
  function VersionOf(resolution: string): string {
    if resolution == "" || resolution[|resolution| - 1] == '@' then ""
    else VersionOf(resolution[..|resolution| - 1]) + [resolution[|resolution| - 1]]
  }

  function Needs(w: Workspace): seq<string> { w.dependencies + w.optionalDependencies }

  /** What a name leads to, or the error its entry raises. */
  function Successors(lock: Lockfile, name: string): Result<seq<string>, LockError> {
    if name !in lock.packages then Failure(MissingPackage(name)) else
    var entry := lock.packages[name];
    match WorkspacePath(entry.resolution)
    case Some(path) =>
      if path in lock.workspaces then Success(Needs(lock.workspaces[path])) else Failure(MissingWorkspace(path))
    case None => Success(entry.dependencies + entry.optionalDependencies)
  }

  predicate IsExternal(lock: Lockfile, name: string) {
    name in lock.packages && WorkspacePath(lock.packages[name].resolution).None?
  }

  function Describe(lock: Lockfile, name: string): RuntimeDependency
    requires name in lock.packages
  {
    RuntimeDependency(name, VersionOf(lock.packages[name].resolution), lock.packages[name].integrity)
  }

  predicate Bundled(lock: Lockfile) { forall path :: path in BUNDLED_WORKSPACES ==> path in lock.workspaces }

  predicate IsRoot(lock: Lockfile, name: string) {
    exists path :: path in BUNDLED_WORKSPACES && path in lock.workspaces && name in Needs(lock.workspaces[path])
  }

  predicate LeadsTo(lock: Lockfile, name: string, next: string) {
    Successors(lock, name).Success? && next in Successors(lock, name).value
  }

  /** A chain of dependencies from a bundled workspace. */
  predicate Chain(lock: Lockfile, names: seq<string>) {
    names != [] && IsRoot(lock, names[0]) && forall i :: 0 <= i < |names| - 1 ==> LeadsTo(lock, names[i], names[i + 1])
  }

  ghost predicate Reachable(lock: Lockfile, name: string) {
    exists names :: Chain(lock, names) && names[|names| - 1] == name
  }

  lemma RootReachable(lock: Lockfile, name: string)
    requires IsRoot(lock, name)
    ensures Reachable(lock, name)
  {
    assert Chain(lock, [name]);
  }

  lemma NextReachable(lock: Lockfile, name: string, next: string)
    requires Reachable(lock, name) && LeadsTo(lock, name, next)
    ensures Reachable(lock, next)
  {
    hide IsRoot, LeadsTo;
    var names :| Chain(lock, names) && names[|names| - 1] == name;
    var longer := names + [next];
    forall i | 0 <= i < |longer| - 1
      ensures LeadsTo(lock, longer[i], longer[i + 1])
    {
      assert i < |names| - 1 ==> LeadsTo(lock, names[i], names[i + 1]);
    }
    assert Chain(lock, longer);
  }

  /** A set that holds the roots and is closed under dependencies holds every reachable name. */
  lemma {:induction false} ClosedHoldsChain(lock: Lockfile, closed: set<string>, names: seq<string>)
    requires forall name :: IsRoot(lock, name) ==> name in closed
    requires forall name, next :: name in closed && LeadsTo(lock, name, next) ==> next in closed
    requires Chain(lock, names)
    ensures names[|names| - 1] in closed
  {
    hide IsRoot, LeadsTo;
    if |names| > 1 {
      var front := names[..|names| - 1];
      forall i | 0 <= i < |front| - 1
        ensures LeadsTo(lock, front[i], front[i + 1])
      {
        assert LeadsTo(lock, names[i], names[i + 1]);
      }
      ClosedHoldsChain(lock, closed, front);
      assert LeadsTo(lock, names[|names| - 2], names[|names| - 2 + 1]);
    }
  }

  /** What the search still owes: everything known is reachable, and every lead is visited or pending. */
  ghost predicate Search(lock: Lockfile, pending: seq<string>, visited: set<string>) {
    && (forall name :: name in pending || name in visited ==> Reachable(lock, name))
    && (forall name :: IsRoot(lock, name) ==> name in visited || name in pending)
    && (forall name :: name in visited ==> Successors(lock, name).Success?)
    && (forall name, next :: name in visited && LeadsTo(lock, name, next) ==> next in visited || next in pending)
  }

  method Roots(lock: Lockfile) returns (r: Result<seq<string>, LockError>)
    ensures r.Success? <==> Bundled(lock)
    ensures r.Success? ==> forall name :: name in r.value <==> IsRoot(lock, name)
    ensures r.Failure? ==>
      exists path :: path in BUNDLED_WORKSPACES && path !in lock.workspaces && r.error == MissingBundled(path)
  {
    var pending: seq<string> := [];
    for i := 0 to |BUNDLED_WORKSPACES|
      invariant forall path :: path in BUNDLED_WORKSPACES[..i] ==> path in lock.workspaces
      invariant forall name :: name in pending <==>
        exists path :: path in BUNDLED_WORKSPACES[..i] && path in lock.workspaces && name in Needs(lock.workspaces[path])
    {
      var path := BUNDLED_WORKSPACES[i];
      assert path in BUNDLED_WORKSPACES;
      assert BUNDLED_WORKSPACES[..i + 1] == BUNDLED_WORKSPACES[..i] + [path];
      if path !in lock.workspaces { return Failure(MissingBundled(path)); }
      pending := pending + Needs(lock.workspaces[path]);
    }
    assert BUNDLED_WORKSPACES[..|BUNDLED_WORKSPACES|] == BUNDLED_WORKSPACES;
    return Success(pending);
  }

  /** One name popped off the stack and looked up. */
  lemma VisitKeepsSearch(lock: Lockfile, pending: seq<string>, visited: set<string>, more: seq<string>)
    requires pending != [] && Search(lock, pending, visited)
    requires Successors(lock, pending[|pending| - 1]) == Success(more)
    ensures Search(lock, pending[..|pending| - 1] + more, visited + {pending[|pending| - 1]})
  {
    hide IsRoot, Successors, Reachable;
    var name, rest := pending[|pending| - 1], pending[..|pending| - 1];
    assert pending == rest + [name];
    forall next | next in more
      ensures Reachable(lock, next)
    {
      NextReachable(lock, name, next);
    }
  }

  lemma SkipKeepsSearch(lock: Lockfile, pending: seq<string>, visited: set<string>)
    requires pending != [] && Search(lock, pending, visited) && pending[|pending| - 1] in visited
    ensures Search(lock, pending[..|pending| - 1], visited)
  {
    hide IsRoot, Successors, Reachable, LeadsTo;
    assert pending == pending[..|pending| - 1] + [pending[|pending| - 1]];
  }

  /** When the stack is empty, exactly the reachable names were visited. */
  lemma SearchEnds(lock: Lockfile, visited: set<string>)
    requires Search(lock, [], visited)
    ensures forall name :: name in visited <==> Reachable(lock, name)
  {
    hide IsRoot, Successors, LeadsTo;
    forall name | Reachable(lock, name)
      ensures name in visited
    {
      var names :| Chain(lock, names) && names[|names| - 1] == name;
      ClosedHoldsChain(lock, visited, names);
    }
  }

  /** The search itself: every reachable name is visited once, whatever the cycles, or the first failing entry is reported. */
  method Visit(lock: Lockfile, roots: seq<string>) returns (r: Result<map<string, RuntimeDependency>, LockError>)
    requires forall name :: name in roots <==> IsRoot(lock, name)
    ensures r.Success? <==> forall name :: Reachable(lock, name) ==> Successors(lock, name).Success?
    ensures r.Failure? ==> exists name :: Reachable(lock, name) && Successors(lock, name) == Failure(r.error)
    ensures r.Success? ==> forall name :: name in r.value <==> Reachable(lock, name) && IsExternal(lock, name)
    ensures r.Success? ==> forall name :: name in r.value ==> name in lock.packages && r.value[name] == Describe(lock, name)
  {
    var pending, visited: set<string>, dependencies: map<string, RuntimeDependency> := roots, {}, map[];
    forall name | name in roots
      ensures Reachable(lock, name)
    {
      RootReachable(lock, name);
    }
    hide Reachable, IsRoot, WorkspacePath, VersionOf;
    while pending != []
      invariant Search(lock, pending, visited) && visited <= lock.packages.Keys
      invariant forall name :: name in dependencies <==> name in visited && IsExternal(lock, name)
      invariant forall name :: name in dependencies ==> name in lock.packages && dependencies[name] == Describe(lock, name)
      decreases lock.packages.Keys - visited, |pending|
    {
      var name := pending[|pending| - 1];
      if name in visited {
        SkipKeepsSearch(lock, pending, visited);
        pending := pending[..|pending| - 1];
        continue;
      }
      var more := Successors(lock, name);
      if more.Failure? {
        assert name in pending;
        return Failure(more.error);
      }
      VisitKeepsSearch(lock, pending, visited, more.value);
      pending := pending[..|pending| - 1] + more.value;
      visited := visited + {name};
      if WorkspacePath(lock.packages[name].resolution).None? {
        dependencies := dependencies[name := Describe(lock, name)];
      }
    }
    SearchEnds(lock, visited);
    return Success(dependencies);
  }

  predicate Sorted(dependencies: seq<RuntimeDependency>) {
    Ascending(seq(|dependencies|, i requires 0 <= i < |dependencies| => dependencies[i].name), CHAR_RANK)
  }

  /**
   On success the result is exactly the external packages reachable from the bundled workspaces, each once
   and in ascending name order; it fails exactly when a bundled workspace or a reachable entry is missing.
   */
  method RuntimeDependenciesFromLock(lock: Lockfile) returns (r: Result<seq<RuntimeDependency>, LockError>)
    ensures r.Success? <==> Bundled(lock) && forall name :: Reachable(lock, name) ==> Successors(lock, name).Success?
    ensures r.Failure? ==>
      || (exists path :: path in BUNDLED_WORKSPACES && path !in lock.workspaces && r.error == MissingBundled(path))
      || (exists name :: Reachable(lock, name) && Successors(lock, name) == Failure(r.error))
    ensures r.Success? ==> Sorted(r.value)
    ensures r.Success? ==> forall d :: d in r.value <==>
      Reachable(lock, d.name) && IsExternal(lock, d.name) && d == Describe(lock, d.name)
  {
    var roots := Roots(lock);
    if roots.Failure? { return Failure(roots.error); }
    hide Successors, IsRoot, Reachable, IsExternal, Describe;
    var found := Visit(lock, roots.value);
    if found.Failure? { return Failure(found.error); }
    var dependencies := found.value;
    var names := Sort(dependencies.Keys, CHAR_RANK);
    var list: seq<RuntimeDependency> := [];
    for i := 0 to |names|
      invariant |list| == i && forall k :: 0 <= k < i ==> names[k] in dependencies && list[k] == dependencies[names[k]]
    {
      assert names[i] in names;
      list := list + [dependencies[names[i]]];
    }
    ListDescribes(lock, names, dependencies, list);
    return Success(list);
  }

  lemma ListDescribes(lock: Lockfile, names: seq<string>, dependencies: map<string, RuntimeDependency>,
                      list: seq<RuntimeDependency>)
    requires forall name :: name in dependencies ==> name in lock.packages && dependencies[name] == Describe(lock, name)
    requires Ascending(names, CHAR_RANK) && (forall name :: name in names <==> name in dependencies)
    requires |list| == |names| && forall k :: 0 <= k < |names| ==> names[k] in dependencies && list[k] == dependencies[names[k]]
    ensures Sorted(list)
    ensures forall d :: d in list <==> d.name in dependencies && d == dependencies[d.name]
  {
    hide VersionOf;
    assert forall k :: 0 <= k < |list| ==> list[k].name == names[k];
    assert seq(|list|, i requires 0 <= i < |list| => list[i].name) == names;
    forall d: RuntimeDependency | d.name in dependencies && d == dependencies[d.name]
      ensures d in list
    {
      var k :| 0 <= k < |names| && names[k] == d.name;
      assert list[k] == d;
    }
  }
}
