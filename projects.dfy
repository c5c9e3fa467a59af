/**
 * The code-model backend's project registry: a vector of projects keyed by
 * project file path, with upsert, batch removal reporting every path it
 * could not remove, and linear lookups.
 */
module CodeModelBackEnd {

  import opened Wrappers

  /** What the IPC layer delivers for one project: its file path and arguments. */
  datatype ProjectContainer = ProjectContainer(filePath: string, arguments: seq<string>)

  /** One registered project. */
  datatype Project = Project(filePath: string, arguments: seq<string>)

  /** `ProjectDoesNotExistException`, carrying the paths that matched nothing. */
  datatype ProjectDoesNotExist = ProjectDoesNotExist(filePaths: multiset<string>)

  /** The outcome of an operation that may throw ProjectDoesNotExist. */
  datatype Outcome = Pass | Fail(error: ProjectDoesNotExist)

  datatype Result<T> = Ok(value: T) | Err(error: ProjectDoesNotExist)

  /** Some project in `ps` has file path `path`. */
  predicate HasPath(ps: seq<Project>, path: string) {
    exists i :: 0 <= i < |ps| && ps[i].filePath == path
  }

  /** The registry invariant: no two projects share a file path. */
  predicate UniquePaths(ps: seq<Project>) {
    forall i, j :: 0 <= i < j < |ps| ==> ps[i].filePath != ps[j].filePath
  }

  /** The file paths of the registered projects. */
  function Paths(ps: seq<Project>): set<string> {
    set i | 0 <= i < |ps| :: ps[i].filePath
  }

  /**
   * `findProject`: the index of the first project with file path `path`,
   * or `|ps|` (the end iterator) when there is none.
   */
  function FindProject(ps: seq<Project>, path: string): (i: nat)
    ensures i <= |ps|
    ensures i < |ps| ==> ps[i].filePath == path
    ensures forall j :: 0 <= j < i ==> ps[j].filePath != path
    ensures i == |ps| <==> !HasPath(ps, path)
  {
    if ps == [] then 0
    else if ps[0].filePath == path then 0
    else 1 + FindProject(ps[1..], path)
  }

  /** FindProject is the first matching index, or the end. */
  lemma FindProjectIsFirst(ps: seq<Project>, path: string, i: nat)
    requires i <= |ps| && (i < |ps| ==> ps[i].filePath == path)
    requires forall j :: 0 <= j < i ==> ps[j].filePath != path
    ensures i == FindProject(ps, path)
  {
  }

  /** The arguments of the first project with file path `path`, if any. */
  function ArgumentsOf(ps: seq<Project>, path: string): Option<seq<string>> {
    var i := FindProject(ps, path);
    if i < |ps| then Some(ps[i].arguments) else None
  }

  /** `createOrUpdateProject` on the vector's value. */
  function Upsert(ps: seq<Project>, c: ProjectContainer): seq<Project> {
    var i := FindProject(ps, c.filePath);
    if i == |ps| then ps + [Project(c.filePath, c.arguments)]
    else ps[i := ps[i].(arguments := c.arguments)]
  }

  /** `createOrUpdate`: the containers applied one after another, in order. */
  function UpsertAll(ps: seq<Project>, cs: seq<ProjectContainer>): seq<Project>
  {
    if cs == [] then ps else Upsert(UpsertAll(ps, cs[..|cs| - 1]), cs[|cs| - 1])
  }

  /** The arguments of the last container in `cs` with file path `path`. */
  function LastArguments(cs: seq<ProjectContainer>, path: string): Option<seq<string>> {
    if cs == [] then None
    else if cs[|cs| - 1].filePath == path then Some(cs[|cs| - 1].arguments)
    else LastArguments(cs[..|cs| - 1], path)
  }

  /** The file paths named by the containers. */
  function ContainerPaths(cs: seq<ProjectContainer>): set<string> {
    set i | 0 <= i < |cs| :: cs[i].filePath
  }

  /** A path not yet registered is appended, with the container's arguments. */
  lemma UpsertAppendsNew(ps: seq<Project>, c: ProjectContainer)
    requires !HasPath(ps, c.filePath)
    ensures Upsert(ps, c) == ps + [Project(c.filePath, c.arguments)]
  {
  }

  /**
   * A registered path keeps its place and path; only its arguments are
   * replaced, and the size is unchanged.
   */
  lemma UpsertReplacesExisting(ps: seq<Project>, c: ProjectContainer, k: nat)
    requires UniquePaths(ps)
    requires k < |ps| && ps[k].filePath == c.filePath
    ensures Upsert(ps, c) == ps[k := Project(c.filePath, c.arguments)]
    ensures |Upsert(ps, c)| == |ps|
  {
    assert FindProject(ps, c.filePath) == k;
  }

  /** Upsert keeps at most one project per file path. */
  lemma UpsertKeepsUnique(ps: seq<Project>, c: ProjectContainer)
    requires UniquePaths(ps)
    ensures UniquePaths(Upsert(ps, c))
    ensures Paths(Upsert(ps, c)) == Paths(ps) + {c.filePath}
  {
    var r := Upsert(ps, c);
    var i := FindProject(ps, c.filePath);
    if i == |ps| {
      assert forall j :: 0 <= j < |ps| ==> r[j] == ps[j];
      assert r[|ps|].filePath == c.filePath;
    } else {
      assert forall j :: 0 <= j < |ps| ==> r[j].filePath == ps[j].filePath;
    }
  }

  /**
   * Looking a path up after an upsert: the container's path now yields the
   * container's arguments, every other path what it yielded before.
   */
  lemma UpsertLookup(ps: seq<Project>, c: ProjectContainer, path: string)
    ensures ArgumentsOf(Upsert(ps, c), path)
         == if path == c.filePath then Some(c.arguments) else ArgumentsOf(ps, path)
  {
    var r := Upsert(ps, c);
    var i := FindProject(ps, c.filePath);
    var f := FindProject(ps, path);
    assert forall j :: 0 <= j < |ps| ==> r[j].filePath == ps[j].filePath;
    if path == c.filePath {
      FindProjectIsFirst(r, path, i);
    } else if f < |ps| {
      FindProjectIsFirst(r, path, f);
    } else {
      assert !HasPath(r, path);
    }
  }

  /**
   * After `createOrUpdate`, a path named by some container yields the
   * arguments of the LAST such container; other paths are untouched.
   */
  lemma {:induction false} UpsertAllLookup(ps: seq<Project>, cs: seq<ProjectContainer>, path: string)
    ensures ArgumentsOf(UpsertAll(ps, cs), path)
         == if LastArguments(cs, path).Some? then LastArguments(cs, path) else ArgumentsOf(ps, path)
  {
    if cs != [] {
      UpsertAllLookup(ps, cs[..|cs| - 1], path);
      UpsertLookup(UpsertAll(ps, cs[..|cs| - 1]), cs[|cs| - 1], path);
    }
  }

  /** `createOrUpdate` keeps the paths unique and adds exactly the new ones. */
  lemma {:induction false} UpsertAllKeepsUnique(ps: seq<Project>, cs: seq<ProjectContainer>)
    requires UniquePaths(ps)
    ensures UniquePaths(UpsertAll(ps, cs))
    ensures Paths(UpsertAll(ps, cs)) == Paths(ps) + ContainerPaths(cs)
  {
    if cs != [] {
      var init := cs[..|cs| - 1];
      UpsertAllKeepsUnique(ps, init);
      UpsertKeepsUnique(UpsertAll(ps, init), cs[|cs| - 1]);
      assert ContainerPaths(cs) == ContainerPaths(init) + {cs[|cs| - 1].filePath} by {
        forall p | p in ContainerPaths(cs) ensures p in ContainerPaths(init) + {cs[|cs| - 1].filePath} {
          var k :| 0 <= k < |cs| && cs[k].filePath == p;
          if k < |cs| - 1 { assert init[k] == cs[k]; }
        }
        forall p | p in ContainerPaths(init) ensures p in ContainerPaths(cs) {
          var k :| 0 <= k < |init| && init[k].filePath == p;
          assert cs[k] == init[k];
        }
      }
    }
  }

  lemma PathsSnoc(ps: seq<Project>)
    requires ps != []
    ensures Paths(ps) == Paths(ps[..|ps| - 1]) + {ps[|ps| - 1].filePath}
  {
    var init, last := ps[..|ps| - 1], ps[|ps| - 1].filePath;
    forall p | p in Paths(ps) ensures p in Paths(init) + {last} {
      var k :| 0 <= k < |ps| && ps[k].filePath == p;
      if k < |ps| - 1 { assert init[k] == ps[k]; }
    }
    forall p | p in Paths(init) ensures p in Paths(ps) {
      var k :| 0 <= k < |init| && init[k].filePath == p;
      assert ps[k] == init[k];
    }
  }

  /** With unique paths, the registry holds one project per path. */
  lemma {:induction false} UniqueSize(ps: seq<Project>)
    requires UniquePaths(ps)
    ensures |Paths(ps)| == |ps|
  {
    if ps != [] {
      var init := ps[..|ps| - 1];
      UniqueSize(init);
      var last := ps[|ps| - 1].filePath;
      PathsSnoc(ps);
      assert last !in Paths(init);
    }
  }

  /**
   * The size after `createOrUpdate`: the old size plus the number of
   * distinct container paths that were not registered yet.
   */
  lemma UpsertAllSize(ps: seq<Project>, cs: seq<ProjectContainer>)
    requires UniquePaths(ps)
    ensures |UpsertAll(ps, cs)| == |ps| + |ContainerPaths(cs) - Paths(ps)|
  {
    UpsertAllKeepsUnique(ps, cs);
    UniqueSize(ps);
    UniqueSize(UpsertAll(ps, cs));
    var a, b := Paths(ps), ContainerPaths(cs);
    assert a + b == a + (b - a);
    assert a !! (b - a);
  }

  /**
   * The scan `remove` performs with `std::remove_if`: projects are visited
   * first to last; a project is dropped when `removeFast` finds (and
   * consumes) one occurrence of its path in the working copy `pending`.
   * Gives the kept projects, in order, and what is left of the request.
   */
  function RemoveScan(ps: seq<Project>, request: multiset<string>): (r: (seq<Project>, multiset<string>))
  {
    if ps == [] then ([], request)
    else
      var (kept, pending) := RemoveScan(ps[..|ps| - 1], request);
      var p := ps[|ps| - 1];
      if p.filePath in pending then (kept, pending - multiset{p.filePath})
      else (kept + [p], pending)
  }

  /** The projects of `ps` whose path is not in `request`, in their order. */
  function KeepUnrequested(ps: seq<Project>, request: multiset<string>): seq<Project> {
    if ps == [] then []
    else if ps[|ps| - 1].filePath in request then KeepUnrequested(ps[..|ps| - 1], request)
    else KeepUnrequested(ps[..|ps| - 1], request) + [ps[|ps| - 1]]
  }

  /** The request less one occurrence of every registered path it names. */
  function Unmatched(ps: seq<Project>, request: multiset<string>): multiset<string> {
    request - multiset(Paths(ps))
  }

  /**
   * Every removal consumes exactly one requested path: the kept projects
   * and the consumed occurrences add up to the registry.
   */
  lemma {:induction false} RemoveScanConserves(ps: seq<Project>, request: multiset<string>)
    ensures RemoveScan(ps, request).1 <= request
    ensures |RemoveScan(ps, request).0| + (|request| - |RemoveScan(ps, request).1|) == |ps|
  {
    if ps != [] {
      RemoveScanConserves(ps[..|ps| - 1], request);
    }
  }

  /**
   * On a registry with unique paths, `remove` keeps exactly the projects
   * whose path was not requested, in their original order, and what is
   * left of the request is the request less one occurrence of each
   * registered path.
   */
  lemma {:induction false} RemoveScanUnique(ps: seq<Project>, request: multiset<string>)
    requires UniquePaths(ps)
    ensures RemoveScan(ps, request).0 == KeepUnrequested(ps, request)
    ensures RemoveScan(ps, request).1 == Unmatched(ps, request)
  {
    if ps != [] {
      var init := ps[..|ps| - 1];
      var last := ps[|ps| - 1].filePath;
      assert UniquePaths(init);
      RemoveScanUnique(init, request);
      PathsSnoc(ps);
      assert last !in Paths(init);
      UnmatchedStep(Paths(init), last, request);
    }
  }

  /** Consuming a newly seen path from what is left of the request. */
  lemma UnmatchedStep(seen: set<string>, last: string, request: multiset<string>)
    requires last !in seen
    ensures var pending := request - multiset(seen);
      (last in pending <==> last in request)
      && (last in request ==> pending - multiset{last} == request - multiset(seen + {last}))
      && (last !in request ==> pending == request - multiset(seen + {last}))
  {
    var pending := request - multiset(seen);
    assert multiset(seen + {last}) == multiset(seen) + multiset{last};
    assert pending[last] == request[last];
  }

  /** The kept projects are those of `ps` whose path was not requested. */
  lemma {:induction false} KeepUnrequestedMembers(ps: seq<Project>, request: multiset<string>, p: Project)
    ensures p in KeepUnrequested(ps, request) <==> p in ps && p.filePath !in request
  {
    if ps != [] {
      KeepUnrequestedMembers(ps[..|ps| - 1], request, p);
      assert ps == ps[..|ps| - 1] + [ps[|ps| - 1]];
    }
  }

  /** Removal keeps the registry invariant. */
  lemma {:induction false} KeepUnrequestedUnique(ps: seq<Project>, request: multiset<string>)
    requires UniquePaths(ps)
    ensures UniquePaths(KeepUnrequested(ps, request))
  {
    if ps != [] {
      var init := ps[..|ps| - 1];
      assert UniquePaths(init);
      KeepUnrequestedUnique(init, request);
      var k := KeepUnrequested(init, request);
      forall q | q in k ensures q.filePath != ps[|ps| - 1].filePath {
        KeepUnrequestedMembers(init, request, q);
      }
    }
  }

  /**
   * On a registry with unique paths, `remove` throws exactly when some
   * requested path is not registered or is requested more than once.
   */
  lemma RemoveFailsIff(ps: seq<Project>, request: multiset<string>)
    requires UniquePaths(ps)
    ensures RemoveScan(ps, request).1 == multiset{}
        <==> forall p :: p in request ==> p in Paths(ps) && request[p] == 1
  {
    RemoveScanUnique(ps, request);
    var left := Unmatched(ps, request);
    if left == multiset{} {
      forall p | p in request ensures p in Paths(ps) && request[p] == 1 {
        assert left[p] == 0;
      }
    } else {
      var p :| p in left;
      assert p in request;
    }
  }

  /** An empty request removes nothing and leaves nothing unmatched. */
  lemma {:induction false} RemoveEmptyRequest(ps: seq<Project>)
    ensures RemoveScan(ps, multiset{}) == (ps, multiset{})
  {
    if ps != [] {
      RemoveEmptyRequest(ps[..|ps| - 1]);
      assert ps[..|ps| - 1] + [ps[|ps| - 1]] == ps;
    }
  }

  /** The registry of the code-model backend. */
  class Projects {
    var projects: seq<Project>

    ghost predicate Valid()
      reads this
    {
      UniquePaths(projects)
    }

    constructor ()
      ensures Valid() && projects == []
    {
      projects := [];
    }

    /** `createOrUpdateProject`: upsert one container. */
    method CreateOrUpdateProject(c: ProjectContainer)
      requires Valid()
      modifies this
      ensures Valid()
      ensures projects == Upsert(old(projects), c)
    {
      UpsertKeepsUnique(projects, c);
      var i := FindIndex(c.filePath);
      if i == |projects| {
        projects := projects + [Project(c.filePath, c.arguments)];
      } else {
        projects := projects[i := projects[i].(arguments := c.arguments)];
      }
    }

    /** `createOrUpdate`: upsert the containers in input order. */
    method CreateOrUpdate(cs: seq<ProjectContainer>)
      requires Valid()
      modifies this
      ensures Valid()
      ensures projects == UpsertAll(old(projects), cs)
    {
      var i := 0;
      while i < |cs|
        invariant 0 <= i <= |cs|
        invariant Valid()
        invariant projects == UpsertAll(old(projects), cs[..i])
      {
        assert cs[..i + 1][..i] == cs[..i];
        CreateOrUpdateProject(cs[i]);
        i := i + 1;
      }
      assert cs[..|cs|] == cs;
    }

    /**
     * `remove`: drops every project whose path is consumed from the
     * working copy of the request, then throws with whatever is left.
     * The removals stand even when it throws.
     */
    method Remove(paths: seq<string>) returns (outcome: Outcome)
      requires Valid()
      modifies this
      ensures Valid()
      ensures projects == RemoveScan(old(projects), multiset(paths)).0
      ensures var left := RemoveScan(old(projects), multiset(paths)).1;
              outcome == if left == multiset{} then Pass else Fail(ProjectDoesNotExist(left))
    {
      var ps := projects;
      var pending := multiset(paths);
      var kept: seq<Project> := [];
      var i := 0;
      while i < |ps|
        invariant 0 <= i <= |ps|
        invariant (kept, pending) == RemoveScan(ps[..i], multiset(paths))
      {
        assert ps[..i + 1][..i] == ps[..i];
        var found;
        pending, found := RemoveFast(pending, ps[i].filePath);
        if !found {
          kept := kept + [ps[i]];
        }
        i := i + 1;
      }
      assert ps[..|ps|] == ps;
      RemoveScanUnique(ps, multiset(paths));
      KeepUnrequestedUnique(ps, multiset(paths));
      projects := kept;
      outcome := if pending == multiset{} then Pass else Fail(ProjectDoesNotExist(pending));
    }

    /** `hasProject`: some registered project has this path. */
    function HasProject(path: string): (b: bool)
      reads this
      ensures b <==> HasPath(projects, path)
    {
      FindProject(projects, path) < |projects|
    }

    /**
     * `project`: the first project with this path, or ProjectDoesNotExist
     * carrying just that path.
     */
    function ProjectNamed(path: string): (r: Result<Project>)
      reads this
      ensures r.Ok? <==> HasPath(projects, path)
      ensures r.Ok? ==> r.value.filePath == path && r.value in projects
      ensures r.Ok? ==> exists i :: 0 <= i < |projects| && projects[i] == r.value
                                    && forall j :: 0 <= j < i ==> projects[j].filePath != path
      ensures r.Err? ==> r.error == ProjectDoesNotExist(multiset{path})
    {
      var i := FindProject(projects, path);
      if i == |projects| then Err(ProjectDoesNotExist(multiset{path})) else Ok(projects[i])
    }

    /** `findProject`, as the index of the first match or the end. */
    method FindIndex(path: string) returns (i: nat)
      ensures i == FindProject(projects, path)
    {
      i := 0;
      while i < |projects| && projects[i].filePath != path
        invariant i <= |projects|
        invariant forall j :: 0 <= j < i ==> projects[j].filePath != path
      {
        i := i + 1;
      }
      FindProjectIsFirst(projects, path, i);
    }

    /** `projects`: the registered projects, one per path. */
    function AllProjects(): (r: seq<Project>)
      reads this
      requires Valid()
      ensures UniquePaths(r) && |r| == |Paths(r)|
    {
      UniqueSize(projects);
      projects
    }
  }

  /**
   * `Utf8StringVector::removeFast`: removes one occurrence of `x` and says
   * whether there was one.
   */
  method RemoveFast(pending: multiset<string>, x: string) returns (rest: multiset<string>, found: bool)
    ensures found <==> x in pending
    ensures rest == if found then pending - multiset{x} else pending
  {
    found := x in pending;
    rest := if found then pending - multiset{x} else pending;
  }
}
