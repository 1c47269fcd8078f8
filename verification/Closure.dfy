/** The two dependency closures of the packaging scripts: crates linked into the binary, marked when
    pushed, and Python packages needed at run time, marked when popped. */
module Closure {
  type Id = string

  datatype Result<+T> = Ok(value: T) | Err

  // ---------------------------------------------------------------- reachability

  /** A walk along the edges of `next`, from one of the starts to `x`. */
  predicate Walk(next: map<Id, seq<Id>>, starts: seq<Id>, path: seq<Id>, x: Id) {
    && path != [] && path[0] in starts && path[|path| - 1] == x
    && forall i :: 0 <= i < |path| - 1 ==> path[i] in next && path[i + 1] in next[path[i]]
  }

  ghost predicate Reaches(next: map<Id, seq<Id>>, starts: seq<Id>, x: Id) {
    exists path :: Walk(next, starts, path, x)
  }

  lemma ReachesStart(next: map<Id, seq<Id>>, starts: seq<Id>, x: Id)
    requires x in starts
    ensures Reaches(next, starts, x)
  {
    assert Walk(next, starts, [x], x);
  }

  lemma ReachesStep(next: map<Id, seq<Id>>, starts: seq<Id>, x: Id, y: Id)
    requires Reaches(next, starts, x) && x in next && y in next[x]
    ensures Reaches(next, starts, y)
  {
    var path :| Walk(next, starts, path, x);
    assert Walk(next, starts, path + [y], y);
  }

  /** A set that holds the starts and is closed under the edges holds everything reachable. */
  lemma {:induction false} ClosedHoldsWalk(next: map<Id, seq<Id>>, starts: seq<Id>, closed: set<Id>, path: seq<Id>, x: Id)
    requires Walk(next, starts, path, x)
    requires forall s :: s in starts ==> s in closed
    requires forall y, z :: y in closed && y in next && z in next[y] ==> z in closed
    ensures x in closed
    decreases |path|
  {
    if |path| > 1 {
      var n := |path| - 1;
      assert Walk(next, starts, path[..n], path[n - 1]);
      ClosedHoldsWalk(next, starts, closed, path[..n], path[n - 1]);
      assert path[n - 1 + 1] in next[path[n - 1]];
    }
  }

  lemma ClosedHoldsReachable(next: map<Id, seq<Id>>, starts: seq<Id>, closed: set<Id>)
    requires forall s :: s in starts ==> s in closed
    requires forall y, z :: y in closed && y in next && z in next[y] ==> z in closed
    ensures forall x :: Reaches(next, starts, x) ==> x in closed
  {
    forall x | Reaches(next, starts, x) ensures x in closed {
      var path :| Walk(next, starts, path, x);
      ClosedHoldsWalk(next, starts, closed, path, x);
    }
  }

  // ---------------------------------------------------------------- crates linked into the binary

  datatype Dependency = Dependency(pkg: Id, linked: bool)

  /** Cargo's metadata: which packages are proc-macros, and each node's dependencies. */
  datatype Metadata = Metadata(procMacro: map<Id, bool>, nodes: map<Id, seq<Dependency>>, root: Id)

  /** The linked dependencies that are not proc-macros. */
  function LinkedOf(m: Metadata, deps: seq<Dependency>): seq<Id> {
    if deps == [] then []
    else
      var last := deps[|deps| - 1];
      LinkedOf(m, deps[..|deps| - 1])
      + if last.linked && last.pkg in m.procMacro && !m.procMacro[last.pkg] then [last.pkg] else []
  }

  function LinkedGraph(m: Metadata): map<Id, seq<Id>> {
    map x | x in m.nodes :: LinkedOf(m, m.nodes[x])
  }

  function RootDeps(m: Metadata): seq<Id> {
    if m.root in m.nodes then LinkedOf(m, m.nodes[m.root]) else []
  }

  /** The node and every linked package it names are described in the metadata. */
  predicate Described(m: Metadata, x: Id) {
    x in m.nodes && forall d :: d in m.nodes[x] && d.linked ==> d.pkg in m.procMacro
  }

  /** The root and every crate reached from it are described. */
  ghost predicate NothingDangles(m: Metadata) {
    Described(m, m.root) && forall x :: Reaches(LinkedGraph(m), RootDeps(m), x) ==> Described(m, x)
  }

  lemma {:induction false} LinkedOfExact(m: Metadata, deps: seq<Dependency>)
    ensures forall x :: x in LinkedOf(m, deps) <==>
              exists d :: d in deps && d.linked && d.pkg == x && x in m.procMacro && !m.procMacro[x]
  {
    if deps != [] {
      var front, last := deps[..|deps| - 1], deps[|deps| - 1];
      assert deps == front + [last];
      LinkedOfExact(m, front);
      forall x | x in LinkedOf(m, deps)
        ensures exists d :: d in deps && d.linked && d.pkg == x && x in m.procMacro && !m.procMacro[x]
      {
        if x !in LinkedOf(m, front) {
          assert last in deps && last.pkg == x;
        }
      }
    }
  }

  /** Everything pushed so far comes from the root, and what was expanded is closed. */
  ghost predicate CrateInv(m: Metadata, seen: set<Id>, pending: seq<Id>, expanded: set<Id>) {
    && (forall x :: x in seen ==> Reaches(LinkedGraph(m), RootDeps(m), x) && x in m.procMacro)
    && (forall x :: x in pending ==> x == m.root || x in seen)
    && (forall x :: x == m.root || x in seen ==> x in pending || x in expanded)
    && (forall x :: x in expanded ==> Described(m, x) && forall y :: y in LinkedOf(m, m.nodes[x]) ==> y in seen)
  }

  lemma CratesComplete(m: Metadata, seen: set<Id>, expanded: set<Id>)
    requires CrateInv(m, seen, [], expanded)
    ensures NothingDangles(m)
    ensures forall x :: x in seen <==> Reaches(LinkedGraph(m), RootDeps(m), x)
  {
    assert m.root in expanded;
    ClosedHoldsReachable(LinkedGraph(m), RootDeps(m), seen);
  }

  /** The dependency a crate pushes is reached too. */
  lemma PushedIsReached(m: Metadata, x: Id, d: Dependency)
    requires x in m.nodes && d in m.nodes[x] && d.linked && d.pkg in m.procMacro && !m.procMacro[d.pkg]
    requires x == m.root || Reaches(LinkedGraph(m), RootDeps(m), x)
    ensures Reaches(LinkedGraph(m), RootDeps(m), d.pkg)
  {
    LinkedOfExact(m, m.nodes[x]);
    if x == m.root {
      ReachesStart(LinkedGraph(m), RootDeps(m), d.pkg);
    } else {
      ReachesStep(LinkedGraph(m), RootDeps(m), x, d.pkg);
    }
  }

  lemma FewerUnseen(all: set<Id>, seen: set<Id>, x: Id)
    requires x in all && x !in seen
    ensures |all - (seen + {x})| < |all - seen|
  {
    assert all - (seen + {x}) < all - seen;
    SubsetIsSmaller(all - (seen + {x}), all - seen);
  }

  lemma SubsetIsSmaller(a: set<Id>, b: set<Id>)
    requires a < b
    ensures |a| < |b|
  {
    var x :| x in b && x !in a;
    assert b == a + (b - a) && |b| == |a| + |b - a|;
    assert x in b - a;
  }

  // The state inside the inner loop: `x` is being expanded, its first `i` dependencies are handled.
  ghost predicate ExpandingInv(m: Metadata, seen: set<Id>, pending: seq<Id>, expanded: set<Id>, x: Id, i: nat) {
    && x in m.nodes && i <= |m.nodes[x]| && (x == m.root || x in seen)
    && (forall y :: y in seen ==> Reaches(LinkedGraph(m), RootDeps(m), y) && y in m.procMacro)
    && (forall y :: y in pending ==> y == m.root || y in seen)
    && (forall y :: y == m.root || y in seen ==> y in pending || y in expanded || y == x)
    && (forall y :: y in expanded ==> Described(m, y) && forall z :: z in LinkedOf(m, m.nodes[y]) ==> z in seen)
    && (forall d :: d in m.nodes[x][..i] && d.linked ==> d.pkg in m.procMacro)
    && (forall y :: y in LinkedOf(m, m.nodes[x][..i]) ==> y in seen)
  }

  lemma OneMoreLinked(m: Metadata, deps: seq<Dependency>, i: nat)
    requires i < |deps|
    ensures forall d :: d in deps[..i + 1] <==> d in deps[..i] || d == deps[i]
    ensures forall y :: y in LinkedOf(m, deps[..i + 1]) <==>
              || y in LinkedOf(m, deps[..i])
              || (deps[i].linked && y == deps[i].pkg && y in m.procMacro && !m.procMacro[y])
  {
    assert deps[..i + 1][..i] == deps[..i];
    assert deps[..i + 1] == deps[..i] + [deps[i]];
  }

  lemma ExpandStep(m: Metadata, seen: set<Id>, pending: seq<Id>, expanded: set<Id>, x: Id, i: nat, push: bool)
    requires ExpandingInv(m, seen, pending, expanded, x, i) && i < |m.nodes[x]|
    requires var d := m.nodes[x][i];
             && (d.linked ==> d.pkg in m.procMacro)
             && (push <==> d.linked && d.pkg !in seen && !m.procMacro[d.pkg])
    ensures var d := m.nodes[x][i];
            ExpandingInv(m, if push then seen + {d.pkg} else seen, if push then pending + [d.pkg] else pending, expanded, x, i + 1)
  {
    hide Reaches, LinkedGraph, RootDeps, LinkedOf, Described;
    var d := m.nodes[x][i];
    OneMoreLinked(m, m.nodes[x], i);
    if push {
      PushedIsReached(m, x, d);
    }
  }

  lemma ExpandStart(m: Metadata, seen: set<Id>, pending: seq<Id>, expanded: set<Id>, x: Id)
    requires CrateInv(m, seen, pending + [x], expanded) && x in m.nodes
    ensures ExpandingInv(m, seen, pending, expanded, x, 0)
  {
    assert x in pending + [x];
    assert m.nodes[x][..0] == [];
    hide Reaches, LinkedGraph, RootDeps;
  }

  lemma ExpandDone(m: Metadata, seen: set<Id>, pending: seq<Id>, expanded: set<Id>, x: Id)
    requires x in m.nodes && ExpandingInv(m, seen, pending, expanded, x, |m.nodes[x]|)
    ensures CrateInv(m, seen, pending, expanded + {x})
  {
    assert m.nodes[x][..|m.nodes[x]|] == m.nodes[x];
    hide Reaches, LinkedGraph, RootDeps, LinkedOf;
  }

  /** Each once, in the order of `place`. */
  predicate Ordered(list: seq<Id>, place: Id -> int) {
    forall i, j :: 0 <= i < j < |list| ==> list[i] != list[j] && place(list[i]) <= place(list[j])
  }

  function InsertAt(list: seq<Id>, x: Id, place: Id -> int): seq<Id> {
    if list == [] || place(list[|list| - 1]) <= place(x) then list + [x]
    else InsertAt(list[..|list| - 1], x, place) + [list[|list| - 1]]
  }

  lemma AppendKeepsOrder(list: seq<Id>, x: Id, place: Id -> int)
    requires Ordered(list, place) && forall y :: y in list ==> y != x && place(y) <= place(x)
    ensures Ordered(list + [x], place)
  {
    forall i, j | 0 <= i < j < |list| + 1
      ensures (list + [x])[i] != (list + [x])[j] && place((list + [x])[i]) <= place((list + [x])[j])
    {
      assert (list + [x])[i] == list[i] && list[i] in list;
    }
  }

  lemma LastIsGreatest(list: seq<Id>, place: Id -> int)
    requires Ordered(list, place) && list != []
    ensures Ordered(list[..|list| - 1], place)
    ensures forall y :: y in list[..|list| - 1] ==> y != list[|list| - 1] && place(y) <= place(list[|list| - 1])
  {
  }

  lemma {:induction false} InsertKeepsOrder(list: seq<Id>, x: Id, place: Id -> int)
    requires Ordered(list, place) && x !in list
    ensures Ordered(InsertAt(list, x, place), place)
    ensures forall y :: y in InsertAt(list, x, place) <==> y in list || y == x
  {
    if list == [] {
    } else {
      var front, last := list[..|list| - 1], list[|list| - 1];
      assert list == front + [last];
      LastIsGreatest(list, place);
      hide Ordered;
      if place(last) <= place(x) {
        AppendKeepsOrder(list, x, place);
      } else {
        InsertKeepsOrder(front, x, place);
        AppendKeepsOrder(InsertAt(front, x, place), last, place);
      }
    }
  }

  /** The elements of a set, in order. */
  method SortedBy(elements: set<Id>, place: Id -> int) returns (list: seq<Id>)
    ensures Ordered(list, place) && forall x :: x in list <==> x in elements
  {
    list := [];
    var left := elements;
    while left != {}
      invariant left <= elements && Ordered(list, place) && forall x :: x in list <==> x in elements && x !in left
    {
      var x :| x in left;
      InsertKeepsOrder(list, x, place);
      list := InsertAt(list, x, place);
      left := left - {x};
    }
  }

  /** `linked_crates`: on any graph, cycles and repeated edges included, exactly the crates reached
      from the root by linked edges through crates that are no proc-macros, each once, in the order of
      their names and versions (`place`). It fails exactly when one that it reaches, or a linked
      dependency of one, is not described. */
  method LinkedCrates(m: Metadata, place: Id -> int) returns (r: Result<seq<Id>>)
    ensures r.Ok? <==> NothingDangles(m)
    ensures r.Ok? ==> forall x :: x in r.value <==> Reaches(LinkedGraph(m), RootDeps(m), x)
    ensures r.Ok? ==> Ordered(r.value, place)
  {
    hide Reaches, LinkedGraph, RootDeps, LinkedOf, NothingDangles;
    var seen: set<Id> := {};
    var pending := [m.root];
    ghost var expanded: set<Id> := {};
    while pending != []
      invariant CrateInv(m, seen, pending, expanded)
      decreases |m.procMacro.Keys - seen|, |pending|
    {
      ghost var bound, size := |m.procMacro.Keys - seen|, |pending|;
      var x := pending[|pending| - 1];
      assert pending == pending[..|pending| - 1] + [x];
      pending := pending[..|pending| - 1];
      if x !in m.nodes {
        DanglesAt(m, x);
        return Err;
      }
      var deps := m.nodes[x];
      ExpandStart(m, seen, pending, expanded, x);
      hide Described;
      for i := 0 to |deps|
        invariant ExpandingInv(m, seen, pending, expanded, x, i)
        invariant |m.procMacro.Keys - seen| < bound || (|m.procMacro.Keys - seen| == bound && |pending| < size)
      {
        var d := deps[i];
        if d.linked && d.pkg !in seen && d.pkg !in m.procMacro {
          UndescribedAt(m, x, d);
          return Err;
        }
        ghost var push := d.linked && d.pkg !in seen && !m.procMacro[d.pkg];
        ExpandStep(m, seen, pending, expanded, x, i, push);
        if d.linked && d.pkg !in seen && !m.procMacro[d.pkg] {
          FewerUnseen(m.procMacro.Keys, seen, d.pkg);
          seen := seen + {d.pkg};
          pending := pending + [d.pkg];
        }
      }
      ExpandDone(m, seen, pending, expanded, x);
      expanded := expanded + {x};
    }
    CratesComplete(m, seen, expanded);
    var list := SortedBy(seen, place);
    return Ok(list);
  }

  lemma DanglesAt(m: Metadata, x: Id)
    requires x !in m.nodes && (x == m.root || Reaches(LinkedGraph(m), RootDeps(m), x))
    ensures !NothingDangles(m)
  {
  }

  lemma UndescribedAt(m: Metadata, x: Id, d: Dependency)
    requires x in m.nodes && d in m.nodes[x] && d.linked && d.pkg !in m.procMacro
    requires x == m.root || Reaches(LinkedGraph(m), RootDeps(m), x)
    ensures !NothingDangles(m)
  {
    assert !Described(m, x);
  }

  // ---------------------------------------------------------------- packages needed at run time

  datatype Package = Package(dependencies: seq<Id>, optional: map<string, seq<Id>>)

  function Graph(packages: map<Id, Package>): map<Id, seq<Id>> {
    map x | x in packages :: packages[x].dependencies
  }

  /** What the project and its extras ask for; None when an extra, or the project, does not exist. */
  function Roots(root: Package, extras: seq<string>): Result<seq<Id>> {
    if extras == [] then Ok(root.dependencies)
    else
      var front := Roots(root, extras[..|extras| - 1]);
      var extra := extras[|extras| - 1];
      if front.Err? || extra !in root.optional then Err else Ok(front.value + root.optional[extra])
  }

  ghost predicate AllLocked(packages: map<Id, Package>, starts: seq<Id>) {
    forall x :: Reaches(Graph(packages), starts, x) ==> x in packages
  }

  ghost predicate NeededInv(packages: map<Id, Package>, starts: seq<Id>, needed: set<Id>, pending: seq<Id>) {
    && (forall x :: x in needed || x in pending ==> Reaches(Graph(packages), starts, x))
    && (forall x :: x in needed ==> x in packages)
    && (forall x :: x in starts ==> x in needed || x in pending)
    && (forall x, y :: x in needed && y in packages[x].dependencies ==> y in needed || y in pending)
  }

  lemma NeedMore(packages: map<Id, Package>, starts: seq<Id>, needed: set<Id>, pending: seq<Id>)
    requires NeededInv(packages, starts, needed, pending) && pending != []
    ensures var x := pending[|pending| - 1]; var rest := pending[..|pending| - 1];
            && Reaches(Graph(packages), starts, x)
            && (x in needed ==> NeededInv(packages, starts, needed, rest))
            && (x !in needed && x in packages ==>
                  NeededInv(packages, starts, needed + {x}, rest + packages[x].dependencies))
  {
    hide Reaches;
    var x, rest := pending[|pending| - 1], pending[..|pending| - 1];
    assert pending == rest + [x];
    if x in packages {
      forall y | y in packages[x].dependencies ensures Reaches(Graph(packages), starts, y) {
        ReachesStep(Graph(packages), starts, x, y);
      }
    }
    hide Graph;
  }

  lemma NeededComplete(packages: map<Id, Package>, starts: seq<Id>, needed: set<Id>)
    requires NeededInv(packages, starts, needed, [])
    ensures AllLocked(packages, starts)
    ensures forall x :: x in needed <==> Reaches(Graph(packages), starts, x)
  {
    ClosedHoldsReachable(Graph(packages), starts, needed);
  }

  /** `runtime_packages`: exactly the locked packages reached from the project and its extras. It fails
      exactly when the project or an extra does not exist, or a reached package is not locked. */
  method RuntimePackages(packages: map<Id, Package>, project: Id, extras: seq<string>) returns (r: Result<set<Id>>)
    ensures r.Ok? <==>
              && project in packages && Roots(packages[project], extras).Ok?
              && AllLocked(packages, Roots(packages[project], extras).value)
    ensures r.Ok? ==> forall x :: x in r.value <==> Reaches(Graph(packages), Roots(packages[project], extras).value, x)
  {
    hide Reaches, Graph, AllLocked;
    if project !in packages {
      return Err;
    }
    var root := packages[project];
    var starts := root.dependencies;
    for i := 0 to |extras|
      invariant Roots(root, extras[..i]) == Ok(starts)
    {
      assert extras[..i + 1][..i] == extras[..i];
      if extras[i] !in root.optional {
        MissingExtra(root, extras, i);
        return Err;
      }
      starts := starts + root.optional[extras[i]];
    }
    assert extras[..|extras|] == extras;
    var needed: set<Id> := {};
    var pending := starts;
    StartsReached(packages, starts);
    while pending != []
      invariant NeededInv(packages, starts, needed, pending)
      decreases |packages.Keys - needed|, |pending|
    {
      NeedMore(packages, starts, needed, pending);
      hide NeededInv;
      var name := pending[|pending| - 1];
      pending := pending[..|pending| - 1];
      if name in needed {
        continue;
      }
      if name !in packages {
        NotLocked(packages, starts, name);
        return Err;
      }
      FewerUnseen(packages.Keys, needed, name);
      needed := needed + {name};
      pending := pending + packages[name].dependencies;
    }
    NeededComplete(packages, starts, needed);
    return Ok(needed);
  }

  lemma StartsReached(packages: map<Id, Package>, starts: seq<Id>)
    ensures NeededInv(packages, starts, {}, starts)
  {
    forall x | x in starts ensures Reaches(Graph(packages), starts, x) {
      ReachesStart(Graph(packages), starts, x);
    }
  }

  lemma NotLocked(packages: map<Id, Package>, starts: seq<Id>, x: Id)
    requires Reaches(Graph(packages), starts, x) && x !in packages
    ensures !AllLocked(packages, starts)
  {
  }

  lemma {:induction false} MissingExtra(root: Package, extras: seq<string>, i: nat)
    requires i < |extras| && extras[i] !in root.optional
    ensures Roots(root, extras).Err?
    decreases |extras|
  {
    if i < |extras| - 1 {
      MissingExtra(root, extras[..|extras| - 1], i);
    }
  }
}
