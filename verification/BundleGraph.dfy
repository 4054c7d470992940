/** The worklist that collects the initial outputs of a generated bundle from its import graph. */
module BundleGraph {
  import opened Basics
  import opened BundlePaths

  datatype Import = Import(path: string, dynamic: bool)

  datatype Output = Output(path: string, cssBundle: Option<string>, imports: seq<Import>)

  type Graph = map<string, Output>

  // ---------------------------------------------------------------- reachability

  ghost predicate StaticImport(graph: Graph, a: string, b: string) {
    a in graph && exists i :: 0 <= i < |graph[a].imports| && graph[a].imports[i] == Import(b, false)
  }

  ghost predicate IsPath(graph: Graph, path: seq<string>) {
    |path| > 0 && forall i :: 0 <= i < |path| - 1 ==> StaticImport(graph, path[i], path[i + 1])
  }

  ghost predicate Leads(graph: Graph, seeds: seq<string>, path: seq<string>, x: string) {
    IsPath(graph, path) && path[0] in seeds && path[|path| - 1] == x
  }

  ghost predicate Reachable(graph: Graph, seeds: seq<string>, x: string) {
    exists path :: Leads(graph, seeds, path, x)
  }

  ghost predicate Closed(graph: Graph, s: set<string>) {
    forall a, b :: a in s && StaticImport(graph, a, b) ==> b in s
  }

  ghost predicate Contains(s: set<string>, seeds: seq<string>) {
    forall x :: x in seeds ==> x in s
  }

  lemma SeedReachable(graph: Graph, seeds: seq<string>, x: string)
    requires x in seeds
    ensures Reachable(graph, seeds, x)
  {
    assert Leads(graph, seeds, [x], x);
  }

  lemma ReachableExtends(graph: Graph, seeds: seq<string>, a: string, b: string)
    requires Reachable(graph, seeds, a) && StaticImport(graph, a, b)
    ensures Reachable(graph, seeds, b)
  {
    var path :| Leads(graph, seeds, path, a);
    assert Leads(graph, seeds, path + [b], b);
  }

  lemma {:induction false} PathStays(graph: Graph, path: seq<string>, s: set<string>)
    requires IsPath(graph, path) && path[0] in s && Closed(graph, s)
    ensures path[|path| - 1] in s
  {
    if |path| > 1 {
      assert StaticImport(graph, path[0], path[1]);
      forall i | 0 <= i < |path[1..]| - 1 ensures StaticImport(graph, path[1..][i], path[1..][i + 1]) {
        assert StaticImport(graph, path[i + 1], path[i + 2]);
      }
      PathStays(graph, path[1..], s);
    }
  }

  // Every closed set that contains the seeds contains whatever is reachable.
  lemma ReachableIsLeast(graph: Graph, seeds: seq<string>, s: set<string>, x: string)
    requires Contains(s, seeds) && Closed(graph, s) && Reachable(graph, seeds, x)
    ensures x in s
  {
    var path :| Leads(graph, seeds, path, x);
    PathStays(graph, path, s);
  }

  // ---------------------------------------------------------------- the worklist

  function StaticPaths(imports: seq<Import>): (paths: seq<string>)
    ensures forall p :: p in paths <==> Import(p, false) in imports
  {
    if imports == [] then []
    else (if imports[0].dynamic then [] else [imports[0].path]) + StaticPaths(imports[1..])
  }

  predicate Admissible(graph: Graph, extension: string, x: string) {
    FileExtension(x) == extension && x in graph
  }

  ghost predicate Frontier(graph: Graph, reached: set<string>, pending: seq<string>) {
    forall a, b :: a in reached && StaticImport(graph, a, b) ==> b in reached || b in pending
  }

  lemma FrontierGrows(graph: Graph, reached: set<string>, rest: seq<string>, current: string)
    requires current in graph && Frontier(graph, reached, rest + [current])
    ensures Frontier(graph, reached + {current}, rest + StaticPaths(graph[current].imports))
  {
    var pending := rest + StaticPaths(graph[current].imports);
    forall a, b | a in reached + {current} && StaticImport(graph, a, b)
      ensures b in reached + {current} || b in pending
    {
      if a == current {
        assert Import(b, false) in graph[current].imports;
      } else {
        assert b in reached || b in rest + [current];
      }
    }
  }

  datatype Work = Work(reached: set<string>, pending: seq<string>)

  // What every pass of the worklist keeps.
  ghost predicate Progress(graph: Graph, seeds: seq<string>, extension: string, w: Work) {
    match w
    case Work(reached, pending) =>
      && reached <= graph.Keys
      && (forall x :: x in reached ==> Reachable(graph, seeds, x) && Admissible(graph, extension, x))
      && (forall x :: x in pending ==> Reachable(graph, seeds, x))
      && (forall x :: x in seeds ==> x in reached || x in pending)
      && Frontier(graph, reached, pending)
  }

  lemma ProgressStarts(graph: Graph, seeds: seq<string>, extension: string)
    ensures Progress(graph, seeds, extension, Work({}, seeds))
  {
    forall x | x in seeds ensures Reachable(graph, seeds, x) {
      SeedReachable(graph, seeds, x);
    }
  }

  lemma ProgressSkips(
      graph: Graph, seeds: seq<string>, extension: string, reached: set<string>, rest: seq<string>, x: string)
    requires Progress(graph, seeds, extension, Work(reached, rest + [x])) && x in reached
    ensures Progress(graph, seeds, extension, Work(reached, rest))
  {
    forall y | y in rest ensures Reachable(graph, seeds, y) {
      assert y in rest + [x];
    }
    forall y | y in rest + [x] ensures y in reached || y in rest {
    }
  }

  lemma ProgressVisits(
      graph: Graph, seeds: seq<string>, extension: string, reached: set<string>, rest: seq<string>, x: string)
    requires Progress(graph, seeds, extension, Work(reached, rest + [x])) && Admissible(graph, extension, x)
    ensures Progress(graph, seeds, extension, Work(reached + {x}, rest + StaticPaths(graph[x].imports)))
  {
    var pending := rest + StaticPaths(graph[x].imports);
    assert x in rest + [x];
    FrontierGrows(graph, reached, rest, x);
    forall y | y in pending ensures Reachable(graph, seeds, y) {
      if y in rest {
        assert y in rest + [x];
      } else {
        assert Import(y, false) in graph[x].imports;
        ReachableExtends(graph, seeds, x, y);
      }
    }
    forall y | y in seeds ensures y in reached + {x} || y in pending {
      assert y in reached || y in rest + [x];
    }
  }

  lemma ProgressRefuses(
      graph: Graph, seeds: seq<string>, extension: string, reached: set<string>, rest: seq<string>, x: string)
    requires Progress(graph, seeds, extension, Work(reached, rest + [x])) && !Admissible(graph, extension, x)
    ensures !AllAdmissible(graph, seeds, extension)
  {
    assert x in rest + [x];
  }

  ghost predicate AllAdmissible(graph: Graph, seeds: seq<string>, extension: string) {
    forall x :: Reachable(graph, seeds, x) ==> Admissible(graph, extension, x)
  }

  // The least closed set that contains the seeds.
  ghost predicate IsInitial(graph: Graph, seeds: seq<string>, s: set<string>) {
    && (forall x :: x in s <==> Reachable(graph, seeds, x))
    && Contains(s, seeds) && Closed(graph, s) && s <= graph.Keys
  }

  lemma ProgressEnds(graph: Graph, seeds: seq<string>, extension: string, reached: set<string>)
    requires Progress(graph, seeds, extension, Work(reached, []))
    ensures IsInitial(graph, seeds, reached) && AllAdmissible(graph, seeds, extension)
  {
    forall x | Reachable(graph, seeds, x) ensures x in reached {
      ReachableIsLeast(graph, seeds, reached, x);
    }
  }

  lemma PopRestores<T>(s: seq<T>)
    requires s != []
    ensures s == s[..|s| - 1] + [s[|s| - 1]]
  {
  }

  lemma VisitShrinks(keys: set<string>, reached: set<string>, x: string)
    requires x in keys && x !in reached
    ensures |keys - (reached + {x})| < |keys - reached|
  {
    assert keys - reached == (keys - (reached + {x})) + {x};
  }

  // None stands for either internal check failing. It terminates on cyclic graphs, fails exactly when
  // something reachable is missing or has another extension, and otherwise returns exactly what is
  // reachable by static imports: the least closed set that contains the seeds.
  method TraverseInitial(seeds: seq<string>, extension: string, graph: Graph) returns (result: Option<set<string>>)
    ensures result.Some? <==> AllAdmissible(graph, seeds, extension)
    ensures result.Some? ==> IsInitial(graph, seeds, result.value)
  {
    var reached: set<string> := {};
    var pending := seeds;
    ProgressStarts(graph, seeds, extension);
    while pending != []
      invariant Progress(graph, seeds, extension, Work(reached, pending))
      decreases |graph.Keys - reached|, |pending|
    {
      var current, rest := pending[|pending| - 1], pending[..|pending| - 1];
      PopRestores(pending);
      if current in reached {
        ProgressSkips(graph, seeds, extension, reached, rest, current);
        pending := rest;
      } else {
        if FileExtension(current) != extension || current !in graph {
          ProgressRefuses(graph, seeds, extension, reached, rest, current);
          return None;
        }
        ProgressVisits(graph, seeds, extension, reached, rest, current);
        VisitShrinks(graph.Keys, reached, current);
        pending := rest + StaticPaths(graph[current].imports);
        reached := reached + {current};
      }
    }
    ProgressEnds(graph, seeds, extension, reached);
    return Some(reached);
  }
}
