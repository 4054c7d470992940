/**
 Deriving the bundle's byte metrics: the authority checks, the counting argument that turns a length
 equation into an exact partition, the two traversals and the conservation of bytes. Path validity is
 a parameter; None stands for any assertion of the build script failing.
 */
module BundleMetrics {
  import opened Basics
  import opened BundlePaths
  import opened BundleGraph

  const MAX_U64: nat := 0xFFFF_FFFF_FFFF_FFFF

  datatype File = File(path: string, bytes: nat)

  datatype Manifest = Manifest(documentEntry: string, scriptEntry: string, files: seq<File>, graph: seq<Output>)

  datatype Metrics = Metrics(
    initialJavascript: nat, initialCss: nat, lazyTotal: nat, publicAssets: nat,
    largestPublicAsset: nat, largestGeneratedOutput: nat, generatedTotal: nat, packagedPayload: nat)

  type Files = map<string, File>

  // ---------------------------------------------------------------- byte totals

  ghost function Total(paths: set<string>, files: Files): nat
    requires paths <= files.Keys
    decreases |paths|
  {
    if paths == {} then 0
    else
      var p :| p in paths;
      files[p].bytes + Total(paths - {p}, files)
  }

  lemma {:induction false} TotalWithout(paths: set<string>, files: Files, p: string)
    requires paths <= files.Keys && p in paths
    ensures Total(paths, files) == files[p].bytes + Total(paths - {p}, files)
    decreases |paths|
  {
    var q :| q in paths && Total(paths, files) == files[q].bytes + Total(paths - {q}, files);
    if q != p {
      TotalWithout(paths - {q}, files, p);
      TotalWithout(paths - {p}, files, q);
      assert paths - {q} - {p} == paths - {p} - {q};
    }
  }

  lemma {:induction false} TotalUnion(a: set<string>, b: set<string>, files: Files)
    requires a <= files.Keys && b <= files.Keys && a !! b
    ensures Total(a + b, files) == Total(a, files) + Total(b, files)
    decreases |a|
  {
    if a == {} {
      assert a + b == b;
    } else {
      var p :| p in a;
      TotalWithout(a, files, p);
      TotalWithout(a + b, files, p);
      assert a + b - {p} == (a - {p}) + b;
      TotalUnion(a - {p}, b, files);
    }
  }

  lemma TotalSubset(a: set<string>, b: set<string>, files: Files)
    requires a <= b <= files.Keys
    ensures Total(a, files) <= Total(b, files)
  {
    TotalUnion(a, b - a, files);
    assert a + (b - a) == b;
  }

  function SumBytes(files: seq<File>): nat {
    if files == [] then 0 else SumBytes(files[..|files| - 1]) + files[|files| - 1].bytes
  }

  function PathSet(paths: seq<string>): set<string> {
    set p | p in paths
  }

  ghost predicate Distinct(paths: seq<string>) {
    forall i, j :: 0 <= i < j < |paths| ==> paths[i] != paths[j]
  }

  function Pick(paths: seq<string>, files: Files): (picked: seq<File>)
    requires forall p :: p in paths ==> p in files
    ensures |picked| == |paths|
  {
    seq(|paths|, i requires 0 <= i < |paths| => files[paths[i]])
  }

  // A list of distinct paths carries exactly the bytes of its set, in whatever order it lists them.
  lemma {:induction false} PickTotals(paths: seq<string>, files: Files)
    requires (forall p :: p in paths ==> p in files) && Distinct(paths)
    ensures PathSet(paths) <= files.Keys
    ensures SumBytes(Pick(paths, files)) == Total(PathSet(paths), files)
  {
    if paths != [] {
      var front, last := paths[..|paths| - 1], paths[|paths| - 1];
      FrontOfDistinct(paths);
      PickTotals(front, files);
      assert Pick(paths, files)[..|paths| - 1] == Pick(front, files);
      TotalWithout(PathSet(paths), files, last);
    }
  }

  lemma FrontOfDistinct(paths: seq<string>)
    requires paths != [] && Distinct(paths)
    ensures var front, last := paths[..|paths| - 1], paths[|paths| - 1];
      && Distinct(front) && last in paths && PathSet(paths) - {last} == PathSet(front)
      && (forall p :: p in front ==> p in paths)
  {
    var front, last := paths[..|paths| - 1], paths[|paths| - 1];
    assert paths == front + [last];
    assert last !in front;
  }

  // None when the checked addition overflows.
  method TotalFileBytes(files: seq<File>) returns (total: Option<nat>)
    ensures total == (if SumBytes(files) <= 0xFFFF_FFFF_FFFF_FFFF then Some(SumBytes(files)) else None)
  {
    var sum := 0;
    for i := 0 to |files|
      invariant sum == SumBytes(files[..i]) <= MAX_U64
    {
      assert files[..i + 1][..i] == files[..i];
      SumGrows(files, i + 1);
      sum := sum + files[i].bytes;
      if sum > MAX_U64 {
        return None;
      }
    }
    assert files[..|files|] == files;
    return Some(sum);
  }

  lemma {:induction false} SumGrows(files: seq<File>, n: nat)
    requires n <= |files|
    ensures SumBytes(files[..n]) <= SumBytes(files)
    decreases |files| - n
  {
    if n < |files| {
      assert files[..n + 1][..n] == files[..n];
      SumGrows(files, n + 1);
    } else {
      assert files[..n] == files;
    }
  }

  method LargestFile(files: seq<File>) returns (largest: nat)
    ensures forall f :: f in files ==> f.bytes <= largest
    ensures if files == [] then largest == 0 else exists f :: f in files && f.bytes == largest
  {
    largest := 0;
    for i := 0 to |files|
      invariant forall k :: 0 <= k < i ==> files[k].bytes <= largest
      invariant if i == 0 then largest == 0 else exists k :: 0 <= k < i && files[k].bytes == largest
    {
      if files[i].bytes >= largest {
        largest := files[i].bytes;
      }
    }
  }

  // The files of a hash set, in whatever order it is walked.
  method FilesFor(paths: set<string>, files: Files) returns (list: seq<File>)
    requires paths <= files.Keys
    ensures SumBytes(list) == Total(paths, files)
  {
    list := [];
    var rest := paths;
    while rest != {}
      invariant rest <= paths
      invariant SumBytes(list) + Total(rest, files) == Total(paths, files)
      decreases |rest|
    {
      var p :| p in rest;
      TotalWithout(rest, files, p);
      assert (list + [files[p]])[..|list|] == list;
      list := list + [files[p]];
      rest := rest - {p};
    }
  }

  // ---------------------------------------------------------------- what the checks mean

  predicate Canonical(paths: seq<string>) {
    forall i :: 0 < i < |paths| ==> Less(paths[i - 1], paths[i])
  }

  predicate NoPortableCollision(paths: seq<string>) {
    forall i, j :: 0 <= i < j < |paths| ==> Lower(paths[i]) != Lower(paths[j])
  }

  predicate AllValid(paths: seq<string>, valid: string -> bool) {
    forall i :: 0 <= i < |paths| ==> valid(paths[i])
  }

  predicate ImportLess(a: Import, b: Import) {
    Less(a.path, b.path) || (a.path == b.path && !a.dynamic && b.dynamic)
  }

  predicate ImportsShaped(imports: seq<Import>, valid: string -> bool) {
    && (forall i :: 0 <= i < |imports| ==> valid(imports[i].path))
    && (forall i :: 0 < i < |imports| ==> ImportLess(imports[i - 1], imports[i]))
    && (forall i, j :: 0 <= i < j < |imports| ==> imports[i].path != imports[j].path)
  }

  predicate OutputShaped(output: Output, valid: string -> bool) {
    && valid(output.path)
    && (FileExtension(output.path) == "js" || FileExtension(output.path) == "css")
    && ImportsShaped(output.imports, valid)
  }

  function Paths(graph: seq<Output>): (paths: seq<string>)
    ensures |paths| == |graph|
    ensures forall i :: 0 <= i < |graph| ==> paths[i] == graph[i].path
  {
    if graph == [] then [] else Paths(graph[..|graph| - 1]) + [graph[|graph| - 1].path]
  }

  function FilePaths(files: seq<File>): (paths: seq<string>)
    ensures |paths| == |files|
  {
    seq(|files|, i requires 0 <= i < |files| => files[i].path)
  }

  ghost predicate OutputsShaped(graph: seq<Output>, valid: string -> bool) {
    forall i :: 0 <= i < |graph| ==> OutputShaped(graph[i], valid)
  }

  ghost predicate GraphShaped(graph: seq<Output>, valid: string -> bool) {
    OutputsShaped(graph, valid) && Canonical(Paths(graph)) && Distinct(Paths(graph))
  }

  ghost predicate PublicShaped(paths: seq<string>, valid: string -> bool) {
    AllValid(paths, valid) && Canonical(paths) && NoPortableCollision(paths)
  }

  predicate ImportLinked(i: Import, extension: string, keys: set<string>) {
    FileExtension(i.path) == extension && i.path in keys && (i.dynamic ==> extension == "js")
  }

  predicate OutputLinked(output: Output, keys: set<string>, valid: string -> bool) {
    var extension := FileExtension(output.path);
    && (output.cssBundle.Some? ==>
          && valid(output.cssBundle.value) && extension == "js"
          && FileExtension(output.cssBundle.value) == "css" && output.cssBundle.value in keys)
    && (forall i :: 0 <= i < |output.imports| ==> ImportLinked(output.imports[i], extension, keys))
  }

  ghost predicate GraphLinked(graph: seq<Output>, valid: string -> bool) {
    forall i :: 0 <= i < |graph| ==> OutputLinked(graph[i], PathSet(Paths(graph)), valid)
  }

  // Public files and graph outputs partition the manifest's files.
  ghost predicate Partitions(public: set<string>, generated: set<string>, all: set<string>) {
    public !! generated && public + generated == all
  }

  // ---------------------------------------------------------------- the checks

  lemma LowerDistinct(paths: seq<string>)
    requires NoPortableCollision(paths)
    ensures Distinct(paths)
  {
  }

  method CheckPublic(paths: seq<string>, valid: string -> bool) returns (ok: bool)
    ensures ok <==> PublicShaped(paths, valid)
  {
    var portable: set<string> := {};
    for i := 0 to |paths|
      invariant AllValid(paths[..i], valid) && Canonical(paths[..i]) && NoPortableCollision(paths[..i])
      invariant forall l :: l in portable <==> exists k :: 0 <= k < i && Lower(paths[k]) == l
    {
      if !valid(paths[i]) || (i > 0 && !Less(paths[i - 1], paths[i])) || Lower(paths[i]) in portable {
        return false;
      }
      portable := portable + {Lower(paths[i])};
    }
    assert paths[..|paths|] == paths;
    return true;
  }

  lemma ImportsGrow(imports: seq<Import>, valid: string -> bool, i: nat)
    requires i < |imports| && ImportsShaped(imports[..i], valid)
    ensures var taken :=
        && valid(imports[i].path) && (i > 0 ==> ImportLess(imports[i - 1], imports[i]))
        && (forall k :: 0 <= k < i ==> imports[k].path != imports[i].path);
      if taken then ImportsShaped(imports[..i + 1], valid) else !ImportsShaped(imports, valid)
  {
    var front, next := imports[..i], imports[..i + 1];
    assert forall k :: 0 <= k < i ==> next[k] == front[k];
  }

  method CheckImports(imports: seq<Import>, valid: string -> bool) returns (ok: bool)
    ensures ok <==> ImportsShaped(imports, valid)
  {
    var seen: set<string> := {};
    for i := 0 to |imports|
      invariant ImportsShaped(imports[..i], valid)
      invariant forall p :: p in seen <==> exists k :: 0 <= k < i && imports[k].path == p
    {
      ImportsGrow(imports, valid, i);
      if !valid(imports[i].path) || (i > 0 && !ImportLess(imports[i - 1], imports[i])) || imports[i].path in seen {
        return false;
      }
      seen := seen + {imports[i].path};
    }
    assert imports[..|imports|] == imports;
    return true;
  }

  ghost predicate Indexes(index: Graph, graph: seq<Output>) {
    && index.Keys == PathSet(Paths(graph))
    && (forall i :: 0 <= i < |graph| ==> graph[i].path in index && index[graph[i].path] == graph[i])
  }

  lemma IndexGrows(index: Graph, graph: seq<Output>, i: nat)
    requires i < |graph| && Indexes(index, graph[..i]) && graph[i].path !in index
    ensures Indexes(index[graph[i].path := graph[i]], graph[..i + 1])
  {
    assert Paths(graph[..i + 1]) == Paths(graph[..i]) + [graph[i].path];
    var next := index[graph[i].path := graph[i]];
    forall k | 0 <= k < i + 1 ensures graph[k].path in next && next[graph[k].path] == graph[k] {
      if k < i { assert graph[..i][k] == graph[k]; }
    }
  }

  lemma CanonicalGrows(paths: seq<string>, p: string)
    ensures Canonical(paths + [p]) == (Canonical(paths) && (paths != [] ==> Less(paths[|paths| - 1], p)))
  {
    var after := paths + [p];
    if Canonical(after) {
      forall i | 0 < i < |paths| ensures Less(paths[i - 1], paths[i]) {
        assert Less(after[i - 1], after[i]);
      }
      if paths != [] { assert Less(after[|paths| - 1], after[|paths|]); }
    }
  }

  lemma DistinctGrows(paths: seq<string>, p: string)
    ensures Distinct(paths + [p]) == (Distinct(paths) && p !in paths)
  {
    var after := paths + [p];
    if Distinct(after) {
      forall i, j | 0 <= i < j < |paths| ensures paths[i] != paths[j] {
        assert after[i] != after[j];
      }
      forall i | 0 <= i < |paths| ensures paths[i] != p {
        assert after[i] != after[|paths|];
      }
    }
  }

  lemma OutputsGrow(graph: seq<Output>, valid: string -> bool, output: Output)
    ensures OutputsShaped(graph + [output], valid) == (OutputsShaped(graph, valid) && OutputShaped(output, valid))
  {
    var after := graph + [output];
    if OutputsShaped(after, valid) {
      assert OutputShaped(after[|graph|], valid);
      forall i | 0 <= i < |graph| ensures OutputShaped(graph[i], valid) {
        assert OutputShaped(after[i], valid);
      }
    }
  }

  lemma PathsAppend(graph: seq<Output>, output: Output)
    ensures Paths(graph + [output]) == Paths(graph) + [output.path]
  {
  }

  // Whether a well-shaped prefix stays well shaped depends on the next output alone.
  lemma ShapeExtends(graph: seq<Output>, valid: string -> bool, output: Output)
    requires GraphShaped(graph, valid)
    ensures GraphShaped(graph + [output], valid) ==
              (OutputShaped(output, valid)
              && (Paths(graph) != [] ==> Less(Paths(graph)[|Paths(graph)| - 1], output.path))
              && output.path !in Paths(graph))
  {
    PathsAppend(graph, output);
    CanonicalGrows(Paths(graph), output.path);
    DistinctGrows(Paths(graph), output.path);
    OutputsGrow(graph, valid, output);
  }

  lemma PrefixPaths(graph: seq<Output>, i: nat)
    requires i < |graph|
    ensures graph[..i + 1] == graph[..i] + [graph[i]]
    ensures i > 0 ==> Paths(graph[..i])[i - 1] == graph[i - 1].path
  {
  }

  lemma ShapeOfPrefix(graph: seq<Output>, valid: string -> bool, i: nat)
    requires i <= |graph| && GraphShaped(graph, valid)
    ensures GraphShaped(graph[..i], valid)
  {
    forall k | 0 <= k < i ensures OutputShaped(graph[..i][k], valid) && Paths(graph[..i])[k] == Paths(graph)[k] {
    }
  }

  method CheckOutput(output: Output, valid: string -> bool) returns (ok: bool)
    ensures ok <==> OutputShaped(output, valid)
  {
    var extension := FileExtension(output.path);
    if !valid(output.path) || !(extension == "js" || extension == "css") {
      return false;
    }
    ok := CheckImports(output.imports, valid);
  }

  // One output of the graph: taken exactly if the graph stays well shaped, else the graph is refused.
  lemma GraphGrows(graph: seq<Output>, byPath: Graph, valid: string -> bool, i: nat)
    requires i < |graph| && GraphShaped(graph[..i], valid) && Indexes(byPath, graph[..i])
    ensures var taken :=
        && OutputShaped(graph[i], valid) && graph[i].path !in byPath
        && (i > 0 ==> Less(graph[i - 1].path, graph[i].path));
      if taken
      then GraphShaped(graph[..i + 1], valid) && Indexes(byPath[graph[i].path := graph[i]], graph[..i + 1])
      else !GraphShaped(graph, valid)
  {
    PrefixPaths(graph, i);
    ShapeExtends(graph[..i], valid, graph[i]);
    if graph[i].path !in byPath { IndexGrows(byPath, graph, i); }
    if GraphShaped(graph, valid) { ShapeOfPrefix(graph, valid, i + 1); }
  }

  method CheckGraph(graph: seq<Output>, valid: string -> bool) returns (index: Option<Graph>)
    ensures index.Some? <==> GraphShaped(graph, valid)
    ensures index.Some? ==> Indexes(index.value, graph)
  {
    var byPath: Graph := map[];
    var i := 0;
    while i < |graph|
      invariant i <= |graph|
      invariant GraphShaped(graph[..i], valid)
      invariant Indexes(byPath, graph[..i])
    {
      GraphGrows(graph, byPath, valid, i);
      var shaped := CheckOutput(graph[i], valid);
      if !shaped || (i > 0 && !Less(graph[i - 1].path, graph[i].path)) || graph[i].path in byPath {
        return None;
      }
      byPath := byPath[graph[i].path := graph[i]];
      i := i + 1;
    }
    assert graph[..i] == graph;
    return Some(byPath);
  }

  method CheckOutputLinks(output: Output, index: Graph, valid: string -> bool) returns (ok: bool)
    ensures ok <==> OutputLinked(output, index.Keys, valid)
  {
    var extension := FileExtension(output.path);
    if output.cssBundle.Some? {
      var bundle := output.cssBundle.value;
      if !valid(bundle) || extension != "js" || FileExtension(bundle) != "css" || bundle !in index {
        return false;
      }
    }
    for j := 0 to |output.imports|
      invariant forall k :: 0 <= k < j ==> ImportLinked(output.imports[k], extension, index.Keys)
    {
      var imported := output.imports[j];
      if FileExtension(imported.path) != extension || imported.path !in index
          || (imported.dynamic && extension != "js") {
        assert !ImportLinked(output.imports[j], extension, index.Keys);
        return false;
      }
    }
    return true;
  }

  method CheckLinks(graph: seq<Output>, index: Graph, valid: string -> bool) returns (ok: bool)
    requires Indexes(index, graph)
    ensures ok <==> GraphLinked(graph, valid)
  {
    ghost var paths := PathSet(Paths(graph));
    for i := 0 to |graph|
      invariant forall k :: 0 <= k < i ==> OutputLinked(graph[k], paths, valid)
    {
      var linked := CheckOutputLinks(graph[i], index, valid);
      if !linked {
        return false;
      }
    }
    return true;
  }

  // Exactly one authority names each file, and the counts add up: then the two authorities partition
  // the files. The first check alone would let either of them name files that do not exist.
  lemma CountingPartitions(public: set<string>, generated: set<string>, all: set<string>)
    requires forall p :: p in all ==> (p in public) != (p in generated)
    requires |public| + |generated| == |all|
    ensures Partitions(public, generated, all)
  {
    var a, b := public * all, generated * all;
    assert a !! b && a + b == all;
    assert |a| + |b| == |all|;
    assert public == a + (public - all) && generated == b + (generated - all);
    assert |public| == |a| + |public - all| && |generated| == |b| + |generated - all|;
    assert public - all == {} && generated - all == {};
  }

  lemma PartitionCounts(public: set<string>, generated: set<string>, all: set<string>)
    requires Partitions(public, generated, all)
    ensures |public| + |generated| == |all|
    ensures forall p :: p in all ==> (p in public) != (p in generated)
  {
  }

  method CheckAuthority(public: set<string>, generated: set<string>, all: set<string>) returns (ok: bool)
    ensures ok <==> Partitions(public, generated, all)
  {
    var rest := all;
    while rest != {}
      invariant rest <= all
      invariant forall p :: p in all - rest ==> (p in public) != (p in generated)
      decreases |rest|
    {
      var p :| p in rest;
      if (p in public) == (p in generated) {
        return false;
      }
      rest := rest - {p};
    }
    if |public| + |generated| != |all| {
      if Partitions(public, generated, all) { PartitionCounts(public, generated, all); }
      return false;
    }
    CountingPartitions(public, generated, all);
    return true;
  }

  // ---------------------------------------------------------------- the derivation

  ghost predicate IndexesFiles(byPath: Files, files: seq<File>) {
    && byPath.Keys == PathSet(FilePaths(files))
    && (forall i :: 0 <= i < |files| ==> files[i].path in byPath && byPath[files[i].path] == files[i])
  }

  ghost predicate Indexed(byPath: Files, files: seq<File>) {
    && byPath.Keys == PathSet(FilePaths(files))
    && |byPath| <= |files|
    && (|byPath| == |files| <==> Distinct(FilePaths(files)))
    && (Distinct(FilePaths(files)) ==> IndexesFiles(byPath, files))
  }

  lemma IndexedGrows(byPath: Files, files: seq<File>, f: File)
    requires Indexed(byPath, files)
    ensures Indexed(byPath[f.path := f], files + [f])
  {
    var next := byPath[f.path := f];
    assert FilePaths(files + [f]) == FilePaths(files) + [f.path];
    DistinctGrows(FilePaths(files), f.path);
    assert next.Keys == byPath.Keys + {f.path};
    assert |next| == |next.Keys| && |byPath| == |byPath.Keys|;
    if Distinct(FilePaths(files + [f])) {
      forall k | 0 <= k < |files| + 1 ensures var g := (files + [f])[k]; g.path in next && next[g.path] == g {
        if k < |files| { assert FilePaths(files)[k] != f.path; }
      }
    }
  }

  // The map is as long as the list exactly when no path is named twice.
  method IndexFiles(files: seq<File>) returns (byPath: Files)
    ensures |byPath| == |files| <==> Distinct(FilePaths(files))
    ensures Indexed(byPath, files)
  {
    byPath := map[];
    for i := 0 to |files|
      invariant Indexed(byPath, files[..i])
    {
      assert files[..i + 1] == files[..i] + [files[i]];
      IndexedGrows(byPath, files[..i], files[i]);
      byPath := byPath[files[i].path := files[i]];
    }
    assert files[..|files|] == files;
  }

  lemma FilesTotal(files: seq<File>, byPath: Files)
    requires IndexesFiles(byPath, files) && Distinct(FilePaths(files))
    ensures SumBytes(files) == Total(byPath.Keys, byPath)
  {
    PickTotals(FilePaths(files), byPath);
    assert Pick(FilePaths(files), byPath) == files;
  }

  // The CSS bundles of the initial JavaScript, in whatever order the set is walked.
  ghost predicate BundlesOf(seeds: seq<string>, js: set<string>, index: Graph)
    requires js <= index.Keys
  {
    forall b :: b in seeds <==> exists p :: p in js && index[p].cssBundle == Some(b)
  }

  method CssSeeds(js: set<string>, index: Graph) returns (seeds: seq<string>)
    requires js <= index.Keys
    ensures BundlesOf(seeds, js, index)
  {
    seeds := [];
    var rest := js;
    while rest != {}
      invariant rest <= js
      invariant BundlesOf(seeds, js - rest, index)
      decreases |rest|
    {
      var p :| p in rest;
      assert js - (rest - {p}) == (js - rest) + {p};
      if index[p].cssBundle.Some? {
        seeds := seeds + [index[p].cssBundle.value];
      }
      rest := rest - {p};
    }
    assert js - rest == js;
  }

  ghost predicate ExtendsOnly(s: set<string>, extension: string) {
    forall x :: x in s ==> FileExtension(x) == extension
  }

  lemma LinkedEdge(graph: seq<Output>, index: Graph, valid: string -> bool, a: string, b: string)
    requires Indexes(index, graph) && GraphLinked(graph, valid) && StaticImport(index, a, b)
    ensures FileExtension(b) == FileExtension(a) && b in index
  {
    var k :| 0 <= k < |graph| && Paths(graph)[k] == a;
    assert OutputLinked(graph[k], PathSet(Paths(graph)), valid);
    var j :| 0 <= j < |index[a].imports| && index[a].imports[j] == Import(b, false);
    assert ImportLinked(graph[k].imports[j], FileExtension(a), PathSet(Paths(graph)));
  }

  // On a graph that passed the checks, neither internal check of a traversal can fail.
  lemma TraversalCannotFail(
      graph: seq<Output>, index: Graph, valid: string -> bool, seeds: seq<string>, extension: string)
    requires Indexes(index, graph) && GraphLinked(graph, valid)
    requires forall x :: x in seeds ==> x in index && FileExtension(x) == extension
    ensures AllAdmissible(index, seeds, extension)
  {
    var s := set x | x in index.Keys && FileExtension(x) == extension;
    forall a, b | a in s && StaticImport(index, a, b) ensures b in s {
      LinkedEdge(graph, index, valid, a, b);
    }
    forall x | Reachable(index, seeds, x) ensures Admissible(index, extension, x) {
      ReachableIsLeast(index, seeds, s, x);
    }
  }

  lemma BundleIsCss(graph: seq<Output>, index: Graph, valid: string -> bool, p: string, b: string)
    requires Indexes(index, graph) && GraphLinked(graph, valid) && p in index && index[p].cssBundle == Some(b)
    ensures b in index && FileExtension(b) == "css"
  {
    var k :| 0 <= k < |graph| && Paths(graph)[k] == p;
    assert OutputLinked(graph[k], PathSet(Paths(graph)), valid);
  }

  // The build accepts a bundle exactly when this holds; nothing about the traversals is left to chance.
  ghost predicate Acceptable(m: Manifest, public: seq<string>, receipt: nat, valid: string -> bool) {
    && Distinct(FilePaths(m.files))
    && PublicShaped(public, valid)
    && GraphShaped(m.graph, valid)
    && Partitions(PathSet(public), PathSet(Paths(m.graph)), PathSet(FilePaths(m.files)))
    && m.documentEntry in public
    && m.scriptEntry in Paths(m.graph)
    && GraphLinked(m.graph, valid)
    && FileExtension(m.scriptEntry) == "js"
    && SumBytes(m.files) + receipt <= MAX_U64
  }

  // What accepted metrics count: `js` is reachable from the script entry, `css` from the bundles of `js`.
  ghost predicate Explains(
      m: Manifest, public: seq<string>, receipt: nat, r: Metrics, files: Files, index: Graph,
      js: set<string>, css: set<string>, seeds: seq<string>)
  {
    var p, g := PathSet(public), PathSet(Paths(m.graph));
    && IndexesFiles(files, m.files) && Distinct(FilePaths(m.files)) && Indexes(index, m.graph)
    && Partitions(p, g, files.Keys)
    && IsInitial(index, [m.scriptEntry], js) && ExtendsOnly(js, "js")
    && js <= index.Keys && BundlesOf(seeds, js, index)
    && IsInitial(index, seeds, css) && ExtendsOnly(css, "css")
    && js + css <= g
    && r.initialJavascript == Total(js, files)
    && r.initialCss == Total(css, files)
    && r.lazyTotal == Total(g - (js + css), files)
    && r.publicAssets == Total(p, files)
    && r.generatedTotal == Total(g, files)
    && r.packagedPayload == r.publicAssets + r.generatedTotal + receipt <= MAX_U64
    && IsLargest(r.largestPublicAsset, p, files) && IsLargest(r.largestGeneratedOutput, g, files)
  }

  ghost predicate IsLargest(n: nat, paths: set<string>, files: Files) {
    && paths <= files.Keys
    && (forall p :: p in paths ==> files[p].bytes <= n)
    && (if paths == {} then n == 0 else exists p :: p in paths && files[p].bytes == n)
  }

  lemma KindsAreDisjoint(js: set<string>, css: set<string>)
    requires ExtendsOnly(js, "js") && ExtendsOnly(css, "css")
    ensures js !! css
  {
    assert "js" != "css";
    forall x | x in js ensures x !in css {
      assert FileExtension(x) == "js";
    }
  }

  lemma TotalsConserve(p: set<string>, g: set<string>, js: set<string>, css: set<string>, files: Files)
    requires js !! css && js + css <= g <= files.Keys && Partitions(p, g, files.Keys)
    ensures Total(js, files) + Total(css, files) + Total(g - (js + css), files) == Total(g, files)
    ensures Total(p, files) + Total(g, files) == Total(files.Keys, files)
  {
    TotalUnion(js, css, files);
    TotalUnion(js + css, g - (js + css), files);
    assert (js + css) + (g - (js + css)) == g;
    TotalUnion(p, g, files);
  }

  // Bytes are conserved: initial and lazy outputs make up the generated total, public and generated
  // make up every manifest file, and the payload adds only the receipt.
  lemma BytesAreConserved(
      m: Manifest, public: seq<string>, receipt: nat, r: Metrics, files: Files, index: Graph,
      js: set<string>, css: set<string>, seeds: seq<string>)
    requires Explains(m, public, receipt, r, files, index, js, css, seeds)
    ensures r.initialJavascript + r.initialCss + r.lazyTotal == r.generatedTotal
    ensures r.publicAssets + r.generatedTotal == SumBytes(m.files)
    ensures r.packagedPayload == SumBytes(m.files) + receipt
  {
    KindsAreDisjoint(js, css);
    TotalsConserve(PathSet(public), PathSet(Paths(m.graph)), js, css, files);
    FilesTotal(m.files, files);
  }

  method SumOf(paths: seq<string>, files: Files) returns (total: Option<nat>, largest: nat)
    requires (forall p :: p in paths ==> p in files) && Distinct(paths)
    ensures PathSet(paths) <= files.Keys
    ensures total == (if Total(PathSet(paths), files) <= MAX_U64 then Some(Total(PathSet(paths), files)) else None)
    ensures IsLargest(largest, PathSet(paths), files)
  {
    PickTotals(paths, files);
    var picked := Pick(paths, files);
    total := TotalFileBytes(picked);
    largest := LargestFile(picked);
    forall p | p in PathSet(paths) ensures files[p].bytes <= largest {
      var k :| 0 <= k < |paths| && paths[k] == p;
      assert picked[k] in picked;
    }
    if paths != [] {
      var f :| f in picked && f.bytes == largest;
      var k :| 0 <= k < |picked| && picked[k] == f;
      assert paths[k] in PathSet(paths);
    }
  }

  method SumOfSet(paths: set<string>, files: Files) returns (total: Option<nat>)
    requires paths <= files.Keys
    ensures total == (if Total(paths, files) <= MAX_U64 then Some(Total(paths, files)) else None)
  {
    var list := FilesFor(paths, files);
    total := TotalFileBytes(list);
  }

  function LazyPaths(graph: seq<Output>, initial: set<string>): (paths: seq<string>)
  {
    if graph == [] then []
    else LazyPaths(graph[..|graph| - 1], initial)
         + (if graph[|graph| - 1].path in initial then [] else [graph[|graph| - 1].path])
  }

  lemma {:induction false} LazyPathsAre(graph: seq<Output>, initial: set<string>)
    requires Distinct(Paths(graph))
    ensures PathSet(LazyPaths(graph, initial)) == PathSet(Paths(graph)) - initial && Distinct(LazyPaths(graph, initial))
  {
    if graph != [] {
      var front, last := graph[..|graph| - 1], graph[|graph| - 1].path;
      assert Paths(graph) == Paths(front) + [last];
      DistinctGrows(Paths(front), last);
      LazyPathsAre(front, initial);
      DistinctGrows(LazyPaths(front, initial), last);
      var lazy := LazyPaths(front, initial);
      assert last !in PathSet(Paths(front)) && last !in PathSet(lazy);
      assert PathSet(Paths(graph)) == PathSet(Paths(front)) + {last};
      assert PathSet(lazy + [last]) == PathSet(lazy) + {last};
    }
  }

  // Everything after the authority checks: the two traversals and the sums.
  method Measure(m: Manifest, public: seq<string>, receipt: nat, valid: string -> bool, files: Files, index: Graph)
    returns (result: Option<Metrics>, ghost js: set<string>, ghost css: set<string>, ghost seeds: seq<string>)
    requires IndexesFiles(files, m.files) && Distinct(FilePaths(m.files)) && Indexes(index, m.graph)
    requires Partitions(PathSet(public), PathSet(Paths(m.graph)), files.Keys)
    requires Distinct(public) && Distinct(Paths(m.graph)) && GraphLinked(m.graph, valid) && m.scriptEntry in index
    ensures result.Some? <==> FileExtension(m.scriptEntry) == "js" && SumBytes(m.files) + receipt <= MAX_U64
    ensures result.Some? ==> Explains(m, public, receipt, result.value, files, index, js, css, seeds)
  {
    js, css, seeds := {}, {}, [];
    if FileExtension(m.scriptEntry) == "js" {
      TraversalCannotFail(m.graph, index, valid, [m.scriptEntry], "js");
    } else {
      SeedReachable(index, [m.scriptEntry], m.scriptEntry);
    }
    var reachedJs := TraverseInitial([m.scriptEntry], "js", index);
    if reachedJs.None? {
      return None, js, css, seeds;
    }
    js := reachedJs.value;
    var cssSeeds := CssSeeds(reachedJs.value, index);
    seeds := cssSeeds;
    forall b | b in cssSeeds ensures b in index && FileExtension(b) == "css" {
      var p :| p in js && index[p].cssBundle == Some(b);
      BundleIsCss(m.graph, index, valid, p, b);
    }
    TraversalCannotFail(m.graph, index, valid, cssSeeds, "css");
    var reachedCss := TraverseInitial(cssSeeds, "css", index);
    css := reachedCss.value;
    result := Sum(m, public, receipt, files, index, reachedJs.value, reachedCss.value, cssSeeds);
  }

  // Why the sums cannot overflow unless the whole bundle does.
  lemma SumsFit(m: Manifest, p: set<string>, g: set<string>, files: Files, js: set<string>, css: set<string>)
    requires IndexesFiles(files, m.files) && Distinct(FilePaths(m.files))
    requires Partitions(p, g, files.Keys) && js <= g && css <= g
    ensures Total(p, files) + Total(g, files) == SumBytes(m.files)
    ensures Total(js, files) <= Total(g, files) && Total(css, files) <= Total(g, files)
    ensures Total(g - (js + css), files) <= Total(g, files)
  {
    TotalUnion(p, g, files);
    FilesTotal(m.files, files);
    TotalSubset(js, g, files);
    TotalSubset(css, g, files);
    TotalSubset(g - (js + css), g, files);
  }

  lemma PathsAreFiles(paths: seq<string>, files: Files)
    requires PathSet(paths) <= files.Keys
    ensures forall x :: x in paths ==> x in files
  {
    forall x | x in paths ensures x in files {
      assert x in PathSet(paths);
    }
  }

  method Sum(
      m: Manifest, public: seq<string>, receipt: nat, files: Files, index: Graph,
      js: set<string>, css: set<string>, ghost seeds: seq<string>)
    returns (result: Option<Metrics>)
    requires IndexesFiles(files, m.files) && Distinct(FilePaths(m.files)) && Indexes(index, m.graph)
    requires Partitions(PathSet(public), PathSet(Paths(m.graph)), files.Keys)
    requires Distinct(public) && Distinct(Paths(m.graph)) && js <= index.Keys && BundlesOf(seeds, js, index)
    requires IsInitial(index, [m.scriptEntry], js) && ExtendsOnly(js, "js")
    requires IsInitial(index, seeds, css) && ExtendsOnly(css, "css")
    ensures result.Some? <==> SumBytes(m.files) + receipt <= MAX_U64
    ensures result.Some? ==> Explains(m, public, receipt, result.value, files, index, js, css, seeds)
  {
    ghost var p, g := PathSet(public), PathSet(Paths(m.graph));
    SumsFit(m, p, g, files, js, css);
    var lazy := LazyPaths(m.graph, js + css);
    LazyPathsAre(m.graph, js + css);
    PathsAreFiles(lazy, files);
    PathsAreFiles(public, files);
    PathsAreFiles(Paths(m.graph), files);
    var lazyTotal, _ := SumOf(lazy, files);
    var publicAssets, largestPublic := SumOf(public, files);
    var generatedTotal, largestGenerated := SumOf(Paths(m.graph), files);
    var jsTotal := SumOfSet(js, files);
    var cssTotal := SumOfSet(css, files);
    if publicAssets.None? || generatedTotal.None? || jsTotal.None? || cssTotal.None? || lazyTotal.None? {
      return None;
    }
    var payload := publicAssets.value + generatedTotal.value + receipt;
    if payload > MAX_U64 {
      return None;
    }
    result := Some(Metrics(jsTotal.value, cssTotal.value, lazyTotal.value, publicAssets.value,
                           largestPublic, largestGenerated, generatedTotal.value, payload));
  }

  // Succeeds exactly on acceptable input, and then the metrics are explained by the two reachable sets.
  method DeriveMetrics(m: Manifest, public: seq<string>, receipt: nat, valid: string -> bool)
    returns (result: Option<Metrics>, ghost files: Files, ghost index: Graph,
             ghost js: set<string>, ghost css: set<string>, ghost seeds: seq<string>)
    ensures result.Some? <==> Acceptable(m, public, receipt, valid)
    ensures result.Some? ==> Explains(m, public, receipt, result.value, files, index, js, css, seeds)
  {
    result, index, js, css, seeds := None, map[], {}, {}, [];
    var byPath := IndexFiles(m.files);
    files := byPath;
    if |byPath| != |m.files| {
      return;
    }
    var publicOk := CheckPublic(public, valid);
    if !publicOk {
      return;
    }
    LowerDistinct(public);
    var graph := CheckGraph(m.graph, valid);
    if graph.None? {
      return;
    }
    index := graph.value;
    var publicPaths := PathSet(public);
    var authority := CheckAuthority(publicPaths, graph.value.Keys, byPath.Keys);
    if !authority || m.documentEntry !in publicPaths || m.scriptEntry !in graph.value {
      return;
    }
    var linked := CheckLinks(m.graph, graph.value, valid);
    if !linked {
      return;
    }
    result, js, css, seeds := Measure(m, public, receipt, valid, byPath, graph.value);
  }
}
