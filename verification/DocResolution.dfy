/**
 How internal/docgraph/docgraph.go resolves the edges between documents: an
 index of maps, the lookup stages, and a linear search that says what they mean.
 */
module DocResolution {
  import opened Common
  import opened Pieces
  import opened PathNames
  import opened PathLaws
  import opened StringOrder

  datatype Doc = Doc(path: string, docID: string)

  datatype Edge = Edge(kind: string, fromPath: string, toPath: string, toDocID: string, candidates: seq<string>,
                       reason: string)

  // The host's separator and Unicode's lower case of one character.
  datatype Host = Host(windows: bool, lower: char -> char)

  const MISSING := "missing_doc_target"
  const AMBIGUOUS := "ambiguous_doc_target"

  // ---------------------------------------------------------------- names

  function ToSlash(h: Host, s: string): string {
    if h.windows then Slashed(s) else s
  }

  function Lower(h: Host, s: string): (r: string)
    ensures |r| == |s| && forall i :: 0 <= i < |s| ==> r[i] == h.lower(s[i])
  {
    seq(|s|, i requires 0 <= i < |s| => h.lower(s[i]))
  }

  function Normalize(h: Host, value: string): (r: string)
    ensures r != "." && r != ".." && !HasPrefix(r, "../")
  {
    var cleaned := Clean(TrimPrefix(ToSlash(h, TrimSpace(value)), "/"));
    if cleaned == "." || cleaned == "" || cleaned == ".." || HasPrefix(cleaned, "../") then "" else cleaned
  }

  function EnsureExtension(target: string): string {
    if target == "" || HasSuffix(target, "/") || Ext(target) != "" then target else target + ".md"
  }

  predicate Semantic(kind: string) {
    kind in {"fulfills", "implements", "verifies", "affects", "supports", "materializes", "supersedes", "experiences",
             "stages", "maps", "grounds_in", "doc_related", "doc_depends", "doc_supports", "doc_contradicts",
             "doc_supersedes"}
  }

  // ---------------------------------------------------------------- sorted without repeats

  function Dedupe(s: seq<string>): seq<string> {
    if s == [] then []
    else
      var r := Dedupe(s[..|s| - 1]);
      var p := s[|s| - 1];
      if p != "" && (r == [] || r[|r| - 1] != p) then r + [p] else r
  }

  function UniqueSorted(paths: seq<string>): seq<string> {
    Dedupe(Sort(paths))
  }

  lemma {:induction false} DedupeAscends(s: seq<string>)
    requires Sorted(s)
    ensures Ascending(Dedupe(s))
    ensures forall x :: x in Dedupe(s) <==> x in s && x != ""
    ensures Dedupe(s) != [] ==> Leq(Last(Dedupe(s)), Last(s))
    decreases |s|
  {
    if s != [] {
      var n := |s| - 1;
      var b := s[..n];
      DedupeAscends(b);
      var r := Dedupe(b);
      LeqTotal(s[n], s[n]);
      assert forall x :: x in s <==> x in b || x == s[n];
      forall i | 0 <= i < |r| ensures Leq(r[i], s[n]) {
        assert r[i] in b;
        var j :| 0 <= j < |b| && b[j] == r[i];
        assert Leq(s[j], s[n]);
      }
      if s[n] != "" && (r == [] || Last(r) != s[n]) {
        forall i | 0 <= i < |r| ensures r[i] != s[n] {
          if r[i] == s[n] {
            LeqTotal(r[i], Last(r));
          }
        }
      }
    }
  }

  /** Exactly the nonempty strings of the list, each once, in ascending order. */
  lemma UniqueSortedIs(paths: seq<string>)
    ensures Ascending(UniqueSorted(paths))
    ensures forall x :: x in UniqueSorted(paths) <==> x in paths && x != ""
  {
    SortSorted(paths);
    DedupeAscends(Sort(paths));
    forall x ensures x in Sort(paths) <==> x in paths {
      assert x in Sort(paths) <==> x in multiset(Sort(paths));
      assert x in paths <==> x in multiset(paths);
    }
  }

  method UniqueSortedDocPaths(paths: seq<string>) returns (result: seq<string>)
    ensures result == UniqueSorted(paths)
  {
    var out := Sort(paths);
    result := [];
    for i := 0 to |out|
      invariant result == Dedupe(out[..i])
    {
      var p := out[i];
      assert out[..i + 1][..i] == out[..i];
      if p != "" && (|result| == 0 || result[|result| - 1] != p) {
        result := result + [p];
      }
    }
    assert out[..|out|] == out;
  }

  // ---------------------------------------------------------------- linear search

  // A document under each of the names it can be found by.
  datatype Named = Named(path: string, folded: string, base: string, foldedBase: string, docID: string)

  function NameOf(h: Host, doc: Doc): Named {
    var p := Normalize(h, doc.path);
    Named(p, Lower(h, p), Base(p), Lower(h, Base(p)), doc.docID)
  }

  function NamesOf(h: Host, docs: seq<Doc>): (r: seq<Named>)
    ensures |r| == |docs| && forall i :: 0 <= i < |docs| ==> r[i] == NameOf(h, docs[i])
  {
    seq(|docs|, i requires 0 <= i < |docs| => NameOf(h, docs[i]))
  }

  function Add(docs: seq<Named>, d: Named): seq<Named> {
    if d.path != "" then docs + [d] else docs
  }

  // Documents without a usable path cannot be found.
  function Listed(all: seq<Named>): seq<Named> {
    if all == [] then [] else Add(Listed(all[..|all| - 1]), all[|all| - 1])
  }

  function Names(h: Host, docs: seq<Doc>): seq<Named> {
    Listed(NamesOf(h, docs))
  }

  datatype Query =
    | ByPath(key: string)
    | ByFoldedPath(key: string)
    | ByBase(key: string)
    | ByFoldedBase(key: string)
    | ById(key: string)

  predicate Answers(d: Named, q: Query) {
    match q
    case ByPath(k) => d.path == k
    case ByFoldedPath(k) => d.folded == k
    case ByBase(k) => d.base == k
    case ByFoldedBase(k) => d.foldedBase == k
    case ById(k) => d.docID != "" && d.docID == k
  }

  // The paths of the documents that answer, in document order.
  function Select(docs: seq<Named>, q: Query): seq<string> {
    if docs == [] then []
    else
      var n := |docs| - 1;
      Select(docs[..n], q) + if Answers(docs[n], q) then [docs[n].path] else []
  }

  // All that answer, each once, in ascending order.
  function Search(docs: seq<Named>, q: Query): seq<string> {
    UniqueSorted(Select(docs, q))
  }

  function OrElse(a: seq<string>, b: seq<string>): seq<string> {
    if a != [] then a else b
  }

  function Lookup(h: Host, docs: seq<Named>, candidate: string): seq<string> {
    if candidate == "" then []
    else if Select(docs, ByPath(candidate)) != [] then [candidate]
    else Search(docs, ByFoldedPath(Lower(h, candidate)))
  }

  // The first stage that finds anything decides.
  function FirstHit(h: Host, docs: seq<Named>, stages: seq<string>): seq<string> {
    if stages == [] then []
    else OrElse(Lookup(h, docs, Normalize(h, stages[0])), FirstHit(h, docs, stages[1..]))
  }

  function ByBaseName(h: Host, docs: seq<Named>, base: string): seq<string> {
    if base == "." || base == "" then []
    else OrElse(Search(docs, ByBase(base)), Search(docs, ByFoldedBase(Lower(h, base))))
  }

  function Raw(target: string): string {
    EnsureExtension(Slashed(TrimSpace(target)))
  }

  function DirStage(h: Host, fromPath: string, raw: string): seq<string> {
    var dir := Dir(ToSlash(h, fromPath));
    if dir != "." && dir != "" then [JoinPath(dir, raw)] else []
  }

  function RootStages(h: Host, roots: seq<string>, raw: string): seq<string> {
    if roots == [] then []
    else RootStages(h, roots[..|roots| - 1], raw) + [JoinPath(TrimSuffix(ToSlash(h, roots[|roots| - 1]), "/"), raw)]
  }

  function Stages(h: Host, fromPath: string, roots: seq<string>, raw: string): seq<string> {
    [raw] + DirStage(h, fromPath, raw) + RootStages(h, roots, raw)
  }

  function SearchPath(h: Host, docs: seq<Named>, fromPath: string, target: string, roots: seq<string>): seq<string> {
    var raw := Raw(target);
    OrElse(FirstHit(h, docs, Stages(h, fromPath, roots, raw)), ByBaseName(h, docs, Base(Normalize(h, raw))))
  }

  // The document id that a semantic relation's target may stand for.
  function TargetId(h: Host, target: string): string {
    TrimSuffix(Base(Normalize(h, target)), ".md")
  }

  function SearchEdge(h: Host, docs: seq<Named>, roots: seq<string>, e: Edge): seq<string> {
    if e.toDocID != "" then Search(docs, ById(e.toDocID))
    else if e.toPath == "" then []
    else
      var found := SearchPath(h, docs, e.fromPath, e.toPath, roots);
      if found == [] && Semantic(e.kind) && TargetId(h, e.toPath) != "" then Search(docs, ById(TargetId(h, e.toPath)))
      else found
  }

  // The edge with what was found; None when it is dropped because it points back at its own document.
  function Outcome(e: Edge, found: seq<string>): Option<Edge> {
    if |found| == 1 then (if found[0] == e.fromPath then None else Some(e.(toPath := found[0])))
    else if found == [] then Some(e.(reason := MISSING))
    else Some(e.(candidates := found, reason := AMBIGUOUS))
  }

  function Cleared(e: Edge): Edge {
    e.(candidates := [], reason := "")
  }

  function ResolveEdge(h: Host, docs: seq<Named>, roots: seq<string>, edge: Edge): Option<Edge> {
    var e := Cleared(edge);
    if e.kind == "code" then Some(e) else Outcome(e, SearchEdge(h, docs, roots, e))
  }

  // The outcomes that are kept, in order.
  function Collect(resolve: Edge -> Option<Edge>, edges: seq<Edge>): seq<Edge> {
    if edges == [] then []
    else
      var r := resolve(edges[|edges| - 1]);
      Collect(resolve, edges[..|edges| - 1]) + if r.Some? then [r.value] else []
  }

  function Resolver(h: Host, docs: seq<Named>, roots: seq<string>): Edge -> Option<Edge> {
    e => ResolveEdge(h, docs, roots, e)
  }

  function ResolveAll(h: Host, docs: seq<Named>, roots: seq<string>, edges: seq<Edge>): seq<Edge> {
    Collect(Resolver(h, docs, roots), edges)
  }

  // ---------------------------------------------------------------- what a search finds

  ghost predicate Exists(docs: seq<Named>, p: string) {
    exists i :: 0 <= i < |docs| && docs[i].path == p
  }

  ghost predicate Usable(docs: seq<Named>) {
    forall i :: 0 <= i < |docs| ==> docs[i].path != ""
  }

  lemma AddExists(docs: seq<Named>, d: Named, p: string)
    ensures Exists(Add(docs, d), p) <==> Exists(docs, p) || (d.path != "" && d.path == p)
  {
    if Exists(docs, p) {
      var i :| 0 <= i < |docs| && docs[i].path == p;
      assert Add(docs, d)[i].path == p;
    }
    if d.path != "" {
      assert Add(docs, d)[|docs|] == d;
    }
  }

  /** A path can be found exactly when it is nonempty and names some document. */
  lemma {:induction false} ListedIs(all: seq<Named>, p: string)
    ensures Exists(Listed(all), p) <==> p != "" && Exists(all, p)
    ensures Usable(Listed(all))
  {
    if all != [] {
      var n := |all| - 1;
      ListedIs(all[..n], p);
      AddExists(Listed(all[..n]), all[n], p);
      assert forall i :: 0 <= i < n ==> all[..n][i] == all[i];
    }
  }

  // Ascending, and every entry is an existing document.
  ghost predicate Found(docs: seq<Named>, s: seq<string>) {
    Ascending(s) && forall p :: p in s ==> Exists(docs, p)
  }

  lemma {:induction false} SelectIs(docs: seq<Named>, q: Query, p: string)
    ensures p in Select(docs, q) <==> exists i :: 0 <= i < |docs| && Answers(docs[i], q) && docs[i].path == p
  {
    if docs != [] {
      var n := |docs| - 1;
      SelectIs(docs[..n], q, p);
      assert forall i :: 0 <= i < n ==> docs[..n][i] == docs[i];
    }
  }

  /** A search finds exactly the documents that answer, each once, in ascending order. */
  lemma SearchIs(docs: seq<Named>, q: Query)
    requires Usable(docs)
    ensures Ascending(Search(docs, q))
    ensures forall p :: p in Search(docs, q) <==>
                        exists i :: 0 <= i < |docs| && Answers(docs[i], q) && docs[i].path == p
    ensures Found(docs, Search(docs, q))
  {
    UniqueSortedIs(Select(docs, q));
    forall p ensures p in Search(docs, q) <==> exists i :: 0 <= i < |docs| && Answers(docs[i], q) && docs[i].path == p {
      SelectIs(docs, q, p);
    }
  }

  lemma LookupFound(h: Host, docs: seq<Named>, candidate: string)
    requires Usable(docs)
    ensures Found(docs, Lookup(h, docs, candidate))
  {
    SearchIs(docs, ByFoldedPath(Lower(h, candidate)));
    var s := Select(docs, ByPath(candidate));
    if s != [] {
      SelectIs(docs, ByPath(candidate), s[0]);
    }
  }

  lemma {:induction false} FirstHitFound(h: Host, docs: seq<Named>, stages: seq<string>)
    requires Usable(docs)
    ensures Found(docs, FirstHit(h, docs, stages))
  {
    if stages != [] {
      LookupFound(h, docs, Normalize(h, stages[0]));
      FirstHitFound(h, docs, stages[1..]);
    }
  }

  lemma ByBaseNameFound(h: Host, docs: seq<Named>, base: string)
    requires Usable(docs)
    ensures Found(docs, ByBaseName(h, docs, base))
  {
    SearchIs(docs, ByBase(base));
    SearchIs(docs, ByFoldedBase(Lower(h, base)));
  }

  lemma SearchPathFound(h: Host, docs: seq<Named>, fromPath: string, target: string, roots: seq<string>)
    requires Usable(docs)
    ensures Found(docs, SearchPath(h, docs, fromPath, target, roots))
  {
    var raw := Raw(target);
    FirstHitFound(h, docs, Stages(h, fromPath, roots, raw));
    ByBaseNameFound(h, docs, Base(Normalize(h, raw)));
  }

  lemma SearchFound(h: Host, docs: seq<Named>, roots: seq<string>, e: Edge)
    requires Usable(docs)
    ensures Found(docs, SearchEdge(h, docs, roots, e))
  {
    if e.toDocID != "" {
      SearchIs(docs, ById(e.toDocID));
    } else if e.toPath != "" {
      SearchPathFound(h, docs, e.fromPath, e.toPath, roots);
      SearchIs(docs, ById(TargetId(h, e.toPath)));
    }
  }

  /** Every edge other than code is a dropped self-edge, resolved to another existing document,
      missing, or ambiguous between two or more existing documents in ascending order. */
  lemma EdgeIsClassified(h: Host, docs: seq<Named>, roots: seq<string>, edge: Edge)
    requires Usable(docs) && edge.kind != "code"
    ensures var found := SearchEdge(h, docs, roots, Cleared(edge));
            match ResolveEdge(h, docs, roots, edge)
            case None => found == [edge.fromPath] && Exists(docs, edge.fromPath)
            case Some(e) =>
              && e == edge.(toPath := e.toPath, candidates := e.candidates, reason := e.reason)
              && ((e.reason == "" && e.candidates == [] && found == [e.toPath] && e.toPath != edge.fromPath
                   && Exists(docs, e.toPath))
                  || (e.reason == MISSING && e.candidates == found == [] && e.toPath == edge.toPath)
                  || (e.reason == AMBIGUOUS && e.candidates == found && e.toPath == edge.toPath && |found| >= 2
                      && Found(docs, found)))
  {
    SearchFound(h, docs, roots, Cleared(edge));
  }

  // ---------------------------------------------------------------- the index

  datatype Index = Index(exactPath: map<string, string>, foldedPath: map<string, seq<string>>,
                         exactBase: map<string, seq<string>>, foldedBase: map<string, seq<string>>,
                         docIDs: map<string, seq<string>>)

  // A missing key reads as the empty list.
  function At(m: map<string, seq<string>>, k: string): seq<string> {
    if k in m then m[k] else []
  }

  ghost predicate IndexesPaths(m: map<string, string>, docs: seq<Named>) {
    && (forall k :: k in m <==> Select(docs, ByPath(k)) != [])
    && (forall k :: k in m ==> m[k] == k)
  }

  ghost predicate IndexesFolded(m: map<string, seq<string>>, docs: seq<Named>) {
    forall k :: At(m, k) == Select(docs, ByFoldedPath(k))
  }

  ghost predicate IndexesBases(m: map<string, seq<string>>, docs: seq<Named>) {
    forall k :: At(m, k) == Select(docs, ByBase(k))
  }

  ghost predicate IndexesFoldedBases(m: map<string, seq<string>>, docs: seq<Named>) {
    forall k :: At(m, k) == Select(docs, ByFoldedBase(k))
  }

  ghost predicate IndexesIds(m: map<string, seq<string>>, docs: seq<Named>) {
    forall k :: At(m, k) == Select(docs, ById(k))
  }

  ghost predicate Indexes(ix: Index, docs: seq<Named>) {
    && IndexesPaths(ix.exactPath, docs)
    && IndexesFolded(ix.foldedPath, docs)
    && IndexesBases(ix.exactBase, docs)
    && IndexesFoldedBases(ix.foldedBase, docs)
    && IndexesIds(ix.docIDs, docs)
  }

  function Append(m: map<string, seq<string>>, k: string, p: string): map<string, seq<string>> {
    m[k := At(m, k) + [p]]
  }

  function Entered(ix: Index, d: Named): Index {
    Index(ix.exactPath[d.path := d.path], Append(ix.foldedPath, d.folded, d.path), Append(ix.exactBase, d.base, d.path),
          Append(ix.foldedBase, d.foldedBase, d.path),
          if d.docID != "" then Append(ix.docIDs, d.docID, d.path) else ix.docIDs)
  }

  lemma SelectAdd(docs: seq<Named>, d: Named, q: Query)
    ensures Select(docs + [d], q) == Select(docs, q) + if Answers(d, q) then [d.path] else []
  {
    assert (docs + [d])[..|docs|] == docs;
  }

  lemma EnterPath(m: map<string, string>, docs: seq<Named>, d: Named)
    requires IndexesPaths(m, docs)
    ensures IndexesPaths(m[d.path := d.path], docs + [d])
  {
    forall k ensures k in m[d.path := d.path] <==> Select(docs + [d], ByPath(k)) != [] {
      SelectAdd(docs, d, ByPath(k));
    }
  }

  lemma EnterFolded(m: map<string, seq<string>>, docs: seq<Named>, d: Named)
    requires IndexesFolded(m, docs)
    ensures IndexesFolded(Append(m, d.folded, d.path), docs + [d])
  {
    forall k ensures At(Append(m, d.folded, d.path), k) == Select(docs + [d], ByFoldedPath(k)) {
      SelectAdd(docs, d, ByFoldedPath(k));
    }
  }

  lemma EnterBase(m: map<string, seq<string>>, docs: seq<Named>, d: Named)
    requires IndexesBases(m, docs)
    ensures IndexesBases(Append(m, d.base, d.path), docs + [d])
  {
    forall k ensures At(Append(m, d.base, d.path), k) == Select(docs + [d], ByBase(k)) {
      SelectAdd(docs, d, ByBase(k));
    }
  }

  lemma EnterFoldedBase(m: map<string, seq<string>>, docs: seq<Named>, d: Named)
    requires IndexesFoldedBases(m, docs)
    ensures IndexesFoldedBases(Append(m, d.foldedBase, d.path), docs + [d])
  {
    forall k ensures At(Append(m, d.foldedBase, d.path), k) == Select(docs + [d], ByFoldedBase(k)) {
      SelectAdd(docs, d, ByFoldedBase(k));
    }
  }

  lemma EnterId(m: map<string, seq<string>>, docs: seq<Named>, d: Named)
    requires IndexesIds(m, docs)
    ensures IndexesIds(if d.docID != "" then Append(m, d.docID, d.path) else m, docs + [d])
  {
    var m' := if d.docID != "" then Append(m, d.docID, d.path) else m;
    forall k ensures At(m', k) == Select(docs + [d], ById(k)) { SelectAdd(docs, d, ById(k)); }
  }

  /** Entering a document keeps every map a picture of the linear search. */
  lemma EnteredIndexes(ix: Index, docs: seq<Named>, d: Named)
    requires Indexes(ix, docs)
    ensures Indexes(Entered(ix, d), docs + [d])
  {
    EnterPath(ix.exactPath, docs, d);
    EnterFolded(ix.foldedPath, docs, d);
    EnterBase(ix.exactBase, docs, d);
    EnterFoldedBase(ix.foldedBase, docs, d);
    EnterId(ix.docIDs, docs, d);
  }

  lemma EmptyIndexes()
    ensures Indexes(Index(map[], map[], map[], map[], map[]), [])
  {
  }

  method NewDocResolutionIndex(h: Host, docs: seq<Doc>) returns (ix: Index)
    ensures Indexes(ix, Names(h, docs))
  {
    ix := Index(map[], map[], map[], map[], map[]);
    EmptyIndexes();
    ghost var all, sofar := NamesOf(h, docs), [];
    for i := 0 to |docs|
      invariant sofar == Listed(all[..i])
      invariant Indexes(ix, sofar)
    {
      NextListed(all, i);
      var p := Normalize(h, docs[i].path);
      if p == "" {
        continue;
      }
      ix := Enter(ix, p, Lower(h, p), Base(p), Lower(h, Base(p)), docs[i].docID, sofar);
      sofar := sofar + [all[i]];
    }
    assert all[..|docs|] == all;
  }

  lemma NextListed(all: seq<Named>, i: nat)
    requires i < |all|
    ensures Listed(all[..i + 1]) == Add(Listed(all[..i]), all[i])
  {
    assert all[..i + 1][..i] == all[..i];
  }

  method Enter(ix: Index, p: string, folded: string, base: string, foldedBase: string, docID: string,
               ghost docs: seq<Named>)
    returns (r: Index)
    requires Indexes(ix, docs)
    ensures Indexes(r, docs + [Named(p, folded, base, foldedBase, docID)])
  {
    EnteredIndexes(ix, docs, Named(p, folded, base, foldedBase, docID));
    r := ix.(exactPath := ix.exactPath[p := p]);
    r := r.(foldedPath := r.foldedPath[folded := At(r.foldedPath, folded) + [p]]);
    r := r.(exactBase := r.exactBase[base := At(r.exactBase, base) + [p]]);
    r := r.(foldedBase := r.foldedBase[foldedBase := At(r.foldedBase, foldedBase) + [p]]);
    if docID != "" {
      r := r.(docIDs := r.docIDs[docID := At(r.docIDs, docID) + [p]]);
    }
  }

  // ---------------------------------------------------------------- lookup through the index

  method BuildStages(h: Host, fromPath: string, raw: string, roots: seq<string>) returns (stages: seq<string>)
    ensures stages == Stages(h, fromPath, roots, raw)
  {
    stages := [raw];
    var beside := BuildDirStage(h, fromPath, raw);
    stages := stages + beside;
    var rooted := BuildRootStages(h, raw, roots);
    stages := stages + rooted;
  }

  method BuildDirStage(h: Host, fromPath: string, raw: string) returns (stages: seq<string>)
    ensures stages == DirStage(h, fromPath, raw)
  {
    stages := [];
    var dir := Dir(ToSlash(h, fromPath));
    if dir != "." && dir != "" {
      stages := [JoinPath(dir, raw)];
    }
  }

  method BuildRootStages(h: Host, raw: string, roots: seq<string>) returns (stages: seq<string>)
    ensures stages == RootStages(h, roots, raw)
  {
    stages := [];
    for i := 0 to |roots|
      invariant stages == RootStages(h, roots[..i], raw)
    {
      assert roots[..i + 1][..i] == roots[..i];
      stages := stages + [JoinPath(TrimSuffix(ToSlash(h, roots[i]), "/"), raw)];
    }
    assert roots[..|roots|] == roots;
  }

  method LookupStages(h: Host, ix: Index, stages: seq<string>, ghost docs: seq<Named>) returns (r: seq<string>)
    requires Indexes(ix, docs)
    ensures r == FirstHit(h, docs, stages)
  {
    var seen := {};
    for i := 0 to |stages|
      invariant forall c :: c in seen ==> Lookup(h, docs, c) == []
      invariant FirstHit(h, docs, stages[i..]) == FirstHit(h, docs, stages)
    {
      assert stages[i..][1..] == stages[i + 1..];
      var candidate := Normalize(h, stages[i]);
      if candidate == "" || candidate in seen {
        continue;
      }
      seen := seen + {candidate};
      if candidate in ix.exactPath {
        return [ix.exactPath[candidate]];
      }
      var folded := UniqueSortedDocPaths(At(ix.foldedPath, Lower(h, candidate)));
      if |folded| > 0 {
        return folded;
      }
    }
    return [];
  }

  method ResolvePath(h: Host, ix: Index, fromPath: string, rawTarget: string, roots: seq<string>,
                     ghost docs: seq<Named>)
    returns (r: seq<string>)
    requires Indexes(ix, docs)
    ensures r == SearchPath(h, docs, fromPath, rawTarget, roots)
  {
    var raw := EnsureExtension(Slashed(TrimSpace(rawTarget)));
    var stages := BuildStages(h, fromPath, raw, roots);
    var hit := LookupStages(h, ix, stages, docs);
    if |hit| > 0 {
      return hit;
    }
    var base := Base(Normalize(h, raw));
    if base == "." || base == "" {
      return [];
    }
    var exact := UniqueSortedDocPaths(At(ix.exactBase, base));
    if |exact| > 0 {
      return exact;
    }
    r := UniqueSortedDocPaths(At(ix.foldedBase, Lower(h, base)));
  }

  method FindCandidates(h: Host, ix: Index, edge: Edge, roots: seq<string>, ghost docs: seq<Named>)
    returns (candidates: seq<string>)
    requires Indexes(ix, docs)
    ensures candidates == SearchEdge(h, docs, roots, edge)
  {
    candidates := [];
    if edge.toDocID != "" {
      candidates := UniqueSortedDocPaths(At(ix.docIDs, edge.toDocID));
    } else if edge.toPath != "" {
      candidates := ResolvePath(h, ix, edge.fromPath, edge.toPath, roots, docs);
      if |candidates| == 0 && Semantic(edge.kind) {
        var id := TrimSuffix(Base(Normalize(h, edge.toPath)), ".md");
        if id != "" {
          candidates := UniqueSortedDocPaths(At(ix.docIDs, id));
        }
      }
    }
  }

  method ResolveDocEdges(h: Host, docs: seq<Doc>, edges: seq<Edge>, roots: seq<string>) returns (resolved: seq<Edge>)
    ensures resolved == ResolveAll(h, Names(h, docs), roots, edges)
  {
    var ix := NewDocResolutionIndex(h, docs);
    ghost var names := Names(h, docs);
    resolved := [];
    for i := 0 to |edges|
      invariant resolved == ResolveAll(h, names, roots, edges[..i])
    {
      assert edges[..i + 1][..i] == edges[..i];
      var edge := edges[i].(candidates := [], reason := "");
      if edge.kind == "code" {
        resolved := resolved + [edge];
        continue;
      }
      var candidates := FindCandidates(h, ix, edge, roots, names);
      if |candidates| == 1 {
        if candidates[0] == edge.fromPath {
          continue;
        }
        edge := edge.(toPath := candidates[0]);
      } else if |candidates| == 0 {
        edge := edge.(reason := MISSING);
      } else {
        edge := edge.(candidates := candidates, reason := AMBIGUOUS);
      }
      resolved := resolved + [edge];
    }
    assert edges[..|edges|] == edges;
  }

  // ---------------------------------------------------------------- what documents are found by

  /** A document is found by its normal path, by that path in lower case, by its last piece, by that in lower case
      and by its id, unless it has no normal path. */
  lemma NamesAre(h: Host, docs: seq<Doc>, d: Named)
    ensures d in Names(h, docs) <==>
              exists i :: 0 <= i < |docs| && IsNamed(h, docs[i], d)
  {
    ListedHolds(NamesOf(h, docs), d);
    if d in Names(h, docs) {
      var i :| 0 <= i < |docs| && NamesOf(h, docs)[i] == d;
      assert IsNamed(h, docs[i], d);
    }
    if i :| 0 <= i < |docs| && IsNamed(h, docs[i], d) { assert NamesOf(h, docs)[i] == d; }
  }

  predicate IsNamed(h: Host, doc: Doc, d: Named) {
    && d.path == Normalize(h, doc.path) && d.path != "" && d.docID == doc.docID
    && d.folded == Lower(h, Normalize(h, doc.path))
    && d.base == Base(Normalize(h, doc.path)) && d.foldedBase == Lower(h, Base(Normalize(h, doc.path)))
  }

  /** A normal path is cleaned and never leads out of the root. */
  lemma NormalStaysInside(h: Host, value: string)
    ensures var p := Normalize(h, value);
            p == "" || exists stack, rooted :: Normal(stack, rooted) && ".." !in stack && p == Show(stack, rooted)
  {
    var text := TrimPrefix(ToSlash(h, TrimSpace(value)), "/");
    var rooted := HasPrefix(text, "/");
    var stack := PushAll([], Split(text, SLASH), rooted);
    CleanIdempotent(text);
    if ".." in stack { ShownParents(stack, rooted); }
  }

  // ---------------------------------------------------------------- precedence

  /** A candidate leads to the document of exactly that path if there is one, and otherwise to exactly those
      whose path is the same in lower case. */
  lemma LookupFindsExactly(h: Host, docs: seq<Named>, candidate: string, p: string)
    requires Usable(docs)
    ensures p in Lookup(h, docs, candidate) <==>
              candidate != ""
              && if Exists(docs, candidate) then p == candidate
                 else exists i :: 0 <= i < |docs| && docs[i].folded == Lower(h, candidate) && docs[i].path == p
  {
    SelectIs(docs, ByPath(candidate), candidate);
    SearchIs(docs, ByFoldedPath(Lower(h, candidate)));
    assert Exists(docs, candidate) <==>
           exists i :: 0 <= i < |docs| && Answers(docs[i], ByPath(candidate)) && docs[i].path == candidate;
    var found := Select(docs, ByPath(candidate));
    if found != [] { SelectIs(docs, ByPath(candidate), found[0]); }
    assert (exists i :: 0 <= i < |docs| && docs[i].folded == Lower(h, candidate) && docs[i].path == p) <==>
           exists i :: 0 <= i < |docs| && Answers(docs[i], ByFoldedPath(Lower(h, candidate))) && docs[i].path == p;
  }

  // Some document with that base name has path `p`.
  ghost predicate BaseLeadsTo(docs: seq<Named>, base: string, p: string) {
    exists i :: 0 <= i < |docs| && docs[i].base == base && docs[i].path == p
  }

  ghost predicate FoldedBaseLeadsTo(docs: seq<Named>, base: string, p: string) {
    exists i :: 0 <= i < |docs| && docs[i].foldedBase == base && docs[i].path == p
  }

  ghost predicate IdLeadsTo(docs: seq<Named>, id: string, p: string) {
    id != "" && exists i :: 0 <= i < |docs| && docs[i].docID == id && docs[i].path == p
  }

  lemma NamesLeadTo(docs: seq<Named>, q: Query, p: string)
    requires Usable(docs)
    ensures p in Search(docs, q) <==>
              match q
              case ByPath(k) => exists i :: 0 <= i < |docs| && docs[i].path == k == p
              case ByFoldedPath(k) => exists i :: 0 <= i < |docs| && docs[i].folded == k && docs[i].path == p
              case ByBase(k) => BaseLeadsTo(docs, k, p)
              case ByFoldedBase(k) => FoldedBaseLeadsTo(docs, k, p)
              case ById(k) => IdLeadsTo(docs, k, p)
  {
    SearchIs(docs, q);
  }

  /** A base name leads to exactly the documents that have it, or if there are none, to those that have it in
      lower case. */
  lemma BaseNameFindsExactly(h: Host, docs: seq<Named>, base: string, p: string)
    requires Usable(docs) && base != "." && base != ""
    ensures p in ByBaseName(h, docs, base) <==>
              if exists q :: BaseLeadsTo(docs, base, q) then BaseLeadsTo(docs, base, p)
              else FoldedBaseLeadsTo(docs, Lower(h, base), p)
  {
    NamesLeadTo(docs, ByFoldedBase(Lower(h, base)), p);
    NamesLeadTo(docs, ByBase(base), p);
    var exact := Search(docs, ByBase(base));
    if exact != [] { NamesLeadTo(docs, ByBase(base), exact[0]); }
    if q :| BaseLeadsTo(docs, base, q) { NamesLeadTo(docs, ByBase(base), q); }
  }

  /** An edge with a document id leads to exactly the documents of that id.  Another edge is searched by path, and
      only when that finds nothing and the relation is semantic, by the id its path spells. */
  lemma EdgeFindsExactly(h: Host, docs: seq<Named>, roots: seq<string>, e: Edge, p: string)
    requires Usable(docs)
    ensures p in SearchEdge(h, docs, roots, e) <==>
              if e.toDocID != "" then IdLeadsTo(docs, e.toDocID, p)
              else if e.toPath == "" then false
              else if SearchPath(h, docs, e.fromPath, e.toPath, roots) != []
              then p in SearchPath(h, docs, e.fromPath, e.toPath, roots)
              else Semantic(e.kind) && IdLeadsTo(docs, TargetId(h, e.toPath), p)
  {
    NamesLeadTo(docs, ById(e.toDocID), p);
    NamesLeadTo(docs, ById(TargetId(h, e.toPath)), p);
  }

  // Where a target leads when it is taken for `candidate`.
  function TakenAs(h: Host, docs: seq<Named>, candidate: string): seq<string> {
    Lookup(h, docs, Normalize(h, candidate))
  }

  // The target below a root.
  function Below(h: Host, root: string, raw: string): string {
    JoinPath(TrimSuffix(ToSlash(h, root), "/"), raw)
  }

  lemma {:induction false} FirstHitConcat(h: Host, docs: seq<Named>, a: seq<string>, b: seq<string>)
    ensures FirstHit(h, docs, a + b) == OrElse(FirstHit(h, docs, a), FirstHit(h, docs, b))
  {
    if a == [] {
      assert a + b == b;
    } else {
      assert (a + b)[1..] == a[1..] + b;
      FirstHitConcat(h, docs, a[1..], b);
    }
  }

  lemma OneStage(h: Host, docs: seq<Named>, candidate: string)
    ensures FirstHit(h, docs, [candidate]) == TakenAs(h, docs, candidate)
  {
    assert [candidate][1..] == [];
  }

  lemma LastRoot(h: Host, docs: seq<Named>, roots: seq<string>, raw: string)
    requires roots != []
    ensures var n := |roots| - 1;
            FirstHit(h, docs, RootStages(h, roots, raw))
            == OrElse(FirstHit(h, docs, RootStages(h, roots[..n], raw)), TakenAs(h, docs, Below(h, roots[n], raw)))
  {
    var n := |roots| - 1;
    FirstHitConcat(h, docs, RootStages(h, roots[..n], raw), [Below(h, roots[n], raw)]);
    OneStage(h, docs, Below(h, roots[n], raw));
  }

  lemma {:induction false} FirstRootWins(h: Host, docs: seq<Named>, roots: seq<string>, raw: string, k: nat)
    requires k <= |roots| && forall i :: 0 <= i < k ==> TakenAs(h, docs, Below(h, roots[i], raw)) == []
    ensures k == |roots| ==> FirstHit(h, docs, RootStages(h, roots, raw)) == []
    ensures k < |roots| && TakenAs(h, docs, Below(h, roots[k], raw)) != [] ==>
              FirstHit(h, docs, RootStages(h, roots, raw)) == TakenAs(h, docs, Below(h, roots[k], raw))
    decreases |roots|
  {
    if roots != [] {
      var n := |roots| - 1;
      FirstRootWins(h, docs, roots[..n], raw, if k <= n then k else n);
      LastRoot(h, docs, roots, raw);
    }
  }

  lemma StagesInOrder(h: Host, docs: seq<Named>, fromPath: string, roots: seq<string>, raw: string)
    ensures FirstHit(h, docs, Stages(h, fromPath, roots, raw))
            == OrElse(TakenAs(h, docs, raw),
                      OrElse(FirstHit(h, docs, DirStage(h, fromPath, raw)),
                             FirstHit(h, docs, RootStages(h, roots, raw))))
  {
    var dir, below := DirStage(h, fromPath, raw), RootStages(h, roots, raw);
    FirstHitConcat(h, docs, [raw] + dir, below);
    FirstHitConcat(h, docs, [raw], dir);
    OneStage(h, docs, raw);
  }

  // The target beside the document that names it, if that document is in a directory.
  predicate HasBeside(h: Host, fromPath: string) {
    Dir(ToSlash(h, fromPath)) != "." && Dir(ToSlash(h, fromPath)) != ""
  }

  function Beside(h: Host, fromPath: string, raw: string): string {
    JoinPath(Dir(ToSlash(h, fromPath)), raw)
  }

  predicate NotBeside(h: Host, docs: seq<Named>, fromPath: string, raw: string) {
    HasBeside(h, fromPath) ==> TakenAs(h, docs, Beside(h, fromPath, raw)) == []
  }

  /** A target is taken as it stands if that leads anywhere, else beside the document that names it, else below
      the first root where it is found, else by its base name. */
  lemma Precedence(h: Host, docs: seq<Named>, fromPath: string, target: string, roots: seq<string>, k: nat)
    requires k <= |roots|
    ensures var raw, found := Raw(target), SearchPath(h, docs, fromPath, target, roots);
            if TakenAs(h, docs, raw) != [] then found == TakenAs(h, docs, raw)
            else if !NotBeside(h, docs, fromPath, raw) then found == TakenAs(h, docs, Beside(h, fromPath, raw))
            else (forall i :: 0 <= i < k ==> TakenAs(h, docs, Below(h, roots[i], raw)) == []) ==>
              if k == |roots| then found == ByBaseName(h, docs, Base(Normalize(h, raw)))
              else TakenAs(h, docs, Below(h, roots[k], raw)) != [] ==>
                     found == TakenAs(h, docs, Below(h, roots[k], raw))
  {
    var raw := Raw(target);
    StagesInOrder(h, docs, fromPath, roots, raw);
    if HasBeside(h, fromPath) { OneStage(h, docs, Beside(h, fromPath, raw)); }
    if forall i :: 0 <= i < k ==> TakenAs(h, docs, Below(h, roots[i], raw)) == [] {
      FirstRootWins(h, docs, roots, raw, k);
    }
  }

  // ---------------------------------------------------------------- the order of the documents

  ghost predicate SameMembers<T(!new)>(a: seq<T>, b: seq<T>) {
    forall x :: x in a <==> x in b
  }

  /** A search does not depend on the order in which documents are listed, nor on repeats. */
  lemma SearchAgrees(a: seq<Named>, b: seq<Named>, q: Query)
    requires Usable(a) && Usable(b) && SameMembers(a, b)
    ensures Search(a, q) == Search(b, q)
  {
    SearchIs(a, q);
    SearchIs(b, q);
    forall p ensures p in Search(a, q) <==> p in Search(b, q) {
      AnswersAlike(a, b, q, p);
      AnswersAlike(b, a, q, p);
    }
    AscendingUnique(Search(a, q), Search(b, q));
  }

  lemma AnswersAlike(a: seq<Named>, b: seq<Named>, q: Query, p: string)
    requires SameMembers(a, b)
    ensures p in Select(a, q) ==> p in Select(b, q)
    ensures (exists i :: 0 <= i < |a| && Answers(a[i], q) && a[i].path == p) ==>
            exists i :: 0 <= i < |b| && Answers(b[i], q) && b[i].path == p
  {
    SelectIs(a, q, p);
    SelectIs(b, q, p);
    if i :| 0 <= i < |a| && Answers(a[i], q) && a[i].path == p {
      assert a[i] in b;
      var j :| 0 <= j < |b| && b[j] == a[i];
    }
  }

  lemma LookupAgrees(h: Host, a: seq<Named>, b: seq<Named>, candidate: string)
    requires Usable(a) && Usable(b) && SameMembers(a, b)
    ensures Lookup(h, a, candidate) == Lookup(h, b, candidate)
  {
    var q := ByPath(candidate);
    if Select(a, q) != [] { AnswersAlike(a, b, q, Select(a, q)[0]); }
    if Select(b, q) != [] { AnswersAlike(b, a, q, Select(b, q)[0]); }
    SearchAgrees(a, b, ByFoldedPath(Lower(h, candidate)));
  }

  lemma {:induction false} FirstHitAgrees(h: Host, a: seq<Named>, b: seq<Named>, stages: seq<string>)
    requires Usable(a) && Usable(b) && SameMembers(a, b)
    ensures FirstHit(h, a, stages) == FirstHit(h, b, stages)
  {
    if stages != [] {
      LookupAgrees(h, a, b, Normalize(h, stages[0]));
      FirstHitAgrees(h, a, b, stages[1..]);
    }
  }

  lemma ByBaseNameAgrees(h: Host, a: seq<Named>, b: seq<Named>, base: string)
    requires Usable(a) && Usable(b) && SameMembers(a, b)
    ensures ByBaseName(h, a, base) == ByBaseName(h, b, base)
  {
    SearchAgrees(a, b, ByBase(base));
    SearchAgrees(a, b, ByFoldedBase(Lower(h, base)));
  }

  lemma SearchPathAgrees(h: Host, a: seq<Named>, b: seq<Named>, fromPath: string, target: string, roots: seq<string>)
    requires Usable(a) && Usable(b) && SameMembers(a, b)
    ensures SearchPath(h, a, fromPath, target, roots) == SearchPath(h, b, fromPath, target, roots)
  {
    var raw := Raw(target);
    FirstHitAgrees(h, a, b, Stages(h, fromPath, roots, raw));
    ByBaseNameAgrees(h, a, b, Base(Normalize(h, raw)));
  }

  lemma SearchEdgeAgrees(h: Host, a: seq<Named>, b: seq<Named>, roots: seq<string>, e: Edge)
    requires Usable(a) && Usable(b) && SameMembers(a, b)
    ensures SearchEdge(h, a, roots, e) == SearchEdge(h, b, roots, e)
  {
    if e.toDocID != "" {
      SearchAgrees(a, b, ById(e.toDocID));
    } else if e.toPath != "" {
      SearchPathAgrees(h, a, b, e.fromPath, e.toPath, roots);
      SearchAgrees(a, b, ById(TargetId(h, e.toPath)));
    }
  }

  lemma {:induction false} ResolveAgrees(h: Host, a: seq<Named>, b: seq<Named>, roots: seq<string>, edges: seq<Edge>)
    requires Usable(a) && Usable(b) && SameMembers(a, b)
    ensures ResolveAll(h, a, roots, edges) == ResolveAll(h, b, roots, edges)
  {
    if edges != [] {
      var n := |edges| - 1;
      ResolveAgrees(h, a, b, roots, edges[..n]);
      SearchEdgeAgrees(h, a, b, roots, Cleared(edges[n]));
    }
  }

  lemma {:induction false} ListedHolds(all: seq<Named>, d: Named)
    ensures d in Listed(all) <==> d in all && d.path != ""
  {
    if all != [] {
      var n := |all| - 1;
      ListedHolds(all[..n], d);
      assert all == all[..n] + [all[n]];
    }
  }

  lemma NamesAlike(h: Host, docs: seq<Doc>, others: seq<Doc>, d: Named)
    requires SameMembers(docs, others) && d in Names(h, docs)
    ensures d in Names(h, others)
  {
    ListedHolds(NamesOf(h, docs), d);
    ListedHolds(NamesOf(h, others), d);
    var i :| 0 <= i < |docs| && NamesOf(h, docs)[i] == d;
    assert docs[i] in others;
    var j :| 0 <= j < |others| && others[j] == docs[i];
    assert NamesOf(h, others)[j] == d;
  }

  /** The resolved edges depend on which documents there are, not on the order they come in or on repeats. */
  lemma DocumentOrderDoesNotMatter(h: Host, docs: seq<Doc>, others: seq<Doc>, roots: seq<string>, edges: seq<Edge>)
    requires SameMembers(docs, others)
    ensures ResolveAll(h, Names(h, docs), roots, edges) == ResolveAll(h, Names(h, others), roots, edges)
  {
    ListedIs(NamesOf(h, docs), "");
    ListedIs(NamesOf(h, others), "");
    forall d ensures d in Names(h, docs) <==> d in Names(h, others) {
      if d in Names(h, docs) { NamesAlike(h, docs, others, d); }
      if d in Names(h, others) { NamesAlike(h, others, docs, d); }
    }
    ResolveAgrees(h, Names(h, docs), Names(h, others), roots, edges);
  }

  // ---------------------------------------------------------------- resolving again

  // Document paths as a scan of a repository gives them: already normal, without
  // surrounding white space or backslashes, and listed under their own names.
  predicate Tidy(h: Host, p: string) {
    Normalize(h, p) == p && TrimSpace(p) == p && '\\' !in p
  }

  ghost predicate TidyDocs(h: Host, docs: seq<Named>) {
    forall i :: 0 <= i < |docs| ==>
      && docs[i].path != "" && Tidy(h, docs[i].path)
      && docs[i] == Named(docs[i].path, Lower(h, docs[i].path), Base(docs[i].path), Lower(h, Base(docs[i].path)),
                          docs[i].docID)
  }

  // Lower case neither makes nor hides a dot or a slash.
  ghost predicate FoldsPlainly(h: Host) {
    forall c :: (h.lower(c) == '.' <==> c == '.') && (h.lower(c) == '/' <==> c == '/')
  }

  lemma RawOfTidy(h: Host, p: string)
    requires Tidy(h, p)
    ensures Raw(p) == EnsureExtension(p)
  {
    assert Slashed(p) == p;
  }

  lemma FirstStageHits(h: Host, docs: seq<Named>, roots: seq<string>, fromPath: string, p: string)
    requires Tidy(h, p) && p != "" && Exists(docs, p) && EnsureExtension(p) == p
    ensures SearchPath(h, docs, fromPath, p, roots) == [p]
  {
    RawOfTidy(h, p);
    var i :| 0 <= i < |docs| && docs[i].path == p;
    assert Answers(docs[i], ByPath(p));
    SelectIs(docs, ByPath(p), p);
    assert Stages(h, fromPath, roots, p)[0] == p;
  }

  // A dot three from the end, in the last piece.
  predicate DotNearEnd(s: string) {
    |s| >= 3 && s[|s| - 3] == '.' && s[|s| - 2] != '/' && s[|s| - 1] != '/'
  }

  lemma FoldOfMd(h: Host, s: string, c: string)
    requires FoldsPlainly(h) && EndsMd(c) && Lower(h, s) == Lower(h, c)
    ensures DotNearEnd(s)
  {
    var n := |c|;
    var t := c[n - 3..];
    assert c[n - 3] == t[0] && c[n - 2] == t[1] && c[n - 1] == t[2];
    assert |s| == |Lower(h, s)| == |Lower(h, c)| == n;
    assert h.lower(s[n - 3]) == Lower(h, s)[n - 3] == h.lower(c[n - 3]);
    assert h.lower(s[n - 2]) == Lower(h, s)[n - 2] == h.lower(c[n - 2]);
    assert h.lower(s[n - 1]) == Lower(h, s)[n - 1] == h.lower(c[n - 1]);
  }

  lemma DotNearEndHasExt(s: string)
    requires DotNearEnd(s)
    ensures Ext(s) != ""
  {
    var n := |s|;
    var a, b := s[..n - 1], s[..n - 2];
    assert a[..|a| - 1] == b && b[|b| - 1] == '.';
    assert Ext(b) == ".";
    assert a[|a| - 1] == s[n - 2];
    assert Ext(a) != "";
  }

  lemma DotNearEndOfBase(p: string)
    requires p != "" && !HasSuffix(p, "/") && DotNearEnd(Base(p))
    ensures DotNearEnd(p)
  {
    assert p[|p| - 1] != '/' by { assert p[|p| - 1..] == [p[|p| - 1]]; }
    LastPieceIsSuffix(p);
    var b := Base(p);
    assert p[|p| - |b|..] == b;
    assert p[|p| - 3] == b[|b| - 3] && p[|p| - 2] == b[|b| - 2] && p[|p| - 1] == b[|b| - 1];
  }

  lemma ToSlashKeepsMd(h: Host, s: string)
    requires EndsMd(s)
    ensures EndsMd(ToSlash(h, s))
  {
    SlashedKeepsMd(s);
  }

  lemma PrefixKeepsMd(s: string)
    requires EndsMd(s)
    ensures EndsMd(TrimPrefix(s, "/"))
  {
    MdAt(s);
    if HasPrefix(s, "/") {
      assert s[0] == s[..1][0];
      EndsMdTail(s, 1);
    }
  }

  lemma NormalizeKeepsMd(h: Host, s: string)
    requires EndsMd(s)
    ensures Normalize(h, s) == "" || EndsMd(Normalize(h, s))
  {
    TrimKeepsMd(s);
    ToSlashKeepsMd(h, TrimSpace(s));
    PrefixKeepsMd(ToSlash(h, TrimSpace(s)));
    CleanKeepsMd(TrimPrefix(ToSlash(h, TrimSpace(s)), "/"));
  }

  lemma {:induction false} RootStagesEndMd(h: Host, roots: seq<string>, raw: string)
    requires EndsMd(raw)
    ensures forall i :: 0 <= i < |RootStages(h, roots, raw)| ==> EndsMd(RootStages(h, roots, raw)[i])
  {
    if roots != [] {
      RootStagesEndMd(h, roots[..|roots| - 1], raw);
      JoinPathKeepsMd(TrimSuffix(ToSlash(h, roots[|roots| - 1]), "/"), raw);
    }
  }

  lemma StagesEndMd(h: Host, fromPath: string, roots: seq<string>, raw: string)
    requires EndsMd(raw)
    ensures forall i :: 0 <= i < |Stages(h, fromPath, roots, raw)| ==> EndsMd(Stages(h, fromPath, roots, raw)[i])
  {
    JoinPathKeepsMd(Dir(ToSlash(h, fromPath)), raw);
    RootStagesEndMd(h, roots, raw);
  }

  // A document whose path has no extension.
  ghost predicate Bare(h: Host, docs: seq<Named>, p: string) {
    FoldsPlainly(h) && TidyDocs(h, docs) && p != "" && EnsureExtension(p) != p
  }

  lemma BareHasNoDot(h: Host, docs: seq<Named>, p: string)
    requires Bare(h, docs, p)
    ensures !DotNearEnd(p) && !DotNearEnd(Base(p))
  {
    if DotNearEnd(Base(p)) { DotNearEndOfBase(p); }
    if DotNearEnd(p) { DotNearEndHasExt(p); }
  }

  lemma LookupMissesBare(h: Host, docs: seq<Named>, c: string, p: string)
    requires Bare(h, docs, p) && (c == "" || EndsMd(c))
    ensures p !in Lookup(h, docs, c)
  {
    BareHasNoDot(h, docs, p);
    if c != "" && p in Lookup(h, docs, c) {
      SearchIs(docs, ByFoldedPath(Lower(h, c)));
      FoldOfMd(h, p, c);
      assert false;
    }
  }

  lemma {:induction false} FirstHitMissesBare(h: Host, docs: seq<Named>, stages: seq<string>, p: string)
    requires Bare(h, docs, p) && forall i :: 0 <= i < |stages| ==> EndsMd(stages[i])
    ensures p !in FirstHit(h, docs, stages)
  {
    if stages != [] {
      NormalizeKeepsMd(h, stages[0]);
      LookupMissesBare(h, docs, Normalize(h, stages[0]), p);
      FirstHitMissesBare(h, docs, stages[1..], p);
    }
  }

  lemma BaseNameMissesBare(h: Host, docs: seq<Named>, base: string, p: string)
    requires Bare(h, docs, p) && (base == "." || EndsMd(base))
    ensures p !in ByBaseName(h, docs, base)
  {
    BareHasNoDot(h, docs, p);
    if EndsMd(base) && p in ByBaseName(h, docs, base) {
      SearchIs(docs, ByBase(base));
      SearchIs(docs, ByFoldedBase(Lower(h, base)));
      FoldOfMd(h, Base(p), base);
      assert false;
    }
  }

  /** A path without an extension is never what a search for it finds. */
  lemma BareIsNotFoundAgain(h: Host, docs: seq<Named>, roots: seq<string>, fromPath: string, p: string)
    requires Bare(h, docs, p) && Tidy(h, p)
    ensures p !in SearchPath(h, docs, fromPath, p, roots)
  {
    RawOfTidy(h, p);
    var raw := p + ".md";
    assert raw[|raw| - 3..] == ".md";
    StagesEndMd(h, fromPath, roots, raw);
    FirstHitMissesBare(h, docs, Stages(h, fromPath, roots, raw), p);
    NormalizeKeepsMd(h, raw);
    if Normalize(h, raw) != "" { BaseKeepsMd(Normalize(h, raw)); }
    BaseNameMissesBare(h, docs, Base(Normalize(h, raw)), p);
  }

  // Why an edge that has been resolved comes out the same when it is resolved again: it is not
  // searched by path, or its path has an extension, or the search that adds one finds nothing
  // and the document's own id leads back to it.
  predicate Settled(h: Host, docs: seq<Named>, roots: seq<string>, e: Edge) {
    || e.kind == "code" || e.toDocID != "" || e.reason != ""
    || EnsureExtension(e.toPath) == e.toPath
    || (Semantic(e.kind) && TargetId(h, e.toPath) != "" && SearchPath(h, docs, e.fromPath, e.toPath, roots) == []
        && Search(docs, ById(TargetId(h, e.toPath))) == [e.toPath])
  }

  lemma TidyExists(h: Host, docs: seq<Named>, p: string)
    requires TidyDocs(h, docs) && Exists(docs, p)
    ensures p != "" && Tidy(h, p)
  {
    var i :| 0 <= i < |docs| && docs[i].path == p;
  }

  // An edge resolved by path, searched for again.
  lemma PathEdgeAgain(h: Host, docs: seq<Named>, roots: seq<string>, e: Edge)
    requires FoldsPlainly(h) && TidyDocs(h, docs) && Exists(docs, e.toPath) && e.toDocID == "" && e.reason == ""
             && e.kind != "code"
    ensures SearchEdge(h, docs, roots, e) == [e.toPath] <==> Settled(h, docs, roots, e)
  {
    var p := e.toPath;
    TidyExists(h, docs, p);
    if EnsureExtension(p) == p {
      FirstStageHits(h, docs, roots, e.fromPath, p);
    } else {
      BareIsNotFoundAgain(h, docs, roots, e.fromPath, p);
      assert SearchPath(h, docs, e.fromPath, p, roots) != [p];
    }
  }

  lemma EdgeAgain(h: Host, docs: seq<Named>, roots: seq<string>, edge: Edge, e: Edge)
    requires FoldsPlainly(h) && TidyDocs(h, docs) && ResolveEdge(h, docs, roots, edge) == Some(e)
    ensures ResolveEdge(h, docs, roots, e) == Some(e) <==> Settled(h, docs, roots, e)
  {
    if edge.kind != "code" {
      EdgeIsClassified(h, docs, roots, edge);
      if e.reason == "" && e.toDocID == "" {
        assert Cleared(e) == e;
        PathEdgeAgain(h, docs, roots, e);
      } else if e.reason == "" {
        assert Cleared(e) == e;
      } else {
        assert Cleared(e) == Cleared(edge);
      }
    }
  }

  ghost predicate OutcomeOf(resolve: Edge -> Option<Edge>, e: Edge) {
    exists edge :: resolve(edge) == Some(e)
  }

  lemma {:induction false} CollectedAre(resolve: Edge -> Option<Edge>, edges: seq<Edge>)
    ensures var out := Collect(resolve, edges);
            |out| <= |edges| && forall i :: 0 <= i < |out| ==> OutcomeOf(resolve, out[i])
  {
    if edges != [] {
      CollectedAre(resolve, edges[..|edges| - 1]);
    }
  }

  lemma SameEnd(a: seq<Edge>, r: Option<Edge>, b: seq<Edge>, last: Edge)
    requires |a| <= |b|
    ensures a + (if r.Some? then [r.value] else []) == b + [last] <==> a == b && r == Some(last)
  {
    var x, y := a + (if r.Some? then [r.value] else []), b + [last];
    if x == y {
      assert |x| == |b| + 1;
      assert x[..|b|] == y[..|b|] && x[|b|] == y[|b|];
    }
  }

  // Collecting leaves a list alone exactly when each edge is its own outcome.
  lemma {:induction false} FixedList(resolve: Edge -> Option<Edge>, edges: seq<Edge>)
    ensures Collect(resolve, edges) == edges <==> forall i :: 0 <= i < |edges| ==> resolve(edges[i]) == Some(edges[i])
  {
    if edges != [] {
      var n := |edges| - 1;
      var b := edges[..n];
      FixedList(resolve, b);
      CollectedAre(resolve, b);
      assert edges == b + [edges[n]];
      SameEnd(Collect(resolve, b), resolve(edges[n]), b, edges[n]);
      assert forall i :: 0 <= i < n ==> b[i] == edges[i];
    }
  }

  /** Over tidy documents, resolving the output again changes nothing exactly when every edge in it is settled. */
  lemma ResolvingAgain(h: Host, docs: seq<Named>, roots: seq<string>, edges: seq<Edge>)
    requires FoldsPlainly(h) && TidyDocs(h, docs)
    ensures var out := ResolveAll(h, docs, roots, edges);
            ResolveAll(h, docs, roots, out) == out <==> forall i :: 0 <= i < |out| ==> Settled(h, docs, roots, out[i])
  {
    var resolve, out := Resolver(h, docs, roots), ResolveAll(h, docs, roots, edges);
    CollectedAre(resolve, edges);
    FixedList(resolve, out);
    forall i | 0 <= i < |out| ensures resolve(out[i]) == Some(out[i]) <==> Settled(h, docs, roots, out[i]) {
      assert OutcomeOf(resolve, out[i]);
      var edge :| resolve(edge) == Some(out[i]);
      EdgeAgain(h, docs, roots, edge, out[i]);
    }
  }

  // ---------------------------------------------------------------- an unsettled edge

  lemma CleanBare()
    ensures Clean("a") == "a" && Clean("a/") == "a" && Ext("a") == ""
  {
    SplitLast("a", SLASH);
    SplitMore("a", "", SLASH);
    assert "a" + [SLASH] + "" == "a/";
    var p, q := ["a"], ["a", ""];
    assert p[1..] == [] && q[1..] == [""] && q[1..][1..] == [];
    assert PushAll(p, [""], false) == p;
    assert PushAll([], q, false) == PushAll(Push([], q[0], false), q[1..], false) == p;
    assert "a"[..0] == "";
  }

  lemma NormalizeIs(h: Host, value: string, cleaned: string)
    requires TrimSpace(value) == value && Slashed(value) == value && !HasPrefix(value, "/") && Clean(value) == cleaned
    requires cleaned != "." && cleaned != "" && cleaned != ".." && !HasPrefix(cleaned, "../")
    ensures Normalize(h, value) == cleaned
  {
  }

  lemma BareText()
    ensures TrimSpace("a") == "a" && TrimSpace("a/") == "a/"
    ensures Slashed("a") == "a" && Slashed("a/") == "a/"
    ensures Raw("a/") == "a/"
  {
    assert Slashed("a") == "a" && Slashed("a/") == "a/";
    assert TrimSpace("a/") == "a/" && HasSuffix("a/", "/");
  }

  lemma BareNames(h: Host)
    ensures Normalize(h, "a") == "a" && Normalize(h, "a/") == "a"
  {
    CleanBare();
    BareText();
    NormalizeIs(h, "a", "a");
    NormalizeIs(h, "a/", "a");
  }

  // With one document, a search finds that one or none.
  lemma OnlyOne(h: Host, d: Named, roots: seq<string>, e: Edge)
    requires d.path != "" && d.path !in SearchEdge(h, [d], roots, e)
    ensures SearchEdge(h, [d], roots, e) == []
  {
    var found := SearchEdge(h, [d], roots, e);
    SearchFound(h, [d], roots, e);
    assert found != [] ==> Exists([d], found[0]);
  }

  lemma OneListed(d: Named)
    requires d.path != ""
    ensures Listed([d]) == [d]
  {
    assert [d][..0] == [];
    assert Listed([d]) == Add(Listed([d][..0]), d);
  }

  lemma OneName(h: Host, doc: Doc)
    requires Normalize(h, doc.path) != ""
    ensures Names(h, [doc]) == [NameOf(h, doc)]
  {
    OneListed(NameOf(h, doc));
    assert NamesOf(h, [doc]) == [NameOf(h, doc)];
  }

  lemma OneNameIsHit(h: Host, d: Named, fromPath: string, target: string)
    requires d.path != "" && Normalize(h, Raw(target)) == d.path
    ensures SearchPath(h, [d], fromPath, target, []) == [d.path]
  {
    SelectIs([d], ByPath(d.path), d.path);
    assert Answers([d][0], ByPath(d.path));
    assert Stages(h, fromPath, [], Raw(target))[0] == Raw(target);
  }

  lemma BareResolves(h: Host, d: Named, e: Edge)
    requires d.path == "a" && e == Edge("doc_markdown_link", e.fromPath, "a/", "", [], "") && e.fromPath != "a"
    ensures ResolveEdge(h, [d], [], e) == Some(e.(toPath := "a"))
  {
    BareText();
    BareNames(h);
    OneNameIsHit(h, d, e.fromPath, "a/");
    assert Cleared(e) == e;
  }

  lemma BareIsTidy(h: Host)
    ensures Tidy(h, "a")
  {
    BareText();
    BareNames(h);
    assert '\\' !in "a";
  }

  lemma BareLacksExtension()
    ensures EnsureExtension("a") != "a"
  {
    CleanBare();
    assert |"a"| == 1 && !HasSuffix("a", "/");
  }

  lemma OneTidyDoc(h: Host, doc: Doc)
    requires doc.path != "" && Normalize(h, doc.path) == doc.path && Tidy(h, doc.path)
    ensures TidyDocs(h, [NameOf(h, doc)])
  {
  }

  lemma BareIsBare(h: Host, d: Named)
    requires FoldsPlainly(h) && d == NameOf(h, Doc("a", ""))
    ensures Bare(h, [d], "a") && Tidy(h, "a") && d.path == "a"
  {
    BareNames(h);
    BareIsTidy(h);
    BareLacksExtension();
    OneTidyDoc(h, Doc("a", ""));
  }

  lemma LinkIsNotSemantic()
    ensures !Semantic("doc_markdown_link")
  {
  }

  lemma SearchedByPath(h: Host, docs: seq<Named>, roots: seq<string>, e: Edge)
    requires e.toDocID == "" && e.toPath != "" && !Semantic(e.kind)
    ensures SearchEdge(h, docs, roots, e) == SearchPath(h, docs, e.fromPath, e.toPath, roots)
  {
  }

  lemma BareNotFound(h: Host, d: Named, e: Edge)
    requires Bare(h, [d], "a") && Tidy(h, "a") && d.path == "a"
             && e == Edge("doc_markdown_link", e.fromPath, "a", "", [], "")
    ensures SearchEdge(h, [d], [], e) == []
  {
    LinkIsNotSemantic();
    SearchedByPath(h, [d], [], e);
    BareIsNotFoundAgain(h, [d], [], e.fromPath, "a");
    OnlyOne(h, d, [], e);
  }

  lemma BareIsMissing(h: Host, d: Named, e: Edge)
    requires FoldsPlainly(h) && d == NameOf(h, Doc("a", ""))
             && e == Edge("doc_markdown_link", e.fromPath, "a", "", [], "")
    ensures ResolveEdge(h, [d], [], e) == Some(e.(reason := MISSING))
  {
    BareIsBare(h, d);
    BareNotFound(h, d, e);
    assert Cleared(e) == e;
  }

  /** A link to a/ resolves to the document a, and the resolved edge is missing when resolved again. */
  lemma BareTargetIsUnsettled(h: Host, fromPath: string)
    requires FoldsPlainly(h) && fromPath != "a"
    ensures var docs := Names(h, [Doc("a", "")]);
            var edge := Edge("doc_markdown_link", fromPath, "a/", "", [], "");
            && ResolveEdge(h, docs, [], edge) == Some(edge.(toPath := "a"))
            && ResolveEdge(h, docs, [], edge.(toPath := "a")) == Some(edge.(toPath := "a", reason := MISSING))
  {
    BareNames(h);
    var d := NameOf(h, Doc("a", ""));
    OneName(h, Doc("a", ""));
    BareResolves(h, d, Edge("doc_markdown_link", fromPath, "a/", "", [], ""));
    BareIsMissing(h, d, Edge("doc_markdown_link", fromPath, "a", "", [], ""));
  }
}
