/** From parsed documents to the exit status (run in cmd/kube-chainsaw/main.go). */
module EndToEnd {
  import opened Sequences
  import opened Values
  import opened Models
  import opened Loader
  import opened LoaderTheorems
  import opened Manifests
  import opened FileTheorems
  import opened Analyzer
  import opened OrderTheorems
  import opened MonotoneTheorems
  import opened Suppressions

  /** A file found by the walk, in the order the walk found it. */
  datatype ManifestFile = ManifestFile(path: string, content: string)

  function LeavesOfFile(maxDocs: nat, decode: Decoder): ManifestFile -> seq<Leaf> {
    (f: ManifestFile) => FileLeaves(f.content, f.path, maxDocs, decode)
  }

  /** Every leaf document of the scanned files, in order. */
  function ScannedLeaves(files: seq<ManifestFile>, maxDocs: nat, decode: Decoder): seq<Leaf> {
    FlatMap(files, LeavesOfFile(maxDocs, decode))
  }

  function Loaded(leaves: seq<Leaf>): Store {
    PutAll(EMPTY_STORE, leaves)
  }

  /** Files that cannot be processed are skipped. */
  method LoadManifests(files: seq<ManifestFile>, maxDocs: nat, decode: Decoder) returns (result: LoadedResources)
    ensures fresh(result) && result.Contents() == Loaded(ScannedLeaves(files, maxDocs, decode))
  {
    hide FileLeaves;
    result := new LoadedResources();
    for i := 0 to |files|
      invariant fresh(result) && result.Contents() == Loaded(ScannedLeaves(files[..i], maxDocs, decode))
    {
      ghost var done := ScannedLeaves(files[..i], maxDocs, decode);
      FlatMapSnoc(files[..i], files[i], LeavesOfFile(maxDocs, decode));
      assert files[..i + 1] == files[..i] + [files[i]];
      PutAllAppend(EMPTY_STORE, done, FileLeaves(files[i].content, files[i].path, maxDocs, decode));
      var ok := ProcessFile(files[i].content, files[i].path, maxDocs, decode, result);
    }
    assert files[..|files|] == files;
  }

  lemma {:induction false} LoadedOrderly(leaves: seq<Leaf>, ns: iset<string>)
    requires Apart(ns) && LeavesWithin(leaves, ns)
    ensures Orderly(Loaded(leaves), ns)
  {
    hide PutAll, LeavesWithin, Apart;
    LoadedWellKeyed(EMPTY_STORE, leaves);
    LoadedWithin(EMPTY_STORE, leaves, ns);
  }

  /** The findings some run over the leaf documents reports. */
  ghost predicate RunReports(leaves: seq<Leaf>, lib: Library, fs: seq<Finding>) {
    IsReport(Loaded(leaves), lib, fs)
  }

  // ----- the run

  /** Two runs over the same documents pass or fail together. */
  lemma {:induction false} GateDeterministic(leaves: seq<Leaf>, lib: Library, fs: seq<Finding>, gs: seq<Finding>,
                                             entries: seq<Suppression>, threshold: Severity, ns: iset<string>)
    requires Apart(ns) && LeavesWithin(leaves, ns) && RunReports(leaves, lib, fs) && RunReports(leaves, lib, gs)
    ensures GateFails(SuppressAll(fs, entries), threshold) <==> GateFails(SuppressAll(gs, entries), threshold)
  {
    hide IsReport, Loaded, LeavesWithin, GateFails, SuppressAll, Orderly, Apart;
    LoadedOrderly(leaves, ns);
    StoreExtendsItself(Loaded(leaves));
    forall f | f in fs
      ensures exists g :: g in gs && g.id == f.id && f.severity <= g.severity && g.suppressed == f.suppressed
    {
      ScanningMoreRaises(Loaded(leaves), Loaded(leaves), lib, fs, gs, f, ns);
    }
    forall g | g in gs
      ensures exists f :: f in fs && f.id == g.id && g.severity <= f.severity && f.suppressed == g.suppressed
    {
      ScanningMoreRaises(Loaded(leaves), Loaded(leaves), lib, gs, fs, g, ns);
    }
    RaisedGateFails(fs, gs, entries, threshold);
    RaisedGateFails(gs, fs, entries, threshold);
  }

  lemma {:induction false} StoreExtendsItself(st: Store)
    ensures Extends(st, st)
  {
  }

  /** Loads, analyses, suppresses and compares with the threshold. Whatever order Go visits its maps
      in, the answer is the one every possible report gives. */
  method Run(files: seq<ManifestFile>, maxDocs: nat, decode: Decoder, lib: Library, entries: seq<Suppression>,
             threshold: Severity)
    returns (fails: bool)
    ensures var leaves := ScannedLeaves(files, maxDocs, decode);
            exists fs :: RunReports(leaves, lib, fs) && fails == GateFails(SuppressAll(fs, entries), threshold)
    ensures var leaves := ScannedLeaves(files, maxDocs, decode);
            forall ns, fs :: Apart(ns) && LeavesWithin(leaves, ns) && RunReports(leaves, lib, fs)
                             ==> fails == GateFails(SuppressAll(fs, entries), threshold)
  {
    hide IsReport, GateFails, SuppressAll, LeavesWithin, Loaded, ScannedLeaves, Apart;
    ghost var leaves := ScannedLeaves(files, maxDocs, decode);
    var resources := LoadManifests(files, maxDocs, decode);
    var findings := Analyze(resources, lib);
    var slots := new Finding[|findings|](i requires 0 <= i < |findings| => findings[i]);
    assert slots[..] == findings;
    ApplySuppressions(slots, entries);
    fails := ThresholdExceeded(slots, threshold);
    assert RunReports(leaves, lib, findings);
    forall ns, fs | Apart(ns) && LeavesWithin(leaves, ns) && RunReports(leaves, lib, fs)
      ensures fails == GateFails(SuppressAll(fs, entries), threshold)
    {
      GateDeterministic(leaves, lib, fs, findings, entries, threshold, ns);
    }
  }

  // ----- document order and grouping

  function DocOf(leaf: Leaf): Doc {
    leaf.doc
  }

  /** The documents of the leaves, whatever files they are in. */
  function Docs(leaves: seq<Leaf>): seq<Doc> {
    Each(leaves, DocOf)
  }

  /** Documents written to the same cell are equal. */
  ghost predicate NoDocOverwrites(docs: seq<Doc>) {
    forall x, y :: x in docs && y in docs && SlotOf(x).Cell? && SlotOf(x) == SlotOf(y) ==> x == y
  }

  function InNoFile(doc: Doc): Leaf {
    Leaf(doc, "")
  }

  lemma {:induction false} AnonLeaves(leaves: seq<Leaf>, ns: iset<string>)
    ensures Each(leaves, AnonLeaf) == Each(Docs(leaves), InNoFile)
    ensures NoDocOverwrites(Docs(leaves)) ==> NoOverwrite(Each(leaves, AnonLeaf))
    ensures LeavesWithin(leaves, ns) ==> LeavesWithin(Each(leaves, AnonLeaf), ns)
  {
    hide SlotOf, ReadableKind;
    forall i | 0 <= i < |leaves|
      ensures Each(leaves, AnonLeaf)[i] == Leaf(leaves[i].doc, "") && Docs(leaves)[i] == leaves[i].doc
    {
      assert AnonLeaf(leaves[i]) == InNoFile(DocOf(leaves[i]));
    }
    assert Each(leaves, AnonLeaf) == Each(Docs(leaves), InNoFile);
    forall leaf | leaf in Each(leaves, AnonLeaf)
      ensures leaf.doc in Docs(leaves) && leaf.file == ""
      ensures exists original :: original in leaves && original.doc == leaf.doc
    {
      var i :| 0 <= i < |leaves| && Each(leaves, AnonLeaf)[i] == leaf;
      assert leaves[i] in leaves && Docs(leaves)[i] == leaf.doc;
    }
  }

  lemma {:induction false} AnonRun(leaves: seq<Leaf>, lib: Library, fs: seq<Finding>)
    requires RunReports(leaves, lib, fs)
    ensures RunReports(Each(leaves, AnonLeaf), lib, Each(fs, Anon)) && Verdicts(Each(fs, Anon)) == Verdicts(fs)
  {
    hide IsReport, PutAll, AnonStore, Each;
    FilesAreLabels(Loaded(leaves), lib, fs);
    AnonPutAll(EMPTY_STORE, leaves);
    AnonEmpty();
  }

  /** Any permutation of documents that overwrite nothing, however they are spread over files and
      wrapped into Lists, reports the same multiset of identities and severities. */
  lemma {:induction false} DocumentOrderEndToEnd(xs: seq<Leaf>, ys: seq<Leaf>, lib: Library, fs: seq<Finding>,
                                                 gs: seq<Finding>, ns: iset<string>)
    requires Apart(ns) && LeavesWithin(xs, ns) && NoDocOverwrites(Docs(xs)) && multiset(Docs(xs)) == multiset(Docs(ys))
    requires RunReports(xs, lib, fs) && RunReports(ys, lib, gs)
    ensures multiset(Verdicts(fs)) == multiset(Verdicts(gs))
  {
    hide IsReport, LeavesWithin, NoOverwrite, NoDocOverwrites, Orderly, Apart, PutAll, SameUpToBindingOrder, Each;
    var us, vs := Each(xs, AnonLeaf), Each(ys, AnonLeaf);
    AnonLeaves(xs, ns);
    AnonLeaves(ys, ns);
    EachPermuted(Docs(xs), Docs(ys), InNoFile);
    AnonRun(xs, lib, fs);
    AnonRun(ys, lib, gs);
    LoadedOrderly(us, ns);
    DocumentOrder(us, vs);
    OrderIndependence(Loaded(us), Loaded(vs), lib, Each(fs, Anon), Each(gs, Anon), ns);
  }

  function AsValue(doc: Doc): Value {
    Map(doc)
  }

  function AsValues(docs: seq<Doc>): seq<Value> {
    seq(|docs|, i requires 0 <= i < |docs| => AsValue(docs[i]))
  }

  /** A Kubernetes List that wraps the documents. */
  function ListOf(docs: seq<Doc>): Doc {
    map["kind" := Str("List"), "items" := List(AsValues(docs))]
  }

  function LeavesIn(file: string): Doc -> seq<Leaf> {
    doc => Leaves(Map(doc), file)
  }

  lemma {:induction false} WrappedLeaves(docs: seq<Doc>, file: string)
    ensures LeavesOfAll(AsValues(docs), file) == FlatMap(docs, LeavesIn(file))
  {
    if docs == [] {
    } else {
      assert AsValues(docs)[..|docs| - 1] == AsValues(docs[..|docs| - 1]);
      WrappedLeaves(docs[..|docs| - 1], file);
    }
  }

  /** Wrapping documents, which may be Lists themselves, into one List changes no leaf. */
  lemma {:induction false} GroupingIsTransparent(docs: seq<Doc>, file: string)
    ensures Leaves(Map(ListOf(docs)), file) == FlatMap(docs, LeavesIn(file))
  {
    WrappedLeaves(docs, file);
    assert KindNameOf(ListOf(docs)) == "List" && HasSuffix("List", "List");
  }

  // ----- scanning more

  /** The larger scan has further leaf documents anywhere among the others, and they overwrite none of
      the others. */
  ghost predicate ScansMore(leaves: seq<Leaf>, larger: seq<Leaf>) {
    exists extra :: Merges(leaves, extra, larger) && NoClash(leaves, extra)
  }

  lemma {:induction false} ScansMoreExtends(leaves: seq<Leaf>, larger: seq<Leaf>)
    requires ScansMore(leaves, larger)
    ensures Extends(Loaded(leaves), Loaded(larger))
  {
    hide PutAll, Extends, Merges, NoClash;
    var extra :| Merges(leaves, extra, larger) && NoClash(leaves, extra);
    NothingTaken(extra);
    InsertedExtends(EMPTY_STORE, leaves, extra, larger);
  }

  lemma {:induction false} NothingTaken(extra: seq<Leaf>)
    ensures Fresh(EMPTY_STORE, extra)
  {
    hide Targets;
  }

  /** Further documents that overwrite nothing keep every finding, at least as severe. */
  lemma {:induction false} MoreDocumentsRaise(leaves: seq<Leaf>, larger: seq<Leaf>, lib: Library, fs: seq<Finding>,
                                              gs: seq<Finding>, f: Finding, ns: iset<string>)
    requires Apart(ns) && LeavesWithin(larger, ns) && ScansMore(leaves, larger)
    requires RunReports(leaves, lib, fs) && RunReports(larger, lib, gs) && f in fs
    ensures Rises(f, gs)
  {
    hide IsReport, LeavesWithin, Orderly, PutAll, Extends, ScansMore, Apart;
    ScansMoreExtends(leaves, larger);
    LoadedOrderly(larger, ns);
    ScanningMoreRaises(Loaded(leaves), Loaded(larger), lib, fs, gs, f, ns);
  }

  /** So further manifests never turn a failing run into a passing one. */
  lemma {:induction false} MoreDocumentsStillFail(leaves: seq<Leaf>, larger: seq<Leaf>, lib: Library,
                                                  fs: seq<Finding>, gs: seq<Finding>, entries: seq<Suppression>,
                                                  threshold: Severity, ns: iset<string>)
    requires Apart(ns) && LeavesWithin(larger, ns) && ScansMore(leaves, larger)
    requires RunReports(leaves, lib, fs) && RunReports(larger, lib, gs)
    ensures GateFails(SuppressAll(fs, entries), threshold) ==> GateFails(SuppressAll(gs, entries), threshold)
  {
    hide RunReports, LeavesWithin, ScansMore, GateFails, SuppressAll, Loaded, Apart;
    forall f | f in fs
      ensures exists g :: g in gs && g.id == f.id && f.severity <= g.severity && g.suppressed == f.suppressed
    {
      MoreDocumentsRaise(leaves, larger, lib, fs, gs, f, ns);
    }
    RaisedGateFails(fs, gs, entries, threshold);
  }

  /** A block of documents put anywhere between the others is one case. */
  lemma {:induction false} BlockScansMore(before: seq<Leaf>, extra: seq<Leaf>, after: seq<Leaf>)
    requires NoClash(before + after, extra)
    ensures ScansMore(before + after, before + extra + after)
  {
    InsertionMerges(before, extra, after);
  }

  /** Files that the walk finds anywhere among the others are such documents. */
  lemma {:induction false} MoreFilesScanMore(files: seq<ManifestFile>, more: seq<ManifestFile>,
                                             all: seq<ManifestFile>, maxDocs: nat, decode: Decoder)
    requires Merges(files, more, all)
    requires NoClash(ScannedLeaves(files, maxDocs, decode), ScannedLeaves(more, maxDocs, decode))
    ensures ScansMore(ScannedLeaves(files, maxDocs, decode), ScannedLeaves(all, maxDocs, decode))
  {
    MergesFlatMap(files, more, all, LeavesOfFile(maxDocs, decode));
  }
}
