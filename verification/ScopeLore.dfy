/** Scoped-lore selection of packages/crew/src/memory/scopeLore.ts: a lazy, early-stopping,
    de-duplicating and capped selection, proved equal to an eager specification. */
module ScopeLore {
  import opened Prelude
  import opened ScopeGraph

  datatype LoreRecord = LoreRecord(id: string, title: string, summary: string, tags: seq<string>)

  datatype Query = Query(tags: seq<string>, repoName: Option<string>, limit: nat)

  datatype ScopeNode = ScopeNode(id: string, name: string, loreTags: seq<string>)

  datatype WorkPacket = WorkPacket(writeRepos: seq<string>, readOnlyRepos: seq<string>,
                                   primary: Option<ScopeNode>, secondary: seq<ScopeNode>)

  /** Why a record was included. */
  datatype Reason =
    | WriteRepo(repo: string) | ReadOnlyRepo(repo: string)
    | PrimaryScope(scope: string) | SecondaryScope(scope: string)
    | InheritedFrom(parent: string, scope: string)
    | RelatedTo(neighbour: string, relation: string, scope: string)

  /** `LORE_PRIORITY`: the band of a reason; lower leads. */
  function Band(reason: Reason): nat {
    match reason
    case WriteRepo(_) => 0
    case PrimaryScope(_) => 1
    case SecondaryScope(_) => 2
    case ReadOnlyRepo(_) => 3
    case InheritedFrom(_, _) => 4
    case RelatedTo(_, _, _) => 5
  }

  datatype Scoped = Scoped(record: LoreRecord, reason: Reason) {
    function Id(): string { record.id }
    function Priority(): nat { Band(reason) }
  }

  /** A scope-graph view: any implementation of the four lookups. */
  datatype GraphView = GraphView(loreTagsFor: string -> seq<string>, nameFor: string -> string,
                                 parentsOf: string -> seq<string>, edgesOf: string -> seq<Related>)

  datatype Deps = Deps(search: Query -> seq<LoreRecord>, tagsOfRepo: string -> seq<string>,
                       graph: Option<GraphView>, limit: nat, redact: string -> string)

  /** One query the selection may make, and the reason its records carry. */
  datatype Source = Source(tags: seq<string>, repoName: Option<string>, reason: Reason)

  // ----- The sources, in ingestion order -----

  /** An empty repo name filters nothing. */
  function RepoFilter(name: string): Option<string> {
    if name == "" then None else Some(name)
  }

  function WriteSources(deps: Deps, repos: seq<string>): seq<Source> {
    seq(|repos|, i requires 0 <= i < |repos| => Source(deps.tagsOfRepo(repos[i]), RepoFilter(repos[i]), WriteRepo(repos[i])))
  }

  function ReadOnlySources(deps: Deps, repos: seq<string>): seq<Source> {
    seq(|repos|, i requires 0 <= i < |repos| => Source(deps.tagsOfRepo(repos[i]), RepoFilter(repos[i]), ReadOnlyRepo(repos[i])))
  }

  function PrimarySources(work: WorkPacket): seq<Source> {
    if work.primary.None? then []
    else [Source(work.primary.value.loreTags, None, PrimaryScope(work.primary.value.name))]
  }

  function SecondarySources(work: WorkPacket): seq<Source> {
    seq(|work.secondary|, i requires 0 <= i < |work.secondary| =>
      Source(work.secondary[i].loreTags, None, SecondaryScope(work.secondary[i].name)))
  }

  function ScopeSources(work: WorkPacket): seq<Source> {
    PrimarySources(work) + SecondarySources(work)
  }

  function SelectedScopes(work: WorkPacket): seq<ScopeNode> {
    (if work.primary.None? then [] else [work.primary.value]) + work.secondary
  }

  function ParentSourcesOf(g: GraphView, node: ScopeNode): seq<Source> {
    var parents := g.parentsOf(node.id);
    seq(|parents|, i requires 0 <= i < |parents| =>
      Source(g.loreTagsFor(parents[i]), None, InheritedFrom(g.nameFor(parents[i]), node.name)))
  }

  function EdgeSourcesOf(g: GraphView, node: ScopeNode): seq<Source> {
    var edges := g.edgesOf(node.id);
    seq(|edges|, i requires 0 <= i < |edges| =>
      Source(g.loreTagsFor(edges[i].scopeId), None, RelatedTo(g.nameFor(edges[i].scopeId), edges[i].relation, node.name)))
  }

  function ParentSources(g: GraphView, nodes: seq<ScopeNode>): seq<Source> {
    if nodes == [] then []
    else ParentSources(g, nodes[..|nodes| - 1]) + ParentSourcesOf(g, nodes[|nodes| - 1])
  }

  function EdgeSources(g: GraphView, nodes: seq<ScopeNode>): seq<Source> {
    if nodes == [] then []
    else EdgeSources(g, nodes[..|nodes| - 1]) + EdgeSourcesOf(g, nodes[|nodes| - 1])
  }

  function GraphSources(deps: Deps, work: WorkPacket): seq<Source> {
    if deps.graph.None? then []
    else ParentSources(deps.graph.value, SelectedScopes(work)) + EdgeSources(deps.graph.value, SelectedScopes(work))
  }

  function AllSources(deps: Deps, work: WorkPacket): seq<Source> {
    WriteSources(deps, work.writeRepos) + ReadOnlySources(deps, work.readOnlyRepos) +
    ScopeSources(work) + GraphSources(deps, work)
  }

  // ----- The eager specification -----

  /** The records of one source; an empty tag set is never queried. */
  function Results(deps: Deps, source: Source): seq<Scoped> {
    var found := if source.tags == [] then [] else deps.search(Query(source.tags, source.repoName, deps.limit));
    seq(|found|, i requires 0 <= i < |found| =>
      Scoped(found[i].(summary := deps.redact(found[i].summary)), source.reason))
  }

  function AllResults(deps: Deps, sources: seq<Source>): seq<Scoped> {
    if sources == [] then []
    else AllResults(deps, sources[..|sources| - 1]) + Results(deps, sources[|sources| - 1])
  }

  predicate HasId(xs: seq<Scoped>, id: string) {
    exists i :: 0 <= i < |xs| && xs[i].Id() == id
  }

  /** Drop every record whose id occurred before. */
  function FirstById(xs: seq<Scoped>): seq<Scoped> {
    if xs == [] then []
    else
      var earlier, last := FirstById(xs[..|xs| - 1]), xs[|xs| - 1];
      if HasId(earlier, last.Id()) then earlier else earlier + [last]
  }

  function AtMost(limit: nat, xs: seq<Scoped>): seq<Scoped> {
    if |xs| <= limit then xs else xs[..limit]
  }

  function InBand(xs: seq<Scoped>, band: nat): seq<Scoped> {
    if xs == [] then []
    else (if xs[0].Priority() == band then [xs[0]] else []) + InBand(xs[1..], band)
  }

  /** Band by band, discovery order inside a band. */
  function ByBand(xs: seq<Scoped>): seq<Scoped> {
    InBand(xs, 0) + InBand(xs, 1) + InBand(xs, 2) + InBand(xs, 3) + InBand(xs, 4) + InBand(xs, 5)
  }

  function EagerSelection(deps: Deps, work: WorkPacket): seq<Scoped> {
    ByBand(AtMost(deps.limit, FirstById(AllResults(deps, AllSources(deps, work)))))
  }

  // ----- The stable sort -----

  function InsertStable(x: Scoped, sorted: seq<Scoped>): seq<Scoped> {
    if sorted == [] || x.Priority() <= sorted[0].Priority() then [x] + sorted
    else [sorted[0]] + InsertStable(x, sorted[1..])
  }

  /** `[...].sort((a, b) => a.priority - b.priority)`, which ECMAScript requires to be stable. */
  function SortByPriority(xs: seq<Scoped>): seq<Scoped> {
    if xs == [] then [] else InsertStable(xs[0], SortByPriority(xs[1..]))
  }

  /** Bands `b` and up. */
  function BandsFrom(xs: seq<Scoped>, b: nat): seq<Scoped>
    requires b <= 6
    decreases 6 - b
  {
    if b == 6 then [] else InBand(xs, b) + BandsFrom(xs, b + 1)
  }

  lemma {:induction false} BandsAre(xs: seq<Scoped>, band: nat)
    ensures forall i :: 0 <= i < |InBand(xs, band)| ==> InBand(xs, band)[i].Priority() == band
  {
    if xs != [] { BandsAre(xs[1..], band); }
  }

  lemma {:induction false} BandsFromAre(xs: seq<Scoped>, b: nat)
    requires b <= 6
    ensures forall i :: 0 <= i < |BandsFrom(xs, b)| ==> BandsFrom(xs, b)[i].Priority() >= b
    decreases 6 - b
  {
    if b < 6 {
      BandsAre(xs, b);
      BandsFromAre(xs, b + 1);
    }
  }

  lemma {:induction false} InsertSkips(x: Scoped, low: seq<Scoped>, rest: seq<Scoped>)
    requires forall i :: 0 <= i < |low| ==> low[i].Priority() < x.Priority()
    ensures InsertStable(x, low + rest) == low + InsertStable(x, rest)
  {
    if low == [] {
      assert low + rest == rest;
    } else {
      InsertSkips(x, low[1..], rest);
      assert (low + rest)[1..] == low[1..] + rest;
    }
  }

  lemma {:induction false} BandsAbove(x: Scoped, xs: seq<Scoped>, b: nat)
    requires x.Priority() < b <= 6
    ensures BandsFrom([x] + xs, b) == BandsFrom(xs, b)
    decreases 6 - b
  {
    if b < 6 {
      BandsAbove(x, xs, b + 1);
      HeadOfBands(x, xs, b);
      assert [] + InBand(xs, b) == InBand(xs, b);
    }
  }

  lemma HeadOfBands(x: Scoped, xs: seq<Scoped>, b: nat)
    requires b < 6
    ensures InBand([x] + xs, b) == (if x.Priority() == b then [x] else []) + InBand(xs, b)
    ensures BandsFrom([x] + xs, b) == InBand([x] + xs, b) + BandsFrom([x] + xs, b + 1)
  {
    assert ([x] + xs)[1..] == xs;
  }

  predicate NoneBefore(x: Scoped, xs: seq<Scoped>) {
    forall i :: 0 <= i < |xs| ==> x.Priority() <= xs[i].Priority()
  }

  predicate AllBefore(xs: seq<Scoped>, x: Scoped) {
    forall i :: 0 <= i < |xs| ==> xs[i].Priority() < x.Priority()
  }

  lemma SplitBands(xs: seq<Scoped>, b: nat)
    requires b < 6
    ensures BandsFrom(xs, b) == InBand(xs, b) + BandsFrom(xs, b + 1)
  {
  }

  lemma InsertAt(x: Scoped, band: seq<Scoped>, above: seq<Scoped>, rest: seq<Scoped>, newRest: seq<Scoped>)
    requires rest == band + above && newRest == ([x] + band) + above && NoneBefore(x, rest)
    ensures InsertStable(x, rest) == newRest
  {
    assert newRest == [x] + rest;
  }

  lemma InsertAfter(x: Scoped, low: seq<Scoped>, above: seq<Scoped>, rest: seq<Scoped>, newRest: seq<Scoped>)
    requires rest == low + above && newRest == low + InsertStable(x, above) && AllBefore(low, x)
    ensures InsertStable(x, rest) == newRest
  {
    InsertSkips(x, low, above);
  }

  lemma BandsGain(x: Scoped, xs: seq<Scoped>, b: nat)
    requires b == x.Priority()
    ensures BandsFrom([x] + xs, b) == ([x] + InBand(xs, b)) + BandsFrom(xs, b + 1)
  {
    HeadOfBands(x, xs, b);
    BandsAbove(x, xs, b + 1);
  }

  lemma BandsKeep(x: Scoped, xs: seq<Scoped>, b: nat)
    requires b < x.Priority()
    ensures BandsFrom([x] + xs, b) == InBand(xs, b) + BandsFrom([x] + xs, b + 1)
  {
    HeadOfBands(x, xs, b);
    assert [] + InBand(xs, b) == InBand(xs, b);
  }

  lemma NoneBeforeItsBand(x: Scoped, xs: seq<Scoped>, b: nat)
    requires b == x.Priority()
    ensures NoneBefore(x, BandsFrom(xs, b))
  {
    BandsFromAre(xs, b);
  }

  lemma LowerBandBefore(x: Scoped, xs: seq<Scoped>, b: nat)
    requires b < x.Priority()
    ensures AllBefore(InBand(xs, b), x)
  {
    BandsAre(xs, b);
  }

  lemma InsertAtBand(x: Scoped, xs: seq<Scoped>, b: nat)
    requires b == x.Priority()
    ensures InsertStable(x, BandsFrom(xs, b)) == BandsFrom([x] + xs, b)
  {
    SplitBands(xs, b);
    BandsGain(x, xs, b);
    NoneBeforeItsBand(x, xs, b);
    InsertAt(x, InBand(xs, b), BandsFrom(xs, b + 1), BandsFrom(xs, b), BandsFrom([x] + xs, b));
  }

  lemma InsertBelowBand(x: Scoped, xs: seq<Scoped>, b: nat)
    requires b < x.Priority()
    requires InsertStable(x, BandsFrom(xs, b + 1)) == BandsFrom([x] + xs, b + 1)
    ensures InsertStable(x, BandsFrom(xs, b)) == BandsFrom([x] + xs, b)
  {
    SplitBands(xs, b);
    BandsKeep(x, xs, b);
    LowerBandBefore(x, xs, b);
    InsertAfter(x, InBand(xs, b), BandsFrom(xs, b + 1), BandsFrom(xs, b), BandsFrom([x] + xs, b));
  }

  lemma {:induction false} InsertIntoBands(x: Scoped, xs: seq<Scoped>, b: nat)
    requires b <= x.Priority()
    ensures InsertStable(x, BandsFrom(xs, b)) == BandsFrom([x] + xs, b)
    decreases 6 - b
  {
    if b < x.Priority() {
      InsertIntoBands(x, xs, b + 1);
      InsertBelowBand(x, xs, b);
    } else {
      InsertAtBand(x, xs, b);
    }
  }

  lemma {:induction false} SortIsBandsFrom(xs: seq<Scoped>)
    ensures SortByPriority(xs) == BandsFrom(xs, 0)
  {
    if xs == [] {
      NoBands(0);
    } else {
      SortIsBandsFrom(xs[1..]);
      InsertIntoBands(xs[0], xs[1..], 0);
      assert [xs[0]] + xs[1..] == xs;
    }
  }

  lemma {:induction false} NoBands(b: nat)
    requires b <= 6
    ensures BandsFrom([], b) == []
    decreases 6 - b
  {
    if b < 6 { NoBands(b + 1); }
  }

  lemma SixFromTheLeft<T>(a: seq<T>, b: seq<T>, c: seq<T>, d: seq<T>, e: seq<T>, f: seq<T>)
    ensures a + b + c + d + e + f == a + (b + (c + (d + (e + (f + [])))))
  {
    assert f + [] == f;
    Associate(a, b, c);
    Associate(a, b + c, d);
    Associate(a, b + c + d, e);
    Associate(a, b + c + d + e, f);
    Associate(b, c, d);
    Associate(b, c + d, e);
    Associate(b, c + d + e, f);
    Associate(c, d, e);
    Associate(c, d + e, f);
    Associate(d, e, f);
  }

  /** The stable sort is the concatenation of the bands. */
  lemma SortIsByBand(xs: seq<Scoped>)
    ensures SortByPriority(xs) == ByBand(xs)
  {
    SortIsBandsFrom(xs);
    SplitBands(xs, 0);
    SplitBands(xs, 1);
    SplitBands(xs, 2);
    SplitBands(xs, 3);
    SplitBands(xs, 4);
    SplitBands(xs, 5);
    SixFromTheLeft(InBand(xs, 0), InBand(xs, 1), InBand(xs, 2), InBand(xs, 3), InBand(xs, 4), InBand(xs, 5));
  }

  lemma {:induction false} SortKeepsElements(xs: seq<Scoped>)
    ensures multiset(SortByPriority(xs)) == multiset(xs)
    ensures |SortByPriority(xs)| == |xs|
  {
    if xs != [] {
      SortKeepsElements(xs[1..]);
      InsertKeepsElements(xs[0], SortByPriority(xs[1..]));
      assert xs == [xs[0]] + xs[1..];
    }
  }

  lemma {:induction false} InsertKeepsElements(x: Scoped, sorted: seq<Scoped>)
    ensures multiset(InsertStable(x, sorted)) == multiset{x} + multiset(sorted)
    ensures |InsertStable(x, sorted)| == |sorted| + 1
  {
    if sorted != [] && x.Priority() > sorted[0].Priority() {
      InsertKeepsElements(x, sorted[1..]);
      assert sorted == [sorted[0]] + sorted[1..];
    }
  }

  // ----- The lazy selection -----

  function Collect(limit: nat, kept: seq<Scoped>, xs: seq<Scoped>): seq<Scoped> {
    if xs == [] then kept
    else
      var earlier, last := Collect(limit, kept, xs[..|xs| - 1]), xs[|xs| - 1];
      if |earlier| >= limit || HasId(earlier, last.Id()) then earlier else earlier + [last]
  }

  lemma {:induction false} CollectAppends(limit: nat, kept: seq<Scoped>, xs: seq<Scoped>, ys: seq<Scoped>)
    ensures Collect(limit, kept, xs + ys) == Collect(limit, Collect(limit, kept, xs), ys)
  {
    if ys == [] {
      assert xs + ys == xs;
    } else {
      var n := |ys| - 1;
      CollectAppends(limit, kept, xs, ys[..n]);
      assert (xs + ys)[..|xs + ys| - 1] == xs + ys[..n];
    }
  }

  /** A full selection is not changed by anything ingested later. */
  lemma {:induction false} CollectWhenFull(limit: nat, kept: seq<Scoped>, xs: seq<Scoped>)
    requires |kept| >= limit
    ensures Collect(limit, kept, xs) == kept
  {
    if xs != [] { CollectWhenFull(limit, kept, xs[..|xs| - 1]); }
  }

  /** Collecting under the cap is de-duplicating everything, then cutting. */
  lemma {:induction false} CollectIsCutFirstById(limit: nat, xs: seq<Scoped>)
    ensures Collect(limit, [], xs) == AtMost(limit, FirstById(xs))
  {
    if xs != [] { CollectIsCutFirstById(limit, xs[..|xs| - 1]); }
  }

  lemma LastOfConcat<T>(a: seq<T>, b: seq<T>)
    requires b != []
    ensures (a + b)[..|a + b| - 1] == a + b[..|b| - 1] && (a + b)[|a + b| - 1] == b[|b| - 1]
  {
  }

  lemma {:induction false} AllResultsAppends(deps: Deps, a: seq<Source>, b: seq<Source>)
    ensures AllResults(deps, a + b) == AllResults(deps, a) + AllResults(deps, b)
  {
    if b == [] {
      assert a + b == a;
    } else {
      var n := |b| - 1;
      AllResultsAppends(deps, a, b[..n]);
      LastOfConcat(a, b);
      Associate(AllResults(deps, a), AllResults(deps, b[..n]), Results(deps, b[n]));
    }
  }

  /** The collector behind the selection: the insertion-ordered `byId` map and its cap. */
  class LoreCollector {
    const limit: nat
    var byId: seq<Scoped>

    constructor (limit: nat)
      ensures this.limit == limit && byId == []
    {
      this.limit := limit;
      byId := [];
    }

    /** `ingest`: stops as soon as the cap is reached. */
    method Ingest(records: seq<Scoped>)
      requires |byId| < limit
      modifies this
      ensures byId == Collect(limit, old(byId), records)
    {
      for i := 0 to |records|
        invariant byId == Collect(limit, old(byId), records[..i]) && |byId| < limit
      {
        assert records[..i + 1][..i] == records[..i];
        if !HasId(byId, records[i].Id()) {
          byId := byId + [records[i]];
          if |byId| >= limit {
            CollectWhenFull(limit, byId, records[i + 1..]);
            CollectAppends(limit, old(byId), records[..i + 1], records[i + 1..]);
            assert records[..i + 1] + records[i + 1..] == records;
            return;
          }
        }
      }
      assert records[..|records|] == records;
    }

    /** One of the source loops: query each source in turn until the cap is reached. */
    method IngestSources(deps: Deps, sources: seq<Source>)
      modifies this
      ensures byId == Collect(limit, old(byId), AllResults(deps, sources))
    {
      var i := 0;
      while i < |sources| && |byId| < limit
        invariant i <= |sources| && byId == Collect(limit, old(byId), AllResults(deps, sources[..i]))
      {
        NextSource(deps, limit, old(byId), sources, i);
        Ingest(Results(deps, sources[i]));
        i := i + 1;
      }
      SkipSources(deps, limit, old(byId), sources, i);
    }

    method IngestParents(deps: Deps, g: GraphView, nodes: seq<ScopeNode>)
      modifies this
      ensures byId == Collect(limit, old(byId), AllResults(deps, ParentSources(g, nodes)))
    {
      var i := 0;
      while i < |nodes| && |byId| < limit
        invariant i <= |nodes| && byId == Collect(limit, old(byId), AllResults(deps, ParentSources(g, nodes[..i])))
      {
        NextParents(deps, limit, old(byId), g, nodes, i);
        IngestSources(deps, ParentSourcesOf(g, nodes[i]));
        i := i + 1;
      }
      SkipParents(deps, limit, old(byId), g, nodes, i);
    }

    method IngestEdges(deps: Deps, g: GraphView, nodes: seq<ScopeNode>)
      modifies this
      ensures byId == Collect(limit, old(byId), AllResults(deps, EdgeSources(g, nodes)))
    {
      var i := 0;
      while i < |nodes| && |byId| < limit
        invariant i <= |nodes| && byId == Collect(limit, old(byId), AllResults(deps, EdgeSources(g, nodes[..i])))
      {
        NextEdges(deps, limit, old(byId), g, nodes, i);
        IngestSources(deps, EdgeSourcesOf(g, nodes[i]));
        i := i + 1;
      }
      SkipEdges(deps, limit, old(byId), g, nodes, i);
    }
  }

  lemma TakeNext<T>(xs: seq<T>, i: nat)
    requires i < |xs|
    ensures xs[..i + 1] == xs[..i] + [xs[i]] && xs[..i + 1][..i] == xs[..i]
  {
  }

  lemma NextSource(deps: Deps, limit: nat, kept: seq<Scoped>, sources: seq<Source>, i: nat)
    requires i < |sources|
    ensures Collect(limit, kept, AllResults(deps, sources[..i + 1])) ==
            Collect(limit, Collect(limit, kept, AllResults(deps, sources[..i])), Results(deps, sources[i]))
  {
    TakeNext(sources, i);
    CollectAppends(limit, kept, AllResults(deps, sources[..i]), Results(deps, sources[i]));
  }

  lemma SkipSources(deps: Deps, limit: nat, kept: seq<Scoped>, sources: seq<Source>, i: nat)
    requires i <= |sources| && (i < |sources| ==> |Collect(limit, kept, AllResults(deps, sources[..i]))| >= limit)
    ensures Collect(limit, kept, AllResults(deps, sources[..i])) == Collect(limit, kept, AllResults(deps, sources))
  {
    assert sources == sources[..i] + sources[i..] && sources[..|sources|] == sources;
    if i < |sources| { SkipWhenFull(deps, limit, kept, sources[..i], sources[i..]); }
  }

  lemma NextParents(deps: Deps, limit: nat, kept: seq<Scoped>, g: GraphView, nodes: seq<ScopeNode>, i: nat)
    requires i < |nodes|
    ensures Collect(limit, kept, AllResults(deps, ParentSources(g, nodes[..i + 1]))) ==
            Collect(limit, Collect(limit, kept, AllResults(deps, ParentSources(g, nodes[..i]))), AllResults(deps, ParentSourcesOf(g, nodes[i])))
  {
    TakeNext(nodes, i);
    CollectSourcesAppends(deps, limit, kept, ParentSources(g, nodes[..i]), ParentSourcesOf(g, nodes[i]));
  }

  lemma SkipParents(deps: Deps, limit: nat, kept: seq<Scoped>, g: GraphView, nodes: seq<ScopeNode>, i: nat)
    requires i <= |nodes| && (i < |nodes| ==> |Collect(limit, kept, AllResults(deps, ParentSources(g, nodes[..i])))| >= limit)
    ensures Collect(limit, kept, AllResults(deps, ParentSources(g, nodes[..i]))) == Collect(limit, kept, AllResults(deps, ParentSources(g, nodes)))
  {
    assert nodes == nodes[..i] + nodes[i..] && nodes[..|nodes|] == nodes;
    if i < |nodes| {
      ParentSourcesAppend(g, nodes[..i], nodes[i..]);
      SkipWhenFull(deps, limit, kept, ParentSources(g, nodes[..i]), ParentSources(g, nodes[i..]));
    }
  }

  lemma NextEdges(deps: Deps, limit: nat, kept: seq<Scoped>, g: GraphView, nodes: seq<ScopeNode>, i: nat)
    requires i < |nodes|
    ensures Collect(limit, kept, AllResults(deps, EdgeSources(g, nodes[..i + 1]))) ==
            Collect(limit, Collect(limit, kept, AllResults(deps, EdgeSources(g, nodes[..i]))), AllResults(deps, EdgeSourcesOf(g, nodes[i])))
  {
    TakeNext(nodes, i);
    CollectSourcesAppends(deps, limit, kept, EdgeSources(g, nodes[..i]), EdgeSourcesOf(g, nodes[i]));
  }

  lemma SkipEdges(deps: Deps, limit: nat, kept: seq<Scoped>, g: GraphView, nodes: seq<ScopeNode>, i: nat)
    requires i <= |nodes| && (i < |nodes| ==> |Collect(limit, kept, AllResults(deps, EdgeSources(g, nodes[..i])))| >= limit)
    ensures Collect(limit, kept, AllResults(deps, EdgeSources(g, nodes[..i]))) == Collect(limit, kept, AllResults(deps, EdgeSources(g, nodes)))
  {
    assert nodes == nodes[..i] + nodes[i..] && nodes[..|nodes|] == nodes;
    if i < |nodes| {
      EdgeSourcesAppend(g, nodes[..i], nodes[i..]);
      SkipWhenFull(deps, limit, kept, EdgeSources(g, nodes[..i]), EdgeSources(g, nodes[i..]));
    }
  }

  lemma CollectSourcesAppends(deps: Deps, limit: nat, kept: seq<Scoped>, a: seq<Source>, b: seq<Source>)
    ensures Collect(limit, kept, AllResults(deps, a + b)) ==
            Collect(limit, Collect(limit, kept, AllResults(deps, a)), AllResults(deps, b))
  {
    AllResultsAppends(deps, a, b);
    CollectAppends(limit, kept, AllResults(deps, a), AllResults(deps, b));
  }

  lemma SkipWhenFull(deps: Deps, limit: nat, kept: seq<Scoped>, done: seq<Source>, rest: seq<Source>)
    requires |Collect(limit, kept, AllResults(deps, done))| >= limit
    ensures Collect(limit, kept, AllResults(deps, done + rest)) == Collect(limit, kept, AllResults(deps, done))
  {
    CollectSourcesAppends(deps, limit, kept, done, rest);
    CollectWhenFull(limit, Collect(limit, kept, AllResults(deps, done)), AllResults(deps, rest));
  }

  lemma {:induction false} ParentSourcesAppend(g: GraphView, a: seq<ScopeNode>, b: seq<ScopeNode>)
    ensures ParentSources(g, a + b) == ParentSources(g, a) + ParentSources(g, b)
  {
    if b == [] {
      assert a + b == a;
    } else {
      ParentSourcesAppend(g, a, b[..|b| - 1]);
      LastOfConcat(a, b);
      Associate(ParentSources(g, a), ParentSources(g, b[..|b| - 1]), ParentSourcesOf(g, b[|b| - 1]));
    }
  }

  lemma {:induction false} EdgeSourcesAppend(g: GraphView, a: seq<ScopeNode>, b: seq<ScopeNode>)
    ensures EdgeSources(g, a + b) == EdgeSources(g, a) + EdgeSources(g, b)
  {
    if b == [] {
      assert a + b == a;
    } else {
      EdgeSourcesAppend(g, a, b[..|b| - 1]);
      LastOfConcat(a, b);
      Associate(EdgeSources(g, a), EdgeSources(g, b[..|b| - 1]), EdgeSourcesOf(g, b[|b| - 1]));
    }
  }

  lemma SourcesSplit(deps: Deps, work: WorkPacket, repos: seq<Source>)
    requires repos == WriteSources(deps, work.writeRepos) + ReadOnlySources(deps, work.readOnlyRepos)
    ensures AllSources(deps, work) == repos + ScopeSources(work) + GraphSources(deps, work)
  {
  }

  lemma ThreeStages(deps: Deps, limit: nat, a: seq<Source>, b: seq<Source>, c: seq<Source>)
    ensures AtMost(limit, FirstById(AllResults(deps, a + b + c))) ==
      Collect(limit, Collect(limit, Collect(limit, [], AllResults(deps, a)), AllResults(deps, b)), AllResults(deps, c))
  {
    CollectSourcesAppends(deps, limit, [], a, b);
    CollectSourcesAppends(deps, limit, [], a + b, c);
    CollectIsCutFirstById(limit, AllResults(deps, a + b + c));
  }

  /** What the four ingestion stages collect, one after the other. */
  predicate StagesRan(deps: Deps, work: WorkPacket, repos: seq<Source>, afterRepos: seq<Scoped>, afterScopes: seq<Scoped>, last: seq<Scoped>) {
    && repos == WriteSources(deps, work.writeRepos) + ReadOnlySources(deps, work.readOnlyRepos)
    && afterRepos == Collect(deps.limit, [], AllResults(deps, repos))
    && afterScopes == Collect(deps.limit, afterRepos, AllResults(deps, ScopeSources(work)))
    && last == Collect(deps.limit, afterScopes, AllResults(deps, GraphSources(deps, work)))
  }

  /** The four ingestion stages together are the cut, de-duplicated concatenation. */
  lemma StagesCompose(deps: Deps, work: WorkPacket, repos: seq<Source>, afterRepos: seq<Scoped>, afterScopes: seq<Scoped>, last: seq<Scoped>)
    requires StagesRan(deps, work, repos, afterRepos, afterScopes, last)
    ensures last == AtMost(deps.limit, FirstById(AllResults(deps, AllSources(deps, work))))
  {
    SourcesSplit(deps, work, repos);
    ThreeStages(deps, deps.limit, repos, ScopeSources(work), GraphSources(deps, work));
  }

  lemma SortFinishes(limit: nat, kept: seq<Scoped>, all: seq<Scoped>)
    requires kept == AtMost(limit, all)
    ensures AtMost(limit, SortByPriority(kept)) == ByBand(kept)
  {
    SortIsByBand(kept);
    SortKeepsElements(kept);
  }

  method IngestGraph(collector: LoreCollector, deps: Deps, work: WorkPacket)
    requires collector.limit == deps.limit
    modifies collector
    ensures collector.byId == Collect(deps.limit, old(collector.byId), AllResults(deps, GraphSources(deps, work)))
  {
    if deps.graph.Some? {
      var g, nodes := deps.graph.value, SelectedScopes(work);
      CollectSourcesAppends(deps, deps.limit, collector.byId, ParentSources(g, nodes), EdgeSources(g, nodes));
      collector.IngestParents(deps, g, nodes);
      collector.IngestEdges(deps, g, nodes);
    }
  }

  /** The lazy selection equals the eager one: stopping early never changes the result. */
  method SelectScopedLore(deps: Deps, work: WorkPacket) returns (selected: seq<Scoped>)
    ensures selected == EagerSelection(deps, work)
  {
    var collector := new LoreCollector(deps.limit);
    var repos := WriteSources(deps, work.writeRepos) + ReadOnlySources(deps, work.readOnlyRepos);
    collector.IngestSources(deps, repos);
    ghost var afterRepos := collector.byId;
    collector.IngestSources(deps, ScopeSources(work));
    ghost var afterScopes := collector.byId;
    IngestGraph(collector, deps, work);
    StagesCompose(deps, work, repos, afterRepos, afterScopes, collector.byId);
    SortFinishes(deps.limit, collector.byId, FirstById(AllResults(deps, AllSources(deps, work))));
    selected := AtMost(deps.limit, SortByPriority(collector.byId));
  }

  // ----- What the selection guarantees -----

  predicate DistinctIds(xs: seq<Scoped>) {
    forall i, j :: 0 <= i < j < |xs| ==> xs[i].Id() != xs[j].Id()
  }

  predicate OrderedByPriority(xs: seq<Scoped>) {
    forall i, j :: 0 <= i < j < |xs| ==> xs[i].Priority() <= xs[j].Priority()
  }

  /** `x` is the record that the first source carrying its id returned. */
  predicate IsFirstOfItsId(x: Scoped, xs: seq<Scoped>) {
    exists k :: 0 <= k < |xs| && xs[k] == x && !HasId(xs[..k], x.Id())
  }

  lemma {:induction false} FirstByIdIs(xs: seq<Scoped>)
    ensures DistinctIds(FirstById(xs))
    ensures forall id :: HasId(FirstById(xs), id) <==> HasId(xs, id)
    ensures forall x :: x in FirstById(xs) <==> IsFirstOfItsId(x, xs)
  {
    if xs != [] {
      var n := |xs| - 1;
      var front, last := xs[..n], xs[n];
      FirstByIdIs(front);
      forall id ensures HasId(FirstById(xs), id) <==> HasId(xs, id) {
        HasIdAppends(front, last, id);
        HasIdAppends(FirstById(front), last, id);
        assert front + [last] == xs;
      }
      forall x ensures x in FirstById(xs) <==> IsFirstOfItsId(x, xs) { FirstAppends(x, front, last); assert front + [last] == xs; }
    }
  }

  lemma HasIdAppends(xs: seq<Scoped>, last: Scoped, id: string)
    ensures HasId(xs + [last], id) <==> HasId(xs, id) || last.Id() == id
  {
    if HasId(xs, id) {
      var i :| 0 <= i < |xs| && xs[i].Id() == id;
      assert (xs + [last])[i] == xs[i];
    }
    if last.Id() == id { assert (xs + [last])[|xs|] == last; }
  }

  lemma FirstAppends(x: Scoped, front: seq<Scoped>, last: Scoped)
    ensures IsFirstOfItsId(x, front + [last]) <==>
            IsFirstOfItsId(x, front) || (x == last && !HasId(front, last.Id()))
  {
    var xs := front + [last];
    assert forall k :: 0 <= k <= |front| ==> xs[..k] == front[..k];
    if IsFirstOfItsId(x, front) {
      var k :| 0 <= k < |front| && front[k] == x && !HasId(front[..k], x.Id());
      assert xs[k] == x;
    }
    if x == last && !HasId(front, last.Id()) {
      assert front[..|front|] == front && xs[|front|] == x;
    }
    if IsFirstOfItsId(x, xs) {
      var k :| 0 <= k < |xs| && xs[k] == x && !HasId(xs[..k], x.Id());
      if k < |front| { assert front[k] == x; } else { assert front[..|front|] == front; }
    }
  }

  lemma {:induction false} InsertKeepsOrder(x: Scoped, sorted: seq<Scoped>)
    requires OrderedByPriority(sorted) && DistinctIds(sorted) && !HasId(sorted, x.Id())
    ensures OrderedByPriority(InsertStable(x, sorted)) && DistinctIds(InsertStable(x, sorted))
    ensures forall y :: y in InsertStable(x, sorted) <==> y == x || y in sorted
  {
    if sorted != [] && x.Priority() > sorted[0].Priority() {
      var head, rest := sorted[0], sorted[1..];
      assert sorted == [head] + rest;
      HasIdConcat([head], rest, x.Id());
      InsertKeepsOrder(x, rest);
      forall y | y in InsertStable(x, rest) ensures head.Priority() <= y.Priority() && head.Id() != y.Id() {
        if y != x {
          var i :| 0 <= i < |rest| && rest[i] == y;
          assert sorted[i + 1] == y;
        } else {
          assert sorted[0].Id() != x.Id();
        }
      }
    }
  }

  lemma {:induction false} SortKeepsOrder(xs: seq<Scoped>)
    requires DistinctIds(xs)
    ensures OrderedByPriority(SortByPriority(xs)) && DistinctIds(SortByPriority(xs))
    ensures forall x :: x in SortByPriority(xs) <==> x in xs
  {
    if xs != [] {
      SortKeepsOrder(xs[1..]);
      assert xs == [xs[0]] + xs[1..];
      var rest := SortByPriority(xs[1..]);
      forall i | 0 <= i < |rest| ensures rest[i].Id() != xs[0].Id() {
        assert rest[i] in rest;
        var j :| 0 <= j < |xs[1..]| && xs[1..][j] == rest[i];
        assert xs[j + 1] == rest[i];
      }
      InsertKeepsOrder(xs[0], rest);
    }
  }

  /** No more than `limit` records, no id twice, bands in order, and every record carries the
      reason of the first source, in ingestion order, that returned its id. */
  lemma SelectionIs(deps: Deps, work: WorkPacket)
    ensures var selected := EagerSelection(deps, work);
      && |selected| <= deps.limit && DistinctIds(selected) && OrderedByPriority(selected)
      && (forall x :: x in selected ==> IsFirstOfItsId(x, AllResults(deps, AllSources(deps, work))))
      && (|FirstById(AllResults(deps, AllSources(deps, work)))| <= deps.limit ==>
            forall x :: IsFirstOfItsId(x, AllResults(deps, AllSources(deps, work))) ==> x in selected)
  {
    var results := AllResults(deps, AllSources(deps, work));
    var kept := AtMost(deps.limit, FirstById(results));
    FirstByIdIs(results);
    SortIsByBand(kept);
    SortKeepsOrder(kept);
    SortKeepsElements(kept);
  }

  // ----- Does the best band win? -----

  // ----- Where a selected record comes from -----

  /** One of the records found by a query for these tags, its summary redacted; no query is made for
      no tags. */
  predicate FoundBy(deps: Deps, tags: seq<string>, repoName: Option<string>, record: LoreRecord) {
    && tags != []
    && exists found :: found in deps.search(Query(tags, repoName, deps.limit)) &&
                       record == LoreRecord(found.id, found.title, deps.redact(found.summary), found.tags)
  }

  predicate FoundInRepo(deps: Deps, repos: seq<string>, repo: string, record: LoreRecord) {
    repo in repos && FoundBy(deps, deps.tagsOfRepo(repo), if repo == "" then None else Some(repo), record)
  }

  predicate FoundInScope(deps: Deps, nodes: seq<ScopeNode>, name: string, record: LoreRecord) {
    exists node :: node in nodes && node.name == name && FoundBy(deps, node.loreTags, None, record)
  }

  function PrimaryScopes(work: WorkPacket): seq<ScopeNode> {
    if work.primary.None? then [] else [work.primary.value]
  }

  predicate FoundInParent(deps: Deps, g: GraphView, nodes: seq<ScopeNode>, parent: string, scope: string, record: LoreRecord) {
    exists node, id :: node in nodes && node.name == scope && id in g.parentsOf(node.id) && g.nameFor(id) == parent &&
      FoundBy(deps, g.loreTagsFor(id), None, record)
  }

  predicate FoundInNeighbour(deps: Deps, g: GraphView, nodes: seq<ScopeNode>, neighbour: string, relation: string, scope: string, record: LoreRecord) {
    exists node, edge :: node in nodes && node.name == scope && edge in g.edgesOf(node.id) &&
      edge.relation == relation && g.nameFor(edge.scopeId) == neighbour && FoundBy(deps, g.loreTagsFor(edge.scopeId), None, record)
  }

  /** The reason of a record tells whose tags found it, under which repo filter. */
  predicate ReasonHolds(deps: Deps, work: WorkPacket, x: Scoped) {
    match x.reason
    case WriteRepo(repo) => FoundInRepo(deps, work.writeRepos, repo, x.record)
    case ReadOnlyRepo(repo) => FoundInRepo(deps, work.readOnlyRepos, repo, x.record)
    case PrimaryScope(scope) => FoundInScope(deps, PrimaryScopes(work), scope, x.record)
    case SecondaryScope(scope) => FoundInScope(deps, work.secondary, scope, x.record)
    case InheritedFrom(parent, scope) =>
      deps.graph.Some? && FoundInParent(deps, deps.graph.value, PrimaryScopes(work) + work.secondary, parent, scope, x.record)
    case RelatedTo(neighbour, relation, scope) =>
      deps.graph.Some? && FoundInNeighbour(deps, deps.graph.value, PrimaryScopes(work) + work.secondary, neighbour, relation, scope, x.record)
  }

  lemma ResultsAre(deps: Deps, source: Source, x: Scoped)
    ensures x in Results(deps, source) <==> x.reason == source.reason && FoundBy(deps, source.tags, source.repoName, x.record)
  {
    if source.tags != [] {
      var found := deps.search(Query(source.tags, source.repoName, deps.limit));
      if x in Results(deps, source) {
        var i :| 0 <= i < |found| && x == Results(deps, source)[i];
        assert found[i] in found;
      }
      if x.reason == source.reason && FoundBy(deps, source.tags, source.repoName, x.record) {
        var r :| r in found && x.record == LoreRecord(r.id, r.title, deps.redact(r.summary), r.tags);
        var i :| 0 <= i < |found| && found[i] == r;
        assert Results(deps, source)[i] == x;
      }
    }
  }

  lemma {:induction false} AllResultsAre(deps: Deps, sources: seq<Source>, x: Scoped)
    ensures x in AllResults(deps, sources) <==>
      exists source :: source in sources && x.reason == source.reason && FoundBy(deps, source.tags, source.repoName, x.record)
  {
    AllResultsFrom(deps, sources, x);
    if source :| source in sources && x in Results(deps, source) { ResultsAre(deps, source, x); }
    if source :| source in sources && x.reason == source.reason && FoundBy(deps, source.tags, source.repoName, x.record) {
      ResultsAre(deps, source, x);
    }
  }

  lemma {:induction false} AllResultsFrom(deps: Deps, sources: seq<Source>, x: Scoped)
    ensures x in AllResults(deps, sources) <==> exists source :: source in sources && x in Results(deps, source)
  {
    if sources != [] {
      var n := |sources| - 1;
      AllResultsFrom(deps, sources[..n], x);
      assert sources == sources[..n] + [sources[n]];
    }
  }

  lemma WriteSourcesAre(deps: Deps, repos: seq<string>, source: Source)
    ensures source in WriteSources(deps, repos) <==>
      exists repo :: repo in repos && source == Source(deps.tagsOfRepo(repo), if repo == "" then None else Some(repo), WriteRepo(repo))
  {
    forall i | 0 <= i < |repos| ensures repos[i] in repos && WriteSources(deps, repos)[i] in WriteSources(deps, repos) {}
  }

  lemma ReadOnlySourcesAre(deps: Deps, repos: seq<string>, source: Source)
    ensures source in ReadOnlySources(deps, repos) <==>
      exists repo :: repo in repos && source == Source(deps.tagsOfRepo(repo), if repo == "" then None else Some(repo), ReadOnlyRepo(repo))
  {
    forall i | 0 <= i < |repos| ensures repos[i] in repos && ReadOnlySources(deps, repos)[i] in ReadOnlySources(deps, repos) {}
  }

  lemma SecondarySourcesAre(work: WorkPacket, source: Source)
    ensures source in SecondarySources(work) <==>
      exists node :: node in work.secondary && source == Source(node.loreTags, None, SecondaryScope(node.name))
  {
    forall i | 0 <= i < |work.secondary| ensures work.secondary[i] in work.secondary && SecondarySources(work)[i] in SecondarySources(work) {}
  }

  predicate IsParentSource(g: GraphView, node: ScopeNode, id: string, source: Source) {
    id in g.parentsOf(node.id) && source == Source(g.loreTagsFor(id), None, InheritedFrom(g.nameFor(id), node.name))
  }

  lemma {:induction false} ParentSourcesAre(g: GraphView, nodes: seq<ScopeNode>, source: Source)
    ensures source in ParentSources(g, nodes) <==> exists node, id :: node in nodes && IsParentSource(g, node, id, source)
  {
    if nodes != [] {
      var n := |nodes| - 1;
      ParentSourcesAre(g, nodes[..n], source);
      assert nodes == nodes[..n] + [nodes[n]];
      var parents, last := g.parentsOf(nodes[n].id), ParentSourcesOf(g, nodes[n]);
      forall i | 0 <= i < |parents| ensures parents[i] in parents && last[i] in last && IsParentSource(g, nodes[n], parents[i], last[i]) {}
    }
  }

  predicate IsEdgeSource(g: GraphView, node: ScopeNode, edge: Related, source: Source) {
    edge in g.edgesOf(node.id) &&
    source == Source(g.loreTagsFor(edge.scopeId), None, RelatedTo(g.nameFor(edge.scopeId), edge.relation, node.name))
  }

  lemma {:induction false} EdgeSourcesAre(g: GraphView, nodes: seq<ScopeNode>, source: Source)
    ensures source in EdgeSources(g, nodes) <==> exists node, edge :: node in nodes && IsEdgeSource(g, node, edge, source)
  {
    if nodes != [] {
      var n := |nodes| - 1;
      EdgeSourcesAre(g, nodes[..n], source);
      assert nodes == nodes[..n] + [nodes[n]];
      var edges, last := g.edgesOf(nodes[n].id), EdgeSourcesOf(g, nodes[n]);
      forall i | 0 <= i < |edges| ensures edges[i] in edges && last[i] in last && IsEdgeSource(g, nodes[n], edges[i], last[i]) {}
    }
  }

  /** Whose tags, which filter: a record is offered to the selection under a reason exactly when the
      tags of the repo, scope, parent or neighbour that the reason names found it. */
  lemma OfferedIff(deps: Deps, work: WorkPacket, x: Scoped)
    ensures x in AllResults(deps, AllSources(deps, work)) <==> ReasonHolds(deps, work, x)
  {
    AllResultsAre(deps, AllSources(deps, work), x);
    if x in AllResults(deps, AllSources(deps, work)) {
      var source :| source in AllSources(deps, work) && x.reason == source.reason && FoundBy(deps, source.tags, source.repoName, x.record);
      SourceTells(deps, work, source, x);
    }
    if ReasonHolds(deps, work, x) {
      var source := SourceOf(deps, work, x);
    }
  }

  lemma SourcesAre(deps: Deps, work: WorkPacket, source: Source)
    ensures source in AllSources(deps, work) <==>
      || (exists repo :: repo in work.writeRepos && source == Source(deps.tagsOfRepo(repo), if repo == "" then None else Some(repo), WriteRepo(repo)))
      || (exists repo :: repo in work.readOnlyRepos && source == Source(deps.tagsOfRepo(repo), if repo == "" then None else Some(repo), ReadOnlyRepo(repo)))
      || (exists node :: node in PrimaryScopes(work) && source == Source(node.loreTags, None, PrimaryScope(node.name)))
      || (exists node :: node in work.secondary && source == Source(node.loreTags, None, SecondaryScope(node.name)))
      || (deps.graph.Some? && exists node, id :: node in PrimaryScopes(work) + work.secondary && IsParentSource(deps.graph.value, node, id, source))
      || (deps.graph.Some? && exists node, edge :: node in PrimaryScopes(work) + work.secondary && IsEdgeSource(deps.graph.value, node, edge, source))
  {
    WriteSourcesAre(deps, work.writeRepos, source);
    ReadOnlySourcesAre(deps, work.readOnlyRepos, source);
    PrimarySourcesAre(work, source);
    SecondarySourcesAre(work, source);
    GraphSourcesAre(deps, work, source);
    InFive(WriteSources(deps, work.writeRepos), ReadOnlySources(deps, work.readOnlyRepos), PrimarySources(work), SecondarySources(work),
           GraphSources(deps, work), source);
  }

  lemma InFive(a: seq<Source>, b: seq<Source>, c: seq<Source>, d: seq<Source>, e: seq<Source>, source: Source)
    ensures source in a + b + (c + d) + e <==> source in a || source in b || source in c || source in d || source in e
  {
  }

  lemma PrimarySourcesAre(work: WorkPacket, source: Source)
    ensures source in PrimarySources(work) <==>
      exists node :: node in PrimaryScopes(work) && source == Source(node.loreTags, None, PrimaryScope(node.name))
  {
    if work.primary.Some? { assert work.primary.value in PrimaryScopes(work); }
  }

  lemma GraphSourcesAre(deps: Deps, work: WorkPacket, source: Source)
    ensures source in GraphSources(deps, work) <==>
      || (deps.graph.Some? && exists node, id :: node in PrimaryScopes(work) + work.secondary && IsParentSource(deps.graph.value, node, id, source))
      || (deps.graph.Some? && exists node, edge :: node in PrimaryScopes(work) + work.secondary && IsEdgeSource(deps.graph.value, node, edge, source))
  {
    assert SelectedScopes(work) == PrimaryScopes(work) + work.secondary;
    if deps.graph.Some? {
      ParentSourcesAre(deps.graph.value, SelectedScopes(work), source);
      EdgeSourcesAre(deps.graph.value, SelectedScopes(work), source);
    }
  }

  lemma SourceTells(deps: Deps, work: WorkPacket, source: Source, x: Scoped)
    requires source in AllSources(deps, work) && x.reason == source.reason && FoundBy(deps, source.tags, source.repoName, x.record)
    ensures ReasonHolds(deps, work, x)
  {
    SourcesAre(deps, work, source);
  }

  lemma SourceOf(deps: Deps, work: WorkPacket, x: Scoped) returns (source: Source)
    requires ReasonHolds(deps, work, x)
    ensures source in AllSources(deps, work) && x.reason == source.reason && FoundBy(deps, source.tags, source.repoName, x.record)
  {
    match x.reason {
      case WriteRepo(repo) => source := Source(deps.tagsOfRepo(repo), if repo == "" then None else Some(repo), x.reason);
      case ReadOnlyRepo(repo) => source := Source(deps.tagsOfRepo(repo), if repo == "" then None else Some(repo), x.reason);
      case PrimaryScope(scope) =>
        var node :| node in PrimaryScopes(work) && node.name == scope && FoundBy(deps, node.loreTags, None, x.record);
        source := Source(node.loreTags, None, x.reason);
      case SecondaryScope(scope) =>
        var node :| node in work.secondary && node.name == scope && FoundBy(deps, node.loreTags, None, x.record);
        source := Source(node.loreTags, None, x.reason);
      case InheritedFrom(parent, scope) =>
        var g := deps.graph.value;
        var node, id :| node in PrimaryScopes(work) + work.secondary && node.name == scope && id in g.parentsOf(node.id) &&
                        g.nameFor(id) == parent && FoundBy(deps, g.loreTagsFor(id), None, x.record);
        source := Source(g.loreTagsFor(id), None, x.reason);
        assert IsParentSource(g, node, id, source);
      case RelatedTo(neighbour, relation, scope) =>
        var g := deps.graph.value;
        var node, edge :| node in PrimaryScopes(work) + work.secondary && node.name == scope && edge in g.edgesOf(node.id) &&
                          edge.relation == relation && g.nameFor(edge.scopeId) == neighbour &&
                          FoundBy(deps, g.loreTagsFor(edge.scopeId), None, x.record);
        source := Source(g.loreTagsFor(edge.scopeId), None, x.reason);
        assert IsEdgeSource(g, node, edge, source);
    }
    SourcesAre(deps, work, source);
  }

  /** Every selected record is there for the reason it states, and below the limit every record that
      any reason holds for is selected, under its own reason or that of an earlier find. */
  lemma SelectedForAReason(deps: Deps, work: WorkPacket, x: Scoped)
    ensures x in EagerSelection(deps, work) ==> ReasonHolds(deps, work, x)
    ensures ReasonHolds(deps, work, x) && |EagerSelection(deps, work)| < deps.limit ==> HasId(EagerSelection(deps, work), x.Id())
  {
    var results := AllResults(deps, AllSources(deps, work));
    SelectionIs(deps, work);
    OfferedIff(deps, work, x);
    if ReasonHolds(deps, work, x) && |EagerSelection(deps, work)| < deps.limit {
      var kept := AtMost(deps.limit, FirstById(results));
      SortIsByBand(kept);
      SortKeepsElements(kept);
      FirstByIdIs(results);
      var k :| 0 <= k < |results| && results[k] == x;
      assert HasId(results, x.Id());
      var i :| 0 <= i < |kept| && kept[i].Id() == x.Id();
      InSorted(kept, EagerSelection(deps, work), i);
    }
  }

  lemma InSorted(xs: seq<Scoped>, sorted: seq<Scoped>, i: nat)
    requires multiset(sorted) == multiset(xs) && i < |xs|
    ensures HasId(sorted, xs[i].Id())
  {
    assert xs[i] in multiset(sorted);
    var k :| 0 <= k < |sorted| && sorted[k] == xs[i];
  }

  predicate BestOfItsId(x: Scoped, xs: seq<Scoped>) {
    forall i :: 0 <= i < |xs| && xs[i].Id() == x.Id() ==> x.Priority() <= xs[i].Priority()
  }

  predicate AllInBands(xs: seq<Scoped>, low: nat, high: nat) {
    forall i :: 0 <= i < |xs| ==> low <= xs[i].Priority() <= high
  }

  lemma {:induction false} ResultsInBands(deps: Deps, sources: seq<Source>, low: nat, high: nat)
    requires forall i :: 0 <= i < |sources| ==> low <= Band(sources[i].reason) <= high
    ensures AllInBands(AllResults(deps, sources), low, high)
  {
    if sources != [] {
      ResultsInBands(deps, sources[..|sources| - 1], low, high);
      ResultsInBand(deps, sources[|sources| - 1]);
    }
  }

  lemma ResultsInBand(deps: Deps, source: Source)
    ensures AllInBands(Results(deps, source), Band(source.reason), Band(source.reason))
  {
  }

  lemma OrderedConcat(a: seq<Scoped>, b: seq<Scoped>, low: nat, high: nat)
    requires AllInBands(a, low, low) && AllInBands(b, high, high) && low <= high
    ensures OrderedByPriority(a + b) && AllInBands(a + b, low, high)
  {
  }

  /** The scope results are in band order: the primary scope is queried first. */
  lemma ScopeResultsOrdered(deps: Deps, work: WorkPacket)
    ensures OrderedByPriority(AllResults(deps, ScopeSources(work)))
    ensures AllInBands(AllResults(deps, ScopeSources(work)), 1, 2)
  {
    var primary, secondary := PrimarySources(work), SecondarySources(work);
    AllResultsAppends(deps, primary, secondary);
    ScopeBands(deps, work);
    OrderedConcat(AllResults(deps, primary), AllResults(deps, secondary), 1, 2);
  }

  lemma ScopeBands(deps: Deps, work: WorkPacket)
    ensures AllInBands(AllResults(deps, PrimarySources(work)), 1, 1)
    ensures AllInBands(AllResults(deps, SecondarySources(work)), 2, 2)
  {
    ResultsInBands(deps, PrimarySources(work), 1, 1);
    ResultsInBands(deps, SecondarySources(work), 2, 2);
  }

  lemma {:induction false} ParentBands(g: GraphView, nodes: seq<ScopeNode>)
    ensures forall i :: 0 <= i < |ParentSources(g, nodes)| ==> Band(ParentSources(g, nodes)[i].reason) == 4
    ensures forall i :: 0 <= i < |EdgeSources(g, nodes)| ==> Band(EdgeSources(g, nodes)[i].reason) == 5
  {
    if nodes != [] { ParentBands(g, nodes[..|nodes| - 1]); }
  }

  lemma GraphResultsOrdered(deps: Deps, work: WorkPacket)
    ensures OrderedByPriority(AllResults(deps, GraphSources(deps, work)))
    ensures AllInBands(AllResults(deps, GraphSources(deps, work)), 4, 5)
  {
    if deps.graph.Some? {
      var g, nodes := deps.graph.value, SelectedScopes(work);
      ParentBands(g, nodes);
      AllResultsAppends(deps, ParentSources(g, nodes), EdgeSources(g, nodes));
      ResultsInBands(deps, ParentSources(g, nodes), 4, 4);
      ResultsInBands(deps, EdgeSources(g, nodes), 5, 5);
      OrderedConcat(AllResults(deps, ParentSources(g, nodes)), AllResults(deps, EdgeSources(g, nodes)), 4, 5);
    }
  }

  lemma HasIdConcat(a: seq<Scoped>, b: seq<Scoped>, id: string)
    ensures HasId(a + b, id) <==> HasId(a, id) || HasId(b, id)
  {
    if HasId(a, id) {
      var i :| 0 <= i < |a| && a[i].Id() == id;
      assert (a + b)[i] == a[i];
    }
    if HasId(b, id) {
      var i :| 0 <= i < |b| && b[i].Id() == id;
      assert (a + b)[|a| + i] == b[i];
    }
  }

  lemma FirstConcat(a: seq<Scoped>, b: seq<Scoped>, x: Scoped)
    requires IsFirstOfItsId(x, a + b)
    ensures if HasId(a, x.Id()) then IsFirstOfItsId(x, a) else IsFirstOfItsId(x, b)
  {
    var k :| 0 <= k < |a + b| && (a + b)[k] == x && !HasId((a + b)[..k], x.Id());
    if k < |a| { FirstOnTheLeft(a, b, x, k); } else { FirstOnTheRight(a, b, x, k); }
  }

  lemma FirstOnTheLeft(a: seq<Scoped>, b: seq<Scoped>, x: Scoped, k: nat)
    requires k < |a| && (a + b)[k] == x && !HasId((a + b)[..k], x.Id())
    ensures HasId(a, x.Id()) && IsFirstOfItsId(x, a)
  {
    assert (a + b)[..k] == a[..k] && a[k] == x;
  }

  lemma FirstOnTheRight(a: seq<Scoped>, b: seq<Scoped>, x: Scoped, k: nat)
    requires |a| <= k < |a + b| && (a + b)[k] == x && !HasId((a + b)[..k], x.Id())
    ensures !HasId(a, x.Id()) && IsFirstOfItsId(x, b)
  {
    var m := k - |a|;
    assert (a + b)[..k] == a + b[..m] && b[m] == x;
    HasIdConcat(a, b[..m], x.Id());
  }

  lemma BestConcat(a: seq<Scoped>, b: seq<Scoped>, x: Scoped)
    ensures BestOfItsId(x, a + b) <==> BestOfItsId(x, a) && BestOfItsId(x, b)
  {
    var xs := a + b;
    assert forall i :: 0 <= i < |a| ==> xs[i] == a[i];
    assert forall i :: 0 <= i < |b| ==> xs[|a| + i] == b[i];
    if BestOfItsId(x, xs) {
      forall i | 0 <= i < |b| && b[i].Id() == x.Id() ensures x.Priority() <= b[i].Priority() {
        assert xs[|a| + i] == b[i];
      }
    }
  }

  /** The first record of an id in a band-ordered list is its best, and lies in the list's bands. */
  lemma FirstOfOrdered(xs: seq<Scoped>, low: nat, high: nat, x: Scoped)
    requires OrderedByPriority(xs) && AllInBands(xs, low, high) && IsFirstOfItsId(x, xs)
    ensures BestOfItsId(x, xs) && low <= x.Priority() <= high
  {
    var k :| 0 <= k < |xs| && xs[k] == x && !HasId(xs[..k], x.Id());
    forall i | 0 <= i < k ensures xs[i].Id() != x.Id() {
      assert xs[..k][i] == xs[i];
    }
  }

  /** Write-repo results, read-only ones, scope ones, graph ones, in that order: the first
      record of an id is its best, unless a read-only repo got in before a scope. */
  lemma FirstIsBestUnless(w: seq<Scoped>, r: seq<Scoped>, s: seq<Scoped>, g: seq<Scoped>, x: Scoped)
    requires AllInBands(w, 0, 0) && AllInBands(r, 3, 3)
    requires AllInBands(s, 1, 2) && OrderedByPriority(s) && AllInBands(g, 4, 5) && OrderedByPriority(g)
    requires IsFirstOfItsId(x, w + r + s + g)
    ensures BestOfItsId(x, w + r + s + g) <==> HasId(w, x.Id()) || !HasId(r, x.Id()) || !HasId(s, x.Id())
  {
    BestConcat(w + r + s, g, x);
    BestConcat(w + r, s, x);
    BestConcat(w, r, x);
    HasIdConcat(w + r, s, x.Id());
    HasIdConcat(w, r, x.Id());
    FirstConcat(w + r + s, g, x);
    if !HasId(w + r + s, x.Id()) {
      FirstOfOrdered(g, 4, 5, x);
    } else {
      FirstConcat(w + r, s, x);
      if !HasId(w + r, x.Id()) {
        FirstOfOrdered(s, 1, 2, x);
      } else {
        FirstConcat(w, r, x);
        FirstOfOrdered(if HasId(w, x.Id()) then w else r, 0, 3, x);
      }
    }
  }

  /** The comment at the head of `selectScopedLore` says the highest-priority reason wins. It
      does for a selected record exactly when no read-only repo returned it before a selected
      scope did, or a write repo returned it first. */
  lemma BestReasonWinsIff(deps: Deps, work: WorkPacket, x: Scoped)
    requires x in EagerSelection(deps, work)
    ensures
      var fromWrite := AllResults(deps, WriteSources(deps, work.writeRepos));
      var fromRead := AllResults(deps, ReadOnlySources(deps, work.readOnlyRepos));
      var fromScopes := AllResults(deps, ScopeSources(work));
      BestOfItsId(x, AllResults(deps, AllSources(deps, work))) <==>
        HasId(fromWrite, x.Id()) || !HasId(fromRead, x.Id()) || !HasId(fromScopes, x.Id())
  {
    SelectionIs(deps, work);
    var a, b := WriteSources(deps, work.writeRepos), ReadOnlySources(deps, work.readOnlyRepos);
    var c, d := ScopeSources(work), GraphSources(deps, work);
    FourStages(deps, a, b, c, d);
    RepoBands(deps, work);
    ScopeResultsOrdered(deps, work);
    GraphResultsOrdered(deps, work);
    FirstIsBestUnless(AllResults(deps, a), AllResults(deps, b), AllResults(deps, c), AllResults(deps, d), x);
  }

  lemma FourStages(deps: Deps, a: seq<Source>, b: seq<Source>, c: seq<Source>, d: seq<Source>)
    ensures AllResults(deps, a + b + c + d) == AllResults(deps, a) + AllResults(deps, b) + AllResults(deps, c) + AllResults(deps, d)
  {
    AllResultsAppends(deps, a, b);
    AllResultsAppends(deps, a + b, c);
    AllResultsAppends(deps, a + b + c, d);
  }

  lemma RepoBands(deps: Deps, work: WorkPacket)
    ensures AllInBands(AllResults(deps, WriteSources(deps, work.writeRepos)), 0, 0)
    ensures AllInBands(AllResults(deps, ReadOnlySources(deps, work.readOnlyRepos)), 3, 3)
  {
    ResultsInBands(deps, WriteSources(deps, work.writeRepos), 0, 0);
    ResultsInBands(deps, ReadOnlySources(deps, work.readOnlyRepos), 3, 3);
  }

  // ----- Does the cap keep the best bands? -----

  predicate AllFrom(xs: seq<Scoped>, source: seq<Scoped>) {
    forall x :: x in xs ==> x in source
  }

  /** De-duplicating a concatenation keeps the first part's records and adds some of the second's. */
  lemma {:induction false} FirstByIdSplits(a: seq<Scoped>, b: seq<Scoped>) returns (more: seq<Scoped>)
    ensures FirstById(a + b) == FirstById(a) + more && AllFrom(more, b)
    ensures OrderedByPriority(b) ==> OrderedByPriority(more)
  {
    if b == [] {
      more := [];
      assert a + b == a && FirstById(a) + more == FirstById(a);
    } else {
      var n := |b| - 1;
      var less := FirstByIdSplits(a, b[..n]);
      LastOfConcat(a, b);
      assert b == b[..n] + [b[n]];
      if HasId(FirstById(a) + less, b[n].Id()) {
        more := less;
      } else {
        more := less + [b[n]];
        Associate(FirstById(a), less, [b[n]]);
        if OrderedByPriority(b) { OrderedGrows(less, b); }
      }
    }
  }

  lemma OrderedGrows(less: seq<Scoped>, b: seq<Scoped>)
    requires b != [] && OrderedByPriority(b) && AllFrom(less, b[..|b| - 1]) && OrderedByPriority(less)
    ensures OrderedByPriority(less + [b[|b| - 1]])
  {
    forall i | 0 <= i < |less| ensures less[i].Priority() <= b[|b| - 1].Priority() {
      assert less[i] in b[..|b| - 1];
    }
  }

  lemma BandsOfSome(xs: seq<Scoped>, source: seq<Scoped>, low: nat, high: nat)
    requires AllFrom(xs, source) && AllInBands(source, low, high)
    ensures AllInBands(xs, low, high)
  {
    forall i | 0 <= i < |xs| ensures low <= xs[i].Priority() <= high { assert xs[i] in source; }
  }

  /** No record cut off at `limit` has a better band than one kept. */
  predicate CutKeepsBest(limit: nat, xs: seq<Scoped>) {
    forall i, j :: 0 <= i < limit <= j < |xs| ==> xs[i].Priority() <= xs[j].Priority()
  }

  /** Where the bands of the four ingestion stages lie in a list: up to `a`, `b`, `c` and its end. */
  predicate StageBands(xs: seq<Scoped>, a: nat, b: nat, c: nat) {
    && a <= b <= c <= |xs|
    && (forall i :: 0 <= i < a ==> xs[i].Priority() == 0)
    && (forall i :: a <= i < b ==> xs[i].Priority() == 3)
    && (forall i :: b <= i < c ==> 1 <= xs[i].Priority() <= 2)
    && (forall i :: c <= i < |xs| ==> 4 <= xs[i].Priority() <= 5)
    && (forall i, j :: b <= i < j < c ==> xs[i].Priority() <= xs[j].Priority())
    && (forall i, j :: c <= i < j < |xs| ==> xs[i].Priority() <= xs[j].Priority())
  }

  lemma StagesLie(w: seq<Scoped>, r: seq<Scoped>, s: seq<Scoped>, g: seq<Scoped>)
    requires AllInBands(w, 0, 0) && AllInBands(r, 3, 3)
    requires AllInBands(s, 1, 2) && OrderedByPriority(s) && AllInBands(g, 4, 5) && OrderedByPriority(g)
    ensures StageBands(w + r + s + g, |w|, |w + r|, |w + r + s|)
  {
    var xs := w + r + s + g;
    var a, b, c := |w|, |w + r|, |w + r + s|;
    assert forall i :: 0 <= i < a ==> xs[i] == w[i];
    assert forall i :: a <= i < b ==> xs[i] == r[i - a];
    assert forall i :: b <= i < c ==> xs[i] == s[i - b];
    assert forall i :: c <= i < |xs| ==> xs[i] == g[i - c];
  }

  /** A cut drops a better record only if it falls between a read-only repo's record and a scope's. */
  lemma CutOfStages(limit: nat, xs: seq<Scoped>, a: nat, b: nat, c: nat)
    requires StageBands(xs, a, b, c)
    ensures CutKeepsBest(limit, xs) <==> limit <= a || b == a || c <= limit || c == b
  {
    if a < limit < c && a < b < c { assert xs[a].Priority() == 3 && xs[c - 1].Priority() <= 2; }
  }

  /** The stages' own records: what each adds to the de-duplicated list. */
  lemma StagesOfFirstById(w: seq<Scoped>, r: seq<Scoped>, s: seq<Scoped>, g: seq<Scoped>)
    returns (a: seq<Scoped>, b: seq<Scoped>, c: seq<Scoped>, d: seq<Scoped>)
    requires AllInBands(w, 0, 0) && AllInBands(r, 3, 3)
    requires AllInBands(s, 1, 2) && OrderedByPriority(s) && AllInBands(g, 4, 5) && OrderedByPriority(g)
    ensures a == FirstById(w) && a + b == FirstById(w + r) && a + b + c == FirstById(w + r + s) && a + b + c + d == FirstById(w + r + s + g)
    ensures AllInBands(a, 0, 0) && AllInBands(b, 3, 3)
    ensures AllInBands(c, 1, 2) && OrderedByPriority(c) && AllInBands(d, 4, 5) && OrderedByPriority(d)
  {
    a := FirstById(w);
    b := FirstByIdSplits(w, r);
    c := FirstByIdSplits(w + r, s);
    d := FirstByIdSplits(w + r + s, g);
    FirstByIdFrom(w);
    BandsOfSome(a, w, 0, 0);
    BandsOfSome(b, r, 3, 3);
    BandsOfSome(c, s, 1, 2);
    BandsOfSome(d, g, 4, 5);
  }

  lemma FirstByIdFrom(xs: seq<Scoped>)
    ensures AllFrom(FirstById(xs), xs)
  {
    FirstByIdIs(xs);
    forall x | x in FirstById(xs) ensures x in xs {
      var k :| 0 <= k < |xs| && xs[k] == x && !HasId(xs[..k], x.Id());
    }
  }

  lemma CutIffOfStages(limit: nat, w: seq<Scoped>, r: seq<Scoped>, s: seq<Scoped>, g: seq<Scoped>)
    requires AllInBands(w, 0, 0) && AllInBands(r, 3, 3)
    requires AllInBands(s, 1, 2) && OrderedByPriority(s) && AllInBands(g, 4, 5) && OrderedByPriority(g)
    ensures CutKeepsBest(limit, FirstById(w + r + s + g)) <==>
      || limit <= |FirstById(w)| || |FirstById(w + r)| == |FirstById(w)|
      || |FirstById(w + r + s)| <= limit || |FirstById(w + r + s)| == |FirstById(w + r)|
  {
    var a, b, c, d := StagesOfFirstById(w, r, s, g);
    StagesLie(a, b, c, d);
    CutOfStages(limit, a + b + c + d, |a|, |a + b|, |a + b + c|);
  }

  /** "The cap drops the lowest priority first" holds exactly when the write repos alone fill the
      cap, or the read-only repos add no record, or the cap is not reached before the scopes are
      through, or the scopes add no record. */
  lemma CapKeepsBestIff(deps: Deps, work: WorkPacket)
    ensures
      var w := AllResults(deps, WriteSources(deps, work.writeRepos));
      var r := AllResults(deps, ReadOnlySources(deps, work.readOnlyRepos));
      var s := AllResults(deps, ScopeSources(work));
      CutKeepsBest(deps.limit, FirstById(AllResults(deps, AllSources(deps, work)))) <==>
        || deps.limit <= |FirstById(w)| || |FirstById(w + r)| == |FirstById(w)|
        || |FirstById(w + r + s)| <= deps.limit || |FirstById(w + r + s)| == |FirstById(w + r)|
  {
    var a, b := WriteSources(deps, work.writeRepos), ReadOnlySources(deps, work.readOnlyRepos);
    var c, d := ScopeSources(work), GraphSources(deps, work);
    FourStages(deps, a, b, c, d);
    RepoBands(deps, work);
    ScopeResultsOrdered(deps, work);
    GraphResultsOrdered(deps, work);
    CutIffOfStages(deps.limit, AllResults(deps, a), AllResults(deps, b), AllResults(deps, c), AllResults(deps, d));
  }

  // ----- Two packets that break the comment -----

  const LIB := Source(["repo-tag"], Some("lib"), ReadOnlyRepo("lib"))
  const SCOPE := Source(["scope-tag"], None, PrimaryScope("scope"))
  const LIB_AND_SCOPE := WorkPacket([], ["lib"], Some(ScopeNode("s", "scope", ["scope-tag"])), [])

  /** The read-only repo `lib` and the primary scope return one record each. */
  function LibAndScopeDeps(lib: LoreRecord, scope: LoreRecord, limit: nat): Deps {
    Deps((q: Query) => if q.repoName == None then [scope] else [lib], name => ["repo-tag"], None, limit, text => text)
  }

  /** A record that both a read-only repo and the primary scope return is filed under the
      read-only repo, two bands worse. */
  lemma ReadOnlyRepoShadowsPrimaryScope(record: LoreRecord)
    ensures var deps := LibAndScopeDeps(record, record, 10);
      && EagerSelection(deps, LIB_AND_SCOPE) == [Scoped(record, LIB.reason)]
      && !BestOfItsId(Scoped(record, LIB.reason), AllResults(deps, AllSources(deps, LIB_AND_SCOPE)))
  {
    var x, y := Scoped(record, LIB.reason), Scoped(record, SCOPE.reason);
    LibThenScope(record, record, 10, LibAndScopeDeps(record, record, 10), x, y);
    LibIsNotBest(record, 10, x, y);
  }

  lemma LibIsNotBest(record: LoreRecord, limit: nat, x: Scoped, y: Scoped)
    requires x == Scoped(record, LIB.reason) && y == Scoped(record, SCOPE.reason)
    ensures !BestOfItsId(x, AllResults(LibAndScopeDeps(record, record, limit), AllSources(LibAndScopeDeps(record, record, limit), LIB_AND_SCOPE)))
  {
    var deps := LibAndScopeDeps(record, record, limit);
    LibThenScopeResults(record, record, limit, deps, x, y);
    NotBest(x, y, AllResults(deps, AllSources(deps, LIB_AND_SCOPE)));
  }

  lemma NotBest(x: Scoped, y: Scoped, xs: seq<Scoped>)
    requires y in xs && y.Id() == x.Id() && y.Priority() < x.Priority()
    ensures !BestOfItsId(x, xs)
  {
  }

  /** Under a cap of one, a read-only repo's record displaces a better-banded one of the
      primary scope: the cap does not drop the lowest priority first. */
  lemma ReadOnlyRepoDisplacesPrimaryScope(record: LoreRecord, other: LoreRecord)
    requires other.id != record.id
    ensures var deps := LibAndScopeDeps(record, other, 1);
      && EagerSelection(deps, LIB_AND_SCOPE) == [Scoped(record, LIB.reason)]
      && !CutKeepsBest(1, FirstById(AllResults(deps, AllSources(deps, LIB_AND_SCOPE))))
  {
    var x, y := Scoped(record, LIB.reason), Scoped(other, SCOPE.reason);
    LibThenScope(record, other, 1, LibAndScopeDeps(record, other, 1), x, y);
    ScopeIsCut(record, other, 1, x, y);
  }

  lemma ScopeIsCut(lib: LoreRecord, scope: LoreRecord, limit: nat, x: Scoped, y: Scoped)
    requires x == Scoped(lib, LIB.reason) && y == Scoped(scope, SCOPE.reason) && lib.id != scope.id && limit == 1
    ensures !CutKeepsBest(limit, FirstById(AllResults(LibAndScopeDeps(lib, scope, limit), AllSources(LibAndScopeDeps(lib, scope, limit), LIB_AND_SCOPE))))
  {
    var deps := LibAndScopeDeps(lib, scope, limit);
    LibThenScopeResults(lib, scope, limit, deps, x, y);
    BetterIsCut(x, y, AllResults(deps, AllSources(deps, LIB_AND_SCOPE)));
  }

  lemma BetterIsCut(x: Scoped, y: Scoped, results: seq<Scoped>)
    requires results == [x, y] && y.Priority() < x.Priority() && x.Id() != y.Id()
    ensures !CutKeepsBest(1, FirstById(results))
  {
    TwoRecords(x, y);
    assert [x, y][0] == x && [x, y][1] == y;
  }

  lemma LibThenScopeResults(lib: LoreRecord, scope: LoreRecord, limit: nat, deps: Deps, x: Scoped, y: Scoped)
    requires deps == LibAndScopeDeps(lib, scope, limit) && x == Scoped(lib, LIB.reason) && y == Scoped(scope, SCOPE.reason)
    ensures AllResults(deps, AllSources(deps, LIB_AND_SCOPE)) == [x, y]
  {
    LibThenScopeSources(lib, scope, limit);
    TwoResults(deps, LIB, SCOPE);
    OneResult(deps, LIB, lib);
    OneResult(deps, SCOPE, scope);
    assert [x] + [y] == [x, y];
  }

  lemma LibThenScope(lib: LoreRecord, scope: LoreRecord, limit: nat, deps: Deps, x: Scoped, y: Scoped)
    requires deps == LibAndScopeDeps(lib, scope, limit) && x == Scoped(lib, LIB.reason) && y == Scoped(scope, SCOPE.reason)
    requires limit > 0 && (lib.id == scope.id || limit == 1)
    ensures EagerSelection(deps, LIB_AND_SCOPE) == [x]
  {
    LibThenScopeResults(lib, scope, limit, deps, x, y);
    TwoRecords(x, y);
    OneByBand(x);
    assert AtMost(limit, FirstById([x, y])) == [x];
  }

  lemma LibThenScopeSources(lib: LoreRecord, scope: LoreRecord, limit: nat)
    ensures AllSources(LibAndScopeDeps(lib, scope, limit), LIB_AND_SCOPE) == [LIB, SCOPE]
  {
    var deps, work := LibAndScopeDeps(lib, scope, limit), LIB_AND_SCOPE;
    assert WriteSources(deps, work.writeRepos) == [];
    assert ReadOnlySources(deps, work.readOnlyRepos) == [LIB];
    assert ScopeSources(work) == [SCOPE];
  }

  lemma TwoResults(deps: Deps, a: Source, b: Source)
    ensures AllResults(deps, [a, b]) == Results(deps, a) + Results(deps, b)
  {
    assert [a, b][..1] == [a] && [a][..0] == [];
    assert AllResults(deps, [a]) == [] + Results(deps, a);
  }

  lemma OneResult(deps: Deps, source: Source, record: LoreRecord)
    requires source.tags != [] && deps.search(Query(source.tags, source.repoName, deps.limit)) == [record]
    requires deps.redact(record.summary) == record.summary
    ensures Results(deps, source) == [Scoped(record, source.reason)]
  {
    assert record.(summary := record.summary) == record;
  }

  lemma TwoRecords(a: Scoped, b: Scoped)
    ensures FirstById([a, b]) == if a.Id() == b.Id() then [a] else [a, b]
  {
    assert [a, b][..1] == [a] && [a][..0] == [];
    assert FirstById([]) == [] && !HasId([], a.Id());
    assert FirstById([a]) == [] + [a];
    assert [a][0].Id() == a.Id();
    assert HasId([a], b.Id()) <==> a.Id() == b.Id();
    assert FirstById([a, b][..1]) == [a] && [a] + [b] == [a, b];
  }

  lemma OneByBand(a: Scoped)
    ensures ByBand([a]) == [a]
  {
    SortIsByBand([a]);
    assert [a][1..] == [];
    assert SortByPriority([a]) == [a];
  }
}
