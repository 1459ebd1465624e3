/** GitHub-issue ingest: packages/crew/src/ingest/githubIssues.ts and core.ts. A labelled issue
    becomes one draft, recognised on later passes by the source URL in its description; a
    failed relabel aborts the rest of its repo's pass. */
module Ingest {
  import opened Prelude
  import opened Text
  import opened TicketStore

  datatype Issue = Issue(number: nat, body: string, labels: seq<string>, url: string)

  /** What one repo offers in one pass; `relabelFails` holds the URLs whose relabel fails. */
  datatype Listing =
    | NoRemote
    | ListFails
    | Issues(issues: seq<Issue>, relabelFails: set<string>)

  datatype RepoListing = RepoListing(repo: string, listing: Listing)

  function JoinLabels(labels: seq<string>): string {
    if labels == [] then ""
    else if labels[0] == "" then JoinLabels(labels[1..])
    else
      var rest := JoinLabels(labels[1..]);
      if rest == "" then labels[0] else labels[0] + ", " + rest
  }

  function Body(issue: Issue): string {
    var labels := JoinLabels(issue.labels);
    issue.body + if labels == "" then "" else "\n\nLabels: " + labels
  }

  function DraftOf(number: nat, issue: Issue, repo: string): Ticket {
    Drafted(number, Marked(Body(issue), SOURCE_MARKER, issue.url), [repo], FromSource(issue.url))
  }

  /** The labels that are not empty, in order. */
  function Kept(labels: seq<string>): seq<string> {
    if labels == [] then [] else (if labels[0] == "" then [] else [labels[0]]) + Kept(labels[1..])
  }

  function AfterCommas(labels: seq<string>): seq<string> {
    seq(|labels|, i requires 0 <= i < |labels| => ", " + labels[i])
  }

  lemma {:induction false} LabelsAreJoined(labels: seq<string>)
    ensures forall name :: name in Kept(labels) <==> name in labels && name != ""
    ensures JoinLabels(labels) == if Kept(labels) == [] then "" else Kept(labels)[0] + Flatten(AfterCommas(Kept(labels)[1..]))
  {
    if labels != [] {
      LabelsAreJoined(labels[1..]);
      var rest := Kept(labels[1..]);
      if labels[0] == "" {
        assert Kept(labels) == rest;
      } else {
        assert Kept(labels)[1..] == rest;
        if rest == [] {
          assert AfterCommas([]) == [] && labels[0] + "" == labels[0];
        } else {
          CommasFirst(rest);
          assert rest[0] != "" by { assert rest[0] in rest; }
          Associate(labels[0], ", ", JoinLabels(labels[1..]));
        }
      }
    }
  }

  lemma CommasFirst(labels: seq<string>)
    requires labels != []
    ensures Flatten(AfterCommas(labels)) == ", " + (labels[0] + Flatten(AfterCommas(labels[1..])))
  {
    assert AfterCommas(labels)[0] == ", " + labels[0] && AfterCommas(labels)[1..] == AfterCommas(labels[1..]);
    Associate(", ", labels[0], Flatten(AfterCommas(labels[1..])));
  }

  /** What an ingested draft says: the issue's body, its non-empty labels if there are any, separated
      by commas, and its URL in the last line. */
  lemma DraftTells(number: nat, issue: Issue, repo: string)
    ensures var kept := Kept(issue.labels);
      DraftOf(number, issue, repo).description ==
        issue.body + (if kept == [] then "" else "\n\nLabels: " + (kept[0] + Flatten(AfterCommas(kept[1..])))) + "\n\n" + ("Source: " + issue.url)
    ensures forall name :: name in Kept(issue.labels) <==> name in issue.labels && name != ""
  {
    LabelsAreJoined(issue.labels);
    var joined := JoinLabels(issue.labels);
    if Kept(issue.labels) == [] {
      assert Body(issue) == issue.body + "";
    } else {
      assert joined != "" by { assert Kept(issue.labels)[0] in Kept(issue.labels); }
    }
    assert DraftOf(number, issue, repo).description == Body(issue) + "\n\n" + (SOURCE_MARKER + issue.url);
  }

  // ----- One repo -----

  datatype RepoPass = RepoPass(tickets: seq<Ticket>, ingested: seq<string>, deduped: nat, aborted: bool)

  function IngestOne(p: RepoPass, repo: string, issue: Issue, relabelFails: set<string>): RepoPass {
    if FindBySource(p.tickets, issue.url).Some? then p.(deduped := p.deduped + 1)
    else
      var created := p.(tickets := p.tickets + [DraftOf(|p.tickets| + 1, issue, repo)]);
      if issue.url in relabelFails then created.(aborted := true)
      else created.(ingested := p.ingested + [issue.url])
  }

  function IngestFrom(p: RepoPass, repo: string, issues: seq<Issue>, relabelFails: set<string>): RepoPass
    decreases issues
  {
    if issues == [] || p.aborted then p
    else IngestFrom(IngestOne(p, repo, issues[0], relabelFails), repo, issues[1..], relabelFails)
  }

  // ----- One pass over all repos -----

  datatype Summary = Summary(tickets: seq<Ticket>, ingested: seq<string>, skipped: nat, deduped: nat,
                             listErrors: nat, relabelErrors: nat)

  function IngestRepo(s: Summary, r: RepoListing): Summary {
    match r.listing
    case NoRemote => s.(skipped := s.skipped + 1)
    case ListFails => s.(listErrors := s.listErrors + 1)
    case Issues(issues, relabelFails) =>
      var p := IngestFrom(RepoPass(s.tickets, s.ingested, s.deduped, false), r.repo, issues, relabelFails);
      s.(tickets := p.tickets, ingested := p.ingested, deduped := p.deduped,
         relabelErrors := s.relabelErrors + if p.aborted then 1 else 0)
  }

  function IngestRepos(s: Summary, repos: seq<RepoListing>): Summary {
    if repos == [] then s
    else IngestRepo(IngestRepos(s, repos[..|repos| - 1]), repos[|repos| - 1])
  }

  function Pass(tickets: seq<Ticket>, repos: seq<RepoListing>): Summary {
    IngestRepos(Summary(tickets, [], 0, 0, 0, 0), repos)
  }

  /** The pass as the source runs it: nested loops, the abort being the exception that leaves
      the inner one. */
  method IngestGithubIssues(store: FakeDispatchClient, repos: seq<RepoListing>)
    returns (ingested: seq<string>, skipped: nat, deduped: nat, listErrors: nat, relabelErrors: nat)
    requires store.Valid()
    modifies store`tickets
    ensures store.Valid()
    ensures Summary(store.tickets, ingested, skipped, deduped, listErrors, relabelErrors) == Pass(old(store.tickets), repos)
  {
    ingested, skipped, deduped, listErrors, relabelErrors := [], 0, 0, 0, 0;
    for i := 0 to |repos|
      invariant store.Valid()
      invariant Summary(store.tickets, ingested, skipped, deduped, listErrors, relabelErrors) == Pass(old(store.tickets), repos[..i])
    {
      assert repos[..i + 1][..i] == repos[..i];
      match repos[i].listing {
        case NoRemote => skipped := skipped + 1;
        case ListFails => listErrors := listErrors + 1;
        case Issues(issues, relabelFails) =>
          var aborted;
          ingested, deduped, aborted := IngestListedIssues(store, repos[i].repo, issues, relabelFails, ingested, deduped);
          if aborted { relabelErrors := relabelErrors + 1; }
      }
    }
    assert repos[..|repos|] == repos;
  }

  method IngestListedIssues(store: FakeDispatchClient, repo: string, issues: seq<Issue>, relabelFails: set<string>,
                            ingested0: seq<string>, deduped0: nat)
    returns (ingested: seq<string>, deduped: nat, aborted: bool)
    requires store.Valid()
    modifies store`tickets
    ensures store.Valid()
    ensures RepoPass(store.tickets, ingested, deduped, aborted) ==
            IngestFrom(RepoPass(old(store.tickets), ingested0, deduped0, false), repo, issues, relabelFails)
  {
    ingested, deduped, aborted := ingested0, deduped0, false;
    ghost var start := RepoPass(store.tickets, ingested, deduped, aborted);
    for i := 0 to |issues|
      invariant store.Valid() && !aborted
      invariant IngestFrom(RepoPass(store.tickets, ingested, deduped, aborted), repo, issues[i..], relabelFails) ==
                IngestFrom(start, repo, issues, relabelFails)
    {
      ghost var before := RepoPass(store.tickets, ingested, deduped, aborted);
      assert issues[i..][0] == issues[i] && issues[i..][1..] == issues[i + 1..];
      var found := IngestIssueAsDraft(store, repo, issues[i]);
      if found {
        deduped := deduped + 1;
      } else if issues[i].url in relabelFails {
        aborted := true;
        break;
      } else {
        ingested := ingested + [issues[i].url];
      }
      assert RepoPass(store.tickets, ingested, deduped, aborted) == IngestOne(before, repo, issues[i], relabelFails);
    }
  }

  /** The shared identity contract of every ingest adapter. */
  method IngestIssueAsDraft(store: FakeDispatchClient, repo: string, issue: Issue) returns (deduped: bool)
    requires store.Valid()
    modifies store`tickets
    ensures store.Valid()
    ensures deduped <==> FindBySource(old(store.tickets), issue.url).Some?
    ensures store.tickets == old(store.tickets) + if deduped then [] else [DraftOf(|old(store.tickets)| + 1, issue, repo)]
  {
    var existing := FindBySource(store.tickets, issue.url);
    deduped := existing.Some?;
    if !deduped {
      var _ := store.CreateDraftTicket(Marked(Body(issue), SOURCE_MARKER, issue.url), [repo], FromSource(issue.url));
    }
  }

  // ----- Conservation -----

  /** Every issue of a repo that is worked through is drafted or found; only a failed relabel leaves
      some out. */
  lemma {:induction false} RepoConserves(p: RepoPass, repo: string, issues: seq<Issue>, relabelFails: set<string>)
    requires !p.aborted
    ensures var q := IngestFrom(p, repo, issues, relabelFails);
      && p.tickets <= q.tickets
      && |q.tickets| - |p.tickets| == |q.ingested| - |p.ingested| + (if q.aborted then 1 else 0)
      && |q.ingested| + q.deduped - |p.ingested| - p.deduped + (if q.aborted then 1 else 0) <= |issues|
      && (!q.aborted ==> |q.ingested| + q.deduped - |p.ingested| - p.deduped == |issues|)
    decreases issues
  {
    if issues != [] {
      var one := IngestOne(p, repo, issues[0], relabelFails);
      assert p.tickets <= one.tickets;
      if !one.aborted { RepoConserves(one, repo, issues[1..], relabelFails); }
    }
  }

  function Unlinked(repos: seq<RepoListing>): set<nat> {
    set i: nat | 0 <= i < |repos| && repos[i].listing.NoRemote?
  }

  function Unlisted(repos: seq<RepoListing>): set<nat> {
    set i: nat | 0 <= i < |repos| && repos[i].listing.ListFails?
  }

  /** The repos whose pass, on the tickets of the repos before, ended in a failed relabel. */
  function Aborting(tickets: seq<Ticket>, repos: seq<RepoListing>): set<nat> {
    set i: nat | 0 <= i < |repos| && Aborts(Pass(tickets, repos[..i]).tickets, repos[i])
  }

  /** What was reported before a repo's pass does not influence it. */
  lemma {:induction false} ReportsDoNotMatter(p: RepoPass, q: RepoPass, repo: string, issues: seq<Issue>, relabelFails: set<string>)
    requires p.tickets == q.tickets && p.aborted == q.aborted
    ensures IngestFrom(p, repo, issues, relabelFails).tickets == IngestFrom(q, repo, issues, relabelFails).tickets
    ensures IngestFrom(p, repo, issues, relabelFails).aborted == IngestFrom(q, repo, issues, relabelFails).aborted
    decreases issues
  {
    if issues != [] && !p.aborted {
      ReportsDoNotMatter(IngestOne(p, repo, issues[0], relabelFails), IngestOne(q, repo, issues[0], relabelFails), repo, issues[1..], relabelFails);
    }
  }

  /** A pass counts each kind of repo: those without a remote, those whose listing failed and those
      whose pass ended in a failed relabel; and every ticket it creates is either reported as
      ingested or lost its relabel. */
  lemma {:induction false} PassConserves(tickets: seq<Ticket>, repos: seq<RepoListing>)
    ensures var s := Pass(tickets, repos);
      && tickets <= s.tickets
      && |s.tickets| == |tickets| + |s.ingested| + s.relabelErrors
      && s.skipped == |Unlinked(repos)| && s.listErrors == |Unlisted(repos)| && s.relabelErrors == |Aborting(tickets, repos)|
  {
    if repos != [] {
      var n := |repos| - 1;
      PassConserves(tickets, repos[..n]);
      RepoCounts(Pass(tickets, repos[..n]), repos[n]);
      OneMoreRepo(tickets, repos, n);
    }
  }

  /** The pass of the repo, on the tickets so far, ends in a failed relabel. */
  predicate Aborts(tickets: seq<Ticket>, r: RepoListing) {
    r.listing.Issues? && IngestFrom(RepoPass(tickets, [], 0, false), r.repo, r.listing.issues, r.listing.relabelFails).aborted
  }

  lemma RepoCounts(s: Summary, r: RepoListing)
    ensures var t := IngestRepo(s, r);
      && s.tickets <= t.tickets
      && |t.tickets| - |s.tickets| == |t.ingested| - |s.ingested| + t.relabelErrors - s.relabelErrors
      && t.skipped == s.skipped + (if r.listing.NoRemote? then 1 else 0)
      && t.listErrors == s.listErrors + (if r.listing.ListFails? then 1 else 0)
      && t.relabelErrors == s.relabelErrors + (if Aborts(s.tickets, r) then 1 else 0)
  {
    if r.listing.Issues? {
      var p := RepoPass(s.tickets, s.ingested, s.deduped, false);
      RepoConserves(p, r.repo, r.listing.issues, r.listing.relabelFails);
      ReportsDoNotMatter(p, RepoPass(s.tickets, [], 0, false), r.repo, r.listing.issues, r.listing.relabelFails);
    }
  }

  lemma OneMoreRepo(tickets: seq<Ticket>, repos: seq<RepoListing>, n: nat)
    requires |repos| == n + 1
    ensures Unlinked(repos) == Unlinked(repos[..n]) + if repos[n].listing.NoRemote? then {n} else {}
    ensures Unlisted(repos) == Unlisted(repos[..n]) + if repos[n].listing.ListFails? then {n} else {}
    ensures Aborting(tickets, repos) == Aborting(tickets, repos[..n]) + if Aborts(Pass(tickets, repos[..n]).tickets, repos[n]) then {n} else {}
  {
    assert forall i :: 0 <= i < n ==> repos[..n][..i] == repos[..i] && repos[..n][i] == repos[i];
  }

  // ----- No URL ever gets two tickets -----

  predicate IsFor(t: Ticket, url: string) {
    t.origin == FromSource(url)
  }

  predicate HasTicket(tickets: seq<Ticket>, url: string) {
    exists i :: 0 <= i < |tickets| && IsFor(tickets[i], url)
  }

  /** A ticket ingested for a URL ends in that URL's source line. */
  predicate Filed(t: Ticket) {
    t.origin.FromSource? ==> EndsMarked(t.description, SOURCE_MARKER, t.origin.url)
  }

  predicate AllFiled(tickets: seq<Ticket>) {
    forall i :: 0 <= i < |tickets| ==> Filed(tickets[i])
  }

  predicate UniqueSources(tickets: seq<Ticket>) {
    forall i, j :: 0 <= i < j < |tickets| && tickets[i].origin.FromSource? ==> tickets[i].origin != tickets[j].origin
  }

  predicate StoreInvariant(tickets: seq<Ticket>) {
    UniqueSources(tickets) && AllFiled(tickets)
  }

  lemma FoundIfTicketed(tickets: seq<Ticket>, url: string)
    requires HasTicket(tickets, url) && AllFiled(tickets)
    ensures FindBySource(tickets, url).Some?
  {
    FindFirstIs(tickets, SOURCE_MARKER + url, false);
    var i :| 0 <= i < |tickets| && IsFor(tickets[i], url);
    assert Filed(tickets[i]);
    MarkedIncludesPrefix(TextBefore(tickets[i].description, SOURCE_MARKER, url), SOURCE_MARKER, url, url);
    assert Matches(tickets[i], SOURCE_MARKER + url, false);
  }

  lemma OneKeepsStore(p: RepoPass, repo: string, issue: Issue, relabelFails: set<string>)
    requires StoreInvariant(p.tickets)
    ensures StoreInvariant(IngestOne(p, repo, issue, relabelFails).tickets)
  {
    if FindBySource(p.tickets, issue.url).None? {
      MarkedEnds(Body(issue), SOURCE_MARKER, issue.url);
      forall i | 0 <= i < |p.tickets| ensures !IsFor(p.tickets[i], issue.url) {
        if IsFor(p.tickets[i], issue.url) { FoundIfTicketed(p.tickets, issue.url); }
      }
    }
  }

  lemma {:induction false} RepoKeepsStore(p: RepoPass, repo: string, issues: seq<Issue>, relabelFails: set<string>)
    requires StoreInvariant(p.tickets)
    ensures StoreInvariant(IngestFrom(p, repo, issues, relabelFails).tickets)
    decreases issues
  {
    if issues != [] && !p.aborted {
      OneKeepsStore(p, repo, issues[0], relabelFails);
      RepoKeepsStore(IngestOne(p, repo, issues[0], relabelFails), repo, issues[1..], relabelFails);
    }
  }

  lemma {:induction false} PassKeepsStore(tickets: seq<Ticket>, repos: seq<RepoListing>)
    requires StoreInvariant(tickets)
    ensures StoreInvariant(Pass(tickets, repos).tickets)
  {
    if repos != [] {
      var n := |repos| - 1;
      PassKeepsStore(tickets, repos[..n]);
      var s := Pass(tickets, repos[..n]);
      if repos[n].listing.Issues? {
        RepoKeepsStore(RepoPass(s.tickets, s.ingested, s.deduped, false), repos[n].repo, repos[n].listing.issues, repos[n].listing.relabelFails);
      }
    }
  }

  /** A pass, or other activity: status and criteria changes, and tickets from elsewhere. */
  datatype Step = RunPass(repos: seq<RepoListing>) | Others(tickets: seq<Ticket>)

  predicate Evolves(before: seq<Ticket>, after: seq<Ticket>) {
    && |before| <= |after|
    && (forall i :: 0 <= i < |before| ==> after[i].description == before[i].description && after[i].origin == before[i].origin)
    && (forall i :: |before| <= i < |after| ==> !after[i].origin.FromSource?)
  }

  predicate ValidRun(tickets: seq<Ticket>, run: seq<Step>)
    decreases run
  {
    run == [] ||
    ((run[0].Others? ==> Evolves(tickets, run[0].tickets)) && ValidRun(Next(tickets, run[0]), run[1..]))
  }

  function Next(tickets: seq<Ticket>, step: Step): seq<Ticket> {
    if step.RunPass? then Pass(tickets, step.repos).tickets else step.tickets
  }

  function After(tickets: seq<Ticket>, run: seq<Step>): seq<Ticket>
    decreases run
  {
    if run == [] then tickets else After(Next(tickets, run[0]), run[1..])
  }

  /** Uniqueness holds outright, whatever the URLs and the issue texts are. */
  lemma {:induction false} NoUrlTwice(tickets: seq<Ticket>, run: seq<Step>)
    requires StoreInvariant(tickets) && ValidRun(tickets, run)
    ensures UniqueSources(After(tickets, run)) && StoreInvariant(After(tickets, run))
    decreases run
  {
    if run != [] {
      if run[0].RunPass? {
        PassKeepsStore(tickets, run[0].repos);
      } else {
        var after := run[0].tickets;
        forall i | 0 <= i < |after| ensures Filed(after[i]) {
          if i < |tickets| { assert Filed(tickets[i]); }
        }
      }
      NoUrlTwice(Next(tickets, run[0]), run[1..]);
    }
  }

  // ----- When does an issue count as ingested? -----

  /** A ticket's text apart from its own source line. */
  function TextOf(t: Ticket): string {
    if t.origin.FromSource? then TextBefore(t.description, SOURCE_MARKER, t.origin.url) else t.description
  }

  /** Some ticket's URL extends `url`, or some ticket quotes its source line. */
  predicate Covers(t: Ticket, url: string) {
    || (t.origin.FromSource? && (url <= t.origin.url || Includes(t.origin.url, SOURCE_MARKER + url)))
    || Includes(TextOf(t), SOURCE_MARKER + url)
  }

  /** The exact rule of the lookup, for any store a run can leave. */
  lemma DedupedIff(tickets: seq<Ticket>, url: string)
    requires AllFiled(tickets) && '\n' !in url
    ensures FindBySource(tickets, url).Some? <==> exists i :: 0 <= i < |tickets| && Covers(tickets[i], url)
  {
    FindFirstIs(tickets, SOURCE_MARKER + url, false);
    BothAreMarkers();
    forall i | 0 <= i < |tickets| ensures Matches(tickets[i], SOURCE_MARKER + url, false) <==> Covers(tickets[i], url) {
      var t := tickets[i];
      assert Filed(t);
      if t.origin.FromSource? { LookupIs(TextOf(t), SOURCE_MARKER, t.origin.url, url); }
    }
    if i :| 0 <= i < |tickets| && Covers(tickets[i], url) {
      assert Matches(tickets[i], SOURCE_MARKER + url, false);
    }
  }

  /** "An issue counts as ingested only by its own ticket" holds for a URL exactly when it has its
      ticket, or no other ticket covers it. */
  lemma OwnTicketRuleIff(tickets: seq<Ticket>, url: string)
    requires AllFiled(tickets) && '\n' !in url
    ensures (FindBySource(tickets, url).Some? <==> HasTicket(tickets, url)) <==>
            HasTicket(tickets, url) || forall i :: 0 <= i < |tickets| ==> !Covers(tickets[i], url)
  {
    DedupedIff(tickets, url);
    if i :| 0 <= i < |tickets| && IsFor(tickets[i], url) { assert Covers(tickets[i], url); }
  }

  // ----- A hidden issue is lost for good -----

  lemma FoundAppends(tickets: seq<Ticket>, t: Ticket, url: string)
    ensures FindBySource(tickets + [t], url).Some? <==>
            FindBySource(tickets, url).Some? || Includes(t.description, SOURCE_MARKER + url)
  {
    var needle := SOURCE_MARKER + url;
    FindFirstIs(tickets, needle, false);
    FindFirstIs(tickets + [t], needle, false);
    if i :| 0 <= i < |tickets| && Matches(tickets[i], needle, false) { assert Matches((tickets + [t])[i], needle, false); }
    if Includes(t.description, needle) { assert Matches((tickets + [t])[|tickets|], needle, false); }
    if i :| 0 <= i < |tickets + [t]| && Matches((tickets + [t])[i], needle, false) {
      if i < |tickets| { assert Matches(tickets[i], needle, false); }
    }
  }

  lemma HasTicketAppends(tickets: seq<Ticket>, t: Ticket, url: string)
    ensures HasTicket(tickets + [t], url) <==> HasTicket(tickets, url) || IsFor(t, url)
  {
    if i :| 0 <= i < |tickets| && IsFor(tickets[i], url) { assert IsFor((tickets + [t])[i], url); }
    if IsFor(t, url) { assert IsFor((tickets + [t])[|tickets|], url); }
  }

  /** The issue counts as ingested although it has no ticket. */
  predicate Lost(tickets: seq<Ticket>, url: string) {
    FindBySource(tickets, url).Some? && !HasTicket(tickets, url)
  }

  lemma {:induction false} RepoLeavesLost(p: RepoPass, repo: string, issues: seq<Issue>, relabelFails: set<string>, url: string)
    requires Lost(p.tickets, url)
    ensures Lost(IngestFrom(p, repo, issues, relabelFails).tickets, url)
    decreases issues
  {
    if issues != [] && !p.aborted {
      var draft := DraftOf(|p.tickets| + 1, issues[0], repo);
      FoundAppends(p.tickets, draft, url);
      HasTicketAppends(p.tickets, draft, url);
      RepoLeavesLost(IngestOne(p, repo, issues[0], relabelFails), repo, issues[1..], relabelFails, url);
    }
  }

  lemma {:induction false} ReposLeaveLost(s: Summary, repos: seq<RepoListing>, url: string)
    requires Lost(s.tickets, url)
    ensures Lost(IngestRepos(s, repos).tickets, url)
  {
    if repos != [] {
      var n := |repos| - 1;
      ReposLeaveLost(s, repos[..n], url);
      var t := IngestRepos(s, repos[..n]);
      if repos[n].listing.Issues? {
        RepoLeavesLost(RepoPass(t.tickets, t.ingested, t.deduped, false), repos[n].repo, repos[n].listing.issues,
                       repos[n].listing.relabelFails, url);
      }
    }
  }

  lemma OthersLeaveLost(before: seq<Ticket>, after: seq<Ticket>, url: string)
    requires Lost(before, url) && Evolves(before, after)
    ensures Lost(after, url)
  {
    var needle := SOURCE_MARKER + url;
    FindFirstIs(before, needle, false);
    FindFirstIs(after, needle, false);
    var i :| 0 <= i < |before| && Matches(before[i], needle, false);
    assert Matches(after[i], needle, false);
    forall k | 0 <= k < |after| ensures !IsFor(after[k], url) {
      if k < |before| { assert !IsFor(before[k], url); }
    }
  }

  /** Over any run: an issue that counts as ingested without a ticket of its own never gets one. */
  lemma {:induction false} LostStaysLost(tickets: seq<Ticket>, run: seq<Step>, url: string)
    requires Lost(tickets, url) && ValidRun(tickets, run)
    ensures Lost(After(tickets, run), url)
    decreases run
  {
    if run != [] {
      if run[0].RunPass? {
        ReposLeaveLost(Summary(tickets, [], 0, 0, 0, 0), run[0].repos, url);
      } else {
        OthersLeaveLost(tickets, run[0].tickets, url);
      }
      LostStaysLost(Next(tickets, run[0]), run[1..], url);
    }
  }

  // ----- Convergence -----

  /** The draft of this issue would make `url` count as ingested. */
  predicate Hides(issue: Issue, url: string) {
    Includes(Marked(Body(issue), SOURCE_MARKER, issue.url), SOURCE_MARKER + url)
  }

  lemma HidesIff(issue: Issue, url: string)
    requires '\n' !in url
    ensures Hides(issue, url) <==>
      url <= issue.url || Includes(Body(issue), SOURCE_MARKER + url) || Includes(issue.url, SOURCE_MARKER + url)
  {
    BothAreMarkers();
    LookupIs(Body(issue), SOURCE_MARKER, issue.url, url);
  }

  lemma HidesItself(issue: Issue)
    ensures Hides(issue, issue.url)
  {
    MarkedIncludesPrefix(Body(issue), SOURCE_MARKER, issue.url, issue.url);
  }

  /** Issue `i` of the list is drafted when the list is worked through from the store `start`: it
      is not found there, and no earlier drafted issue hides it. */
  predicate Drafts(start: seq<Ticket>, issues: seq<Issue>, i: nat)
    requires i < |issues|
  {
    FindBySource(start, issues[i].url).None? && forall j :: 0 <= j < i && Drafts(start, issues, j) ==> !Hides(issues[j], issues[i].url)
  }

  /** `url` is found once the first `k` issues have been worked through from `start`. */
  predicate FoundAfter(start: seq<Ticket>, issues: seq<Issue>, k: nat, url: string)
    requires k <= |issues|
  {
    FindBySource(start, url).Some? || exists j :: 0 <= j < k && Drafts(start, issues, j) && Hides(issues[j], url)
  }

  predicate TicketedAfter(start: seq<Ticket>, issues: seq<Issue>, k: nat, url: string)
    requires k <= |issues|
  {
    HasTicket(start, url) || exists j :: 0 <= j < k && Drafts(start, issues, j) && issues[j].url == url
  }

  /** As far as the URLs of the list go, the store is what working through the first `k` issues
      makes of `start`. */
  predicate WorkedThrough(start: seq<Ticket>, issues: seq<Issue>, k: nat, now: seq<Ticket>) {
    k <= |issues| && forall i :: 0 <= i < |issues| ==>
      && (FindBySource(now, issues[i].url).Some? <==> FoundAfter(start, issues, k, issues[i].url))
      && (HasTicket(now, issues[i].url) <==> TicketedAfter(start, issues, k, issues[i].url))
  }

  /** An issue already worked through is found again. */
  lemma FoundAgain(start: seq<Ticket>, issues: seq<Issue>, i: nat, k: nat)
    requires i < k <= |issues|
    ensures FoundAfter(start, issues, k, issues[i].url)
  {
    if Drafts(start, issues, i) {
      HidesItself(issues[i]);
    } else if FindBySource(start, issues[i].url).None? {
      var j :| 0 <= j < i && Drafts(start, issues, j) && Hides(issues[j], issues[i].url);
    }
  }

  lemma FoundNext(start: seq<Ticket>, issues: seq<Issue>, k: nat, url: string)
    requires k < |issues|
    ensures FoundAfter(start, issues, k + 1, url) <==>
            FoundAfter(start, issues, k, url) || (Drafts(start, issues, k) && Hides(issues[k], url))
    ensures TicketedAfter(start, issues, k + 1, url) <==>
            TicketedAfter(start, issues, k, url) || (Drafts(start, issues, k) && issues[k].url == url)
  {
  }

  lemma DraftsIffNotFound(start: seq<Ticket>, issues: seq<Issue>, k: nat)
    requires k < |issues|
    ensures Drafts(start, issues, k) <==> !FoundAfter(start, issues, k, issues[k].url)
  {
  }

  /** Working issue `k` takes the store one issue further. */
  lemma OneWorks(start: seq<Ticket>, issues: seq<Issue>, k: nat, p: RepoPass, repo: string, relabelFails: set<string>)
    requires WorkedThrough(start, issues, k, p.tickets) && k < |issues|
    ensures WorkedThrough(start, issues, k + 1, IngestOne(p, repo, issues[k], relabelFails).tickets)
  {
    DraftsIffNotFound(start, issues, k);
    var draft := DraftOf(|p.tickets| + 1, issues[k], repo);
    forall i | 0 <= i < |issues|
      ensures FindBySource(IngestOne(p, repo, issues[k], relabelFails).tickets, issues[i].url).Some? <==>
              FoundAfter(start, issues, k + 1, issues[i].url)
      ensures HasTicket(IngestOne(p, repo, issues[k], relabelFails).tickets, issues[i].url) <==>
              TicketedAfter(start, issues, k + 1, issues[i].url)
    {
      FoundNext(start, issues, k, issues[i].url);
      FoundAppends(p.tickets, draft, issues[i].url);
      HasTicketAppends(p.tickets, draft, issues[i].url);
    }
  }

  lemma OneRepeats(start: seq<Ticket>, issues: seq<Issue>, k: nat, i: nat, p: RepoPass, repo: string, relabelFails: set<string>)
    requires WorkedThrough(start, issues, k, p.tickets) && i < k
    ensures IngestOne(p, repo, issues[i], relabelFails) == p.(deduped := p.deduped + 1)
  {
    FoundAgain(start, issues, i, k);
  }

  /** From position `i` of the list: what was worked through before is skipped, and the pass stops
      at the end or one issue after the first new draft whose relabel fails. */
  lemma {:induction false} RepoWorks(start: seq<Ticket>, issues: seq<Issue>, k: nat, i: nat, p: RepoPass, repo: string, relabelFails: set<string>)
    returns (k': nat)
    requires WorkedThrough(start, issues, k, p.tickets) && i <= k && !p.aborted
    ensures WorkedThrough(start, issues, k', IngestFrom(p, repo, issues[i..], relabelFails).tickets)
    ensures k' >= k && (k < |issues| ==> k' > k)
    decreases |issues| - i
  {
    k' := k;
    if i < |issues| {
      var one := IngestOne(p, repo, issues[i], relabelFails);
      assert issues[i..][0] == issues[i] && issues[i..][1..] == issues[i + 1..];
      if i < k {
        OneRepeats(start, issues, k, i, p, repo, relabelFails);
        k' := RepoWorks(start, issues, k, i + 1, one, repo, relabelFails);
      } else {
        OneWorks(start, issues, k, p, repo, relabelFails);
        k' := k + 1;
        if !one.aborted { k' := RepoWorks(start, issues, k + 1, i + 1, one, repo, relabelFails); }
      }
    }
  }

  /** Tickets that neither hide nor are for an issue of the list. */
  predicate Aside(issue: Issue, issues: seq<Issue>) {
    forall i :: 0 <= i < |issues| ==> !Hides(issue, issues[i].url)
  }

  predicate ListingAside(listing: Listing, issues: seq<Issue>) {
    listing.Issues? ==> forall i :: 0 <= i < |listing.issues| ==> Aside(listing.issues[i], issues)
  }

  lemma {:induction false} AsideRepoKeeps(start: seq<Ticket>, issues: seq<Issue>, k: nat, p: RepoPass, repo: string,
                                          others: seq<Issue>, relabelFails: set<string>)
    requires WorkedThrough(start, issues, k, p.tickets) && forall i :: 0 <= i < |others| ==> Aside(others[i], issues)
    ensures WorkedThrough(start, issues, k, IngestFrom(p, repo, others, relabelFails).tickets)
    decreases others
  {
    if others != [] && !p.aborted {
      AsideOneKeeps(start, issues, k, p, repo, others[0], relabelFails);
      assert forall i :: 0 <= i < |others[1..]| ==> others[1..][i] == others[i + 1];
      AsideRepoKeeps(start, issues, k, IngestOne(p, repo, others[0], relabelFails), repo, others[1..], relabelFails);
    }
  }

  lemma AsideOneKeeps(start: seq<Ticket>, issues: seq<Issue>, k: nat, p: RepoPass, repo: string, other: Issue, relabelFails: set<string>)
    requires WorkedThrough(start, issues, k, p.tickets) && Aside(other, issues)
    ensures WorkedThrough(start, issues, k, IngestOne(p, repo, other, relabelFails).tickets)
  {
    var draft := DraftOf(|p.tickets| + 1, other, repo);
    HidesItself(other);
    forall i | 0 <= i < |issues|
      ensures FindBySource(p.tickets + [draft], issues[i].url).Some? <==> FindBySource(p.tickets, issues[i].url).Some?
      ensures HasTicket(p.tickets + [draft], issues[i].url) <==> HasTicket(p.tickets, issues[i].url)
    {
      FoundAppends(p.tickets, draft, issues[i].url);
      HasTicketAppends(p.tickets, draft, issues[i].url);
    }
  }

  /** Repo `r` lists the issues; the other repos list nothing that hides one of them. */
  predicate Lists(repos: seq<RepoListing>, r: nat, issues: seq<Issue>) {
    && r < |repos| && repos[r].listing.Issues? && repos[r].listing.issues == issues
    && forall i :: 0 <= i < |repos| && i != r ==> ListingAside(repos[i].listing, issues)
  }

  lemma OneRepoWorks(start: seq<Ticket>, issues: seq<Issue>, k: nat, s: Summary, r: RepoListing) returns (k': nat)
    requires WorkedThrough(start, issues, k, s.tickets)
    requires (r.listing.Issues? && r.listing.issues == issues) || ListingAside(r.listing, issues)
    ensures WorkedThrough(start, issues, k', IngestRepo(s, r).tickets) && k' >= k
    ensures r.listing.Issues? && r.listing.issues == issues && k < |issues| ==> k' > k
  {
    k' := k;
    if r.listing.Issues? {
      var p := RepoPass(s.tickets, s.ingested, s.deduped, false);
      if r.listing.issues == issues {
        k' := RepoWorks(start, issues, k, 0, p, r.repo, r.listing.relabelFails);
        assert issues[0..] == issues;
      } else {
        AsideRepoKeeps(start, issues, k, p, r.repo, r.listing.issues, r.listing.relabelFails);
      }
    }
  }

  /** One pass works through at least one more issue of the list, whichever relabels fail. */
  lemma {:induction false} PassWorks(start: seq<Ticket>, issues: seq<Issue>, k: nat, s: Summary, repos: seq<RepoListing>, r: nat, n: nat)
    returns (k': nat)
    requires WorkedThrough(start, issues, k, s.tickets) && Lists(repos, r, issues) && n <= |repos|
    ensures WorkedThrough(start, issues, k', IngestRepos(s, repos[..n]).tickets)
    ensures k' >= k && (r < n && k < |issues| ==> k' > k)
  {
    k' := k;
    if n > 0 {
      var before := PassWorks(start, issues, k, s, repos, r, n - 1);
      ReposOneMore(s, repos, n);
      k' := OneRepoWorks(start, issues, before, IngestRepos(s, repos[..n - 1]), repos[n - 1]);
    }
  }

  lemma ReposOneMore(s: Summary, repos: seq<RepoListing>, n: nat)
    requires 0 < n <= |repos|
    ensures IngestRepos(s, repos[..n]) == IngestRepo(IngestRepos(s, repos[..n - 1]), repos[n - 1])
  {
    assert repos[..n][..n - 1] == repos[..n - 1];
  }

  /** Repo `r` keeps listing the issues, and nothing else hides or ingests them. */
  predicate UnchangingStep(tickets: seq<Ticket>, step: Step, r: nat, issues: seq<Issue>) {
    match step
    case RunPass(repos) => Lists(repos, r, issues)
    case Others(after) =>
      Evolves(tickets, after) &&
      forall i, t :: 0 <= i < |issues| && |tickets| <= t < |after| ==> !Includes(after[t].description, SOURCE_MARKER + issues[i].url)
  }

  predicate UnchangingRun(tickets: seq<Ticket>, run: seq<Step>, r: nat, issues: seq<Issue>)
    decreases run
  {
    run == [] || (UnchangingStep(tickets, run[0], r, issues) && UnchangingRun(Next(tickets, run[0]), run[1..], r, issues))
  }

  function PassCount(run: seq<Step>): nat {
    if run == [] then 0 else (if run[0].RunPass? then 1 else 0) + PassCount(run[1..])
  }

  lemma OthersKeepWorked(start: seq<Ticket>, issues: seq<Issue>, k: nat, before: seq<Ticket>, after: seq<Ticket>, r: nat)
    requires WorkedThrough(start, issues, k, before) && UnchangingStep(before, Others(after), r, issues)
    ensures WorkedThrough(start, issues, k, after)
  {
    forall i | 0 <= i < |issues|
      ensures FindBySource(after, issues[i].url).Some? <==> FindBySource(before, issues[i].url).Some?
      ensures HasTicket(after, issues[i].url) <==> HasTicket(before, issues[i].url)
    {
      FoundAside(before, after, issues[i].url);
    }
  }

  lemma FoundAside(before: seq<Ticket>, after: seq<Ticket>, url: string)
    requires Evolves(before, after)
    requires forall t :: |before| <= t < |after| ==> !Includes(after[t].description, SOURCE_MARKER + url)
    ensures FindBySource(after, url).Some? <==> FindBySource(before, url).Some?
    ensures HasTicket(after, url) <==> HasTicket(before, url)
  {
    var needle := SOURCE_MARKER + url;
    FindFirstIs(before, needle, false);
    FindFirstIs(after, needle, false);
    if i :| 0 <= i < |before| && Matches(before[i], needle, false) { assert Matches(after[i], needle, false); }
    if i :| 0 <= i < |after| && Matches(after[i], needle, false) { assert Matches(before[i], needle, false); }
    if i :| 0 <= i < |before| && IsFor(before[i], url) { assert IsFor(after[i], url); }
    if i :| 0 <= i < |after| && IsFor(after[i], url) { assert IsFor(before[i], url); }
  }

  lemma {:induction false} RunWorks(start: seq<Ticket>, tickets: seq<Ticket>, run: seq<Step>, r: nat, issues: seq<Issue>, k: nat)
    returns (k': nat)
    requires WorkedThrough(start, issues, k, tickets) && UnchangingRun(tickets, run, r, issues)
    ensures WorkedThrough(start, issues, k', After(tickets, run))
    ensures k' >= |issues| || k' >= k + PassCount(run)
    decreases run
  {
    k' := k;
    if run != [] {
      match run[0]
      case RunPass(repos) =>
        var s := Summary(tickets, [], 0, 0, 0, 0);
        var next := PassWorks(start, issues, k, s, repos, r, |repos|);
        assert repos[..|repos|] == repos;
        k' := RunWorks(start, Next(tickets, run[0]), run[1..], r, issues, next);
      case Others(after) =>
        OthersKeepWorked(start, issues, k, tickets, after, r);
        k' := RunWorks(start, Next(tickets, run[0]), run[1..], r, issues, k);
    }
  }

  lemma NothingWorkedYet(start: seq<Ticket>, issues: seq<Issue>, k: nat)
    requires k <= |issues| && forall i :: 0 <= i < k ==> FindBySource(start, issues[i].url).Some?
    ensures WorkedThrough(start, issues, k, start)
  {
    forall j | 0 <= j < k ensures !Drafts(start, issues, j) {}
  }

  /** Whether an issue is drafted is settled by the list up to it. */
  lemma SettledByThen(start: seq<Ticket>, issues: seq<Issue>, i: nat, k: nat)
    requires i < k <= |issues|
    ensures TicketedAfter(start, issues, k, issues[i].url) <==> TicketedAfter(start, issues, i + 1, issues[i].url)
  {
    if j :| 0 <= j < k && Drafts(start, issues, j) && issues[j].url == issues[i].url {
      if j > i { FoundAgain(start, issues, i, j); DraftsIffNotFound(start, issues, j); }
    }
  }

  /** Convergence, exactly. The store, the URLs and the texts may be anything; the first k issues of
      the list are found in it. After n passes, whichever relabels fail and whatever else happens
      meanwhile, each of the first k + n issues has a ticket if and only if it had one before or
      the list drafts it; and no URL has two. */
  lemma IngestConverges(tickets: seq<Ticket>, run: seq<Step>, r: nat, issues: seq<Issue>, k: nat, i: nat)
    requires StoreInvariant(tickets) && UnchangingRun(tickets, run, r, issues)
    requires k <= |issues| && forall j :: 0 <= j < k ==> FindBySource(tickets, issues[j].url).Some?
    requires i < |issues| && i < k + PassCount(run)
    ensures HasTicket(After(tickets, run), issues[i].url) <==> TicketedAfter(tickets, issues, i + 1, issues[i].url)
    ensures UniqueSources(After(tickets, run))
  {
    NothingWorkedYet(tickets, issues, k);
    var k' := RunWorks(tickets, tickets, run, r, issues, k);
    SettledByThen(tickets, issues, i, k');
    UnchangingIsValid(tickets, run, r, issues);
    NoUrlTwice(tickets, run);
  }

  lemma {:induction false} UnchangingIsValid(tickets: seq<Ticket>, run: seq<Step>, r: nat, issues: seq<Issue>)
    requires UnchangingRun(tickets, run, r, issues)
    ensures ValidRun(tickets, run)
    decreases run
  {
    if run != [] { UnchangingIsValid(Next(tickets, run[0]), run[1..], r, issues); }
  }

  /** No issue of the list quotes the source line of another. */
  predicate QuotesNone(issues: seq<Issue>) {
    forall i, j :: 0 <= i < |issues| && 0 <= j < |issues| && issues[i].url != issues[j].url ==>
      !Includes(Body(issues[i]), SOURCE_MARKER + issues[j].url) && !Includes(issues[i].url, SOURCE_MARKER + issues[j].url)
  }

  predicate PlainUrls(issues: seq<Issue>) {
    && (forall i :: 0 <= i < |issues| ==> '\n' !in issues[i].url)
    && (forall i, j :: 0 <= i < j < |issues| ==> issues[i].url != issues[j].url)
  }

  /** An earlier issue of the list has a URL that properly extends that of issue `i`. */
  predicate ExtendedBefore(issues: seq<Issue>, i: nat)
    requires i < |issues|
  {
    exists j :: 0 <= j < i && issues[i].url <= issues[j].url
  }

  /** For distinct URLs none of which is quoted by another issue, the list drafts an issue exactly
      when no EARLIER listed URL extends its own. */
  lemma {:induction false} DraftsIff(start: seq<Ticket>, issues: seq<Issue>, i: nat)
    requires PlainUrls(issues) && QuotesNone(issues) && i < |issues|
    requires forall j :: 0 <= j < |issues| ==> FindBySource(start, issues[j].url).None?
    ensures Drafts(start, issues, i) <==> !ExtendedBefore(issues, i)
  {
    forall j | 0 <= j < i ensures Hides(issues[j], issues[i].url) <==> issues[i].url <= issues[j].url {
      HidesIff(issues[j], issues[i].url);
    }
    if ExtendedBefore(issues, i) {
      var j := DraftedExtension(start, issues, i);
      assert Hides(issues[j], issues[i].url);
    }
  }

  /** The first of the earlier issues whose URL extends that of `i` is drafted. */
  lemma {:induction false} DraftedExtension(start: seq<Ticket>, issues: seq<Issue>, i: nat) returns (j: nat)
    requires PlainUrls(issues) && QuotesNone(issues) && i < |issues| && ExtendedBefore(issues, i)
    requires forall j :: 0 <= j < |issues| ==> FindBySource(start, issues[j].url).None?
    ensures j < i && Drafts(start, issues, j) && issues[i].url <= issues[j].url
  {
    j :| 0 <= j < i && issues[i].url <= issues[j].url;
    if ExtendedBefore(issues, j) {
      var m := DraftedExtension(start, issues, j);
      j := m;
    } else {
      forall m | 0 <= m < j && Drafts(start, issues, m) ensures !Hides(issues[m], issues[j].url) {
        HidesIff(issues[m], issues[j].url);
      }
    }
  }

  /** The condition a caller can read off the list: from a store that holds none of its URLs, issue
      `i` ends with its own ticket if and only if no earlier listed URL extends its own. */
  lemma PlainListConverges(tickets: seq<Ticket>, run: seq<Step>, r: nat, issues: seq<Issue>, i: nat)
    requires StoreInvariant(tickets) && UnchangingRun(tickets, run, r, issues)
    requires forall j :: 0 <= j < |issues| ==> FindBySource(tickets, issues[j].url).None?
    requires PlainUrls(issues) && QuotesNone(issues) && i < |issues| && i < PassCount(run)
    ensures HasTicket(After(tickets, run), issues[i].url) <==> !ExtendedBefore(issues, i)
  {
    IngestConverges(tickets, run, r, issues, 0, i);
    DraftsIff(tickets, issues, i);
    if HasTicket(tickets, issues[i].url) { FoundIfTicketed(tickets, issues[i].url); }
  }

  // ----- Two ways to lose an issue -----

  /** A URL that extends another's: once issue 12 has a ticket, issue 1 counts as ingested, and no
      run ever gives it one. */
  lemma ShorterUrlIsLost(base: string, body: string, run: seq<Step>)
    requires ValidRun([DraftOf(1, Issue(12, body, [], base + "/issues/12"), "repo")], run)
    ensures Lost(After([DraftOf(1, Issue(12, body, [], base + "/issues/12"), "repo")], run), base + "/issues/1")
  {
    var one, twelve := base + "/issues/1", base + "/issues/12";
    var issue := Issue(12, body, [], twelve);
    var t := DraftOf(1, issue, "repo");
    assert twelve == one + "2";
    assert one <= twelve && |one| < |twelve|;
    MarkedIncludesPrefix(Body(issue), SOURCE_MARKER, twelve, one);
    LostByOne(t, one);
    LostStaysLost([t], run, one);
  }

  /** A body that quotes another issue's source line: that issue counts as ingested as soon as this
      one is, and no run ever gives it a ticket. */
  lemma QuotedSourceIsLost(url: string, other: string, run: seq<Step>)
    requires other != url
    requires ValidRun([DraftOf(1, Issue(7, "Same as\nSource: " + other, [], url), "repo")], run)
    ensures Lost(After([DraftOf(1, Issue(7, "Same as\nSource: " + other, [], url), "repo")], run), other)
  {
    var issue := Issue(7, "Same as\nSource: " + other, [], url);
    var t := DraftOf(1, issue, "repo");
    var needle := SOURCE_MARKER + other;
    assert Body(issue)[8..8 + |needle|] == needle;
    assert OccursAt(Body(issue), needle, 8);
    MarkedIncludesParts(Body(issue), SOURCE_MARKER, url, needle);
    LostByOne(t, other);
    LostStaysLost([t], run, other);
  }

  lemma LostByOne(t: Ticket, url: string)
    requires Includes(t.description, SOURCE_MARKER + url) && !IsFor(t, url)
    ensures Lost([t], url)
  {
    FindFirstIs([t], SOURCE_MARKER + url, false);
    assert Matches([t][0], SOURCE_MARKER + url, false);
  }
}
