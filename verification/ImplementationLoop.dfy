/** The implementation loop of packages/crew/src/loops/implementationLoop.ts against the claim
    store: which store effects can follow which gates, for every answer of the runtime, the
    hooks, CI and the post-condition checker, for a call that throws at any point of the tick,
    and over whole runs of ticks. */
module ImplementationLoop {
  import opened Prelude
  import opened TicketStore

  datatype WorkRepo = WorkRepo(id: string, name: string, path: Option<string>)

  datatype Packet = Packet(primaryPath: Option<string>, suggestedBranch: Option<string>, number: nat,
                           writeRepos: seq<WorkRepo>, readOnlyRepos: seq<WorkRepo>, testRepos: seq<WorkRepo>)

  datatype RunStatus = SubmittedForReview | RunBlocked | Completed

  datatype AgentEvidence = AgentEvidence(kind: string, summary: string)

  datatype RunResult = RunResult(status: RunStatus, evidence: seq<AgentEvidence>, changedPaths: seq<string>)

  datatype Access = Write | Read | Outside

  datatype RootSet = RootSet(writeRoots: seq<string>, readRoots: seq<string>)

  datatype Ci = Green | Red | Timeout | Skipped

  /** Everything the outside answers in one tick. `resolve` turns a path into the segments of an
      absolute one; `prUrl` is absent without a PR creator, `ci` without a CI gate; the branch
      policy is not modelled. Creating the branch fails in target `gitFailsAt`; after
      `throwsAfter` effects the next call that is made, of the store or of anything between two
      store calls, throws. */
  datatype Env = Env(vetoed: bool, packet: Packet, branchAllowed: string -> bool, gitFailsAt: nat, runtimeThrows: bool, result: RunResult,
                     resolve: string -> seq<string>, prUrl: Option<Option<string>>, ci: Option<Ci>, postConditionsPass: bool,
                     throwsAfter: nat)

  datatype Config = Config(branchPrefix: string, submitForReview: bool, postConditions: bool)

  datatype Outcome =
    | NoTicket
    | ClaimVetoed
    | Threw
    | Finished(status: FinalStatus, ticket: nat, branch: string)

  datatype FinalStatus = InReviewReported | BlockedReported | CompletedReported | CiRejected

  // ----- Roots, branch, violations -----

  /** The known, non-empty paths of some repos. */
  function Paths(repos: seq<WorkRepo>): seq<string> {
    if repos == [] then []
    else (if repos[0].path.Some? && repos[0].path.value != "" then [repos[0].path.value] else []) + Paths(repos[1..])
  }

  /** Write roots come from the write repos; read-only and test repos are read roots. */
  function RootSetOf(p: Packet): RootSet {
    RootSet(Paths(p.writeRepos), Paths(p.readOnlyRepos) + Paths(p.testRepos))
  }

  /** `isInsideRoot` on resolved paths: the relative path is empty, or does not start with "..". It
      climbs with ".." unless the root is a prefix. */
  predicate IsInside(root: seq<string>, target: seq<string>) {
    root <= target && (root == target || !(".." <= target[|root|]))
  }

  predicate IsInsideAny(env: Env, roots: seq<string>, path: string) {
    exists root :: root in roots && IsInside(env.resolve(root), env.resolve(path))
  }

  /** `classifyRootAccess` of packages/crew/src/safety/rootAccess.ts. */
  function Classify(env: Env, path: string, roots: RootSet): Access {
    if IsInsideAny(env, roots.writeRoots, path) then Write
    else if IsInsideAny(env, roots.readRoots, path) then Read
    else Outside
  }

  predicate StayedInWriteSet(env: Env) {
    forall i :: 0 <= i < |env.result.changedPaths| ==>
      Classify(env, env.result.changedPaths[i], RootSetOf(env.packet)) == Write
  }

  // ----- What the write set is, repo by repo -----

  lemma {:induction false} PathsAre(repos: seq<WorkRepo>, path: string)
    ensures path in Paths(repos) <==> path != "" && exists i :: 0 <= i < |repos| && repos[i].path == Some(path)
  {
    if repos != [] {
      PathsAre(repos[1..], path);
      assert forall i :: 0 < i < |repos| ==> repos[i] == repos[1..][i - 1];
    }
  }

  /** The path resolves at or below the known path of a repo. */
  predicate LiesIn(env: Env, repo: WorkRepo, path: string) {
    repo.path.Some? && repo.path.value != "" && env.resolve(repo.path.value) <= env.resolve(path)
  }

  /** Below the repo, the path goes through a file or directory whose name starts with two dots. */
  predicate Dotted(env: Env, repo: WorkRepo, path: string)
    requires LiesIn(env, repo, path)
  {
    var root := env.resolve(repo.path.value);
    root < env.resolve(path) && ".." <= env.resolve(path)[|root|]
  }

  predicate BelongsTo(env: Env, repos: seq<WorkRepo>, path: string) {
    exists i :: 0 <= i < |repos| && LiesIn(env, repos[i], path) && !Dotted(env, repos[i], path)
  }

  lemma InsideAnyIff(env: Env, repos: seq<WorkRepo>, path: string)
    ensures IsInsideAny(env, Paths(repos), path) <==> BelongsTo(env, repos, path)
  {
    if IsInsideAny(env, Paths(repos), path) {
      var root :| root in Paths(repos) && IsInside(env.resolve(root), env.resolve(path));
      PathsAre(repos, root);
      var i :| 0 <= i < |repos| && repos[i].path == Some(root);
      assert LiesIn(env, repos[i], path) && !Dotted(env, repos[i], path);
    }
    if i :| 0 <= i < |repos| && LiesIn(env, repos[i], path) && !Dotted(env, repos[i], path) {
      PathsAre(repos, repos[i].path.value);
      assert IsInside(env.resolve(repos[i].path.value), env.resolve(path));
    }
  }

  /** A path is writable exactly when it belongs to a write repo, and else readable exactly when it
      belongs to a read-only or test repo. */
  lemma AccessIs(env: Env, path: string)
    ensures var access := Classify(env, path, RootSetOf(env.packet));
      && (access == Write <==> BelongsTo(env, env.packet.writeRepos, path))
      && (access == Read <==>
            !BelongsTo(env, env.packet.writeRepos, path) &&
            (BelongsTo(env, env.packet.readOnlyRepos, path) || BelongsTo(env, env.packet.testRepos, path)))
  {
    InsideAnyIff(env, env.packet.writeRepos, path);
    InsideAnyIff(env, env.packet.readOnlyRepos, path);
    InsideAnyIff(env, env.packet.testRepos, path);
    var a, b := Paths(env.packet.readOnlyRepos), Paths(env.packet.testRepos);
    assert forall root :: root in a + b <==> root in a || root in b;
  }

  predicate ChangedOnlyWriteRepos(env: Env) {
    forall i :: 0 <= i < |env.result.changedPaths| ==> BelongsTo(env, env.packet.writeRepos, env.result.changedPaths[i])
  }

  lemma StayedIff(env: Env)
    ensures StayedInWriteSet(env) <==> ChangedOnlyWriteRepos(env)
  {
    forall i | 0 <= i < |env.result.changedPaths|
      ensures Classify(env, env.result.changedPaths[i], RootSetOf(env.packet)) == Write <==>
              BelongsTo(env, env.packet.writeRepos, env.result.changedPaths[i])
    {
      AccessIs(env, env.result.changedPaths[i]);
    }
  }

  /** "At or strictly under the root" is what the classifier is documented to say. A name that starts
      with two dots is the one exception: a path goes for outside although it lies under the root
      exactly when the first name below the root is such a one. */
  lemma InsideIff(root: seq<string>, target: seq<string>)
    ensures (IsInside(root, target) <==> root <= target) <==> !(exists name, rest :: target == root + [".." + name] + rest)
  {
    if root < target && ".." <= target[|root|] {
      var name, rest := target[|root|][2..], target[|root| + 1..];
      assert target[|root|] == ".." + name;
      assert target == root + [".." + name] + rest;
    }
    if name, rest :| target == root + [".." + name] + rest {
      assert target[|root|] == ".." + name && root <= target;
    }
  }

  /** A file in a directory named "..cache" of the write repo is judged outside it. */
  lemma DottedNameIsOutside()
    ensures !IsInside(["work", "api"], ["work", "api", "..cache", "x.ts"]) && ["work", "api"] <= ["work", "api", "..cache", "x.ts"]
  {
    assert ["work", "api", "..cache", "x.ts"][2] == "..cache";
  }

  function BranchName(cfg: Config, p: Packet): string {
    if p.suggestedBranch.Some? then p.suggestedBranch.value else cfg.branchPrefix + "ticket-" + Decimal(p.number)
  }

  function Decimal(n: nat): string {
    if n < 10 then ["0123456789"[n]] else Decimal(n / 10) + ["0123456789"[n % 10]]
  }

  /** The number a decimal text stands for. */
  function NumberOf(digits: string): int {
    if digits == "" then 0 else 10 * NumberOf(digits[..|digits| - 1]) + (digits[|digits| - 1] as int - '0' as int)
  }

  lemma {:induction false} DecimalReads(n: nat)
    ensures NumberOf(Decimal(n)) == n
  {
    DigitReads(n % 10);
    if n < 10 {
      assert Decimal(n)[..0] == "";
    } else {
      DecimalReads(n / 10);
      assert Decimal(n)[..|Decimal(n)| - 1] == Decimal(n / 10);
    }
  }

  lemma DigitReads(d: nat)
    requires d < 10
    ensures "0123456789"[d] as int - '0' as int == d
  {
  }

  /** A suggested branch is taken as it is; otherwise the branch is the prefix and the ticket's
      number, so that two tickets never share it. */
  lemma BranchNames(cfg: Config, p: Packet, q: Packet)
    ensures p.suggestedBranch.Some? ==> BranchName(cfg, p) == p.suggestedBranch.value
    ensures p.suggestedBranch.None? ==>
      exists digits :: BranchName(cfg, p) == cfg.branchPrefix + "ticket-" + digits && NumberOf(digits) == p.number
    ensures p.suggestedBranch.None? && q.suggestedBranch.None? ==> (BranchName(cfg, p) == BranchName(cfg, q) <==> p.number == q.number)
  {
    DecimalReads(p.number);
    DecimalReads(q.number);
    var stem := cfg.branchPrefix + "ticket-";
    assert (stem + Decimal(p.number))[|stem|..] == Decimal(p.number) && (stem + Decimal(q.number))[|stem|..] == Decimal(q.number);
  }

  method FindOutsideWriteSet(env: Env) returns (violations: seq<(string, Access)>)
    ensures violations == [] <==> StayedInWriteSet(env)
    ensures forall path :: path in env.result.changedPaths && !BelongsTo(env, env.packet.writeRepos, path) <==>
              exists v :: v in violations && v.0 == path
    ensures forall v :: v in violations ==>
              v.1 == if BelongsTo(env, env.packet.readOnlyRepos, v.0) || BelongsTo(env, env.packet.testRepos, v.0) then Read else Outside
  {
    violations := [];
    var roots := RootSetOf(env.packet);
    for i := 0 to |env.result.changedPaths|
      invariant violations == [] <==>
        forall k :: 0 <= k < i ==> Classify(env, env.result.changedPaths[k], roots) == Write
      invariant forall path :: path in env.result.changedPaths[..i] && Classify(env, path, roots) != Write <==>
                  exists v :: v in violations && v.0 == path
      invariant forall v :: v in violations ==> v.1 == Classify(env, v.0, roots) && v.1 != Write
    {
      var access := Classify(env, env.result.changedPaths[i], roots);
      ghost var before := violations;
      if access != Write {
        violations := violations + [(env.result.changedPaths[i], access)];
      }
      OneMorePath(env, roots, i, before, violations);
    }
    assert env.result.changedPaths[..|env.result.changedPaths|] == env.result.changedPaths;
    forall path
      ensures Classify(env, path, roots) != Write <==> !BelongsTo(env, env.packet.writeRepos, path)
      ensures Classify(env, path, roots) == Read ==> BelongsTo(env, env.packet.readOnlyRepos, path) || BelongsTo(env, env.packet.testRepos, path)
      ensures Classify(env, path, roots) == Outside ==> !BelongsTo(env, env.packet.readOnlyRepos, path) && !BelongsTo(env, env.packet.testRepos, path)
    {
      AccessIs(env, path);
    }
  }

  lemma OneMorePath(env: Env, roots: RootSet, i: nat, before: seq<(string, Access)>, after: seq<(string, Access)>)
    requires i < |env.result.changedPaths|
    requires forall path :: path in env.result.changedPaths[..i] && Classify(env, path, roots) != Write <==>
               exists v :: v in before && v.0 == path
    requires var path := env.result.changedPaths[i]; var access := Classify(env, path, roots);
      after == if access != Write then before + [(path, access)] else before
    ensures forall path :: path in env.result.changedPaths[..i + 1] && Classify(env, path, roots) != Write <==>
              exists v :: v in after && v.0 == path
  {
    var last := env.result.changedPaths[i];
    assert env.result.changedPaths[..i + 1] == env.result.changedPaths[..i] + [last];
    if Classify(env, last, roots) != Write { assert (last, Classify(env, last, roots)) in after; }
    forall path ensures path in env.result.changedPaths[..i + 1] && Classify(env, path, roots) != Write <==>
              exists v :: v in after && v.0 == path
    {
      if v :| v in before && v.0 == path { assert v in after; }
      if v :| v in after && v.0 == path { assert v in before || v.0 == last; }
    }
  }

  // ----- The effects of one tick -----

  function RepoDeliveries(t: nat, branch: string, repos: seq<WorkRepo>): seq<Effect> {
    seq(|repos|, i requires 0 <= i < |repos| => RepoDelivery(t, repos[i].id, branch))
  }

  function EvidenceEffects(t: nat, token: nat, evidence: seq<AgentEvidence>): seq<Effect> {
    seq(|evidence|, i requires 0 <= i < |evidence| => RecordedEvidence(t, token, evidence[i].kind, evidence[i].summary))
  }

  function PrEffect(t: nat, branch: string, prUrl: Option<Option<string>>): seq<Effect> {
    if prUrl.Some? && prUrl.value.Some? && prUrl.value.value != "" then [DeliveryArtifact(t, branch, Some(prUrl.value.value))] else []
  }

  /** The clean delivery, up to and including the PR. */
  function Delivery(t: nat, token: nat, branch: string, env: Env): seq<Effect> {
    [DeliveryArtifact(t, branch, None)] + RepoDeliveries(t, branch, env.packet.writeRepos) +
    EvidenceEffects(t, token, env.result.evidence) + PrEffect(t, branch, env.prUrl)
  }

  /** The evidence CI leaves: a failure, or a poll that timed out. */
  function CiEffects(t: nat, token: nat, env: Env): seq<Effect> {
    if env.ci == Some(Red) then [RecordedEvidence(t, token, "test_output", "CI FAIL")]
    else if env.ci == Some(Timeout) then [RecordedEvidence(t, token, "manual_note", "CI pending")]
    else []
  }

  /** CI red, or a failed post-condition of a submission that was due. */
  predicate HeldBack(cfg: Config, env: Env) {
    env.ci == Some(Red) || (cfg.submitForReview && cfg.postConditions && !env.postConditionsPass)
  }

  function Verdict(t: nat, token: nat, cfg: Config, env: Env): seq<Effect> {
    if HeldBack(cfg, env) then [MarkedBlocked(t, token)]
    else if cfg.submitForReview then [Submitted(t, token)]
    else []
  }

  /** What the agent's run leads to. */
  function AfterRun(t: nat, token: nat, branch: string, cfg: Config, env: Env): seq<Effect> {
    if env.result.status == RunBlocked || !StayedInWriteSet(env) then [MarkedBlocked(t, token)]
    else Delivery(t, token, branch, env) + CiEffects(t, token, env) + Verdict(t, token, cfg, env)
  }

  /** The repos a delivery branch is created in: the write repos, or the primary repo when the
      packet names none. */
  function BranchTargets(p: Packet): seq<string> {
    if p.writeRepos != [] then Paths(p.writeRepos)
    else if p.primaryPath.Some? && p.primaryPath.value != "" then [p.primaryPath.value] else []
  }

  /** The branch policy refused, git failed, or the agent's run threw. */
  predicate Aborts(cfg: Config, env: Env) {
    !env.branchAllowed(BranchName(cfg, env.packet)) || env.gitFailsAt < |BranchTargets(env.packet)| || env.runtimeThrows
  }

  /** The agent's work may be delivered. */
  predicate MayDeliver(cfg: Config, env: Env) {
    !Aborts(cfg, env) && env.result.status != RunBlocked && StayedInWriteSet(env)
  }

  function AfterClaim(t: nat, token: nat, cfg: Config, env: Env): seq<Effect> {
    [Heartbeat(token)] + if Aborts(cfg, env) then [] else AfterRun(t, token, BranchName(cfg, env.packet), cfg, env)
  }

  /** The effects of a tick in which nothing else throws. */
  function Trace(t: nat, token: nat, cfg: Config, env: Env): seq<Effect> {
    [Claim(t, token)] + AfterClaim(t, token, cfg, env)
  }

  function Upto<T>(xs: seq<T>, n: int): seq<T> {
    if n <= 0 then [] else if |xs| <= n then xs else xs[..n]
  }

  function OutcomeOf(t: nat, cfg: Config, env: Env): Outcome {
    var branch := BranchName(cfg, env.packet);
    if Aborts(cfg, env) then Threw
    else if env.result.status == RunBlocked || !StayedInWriteSet(env) then Finished(BlockedReported, t, branch)
    else if env.ci == Some(Red) then Finished(CiRejected, t, branch)
    else if HeldBack(cfg, env) then Finished(BlockedReported, t, branch)
    else Finished(Reported(env.result), t, branch)
  }

  /** The agent's own word for how it ended. */
  function Reported(result: RunResult): FinalStatus {
    match result.status
    case SubmittedForReview => InReviewReported
    case RunBlocked => BlockedReported
    case Completed => CompletedReported
  }

  // ----- Stretches of a tick -----

  /** From `before` to `now` the effects `due` were performed, as far as the log may grow to `stop`
      entries; `threw` when it may not grow enough. */
  predicate Ran(before: StoreState, now: StoreState, due: seq<Effect>, stop: nat, threw: bool) {
    && |before.effects| <= stop
    && now == PerformAll(before, Upto(due, stop - |before.effects|))
    && (threw <==> stop < |before.effects| + |due|)
  }

  lemma RanLogs(before: StoreState, now: StoreState, due: seq<Effect>, stop: nat, threw: bool)
    requires Ran(before, now, due, stop, threw)
    ensures |now.effects| <= stop && (threw ==> |now.effects| == stop) && (!threw ==> now == PerformAll(before, due))
    ensures !threw ==> |now.effects| == |before.effects| + |due|
  {
    PerformAllLogs(before, Upto(due, stop - |before.effects|));
  }

  /** A stretch, and then the next one unless it threw. */
  lemma RanThen(a: StoreState, b: StoreState, c: StoreState, first: seq<Effect>, second: seq<Effect>, stop: nat, threw: bool, threw': bool)
    requires Ran(a, b, first, stop, threw)
    requires if threw then c == b && threw' else Ran(b, c, second, stop, threw')
    ensures Ran(a, c, first + second, stop, threw')
  {
    if threw { RanOnlyFirst(a, b, first, second, stop); } else { RanBoth(a, b, c, first, second, stop, threw'); }
  }

  lemma RanOnlyFirst(a: StoreState, b: StoreState, first: seq<Effect>, second: seq<Effect>, stop: nat)
    requires Ran(a, b, first, stop, true)
    ensures Ran(a, b, first + second, stop, true)
  {
    UptoConcat(first, second, stop - |a.effects|);
  }

  lemma RanBoth(a: StoreState, b: StoreState, c: StoreState, first: seq<Effect>, second: seq<Effect>, stop: nat, threw: bool)
    requires Ran(a, b, first, stop, false) && Ran(b, c, second, stop, threw)
    ensures Ran(a, c, first + second, stop, threw)
  {
    var room := stop - |a.effects|;
    RanLogs(a, b, first, stop, false);
    UptoConcat(first, second, room);
    PerformAllAppends(a, first, Upto(second, room - |first|));
  }

  lemma UptoConcat(first: seq<Effect>, second: seq<Effect>, room: nat)
    ensures room < |first| ==> Upto(first + second, room) == Upto(first, room)
    ensures room >= |first| ==> Upto(first, room) == first && Upto(first + second, room) == first + Upto(second, room - |first|)
  {
  }

  lemma RanNothing(s: StoreState, stop: nat)
    requires |s.effects| <= stop
    ensures Ran(s, s, [], stop, false)
  {
  }

  lemma RanOne(before: StoreState, now: StoreState, e: Effect, stop: nat, threw: bool)
    requires |before.effects| <= stop && (threw <==> |before.effects| == stop)
    requires now == if threw then before else Perform(before, e)
    ensures Ran(before, now, [e], stop, threw)
  {
    PerformOne(before, e);
  }

  // ----- The tick, as the source runs it; each store call may throw -----

  method FindTargets(p: Packet) returns (targets: seq<string>)
    ensures targets == BranchTargets(p)
  {
    targets := [];
    if p.writeRepos != [] {
      for i := 0 to |p.writeRepos|
        invariant Paths(p.writeRepos) == targets + Paths(p.writeRepos[i..])
      {
        var path := p.writeRepos[i].path;
        assert p.writeRepos[i..][1..] == p.writeRepos[i + 1..];
        if path.Some? && path.value != "" {
          targets := targets + [path.value];
        }
      }
    } else if p.primaryPath.Some? && p.primaryPath.value != "" {
      targets := [p.primaryPath.value];
    }
  }

  /** Target by target, until git fails. */
  method CreateBranches(p: Packet, failsAt: nat) returns (branches: seq<string>, threw: bool)
    ensures branches == Upto(BranchTargets(p), failsAt)
    ensures threw <==> failsAt < |BranchTargets(p)|
  {
    var targets := FindTargets(p);
    branches := [];
    while |branches| < |targets| && |branches| < failsAt
      invariant |branches| <= |targets| && |branches| <= failsAt && branches == targets[..|branches|]
      decreases |targets| - |branches|
    {
      branches := branches + [targets[|branches|]];
    }
    threw := |branches| < |targets|;
  }

  method TryArtifact(store: FakeDispatchClient, t: nat, branch: string, prUrl: Option<string>, stop: nat) returns (threw: bool)
    requires store.Valid() && store.Has(t) && |store.effects| <= stop
    modifies store`tickets, store`effects
    ensures store.Valid() && store.Has(t) && Ran(old(store.State()), store.State(), [DeliveryArtifact(t, branch, prUrl)], stop, threw)
  {
    threw := |store.effects| == stop;
    if !threw { store.RecordDeliveryArtifact(t, branch, prUrl); }
    RanOne(old(store.State()), store.State(), DeliveryArtifact(t, branch, prUrl), stop, threw);
  }

  method TryRepo(store: FakeDispatchClient, t: nat, repoId: string, branch: string, stop: nat) returns (threw: bool)
    requires store.Valid() && store.Has(t) && |store.effects| <= stop
    modifies store`effects
    ensures store.Valid() && Ran(old(store.State()), store.State(), [RepoDelivery(t, repoId, branch)], stop, threw)
  {
    threw := |store.effects| == stop;
    if !threw { store.RecordRepoDelivery(t, repoId, branch); }
    RanOne(old(store.State()), store.State(), RepoDelivery(t, repoId, branch), stop, threw);
  }

  method TryEvidence(store: FakeDispatchClient, t: nat, token: nat, kind: string, summary: string, stop: nat) returns (threw: bool)
    requires store.Valid() && store.HoldsClaim(token, t) && |store.effects| <= stop
    modifies store`evidence, store`effects
    ensures store.Valid() && Ran(old(store.State()), store.State(), [RecordedEvidence(t, token, kind, summary)], stop, threw)
  {
    threw := |store.effects| == stop;
    if !threw { var ok := store.RecordEvidence(token, t, kind, summary); }
    RanOne(old(store.State()), store.State(), RecordedEvidence(t, token, kind, summary), stop, threw);
  }

  method TryBlock(store: FakeDispatchClient, t: nat, token: nat, stop: nat) returns (threw: bool)
    requires store.Valid() && store.Has(t) && store.HoldsClaim(token, t) && |store.effects| <= stop
    modifies store`tickets, store`effects
    ensures store.Valid() && store.Has(t) && Ran(old(store.State()), store.State(), [MarkedBlocked(t, token)], stop, threw)
  {
    threw := |store.effects| == stop;
    if !threw { var ok := store.MarkBlocked(token, t); }
    RanOne(old(store.State()), store.State(), MarkedBlocked(t, token), stop, threw);
  }

  method TrySubmit(store: FakeDispatchClient, t: nat, token: nat, stop: nat) returns (threw: bool)
    requires store.Valid() && store.Has(t) && store.HoldsClaim(token, t) && |store.effects| <= stop
    modifies store`tickets, store`effects
    ensures store.Valid() && store.Has(t) && Ran(old(store.State()), store.State(), [Submitted(t, token)], stop, threw)
  {
    threw := |store.effects| == stop;
    if !threw { var ok := store.SubmitForReview(token, t); }
    RanOne(old(store.State()), store.State(), Submitted(t, token), stop, threw);
  }

  method RecordAllEvidence(store: FakeDispatchClient, t: nat, token: nat, evidence: seq<AgentEvidence>, stop: nat) returns (threw: bool)
    requires store.Valid() && store.HoldsClaim(token, t) && |store.effects| <= stop
    modifies store`evidence, store`effects
    ensures store.Valid() && Ran(old(store.State()), store.State(), EvidenceEffects(t, token, evidence), stop, threw)
  {
    threw := false;
    ghost var start := store.State();
    RanNothing(start, stop);
    for i := 0 to |evidence|
      invariant store.Valid() && Ran(start, store.State(), EvidenceEffects(t, token, evidence[..i]), stop, threw)
      invariant store.tickets == start.tickets && store.claims == start.claims
    {
      ghost var before, threw0 := store.State(), threw;
      RanLogs(start, before, EvidenceEffects(t, token, evidence[..i]), stop, threw);
      if !threw { threw := TryEvidence(store, t, token, evidence[i].kind, evidence[i].summary, stop); }
      NextEvidence(t, token, evidence, i);
      RanThen(start, before, store.State(), EvidenceEffects(t, token, evidence[..i]),
              [RecordedEvidence(t, token, evidence[i].kind, evidence[i].summary)], stop, threw0, threw);
    }
    assert evidence[..|evidence|] == evidence;
  }

  lemma NextEvidence(t: nat, token: nat, evidence: seq<AgentEvidence>, i: nat)
    requires i < |evidence|
    ensures EvidenceEffects(t, token, evidence[..i + 1]) ==
            EvidenceEffects(t, token, evidence[..i]) + [RecordedEvidence(t, token, evidence[i].kind, evidence[i].summary)]
  {
  }

  method RecordAllRepos(store: FakeDispatchClient, t: nat, branch: string, repos: seq<WorkRepo>, stop: nat) returns (threw: bool)
    requires store.Valid() && store.Has(t) && |store.effects| <= stop
    modifies store`effects
    ensures store.Valid() && Ran(old(store.State()), store.State(), RepoDeliveries(t, branch, repos), stop, threw)
  {
    threw := false;
    ghost var start := store.State();
    RanNothing(start, stop);
    for i := 0 to |repos|
      invariant store.Valid() && Ran(start, store.State(), RepoDeliveries(t, branch, repos[..i]), stop, threw)
    {
      ghost var before, threw0 := store.State(), threw;
      RanLogs(start, before, RepoDeliveries(t, branch, repos[..i]), stop, threw);
      if !threw { threw := TryRepo(store, t, repos[i].id, branch, stop); }
      NextRepo(t, branch, repos, i);
      RanThen(start, before, store.State(), RepoDeliveries(t, branch, repos[..i]), [RepoDelivery(t, repos[i].id, branch)], stop, threw0, threw);
    }
    assert repos[..|repos|] == repos;
  }

  lemma NextRepo(t: nat, branch: string, repos: seq<WorkRepo>, i: nat)
    requires i < |repos|
    ensures RepoDeliveries(t, branch, repos[..i + 1]) == RepoDeliveries(t, branch, repos[..i]) + [RepoDelivery(t, repos[i].id, branch)]
  {
  }

  method Deliver(store: FakeDispatchClient, t: nat, token: nat, branch: string, env: Env, stop: nat) returns (threw: bool)
    requires store.Valid() && store.Has(t) && store.HoldsClaim(token, t) && |store.effects| <= stop
    modifies store`tickets, store`evidence, store`effects
    ensures store.Valid() && store.Has(t) && Ran(old(store.State()), store.State(), Delivery(t, token, branch, env), stop, threw)
  {
    ghost var start := store.State();
    threw := TryArtifact(store, t, branch, None, stop);
    ghost var due := [DeliveryArtifact(t, branch, None)];
    threw, due := DeliverRepos(store, t, branch, env.packet.writeRepos, stop, threw, start, due);
    threw, due := DeliverEvidence(store, t, token, env.result.evidence, stop, threw, start, due);
    threw, due := DeliverPr(store, t, branch, env.prUrl, stop, threw, start, due);
  }

  // The next stretches of a delivery, each skipped when an earlier one threw.

  method DeliverRepos(store: FakeDispatchClient, t: nat, branch: string, repos: seq<WorkRepo>, stop: nat, threw0: bool,
                      ghost start: StoreState, ghost done: seq<Effect>) returns (threw: bool, ghost due: seq<Effect>)
    requires store.Valid() && store.Has(t) && Ran(start, store.State(), done, stop, threw0)
    modifies store`effects
    ensures store.Valid() && due == done + RepoDeliveries(t, branch, repos) && Ran(start, store.State(), due, stop, threw)
  {
    threw := threw0;
    due := done + RepoDeliveries(t, branch, repos);
    ghost var before := store.State();
    RanLogs(start, before, done, stop, threw0);
    if !threw { threw := RecordAllRepos(store, t, branch, repos, stop); }
    RanThen(start, before, store.State(), done, RepoDeliveries(t, branch, repos), stop, threw0, threw);
  }

  method DeliverEvidence(store: FakeDispatchClient, t: nat, token: nat, evidence: seq<AgentEvidence>, stop: nat, threw0: bool,
                         ghost start: StoreState, ghost done: seq<Effect>) returns (threw: bool, ghost due: seq<Effect>)
    requires store.Valid() && store.HoldsClaim(token, t) && Ran(start, store.State(), done, stop, threw0)
    modifies store`evidence, store`effects
    ensures store.Valid() && due == done + EvidenceEffects(t, token, evidence) && Ran(start, store.State(), due, stop, threw)
  {
    threw := threw0;
    due := done + EvidenceEffects(t, token, evidence);
    ghost var before := store.State();
    RanLogs(start, before, done, stop, threw0);
    if !threw { threw := RecordAllEvidence(store, t, token, evidence, stop); }
    RanThen(start, before, store.State(), done, EvidenceEffects(t, token, evidence), stop, threw0, threw);
  }

  method DeliverPr(store: FakeDispatchClient, t: nat, branch: string, prUrl: Option<Option<string>>, stop: nat, threw0: bool,
                   ghost start: StoreState, ghost done: seq<Effect>) returns (threw: bool, ghost due: seq<Effect>)
    requires store.Valid() && store.Has(t) && Ran(start, store.State(), done, stop, threw0)
    modifies store`tickets, store`effects
    ensures store.Valid() && store.Has(t) && due == done + PrEffect(t, branch, prUrl) && Ran(start, store.State(), due, stop, threw)
  {
    threw := threw0;
    due := done + PrEffect(t, branch, prUrl);
    ghost var before := store.State();
    RanLogs(start, before, done, stop, threw0);
    if !threw {
      RanNothing(before, stop);
      if prUrl.Some? && prUrl.value.Some? && prUrl.value.value != "" {
        threw := TryArtifact(store, t, branch, Some(prUrl.value.value), stop);
      }
    }
    RanThen(start, before, store.State(), done, PrEffect(t, branch, prUrl), stop, threw0, threw);
  }

  method RecordCi(store: FakeDispatchClient, t: nat, token: nat, env: Env, stop: nat) returns (threw: bool)
    requires store.Valid() && store.HoldsClaim(token, t) && |store.effects| <= stop
    modifies store`evidence, store`effects
    ensures store.Valid() && Ran(old(store.State()), store.State(), CiEffects(t, token, env), stop, threw)
  {
    threw := false;
    RanNothing(store.State(), stop);
    if env.ci == Some(Red) {
      threw := TryEvidence(store, t, token, "test_output", "CI FAIL", stop);
    } else if env.ci == Some(Timeout) {
      threw := TryEvidence(store, t, token, "manual_note", "CI pending", stop);
    }
  }

  /** `status` is what the tick reports, unless something throws. */
  method SubmitOrBlock(store: FakeDispatchClient, t: nat, token: nat, cfg: Config, env: Env, stop: nat) returns (status: FinalStatus, threw: bool)
    requires store.Valid() && store.Has(t) && store.HoldsClaim(token, t) && |store.effects| <= stop
    modifies store`tickets, store`effects
    ensures store.Valid() && Ran(old(store.State()), store.State(), Verdict(t, token, cfg, env), stop, threw)
    ensures status == if env.ci == Some(Red) then CiRejected else if HeldBack(cfg, env) then BlockedReported else Reported(env.result)
  {
    status, threw := Reported(env.result), false;
    RanNothing(store.State(), stop);
    if env.ci == Some(Red) {
      threw := TryBlock(store, t, token, stop);
      status := CiRejected;
    } else if cfg.submitForReview {
      if cfg.postConditions && !env.postConditionsPass {
        threw := TryBlock(store, t, token, stop);
        status := BlockedReported;
      } else {
        threw := TrySubmit(store, t, token, stop);
      }
    }
  }

  method CloseTicket(store: FakeDispatchClient, t: nat, token: nat, cfg: Config, env: Env, stop: nat) returns (status: FinalStatus, threw: bool)
    requires store.Valid() && store.Has(t) && store.HoldsClaim(token, t) && |store.effects| <= stop
    modifies store`tickets, store`evidence, store`effects
    ensures store.Valid() && Ran(old(store.State()), store.State(), CiEffects(t, token, env) + Verdict(t, token, cfg, env), stop, threw)
    ensures !threw ==> status == if env.ci == Some(Red) then CiRejected else if HeldBack(cfg, env) then BlockedReported else Reported(env.result)
  {
    status := CiRejected;
    threw := RecordCi(store, t, token, env, stop);
    ghost var middle, threw0 := store.State(), threw;
    RanLogs(old(store.State()), middle, CiEffects(t, token, env), stop, threw);
    if !threw { status, threw := SubmitOrBlock(store, t, token, cfg, env, stop); }
    RanThen(old(store.State()), middle, store.State(), CiEffects(t, token, env), Verdict(t, token, cfg, env), stop, threw0, threw);
  }

  /** After the agent's run: blocked, or delivered and closed. */
  method FinishTicket(store: FakeDispatchClient, t: nat, token: nat, branch: string, cfg: Config, env: Env, stop: nat)
    returns (outcome: Outcome, threw: bool)
    requires store.Valid() && store.Has(t) && store.HoldsClaim(token, t) && |store.effects| <= stop
    requires branch == BranchName(cfg, env.packet) && !Aborts(cfg, env)
    modifies store`tickets, store`evidence, store`effects
    ensures store.Valid() && Ran(old(store.State()), store.State(), AfterRun(t, token, branch, cfg, env), stop, threw)
    ensures outcome == if threw then Threw else OutcomeOf(t, cfg, env)
  {
    var violations := FindOutsideWriteSet(env);
    if env.result.status == RunBlocked || violations != [] {
      threw := TryBlock(store, t, token, stop);
      outcome := if threw then Threw else Finished(BlockedReported, t, branch);
    } else {
      threw := Deliver(store, t, token, branch, env, stop);
      ghost var middle, threw0 := store.State(), threw;
      RanLogs(old(store.State()), middle, Delivery(t, token, branch, env), stop, threw);
      var status := CiRejected;
      if !threw { status, threw := CloseTicket(store, t, token, cfg, env, stop); }
      RanThen(old(store.State()), middle, store.State(), Delivery(t, token, branch, env),
              CiEffects(t, token, env) + Verdict(t, token, cfg, env), stop, threw0, threw);
      Associate(Delivery(t, token, branch, env), CiEffects(t, token, env), Verdict(t, token, cfg, env));
      outcome := if threw then Threw else Finished(status, t, branch);
    }
  }

  method TryHeartbeat(store: FakeDispatchClient, token: nat, stop: nat) returns (threw: bool)
    requires store.Valid() && token in store.claims && |store.effects| <= stop
    modifies store`effects
    ensures store.Valid() && Ran(old(store.State()), store.State(), [Heartbeat(token)], stop, threw)
  {
    threw := |store.effects| == stop;
    if !threw { var ok := store.SendHeartbeat(token); }
    RanOne(old(store.State()), store.State(), Heartbeat(token), stop, threw);
  }

  /** Branch policy, branches, the agent's run, and what follows it. */
  method RunAgent(store: FakeDispatchClient, t: nat, token: nat, cfg: Config, env: Env, stop: nat)
    returns (outcome: Outcome, branches: seq<string>, threw: bool)
    requires store.Valid() && store.Has(t) && store.HoldsClaim(token, t) && |store.effects| <= stop
    modifies store`tickets, store`evidence, store`effects
    ensures store.Valid()
    ensures Ran(old(store.State()), store.State(),
                if Aborts(cfg, env) then [] else AfterRun(t, token, BranchName(cfg, env.packet), cfg, env), stop, threw)
    ensures outcome == if threw then Threw else OutcomeOf(t, cfg, env)
    ensures branches == if env.branchAllowed(BranchName(cfg, env.packet)) then Upto(BranchTargets(env.packet), env.gitFailsAt) else []
  {
    var branch := BranchName(cfg, env.packet);
    outcome, branches, threw := Threw, [], false;
    RanNothing(store.State(), stop);
    if env.branchAllowed(branch) {
      var gitThrew;
      branches, gitThrew := CreateBranches(env.packet, env.gitFailsAt);
      if !gitThrew && !env.runtimeThrows {
        outcome, threw := FinishTicket(store, t, token, branch, cfg, env, stop);
      }
    }
  }

  /** From the claim on: `t` is the ticket the hook saw, `token` its claim. */
  method WorkTicket(store: FakeDispatchClient, t: nat, token: nat, cfg: Config, env: Env, stop: nat)
    returns (outcome: Outcome, branches: seq<string>, threw: bool)
    requires store.Valid() && store.Has(t) && store.HoldsClaim(token, t) && |store.effects| <= stop
    modifies store`tickets, store`evidence, store`effects
    ensures store.Valid() && Ran(old(store.State()), store.State(), AfterClaim(t, token, cfg, env), stop, threw)
    ensures outcome == if threw then Threw else OutcomeOf(t, cfg, env)
    ensures branches == if |old(store.effects)| == stop then [] else BranchesMade(cfg, env)
  {
    outcome, branches := Threw, [];
    threw := TryHeartbeat(store, token, stop);
    ghost var middle, threw0 := store.State(), threw;
    RanLogs(old(store.State()), middle, [Heartbeat(token)], stop, threw);
    if !threw { outcome, branches, threw := RunAgent(store, t, token, cfg, env, stop); }
    RanThen(old(store.State()), middle, store.State(), [Heartbeat(token)],
            if Aborts(cfg, env) then [] else AfterRun(t, token, BranchName(cfg, env.packet), cfg, env), stop, threw0, threw);
  }

  function BranchesMade(cfg: Config, env: Env): seq<string> {
    if env.branchAllowed(BranchName(cfg, env.packet)) then Upto(BranchTargets(env.packet), env.gitFailsAt) else []
  }

  /** Claims the ticket the hook saw, then works it. */
  method ClaimAndWork(store: FakeDispatchClient, t: nat, cfg: Config, env: Env, stop: nat)
    returns (outcome: Outcome, branches: seq<string>, threw: bool)
    requires store.Valid() && store.Has(t) && store.Get(t).status == Ready && |store.effects| <= stop
    modifies store
    ensures store.Valid() && Ran(old(store.State()), store.State(), Trace(t, |old(store.claims)|, cfg, env), stop, threw)
    ensures outcome == if threw then Threw else OutcomeOf(t, cfg, env)
    ensures branches == if |old(store.effects)| + 1 >= stop then [] else BranchesMade(cfg, env)
  {
    outcome, branches := Threw, [];
    ghost var token := |store.claims|;
    threw := |store.effects| == stop;
    var claimed := None;
    if !threw { claimed := store.ClaimTicket(t); }
    ghost var middle, threw0 := store.State(), threw;
    RanOne(old(store.State()), middle, Claim(t, token), stop, threw);
    RanLogs(old(store.State()), middle, [Claim(t, token)], stop, threw);
    if !threw { outcome, branches, threw := WorkTicket(store, t, claimed.value, cfg, env, stop); }
    RanThen(old(store.State()), middle, store.State(), [Claim(t, token)], AfterClaim(t, token, cfg, env), stop, threw0, threw);
  }

  // ----- One tick, as a function of the store -----

  /** A tick that claimed a ticket. */
  datatype Record = Record(ticket: nat, token: nat, cfg: Config, env: Env)

  /** The effects of the tick, as far as it got. */
  function Segment(r: Record): seq<Effect> {
    Upto(Trace(r.ticket, r.token, r.cfg, r.env), r.env.throwsAfter)
  }

  /** The claim a tick makes, if any: none after a veto, on an empty queue, or when the claim throws. */
  function Claimed(s: StoreState, cfg: Config, env: Env): Option<Record> {
    if env.vetoed || ReadyAmong(s.tickets) == [] || env.throwsAfter == 0 then None
    else Some(Record(ReadyAmong(s.tickets)[0], |s.claims|, cfg, env))
  }

  function AfterTick(s: StoreState, cfg: Config, env: Env): StoreState {
    match Claimed(s, cfg, env)
    case None => s
    case Some(r) => PerformAll(s, Segment(r))
  }

  function TickOutcome(s: StoreState, cfg: Config, env: Env): Outcome {
    if env.vetoed then ClaimVetoed
    else if ReadyAmong(s.tickets) == [] then NoTicket
    else
      var t := ReadyAmong(s.tickets)[0];
      if env.throwsAfter <= |Trace(t, |s.claims|, cfg, env)| then Threw else OutcomeOf(t, cfg, env)
  }

  lemma RanCount(before: StoreState, now: StoreState, due: seq<Effect>, n: nat, threw: bool)
    requires Ran(before, now, due, |before.effects| + n, threw)
    ensures now == PerformAll(before, Upto(due, n))
    ensures threw || |now.effects| == |before.effects| + n <==> n <= |due|
  {
    RanLogs(before, now, due, |before.effects| + n, threw);
  }

  lemma RanTick(before: StoreState, now: StoreState, t: nat, cfg: Config, env: Env, due: seq<Effect>, threw: bool)
    requires !env.vetoed && ReadyAmong(before.tickets) != [] && t == ReadyAmong(before.tickets)[0]
    requires due == Trace(t, |before.claims|, cfg, env) && Ran(before, now, due, |before.effects| + env.throwsAfter, threw)
    ensures now == AfterTick(before, cfg, env)
    ensures TickOutcome(before, cfg, env) ==
            if threw || |now.effects| == |before.effects| + env.throwsAfter then Threw else OutcomeOf(t, cfg, env)
  {
    RanCount(before, now, due, env.throwsAfter, threw);
  }

  /** The tick once a ready ticket is found and no hook vetoes. */
  method TakeTicket(store: FakeDispatchClient, t: nat, cfg: Config, env: Env) returns (outcome: Outcome, branches: seq<string>)
    requires store.Valid() && store.Has(t) && store.Get(t).status == Ready
    requires !env.vetoed && ReadyAmong(store.tickets) != [] && t == ReadyAmong(store.tickets)[0]
    modifies store
    ensures store.Valid() && store.State() == AfterTick(old(store.State()), cfg, env)
    ensures outcome == TickOutcome(old(store.State()), cfg, env)
    ensures branches == if env.throwsAfter <= 1 then [] else BranchesMade(cfg, env)
  {
    var stop := |store.effects| + env.throwsAfter;
    var threw;
    outcome, branches, threw := ClaimAndWork(store, t, cfg, env, stop);
    RanTick(old(store.State()), store.State(), t, cfg, env, Trace(t, |old(store.claims)|, cfg, env), threw);
    // Calls after the last effect, such as the lore suggestions, may throw as well.
    if |store.effects| == stop { outcome := Threw; }
  }

  method RunImplementationLoop(store: FakeDispatchClient, cfg: Config, env: Env) returns (outcome: Outcome, branches: seq<string>)
    requires store.Valid()
    modifies store
    ensures store.Valid()
    ensures store.State() == AfterTick(old(store.State()), cfg, env)
    ensures outcome == TickOutcome(old(store.State()), cfg, env)
    ensures branches == if env.vetoed || ReadyAmong(old(store.tickets)) == [] || env.throwsAfter <= 1 then [] else BranchesMade(cfg, env)
  {
    outcome, branches := ClaimVetoed, [];
    var ready := store.ListReady();
    if !env.vetoed {
      if ready == [] {
        outcome := NoTicket;
      } else {
        FirstReady(store.tickets);
        outcome, branches := TakeTicket(store, ready[0], cfg, env);
      }
    }
  }

  // ----- What the gates guarantee, for every prefix of a tick -----

  predicate IsDelivery(e: Effect) {
    e.DeliveryArtifact? || e.RepoDelivery? || e.Submitted?
  }

  predicate Concerns(e: Effect, t: nat, token: nat) {
    match e
    case Claim(n, k) => n == t && k == token
    case Heartbeat(k) => k == token
    case RecordedEvidence(n, k, _, _) => n == t && k == token
    case DeliveryArtifact(n, _, _) => n == t
    case RepoDelivery(n, _, _) => n == t
    case Submitted(n, k) => n == t && k == token
    case MarkedBlocked(n, k) => n == t && k == token
  }

  function Opening(t: nat, token: nat): seq<Effect> {
    [Claim(t, token), Heartbeat(token)]
  }

  /** The two shapes of a tick: delivered, with a verdict at the end, or stopped before it. */
  lemma TraceShape(t: nat, token: nat, cfg: Config, env: Env)
    ensures MayDeliver(cfg, env) ==>
      Trace(t, token, cfg, env) ==
        Opening(t, token) + (Delivery(t, token, BranchName(cfg, env.packet), env) + CiEffects(t, token, env) + Verdict(t, token, cfg, env))
    ensures !MayDeliver(cfg, env) ==>
      Trace(t, token, cfg, env) == Opening(t, token) + if Aborts(cfg, env) then [] else [MarkedBlocked(t, token)]
  {
    var branch := BranchName(cfg, env.packet);
    var rest := if Aborts(cfg, env) then [] else AfterRun(t, token, branch, cfg, env);
    OpeningFirst(t, token, rest);
  }

  lemma OpeningFirst(t: nat, token: nat, rest: seq<Effect>)
    ensures [Claim(t, token)] + ([Heartbeat(token)] + rest) == Opening(t, token) + rest
  {
  }

  predicate AllConcern(trace: seq<Effect>, t: nat, token: nat) {
    forall e :: e in trace ==> Concerns(e, t, token)
  }

  lemma DeliveryConcerns(t: nat, token: nat, branch: string, env: Env)
    ensures AllConcern(Delivery(t, token, branch, env), t, token)
  {
    var repos, rows := RepoDeliveries(t, branch, env.packet.writeRepos), EvidenceEffects(t, token, env.result.evidence);
    assert AllConcern(repos, t, token);
    assert AllConcern(rows, t, token);
    assert AllConcern(PrEffect(t, branch, env.prUrl), t, token);
  }

  lemma TraceConcerns(t: nat, token: nat, cfg: Config, env: Env)
    ensures AllConcern(Trace(t, token, cfg, env), t, token)
  {
    TraceShape(t, token, cfg, env);
    DeliveryConcerns(t, token, BranchName(cfg, env.packet), env);
    assert AllConcern(CiEffects(t, token, env), t, token);
    assert AllConcern(Verdict(t, token, cfg, env), t, token);
  }

  /** What a run of effects makes of the ticket they concern. */
  function TicketAfterAll(t: Ticket, es: seq<Effect>): Ticket {
    if es == [] then t else TicketAfter(TicketAfterAll(t, es[..|es| - 1]), es[|es| - 1])
  }

  /** Effects that concern one ticket change no other, and keep every claim but its own. */
  lemma {:induction false} OnlyItsTicket(s: StoreState, es: seq<Effect>, t: nat, token: nat)
    requires 0 < t <= |s.tickets| && AllConcern(es, t, token)
    ensures PerformAll(s, es).tickets == s.tickets[t - 1 := TicketAfterAll(s.tickets[t - 1], es)]
    ensures forall k :: k in s.claims && k != token ==> k in PerformAll(s, es).claims && PerformAll(s, es).claims[k] == s.claims[k]
  {
    if es == [] {
      assert s.tickets[t - 1 := s.tickets[t - 1]] == s.tickets;
    } else {
      var last := es[|es| - 1];
      assert AllConcern(es[..|es| - 1], t, token) && Concerns(last, t, token);
      OnlyItsTicket(s, es[..|es| - 1], t, token);
      LastOnItsTicket(s.tickets, PerformAll(s, es[..|es| - 1]), TicketAfterAll(s.tickets[t - 1], es[..|es| - 1]), last, t, token);
    }
  }

  lemma LastOnItsTicket(tickets: seq<Ticket>, s: StoreState, now: Ticket, e: Effect, t: nat, token: nat)
    requires 0 < t <= |tickets| && s.tickets == tickets[t - 1 := now] && Concerns(e, t, token)
    ensures Perform(s, e).tickets == tickets[t - 1 := TicketAfter(now, e)]
  {
    assert e.Heartbeat? ==> TicketAfter(now, e) == now;
  }

  /** Only the ticket shown to the hook is touched, always under its own claim, however far the tick gets. */
  lemma OnlyOwnTicket(s: StoreState, cfg: Config, env: Env)
    requires Claimed(s, cfg, env).Some? && Numbered(s)
    ensures var r := Claimed(s, cfg, env).value; var end := AfterTick(s, cfg, env);
      && 0 < r.ticket <= |s.tickets| && s.tickets[r.ticket - 1].status == Ready
      && end.tickets == s.tickets[r.ticket - 1 := TicketAfterAll(s.tickets[r.ticket - 1], Segment(r))]
      && AllConcern(Segment(r), r.ticket, r.token) && end.effects == s.effects + Segment(r)
  {
    var r := Claimed(s, cfg, env).value;
    FirstReady(s.tickets);
    TraceConcerns(r.ticket, r.token, cfg, env);
    OnlyItsTicket(s, Segment(r), r.ticket, r.token);
    PerformAllLogs(s, Segment(r));
  }

  predicate Numbered(s: StoreState) {
    forall i :: 0 <= i < |s.tickets| ==> s.tickets[i].number == i + 1
  }

  /** The submission gates: configured, CI not red, post-conditions met when enabled. */
  predicate MaySubmit(cfg: Config, env: Env) {
    MayDeliver(cfg, env) && cfg.submitForReview && env.ci != Some(Red) && (cfg.postConditions ==> env.postConditionsPass)
  }

  predicate IsVerdict(e: Effect) {
    e.MarkedBlocked? || e.Submitted?
  }

  predicate Quiet(trace: seq<Effect>) {
    forall e :: e in trace ==> !IsVerdict(e)
  }

  lemma DeliveryIsQuiet(t: nat, token: nat, branch: string, env: Env)
    ensures Quiet(Delivery(t, token, branch, env))
  {
    assert Quiet(RepoDeliveries(t, branch, env.packet.writeRepos));
    assert Quiet(EvidenceEffects(t, token, env.result.evidence));
    assert Quiet(PrEffect(t, branch, env.prUrl));
  }

  /** A tick's effects but for the verdict. */
  function Before(t: nat, token: nat, cfg: Config, env: Env): seq<Effect> {
    Opening(t, token) +
    if MayDeliver(cfg, env) then Delivery(t, token, BranchName(cfg, env.packet), env) + CiEffects(t, token, env) else []
  }

  function Closing(t: nat, token: nat, cfg: Config, env: Env): seq<Effect> {
    if MayDeliver(cfg, env) then Verdict(t, token, cfg, env) else if Aborts(cfg, env) then [] else [MarkedBlocked(t, token)]
  }

  /** A tick is a quiet part, then at most one verdict. */
  lemma TraceSplits(t: nat, token: nat, cfg: Config, env: Env)
    ensures Trace(t, token, cfg, env) == Before(t, token, cfg, env) + Closing(t, token, cfg, env)
    ensures Quiet(Before(t, token, cfg, env)) && |Closing(t, token, cfg, env)| <= 1
  {
    var branch := BranchName(cfg, env.packet);
    TraceShape(t, token, cfg, env);
    DeliveryIsQuiet(t, token, branch, env);
    assert Quiet(CiEffects(t, token, env));
    Associate(Opening(t, token), Delivery(t, token, branch, env) + CiEffects(t, token, env), Verdict(t, token, cfg, env));
    assert Opening(t, token) + [] == Opening(t, token);
  }

  /** Position by position: the only verdict is the last effect of the whole tick, and it is a
      submission exactly behind every gate. */
  lemma VerdictIsLast(t: nat, token: nat, cfg: Config, env: Env, j: nat)
    requires j < |Trace(t, token, cfg, env)| && IsVerdict(Trace(t, token, cfg, env)[j])
    ensures j == |Trace(t, token, cfg, env)| - 1 && Trace(t, token, cfg, env)[..j] == Before(t, token, cfg, env)
    ensures Trace(t, token, cfg, env)[j] == if MaySubmit(cfg, env) then Submitted(t, token) else MarkedBlocked(t, token)
  {
    TraceSplits(t, token, cfg, env);
    SplitAtVerdict(Before(t, token, cfg, env), Closing(t, token, cfg, env), j);
  }

  lemma SplitAtVerdict(before: seq<Effect>, closing: seq<Effect>, j: nat)
    requires Quiet(before) && |closing| <= 1 && j < |before + closing| && IsVerdict((before + closing)[j])
    ensures j == |before| && (before + closing)[..j] == before && |closing| == 1 && (before + closing)[j] == closing[0]
  {
    assert forall i :: 0 <= i < |before| ==> !IsVerdict(before[i]);
  }

  /** The ticket is submitted exactly when every gate is open and the tick gets that far; then the
      submission is the last effect, and everything else, all evidence included, came before it. */
  lemma SubmittedIff(r: Record)
    ensures Submitted(r.ticket, r.token) in Segment(r) <==>
            MaySubmit(r.cfg, r.env) && r.env.throwsAfter >= |Trace(r.ticket, r.token, r.cfg, r.env)|
    ensures MarkedBlocked(r.ticket, r.token) in Segment(r) <==>
            !Aborts(r.cfg, r.env) && (!MayDeliver(r.cfg, r.env) || HeldBack(r.cfg, r.env)) &&
            r.env.throwsAfter >= |Trace(r.ticket, r.token, r.cfg, r.env)|
    ensures Submitted(r.ticket, r.token) in Segment(r) ==>
            Segment(r) == Before(r.ticket, r.token, r.cfg, r.env) + [Submitted(r.ticket, r.token)]
  {
    var t, token, cfg, env := r.ticket, r.token, r.cfg, r.env;
    TraceSplits(t, token, cfg, env);
    VerdictUpto(Before(t, token, cfg, env), Closing(t, token, cfg, env), env.throwsAfter);
  }

  lemma VerdictUpto(before: seq<Effect>, closing: seq<Effect>, n: nat)
    requires Quiet(before) && |closing| <= 1
    ensures forall e :: IsVerdict(e) ==> (e in Upto(before + closing, n) <==> e in closing && n >= |before + closing|)
    ensures n >= |before + closing| ==> Upto(before + closing, n) == before + closing
  {
    forall e | IsVerdict(e) ensures e in Upto(before + closing, n) <==> e in closing && n >= |before + closing| {
      if n < |before + closing| {
        assert forall i :: 0 <= i < n ==> Upto(before + closing, n)[i] == before[i];
      } else {
        assert e in before + closing <==> e in before || e in closing;
      }
    }
  }

  /** Nothing is delivered, however far the tick gets, unless every changed path lies in a write repo
      of known path; and a repo delivered to is a write repo. */
  lemma DeliveryNeedsWriteSet(r: Record, e: Effect)
    requires e in Segment(r) && IsDelivery(e)
    ensures MayDeliver(r.cfg, r.env) && ChangedOnlyWriteRepos(r.env)
    ensures e.RepoDelivery? ==> exists w :: 0 <= w < |r.env.packet.writeRepos| && r.env.packet.writeRepos[w].id == e.repoId
  {
    var t, token, cfg, env := r.ticket, r.token, r.cfg, r.env;
    TraceShape(t, token, cfg, env);
    StayedIff(env);
    assert e in Trace(t, token, cfg, env);
    if e.RepoDelivery? { DeliveredRepoIsWritten(t, token, BranchName(cfg, env.packet), cfg, env, e); }
  }

  lemma DeliveredRepoIsWritten(t: nat, token: nat, branch: string, cfg: Config, env: Env, e: Effect)
    requires e.RepoDelivery?
    requires e in Opening(t, token) + (Delivery(t, token, branch, env) + CiEffects(t, token, env) + Verdict(t, token, cfg, env))
    ensures exists w :: 0 <= w < |env.packet.writeRepos| && env.packet.writeRepos[w].id == e.repoId
  {
    assert e in RepoDeliveries(t, branch, env.packet.writeRepos);
    var w :| 0 <= w < |env.packet.writeRepos| && RepoDeliveries(t, branch, env.packet.writeRepos)[w] == e;
    assert env.packet.writeRepos[w].id == e.repoId;
  }

  /** The repos delivered to, in order. */
  function DeliveredRepos(trace: seq<Effect>): seq<string> {
    if trace == [] then []
    else DeliveredRepos(trace[..|trace| - 1]) + if trace[|trace| - 1].RepoDelivery? then [trace[|trace| - 1].repoId] else []
  }

  lemma {:induction false} ReposAppend(a: seq<Effect>, b: seq<Effect>)
    ensures DeliveredRepos(a + b) == DeliveredRepos(a) + DeliveredRepos(b)
  {
    if b == [] {
      assert a + b == a;
    } else {
      ReposAppend(a, b[..|b| - 1]);
      assert (a + b)[..|a + b| - 1] == a + b[..|b| - 1];
    }
  }

  lemma {:induction false} NoRepos(trace: seq<Effect>)
    requires forall e :: e in trace ==> !e.RepoDelivery?
    ensures DeliveredRepos(trace) == []
  {
    if trace != [] { NoRepos(trace[..|trace| - 1]); }
  }

  function Ids(repos: seq<WorkRepo>): seq<string> {
    if repos == [] then [] else Ids(repos[..|repos| - 1]) + [repos[|repos| - 1].id]
  }

  lemma {:induction false} ReposOfDeliveries(t: nat, branch: string, repos: seq<WorkRepo>)
    ensures DeliveredRepos(RepoDeliveries(t, branch, repos)) == Ids(repos)
  {
    if repos != [] {
      var n := |repos| - 1;
      ReposOfDeliveries(t, branch, repos[..n]);
      assert RepoDeliveries(t, branch, repos)[..n] == RepoDeliveries(t, branch, repos[..n]);
    }
  }

  lemma DeliveryReposAre(t: nat, token: nat, branch: string, env: Env)
    ensures DeliveredRepos(Delivery(t, token, branch, env)) == Ids(env.packet.writeRepos)
  {
    var artifact := [DeliveryArtifact(t, branch, None)];
    var repos := RepoDeliveries(t, branch, env.packet.writeRepos);
    var rows := EvidenceEffects(t, token, env.result.evidence);
    var pr := PrEffect(t, branch, env.prUrl);
    ReposAppend(artifact + repos + rows, pr);
    ReposAppend(artifact + repos, rows);
    ReposAppend(artifact, repos);
    ReposOfDeliveries(t, branch, env.packet.writeRepos);
    NoRepos(artifact);
    NoRepos(rows);
    NoRepos(pr);
  }

  lemma ReposInTheMiddle(opening: seq<Effect>, delivery: seq<Effect>, ci: seq<Effect>, verdict: seq<Effect>)
    requires forall e :: e in opening || e in ci || e in verdict ==> !e.RepoDelivery?
    ensures DeliveredRepos(opening + (delivery + ci + verdict)) == DeliveredRepos(delivery)
  {
    ReposAppend(opening, delivery + ci + verdict);
    ReposAppend(delivery + ci, verdict);
    ReposAppend(delivery, ci);
    NoRepos(opening);
    NoRepos(ci);
    NoRepos(verdict);
  }

  lemma DeliveringTraceRepos(t: nat, token: nat, cfg: Config, env: Env)
    requires MayDeliver(cfg, env)
    ensures DeliveredRepos(Trace(t, token, cfg, env)) == Ids(env.packet.writeRepos)
  {
    var branch := BranchName(cfg, env.packet);
    TraceShape(t, token, cfg, env);
    DeliveryReposAre(t, token, branch, env);
    ReposInTheMiddle(Opening(t, token), Delivery(t, token, branch, env), CiEffects(t, token, env), Verdict(t, token, cfg, env));
  }

  lemma {:induction false} ReposOfPrefix(es: seq<Effect>, n: nat)
    ensures DeliveredRepos(Upto(es, n)) <= DeliveredRepos(es)
  {
    if n < |es| {
      ReposAppend(es[..n], es[n..]);
      assert es == es[..n] + es[n..];
    }
  }

  /** A tick delivers to no repo at all, or to the write repos once each, in order, as far as it
      gets; never to a read-only or test repo. */
  lemma OneDeliveryPerWriteRepo(r: Record)
    ensures DeliveredRepos(Segment(r)) <= if MayDeliver(r.cfg, r.env) then Ids(r.env.packet.writeRepos) else []
    ensures r.env.throwsAfter >= |Trace(r.ticket, r.token, r.cfg, r.env)| && MayDeliver(r.cfg, r.env) ==>
            DeliveredRepos(Segment(r)) == Ids(r.env.packet.writeRepos)
  {
    var t, token, cfg, env := r.ticket, r.token, r.cfg, r.env;
    ReposOfPrefix(Trace(t, token, cfg, env), env.throwsAfter);
    if MayDeliver(cfg, env) {
      DeliveringTraceRepos(t, token, cfg, env);
    } else {
      TraceShape(t, token, cfg, env);
      NoRepos(Trace(t, token, cfg, env));
    }
  }

  // ----- Where the ticket ends -----

  lemma {:induction false} QuietLeavesClaimed(ticket: Ticket, es: seq<Effect>)
    requires es != [] && es[0].Claim? && Quiet(es)
    ensures TicketAfterAll(ticket, es).status == ClaimedBy
  {
    if |es| > 1 {
      assert es[..|es| - 1][0] == es[0];
      QuietLeavesClaimed(ticket, es[..|es| - 1]);
      assert es[|es| - 1] in es;
    } else {
      assert es[..0] == [];
    }
  }

  /** However far a tick gets, its ticket is in review exactly when submitted, blocked exactly when
      marked so, and otherwise still claimed. */
  lemma StatusFollowsTrace(ticket: Ticket, r: Record)
    requires r.env.throwsAfter > 0
    ensures StatusTells(TicketAfterAll(ticket, Segment(r)).status, Segment(r), r.ticket, r.token)
  {
    var t, token, cfg, env := r.ticket, r.token, r.cfg, r.env;
    TraceSplits(t, token, cfg, env);
    TraceConcerns(t, token, cfg, env);
    StatusOfPrefix(ticket, Before(t, token, cfg, env), Closing(t, token, cfg, env), env.throwsAfter, t, token);
  }

  lemma StatusOfPrefix(ticket: Ticket, before: seq<Effect>, closing: seq<Effect>, n: nat, t: nat, token: nat)
    requires Quiet(before) && before != [] && before[0].Claim? && n > 0 && AllConcern(closing, t, token)
    requires |closing| <= 1 && forall e :: e in closing ==> IsVerdict(e)
    ensures StatusTells(TicketAfterAll(ticket, Upto(before + closing, n)).status, Upto(before + closing, n), t, token)
  {
    VerdictUpto(before, closing, n);
    if n < |before + closing| || closing == [] {
      StatusOfQuiet(ticket, before, closing, n, t, token);
    } else {
      StatusOfWhole(ticket, before, closing[0], t, token);
      assert closing == [closing[0]] && closing[0] in closing;
    }
  }

  predicate StatusTells(end: Status, es: seq<Effect>, t: nat, token: nat) {
    && (end == InReview <==> Submitted(t, token) in es) && (end == Blocked <==> MarkedBlocked(t, token) in es)
    && (end == ClaimedBy <==> Submitted(t, token) !in es && MarkedBlocked(t, token) !in es)
  }

  lemma StatusOfQuiet(ticket: Ticket, before: seq<Effect>, closing: seq<Effect>, n: nat, t: nat, token: nat)
    requires Quiet(before) && before != [] && before[0].Claim? && n > 0 && |closing| <= 1
    requires n < |before + closing| || closing == []
    ensures StatusTells(TicketAfterAll(ticket, Upto(before + closing, n)).status, Upto(before + closing, n), t, token)
  {
    var es := Upto(before + closing, n);
    assert es == if n < |before| then before[..n] else before;
    QuietLeavesClaimed(ticket, es);
  }

  lemma StatusOfWhole(ticket: Ticket, before: seq<Effect>, last: Effect, t: nat, token: nat)
    requires Quiet(before) && before != [] && before[0].Claim? && IsVerdict(last) && Concerns(last, t, token)
    ensures StatusTells(TicketAfterAll(ticket, before + [last]).status, before + [last], t, token)
  {
    assert (before + [last])[..|before|] == before;
    QuietLeavesClaimed(ticket, before);
  }

  /** What a finished tick reports, set against the status its ticket ended in. */
  predicate TrueOfTicket(reported: FinalStatus, status: Status) {
    && (reported == InReviewReported <==> status == InReview)
    && (reported == BlockedReported || reported == CiRejected <==> status == Blocked)
  }

  lemma ReportTells(ticket: Ticket, r: Record)
    requires r.env.throwsAfter > |Trace(r.ticket, r.token, r.cfg, r.env)| && OutcomeOf(r.ticket, r.cfg, r.env).Finished?
    ensures TrueOfTicket(OutcomeOf(r.ticket, r.cfg, r.env).status, TicketAfterAll(ticket, Segment(r)).status) <==>
            !MayDeliver(r.cfg, r.env) || HeldBack(r.cfg, r.env) || (r.cfg.submitForReview <==> r.env.result.status == SubmittedForReview)
  {
    StatusFollowsTrace(ticket, r);
    SubmittedIff(r);
  }

  lemma FinishedTick(s: StoreState, cfg: Config, env: Env) returns (r: Record)
    requires TickOutcome(s, cfg, env).Finished?
    ensures Claimed(s, cfg, env) == Some(r) && r.cfg == cfg && r.env == env && r.env.throwsAfter > |Trace(r.ticket, r.token, r.cfg, r.env)|
    ensures TickOutcome(s, cfg, env) == OutcomeOf(r.ticket, cfg, env) && TickOutcome(s, cfg, env).ticket == r.ticket
  {
    r := Record(ReadyAmong(s.tickets)[0], |s.claims|, cfg, env);
  }

  /** A tick that ran to the end reports the agent's own status, unless it blocked the ticket. The
      report is true of the ticket exactly when the ticket was blocked, or submission is
      configured for agents that report it and off for those that do not. */
  lemma ReportedStatusIsTrueIff(s: StoreState, cfg: Config, env: Env)
    requires Numbered(s) && TickOutcome(s, cfg, env).Finished?
    ensures var t := TickOutcome(s, cfg, env).ticket;
      && 0 < t <= |s.tickets|
      && (TrueOfTicket(TickOutcome(s, cfg, env).status, AfterTick(s, cfg, env).tickets[t - 1].status) <==>
            !MayDeliver(cfg, env) || HeldBack(cfg, env) || (cfg.submitForReview <==> env.result.status == SubmittedForReview))
  {
    var r := FinishedTick(s, cfg, env);
    OnlyOwnTicket(s, cfg, env);
    ReportTells(s.tickets[r.ticket - 1], r);
  }

  /** A tick in which every gate is open and nothing fails. */
  function SmoothEnv(status: RunStatus): Env {
    Env(false, Packet(None, None, 1, [], [], []), name => true, 0, false, RunResult(status, [], []),
        path => [path], None, None, true, 10)
  }

  /** With submission off, an agent that says "submitted for review" is believed: the tick reports
      the ticket in review, and the ticket is still claimed. */
  lemma UnsubmittedIsReported(description: string)
    ensures var s := StoreState([Ticket(1, description, Ready, None, [], [], Elsewhere)], map[], [], []);
      var cfg, env := Config("crew/", false, false), SmoothEnv(SubmittedForReview);
      && TickOutcome(s, cfg, env).Finished? && TickOutcome(s, cfg, env).status == InReviewReported
      && AfterTick(s, cfg, env).tickets[0].status == ClaimedBy
  {
    var s := StoreState([Ticket(1, description, Ready, None, [], [], Elsewhere)], map[], [], []);
    var cfg, env := Config("crew/", false, false), SmoothEnv(SubmittedForReview);
    SmoothTrace(1, 0, cfg, SubmittedForReview);
    var r := Record(1, 0, cfg, env);
    assert ReadyAmong(s.tickets) == [1];
    OnlyOwnTicket(s, cfg, env);
    StatusFollowsTrace(s.tickets[0], r);
    SubmittedIff(r);
  }

  lemma SmoothTrace(t: nat, token: nat, cfg: Config, status: RunStatus)
    requires status != RunBlocked
    ensures !Aborts(cfg, SmoothEnv(status)) && MayDeliver(cfg, SmoothEnv(status)) && !HeldBack(cfg, SmoothEnv(status))
    ensures |Trace(t, token, cfg, SmoothEnv(status))| <= 4
  {
    TraceShape(t, token, cfg, SmoothEnv(status));
  }

  // ----- Runs of ticks -----

  /** A tick, or what others did to the store meanwhile: other agents' claims and evidence, reviews,
      new tickets. They keep the claims there are and write no effects of this loop. */
  datatype Step = Tick(cfg: Config, env: Env) | Others(after: StoreState)

  /** Tokens are issued in sequence. */
  predicate TokensInOrder(s: StoreState) {
    forall token :: token in s.claims ==> token < |s.claims|
  }

  predicate CanStep(s: StoreState, step: Step) {
    step.Others? ==>
      && step.after.effects == s.effects && TokensInOrder(step.after)
      && forall token :: token in s.claims ==> token in step.after.claims
  }

  function Next(s: StoreState, step: Step): StoreState {
    match step
    case Tick(cfg, env) => AfterTick(s, cfg, env)
    case Others(after) => after
  }

  predicate ValidRun(s: StoreState, run: seq<Step>)
    decreases run
  {
    run == [] || (CanStep(s, run[0]) && ValidRun(Next(s, run[0]), run[1..]))
  }

  function After(s: StoreState, run: seq<Step>): StoreState
    decreases run
  {
    if run == [] then s else After(Next(s, run[0]), run[1..])
  }

  /** The ticks of a run that claimed a ticket. */
  function Records(s: StoreState, run: seq<Step>): seq<Record>
    decreases run
  {
    if run == [] then []
    else
      (if run[0].Tick? && Claimed(s, run[0].cfg, run[0].env).Some? then [Claimed(s, run[0].cfg, run[0].env).value] else []) +
      Records(Next(s, run[0]), run[1..])
  }

  function Segments(rs: seq<Record>): seq<seq<Effect>> {
    seq(|rs|, i requires 0 <= i < |rs| => Segment(rs[i]))
  }

  predicate DistinctTokens(rs: seq<Record>) {
    forall i, j :: 0 <= i < j < |rs| ==> rs[i].token != rs[j].token
  }

  lemma {:induction false} OthersClaimNothing(s: StoreState, es: seq<Effect>)
    requires forall e :: e in es ==> !e.Claim?
    ensures PerformAll(s, es).claims == s.claims
  {
    if es != [] {
      OthersClaimNothing(s, es[..|es| - 1]);
      assert es[|es| - 1] in es;
    }
  }

  /** A tick that claims adds exactly its own claim. */
  lemma TickClaims(s: StoreState, r: Record)
    requires r.env.throwsAfter > 0
    ensures PerformAll(s, Segment(r)).claims == s.claims[r.token := r.ticket]
  {
    var t, token, cfg, env := r.ticket, r.token, r.cfg, r.env;
    var rest := AfterClaim(t, token, cfg, env);
    UptoConcat([Claim(t, token)], rest, env.throwsAfter);
    AfterClaimClaimsNothing(t, token, cfg, env);
    ClaimThenNone(s, t, token, Upto(rest, env.throwsAfter - 1));
  }

  lemma ClaimThenNone(s: StoreState, t: nat, token: nat, rest: seq<Effect>)
    requires forall e :: e in rest ==> !e.Claim?
    ensures PerformAll(s, [Claim(t, token)] + rest).claims == s.claims[token := t]
  {
    PerformAllAppends(s, [Claim(t, token)], rest);
    PerformOne(s, Claim(t, token));
    OthersClaimNothing(Perform(s, Claim(t, token)), rest);
  }

  lemma AfterClaimClaimsNothing(t: nat, token: nat, cfg: Config, env: Env)
    ensures forall e :: e in AfterClaim(t, token, cfg, env) ==> !e.Claim?
  {
    var branch := BranchName(cfg, env.packet);
    assert forall e :: e in RepoDeliveries(t, branch, env.packet.writeRepos) ==> !e.Claim?;
    assert forall e :: e in EvidenceEffects(t, token, env.result.evidence) ==> !e.Claim?;
    assert forall e :: e in Delivery(t, token, branch, env) ==> !e.Claim?;
    assert forall e :: e in AfterRun(t, token, branch, cfg, env) ==> !e.Claim?;
  }

  /** The log of a run is the log of its ticks, one after the other, each under a token of its own. */
  lemma {:induction false} RunLogs(s: StoreState, run: seq<Step>)
    requires TokensInOrder(s) && ValidRun(s, run)
    ensures After(s, run).effects == s.effects + Flatten(Segments(Records(s, run)))
    ensures DistinctTokens(Records(s, run)) && FreshTokens(Records(s, run), s)
    decreases run
  {
    if run == [] {
      assert s.effects + [] == s.effects;
    } else {
      var next := Next(s, run[0]);
      StepLogs(s, run[0]);
      RunLogs(next, run[1..]);
      var rest := Records(next, run[1..]);
      if run[0].Tick? && Claimed(s, run[0].cfg, run[0].env).Some? {
        RecordFirst(s, next, Claimed(s, run[0].cfg, run[0].env).value, rest, After(s, run).effects);
      } else {
        assert [] + rest == rest;
        TokensStayFresh(rest, s, next);
      }
    }
  }

  predicate FreshTokens(rs: seq<Record>, s: StoreState) {
    forall i :: 0 <= i < |rs| ==> rs[i].token !in s.claims && rs[i].env.throwsAfter > 0
  }

  lemma TokensStayFresh(rs: seq<Record>, s: StoreState, next: StoreState)
    requires FreshTokens(rs, next) && forall token :: token in s.claims ==> token in next.claims
    ensures FreshTokens(rs, s)
  {
  }

  lemma RecordFirst(s: StoreState, next: StoreState, r: Record, rest: seq<Record>, log: seq<Effect>)
    requires r.token !in s.claims && r.token in next.claims && r.env.throwsAfter > 0
    requires forall token :: token in s.claims ==> token in next.claims
    requires next.effects == s.effects + Segment(r) && log == next.effects + Flatten(Segments(rest))
    requires DistinctTokens(rest) && FreshTokens(rest, next)
    ensures log == s.effects + Flatten(Segments([r] + rest)) && DistinctTokens([r] + rest) && FreshTokens([r] + rest, s)
  {
    TokensStayFresh(rest, s, next);
    assert Segments([r] + rest) == [Segment(r)] + Segments(rest);
    FlattenFirst(Segment(r), Segments(rest));
    Associate(s.effects, Segment(r), Flatten(Segments(rest)));
  }

  lemma FlattenFirst(first: seq<Effect>, others: seq<seq<Effect>>)
    ensures Flatten([first] + others) == first + Flatten(others)
  {
    assert ([first] + others)[1..] == others;
  }

  lemma StepLogs(s: StoreState, step: Step)
    requires TokensInOrder(s) && CanStep(s, step)
    ensures TokensInOrder(Next(s, step)) && forall token :: token in s.claims ==> token in Next(s, step).claims
    ensures step.Tick? && Claimed(s, step.cfg, step.env).Some? ==>
      var r := Claimed(s, step.cfg, step.env).value;
      r.token !in s.claims && r.token in Next(s, step).claims && Next(s, step).effects == s.effects + Segment(r) && r.env.throwsAfter > 0
    ensures !(step.Tick? && Claimed(s, step.cfg, step.env).Some?) ==> Next(s, step).effects == s.effects
  {
    if step.Tick? && Claimed(s, step.cfg, step.env).Some? {
      var r := Claimed(s, step.cfg, step.env).value;
      TickClaims(s, r);
      PerformAllLogs(s, Segment(r));
    }
  }

  /** Entry `i` of the log closes the tick `r`: everything the tick did is right before it. */
  predicate ClosesTick(log: seq<Effect>, i: nat, r: Record) {
    var before := Before(r.ticket, r.token, r.cfg, r.env);
    && |before| <= i < |log| && log[i - |before|..i] == before
    && log[i] == if MaySubmit(r.cfg, r.env) then Submitted(r.ticket, r.token) else MarkedBlocked(r.ticket, r.token)
  }

  /** A verdict in the log is the last effect of a whole tick. */
  lemma VerdictOf(rs: seq<Record>, i: nat) returns (n: nat)
    requires i < |Flatten(Segments(rs))| && IsVerdict(Flatten(Segments(rs))[i])
    ensures n < |rs| && ClosesTick(Flatten(Segments(rs)), i, rs[n])
    ensures i == |Flatten(Segments(rs)[..n])| + |Before(rs[n].ticket, rs[n].token, rs[n].cfg, rs[n].env)|
  {
    var j;
    n, j := Locate(Segments(rs), i);
    VerdictInSegment(Flatten(Segments(rs)), i, rs[n], Segment(rs[n]), j);
  }

  lemma VerdictInSegment(log: seq<Effect>, i: nat, r: Record, segment: seq<Effect>, j: nat)
    requires segment == Segment(r) && j < |segment| && j <= i < |log| && log[i] == segment[j] && log[i - j..i] == segment[..j]
    requires IsVerdict(log[i])
    ensures ClosesTick(log, i, r) && j == |Before(r.ticket, r.token, r.cfg, r.env)|
  {
    SegmentAt(r, j);
    VerdictIsLast(r.ticket, r.token, r.cfg, r.env, j);
  }

  lemma SegmentAt(r: Record, j: nat)
    requires j < |Segment(r)|
    ensures var trace := Trace(r.ticket, r.token, r.cfg, r.env);
      j < |trace| && Segment(r)[j] == trace[j] && Segment(r)[..j] == trace[..j]
  {
  }

  lemma LogOfRun(s: StoreState, run: seq<Step>)
    requires TokensInOrder(s) && s.effects == [] && ValidRun(s, run)
    ensures After(s, run).effects == Flatten(Segments(Records(s, run))) && DistinctTokens(Records(s, run))
  {
    RunLogs(s, run);
    NothingFirst(s.effects, Flatten(Segments(Records(s, run))));
  }

  lemma NothingFirst(nothing: seq<Effect>, log: seq<Effect>)
    requires nothing == []
    ensures nothing + log == log
  {
  }

  /** Each claim comes to at most one verdict, over any run. */
  lemma OneVerdictPerClaim(s: StoreState, run: seq<Step>, i: nat, j: nat)
    requires TokensInOrder(s) && s.effects == [] && ValidRun(s, run)
    requires i < |After(s, run).effects| && j < |After(s, run).effects|
    requires IsVerdict(After(s, run).effects[i]) && IsVerdict(After(s, run).effects[j])
    requires After(s, run).effects[i].token == After(s, run).effects[j].token
    ensures i == j
  {
    LogOfRun(s, run);
    OneVerdictAmong(Records(s, run), i, j);
  }

  lemma OneVerdictAmong(rs: seq<Record>, i: nat, j: nat)
    requires DistinctTokens(rs) && i < |Flatten(Segments(rs))| && j < |Flatten(Segments(rs))|
    requires IsVerdict(Flatten(Segments(rs))[i]) && IsVerdict(Flatten(Segments(rs))[j])
    requires Flatten(Segments(rs))[i].token == Flatten(Segments(rs))[j].token
    ensures i == j
  {
    var m := VerdictOf(rs, i);
    var n := VerdictOf(rs, j);
    assert rs[m].token == rs[n].token;
  }

  /** Every submission in the log of any run is that of a tick whose gates were all open, and
      directly follows that tick's own claim, delivery and evidence. */
  lemma SubmissionsAreGated(s: StoreState, run: seq<Step>, i: nat) returns (r: Record)
    requires TokensInOrder(s) && s.effects == [] && ValidRun(s, run)
    requires i < |After(s, run).effects| && After(s, run).effects[i].Submitted?
    ensures r in Records(s, run) && MaySubmit(r.cfg, r.env)
    ensures After(s, run).effects[i] == Submitted(r.ticket, r.token) && ClosesTick(After(s, run).effects, i, r)
    ensures HoldsWork(Before(r.ticket, r.token, r.cfg, r.env), r)
  {
    LogOfRun(s, run);
    var n := VerdictOf(Records(s, run), i);
    r := Records(s, run)[n];
    WorkComesBefore(r);
  }

  /** The tick's claim, its deliveries and all its evidence. */
  predicate HoldsWork(es: seq<Effect>, r: Record) {
    && Claim(r.ticket, r.token) in es
    && (forall e :: e in EvidenceEffects(r.ticket, r.token, r.env.result.evidence) ==> e in es)
    && (forall e :: e in RepoDeliveries(r.ticket, BranchName(r.cfg, r.env.packet), r.env.packet.writeRepos) ==> e in es)
  }

  lemma WorkComesBefore(r: Record)
    requires MayDeliver(r.cfg, r.env)
    ensures HoldsWork(Before(r.ticket, r.token, r.cfg, r.env), r)
  {
    assert Before(r.ticket, r.token, r.cfg, r.env)[0] == Claim(r.ticket, r.token);
  }

  /** Every delivery in the log of any run is that of a tick whose changed paths were all in its
      write repos, for that tick's ticket, and to one of its write repos. */
  lemma DeliveriesAreInWriteSet(s: StoreState, run: seq<Step>, i: nat) returns (r: Record)
    requires TokensInOrder(s) && s.effects == [] && ValidRun(s, run)
    requires i < |After(s, run).effects| && IsDelivery(After(s, run).effects[i])
    ensures r in Records(s, run) && Allowed(After(s, run).effects[i], r)
  {
    LogOfRun(s, run);
    var n, j := Locate(Segments(Records(s, run)), i);
    r := Records(s, run)[n];
    DeliveryIsAllowed(r, Segment(r)[j]);
  }

  /** The tick may make this delivery. */
  predicate Allowed(e: Effect, r: Record)
    requires IsDelivery(e)
  {
    && e.ticket == r.ticket && MayDeliver(r.cfg, r.env) && ChangedOnlyWriteRepos(r.env)
    && (e.RepoDelivery? ==> exists w :: 0 <= w < |r.env.packet.writeRepos| && r.env.packet.writeRepos[w].id == e.repoId)
  }

  lemma DeliveryIsAllowed(r: Record, e: Effect)
    requires e in Segment(r) && IsDelivery(e)
    ensures Allowed(e, r)
  {
    DeliveryNeedsWriteSet(r, e);
    TraceConcerns(r.ticket, r.token, r.cfg, r.env);
    assert e in Trace(r.ticket, r.token, r.cfg, r.env);
  }
}
