/** The idle feature-backlog loop of packages/crew/src/loops/idleFeatureBacklog.ts: claim one
    backlog feature, plan it, file it as an epic, and roll the claim back on failure, with
    every call to the outside free to fail. */
module FeatureBacklog {
  import opened Prelude
  import opened FeatureFailures
  import Text

  datatype Feature = Feature(id: string, repo: string, name: string, priority: Option<real>, createdAt: Option<string>)

  datatype Status = Backlog | Building | Shipped

  datatype Config = Config(mode: Mode, repos: seq<string>, maxPlanFailures: nat)

  datatype Epic = Epic(featureId: string, repo: string, ready: bool)

  datatype Event =
    | Claimed(id: string)
    | ClaimFailed(id: string)
    | PlanCalled(id: string)        // one paid planner call
    | EpicFiled(id: string)
    | RolledBack(id: string)
    | RollbackFailed(id: string)
    | Parked(id: string)
    | LedgerFailed(id: string)
    | Observed(id: string)
    | Unstuck(id: string)           // a human put a stranded feature back

  /** The feature ledger with its statuses, the plan-failure counts, the epics filed by the
      loop, and the loop's event log. */
  datatype World = World(features: seq<Feature>, status: map<string, Status>, failures: Counts, epics: seq<Epic>, events: seq<Event>)

  /** What the environment answers during one tick. */
  datatype Env = Env(queueBusy: bool, listFails: set<string>, claimFails: bool, planFails: bool, filingFails: bool,
                     intakeReadies: bool, releaseFails: bool, ledgerFails: bool)

  // ----- Which feature -----

  /** `compareBacklogFeatures(a, b) < 0`: priority, then age, then id; an absent priority is last. */
  predicate Before(a: Feature, b: Feature) {
    if a.priority != b.priority then
      a.priority.Some? && (b.priority.None? || a.priority.value < b.priority.value)
    else if CreatedAt(a) != CreatedAt(b) then Text.Less(CreatedAt(a), CreatedAt(b))
    else Text.Less(a.id, b.id)
  }

  function CreatedAt(f: Feature): string {
    if f.createdAt.Some? then f.createdAt.value else ""
  }

  predicate SameRank(a: Feature, b: Feature) {
    a.priority == b.priority && CreatedAt(a) == CreatedAt(b) && a.id == b.id
  }

  lemma BeforeIsStrictOrder(a: Feature, b: Feature)
    ensures Before(a, b) || Before(b, a) || SameRank(a, b)
    ensures Before(a, b) ==> !Before(b, a) && !SameRank(a, b)
  {
    Text.LessIsTotal(a.id, b.id);
    Text.LessIsTotal(CreatedAt(a), CreatedAt(b));
    Text.LessIsIrreflexive(a.id);
    if Text.Less(a.id, b.id) { Text.LessIsAsymmetric(a.id, b.id); }
    if Text.Less(CreatedAt(a), CreatedAt(b)) { Text.LessIsAsymmetric(CreatedAt(a), CreatedAt(b)); }
  }

  lemma BeforeIsTransitive(a: Feature, b: Feature, c: Feature)
    requires Before(a, b) && Before(b, c)
    ensures Before(a, c)
  {
    if Text.Less(CreatedAt(a), CreatedAt(b)) && Text.Less(CreatedAt(b), CreatedAt(c)) {
      Text.LessIsTransitive(CreatedAt(a), CreatedAt(b), CreatedAt(c));
      Text.LessIsIrreflexive(CreatedAt(a));
    }
    if Text.Less(CreatedAt(a), CreatedAt(b)) { Text.LessIsAsymmetric(CreatedAt(a), CreatedAt(b)); }
    if Text.Less(a.id, b.id) && Text.Less(b.id, c.id) { Text.LessIsTransitive(a.id, b.id, c.id); }
  }

  /** The head of the sorted list. */
  function Pick(features: seq<Feature>): Feature
    requires features != []
  {
    if |features| == 1 then features[0]
    else
      var rest := Pick(features[1..]);
      if Before(rest, features[0]) then rest else features[0]
  }

  lemma {:induction false} PickIsFirst(features: seq<Feature>)
    requires features != []
    ensures Pick(features) in features
    ensures forall f :: f in features ==> Before(Pick(features), f) || SameRank(Pick(features), f)
  {
    if |features| > 1 {
      PickIsFirst(features[1..]);
      var head, rest := features[0], Pick(features[1..]);
      BeforeIsStrictOrder(rest, head);
      assert features == [head] + features[1..];
      forall f | f in features ensures Before(Pick(features), f) || SameRank(Pick(features), f) {
        if f in features[1..] && Before(head, rest) && Before(rest, f) { BeforeIsTransitive(head, rest, f); }
      }
    }
  }

  /** `f` is at least as urgent as `g`, rule by rule: the lower priority leads and none at all comes
      last; among equal priorities the smaller creation time leads, an absent one reading as the
      empty text; among those the smaller id. */
  predicate AsUrgent(f: Feature, g: Feature) {
    && (g.priority.Some? ==> f.priority.Some? && f.priority.value <= g.priority.value)
    && (f.priority == g.priority ==>
          && (g.createdAt.None? ==> f.createdAt.None? || f.createdAt.value == "")
          && (f.createdAt.Some? && g.createdAt.Some? ==> !Text.Less(g.createdAt.value, f.createdAt.value)))
    && (f.priority == g.priority && (f.createdAt == g.createdAt || (f.createdAt.None? && g.createdAt == Some("")) || (f.createdAt == Some("") && g.createdAt.None?)) ==>
          !Text.Less(g.id, f.id))
  }

  lemma FirstIsAsUrgent(f: Feature, g: Feature)
    requires Before(f, g) || SameRank(f, g)
    ensures AsUrgent(f, g)
  {
    Text.LessIsIrreflexive(f.id);
    Text.LessIsIrreflexive(CreatedAt(f));
    if Text.Less(f.id, g.id) { Text.LessIsAsymmetric(f.id, g.id); }
    if Text.Less(CreatedAt(f), CreatedAt(g)) { Text.LessIsAsymmetric(CreatedAt(f), CreatedAt(g)); }
  }

  lemma PickIsMostUrgent(features: seq<Feature>, g: Feature)
    requires g in features
    ensures Pick(features) in features && AsUrgent(Pick(features), g)
  {
    PickIsFirst(features);
    FirstIsAsUrgent(Pick(features), g);
  }

  /** `scopedRepos`: the onboarded repos the allow-list names, or all of them. */
  function ScopedRepos(onboarded: seq<string>, allow: seq<string>): seq<string> {
    if onboarded == [] then []
    else (if allow == [] || onboarded[0] in allow then [onboarded[0]] else []) + ScopedRepos(onboarded[1..], allow)
  }

  /** The features of one repo that memory lists as `backlog`. */
  function ListBacklog(w: World, features: seq<Feature>, repo: string): seq<Feature> {
    if features == [] then []
    else
      (if features[0].repo == repo && StatusOf(w, features[0].id) == Backlog then [features[0]] else []) +
      ListBacklog(w, features[1..], repo)
  }

  function StatusOf(w: World, id: string): Status {
    if id in w.status then w.status[id] else Shipped
  }

  function Listed(w: World, repos: seq<string>, env: Env): seq<Feature> {
    if repos == [] then []
    else
      var n := |repos| - 1;
      Listed(w, repos[..n], env) + if repos[n] in env.listFails then [] else ListBacklog(w, w.features, repos[n])
  }

  lemma ListedNext(w: World, repos: seq<string>, env: Env, i: nat)
    requires i < |repos|
    ensures Listed(w, repos[..i + 1], env) ==
            Listed(w, repos[..i], env) + if repos[i] in env.listFails then [] else ListBacklog(w, w.features, repos[i])
  {
    assert repos[..i + 1][..i] == repos[..i];
  }

  /** Features whose plan kept failing are left for a human. */
  function Unparked(cfg: Config, w: World, features: seq<Feature>): seq<Feature> {
    if features == [] then []
    else
      (if CountOf(w.failures, features[0].id) >= cfg.maxPlanFailures then [] else [features[0]]) +
      Unparked(cfg, w, features[1..])
  }

  function Candidates(cfg: Config, w: World, onboarded: seq<string>, env: Env): seq<Feature> {
    Unparked(cfg, w, Listed(w, ScopedRepos(onboarded, cfg.repos), env))
  }

  predicate IsCandidate(cfg: Config, w: World, onboarded: seq<string>, env: Env, f: Feature) {
    && f in w.features && StatusOf(w, f.id) == Backlog
    && CountOf(w.failures, f.id) < cfg.maxPlanFailures
    && f.repo in onboarded && (cfg.repos == [] || f.repo in cfg.repos) && f.repo !in env.listFails
  }

  lemma {:induction false} ScopedReposAre(onboarded: seq<string>, allow: seq<string>, repo: string)
    ensures repo in ScopedRepos(onboarded, allow) <==> repo in onboarded && (allow == [] || repo in allow)
  {
    if onboarded != [] { ScopedReposAre(onboarded[1..], allow, repo); }
  }

  lemma {:induction false} ListBacklogIs(w: World, features: seq<Feature>, repo: string, f: Feature)
    ensures f in ListBacklog(w, features, repo) <==> f in features && f.repo == repo && StatusOf(w, f.id) == Backlog
  {
    if features != [] { ListBacklogIs(w, features[1..], repo, f); }
  }

  lemma {:induction false} ListedIs(w: World, repos: seq<string>, env: Env, f: Feature)
    ensures f in Listed(w, repos, env) <==>
            f in w.features && StatusOf(w, f.id) == Backlog && f.repo in repos && f.repo !in env.listFails
  {
    if repos != [] {
      var n := |repos| - 1;
      ListedIs(w, repos[..n], env, f);
      ListBacklogIs(w, w.features, repos[n], f);
      assert repos == repos[..n] + [repos[n]];
    }
  }

  lemma {:induction false} UnparkedIs(cfg: Config, w: World, features: seq<Feature>, f: Feature)
    ensures f in Unparked(cfg, w, features) <==> f in features && CountOf(w.failures, f.id) < cfg.maxPlanFailures
  {
    if features != [] { UnparkedIs(cfg, w, features[1..], f); }
  }

  lemma CandidatesAre(cfg: Config, w: World, onboarded: seq<string>, env: Env, f: Feature)
    ensures f in Candidates(cfg, w, onboarded, env) <==> IsCandidate(cfg, w, onboarded, env, f)
  {
    ScopedReposAre(onboarded, cfg.repos, f.repo);
    ListedIs(w, ScopedRepos(onboarded, cfg.repos), env, f);
    UnparkedIs(cfg, w, Listed(w, ScopedRepos(onboarded, cfg.repos), env), f);
  }

  // ----- One tick -----

  function Log(w: World, events: seq<Event>): World {
    w.(events := w.events + events)
  }

  function CountFailure(cfg: Config, w: World, id: string, env: Env): World {
    if env.ledgerFails then Log(w, [LedgerFailed(id)])
    else
      var counted := w.(failures := Recorded(w.failures, id));
      if CountOf(counted.failures, id) >= cfg.maxPlanFailures then Log(counted, [Parked(id)]) else counted
  }

  function ForgetFailures(w: World, id: string, env: Env): World {
    if id in w.failures && env.ledgerFails then Log(w, [LedgerFailed(id)])
    else w.(failures := Cleared(w.failures, id))
  }

  function Rollback(w: World, id: string, env: Env): World {
    if env.releaseFails then Log(w, [RollbackFailed(id)])
    else Log(w.(status := w.status[id := Backlog]), [RolledBack(id)])
  }

  function Process(cfg: Config, w: World, f: Feature, env: Env): World {
    if env.claimFails then Log(w, [ClaimFailed(f.id)])
    else
      var claimed := Log(w.(status := w.status[f.id := Building]), [Claimed(f.id), PlanCalled(f.id)]);
      if env.planFails || env.filingFails then CountFailure(cfg, Rollback(claimed, f.id, env), f.id, env)
      else
        var ready := cfg.mode == CreateReadyTickets && env.intakeReadies;
        ForgetFailures(Log(claimed.(epics := claimed.epics + [Epic(f.id, f.repo, ready)]), [EpicFiled(f.id)]), f.id, env)
  }

  function Tick(cfg: Config, w: World, onboarded: seq<string>, env: Env): World {
    var candidates := Candidates(cfg, w, onboarded, env);
    if env.queueBusy || candidates == [] then w
    else if cfg.mode == ObserveOnly then Log(w, [Observed(Pick(candidates).id)])
    else Process(cfg, w, Pick(candidates), env)
  }

  /** The loop as the source runs it, on mutable state. */
  class BacklogLoop {
    var features: seq<Feature>
    var status: map<string, Status>
    var failures: Counts
    var epics: seq<Epic>
    var events: seq<Event>

    ghost function Contents(): World
      reads this
    {
      World(features, status, failures, epics, events)
    }

    method ChooseFeature(cfg: Config, onboarded: seq<string>, env: Env) returns (choice: Option<Feature>)
      ensures var candidates := Candidates(cfg, Contents(), onboarded, env);
        choice == if candidates == [] then None else Some(Pick(candidates))
    {
      var repos := ScopedRepos(onboarded, cfg.repos);
      var w := World(features, status, failures, epics, events);
      var all: seq<Feature> := [];
      for i := 0 to |repos|
        invariant all == Listed(w, repos[..i], env)
      {
        ListedNext(w, repos, env, i);
        if repos[i] !in env.listFails {
          all := all + ListBacklog(w, features, repos[i]);
        }
      }
      assert repos[..|repos|] == repos;
      var candidates := Unparked(cfg, w, all);
      choice := if candidates == [] then None else Some(Pick(candidates));
    }

    method RollbackClaim(id: string, env: Env)
      modifies this
      ensures Contents() == Rollback(old(Contents()), id, env)
    {
      if env.releaseFails {
        events := events + [RollbackFailed(id)];
      } else {
        status := status[id := Backlog];
        events := events + [RolledBack(id)];
      }
    }

    method CountPlanFailure(cfg: Config, id: string, env: Env)
      modifies this
      ensures Contents() == CountFailure(cfg, old(Contents()), id, env)
    {
      if env.ledgerFails {
        events := events + [LedgerFailed(id)];
        return;
      }
      var count := CountOf(failures, id) + 1;
      failures := failures[id := count];
      if count >= cfg.maxPlanFailures {
        events := events + [Parked(id)];
      }
    }

    method ForgetPlanFailures(id: string, env: Env)
      modifies this
      ensures Contents() == ForgetFailures(old(Contents()), id, env)
    {
      if id in failures && env.ledgerFails {
        events := events + [LedgerFailed(id)];
      } else {
        failures := failures - {id};
      }
    }

    method ProcessFeature(cfg: Config, f: Feature, env: Env)
      modifies this
      ensures Contents() == Process(cfg, old(Contents()), f, env)
    {
      if env.claimFails {
        events := events + [ClaimFailed(f.id)];
        return;
      }
      status := status[f.id := Building];
      events := events + [Claimed(f.id), PlanCalled(f.id)];
      if env.planFails || env.filingFails {
        RollbackClaim(f.id, env);
        CountPlanFailure(cfg, f.id, env);
      } else {
        epics := epics + [Epic(f.id, f.repo, cfg.mode == CreateReadyTickets && env.intakeReadies)];
        events := events + [EpicFiled(f.id)];
        ForgetPlanFailures(f.id, env);
      }
    }

    method RunTick(cfg: Config, onboarded: seq<string>, env: Env)
      modifies this
      ensures Contents() == Tick(cfg, old(Contents()), onboarded, env)
    {
      if env.queueBusy { return; }
      var choice := ChooseFeature(cfg, onboarded, env);
      if choice == None { return; }
      if cfg.mode == ObserveOnly {
        events := events + [Observed(choice.value.id)];
        return;
      }
      ProcessFeature(cfg, choice.value, env);
    }
  }

  // ----- Runs -----

  /** A tick of the loop, or something the rest of the factory did between two ticks. */
  datatype Step =
    | Idle(env: Env)
    | Arrive(feature: Feature)   // a new feature enters the ledger
    | Ship(id: string)           // building -> shipped
    | Unstick(id: string)        // after a recorded rollback failure, a human puts the feature back
    | Forget(id: string)         // a human deletes a ledger entry

  predicate CanStep(w: World, step: Step) {
    match step
    case Idle(_) => true
    case Arrive(f) => f.id !in w.status && (forall g :: g in w.features ==> g.id != f.id)
    case Ship(id) => StatusOf(w, id) == Building
    case Unstick(id) => StatusOf(w, id) == Building && Count(w, Unstuck(id)) < Count(w, RollbackFailed(id))
    case Forget(_) => true
  }

  function Next(cfg: Config, w: World, onboarded: seq<string>, step: Step): World {
    match step
    case Idle(env) => Tick(cfg, w, onboarded, env)
    case Arrive(f) => w.(features := w.features + [f], status := w.status[f.id := Backlog])
    case Ship(id) => w.(status := w.status[id := Shipped])
    case Unstick(id) => Log(w.(status := w.status[id := Backlog]), [Unstuck(id)])
    case Forget(id) => w.(failures := Cleared(w.failures, id))
  }

  predicate ValidRun(cfg: Config, w: World, onboarded: seq<string>, run: seq<Step>)
    decreases run
  {
    run == [] || (CanStep(w, run[0]) && ValidRun(cfg, Next(cfg, w, onboarded, run[0]), onboarded, run[1..]))
  }

  function After(cfg: Config, w: World, onboarded: seq<string>, run: seq<Step>): World
    decreases run
  {
    if run == [] then w else After(cfg, Next(cfg, w, onboarded, run[0]), onboarded, run[1..])
  }

  function Count(w: World, e: Event): nat {
    multiset(w.events)[e]
  }

  /** How many epics of a feature the loop has filed. */
  function Filed(w: World, id: string): nat {
    FiledAmong(w.epics, id)
  }

  function FiledAmong(epics: seq<Epic>, id: string): nat {
    if epics == [] then 0
    else FiledAmong(epics[..|epics| - 1], id) + if epics[|epics| - 1].featureId == id then 1 else 0
  }

  lemma FiledAppends(epics: seq<Epic>, e: Epic, id: string)
    ensures FiledAmong(epics + [e], id) == FiledAmong(epics, id) + if e.featureId == id then 1 else 0
  {
    assert (epics + [e])[..|epics|] == epics;
  }

  // ----- What a tick adds to the log -----

  lemma CountLog(w: World, events: seq<Event>, e: Event)
    ensures Count(Log(w, events), e) == Count(w, e) + multiset(events)[e]
  {
    assert multiset(w.events + events) == multiset(w.events) + multiset(events);
  }

  lemma CountFailureLogs(cfg: Config, w: World, id: string, env: Env, e: Event)
    requires !e.LedgerFailed? && !e.Parked?
    ensures Count(CountFailure(cfg, w, id, env), e) == Count(w, e)
  {
    CountLog(w, [LedgerFailed(id)], e);
    CountLog(w.(failures := Recorded(w.failures, id)), [Parked(id)], e);
  }

  lemma ForgetFailuresLogs(w: World, id: string, env: Env, e: Event)
    requires !e.LedgerFailed? && !e.Parked?
    ensures Count(ForgetFailures(w, id, env), e) == Count(w, e)
  {
    CountLog(w, [LedgerFailed(id)], e);
  }

  lemma RollbackLogs(w: World, id: string, env: Env, e: Event)
    ensures Count(Rollback(w, id, env), e) ==
            Count(w, e) + if e == (if env.releaseFails then RollbackFailed(id) else RolledBack(id)) then 1 else 0
  {
    CountLog(w, [RollbackFailed(id)], e);
    CountLog(w.(status := w.status[id := Backlog]), [RolledBack(id)], e);
  }

  /** The events of one processed feature, ledger notices aside. */
  function ProcessEvents(id: string, env: Env): set<Event> {
    if env.claimFails then {ClaimFailed(id)}
    else {Claimed(id), PlanCalled(id),
          if !env.planFails && !env.filingFails then EpicFiled(id)
          else if env.releaseFails then RollbackFailed(id) else RolledBack(id)}
  }

  lemma ProcessLogs(cfg: Config, w: World, f: Feature, env: Env, e: Event)
    requires !e.LedgerFailed? && !e.Parked?
    ensures Count(Process(cfg, w, f, env), e) == Count(w, e) + if e in ProcessEvents(f.id, env) then 1 else 0
  {
    var building := w.(status := w.status[f.id := Building]);
    var claimed := Log(building, [Claimed(f.id), PlanCalled(f.id)]);
    CountLog(w, [ClaimFailed(f.id)], e);
    CountLog(building, [Claimed(f.id), PlanCalled(f.id)], e);
    if !env.claimFails {
      if env.planFails || env.filingFails {
        FailureLogs(cfg, claimed, f.id, env, e);
      } else {
        FilingLogs(claimed, Epic(f.id, f.repo, cfg.mode == CreateReadyTickets && env.intakeReadies), env, e);
      }
    }
  }

  lemma FailureLogs(cfg: Config, claimed: World, id: string, env: Env, e: Event)
    requires !e.LedgerFailed? && !e.Parked?
    ensures Count(CountFailure(cfg, Rollback(claimed, id, env), id, env), e) ==
            Count(claimed, e) + if e == (if env.releaseFails then RollbackFailed(id) else RolledBack(id)) then 1 else 0
  {
    RollbackLogs(claimed, id, env, e);
    CountFailureLogs(cfg, Rollback(claimed, id, env), id, env, e);
  }

  lemma FilingLogs(claimed: World, epic: Epic, env: Env, e: Event)
    requires !e.LedgerFailed? && !e.Parked?
    ensures Count(ForgetFailures(Log(claimed.(epics := claimed.epics + [epic]), [EpicFiled(epic.featureId)]), epic.featureId, env), e) ==
            Count(claimed, e) + if e == EpicFiled(epic.featureId) then 1 else 0
  {
    var filed := claimed.(epics := claimed.epics + [epic]);
    CountLog(filed, [EpicFiled(epic.featureId)], e);
    ForgetFailuresLogs(Log(filed, [EpicFiled(epic.featureId)]), epic.featureId, env, e);
  }

  lemma ProcessEpics(cfg: Config, w: World, f: Feature, env: Env)
    ensures Process(cfg, w, f, env).epics ==
      if EpicFiled(f.id) in ProcessEvents(f.id, env) then w.epics + [Epic(f.id, f.repo, cfg.mode == CreateReadyTickets && env.intakeReadies)]
      else w.epics
  {
  }

  lemma ProcessFiles(cfg: Config, w: World, f: Feature, env: Env, id: string)
    ensures Filed(Process(cfg, w, f, env), id) == Filed(w, id) + if EpicFiled(id) in ProcessEvents(f.id, env) then 1 else 0
  {
    ProcessEpics(cfg, w, f, env);
    FiledAppends(w.epics, Epic(f.id, f.repo, cfg.mode == CreateReadyTickets && env.intakeReadies), id);
  }

  /** The status a processed feature ends in. */
  lemma ProcessSets(cfg: Config, w: World, f: Feature, env: Env)
    ensures Process(cfg, w, f, env).status ==
      if env.claimFails then w.status
      else if RolledBack(f.id) in ProcessEvents(f.id, env) then w.status[f.id := Building][f.id := Backlog]
      else w.status[f.id := Building]
    ensures Process(cfg, w, f, env).features == w.features
  {
  }

  // ----- Every claim is accounted for; nothing is stranded -----

  /** Each claim bought one planner call and ended in exactly one way: an epic, a rollback, or
      a recorded rollback failure. */
  predicate ClaimsBalance(w: World, id: string) {
    && Count(w, Claimed(id)) == Count(w, EpicFiled(id)) + Count(w, RolledBack(id)) + Count(w, RollbackFailed(id))
    && Count(w, EpicFiled(id)) == Filed(w, id)
    && Count(w, PlanCalled(id)) == Count(w, Claimed(id))
  }

  /** A feature in the backlog has no epic and no open rollback failure; one the loop left in
      `building` has exactly one of the two. */
  predicate NotStranded(w: World, id: string) {
    var open := Count(w, RollbackFailed(id)) - Count(w, Unstuck(id));
    && open >= 0 && Filed(w, id) <= 1
    && match StatusOf(w, id)
       case Backlog => Filed(w, id) == 0 && open == 0
       case Building => if Count(w, Claimed(id)) == 0 then Filed(w, id) == 0 && open == 0 else Filed(w, id) + open == 1
       case Shipped => id !in w.status ==> Filed(w, id) == 0 && open == 0
  }

  /** `added` is what happened between `w` and `w'`, as far as feature `id` can tell. */
  predicate Adds(w: World, w': World, id: string, added: set<Event>) {
    && Count(w', Claimed(id)) == Count(w, Claimed(id)) + (if Claimed(id) in added then 1 else 0)
    && Count(w', PlanCalled(id)) == Count(w, PlanCalled(id)) + (if PlanCalled(id) in added then 1 else 0)
    && Count(w', EpicFiled(id)) == Count(w, EpicFiled(id)) + (if EpicFiled(id) in added then 1 else 0)
    && Count(w', RolledBack(id)) == Count(w, RolledBack(id)) + (if RolledBack(id) in added then 1 else 0)
    && Count(w', RollbackFailed(id)) == Count(w, RollbackFailed(id)) + (if RollbackFailed(id) in added then 1 else 0)
    && Count(w', Unstuck(id)) == Count(w, Unstuck(id)) + (if Unstuck(id) in added then 1 else 0)
    && Filed(w', id) == Filed(w, id) + (if EpicFiled(id) in added then 1 else 0)
  }

  lemma AddingKeepsClaims(w: World, w': World, f: string, env: Env, id: string)
    requires ClaimsBalance(w, id) && NotStranded(w, id) && StatusOf(w, f) == Backlog
    requires Adds(w, w', id, ProcessEvents(f, env))
    requires w'.status ==
      if env.claimFails then w.status
      else if RolledBack(f) in ProcessEvents(f, env) then w.status[f := Building][f := Backlog]
      else w.status[f := Building]
    ensures ClaimsBalance(w', id) && NotStranded(w', id)
  {
  }

  lemma ProcessAdds(cfg: Config, w: World, f: Feature, env: Env, id: string)
    ensures Adds(w, Process(cfg, w, f, env), id, ProcessEvents(f.id, env))
  {
    ProcessLogs(cfg, w, f, env, Claimed(id));
    ProcessLogs(cfg, w, f, env, PlanCalled(id));
    ProcessLogs(cfg, w, f, env, EpicFiled(id));
    ProcessLogs(cfg, w, f, env, RolledBack(id));
    ProcessLogs(cfg, w, f, env, RollbackFailed(id));
    ProcessLogs(cfg, w, f, env, Unstuck(id));
    ProcessFiles(cfg, w, f, env, id);
  }

  lemma ProcessKeepsClaims(cfg: Config, w: World, f: Feature, env: Env, id: string)
    requires ClaimsBalance(w, id) && NotStranded(w, id) && StatusOf(w, f.id) == Backlog
    ensures ClaimsBalance(Process(cfg, w, f, env), id) && NotStranded(Process(cfg, w, f, env), id)
  {
    ProcessAdds(cfg, w, f, env, id);
    ProcessSets(cfg, w, f, env);
    AddingKeepsClaims(w, Process(cfg, w, f, env), f.id, env, id);
  }

  lemma PickedIsCandidate(cfg: Config, w: World, onboarded: seq<string>, env: Env)
    requires Candidates(cfg, w, onboarded, env) != []
    ensures IsCandidate(cfg, w, onboarded, env, Pick(Candidates(cfg, w, onboarded, env)))
  {
    PickIsFirst(Candidates(cfg, w, onboarded, env));
    CandidatesAre(cfg, w, onboarded, env, Pick(Candidates(cfg, w, onboarded, env)));
  }

  /** What a tick does first, if it does anything: it observes or claims, or fails to claim, a
      candidate that no other candidate is more urgent than. */
  lemma TickTakesMostUrgent(cfg: Config, w: World, onboarded: seq<string>, env: Env) returns (f: Feature)
    requires Tick(cfg, w, onboarded, env) != w
    ensures IsCandidate(cfg, w, onboarded, env, f) && !env.queueBusy
    ensures forall g :: IsCandidate(cfg, w, onboarded, env, g) ==> AsUrgent(f, g)
    ensures var end := Tick(cfg, w, onboarded, env);
      && |end.events| > |w.events|
      && end.events[|w.events|] ==
           if cfg.mode == ObserveOnly then Observed(f.id) else if env.claimFails then ClaimFailed(f.id) else Claimed(f.id)
  {
    var candidates := Candidates(cfg, w, onboarded, env);
    f := Pick(candidates);
    PickedIsCandidate(cfg, w, onboarded, env);
    forall g | IsCandidate(cfg, w, onboarded, env, g) ensures AsUrgent(f, g) {
      CandidatesAre(cfg, w, onboarded, env, g);
      PickIsMostUrgent(candidates, g);
    }
    if cfg.mode != ObserveOnly { ProcessStarts(cfg, w, f, env); }
  }

  lemma ProcessStarts(cfg: Config, w: World, f: Feature, env: Env)
    ensures var end := Process(cfg, w, f, env);
      |end.events| > |w.events| && end.events[|w.events|] == if env.claimFails then ClaimFailed(f.id) else Claimed(f.id)
  {
  }

  /** And it does something exactly when the queue is idle and there is a candidate. */
  lemma TickActsIff(cfg: Config, w: World, onboarded: seq<string>, env: Env)
    ensures Tick(cfg, w, onboarded, env) != w <==> !env.queueBusy && exists f :: IsCandidate(cfg, w, onboarded, env, f)
  {
    var candidates := Candidates(cfg, w, onboarded, env);
    if candidates != [] {
      PickedIsCandidate(cfg, w, onboarded, env);
      ProcessStarts(cfg, w, Pick(candidates), env);
    }
    if f :| IsCandidate(cfg, w, onboarded, env, f) { CandidatesAre(cfg, w, onboarded, env, f); }
  }

  lemma LogAdds(w: World, e: Event, id: string)
    requires e.Observed? || e.Unstuck?
    ensures Adds(w, Log(w, [e]), id, {e})
  {
    CountLog(w, [e], Claimed(id));
    CountLog(w, [e], PlanCalled(id));
    CountLog(w, [e], EpicFiled(id));
    CountLog(w, [e], RolledBack(id));
    CountLog(w, [e], RollbackFailed(id));
    CountLog(w, [e], Unstuck(id));
  }

  lemma TickKeepsClaims(cfg: Config, w: World, onboarded: seq<string>, env: Env, id: string)
    requires ClaimsBalance(w, id) && NotStranded(w, id)
    ensures ClaimsBalance(Tick(cfg, w, onboarded, env), id) && NotStranded(Tick(cfg, w, onboarded, env), id)
  {
    var candidates := Candidates(cfg, w, onboarded, env);
    if !env.queueBusy && candidates != [] {
      if cfg.mode == ObserveOnly {
        ObservationKeepsClaims(w, Pick(candidates).id, id);
      } else {
        PickedIsCandidate(cfg, w, onboarded, env);
        ProcessKeepsClaims(cfg, w, Pick(candidates), env, id);
      }
    }
  }

  lemma ObservationKeepsClaims(w: World, seen: string, id: string)
    requires ClaimsBalance(w, id) && NotStranded(w, id)
    ensures ClaimsBalance(Log(w, [Observed(seen)]), id) && NotStranded(Log(w, [Observed(seen)]), id)
  {
    LogAdds(w, Observed(seen), id);
  }

  lemma StepKeepsClaims(cfg: Config, w: World, onboarded: seq<string>, step: Step, id: string)
    requires CanStep(w, step) && ClaimsBalance(w, id) && NotStranded(w, id)
    ensures ClaimsBalance(Next(cfg, w, onboarded, step), id) && NotStranded(Next(cfg, w, onboarded, step), id)
  {
    match step
    case Idle(env) => TickKeepsClaims(cfg, w, onboarded, env, id);
    case Arrive(f) => ArrivalKeepsClaims(cfg, w, onboarded, f, id);
    case Ship(shipped) => ShippingKeepsClaims(cfg, w, onboarded, shipped, id);
    case Unstick(freed) => UnstickingKeepsClaims(cfg, w, onboarded, freed, id);
    case Forget(pardoned) =>
  }

  lemma ArrivalKeepsClaims(cfg: Config, w: World, onboarded: seq<string>, f: Feature, id: string)
    requires CanStep(w, Arrive(f)) && ClaimsBalance(w, id) && NotStranded(w, id)
    ensures ClaimsBalance(Next(cfg, w, onboarded, Arrive(f)), id) && NotStranded(Next(cfg, w, onboarded, Arrive(f)), id)
  {
    assert f.id == id ==> StatusOf(w, id) == Shipped;
  }

  lemma ShippingKeepsClaims(cfg: Config, w: World, onboarded: seq<string>, shipped: string, id: string)
    requires CanStep(w, Ship(shipped)) && ClaimsBalance(w, id) && NotStranded(w, id)
    ensures ClaimsBalance(Next(cfg, w, onboarded, Ship(shipped)), id) && NotStranded(Next(cfg, w, onboarded, Ship(shipped)), id)
  {
    assert shipped == id ==> StatusOf(w, id) == Building;
  }

  lemma UnstickingKeepsClaims(cfg: Config, w: World, onboarded: seq<string>, freed: string, id: string)
    requires CanStep(w, Unstick(freed)) && ClaimsBalance(w, id) && NotStranded(w, id)
    ensures ClaimsBalance(Next(cfg, w, onboarded, Unstick(freed)), id) && NotStranded(Next(cfg, w, onboarded, Unstick(freed)), id)
  {
    LogAdds(w.(status := w.status[freed := Backlog]), Unstuck(freed), id);
  }

  lemma {:induction false} RunKeepsClaims(cfg: Config, w: World, onboarded: seq<string>, run: seq<Step>, id: string)
    requires ValidRun(cfg, w, onboarded, run) && ClaimsBalance(w, id) && NotStranded(w, id)
    ensures ClaimsBalance(After(cfg, w, onboarded, run), id) && NotStranded(After(cfg, w, onboarded, run), id)
    decreases run
  {
    if run != [] {
      StepKeepsClaims(cfg, w, onboarded, run[0], id);
      RunKeepsClaims(cfg, Next(cfg, w, onboarded, run[0]), onboarded, run[1..], id);
    }
  }

  /** No stranding, over any run from a ledger the loop has not touched yet. */
  lemma NothingIsStranded(cfg: Config, w: World, onboarded: seq<string>, run: seq<Step>, id: string)
    requires w.epics == [] && w.events == [] && ValidRun(cfg, w, onboarded, run)
    ensures var end := After(cfg, w, onboarded, run); var open := Count(end, RollbackFailed(id)) - Count(end, Unstuck(id));
      && Count(end, Claimed(id)) == Filed(end, id) + Count(end, RolledBack(id)) + Count(end, RollbackFailed(id))
      && Filed(end, id) <= 1
      && (StatusOf(end, id) == Building && Count(end, Claimed(id)) > 0 ==> Filed(end, id) + open == 1 && open >= 0)
      && (StatusOf(end, id) == Backlog ==> Filed(end, id) == 0 && open == 0)
  {
    RunKeepsClaims(cfg, w, onboarded, run, id);
  }

  /** `observe_only` changes no status, no count and no epic, on any run of ticks. */
  lemma {:induction false} ObservingChangesNothing(cfg: Config, w: World, onboarded: seq<string>, run: seq<Step>)
    requires cfg.mode == ObserveOnly && forall i :: 0 <= i < |run| ==> run[i].Idle?
    ensures var w' := After(cfg, w, onboarded, run);
      w'.(events := w.events) == w && w.events <= w'.events &&
      forall i :: |w.events| <= i < |w'.events| ==> w'.events[i].Observed?
    decreases run
  {
    if run != [] {
      ObservingChangesNothing(cfg, Next(cfg, w, onboarded, run[0]), onboarded, run[1..]);
    }
  }

  // ----- Planner spend -----

  /** With the ledger writable, a claimed feature's count goes up on a failed plan and is
      cleared by a filed epic; nobody else's count moves. */
  lemma ProcessCounts(cfg: Config, w: World, f: Feature, env: Env, id: string)
    requires !env.ledgerFails
    ensures CountOf(Process(cfg, w, f, env).failures, id) ==
      if env.claimFails || id != f.id then CountOf(w.failures, id)
      else if env.planFails || env.filingFails then CountOf(w.failures, id) + 1
      else 0
  {
  }

  function SpentBy(max: nat, calls: nat, filed: nat, failures: nat): int {
    calls - max * filed - failures
  }

  function Spent(cfg: Config, w: World, id: string): int {
    SpentBy(cfg.maxPlanFailures, Count(w, PlanCalled(id)), Count(w, EpicFiled(id)), CountOf(w.failures, id))
  }

  /** Steps that keep the ledger honest for `id`: its writes succeed and no human edits it. */
  predicate LedgerKept(step: Step, id: string) {
    (step.Idle? ==> !step.env.ledgerFails) && step != Forget(id)
  }

  predicate AllLedgerKept(run: seq<Step>, id: string) {
    forall i :: 0 <= i < |run| ==> LedgerKept(run[i], id)
  }

  /** What one processed feature does to the three numbers of feature `id`: `paid` when it was the
      one claimed, `filed` when that ended in an epic. */
  lemma ProcessTallies(cfg: Config, w: World, f: Feature, env: Env, id: string, paid: bool, filed: bool)
    requires !env.ledgerFails
    requires (paid <==> !env.claimFails && id == f.id) && (filed <==> paid && !env.planFails && !env.filingFails)
    ensures var w' := Process(cfg, w, f, env);
      && Count(w', PlanCalled(id)) == Count(w, PlanCalled(id)) + (if paid then 1 else 0)
      && Count(w', EpicFiled(id)) == Count(w, EpicFiled(id)) + (if filed then 1 else 0)
      && CountOf(w'.failures, id) == if filed then 0 else CountOf(w.failures, id) + if paid then 1 else 0
  {
    ProcessLogs(cfg, w, f, env, PlanCalled(id));
    ProcessLogs(cfg, w, f, env, EpicFiled(id));
    ProcessCounts(cfg, w, f, env, id);
  }

  /** A call that fails is on the count; one that ends in an epic clears a count below the cap. */
  lemma SpendStep(max: nat, calls: nat, epics: nat, failures: nat, paid: bool, filed: bool)
    requires (filed ==> paid) && (paid ==> failures < max)
    ensures SpentBy(max, calls + (if paid then 1 else 0), epics + (if filed then 1 else 0),
                    if filed then 0 else failures + if paid then 1 else 0) <= SpentBy(max, calls, epics, failures)
  {
    assert max * (epics + 1) == max * epics + max;
  }

  lemma ProcessSpends(cfg: Config, w: World, f: Feature, env: Env, id: string)
    requires !env.ledgerFails && CountOf(w.failures, f.id) < cfg.maxPlanFailures
    ensures var w' := Process(cfg, w, f, env);
      Spent(cfg, w', id) <= Spent(cfg, w, id) &&
      (CountOf(w'.failures, id) <= cfg.maxPlanFailures || CountOf(w'.failures, id) <= CountOf(w.failures, id))
  {
    var paid := !env.claimFails && id == f.id;
    var filed := paid && !env.planFails && !env.filingFails;
    ProcessTallies(cfg, w, f, env, id, paid, filed);
    SpendStep(cfg.maxPlanFailures, Count(w, PlanCalled(id)), Count(w, EpicFiled(id)), CountOf(w.failures, id), paid, filed);
  }

  lemma TickSpends(cfg: Config, w: World, onboarded: seq<string>, env: Env, id: string)
    requires !env.ledgerFails
    ensures var w' := Tick(cfg, w, onboarded, env);
      Spent(cfg, w', id) <= Spent(cfg, w, id) &&
      (CountOf(w'.failures, id) <= cfg.maxPlanFailures || CountOf(w'.failures, id) <= CountOf(w.failures, id))
  {
    var candidates := Candidates(cfg, w, onboarded, env);
    if candidates != [] {
      var f := Pick(candidates);
      PickedIsCandidate(cfg, w, onboarded, env);
      ProcessSpends(cfg, w, f, env, id);
      LogAdds(w, Observed(f.id), id);
    }
  }

  lemma StepSpends(cfg: Config, w: World, onboarded: seq<string>, step: Step, id: string)
    requires LedgerKept(step, id)
    ensures var w' := Next(cfg, w, onboarded, step);
      Spent(cfg, w', id) <= Spent(cfg, w, id) &&
      (CountOf(w'.failures, id) <= cfg.maxPlanFailures || CountOf(w'.failures, id) <= CountOf(w.failures, id))
  {
    match step
    case Idle(env) => TickSpends(cfg, w, onboarded, env, id);
    case Unstick(freed) => LogAdds(w.(status := w.status[freed := Backlog]), Unstuck(freed), id);
    case _ =>
  }

  lemma {:induction false} RunSpends(cfg: Config, w: World, onboarded: seq<string>, run: seq<Step>, id: string)
    requires AllLedgerKept(run, id)
    ensures var end := After(cfg, w, onboarded, run);
      Spent(cfg, end, id) <= Spent(cfg, w, id) &&
      (CountOf(end.failures, id) <= cfg.maxPlanFailures || CountOf(end.failures, id) <= CountOf(w.failures, id))
    decreases run
  {
    if run != [] {
      StepSpends(cfg, w, onboarded, run[0], id);
      assert forall i :: 0 <= i < |run[1..]| ==> run[1..][i] == run[i + 1];
      RunSpends(cfg, Next(cfg, w, onboarded, run[0]), onboarded, run[1..], id);
    }
  }

  /** What `calls` planner calls may be when `filed` epics were filed meanwhile and the failure
      count went from `before` to `after`. Between two clears, at most `max`. */
  predicate WithinSpend(max: nat, calls: int, filed: int, before: nat, after: nat) {
    && calls <= max * filed + after - before
    && (before <= max ==> after <= max)
    && (filed == 0 && before <= max ==> calls <= max - before)
    && (filed == 1 && after == 0 ==> calls <= max)
  }

  /** Planner-spend bound. Over any run that keeps the ledger, the planner calls on a feature
      are at most what its failure count allows plus `max_plan_failures` per filed epic; so
      between two clears of its count they never exceed `max_plan_failures`. */
  lemma PlannerSpendIsBounded(cfg: Config, w: World, onboarded: seq<string>, run: seq<Step>, id: string)
    requires AllLedgerKept(run, id)
    ensures var end := After(cfg, w, onboarded, run);
      WithinSpend(cfg.maxPlanFailures, Count(end, PlanCalled(id)) - Count(w, PlanCalled(id)),
                  Count(end, EpicFiled(id)) - Count(w, EpicFiled(id)), CountOf(w.failures, id), CountOf(end.failures, id))
  {
    RunSpends(cfg, w, onboarded, run, id);
    var end := After(cfg, w, onboarded, run);
    SpendBounds(cfg.maxPlanFailures, Count(w, PlanCalled(id)), Count(end, PlanCalled(id)), Count(w, EpicFiled(id)),
                Count(end, EpicFiled(id)), CountOf(w.failures, id), CountOf(end.failures, id));
  }

  lemma SpendBounds(max: nat, calls0: nat, calls1: nat, filed0: nat, filed1: nat, before: nat, after: nat)
    requires SpentBy(max, calls1, filed1, after) <= SpentBy(max, calls0, filed0, before)
    requires after <= max || after <= before
    ensures WithinSpend(max, calls1 - calls0, filed1 - filed0, before, after)
  {
    assert max * filed1 - max * filed0 == max * (filed1 - filed0);
  }

  // ----- When every plan fails -----

  /** Planner calls a feature may still cost. */
  function Allowance(cfg: Config, w: World, id: string): nat {
    var failures := CountOf(w.failures, id);
    if failures < cfg.maxPlanFailures then cfg.maxPlanFailures - failures else 0
  }

  function TotalAllowance(cfg: Config, w: World, features: seq<Feature>): nat {
    if features == [] then 0 else Allowance(cfg, w, features[0].id) + TotalAllowance(cfg, w, features[1..])
  }

  function PlannerCalls(events: seq<Event>): nat {
    if events == [] then 0
    else PlannerCalls(events[..|events| - 1]) + if events[|events| - 1].PlanCalled? then 1 else 0
  }

  predicate DistinctIds(features: seq<Feature>) {
    forall i, j :: 0 <= i < j < |features| ==> features[i].id != features[j].id
  }

  lemma {:induction false} AllowanceUnchanged(cfg: Config, w: World, w': World, features: seq<Feature>)
    requires forall f :: f in features ==> Allowance(cfg, w', f.id) == Allowance(cfg, w, f.id)
    ensures TotalAllowance(cfg, w', features) == TotalAllowance(cfg, w, features)
  {
    if features != [] { AllowanceUnchanged(cfg, w, w', features[1..]); }
  }

  lemma {:induction false} AllowanceDrops(cfg: Config, w: World, w': World, features: seq<Feature>, f: Feature)
    requires f in features && DistinctIds(features)
    requires Allowance(cfg, w', f.id) + 1 == Allowance(cfg, w, f.id)
    requires forall g :: g in features && g.id != f.id ==> Allowance(cfg, w', g.id) == Allowance(cfg, w, g.id)
    ensures TotalAllowance(cfg, w', features) + 1 == TotalAllowance(cfg, w, features)
  {
    if features[0] == f {
      forall g | g in features[1..] ensures g.id != f.id {
        var i :| 0 <= i < |features[1..]| && features[1..][i] == g;
        assert features[i + 1] == g;
      }
      AllowanceUnchanged(cfg, w, w', features[1..]);
    } else {
      var i :| 0 <= i < |features| && features[i] == f;
      assert features[1..][i - 1] == f;
      AllowanceDrops(cfg, w, w', features[1..], f);
    }
  }

  lemma {:induction false} AllowanceIsPositive(cfg: Config, w: World, features: seq<Feature>, f: Feature)
    requires f in features && CountOf(w.failures, f.id) < cfg.maxPlanFailures
    ensures TotalAllowance(cfg, w, features) > 0
  {
    if features[0] != f { AllowanceIsPositive(cfg, w, features[1..], f); }
  }

  predicate PlanDoomed(step: Step) {
    step.Idle? && !step.env.ledgerFails && (step.env.planFails || step.env.filingFails)
  }

  /** The events of a doomed tick: at most one planner call, made exactly when a claim is. */
  lemma DoomedEvents(cfg: Config, w: World, f: Feature, env: Env)
    requires PlanDoomed(Idle(env))
    ensures PlannerCalls(Process(cfg, w, f, env).events) == PlannerCalls(w.events) + if env.claimFails then 0 else 1
  {
    if env.claimFails {
      OneCall(w.events, ClaimFailed(f.id));
    } else {
      var claimed := Log(w.(status := w.status[f.id := Building]), [Claimed(f.id), PlanCalled(f.id)]);
      assert claimed.events == (w.events + [Claimed(f.id)]) + [PlanCalled(f.id)];
      OneCall(w.events, Claimed(f.id));
      OneCall(w.events + [Claimed(f.id)], PlanCalled(f.id));
      FailureCallsNothing(cfg, claimed, f.id, env);
    }
  }

  lemma FailureCallsNothing(cfg: Config, w: World, id: string, env: Env)
    ensures PlannerCalls(CountFailure(cfg, Rollback(w, id, env), id, env).events) == PlannerCalls(w.events)
  {
    var rolled := Rollback(w, id, env);
    OneCall(w.events, RollbackFailed(id));
    OneCall(w.events, RolledBack(id));
    OneCall(rolled.events, Parked(id));
    OneCall(rolled.events, LedgerFailed(id));
  }

  lemma OneCall(events: seq<Event>, e: Event)
    ensures PlannerCalls(events + [e]) == PlannerCalls(events) + if e.PlanCalled? then 1 else 0
  {
    assert (events + [e])[..|events|] == events;
  }

  lemma DoomedTick(cfg: Config, w: World, onboarded: seq<string>, step: Step)
    requires PlanDoomed(step) && DistinctIds(w.features)
    ensures var w' := Next(cfg, w, onboarded, step);
      w'.features == w.features && PlannerCalls(w'.events) >= PlannerCalls(w.events) &&
      PlannerCalls(w'.events) + TotalAllowance(cfg, w', w.features) == PlannerCalls(w.events) + TotalAllowance(cfg, w, w.features)
  {
    var candidates := Candidates(cfg, w, onboarded, step.env);
    var w' := Next(cfg, w, onboarded, step);
    if candidates == [] || step.env.queueBusy {
    } else if cfg.mode == ObserveOnly {
      OneCall(w.events, Observed(Pick(candidates).id));
      AllowanceUnchanged(cfg, w, w', w.features);
    } else {
      var f := Pick(candidates);
      PickedIsCandidate(cfg, w, onboarded, step.env);
      DoomedProcess(cfg, w, f, step.env);
    }
  }

  lemma DoomedProcess(cfg: Config, w: World, f: Feature, env: Env)
    requires PlanDoomed(Idle(env)) && DistinctIds(w.features)
    requires f in w.features && CountOf(w.failures, f.id) < cfg.maxPlanFailures
    ensures var w' := Process(cfg, w, f, env);
      w'.features == w.features && PlannerCalls(w'.events) >= PlannerCalls(w.events) &&
      PlannerCalls(w'.events) + TotalAllowance(cfg, w', w.features) == PlannerCalls(w.events) + TotalAllowance(cfg, w, w.features)
  {
    var w' := Process(cfg, w, f, env);
    DoomedEvents(cfg, w, f, env);
    forall g | g in w.features
      ensures CountOf(w'.failures, g.id) == CountOf(w.failures, g.id) + if !env.claimFails && g.id == f.id then 1 else 0
    {
      ProcessCounts(cfg, w, f, env, g.id);
    }
    if env.claimFails {
      AllowanceUnchanged(cfg, w, w', w.features);
    } else {
      AllowanceDrops(cfg, w, w', w.features, f);
    }
  }

  /** If every plan fails, planner calls made plus allowance left is constant over any run of
      ticks: total calls never exceed the initial allowance, and once it is used up every
      later tick makes none. */
  lemma {:induction false} DoomedRunsTerminate(cfg: Config, w: World, onboarded: seq<string>, run: seq<Step>)
    requires DistinctIds(w.features) && forall i :: 0 <= i < |run| ==> PlanDoomed(run[i])
    ensures var end := After(cfg, w, onboarded, run);
      && end.features == w.features && PlannerCalls(end.events) >= PlannerCalls(w.events)
      && PlannerCalls(end.events) - PlannerCalls(w.events) == TotalAllowance(cfg, w, w.features) - TotalAllowance(cfg, end, w.features)
      && (TotalAllowance(cfg, w, w.features) == 0 ==> PlannerCalls(end.events) == PlannerCalls(w.events))
    decreases run
  {
    if run != [] {
      DoomedTick(cfg, w, onboarded, run[0]);
      assert forall i :: 0 <= i < |run[1..]| ==> run[1..][i] == run[i + 1];
      DoomedRunsTerminate(cfg, Next(cfg, w, onboarded, run[0]), onboarded, run[1..]);
    }
  }

  // ----- Progress -----

  /** Ticks the features ranked before `f` can still take from it. */
  function Delay(cfg: Config, w: World, features: seq<Feature>, f: Feature): nat {
    if features == [] then 0
    else DelayBy(cfg, w, features[0], f) + Delay(cfg, w, features[1..], f)
  }

  function DelayBy(cfg: Config, w: World, g: Feature, f: Feature): nat {
    if Before(g, f) && StatusOf(w, g.id) == Backlog then Allowance(cfg, w, g.id) else 0
  }

  /** How many features rank before `f`. */
  function RankOf(features: seq<Feature>, f: Feature): nat {
    if features == [] then 0 else (if Before(features[0], f) then 1 else 0) + RankOf(features[1..], f)
  }

  lemma {:induction false} DelayIsBounded(cfg: Config, w: World, features: seq<Feature>, f: Feature)
    ensures Delay(cfg, w, features, f) <= RankOf(features, f) * cfg.maxPlanFailures
  {
    if features != [] {
      DelayIsBounded(cfg, w, features[1..], f);
      RankedStep(DelayBy(cfg, w, features[0], f), Delay(cfg, w, features[1..], f), RankOf(features[1..], f),
                 Before(features[0], f), cfg.maxPlanFailures);
    }
  }

  lemma RankedStep(delay: nat, rest: nat, rank: nat, before: bool, max: nat)
    requires rest <= rank * max && delay <= if before then max else 0
    ensures delay + rest <= ((if before then 1 else 0) + rank) * max
  {
    assert (1 + rank) * max == max + rank * max;
  }

  lemma {:induction false} DelayDrops(cfg: Config, w: World, w': World, features: seq<Feature>, g: Feature, f: Feature)
    requires forall h :: h in features ==> DelayBy(cfg, w', h, f) <= DelayBy(cfg, w, h, f)
    ensures Delay(cfg, w', features, f) <= Delay(cfg, w, features, f)
    ensures g in features && DelayBy(cfg, w', g, f) < DelayBy(cfg, w, g, f) ==>
            Delay(cfg, w', features, f) < Delay(cfg, w, features, f)
  {
    if features != [] { DelayDrops(cfg, w, w', features[1..], g, f); }
  }

  /** A tick that may claim: the queue is idle, the claim and the ledger writes succeed and the
      repo of `f` can be listed; plans, filings and releases may fail. */
  predicate Claiming(step: Step, f: Feature) {
    step.Idle? && !step.env.queueBusy && !step.env.claimFails && !step.env.ledgerFails && f.repo !in step.env.listFails
  }

  predicate Eligible(cfg: Config, w: World, onboarded: seq<string>, f: Feature) {
    && f in w.features && StatusOf(w, f.id) == Backlog && CountOf(w.failures, f.id) < cfg.maxPlanFailures
    && f.repo in onboarded && (cfg.repos == [] || f.repo in cfg.repos)
    && cfg.mode != ObserveOnly
  }

  /** Nothing a processed feature can do lengthens the wait. */
  lemma ProcessDelayBy(cfg: Config, w: World, g: Feature, env: Env, h: Feature, f: Feature)
    requires StatusOf(w, g.id) == Backlog
    ensures DelayBy(cfg, Process(cfg, w, g, env), h, f) <= DelayBy(cfg, w, h, f)
  {
    ProcessSets(cfg, w, g, env);
    ProcessCountsAnyway(cfg, w, g, env, h.id);
  }

  /** With or without a writable ledger: only a filed epic lowers a count, and only its own. */
  lemma ProcessCountsAnyway(cfg: Config, w: World, f: Feature, env: Env, id: string)
    ensures id != f.id ==> CountOf(Process(cfg, w, f, env).failures, id) == CountOf(w.failures, id)
    ensures env.claimFails || env.planFails || env.filingFails ==> CountOf(Process(cfg, w, f, env).failures, id) >= CountOf(w.failures, id)
  {
  }

  lemma ProcessDelays(cfg: Config, w: World, g: Feature, env: Env, f: Feature)
    requires StatusOf(w, g.id) == Backlog && g.id != f.id
    ensures var w' := Process(cfg, w, g, env);
      && Delay(cfg, w', w.features, f) <= Delay(cfg, w, w.features, f)
      && StatusOf(w', f.id) == StatusOf(w, f.id) && CountOf(w'.failures, f.id) == CountOf(w.failures, f.id)
  {
    var w' := Process(cfg, w, g, env);
    ProcessSets(cfg, w, g, env);
    ProcessCountsAnyway(cfg, w, g, env, f.id);
    forall h | h in w.features ensures DelayBy(cfg, w', h, f) <= DelayBy(cfg, w, h, f) {
      ProcessDelayBy(cfg, w, g, env, h, f);
    }
    DelayDrops(cfg, w, w', w.features, g, f);
  }

  /** A claiming tick shortens the wait. */
  lemma ClaimShortens(cfg: Config, w: World, g: Feature, env: Env, f: Feature)
    requires !env.claimFails && !env.ledgerFails
    requires g in w.features && StatusOf(w, g.id) == Backlog && CountOf(w.failures, g.id) < cfg.maxPlanFailures
    requires Before(g, f) && g.id != f.id
    ensures Delay(cfg, Process(cfg, w, g, env), w.features, f) < Delay(cfg, w, w.features, f)
  {
    var w' := Process(cfg, w, g, env);
    ProcessSets(cfg, w, g, env);
    ProcessCounts(cfg, w, g, env, g.id);
    forall h | h in w.features ensures DelayBy(cfg, w', h, f) <= DelayBy(cfg, w, h, f) {
      ProcessDelayBy(cfg, w, g, env, h, f);
    }
    DelayDrops(cfg, w, w', w.features, g, f);
  }

  /** The wait of `f` is over, or goes on with at most as much before it. */
  predicate Nearer(cfg: Config, w: World, w': World, onboarded: seq<string>, f: Feature, strictly: bool) {
    || Count(w', Claimed(f.id)) == Count(w, Claimed(f.id)) + 1
    || (&& Count(w', Claimed(f.id)) == Count(w, Claimed(f.id))
        && Eligible(cfg, w', onboarded, f) && DistinctIds(w'.features)
        && Delay(cfg, w', w'.features, f) <= Delay(cfg, w, w.features, f) - if strictly then 1 else 0)
  }

  /** Any tick at all: busy or not, whatever calls fail. */
  lemma TickBringsNearer(cfg: Config, w: World, onboarded: seq<string>, env: Env, f: Feature)
    requires DistinctIds(w.features) && Eligible(cfg, w, onboarded, f)
    ensures Nearer(cfg, w, Tick(cfg, w, onboarded, env), onboarded, f, Claiming(Idle(env), f))
  {
    var candidates := Candidates(cfg, w, onboarded, env);
    CandidatesAre(cfg, w, onboarded, env, f);
    if !env.queueBusy && candidates != [] {
      PickedIsCandidate(cfg, w, onboarded, env);
      PickIsFirst(candidates);
      var g := Pick(candidates);
      ProcessLogs(cfg, w, g, env, Claimed(f.id));
      ProcessSets(cfg, w, g, env);
      if env.claimFails {
        SameDelay(cfg, w, Process(cfg, w, g, env), w.features, f);
      } else if g.id != f.id {
        ProcessDelays(cfg, w, g, env, f);
        if Claiming(Idle(env), f) { ClaimShortens(cfg, w, g, env, f); }
      }
    }
  }

  lemma {:induction false} SameDelay(cfg: Config, w: World, w': World, features: seq<Feature>, f: Feature)
    requires w'.status == w.status && w'.failures == w.failures
    ensures Delay(cfg, w', features, f) == Delay(cfg, w, features, f)
  {
    if features != [] { SameDelay(cfg, w, w', features[1..], f); }
  }

  lemma {:induction false} DelayAppends(cfg: Config, w: World, features: seq<Feature>, g: Feature, f: Feature)
    ensures Delay(cfg, w, features + [g], f) == Delay(cfg, w, features, f) + DelayBy(cfg, w, g, f)
  {
    if features == [] {
      assert [] + [g] == [g];
      assert [g][1..] == [];
    } else {
      assert (features + [g])[1..] == features[1..] + [g];
      DelayAppends(cfg, w, features[1..], g, f);
    }
  }

  /** What may happen between the ticks: anything but a new, freed or pardoned feature that ranks
      before `f`. */
  predicate LeavesOrder(w: World, step: Step, f: Feature) {
    match step
    case Idle(_) => true
    case Ship(_) => true
    case Arrive(g) => !Before(g, f)
    case Unstick(id) => forall g :: g in w.features && g.id == id ==> !Before(g, f)
    case Forget(id) => forall g :: g in w.features && g.id == id ==> !Before(g, f)
  }

  lemma ArrivalKeepsWait(cfg: Config, w: World, onboarded: seq<string>, g: Feature, f: Feature)
    requires DistinctIds(w.features) && Eligible(cfg, w, onboarded, f) && CanStep(w, Arrive(g)) && !Before(g, f)
    ensures Nearer(cfg, w, Next(cfg, w, onboarded, Arrive(g)), onboarded, f, false)
  {
    var w' := Next(cfg, w, onboarded, Arrive(g));
    DelayAppends(cfg, w', w.features, g, f);
    DelayDrops(cfg, w, w', w.features, f, f);
  }

  lemma OthersKeepWait(cfg: Config, w: World, onboarded: seq<string>, step: Step, f: Feature)
    requires DistinctIds(w.features) && Eligible(cfg, w, onboarded, f) && CanStep(w, step) && LeavesOrder(w, step, f)
    requires step.Ship? || step.Unstick? || step.Forget?
    ensures Nearer(cfg, w, Next(cfg, w, onboarded, step), onboarded, f, false)
  {
    var w' := Next(cfg, w, onboarded, step);
    forall h | h in w.features ensures DelayBy(cfg, w', h, f) <= DelayBy(cfg, w, h, f) {}
    DelayDrops(cfg, w, w', w.features, f, f);
    if step.Unstick? { CountLog(w.(status := w.status[step.id := Backlog]), [Unstuck(step.id)], Claimed(f.id)); }
  }

  lemma StepBringsNearer(cfg: Config, w: World, onboarded: seq<string>, step: Step, f: Feature)
    requires DistinctIds(w.features) && Eligible(cfg, w, onboarded, f) && CanStep(w, step) && LeavesOrder(w, step, f)
    ensures Nearer(cfg, w, Next(cfg, w, onboarded, step), onboarded, f, Claiming(step, f))
  {
    match step
    case Idle(env) => TickBringsNearer(cfg, w, onboarded, env, f);
    case Arrive(g) => ArrivalKeepsWait(cfg, w, onboarded, g, f);
    case _ => OthersKeepWait(cfg, w, onboarded, step, f);
  }

  /** A run of ticks and other activity that puts nothing new before `f`. */
  predicate OrderedRun(cfg: Config, w: World, onboarded: seq<string>, run: seq<Step>, f: Feature)
    decreases run
  {
    run == [] ||
    (CanStep(w, run[0]) && LeavesOrder(w, run[0], f) && OrderedRun(cfg, Next(cfg, w, onboarded, run[0]), onboarded, run[1..], f))
  }

  function ClaimingTicks(run: seq<Step>, f: Feature): nat {
    if run == [] then 0 else (if Claiming(run[0], f) then 1 else 0) + ClaimingTicks(run[1..], f)
  }

  lemma AfterFirst(cfg: Config, w: World, onboarded: seq<string>, run: seq<Step>, n: nat)
    requires n < |run|
    ensures After(cfg, w, onboarded, run[..n + 1]) == After(cfg, Next(cfg, w, onboarded, run[0]), onboarded, run[1..][..n])
  {
    assert run[..n + 1][0] == run[0] && run[..n + 1][1..] == run[1..][..n];
  }

  lemma AfterNothing(cfg: Config, w: World, onboarded: seq<string>, run: seq<Step>)
    ensures After(cfg, w, onboarded, run[..0]) == w
  {
  }

  lemma {:induction false} ClaimedWithin(cfg: Config, w: World, onboarded: seq<string>, run: seq<Step>, f: Feature) returns (n: nat)
    requires DistinctIds(w.features) && Eligible(cfg, w, onboarded, f) && OrderedRun(cfg, w, onboarded, run, f)
    requires ClaimingTicks(run, f) > Delay(cfg, w, w.features, f)
    ensures 0 < n <= |run| && Count(After(cfg, w, onboarded, run[..n]), Claimed(f.id)) == Count(w, Claimed(f.id)) + 1
    decreases run
  {
    var w' := Next(cfg, w, onboarded, run[0]);
    StepBringsNearer(cfg, w, onboarded, run[0], f);
    n := 0;
    if Count(w', Claimed(f.id)) == Count(w, Claimed(f.id)) {
      n := ClaimedWithin(cfg, w', onboarded, run[1..], f);
    } else {
      AfterNothing(cfg, w', onboarded, run[1..]);
    }
    ClaimedLater(cfg, w, w', onboarded, run, Claimed(f.id), n);
    n := n + 1;
  }

  lemma ClaimedLater(cfg: Config, w: World, w': World, onboarded: seq<string>, run: seq<Step>, e: Event, n: nat)
    requires n < |run| && w' == Next(cfg, w, onboarded, run[0])
    ensures Count(After(cfg, w, onboarded, run[..n + 1]), e) == Count(After(cfg, w', onboarded, run[1..][..n]), e)
  {
    AfterFirst(cfg, w, onboarded, run, n);
  }

  /** Backlog progress: with r features ranked before it, an eligible feature is claimed by the time
      r * max_plan_failures + 1 claiming ticks have passed, whatever plans, filings and releases
      fail, and whatever busy or failing ticks and other activity come in between. */
  lemma BacklogProgresses(cfg: Config, w: World, onboarded: seq<string>, run: seq<Step>, f: Feature)
    requires DistinctIds(w.features) && Eligible(cfg, w, onboarded, f) && OrderedRun(cfg, w, onboarded, run, f)
    requires ClaimingTicks(run, f) > RankOf(w.features, f) * cfg.maxPlanFailures
    ensures exists n :: 0 < n <= |run| && Count(After(cfg, w, onboarded, run[..n]), Claimed(f.id)) == Count(w, Claimed(f.id)) + 1
  {
    DelayIsBounded(cfg, w, w.features, f);
    var n := ClaimedWithin(cfg, w, onboarded, run, f);
  }
}
