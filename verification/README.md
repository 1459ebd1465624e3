# crew: a verified model of the factory's runtime logic

`packages/crew` is the part of the factory that runs unattended: it picks what an idle worker
does next, turns findings and issues into tickets, plans backlog features, selects the lore a
ticket's context carries, and drives an agent from claim to review. This project models that
logic in Dafny and proves what it guarantees over every input, every run and, for the
maintenance cursor, every interleaving of workers.

Code that changes state step by step (loops over maps, stores, the lock and cursor files) is
modelled as methods and classes, each proved against a specification function; the guarantees
are lemmas about those functions. Everything the code asks the outside for (memory, the
planner, `gh`, CI, the agent runtime, clocks, saves that may fail) is a parameter, so each
guarantee holds for every answer.

| file | models |
|---|---|
| `MaintenanceLane.dfy` | the maintenance-lane choice as a pure step: ranking, sanitiser, no-repeat guard, fairness over runs |
| `MaintenanceCommit.dfy` | the commit protocol of the lane cursor: lock file, re-read, rename, retries, stale-lock reclaim, crashes, any number of workers |
| `ScopeGraph.dfy`, `ScopeLore.dfy` | the ancestor walk, and the lazy, capped lore selection against its eager specification |
| `FeatureFailures.dfy`, `FeatureBacklog.dfy` | the plan-failure ledger and the claim / plan / rollback loop |
| `TicketStore.dfy` | the in-memory ticket and claim store, with its substring identity lookups |
| `IdleScans.dfy`, `FindingDedup.dfy` | scan findings, the self-improve gate, one idle tick; de-duplication over runs |
| `Ingest.dfy` | GitHub issue ingest |
| `ImplementationLoop.dfy` | the implementation loop with its write-set classifier: which store effects can follow which gates, in one tick that may throw anywhere and over runs of ticks |
| `Duplication.dfy`, `InertKeys.dfy`, `Envelope.dfy`, `OutputCapture.dfy` | the sliding-window duplication detector, the key-sorted serialiser, the quarantine envelope, the byte-capped output capture |
| `Prelude.dfy`, `Text.dfy` | shared datatypes, sequence and string facts |

Where a promise fails, the code is kept as it is, a lemma gives the failing input, and another
lemma says exactly when the promise holds:

- `reclaimStaleLock` stats and removes in two operations, and does not know whether the holder
  is alive. Two workers can end up inside the lock and one commit is lost
  (`MaintenanceCommit.ReclaimRace`). Mutual exclusion survives a reclaim if and only if the
  lock it removes has no live holder (`MaintenanceCommit.ReclaimSafetyIsExact`).
- The comment at `scopeLore.ts:83` says the highest-priority reason wins and the result is
  capped. Sources are read in another order than their bands, so a read-only repo (band 3) wins
  over a selected scope (bands 1 and 2) that returns the same record
  (`ScopeLore.ReadOnlyRepoShadowsPrimaryScope`, exactly when: `ScopeLore.BestReasonWinsIff`),
  and the cap can cut a scope's record and keep a read-only repo's
  (`ScopeLore.ReadOnlyRepoDisplacesPrimaryScope`, exactly when: `ScopeLore.CapKeepsBestIff`).
- Ticket identity is a substring test on the description (`TicketStore.LookupIs`), so
  `coverage:api` is found inside `coverage:api-gateway`, `.../issues/1` inside `.../issues/12`,
  and any identity inside a text that quotes its marker line
  (`FindingDedup.LongerKeyHidesShorter`, `FindingDedup.QuotedMarkerHides`,
  `Ingest.ShorterUrlIsLost`, `Ingest.QuotedSourceIsLost`). Uniqueness holds outright. A finding
  is suppressed by its own ticket only exactly as `FindingDedup.OwnTicketRuleIff` says; an issue
  of an unchanging list gets its ticket exactly as `Ingest.IngestConverges` says.
- `isInsideRoot` is documented to be true at or under the root. A name below the root that starts
  with two dots makes it false (`ImplementationLoop.DottedNameIsOutside`, exactly when:
  `ImplementationLoop.InsideIff`); such a change is blocked, never let through.
- A finding key joins loop, repo and signature with colons. A colon in a repo name lets two findings
  share a key, exactly as `IdleScans.KeysAgreeIff` says.
- The implementation loop reports the agent's own status for the tick
  (`ImplementationLoop.UnsubmittedIsReported`), which is true of the ticket exactly as
  `ImplementationLoop.ReportedStatusIsTrueIff` says.

## Model

The results come first; the last rows are the contracts of the methods they rest on.

| member | source | states |
|---|---|---|
| `MaintenanceLane.ChooseIsBest` | packages/crew/src/loops/maintenanceLane.ts:153-206 | without naming a sort: no lane only when none is enabled; otherwise the chosen lane is enabled and every other enabled lane ranks after it, except the one the no-repeat guard passed over |
| `MaintenanceLane.ChooseKeepsSane` | packages/crew/src/loops/maintenanceLane.ts:161-205 | from any cursor the next one has no future stamp and a tick one higher, and a corrupt cursor is treated like its sanitised form |
| `MaintenanceLane.ChooseFollowsRules` | packages/crew/src/loops/maintenanceLane.ts:136-189 | on the raw cursor: no enabled lane but the one of the previous selection was due before the chosen one, whether by never having run (a stamp from the future counts as that), by having run longer ago, or by a higher place among lanes of the same age |
| `MaintenanceLane.EnabledIff` | packages/crew/src/loops/maintenanceLane.ts:62-83 | a lane is enabled exactly when its own flag is set, lane by lane |
| `MaintenanceLane.FirstSelection` | packages/crew/src/loops/maintenanceLane.ts:104-206 | from a missing or corrupt file the first enabled lane of the fixed order is taken, at tick one |
| `MaintenanceLane.NextCursorIs` | packages/crew/src/loops/maintenanceLane.ts:161-205 | the persisted cursor: one tick later, the chosen lane stamped with it, stamps from the future dropped, all others kept |
| `MaintenanceLane.RankIsRanked` | packages/crew/src/loops/maintenanceLane.ts:176-181 | the ranking is the same lanes, ordered by staleness and then priority |
| `MaintenanceLane.RankedIsUnique` | packages/crew/src/loops/maintenanceLane.ts:176-181 | the comparator leaves only one possible ranking of a set of lanes |
| `MaintenanceLane.StampRotates` | packages/crew/src/loops/maintenanceLane.ts:176-205 | stamping a lane moves it to the back of the ranking and moves nothing else |
| `MaintenanceLane.PassingOver` | packages/crew/src/loops/maintenanceLane.ts:176-189 | a selection never takes a lane that ran since an enabled waiting lane did, unless the guard passes the waiting lane itself over |
| `MaintenanceLane.WaitingIsShort` | packages/crew/src/loops/maintenanceLane.ts:153-206 | while an enabled lane waits, every selection takes a lane not taken since, so at most six selections pass |
| `MaintenanceLane.NoLaneStarves` | packages/crew/src/loops/maintenanceLane.ts:117-206 | from any cursor, corrupt ones included, a lane that stays enabled is chosen within seven selections, however the other flags toggle |
| `MaintenanceLane.RingIsEnabledLanes` | packages/crew/src/loops/maintenanceLane.ts:162-189 | the service order from a cursor lists every enabled lane exactly once |
| `MaintenanceLane.RingTurns` | packages/crew/src/loops/maintenanceLane.ts:161-205 | a selection takes the head of the service order and turns the order by one |
| `MaintenanceLane.RoundRobin` | packages/crew/src/loops/maintenanceLane.ts:161-205 | with fixed flags, selection i is entry i modulo n of the service order |
| `MaintenanceLane.RoundRobinPeriod` | packages/crew/src/loops/maintenanceLane.ts:161-205 | with n lanes enabled, selection i + n equals selection i |
| `MaintenanceLane.RoundRobinServesAll` | packages/crew/src/loops/maintenanceLane.ts:161-205 | any n consecutive selections serve each enabled lane exactly once |
| `MaintenanceLane.GuardNeedsForeignCursor` | packages/crew/src/loops/maintenanceLane.ts:183-189 | on a cursor this scheduler wrote, the no-repeat guard cannot fire |
| `MaintenanceLane.OwnCursorsNeedNoDefence` | packages/crew/src/loops/maintenanceLane.ts:128-189 | on every cursor reachable from the empty one: stamps are distinct and not in the future, sanitiser and clamp are identities, the guard is silent, and the choice is plain least-recently-run |
| `MaintenanceCommit.StepKeepsInvariant` | packages/crew/src/loops/maintenanceLane.ts:293-357 | every file operation and every crash keeps: a critical worker owns the lock, the file is the last commit, each commit was chosen from the one before, loaded cursors are current, attempts are bounded |
| `MaintenanceCommit.MutualExclusion` | packages/crew/src/loops/maintenanceLane.ts:293-357 | in every interleaving whose reclaims remove no live holder's lock, at most one worker is between acquiring and releasing |
| `MaintenanceCommit.CommitsAreSerial` | packages/crew/src/loops/maintenanceLane.ts:293-322 | the commits of all workers, in rename order, are one sequential run of the scheduler, and the file holds its last cursor: no commit is lost |
| `MaintenanceCommit.CommitTicksAreDistinct` | packages/crew/src/loops/maintenanceLane.ts:293-322 | the i-th commit carries tick i + 1 past the start, so no two share one |
| `MaintenanceCommit.EachCallCommitsOnce` | packages/crew/src/loops/maintenanceLane.ts:297-321 | a call that returned a choice is exactly one commit of that choice; one that used up its eight attempts, or whose save failed, is none |
| `MaintenanceCommit.CommittedLanesDoNotStarve` | packages/crew/src/loops/maintenanceLane.ts:276-322 | of any seven consecutive commits by callers that all enable a lane, one runs it |
| `MaintenanceCommit.ReclaimRace` | packages/crew/src/loops/maintenanceLane.ts:350-357 | a concrete interleaving of three workers in which a reclaim removes a fresh lock, two workers commit the same choice with the same tick, and one commit is lost |
| `MaintenanceCommit.UnsafeReclaimBreaksExclusion` | packages/crew/src/loops/maintenanceLane.ts:350-357 | whenever a reclaim removes a live holder's lock, one newcomer makes two critical workers |
| `MaintenanceCommit.ReclaimSafetyIsExact` | packages/crew/src/loops/maintenanceLane.ts:286-357 | a reclaim keeps mutual exclusion in every otherwise safe continuation if and only if the lock it removes has no live holder |
| `MaintenanceCommit.FiveSecondsAreSafe` | packages/crew/src/loops/maintenanceLane.ts:270-357 | within five seconds of any unlocked moment, with no hypothesis on reclaims: whatever the workers do and however many crash, exclusion and serial commits hold |
| `MaintenanceCommit.StatDecides` | packages/crew/src/loops/maintenanceLane.ts:350-357 | a contended worker that stats the lock gets to remove it exactly when it is more than 5000 ms old; a younger lock stays, and either way one attempt is used up |
| `MaintenanceCommit.OldLockIsRecovered` | packages/crew/src/loops/maintenanceLane.ts:286-357 | whoever left a lock more than 5000 ms ago, a newcomer removes it, gets the lock and reads the cursor at its second attempt |
| `MaintenanceCommit.AtMostEightAttempts` | packages/crew/src/loops/maintenanceLane.ts:269-301 | however the workers interleave, one call tries to create the lock file at most eight times |
| `MaintenanceCommit.EveryCallEnds` | packages/crew/src/loops/maintenanceLane.ts:293-322 | whatever the other workers do, a call is over after at most 31 file operations of its own |
| `MaintenanceCommit.NobodyIsStuck` | packages/crew/src/loops/maintenanceLane.ts:293-322 | until a call is over some operation of its own is possible; with eight attempts used it gives up with the cursor as it is then |
| `MaintenanceCommit.CursorDirectory.CommitMaintenanceChoice` | packages/crew/src/loops/maintenanceLane.ts:293-322 | the retry loop: which attempt gets the lock, that the choice is made on the cursor found then and stored, that a failed save changes nothing, and that eight failed attempts leave the file as found; the lock is always released |
| `MaintenanceCommit.StaleLockIsRecovered` | packages/crew/src/loops/maintenanceLane.ts:271-301 | with nobody else active, a left-over lock is gone at the second attempt exactly when it was older than the limit at the first |
| `ScopeGraph.ContainersAreEdges` | packages/crew/src/memory/scopeLore.ts:199-209 | the parent list of a scope holds exactly the sources of the `contains` edges into it |
| `ScopeGraph.NeighboursAreEdges` | packages/crew/src/memory/scopeLore.ts:199-209 | the edge list of a scope holds exactly the targets and relations of the edges out of it that are not `contains` |
| `ScopeGraph.BuildScopeGraphView` | packages/crew/src/memory/scopeLore.ts:190-209 | the two maps built by the edge loop give, for every scope, its containers and its other out-edges in edge order |
| `ScopeGraph.AncestorsOf` | packages/crew/src/memory/scopeLore.ts:211-226 | on any graph, cycles included, the walk ends and yields exactly the strict ancestors, each once, in non-decreasing shortest distance |
| `ScopeLore.CollectWhenFull` | packages/crew/src/memory/scopeLore.ts:94-112 | a full collection is not changed by anything ingested later |
| `ScopeLore.CollectIsCutFirstById` | packages/crew/src/memory/scopeLore.ts:90-96 | collecting under the cap is de-duplicating everything and then cutting |
| `ScopeLore.SortIsByBand` | packages/crew/src/memory/scopeLore.ts:168 | the stable sort by priority is the concatenation of the bands, discovery order inside each |
| `ScopeLore.SelectScopedLore` | packages/crew/src/memory/scopeLore.ts:86-169 | the lazy, early-stopping selection equals the eager one: all sources in ingestion order, first record per id, cut at the limit, banded |
| `ScopeLore.SelectionIs` | packages/crew/src/memory/scopeLore.ts:80-169 | at most `limit` records, no id twice, bands in order, each record the first of its id in ingestion order, and nothing missing below the limit |
| `ScopeLore.OfferedIff` | packages/crew/src/memory/scopeLore.ts:69-165 | a record is offered under a reason exactly when a query with the tags of the very repo, scope, container or neighbour the reason names found it, filtered by the repo's name for repos only, its summary redacted |
| `ScopeLore.SelectedForAReason` | packages/crew/src/memory/scopeLore.ts:86-169 | every selected record is there for the reason it states, and below the limit no record that any reason holds for is missing |
| `ScopeLore.BestReasonWinsIff` | packages/crew/src/memory/scopeLore.ts:80-131 | a selected record carries its best band exactly when a write repo returned it, or not both a read-only repo and a selected scope did |
| `ScopeLore.CapKeepsBestIff` | packages/crew/src/memory/scopeLore.ts:86-169 | no record cut off at the limit has a better band than a kept one exactly when the write repos alone fill the cap, or the read-only repos add nothing, or the scopes are through before the cap, or the scopes add nothing |
| `ScopeLore.ReadOnlyRepoShadowsPrimaryScope` | packages/crew/src/memory/scopeLore.ts:83-131 | a record returned by a read-only repo and by the primary scope is filed under the repo, not under its best band |
| `ScopeLore.ReadOnlyRepoDisplacesPrimaryScope` | packages/crew/src/memory/scopeLore.ts:83-131 | under a cap of one, a read-only repo's record is kept and a better-banded record of the primary scope is cut |
| `FeatureBacklog.TickTakesMostUrgent` | packages/crew/src/loops/idleFeatureBacklog.ts:68-194 | a tick that does anything observes, claims or fails to claim a candidate that no other is more urgent than: the lowest priority, absent last; among equals the smallest creation time, absent as empty; among those the smallest id |
| `FeatureBacklog.TickActsIff` | packages/crew/src/loops/idleFeatureBacklog.ts:137-172 | a tick does anything exactly when the queue is idle and there is a candidate |
| `FeatureBacklog.BeforeIsStrictOrder` | packages/crew/src/loops/idleFeatureBacklog.ts:80-88 | any two features are ordered one way only, or agree in priority, age and id |
| `FeatureBacklog.PickIsFirst` | packages/crew/src/loops/idleFeatureBacklog.ts:73-78 | the picked feature is one of the list and no other ranks before it |
| `FeatureBacklog.CandidatesAre` | packages/crew/src/loops/idleFeatureBacklog.ts:91-130 | a feature may be picked exactly when it is in the backlog, below the failure cap, in an onboarded and allowed repo whose listing succeeded |
| `FeatureBacklog.StepKeepsClaims` | packages/crew/src/loops/idleFeatureBacklog.ts:179-349 | every tick and every outside step keeps: each claim bought one planner call and ended in an epic, a rollback or a recorded rollback failure, and status agrees with which |
| `FeatureBacklog.TickBringsNearer` | packages/crew/src/loops/idleFeatureBacklog.ts:137-266 | any tick at all claims a waiting feature or leaves it eligible with at most as much before it, and strictly less after a claiming tick |
| `FeatureBacklog.NothingIsStranded` | packages/crew/src/loops/idleFeatureBacklog.ts:174-266 | over any run, a feature the loop left in `building` has exactly one epic or one open rollback failure, and one in the backlog has neither |
| `FeatureBacklog.ObservingChangesNothing` | packages/crew/src/loops/idleFeatureBacklog.ts:164-169 | in `observe_only` no run of ticks changes a status, a count or an epic |
| `FeatureBacklog.PlannerSpendIsBounded` | packages/crew/src/loops/idleFeatureBacklog.ts:118-301 | over any run with a writable ledger, planner calls on a feature never exceed `max_plan_failures` between two clears, and `max_plan_failures` more per filed epic |
| `FeatureBacklog.DoomedRunsTerminate` | packages/crew/src/loops/idleFeatureBacklog.ts:118-301 | if every plan fails, calls made plus allowance left is constant, so calls end and every later tick makes none |
| `FeatureBacklog.ClaimedWithin` | packages/crew/src/loops/idleFeatureBacklog.ts:80-266 | over any run that puts nothing new before it, an eligible feature is claimed before the claiming ticks outnumber the attempts its predecessors can still use |
| `FeatureBacklog.BacklogProgresses` | packages/crew/src/loops/idleFeatureBacklog.ts:80-266 | a feature with r others ranked before it is claimed by the time r times `max_plan_failures` + 1 claiming ticks have passed, whatever plans, filings and releases fail and whatever busy or failing ticks and other activity come in between |
| `TicketStore.FindFirstIs` | packages/crew/src/dispatch/fakeClient.ts:545-557 | a lookup answers exactly when some ticket, not terminal where that counts, has a description containing the needle |
| `TicketStore.FindFirstAnswers` | packages/crew/src/dispatch/fakeClient.ts:545-557 | the answer is the first ticket that matches |
| `TicketStore.LookupsAre` | packages/crew/src/dispatch/fakeClient.ts:24-557 | with the texts and statuses spelled out: a key is found in a description holding "Finding-Key: " and the key of a ticket neither done, closed nor cancelled, a URL in any description holding "Source: " and the URL |
| `TicketStore.FirstReady` | packages/crew/src/loops/implementationLoop.ts:225 | the ready list starts with the first ready ticket of the store, and is empty exactly when there is none |
| `TicketStore.MarkerOccursWhere` | packages/crew/src/dispatch/fakeClient.ts:522-557 | in any marked description a marker followed by newline-free text occurs inside the text, at the marker line, or inside the identity, and never across them |
| `TicketStore.LookupIs` | packages/crew/src/dispatch/fakeClient.ts:545-557 | for any text and identity, the substring lookup matches a marked description exactly when the identity looked for is a prefix of the one in it, or the text or the identity quotes a marker line of it |
| `IdleScans.FindingKeepsInvariant` | packages/crew/src/loops/idleScans.ts:98-227 | one finding keeps: old tickets untouched, every readied ticket honoured and recorded, gate promotions within the count |
| `IdleScans.LoopsKeepInvariant` | packages/crew/src/loops/idleRegistry.ts:127-152 | the same over all loops of a tick |
| `IdleScans.TickIsBounded` | packages/crew/src/loops/idleRegistry.ts:127-152 | per tick, tickets readied through the gate number at most its count, which is at most the cap, all in admitted repos; every newly ready ticket carries exactly the oracle criterion |
| `IdleScans.GateRespectsRisk` | packages/crew/src/loops/selfImprove.ts:15-79 | over a whole tick: what the gate readied is in an opted-in repo of a risk within the limit, level by level, an unknown risk being within no known limit; every readied ticket carries the oracle with the repo's own test command |
| `IdleScans.ReadiedIff` | packages/crew/src/loops/idleScans.ts:98-227 | a finding is readied, and a unit of the cap used, exactly when it is new, the store takes the writes, and the mode says ready, or the mode says draft and repo list, risk limit and remaining cap allow it |
| `IdleScans.KeysAgreeIff` | packages/crew/src/loops/idleScans.ts:7-17 | keys of one loop agree exactly for the same repo and signature, or when a colon in a repo name lets one pair be read as another |
| `IdleScans.PlainRepoKeysDiffer` | packages/crew/src/loops/idleScans.ts:7-17 | with repo names free of colons, equal keys mean the same repo and signature |
| `IdleScans.OneLoopReadies` | packages/crew/src/loops/idleScans.ts:282-289 | all tickets readied in one tick come from one loop, because the next one finds the queue busy |
| `FindingDedup.AtMostOneOpenTicket` | packages/crew/src/loops/idleScans.ts:115-139 | after any run of scans and other activity each key has at most one open ticket, whatever keys and texts are |
| `FindingDedup.SuppressedIff` | packages/crew/src/dispatch/fakeClient.ts:551-557 | in any store a run can leave, epic tickets included, a key is suppressed exactly when some open ticket's key extends it or some open ticket quotes its marker line |
| `FindingDedup.OwnTicketRuleIff` | packages/crew/src/dispatch/fakeClient.ts:551-557 | suppression is by the own ticket exactly when that ticket is open, or no other open ticket's key extends the key or quotes its marker line |
| `FindingDedup.NextSightingIff` | packages/crew/src/loops/idleScans.ts:115-139 | after any run from an empty store, the next sighting is dropped exactly when the own ticket is open or another open ticket hides it, and drafted otherwise |
| `FindingDedup.ResolvedFindingsReturn` | packages/crew/src/loops/idleScans.ts:115-139 | over any run whose steps hide none of a set of keys, by prefix or by quotation, a finding of the set is suppressed exactly while its own ticket is open and drafted again once that is resolved |
| `FindingDedup.SecondIsDraftedIff` | packages/crew/src/loops/idleScans.ts:7-156 | of two new findings of one repo with different signatures the first is drafted, and the second exactly when its signature does not start the first one's and the first quotes no marker line of it |
| `FindingDedup.LongerKeyHidesShorter` | packages/crew/src/dispatch/fakeClient.ts:551-557 | the open ticket of `coverage:api-gateway` suppresses `coverage:api`, which has none |
| `FindingDedup.QuotedMarkerHides` | packages/crew/src/dispatch/fakeClient.ts:551-557 | a text quoting another finding's marker line suppresses that finding |
| `Ingest.RepoConserves` | packages/crew/src/ingest/githubIssues.ts:138-196 | per repo, tickets created are those ingested plus at most one that lost its relabel, and without such a loss every listed issue is ingested or found |
| `Ingest.PassConserves` | packages/crew/src/ingest/githubIssues.ts:117-205 | per pass, each counter is the number of repos of its kind: without a remote, with a failed listing, with a pass cut short by a failed relabel; and tickets created are those ingested plus one per relabel error |
| `Ingest.DraftTells` | packages/crew/src/ingest/core.ts:79-83 | a draft's description is the issue's body, a line with its non-empty labels separated by commas if there are any, and the source line |
| `Ingest.NoUrlTwice` | packages/crew/src/ingest/core.ts:71-92 | over any run of passes and other activity no URL ever has two tickets |
| `Ingest.DedupedIff` | packages/crew/src/dispatch/fakeClient.ts:545-549 | in any store a run can leave, an issue counts as ingested exactly when some ticket's URL extends its own or some ticket quotes its source line |
| `Ingest.OwnTicketRuleIff` | packages/crew/src/ingest/core.ts:66-77 | an issue counts as ingested only by its own ticket exactly when it has one, or no other ticket covers its URL |
| `Ingest.LostStaysLost` | packages/crew/src/ingest/core.ts:71-92 | over any run, an issue that counts as ingested without a ticket of its own never gets one |
| `Ingest.RepoWorks` | packages/crew/src/ingest/githubIssues.ts:141-196 | from any point of the list, a pass skips what was worked through and takes the store at least one issue further, stopping one issue after a failed relabel |
| `Ingest.PassWorks` | packages/crew/src/ingest/githubIssues.ts:117-197 | a whole pass over all repos takes the list at least one issue further, whichever relabels fail |
| `Ingest.IngestConverges` | packages/crew/src/ingest/githubIssues.ts:117-197 | from any store and for any URLs and texts: with an unchanging list, n passes give each of its first n issues a ticket if and only if it had one or the list drafts it, that is, no earlier drafted issue hides it; no URL has two |
| `Ingest.HidesIff` | packages/crew/src/ingest/core.ts:79-83 | an issue's draft hides a URL exactly when its own URL extends it or its body or URL quotes the source line |
| `Ingest.DraftsIff` | packages/crew/src/ingest/githubIssues.ts:141-158 | for such a list, an issue is drafted exactly when no earlier listed URL extends its own |
| `Ingest.PlainListConverges` | packages/crew/src/ingest/githubIssues.ts:117-197 | for distinct URLs that no other listed issue quotes, an issue ends with its own ticket if and only if no earlier listed URL extends its own |
| `Ingest.ShorterUrlIsLost` | packages/crew/src/dispatch/fakeClient.ts:545-549 | once issue 12 has a ticket, issue 1 counts as ingested, and no run ever gives it a ticket |
| `Ingest.QuotedSourceIsLost` | packages/crew/src/dispatch/fakeClient.ts:545-549 | a body that quotes another issue's source line makes that issue count as ingested, and no run ever gives it a ticket |
| `ImplementationLoop.SubmissionsAreGated` | packages/crew/src/loops/implementationLoop.ts:454-581 | over any run of ticks and other activity, a submission in the log belongs to a tick whose gates were all open, and directly follows that tick's own claim, deliveries and evidence |
| `ImplementationLoop.DeliveriesAreInWriteSet` | packages/crew/src/loops/implementationLoop.ts:337-406 | over any run, a delivery artifact, repo delivery or submission in the log belongs to a tick for that ticket each of whose changed paths lies at or below the known path of one of its write repos, and a repo delivered to is one of its write repos |
| `ImplementationLoop.OneVerdictPerClaim` | packages/crew/src/loops/implementationLoop.ts:316-581 | over any run, one claim comes to at most one submission or block |
| `ImplementationLoop.RunLogs` | packages/crew/src/loops/implementationLoop.ts:252-270 | the log of a run is the log of its ticks, one after the other, each under a claim token of its own |
| `ImplementationLoop.OnlyOwnTicket` | packages/crew/src/loops/implementationLoop.ts:252-262 | however far a tick gets, it changes only the ticket shown to `before_claim`, and every effect is for that ticket under its own claim |
| `ImplementationLoop.DeliveryNeedsWriteSet` | packages/crew/src/loops/implementationLoop.ts:337-406 | for every prefix of a tick, a delivery effect needs every changed path to lie at or below the known path of a write repo, and goes to a write repo |
| `ImplementationLoop.AccessIs` | packages/crew/src/loops/implementationLoop.ts:668-694 | a path is writable exactly when it belongs to a write repo, and otherwise readable exactly when it belongs to a read-only or test repo |
| `ImplementationLoop.InsideIff` | packages/crew/src/safety/rootAccess.ts:38-42 | "at or strictly under the root" is answered correctly exactly unless the first name below the root starts with two dots |
| `ImplementationLoop.DottedNameIsOutside` | packages/crew/src/safety/rootAccess.ts:38-42 | a path through a directory `..cache` of the repo is judged outside it |
| `ImplementationLoop.BranchNames` | packages/crew/src/loops/implementationLoop.ts:708-711 | a suggested branch is taken as it is; otherwise prefix, "ticket-" and the ticket's number in decimal, so two tickets never share a branch |
| `ImplementationLoop.VerdictIsLast` | packages/crew/src/loops/implementationLoop.ts:468-581 | the only verdict of a tick is its last effect, and it is a submission exactly behind every gate |
| `ImplementationLoop.SubmittedIff` | packages/crew/src/loops/implementationLoop.ts:454-581 | a tick submits exactly when every gate is open and nothing throws before, with everything else before it; it blocks exactly when a gate held it back |
| `ImplementationLoop.OneDeliveryPerWriteRepo` | packages/crew/src/loops/implementationLoop.ts:374-386 | however far a tick gets, it delivers to the write repos once each, in order, and to no other; to all of them when it gets through |
| `ImplementationLoop.StatusFollowsTrace` | packages/crew/src/loops/implementationLoop.ts:316-581 | however far a tick gets, its ticket is in review exactly when submitted, blocked exactly when marked so, and claimed otherwise |
| `ImplementationLoop.ReportedStatusIsTrueIff` | packages/crew/src/loops/implementationLoop.ts:513-654 | a finished tick's report is true of the ticket's final status exactly when the ticket was blocked, or submission is configured just for agents that report it |
| `ImplementationLoop.UnsubmittedIsReported` | packages/crew/src/loops/implementationLoop.ts:513-654 | with submission off, an agent that says "submitted for review" makes the tick report the ticket in review while it is still claimed |
| `ImplementationLoop.RunImplementationLoop` | packages/crew/src/loops/implementationLoop.ts:214-654 | a veto, an empty queue or a failed claim changes nothing; otherwise exactly the preselected ticket is claimed and worked, for every answer of hooks, git, agent, PR creation and CI, and for a throw at any point |
| `ImplementationLoop.FinishTicket` | packages/crew/src/loops/implementationLoop.ts:316-654 | after the agent's run: blocked, or delivered, checked and closed, as far as nothing throws |
| `ImplementationLoop.FindOutsideWriteSet` | packages/crew/src/loops/implementationLoop.ts:683-694 | the paths reported are exactly the changed ones that belong to no write repo, as `read` exactly when they belong to a read-only or test repo; none exactly when the tick stayed in its write set |
| `ImplementationLoop.CreateBranches` | packages/crew/src/loops/implementationLoop.ts:727-752 | a branch in each write repo with a path, or in the primary repo when the packet names none, in order, until git fails |
| `Duplication.LinesArePlain` | packages/crew/src/loops/idleTechDebt.ts:119-121 | splitting at newlines leaves lines without newlines |
| `Duplication.JoinIsInjective` | packages/crew/src/loops/idleTechDebt.ts:124 | equal newline-joined keys come from equal windows, for windows of one length without newlines |
| `Duplication.TallyIs` | packages/crew/src/loops/idleTechDebt.ts:125-128 | an entry exists exactly for occurring keys, names exactly the files they occur in, and counts two exactly for two occurrences |
| `Duplication.TwiceIsDuplicated` | packages/crew/src/loops/idleTechDebt.ts:132-139 | a key seen at two places is the key of a window that occurs at two places |
| `Duplication.ClusterKeyIs` | packages/crew/src/loops/idleTechDebt.ts:134-143 | the cluster keys of a file are exactly the keys of its duplicated windows |
| `Duplication.ClustersAreDuplicates` | packages/crew/src/loops/idleTechDebt.ts:132-143 | a file has clusters exactly when it holds a duplicated window, as many as distinct ones |
| `Duplication.TrimIff` | packages/crew/src/loops/idleTechDebt.ts:121 | trimming leaves the one text without outer white space that the line wraps in white space |
| `Duplication.DuplicatedIff` | packages/crew/src/loops/idleTechDebt.ts:112-131 | on the raw lines: a block of ten is duplicated exactly when at least four lines have text on them and ten lines elsewhere are the same but for the white space around them, so re-indenting a copy does not hide it |
| `Duplication.DetectDuplication` | packages/crew/src/loops/idleTechDebt.ts:112-156 | the one-pass detector meets the quadratic specification: a file is reported exactly when a window of its own with enough content occurs at another place, with the number of distinct such windows |
| `InertKeys.EscapeIsPrefixFree` | packages/crew/src/config/inertKeys.ts:126-129 | no character's JSON escape is the start of another's |
| `InertKeys.QuotesDecode` | packages/crew/src/config/inertKeys.ts:126-129 | a quoted string tells where it ends and what it holds |
| `InertKeys.QuoteReads` | packages/crew/src/config/inertKeys.ts:126-129 | a quoted string reads back as the string by the grammar of RFC 8259, section 7, whatever follows it |
| `InertKeys.Decodes` | packages/crew/src/config/inertKeys.ts:121-130 | the serialisation is uniquely decodable, whatever a value can be followed by |
| `InertKeys.SortedKeysAgree` | packages/crew/src/config/inertKeys.ts:124-125 | objects with the same keys list them in the same order once sorted |
| `InertKeys.SameSerialise` | packages/crew/src/config/inertKeys.ts:120-130 | values equal up to object key order serialise alike |
| `InertKeys.StableIsCanonical` | packages/crew/src/config/inertKeys.ts:120-130 | two values serialise alike exactly when they are equal up to object key order |
| `InertKeys.DeliberateIff` | packages/crew/src/config/inertKeys.ts:142-147 | a setting is deliberate exactly when it differs from every untouched value |
| `Envelope.MatchRestIff` | packages/crew/src/eval/deliveryJudge.ts:91 | what the pattern matches, read off the text: bracket, white space, at most one slash, white space, "untrusted-" in any mixture of cases, letters of either case, digits or hyphens, white space, bracket, rest |
| `Envelope.NeutraliseIsEscapeTags` | packages/crew/src/eval/deliveryJudge.ts:92 | the pass writes exactly the brackets that start a tag as `&lt;` and keeps every other character |
| `Envelope.OwnTagMatches` | packages/crew/src/eval/deliveryJudge.ts:91-93 | the envelope's own opening and closing tags are matches of the pattern |
| `Envelope.NoNewTag` | packages/crew/src/eval/deliveryJudge.ts:91-93 | a `<` that starts no tag starts none after the pass, whatever text follows |
| `Envelope.NoTagSurvives` | packages/crew/src/eval/deliveryJudge.ts:81-93 | one replacement pass leaves no tag in the body and none straddling its end |
| `Envelope.EnvelopeHasTwoTags` | packages/crew/src/eval/deliveryJudge.ts:81-93 | for every body the envelope holds exactly two tags: its opening one at the start and its closing one at the end |
| `Envelope.NeutraliseIsIdempotent` | packages/crew/src/eval/deliveryJudge.ts:91-92 | a second pass changes nothing, and the first changes a text exactly when it holds a tag |
| `Envelope.ScanCountsPositions` | packages/crew/src/eval/deliveryJudge.ts:91-92 | tags cannot overlap, so a global scan reports every position a tag starts at, and each costs three characters |
| `Text.LessIff` | packages/crew/src/loops/idleFeatureBacklog.ts:85-87 | one string is less than another exactly when, where they first part, it has ended or has the smaller character |
| `Text.IsSpaceIff` | packages/crew/src/loops/idleTechDebt.ts:121 | white space is one of the 25 code points ECMAScript lists |
| `OutputCapture.OnStreamAppends` | packages/crew/src/adapters/commandRunner.ts:43-49 | what one stream keeps is collected piece by piece in arrival order |
| `OutputCapture.ChunkIsKept` | packages/crew/src/adapters/commandRunner.ts:43-47 | of one more chunk exactly what fits under the cap is kept, on its own stream |
| `OutputCapture.StreamsShareLog` | packages/crew/src/adapters/commandRunner.ts:40-46 | the two buffers share out the kept bytes |
| `OutputCapture.Capture.Take` | packages/crew/src/adapters/commandRunner.ts:43-47 | after every chunk the buffers hold the first `maxBuffer` bytes of everything that arrived, split by stream, and the group is killed exactly when something was cut |
| `OutputCapture.RunCommand` | packages/crew/src/adapters/commandRunner.ts:101-141 | a run is a success exactly when it exited 0, was not cut and did not time out; stdout alone then, stdout and stderr otherwise, never more than the cap |
| `OutputCapture.KeptIsPrefixPerStream` | packages/crew/src/adapters/commandRunner.ts:43-47 | each stream keeps a prefix of its own output, all of it below the cap |
| `MaintenanceLane.SanitizeCursor` | packages/crew/src/loops/maintenanceLane.ts:235-241 | the loop that fills the fresh record drops exactly the entries stamped later than the cursor's tick and keeps all others |
| `MaintenanceCommit.CursorDirectory.AcquireLock` | packages/crew/src/loops/maintenanceLane.ts:325-338 | exclusive create: succeeds exactly when no lock file exists, and then the file exists |
| `MaintenanceCommit.CursorDirectory.ReleaseLock` | packages/crew/src/loops/maintenanceLane.ts:341-347 | whatever lock file is there is gone |
| `MaintenanceCommit.CursorDirectory.ReclaimStaleLock` | packages/crew/src/loops/maintenanceLane.ts:350-357 | a lock older than five seconds is removed, any other is left |
| `ScopeGraph.VisitFrontier` | packages/crew/src/memory/scopeLore.ts:216-223 | one pass over the frontier keeps the walk's invariant one level further out and marks something new unless the walk ends |
| `ScopeLore.LoreCollector.Ingest` | packages/crew/src/memory/scopeLore.ts:90-96 | adding records until the cap leaves the same collection as offering all of them |
| `ScopeLore.LoreCollector.IngestSources` | packages/crew/src/memory/scopeLore.ts:111-131 | stopping the source loop at the cap equals querying every source |
| `ScopeLore.LoreCollector.IngestParents` | packages/crew/src/memory/scopeLore.ts:138-150 | the nested parent loops with their early exits equal collecting all parent sources |
| `ScopeLore.LoreCollector.IngestEdges` | packages/crew/src/memory/scopeLore.ts:153-165 | the nested edge loops with their early exits equal collecting all edge sources |
| `FeatureFailures.MemoryFeatureFailureStore.RecordFailure` | packages/crew/src/loops/featureBacklogFailures.ts:56-60 | one feature's count goes up by one, the new count is returned, no other count moves |
| `FeatureFailures.MemoryFeatureFailureStore.Clear` | packages/crew/src/loops/featureBacklogFailures.ts:61-63 | the feature's count is forgotten, the others stay |
| `FeatureFailures.FileFeatureFailureStore.RecordFailure` | packages/crew/src/loops/featureBacklogFailures.ts:96-102 | a corrupt or missing file counts as empty; a written file holds the raised count, the error cut to 500 characters and the time; a failed save leaves the file alone |
| `FeatureFailures.FileFeatureFailureStore.Clear` | packages/crew/src/loops/featureBacklogFailures.ts:104-109 | the entry is removed, nothing is written when it is absent, and a failed save leaves the file alone |
| `FeatureFailures.StoresAgree` | packages/crew/src/loops/featureBacklogFailures.ts:50-110 | from equal counts, the in-process and the file ledger answer and count alike |
| `FeatureBacklog.BacklogLoop.ChooseFeature` | packages/crew/src/loops/idleFeatureBacklog.ts:100-130 | the listing loop with its tolerated failures picks from exactly the candidates |
| `FeatureBacklog.BacklogLoop.RollbackClaim` | packages/crew/src/loops/idleFeatureBacklog.ts:323-349 | the feature is back in the backlog, or a rollback failure is recorded |
| `FeatureBacklog.BacklogLoop.CountPlanFailure` | packages/crew/src/loops/idleFeatureBacklog.ts:269-301 | one more failure is counted and parking is reported at the cap; a ledger that cannot be written is reported instead |
| `FeatureBacklog.BacklogLoop.ForgetPlanFailures` | packages/crew/src/loops/idleFeatureBacklog.ts:304-320 | the count is cleared, or a ledger failure is reported |
| `FeatureBacklog.BacklogLoop.ProcessFeature` | packages/crew/src/loops/idleFeatureBacklog.ts:179-266 | claim first, plan, then file and clear, or roll back and count: the whole new state for every failure |
| `FeatureBacklog.BacklogLoop.RunTick` | packages/crew/src/loops/idleFeatureBacklog.ts:137-172 | one tick: nothing on a busy queue or without candidates, only an observation in `observe_only`, otherwise one processed feature |
| `TicketStore.FakeDispatchClient.SeedTicket` | packages/crew/src/dispatch/fakeClient.ts:216-243 | one ticket with the next number is appended, nothing else changes |
| `TicketStore.FakeDispatchClient.CreateDraftTicket` | packages/crew/src/dispatch/fakeClient.ts:514-543 | one draft is appended; a non-empty finding key becomes the last line of its description |
| `TicketStore.FakeDispatchClient.AddAcceptanceCriterion` | packages/crew/src/dispatch/fakeClient.ts:593-606 | the named ticket gains the criterion, no other ticket changes |
| `TicketStore.FakeDispatchClient.MarkTicketReady` | packages/crew/src/dispatch/fakeClient.ts:583-591 | refused exactly without acceptance criteria; otherwise only that ticket's status changes |
| `TicketStore.FakeDispatchClient.ClaimTicket` | packages/crew/src/dispatch/fakeClient.ts:281-300 | succeeds exactly on a `ready` ticket, with a token never issued before |
| `TicketStore.FakeDispatchClient.SendHeartbeat` | packages/crew/src/dispatch/fakeClient.ts:347-352 | accepted exactly for a known token |
| `TicketStore.FakeDispatchClient.RecordEvidence` | packages/crew/src/dispatch/fakeClient.ts:417-440 | accepted exactly when the token was issued for the ticket, and then appended |
| `TicketStore.FakeDispatchClient.RecordDeliveryArtifact` | packages/crew/src/dispatch/fakeClient.ts:442-464 | the branch is set on the ticket and the artifact appended, with no claim check |
| `TicketStore.FakeDispatchClient.RecordRepoDelivery` | packages/crew/src/dispatch/fakeClient.ts:466-487 | the delivery row is appended and no ticket changes |
| `TicketStore.FakeDispatchClient.SubmitForReview` | packages/crew/src/dispatch/fakeClient.ts:489-499 | only under the ticket's own claim, and then only its status changes |
| `TicketStore.FakeDispatchClient.MarkBlocked` | packages/crew/src/dispatch/fakeClient.ts:501-512 | only under the ticket's own claim, and then only its status changes |
| `IdleScans.SelfImproveGate.TryPromote` | packages/crew/src/loops/selfImprove.ts:68-93 | admits exactly opted-in repos at or below the risk limit while the cap lasts, and counts one for each admission |
| `IdleScans.IdleTick.AttachOracleAndPromote` | packages/crew/src/loops/idleScans.ts:175-227 | the oracle is attached before anything is readied, a failed attach readies nothing, and the gate's unit is spent even when the ready call is refused |
| `IdleScans.IdleTick.ApplyScanFinding` | packages/crew/src/loops/idleScans.ts:98-156 | observed, suppressed by the lookup, or one draft that may be readied: the whole new state and the outcome |
| `IdleScans.IdleTick.RunIdleLoops` | packages/crew/src/loops/idleRegistry.ts:127-152 | enabled loops in order on one shared gate, each skipped when a ready ticket exists |
| `FindingDedup.ScanAdds` | packages/crew/src/loops/idleScans.ts:98-156 | a finding leaves the tickets alone or adds exactly one open ticket for its key |
| `Ingest.IngestIssueAsDraft` | packages/crew/src/ingest/core.ts:71-92 | an issue whose URL is found creates nothing; any other creates exactly one draft ending in its source line |
| `Ingest.IngestListedIssues` | packages/crew/src/ingest/githubIssues.ts:141-191 | the inner loop: drafts, relabels, and the abort at the first failed relabel |
| `Ingest.IngestGithubIssues` | packages/crew/src/ingest/githubIssues.ts:107-206 | the whole pass: skipped repos, listing errors and relabel errors of one repo do not stop the rest |
| `Duplication.ScanFile` | packages/crew/src/loops/idleTechDebt.ts:118-130 | sliding over one file adds exactly its interesting windows to the tally |
| `Duplication.ScanWindows` | packages/crew/src/loops/idleTechDebt.ts:116-130 | the hash map is the tally of all interesting windows of all files |
| `Duplication.CountClusters` | packages/crew/src/loops/idleTechDebt.ts:134-143 | each file's count is the number of cluster keys naming it, and files without any are absent |
| `Duplication.BumpAll` | packages/crew/src/loops/idleTechDebt.ts:140-142 | every named file's count goes up by one, no other count moves |
| `ImplementationLoop.WorkTicket` | packages/crew/src/loops/implementationLoop.ts:269-321 | from the claim on: a refused branch, failing git or a throwing runtime leaves only the heartbeat |
| `ImplementationLoop.RunAgent` | packages/crew/src/loops/implementationLoop.ts:306-321 | branch policy, branches and the agent's run, and then what follows it |
| `ImplementationLoop.ClaimAndWork` | packages/crew/src/loops/implementationLoop.ts:257-270 | the preselected ticket is claimed, and then worked |
| `ImplementationLoop.Deliver` | packages/crew/src/loops/implementationLoop.ts:363-446 | the clean delivery: artifact, repo rows, evidence, and a second artifact exactly when a PR URL came back, as far as nothing throws |
| `ImplementationLoop.RecordAllRepos` | packages/crew/src/loops/implementationLoop.ts:379-386 | one delivery row per write repo, in order, as far as nothing throws |
| `ImplementationLoop.RecordAllEvidence` | packages/crew/src/loops/implementationLoop.ts:393-405 | every item of the agent's evidence, in order, under the claim, as far as nothing throws |
| `ImplementationLoop.RecordCi` | packages/crew/src/loops/implementationLoop.ts:454-511 | red and timed-out CI each leave one evidence row, green and skipped none |
| `ImplementationLoop.SubmitOrBlock` | packages/crew/src/loops/implementationLoop.ts:468-581 | blocked on red CI or a failed due post-condition, otherwise submitted exactly when configured |

## Left out

- Strings are ordered by character code, where JavaScript orders by UTF-16 code unit; ticks and counts are unbounded naturals, where JavaScript has doubles.
- Wording of reasons, titles, summaries, events, prompts and the oracle criterion (cut to its first word), and the event log of every loop apart from the backlog loop's.
- `MaintenanceCommit`: a lock's modification time is its creation time, and the temporary file a save writes before the rename, with its clean-up, is one failing or succeeding step.
- `MaintenanceCommit.MutualExclusion`: assumes reclaims remove no live holder's lock, as do the other results on the concurrent protocol but `FiveSecondsAreSafe`; `ReclaimSafetyIsExact` shows the code needs it.
- `FindingDedup.SuppressedIff`: the key looked for holds no newline (texts and other keys may).
- `FindingDedup.NextSightingIff`: the same.
- `Ingest.DedupedIff`: the URL looked for holds no newline (texts and other URLs may).
- `FindingDedup.ResolvedFindingsReturn`: assumes steps that hide none of the keys; `NextSightingIff` says without it exactly what the next sighting does.
- `Ingest.IngestConverges`: assumes that the other repos of a pass, and other activity, hide no issue of the list.
- Concurrent writers of the failure ledger, and of the dedup check, which the code does not lock: ticks are sequential there.
- `FeatureBacklog.BacklogProgresses`: leaves out runs in which a feature ranking before the waiting one arrives, is freed by a human, or has its failure count deleted.
- `FeatureBacklog`: an epic is filed whole or not at all, a crash in the middle of a tick is not modelled, and plan contents, the brief and epic texts are not.
- `createEpic` as an operation (its tickets may appear in a store, marker lines included), decisions, work packets, agents and the repository registry of the in-memory client; a bad ticket reference (ids are ticket numbers here, and tokens are issued in sequence).
- The real, MCP and CLI dispatch clients and the services of `packages/dispatch` behind them.
- The scans that produce findings (coverage, security, type and test quality, docs, dependencies): their findings are inputs. So are the maintenance lane's dispatch to one of them and the outcome summaries of `finalizeScan`.
- `ImplementationLoop`: hooks other than `before_claim`, lore suggestions, dry runs and already existing branches, and criterion, URI and payload of evidence items; the resolution of paths to absolute ones, branch policy, post-conditions, PR creation and CI are arbitrary answers (a drive letter is a segment like any other). A store call that throws leaves the store as it was.
- `Duplication`: the order of findings, the ranking, and the god-file and churn signals.
- `InertKeys`: the walk that finds a dotted key, lone surrogates, and how a number is printed (a number is its printed text; NaN and undefined are excluded).
- `Envelope`: the judge prompt, the reply parser and the verdict aggregation.
- `OutputCapture`: decoding of a multi-byte character cut by the cap, the spawn-error and unreadable-result paths, and `runArgs`.
- Jira ingest, lore-gap and design-drift loops, config loading, skills, redaction and agent routing.
