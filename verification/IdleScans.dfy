/** The closed loop of the idle scans: packages/crew/src/loops/idleScans.ts (finding to ticket,
    de-duplicated by key), selfImprove.ts (the promotion gate) and idleRegistry.ts (one gate
    across all loops of a tick). */
module IdleScans {
  import opened Prelude
  import opened Text
  import opened TicketStore

  datatype Repo = Repo(name: string, risk: string, testCommand: Option<string>)

  /** One finding of one scan; the last two say whether the store's writes for it fail. */
  datatype Finding = Finding(loop: string, mode: Mode, repo: Repo, text: string, signature: Option<string>,
                             attachFails: bool, readyRefused: bool)

  /** `loop:repo` or `loop:repo:signature`; an empty signature counts as none. */
  function FindingKey(loop: string, repo: string, signature: Option<string>): string {
    if signature.Some? && signature.value != "" then loop + ":" + repo + ":" + signature.value
    else loop + ":" + repo
  }

  function KeyOf(f: Finding): string {
    FindingKey(f.loop, f.repo.name, f.signature)
  }

  const ORACLE_AC_TEXT := "Behaviour-preserving"

  /** The acceptance criterion every scan draft carries. */
  function Oracle(repo: Repo): Criterion {
    Criterion(ORACLE_AC_TEXT, if repo.testCommand == Some("") then None else repo.testCommand)
  }

  function SignatureText(signature: Option<string>): string {
    if signature.Some? then signature.value else ""
  }

  /** One repo's name is the other's and a colon and more, and that more is spelled by the shorter
      one's signature. */
  predicate Overlaps(repo: string, signature: string, repo': string, signature': string) {
    signature != "" && repo + ":" <= repo' && signature == repo'[|repo| + 1..] + if signature' == "" then "" else ":" + signature'
  }

  /** The keys of one loop agree exactly for the same repo and signature (an empty signature being
      none), or when a colon in a repo name lets one pair be read as another. */
  lemma KeysAgreeIff(loop: string, repo: string, s: Option<string>, repo': string, s': Option<string>)
    ensures FindingKey(loop, repo, s) == FindingKey(loop, repo', s') <==>
      || (repo == repo' && SignatureText(s) == SignatureText(s'))
      || Overlaps(repo, SignatureText(s), repo', SignatureText(s'))
      || Overlaps(repo', SignatureText(s'), repo, SignatureText(s))
  {
    KeyTail(loop, repo, s);
    KeyTail(loop, repo', s');
    var a, b := repo + Tail(SignatureText(s)), repo' + Tail(SignatureText(s'));
    var head := loop + ":";
    assert (head + a)[|head|..] == a && (head + b)[|head|..] == b;
    if |repo| == |repo'| {
      SameLengthTails(repo, SignatureText(s), repo', SignatureText(s'));
    } else if |repo| < |repo'| {
      LongerTail(repo, SignatureText(s), repo', SignatureText(s'));
    } else {
      LongerTail(repo', SignatureText(s'), repo, SignatureText(s));
    }
  }

  function Tail(signature: string): string {
    if signature == "" then "" else ":" + signature
  }

  lemma KeyTail(loop: string, repo: string, s: Option<string>)
    ensures FindingKey(loop, repo, s) == (loop + ":") + (repo + Tail(SignatureText(s)))
  {
  }

  lemma SameLengthTails(repo: string, s: string, repo': string, s': string)
    requires |repo| == |repo'|
    ensures repo + Tail(s) == repo' + Tail(s') <==> repo == repo' && s == s'
    ensures !Overlaps(repo, s, repo', s') && !Overlaps(repo', s', repo, s)
  {
    var a, b := repo + Tail(s), repo' + Tail(s');
    assert a[..|repo|] == repo && b[..|repo|] == repo' && a[|repo|..] == Tail(s) && b[|repo|..] == Tail(s');
    assert Tail(s) != "" ==> Tail(s)[1..] == s;
    assert Tail(s') != "" ==> Tail(s')[1..] == s';
  }

  lemma LongerTail(repo: string, s: string, repo': string, s': string)
    requires |repo| < |repo'|
    ensures repo + Tail(s) == repo' + Tail(s') <==> Overlaps(repo, s, repo', s')
    ensures !Overlaps(repo', s', repo, s)
  {
    if repo + Tail(s) == repo' + Tail(s') { LongerTailOverlaps(repo, Tail(s), s, repo', Tail(s'), s'); }
    if Overlaps(repo, s, repo', s') { OverlapAgrees(repo, s, repo', Tail(s'), repo'[|repo| + 1..]); }
  }

  lemma OverlapAgrees(repo: string, s: string, repo': string, tail': string, more: string)
    requires s != "" && repo + ":" <= repo' && more == repo'[|repo| + 1..] && s == more + tail'
    ensures repo + Tail(s) == repo' + tail'
  {
    assert repo' == (repo + ":") + more;
    Associate(repo + ":", more, tail');
    Associate(repo, ":", s);
  }

  lemma LongerTailOverlaps(repo: string, tail: string, s: string, repo': string, tail': string, s': string)
    requires |repo| < |repo'| && repo + tail == repo' + tail' && tail == Tail(s) && tail' == Tail(s')
    ensures Overlaps(repo, s, repo', s')
  {
    var n, more := |repo|, repo'[|repo| + 1..];
    var whole := repo + tail;
    assert whole[..n] == repo && whole[n..] == tail && tail != "" && whole[n] == ':';
    assert repo'[..n] == repo && repo'[n] == ':';
    assert repo' == (repo + ":") + more;
    assert s == tail[1..] && tail[1..] == whole[n + 1..] && whole[n + 1..] == more + tail';
  }

  /** Without colons in repo names, a key tells the repo and the signature. */
  lemma PlainRepoKeysDiffer(loop: string, repo: string, s: Option<string>, repo': string, s': Option<string>)
    requires ':' !in repo && ':' !in repo'
    ensures FindingKey(loop, repo, s) == FindingKey(loop, repo', s') <==> repo == repo' && SignatureText(s) == SignatureText(s')
  {
    KeysAgreeIff(loop, repo, s, repo', s');
    NoColonNoOverlap(repo, SignatureText(s), repo', SignatureText(s'));
    NoColonNoOverlap(repo', SignatureText(s'), repo, SignatureText(s));
  }

  lemma NoColonNoOverlap(repo: string, s: string, repo': string, s': string)
    ensures Overlaps(repo, s, repo', s') ==> ':' in repo'
  {
    if Overlaps(repo, s, repo', s') { assert repo'[|repo|] == (repo + ":")[|repo|]; }
  }

  // ----- The self-improve gate -----

  /** An unknown risk level ranks above every known one. */
  function RiskRank(risk: string): nat {
    if risk == "low" then 0 else if risk == "medium" then 1 else if risk == "high" then 2
    else if risk == "critical" then 3 else 4
  }

  datatype GateConfig = GateConfig(enabled: bool, repos: seq<string>, maxRisk: string, cap: nat)

  predicate Admits(gate: GateConfig, repo: Repo) {
    gate.enabled && repo.name in gate.repos && RiskRank(repo.risk) <= RiskRank(gate.maxRisk)
  }

  class SelfImproveGate {
    const config: GateConfig
    var promoted: nat

    constructor FromConfig(config: GateConfig)
      ensures this.config == config && promoted == 0
    {
      this.config := config;
      promoted := 0;
    }

    /** Uses up one unit of the per-tick cap when it answers true. */
    method TryPromote(repo: Repo) returns (ok: bool)
      modifies this`promoted
      ensures ok <==> Admits(config, repo) && old(promoted) < config.cap
      ensures promoted == old(promoted) + if ok then 1 else 0
    {
      if !config.enabled { return false; }
      if repo.name !in config.repos { return false; }
      if RiskRank(repo.risk) > RiskRank(config.maxRisk) { return false; }
      if promoted >= config.cap { return false; }
      promoted := promoted + 1;
      ok := true;
    }
  }

  // ----- One finding -----

  /** A promotion to `ready`: by the mode, or by the gate. `loop` is the position of the loop in
      the registry. */
  datatype Readied = Readied(ticket: nat, repo: Repo, byGate: bool, loop: nat)

  /** The state one idle tick works on. */
  datatype Session = Session(tickets: seq<Ticket>, promoted: nat, readied: seq<Readied>)

  /** The gate is consulted in draft mode only. */
  predicate GatePromotes(gate: GateConfig, promoted: nat, f: Finding) {
    f.mode == CreateDraftTickets && Admits(gate, f.repo) && promoted < gate.cap
  }

  function AttachOracle(gate: GateConfig, s: Session, f: Finding): Session
    requires s.tickets != []
  {
    var last := |s.tickets| - 1;
    var t := s.tickets[last];
    s.(tickets := s.tickets[last := t.(criteria := t.criteria + [Oracle(f.repo)])],
       promoted := if GatePromotes(gate, s.promoted, f) then s.promoted + 1 else s.promoted)
  }

  function MakeReady(s: Session, f: Finding, loop: nat): Session
    requires s.tickets != []
  {
    var last := |s.tickets| - 1;
    s.(tickets := s.tickets[last := s.tickets[last].(status := Ready)],
       readied := s.readied + [Readied(|s.tickets|, f.repo, f.mode != CreateReadyTickets, loop)])
  }

  /** `attachOracleAndPromote` on the newest ticket. */
  function Promote(gate: GateConfig, s: Session, f: Finding, loop: nat): Session
    requires s.tickets != []
  {
    if f.attachFails then s
    else if Promotes(gate, s.promoted, f) then MakeReady(AttachOracle(gate, s, f), f, loop)
    else AttachOracle(gate, s, f)
  }

  predicate Promotes(gate: GateConfig, promoted: nat, f: Finding) {
    !f.attachFails && (f.mode == CreateReadyTickets || GatePromotes(gate, promoted, f)) && !f.readyRefused
  }

  function ApplyFinding(gate: GateConfig, s: Session, f: Finding, loop: nat): Session {
    if f.mode == ObserveOnly || FindOpenByKey(s.tickets, KeyOf(f)).Some? then s
    else
      var draft := Drafted(|s.tickets| + 1, f.text, [f.repo.name], FromFinding(KeyOf(f)));
      Promote(gate, s.(tickets := s.tickets + [draft]), f, loop)
  }

  /** One idle loop as the registry sees it: its flag, and the findings its scan produces. */
  datatype LoopRun = LoopRun(enabled: bool, findings: seq<Finding>)

  function ApplyAll(gate: GateConfig, s: Session, findings: seq<Finding>, loop: nat): Session {
    if findings == [] then s
    else ApplyFinding(gate, ApplyAll(gate, s, findings[..|findings| - 1], loop), findings[|findings| - 1], loop)
  }

  /** A loop does nothing when it is off, or when the queue already holds a ready ticket. */
  function RunLoop(gate: GateConfig, s: Session, run: LoopRun, loop: nat): Session {
    if !run.enabled || ReadyAmong(s.tickets) != [] then s else ApplyAll(gate, s, run.findings, loop)
  }

  function RunLoops(gate: GateConfig, s: Session, runs: seq<LoopRun>): Session {
    if runs == [] then s
    else RunLoop(gate, RunLoops(gate, s, runs[..|runs| - 1]), runs[|runs| - 1], |runs| - 1)
  }

  datatype Outcome = Observed | Deduped | DraftLeft(number: nat) | MadeReady(number: nat)

  function OutcomeOf(gate: GateConfig, s: Session, f: Finding): Outcome {
    if f.mode == ObserveOnly then Observed
    else if FindOpenByKey(s.tickets, KeyOf(f)).Some? then Deduped
    else if Promotes(gate, s.promoted, f) then MadeReady(|s.tickets| + 1)
    else DraftLeft(|s.tickets| + 1)
  }

  /** The registry's tick on the mutable store and gate. */
  class IdleTick {
    const store: FakeDispatchClient
    const gate: SelfImproveGate
    var readied: seq<Readied>

    constructor (store: FakeDispatchClient, gate: SelfImproveGate)
      ensures this.store == store && this.gate == gate && readied == []
    {
      this.store, this.gate, readied := store, gate, [];
    }

    ghost function Contents(): Session
      reads this, store, gate
    {
      Session(store.tickets, gate.promoted, readied)
    }

    method AttachOracleAndPromote(f: Finding, number: nat, loop: nat) returns (ready: bool)
      requires store.Valid() && f.mode != ObserveOnly && number == |store.tickets| > 0
      modifies this, store`tickets, gate`promoted
      ensures store.Valid() && Contents() == Promote(gate.config, old(Contents()), f, loop)
      ensures ready <==> Promotes(gate.config, old(gate.promoted), f)
    {
      if f.attachFails { return false; }
      store.AddAcceptanceCriterion(number, Oracle(f.repo));
      var promote := f.mode == CreateReadyTickets;
      if f.mode == CreateDraftTickets {
        promote := gate.TryPromote(f.repo);
      }
      if !promote || f.readyRefused { return false; }
      ready := store.MarkTicketReady(number);
      readied := readied + [Readied(number, f.repo, f.mode != CreateReadyTickets, loop)];
    }

    method ApplyScanFinding(f: Finding, loop: nat) returns (outcome: Outcome)
      requires store.Valid()
      modifies this, store`tickets, gate`promoted
      ensures store.Valid() && Contents() == ApplyFinding(gate.config, old(Contents()), f, loop)
      ensures outcome == OutcomeOf(gate.config, old(Contents()), f)
    {
      if f.mode == ObserveOnly {
        outcome := Observed;
      } else {
        var key := KeyOf(f);
        var existing := FindOpenByKey(store.tickets, key);
        if existing.Some? {
          outcome := Deduped;
        } else {
          var number := store.CreateDraftTicket(f.text, [f.repo.name], FromFinding(key));
          var ready := AttachOracleAndPromote(f, number, loop);
          outcome := if ready then MadeReady(number) else DraftLeft(number);
        }
      }
    }

    method RunIdleLoops(runs: seq<LoopRun>)
      requires store.Valid()
      modifies this, store`tickets, gate`promoted
      ensures store.Valid() && Contents() == RunLoops(gate.config, old(Contents()), runs)
    {
      for i := 0 to |runs|
        invariant store.Valid() && Contents() == RunLoops(gate.config, old(Contents()), runs[..i])
      {
        assert runs[..i + 1][..i] == runs[..i];
        if runs[i].enabled && store.ListReady() == [] {
          var findings := runs[i].findings;
          ghost var before := Contents();
          for j := 0 to |findings|
            invariant store.Valid() && Contents() == ApplyAll(gate.config, before, findings[..j], i)
          {
            assert findings[..j + 1][..j] == findings[..j];
            var _ := ApplyScanFinding(findings[j], i);
          }
          assert findings[..|findings|] == findings;
        }
      }
      assert runs[..|runs|] == runs;
    }
  }

  // ----- What one tick can ready -----

  predicate Numbered(tickets: seq<Ticket>) {
    forall i :: 0 <= i < |tickets| ==> tickets[i].number == i + 1
  }

  function ByGate(readied: seq<Readied>): nat {
    if readied == [] then 0
    else ByGate(readied[..|readied| - 1]) + if readied[|readied| - 1].byGate then 1 else 0
  }

  /** A readied entry is honoured: its ticket is ready and carries exactly the oracle, and the
      gate, where it was used, admits the repo. */
  predicate Honoured(gate: GateConfig, tickets: seq<Ticket>, r: Readied) {
    && 0 < r.ticket <= |tickets|
    && tickets[r.ticket - 1].status == Ready
    && tickets[r.ticket - 1].criteria == [Oracle(r.repo)]
    && tickets[r.ticket - 1].repos == [r.repo.name]
    && (r.byGate ==> Admits(gate, r.repo))
  }

  predicate HasEntry(readied: seq<Readied>, number: nat) {
    exists k :: 0 <= k < |readied| && readied[k].ticket == number
  }

  /** Tickets that existed before are untouched; the new ones are drafts or ready. */
  predicate OnlyAdds(start: seq<Ticket>, tickets: seq<Ticket>) {
    && Numbered(tickets) && start <= tickets
    && (forall i :: |start| <= i < |tickets| ==> tickets[i].status == Ready || tickets[i].status == Draft)
  }

  predicate AllHonoured(gate: GateConfig, base: nat, tickets: seq<Ticket>, readied: seq<Readied>) {
    forall k :: 0 <= k < |readied| ==> Honoured(gate, tickets, readied[k]) && readied[k].ticket > base
  }

  /** Every new ready ticket has an entry. */
  predicate AllEntered(base: nat, tickets: seq<Ticket>, readied: seq<Readied>) {
    forall i :: base <= i < |tickets| && tickets[i].status == Ready ==> HasEntry(readied, i + 1)
  }

  predicate Counted(gate: GateConfig, start: nat, promoted: nat, readied: seq<Readied>) {
    start + ByGate(readied) <= promoted && (promoted <= gate.cap || promoted == start)
  }

  /** What a tick that started from `start` keeps true of its session. */
  predicate TickInvariant(gate: GateConfig, start: Session, s: Session) {
    && OnlyAdds(start.tickets, s.tickets)
    && Counted(gate, start.promoted, s.promoted, s.readied)
    && AllHonoured(gate, |start.tickets|, s.tickets, s.readied)
    && AllEntered(|start.tickets|, s.tickets, s.readied)
  }

  /** Appending a draft, or changing the newest ticket while it is a draft, keeps the entries. */
  lemma EntriesSurvive(gate: GateConfig, base: nat, tickets: seq<Ticket>, tickets': seq<Ticket>, readied: seq<Readied>)
    requires AllHonoured(gate, base, tickets, readied) && AllEntered(base, tickets, readied)
    requires |tickets| <= |tickets'|
    requires forall i :: 0 <= i < |tickets| && tickets[i].status == Ready ==> tickets'[i] == tickets[i]
    requires forall i :: base <= i < |tickets'| && tickets'[i].status == Ready ==> i < |tickets| && tickets[i].status == Ready
    ensures AllHonoured(gate, base, tickets', readied) && AllEntered(base, tickets', readied)
  {
    forall k | 0 <= k < |readied| ensures Honoured(gate, tickets', readied[k]) && readied[k].ticket > base {
      assert Honoured(gate, tickets, readied[k]);
    }
  }

  lemma DraftKeepsInvariant(gate: GateConfig, start: Session, s: Session, draft: Ticket)
    requires TickInvariant(gate, start, s)
    requires draft.number == |s.tickets| + 1 && draft.status == Draft
    ensures TickInvariant(gate, start, s.(tickets := s.tickets + [draft]))
  {
    EntriesSurvive(gate, |start.tickets|, s.tickets, s.tickets + [draft], s.readied);
  }

  lemma NewestAdds(start: seq<Ticket>, tickets: seq<Ticket>, t: Ticket)
    requires OnlyAdds(start, tickets) && |tickets| > |start|
    requires t.number == |tickets| && (t.status == Draft || t.status == Ready)
    ensures OnlyAdds(start, tickets[|tickets| - 1 := t])
  {
  }

  lemma NewestChanges(gate: GateConfig, start: Session, s: Session, t: Ticket, next: Session)
    requires TickInvariant(gate, start, s) && |s.tickets| > |start.tickets|
    requires s.tickets[|s.tickets| - 1].status == Draft && t.status == Draft && t.number == |s.tickets|
    requires next.tickets == s.tickets[|s.tickets| - 1 := t] && next.readied == s.readied
    requires next.promoted >= s.promoted && (next.promoted <= gate.cap || next.promoted == s.promoted)
    ensures TickInvariant(gate, start, next)
  {
    NewestAdds(start.tickets, s.tickets, t);
    EntriesSurvive(gate, |start.tickets|, s.tickets, next.tickets, s.readied);
  }

  lemma HonouredAdded(gate: GateConfig, base: nat, tickets: seq<Ticket>, readied: seq<Readied>, r: Readied, changed: seq<Ticket>, more: seq<Readied>)
    requires AllHonoured(gate, base, tickets, readied) && |tickets| > base && r.ticket == |tickets|
    requires tickets[|tickets| - 1].status == Draft
    requires tickets[|tickets| - 1].criteria == [Oracle(r.repo)] && tickets[|tickets| - 1].repos == [r.repo.name]
    requires r.byGate ==> Admits(gate, r.repo)
    requires changed == tickets[|tickets| - 1 := tickets[|tickets| - 1].(status := Ready)] && more == readied + [r]
    ensures AllHonoured(gate, base, changed, more)
  {
    forall k | 0 <= k < |more| ensures Honoured(gate, changed, more[k]) && more[k].ticket > base {
      if k < |readied| { assert Honoured(gate, tickets, readied[k]); }
    }
  }

  lemma EntryAdded(base: nat, tickets: seq<Ticket>, readied: seq<Readied>, r: Readied, changed: seq<Ticket>, more: seq<Readied>)
    requires AllEntered(base, tickets, readied) && |tickets| > base && r.ticket == |tickets|
    requires changed == tickets[|tickets| - 1 := tickets[|tickets| - 1].(status := Ready)] && more == readied + [r]
    ensures AllEntered(base, changed, more)
  {
    forall i | base <= i < |changed| && changed[i].status == Ready ensures HasEntry(more, i + 1) {
      if i == |tickets| - 1 {
        assert more[|readied|].ticket == i + 1;
      } else {
        var k :| 0 <= k < |readied| && readied[k].ticket == i + 1;
        assert more[k].ticket == i + 1;
      }
    }
  }

  lemma ByGateAppends(readied: seq<Readied>, r: Readied)
    ensures ByGate(readied + [r]) == ByGate(readied) + if r.byGate then 1 else 0
  {
    assert (readied + [r])[..|readied|] == readied;
  }

  lemma NewestReadied(gate: GateConfig, start: Session, s: Session, r: Readied, next: Session)
    requires TickInvariant(gate, start, s) && |s.tickets| > |start.tickets|
    requires var t := s.tickets[|s.tickets| - 1];
      t.status == Draft && t.criteria == [Oracle(r.repo)] && t.repos == [r.repo.name] && r.ticket == |s.tickets|
    requires r.byGate ==> Admits(gate, r.repo) && start.promoted + ByGate(s.readied) < s.promoted
    requires next.tickets == s.tickets[|s.tickets| - 1 := s.tickets[|s.tickets| - 1].(status := Ready)]
    requires next.readied == s.readied + [r] && next.promoted == s.promoted
    ensures TickInvariant(gate, start, next)
  {
    NewestAdds(start.tickets, s.tickets, s.tickets[|s.tickets| - 1].(status := Ready));
    HonouredAdded(gate, |start.tickets|, s.tickets, s.readied, r, next.tickets, next.readied);
    EntryAdded(|start.tickets|, s.tickets, s.readied, r, next.tickets, next.readied);
    ByGateAppends(s.readied, r);
  }

  /** The newest ticket is a draft of this tick for `repo` with these criteria. */
  predicate NewestIsDraft(start: Session, s: Session, repo: Repo, criteria: seq<Criterion>) {
    && |s.tickets| > |start.tickets|
    && var t := s.tickets[|s.tickets| - 1];
       t.status == Draft && t.criteria == criteria && t.repos == [repo.name] && t.number == |s.tickets|
  }

  lemma AttachKeepsInvariant(gate: GateConfig, start: Session, s: Session, f: Finding)
    requires TickInvariant(gate, start, s) && NewestIsDraft(start, s, f.repo, [])
    ensures TickInvariant(gate, start, AttachOracle(gate, s, f))
  {
    var t := s.tickets[|s.tickets| - 1];
    NewestChanges(gate, start, s, t.(criteria := t.criteria + [Oracle(f.repo)]), AttachOracle(gate, s, f));
  }

  lemma AttachLeavesDraft(gate: GateConfig, start: Session, s: Session, f: Finding)
    requires NewestIsDraft(start, s, f.repo, [])
    ensures NewestIsDraft(start, AttachOracle(gate, s, f), f.repo, [Oracle(f.repo)])
  {
  }

  lemma PromotionIsCounted(gate: GateConfig, start: Session, s: Session, f: Finding)
    requires s.tickets != [] && Counted(gate, start.promoted, s.promoted, s.readied)
    ensures GatePromotes(gate, s.promoted, f) ==> start.promoted + ByGate(s.readied) < AttachOracle(gate, s, f).promoted
    ensures AttachOracle(gate, s, f).readied == s.readied
  {
  }

  lemma MakeReadyKeepsInvariant(gate: GateConfig, start: Session, s: Session, f: Finding, loop: nat)
    requires TickInvariant(gate, start, s) && NewestIsDraft(start, s, f.repo, [Oracle(f.repo)])
    requires f.mode != CreateReadyTickets ==> Admits(gate, f.repo) && start.promoted + ByGate(s.readied) < s.promoted
    ensures TickInvariant(gate, start, MakeReady(s, f, loop))
  {
    var r := Readied(|s.tickets|, f.repo, f.mode != CreateReadyTickets, loop);
    NewestReadied(gate, start, s, r, MakeReady(s, f, loop));
  }

  lemma PromoteKeepsInvariant(gate: GateConfig, start: Session, s: Session, f: Finding, loop: nat)
    requires TickInvariant(gate, start, s) && NewestIsDraft(start, s, f.repo, [])
    ensures TickInvariant(gate, start, Promote(gate, s, f, loop))
  {
    AttachKeepsInvariant(gate, start, s, f);
    AttachLeavesDraft(gate, start, s, f);
    PromotionIsCounted(gate, start, s, f);
    if Promotes(gate, s.promoted, f) {
      MakeReadyKeepsInvariant(gate, start, AttachOracle(gate, s, f), f, loop);
    }
  }

  lemma FindingKeepsInvariant(gate: GateConfig, start: Session, s: Session, f: Finding, loop: nat)
    requires TickInvariant(gate, start, s)
    ensures TickInvariant(gate, start, ApplyFinding(gate, s, f, loop))
  {
    var draft := Drafted(|s.tickets| + 1, f.text, [f.repo.name], FromFinding(KeyOf(f)));
    var drafted := s.(tickets := s.tickets + [draft]);
    DraftKeepsInvariant(gate, start, s, draft);
    assert NewestIsDraft(start, drafted, f.repo, []);
    PromoteKeepsInvariant(gate, start, drafted, f, loop);
  }

  lemma {:induction false} FindingsKeepInvariant(gate: GateConfig, start: Session, s: Session, findings: seq<Finding>, loop: nat)
    requires TickInvariant(gate, start, s)
    ensures TickInvariant(gate, start, ApplyAll(gate, s, findings, loop))
  {
    if findings != [] {
      var n := |findings| - 1;
      FindingsKeepInvariant(gate, start, s, findings[..n], loop);
      FindingKeepsInvariant(gate, start, ApplyAll(gate, s, findings[..n], loop), findings[n], loop);
    }
  }

  lemma {:induction false} LoopsKeepInvariant(gate: GateConfig, start: Session, runs: seq<LoopRun>)
    requires Numbered(start.tickets) && start.readied == []
    ensures TickInvariant(gate, start, RunLoops(gate, start, runs))
  {
    if runs != [] {
      var n := |runs| - 1;
      LoopsKeepInvariant(gate, start, runs[..n]);
      FindingsKeepInvariant(gate, start, RunLoops(gate, start, runs[..n]), runs[n].findings, n);
    }
  }

  /** The closed loop is bounded: in one tick the gate readies at most what it counted, which is
      at most the cap, only in admitted repos; and a ticket newly `ready`, by mode or by gate,
      is a scan draft carrying the oracle criterion, whatever store writes failed. */
  lemma TickIsBounded(gate: GateConfig, start: Session, runs: seq<LoopRun>)
    requires Numbered(start.tickets) && start.readied == [] && start.promoted == 0
    ensures var end := RunLoops(gate, start, runs);
      && ByGate(end.readied) <= end.promoted <= gate.cap
      && start.tickets <= end.tickets
      && AllHonoured(gate, |start.tickets|, end.tickets, end.readied)
      && forall i :: |start.tickets| <= i < |end.tickets| && end.tickets[i].status == Ready ==>
           exists k :: 0 <= k < |end.readied| && end.readied[k].ticket == i + 1
  {
    LoopsKeepInvariant(gate, start, runs);
    var end := RunLoops(gate, start, runs);
    forall i | |start.tickets| <= i < |end.tickets| && end.tickets[i].status == Ready
      ensures exists k :: 0 <= k < |end.readied| && end.readied[k].ticket == i + 1
    {
      assert HasEntry(end.readied, i + 1);
    }
  }

  /** The risk limit, level by level. */
  predicate WithinRisk(risk: string, limit: string) {
    match limit
    case "low" => risk == "low"
    case "medium" => risk == "low" || risk == "medium"
    case "high" => risk == "low" || risk == "medium" || risk == "high"
    case "critical" => risk == "low" || risk == "medium" || risk == "high" || risk == "critical"
    case _ => true
  }

  predicate MayPromote(gate: GateConfig, repo: Repo) {
    gate.enabled && repo.name in gate.repos && WithinRisk(repo.risk, gate.maxRisk)
  }

  lemma AdmitsIff(gate: GateConfig, repo: Repo)
    ensures Admits(gate, repo) <==> MayPromote(gate, repo)
  {
  }

  /** Over a whole tick: whatever the gate readied is in a repo that opted in, at a risk within the
      limit, and carries the oracle with the repo's own test command, if it has one. */
  lemma GateRespectsRisk(gate: GateConfig, start: Session, runs: seq<LoopRun>, k: nat)
    requires Numbered(start.tickets) && start.readied == []
    requires k < |RunLoops(gate, start, runs).readied|
    ensures var end := RunLoops(gate, start, runs); var r := end.readied[k];
      && |start.tickets| < r.ticket <= |end.tickets| && end.tickets[r.ticket - 1].status == Ready
      && (r.byGate ==> MayPromote(gate, r.repo))
      && |end.tickets[r.ticket - 1].criteria| == 1
      && var oracle := end.tickets[r.ticket - 1].criteria[0];
         oracle.text == ORACLE_AC_TEXT &&
         oracle.checkCommand == match r.repo.testCommand case None => None case Some(command) => if command == "" then None else Some(command)
  {
    LoopsKeepInvariant(gate, start, runs);
    var end := RunLoops(gate, start, runs);
    assert Honoured(gate, end.tickets, end.readied[k]);
    AdmitsIff(gate, end.readied[k].repo);
  }

  /** And conversely, for one finding: it is readied exactly when it is new, may create tickets, the
      store takes both writes, and the mode says ready, or the mode says draft and the gate's repo
      list, risk limit and remaining cap allow it. */
  lemma ReadiedIff(gate: GateConfig, s: Session, f: Finding, loop: nat)
    ensures var end := ApplyFinding(gate, s, f, loop);
      end.readied == s.readied + (
        if FindOpenByKey(s.tickets, KeyOf(f)).None? && !f.attachFails && !f.readyRefused &&
           (f.mode == CreateReadyTickets || (f.mode == CreateDraftTickets && MayPromote(gate, f.repo) && s.promoted < gate.cap))
        then [Readied(|s.tickets| + 1, f.repo, f.mode == CreateDraftTickets, loop)] else [])
    ensures var end := ApplyFinding(gate, s, f, loop);
      end.promoted == s.promoted +
        if FindOpenByKey(s.tickets, KeyOf(f)).None? && !f.attachFails && f.mode == CreateDraftTickets &&
           MayPromote(gate, f.repo) && s.promoted < gate.cap then 1 else 0
  {
    AdmitsIff(gate, f.repo);
    assert s.readied + [] == s.readied;
  }

  lemma {:induction false} FindingsUseOneLoop(gate: GateConfig, s: Session, findings: seq<Finding>, loop: nat)
    ensures s.readied <= ApplyAll(gate, s, findings, loop).readied
    ensures forall i :: |s.readied| <= i < |ApplyAll(gate, s, findings, loop).readied| ==>
              ApplyAll(gate, s, findings, loop).readied[i].loop == loop
  {
    if findings != [] { FindingsUseOneLoop(gate, s, findings[..|findings| - 1], loop); }
  }

  lemma QueueIsBusy(gate: GateConfig, start: Session, s: Session)
    requires TickInvariant(gate, start, s) && s.readied != []
    ensures ReadyAmong(s.tickets) != []
  {
    assert Honoured(gate, s.tickets, s.readied[0]);
    FirstReady(s.tickets);
  }

  /** Across loops: as soon as one loop readies a ticket, every later loop of the tick finds the
      queue busy, so all tickets readied in one tick come from a single loop. */
  lemma {:induction false} OneLoopReadies(gate: GateConfig, start: Session, runs: seq<LoopRun>)
    requires Numbered(start.tickets) && start.readied == []
    ensures var readied := RunLoops(gate, start, runs).readied;
      forall a, b :: a in readied && b in readied ==> a.loop == b.loop
  {
    if runs != [] {
      var n := |runs| - 1;
      var s := RunLoops(gate, start, runs[..n]);
      OneLoopReadies(gate, start, runs[..n]);
      LoopsKeepInvariant(gate, start, runs[..n]);
      FindingsUseOneLoop(gate, s, runs[n].findings, n);
      if s.readied != [] { QueueIsBusy(gate, start, s); }
    }
  }
}
