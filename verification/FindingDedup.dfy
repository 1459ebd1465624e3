/** De-duplication of findings over whole runs: scan findings (packages/crew/src/loops/idleScans.ts)
    interleaved with everything else that may happen to the ticket store. The lookup is the
    substring search of packages/crew/src/dispatch/fakeClient.ts. */
module FindingDedup {
  import opened Prelude
  import opened Text
  import opened TicketStore
  import opened IdleScans

  predicate Open(t: Ticket) {
    !Terminal(t.status)
  }

  predicate IsFor(t: Ticket, key: string) {
    t.origin == FromFinding(key)
  }

  /** The ticket `tickets[i]` is the open ticket of `key`. */
  predicate OwnOpenAt(tickets: seq<Ticket>, key: string, i: nat)
    requires i < |tickets|
  {
    Open(tickets[i]) && IsFor(tickets[i], key)
  }

  predicate HasOwnOpen(tickets: seq<Ticket>, key: string) {
    exists i :: 0 <= i < |tickets| && OwnOpenAt(tickets, key, i)
  }

  // ----- At most one open ticket per key -----

  /** A ticket filed for a key ends in that key's marker line. */
  predicate Filed(t: Ticket) {
    t.origin.FromFinding? ==> EndsMarked(t.description, FINDING_MARKER, t.origin.key)
  }

  predicate AllFiled(tickets: seq<Ticket>) {
    forall i :: 0 <= i < |tickets| ==> Filed(tickets[i])
  }

  predicate UniqueOpen(tickets: seq<Ticket>) {
    forall i, j :: 0 <= i < j < |tickets| && tickets[i].origin.FromFinding? && tickets[j].origin == tickets[i].origin ==>
      !Open(tickets[i]) || !Open(tickets[j])
  }

  predicate StoreInvariant(tickets: seq<Ticket>) {
    UniqueOpen(tickets) && AllFiled(tickets)
  }

  /** Anything the rest of the factory may do between two findings: move tickets between
      statuses (a terminal status is final), edit criteria and branches, create tickets of its
      own. Descriptions and origins do not change. */
  predicate Evolves(before: seq<Ticket>, after: seq<Ticket>) {
    && |before| <= |after|
    && (forall i :: 0 <= i < |before| ==>
          after[i].description == before[i].description && after[i].origin == before[i].origin &&
          (Terminal(before[i].status) ==> Terminal(after[i].status)))
    && (forall i :: |before| <= i < |after| ==> !after[i].origin.FromFinding?)
  }

  datatype Step = Scan(finding: Finding, promoted: nat) | Others(tickets: seq<Ticket>)

  predicate CanStep(tickets: seq<Ticket>, step: Step) {
    step.Others? ==> Evolves(tickets, step.tickets)
  }

  function Next(gate: GateConfig, tickets: seq<Ticket>, step: Step): seq<Ticket> {
    match step
    case Scan(f, promoted) => ApplyFinding(gate, Session(tickets, promoted, []), f, 0).tickets
    case Others(after) => after
  }

  predicate ValidRun(gate: GateConfig, tickets: seq<Ticket>, run: seq<Step>)
    decreases run
  {
    run == [] || (CanStep(tickets, run[0]) && ValidRun(gate, Next(gate, tickets, run[0]), run[1..]))
  }

  function After(gate: GateConfig, tickets: seq<Ticket>, run: seq<Step>): seq<Ticket>
    decreases run
  {
    if run == [] then tickets else After(gate, Next(gate, tickets, run[0]), run[1..])
  }

  /** What a scan does to the list of tickets: nothing, or one more open ticket for its key. */
  lemma ScanAdds(gate: GateConfig, tickets: seq<Ticket>, f: Finding, promoted: nat)
    ensures var after := ApplyFinding(gate, Session(tickets, promoted, []), f, 0).tickets;
      if f.mode == ObserveOnly || FindOpenByKey(tickets, KeyOf(f)).Some? then after == tickets
      else
        |after| == |tickets| + 1 && after[..|tickets|] == tickets &&
        after[|tickets|].origin == FromFinding(KeyOf(f)) && Open(after[|tickets|]) &&
        after[|tickets|].description == Marked(f.text, FINDING_MARKER, KeyOf(f))
  {
    KeyIsNotEmpty(f);
  }

  lemma KeyIsNotEmpty(f: Finding)
    ensures KeyOf(f) != ""
  {
    assert |f.loop + ":" + f.repo.name| > 0;
  }

  lemma FoundIfOwnOpen(tickets: seq<Ticket>, key: string)
    requires HasOwnOpen(tickets, key) && AllFiled(tickets)
    ensures FindOpenByKey(tickets, key).Some?
  {
    FindFirstIs(tickets, FINDING_MARKER + key, true);
    var i :| 0 <= i < |tickets| && OwnOpenAt(tickets, key, i);
    assert Filed(tickets[i]);
    MarkedIncludesPrefix(TextBefore(tickets[i].description, FINDING_MARKER, key), FINDING_MARKER, key, key);
    assert Matches(tickets[i], FINDING_MARKER + key, true);
  }

  lemma ScanKeepsStore(gate: GateConfig, tickets: seq<Ticket>, f: Finding, promoted: nat)
    requires StoreInvariant(tickets)
    ensures StoreInvariant(ApplyFinding(gate, Session(tickets, promoted, []), f, 0).tickets)
  {
    var after := ApplyFinding(gate, Session(tickets, promoted, []), f, 0).tickets;
    ScanAdds(gate, tickets, f, promoted);
    if f.mode != ObserveOnly && FindOpenByKey(tickets, KeyOf(f)).None? {
      MarkedEnds(f.text, FINDING_MARKER, KeyOf(f));
      forall i | 0 <= i < |tickets| ensures after[i] == tickets[i] && !OwnOpenAt(tickets, KeyOf(f), i) {
        assert after[..|tickets|][i] == tickets[i];
        if OwnOpenAt(tickets, KeyOf(f), i) { FoundIfOwnOpen(tickets, KeyOf(f)); }
      }
    }
  }

  lemma {:induction false} RunKeepsStore(gate: GateConfig, tickets: seq<Ticket>, run: seq<Step>)
    requires StoreInvariant(tickets) && ValidRun(gate, tickets, run)
    ensures StoreInvariant(After(gate, tickets, run))
    decreases run
  {
    if run != [] {
      match run[0] {
        case Scan(f, promoted) => ScanKeepsStore(gate, tickets, f, promoted);
        case Others(after) => OthersKeepStore(tickets, after);
      }
      RunKeepsStore(gate, Next(gate, tickets, run[0]), run[1..]);
    }
  }

  lemma OthersKeepStore(before: seq<Ticket>, after: seq<Ticket>)
    requires StoreInvariant(before) && Evolves(before, after)
    ensures StoreInvariant(after)
  {
    forall i | 0 <= i < |after| ensures Filed(after[i]) {
      if i < |before| { assert Filed(before[i]); }
    }
  }

  /** Uniqueness holds outright: after any run of scans and other activity from an empty store,
      every key has at most one open ticket. No assumption on keys or summaries. */
  lemma AtMostOneOpenTicket(gate: GateConfig, run: seq<Step>, key: string, i: nat, j: nat)
    requires ValidRun(gate, [], run)
    requires i < |After(gate, [], run)| && j < |After(gate, [], run)|
    requires OwnOpenAt(After(gate, [], run), key, i) && OwnOpenAt(After(gate, [], run), key, j)
    ensures i == j
  {
    RunKeepsStore(gate, [], run);
  }

  // ----- When is a finding suppressed? -----

  /** A ticket's text apart from its own marker line; for a ticket not filed by a scan, such as
      one of an epic, the whole description. */
  function TextOf(t: Ticket): string {
    if t.origin.FromFinding? then TextBefore(t.description, FINDING_MARKER, t.origin.key) else t.description
  }

  predicate Extends(t: Ticket, key: string) {
    t.origin.FromFinding? && key <= t.origin.key
  }

  /** The ticket holds the marker line of `key`, or of a key it starts, somewhere else than in
      its own marker line. */
  predicate Quotes(t: Ticket, key: string) {
    Includes(TextOf(t), FINDING_MARKER + key) || (t.origin.FromFinding? && Includes(t.origin.key, FINDING_MARKER + key))
  }

  lemma FiledMatches(t: Ticket, key: string)
    requires Filed(t) && '\n' !in key
    ensures Includes(t.description, FINDING_MARKER + key) <==> Extends(t, key) || Quotes(t, key)
  {
    BothAreMarkers();
    if t.origin.FromFinding? { LookupIs(TextOf(t), FINDING_MARKER, t.origin.key, key); }
  }

  /** The exact suppression rule of the substring lookup, for any store a run can leave: some open
      ticket's key extends `key`, or some open ticket quotes its marker line. */
  lemma SuppressedIff(tickets: seq<Ticket>, key: string)
    requires AllFiled(tickets) && '\n' !in key
    ensures FindOpenByKey(tickets, key).Some? <==>
            exists i :: 0 <= i < |tickets| && Open(tickets[i]) && (Extends(tickets[i], key) || Quotes(tickets[i], key))
  {
    FindFirstIs(tickets, FINDING_MARKER + key, true);
    forall i | 0 <= i < |tickets|
      ensures Matches(tickets[i], FINDING_MARKER + key, true) <==>
              Open(tickets[i]) && (Extends(tickets[i], key) || Quotes(tickets[i], key))
    {
      FiledMatches(tickets[i], key);
    }
    if i :| 0 <= i < |tickets| && Open(tickets[i]) && (Extends(tickets[i], key) || Quotes(tickets[i], key)) {
      assert Matches(tickets[i], FINDING_MARKER + key, true);
    }
  }

  /** An open ticket that is not the one of `key`, and hides it all the same. */
  predicate Hides(t: Ticket, key: string) {
    Open(t) && !IsFor(t, key) && (Extends(t, key) || Quotes(t, key))
  }

  predicate Unhidden(tickets: seq<Ticket>, key: string) {
    forall i :: 0 <= i < |tickets| ==> !Hides(tickets[i], key)
  }

  /** The intended rule, "suppressed only by its own open ticket", holds for a key exactly when its
      own ticket is open, or no other open ticket's key extends it or quotes its marker line. */
  lemma OwnTicketRuleIff(tickets: seq<Ticket>, key: string)
    requires AllFiled(tickets) && '\n' !in key
    ensures (FindOpenByKey(tickets, key).Some? <==> HasOwnOpen(tickets, key)) <==> HasOwnOpen(tickets, key) || Unhidden(tickets, key)
  {
    SuppressedIff(tickets, key);
    if i :| 0 <= i < |tickets| && OwnOpenAt(tickets, key, i) {
      assert Open(tickets[i]) && Extends(tickets[i], key);
    }
    if i :| 0 <= i < |tickets| && Hides(tickets[i], key) {
      assert Open(tickets[i]) && (Extends(tickets[i], key) || Quotes(tickets[i], key));
    }
    if i :| 0 <= i < |tickets| && Open(tickets[i]) && (Extends(tickets[i], key) || Quotes(tickets[i], key)) {
      if IsFor(tickets[i], key) { assert OwnOpenAt(tickets, key, i); } else { assert Hides(tickets[i], key); }
    }
  }

  /** What the next sighting of a finding does after ANY run from an empty store, keys, texts and
      other activity being what they may: it leaves the tickets alone exactly when its own ticket
      is open or another open ticket hides it, and is drafted otherwise. */
  lemma NextSightingIff(gate: GateConfig, run: seq<Step>, f: Finding, promoted: nat)
    requires ValidRun(gate, [], run) && f.mode != ObserveOnly && '\n' !in KeyOf(f)
    ensures var end := After(gate, [], run); var next := Next(gate, end, Scan(f, promoted));
      if HasOwnOpen(end, KeyOf(f)) || !Unhidden(end, KeyOf(f)) then next == end
      else |next| == |end| + 1 && OwnOpenAt(next, KeyOf(f), |end|)
  {
    var end := After(gate, [], run);
    RunKeepsStore(gate, [], run);
    OwnTicketRuleIff(end, KeyOf(f));
    if HasOwnOpen(end, KeyOf(f)) { FoundIfOwnOpen(end, KeyOf(f)); }
    ScanAdds(gate, end, f, promoted);
  }

  // ----- Runs in which nothing hides a finding of interest -----

  /** The ticket holds no marker line of a key of `keys` but its own. */
  predicate Harmless(t: Ticket, keys: set<string>) {
    forall key :: key in keys && !IsFor(t, key) ==> !Includes(t.description, FINDING_MARKER + key)
  }

  predicate AllHarmless(tickets: seq<Ticket>, keys: set<string>) {
    forall i :: 0 <= i < |tickets| ==> Harmless(tickets[i], keys)
  }

  /** A step that files no ticket hiding a key of `keys`: a finding's own key extends no other, and
      neither its text nor its key quotes another's marker line; other activity may file marked
      tickets of its own, as an epic does, but none of `keys`. */
  predicate HarmlessStep(step: Step, keys: set<string>) {
    match step
    case Scan(f, _) =>
      forall key :: key in keys && key != KeyOf(f) ==>
        !(key <= KeyOf(f)) && !Includes(f.text, FINDING_MARKER + key) && !Includes(KeyOf(f), FINDING_MARKER + key)
    case Others(after) =>
      forall i :: 0 <= i < |after| && !after[i].origin.FromFinding? ==> Harmless(after[i], keys)
  }

  predicate NoNewlines(keys: set<string>) {
    forall key :: key in keys ==> '\n' !in key
  }

  lemma DraftIsHarmless(t: Ticket, f: Finding, keys: set<string>, promoted: nat)
    requires HarmlessStep(Scan(f, promoted), keys) && NoNewlines(keys)
    requires t.origin == FromFinding(KeyOf(f)) && t.description == Marked(f.text, FINDING_MARKER, KeyOf(f))
    ensures Harmless(t, keys)
  {
    BothAreMarkers();
    forall key | key in keys && !IsFor(t, key) ensures !Includes(t.description, FINDING_MARKER + key) {
      LookupIs(f.text, FINDING_MARKER, KeyOf(f), key);
    }
  }

  lemma ScanKeepsHarmless(gate: GateConfig, tickets: seq<Ticket>, f: Finding, promoted: nat, keys: set<string>)
    requires AllHarmless(tickets, keys) && HarmlessStep(Scan(f, promoted), keys) && NoNewlines(keys)
    ensures AllHarmless(ApplyFinding(gate, Session(tickets, promoted, []), f, 0).tickets, keys)
  {
    var after := ApplyFinding(gate, Session(tickets, promoted, []), f, 0).tickets;
    ScanAdds(gate, tickets, f, promoted);
    if f.mode != ObserveOnly && FindOpenByKey(tickets, KeyOf(f)).None? {
      DraftIsHarmless(after[|tickets|], f, keys, promoted);
      forall i | 0 <= i < |after| ensures Harmless(after[i], keys) {
        if i < |tickets| { assert after[..|tickets|][i] == tickets[i]; }
      }
    }
  }

  lemma OthersKeepHarmless(before: seq<Ticket>, after: seq<Ticket>, keys: set<string>)
    requires AllHarmless(before, keys) && Evolves(before, after) && HarmlessStep(Others(after), keys)
    ensures AllHarmless(after, keys)
  {
    forall i | 0 <= i < |after| ensures Harmless(after[i], keys) {
      if i < |before| { assert Harmless(before[i], keys); }
    }
  }

  /** In a store without hiding tickets the lookup of a key answers exactly for its own ticket. */
  lemma HarmlessRule(tickets: seq<Ticket>, keys: set<string>, key: string)
    requires AllFiled(tickets) && AllHarmless(tickets, keys) && key in keys
    ensures FindOpenByKey(tickets, key).Some? <==> HasOwnOpen(tickets, key)
  {
    FindFirstIs(tickets, FINDING_MARKER + key, true);
    if FindOpenByKey(tickets, key).Some? {
      var i :| 0 <= i < |tickets| && Matches(tickets[i], FINDING_MARKER + key, true);
      assert Harmless(tickets[i], keys);
      assert OwnOpenAt(tickets, key, i);
    }
    if HasOwnOpen(tickets, key) { FoundIfOwnOpen(tickets, key); }
  }

  /** Over any run whose steps hide no finding of `keys`, such a finding is suppressed at the end
      exactly when its own ticket is open then; a resolved one is drafted again. */
  lemma {:induction false} ResolvedFindingsReturn(gate: GateConfig, tickets: seq<Ticket>, run: seq<Step>, keys: set<string>, f: Finding, promoted: nat)
    requires AllFiled(tickets) && AllHarmless(tickets, keys) && NoNewlines(keys)
    requires ValidRun(gate, tickets, run) && forall i :: 0 <= i < |run| ==> HarmlessStep(run[i], keys)
    requires KeyOf(f) in keys && f.mode != ObserveOnly
    ensures var end := After(gate, tickets, run); var next := Next(gate, end, Scan(f, promoted));
      && (FindOpenByKey(end, KeyOf(f)).Some? <==> HasOwnOpen(end, KeyOf(f)))
      && (HasOwnOpen(end, KeyOf(f)) ==> next == end)
      && (!HasOwnOpen(end, KeyOf(f)) ==> |next| == |end| + 1 && OwnOpenAt(next, KeyOf(f), |end|))
    decreases run
  {
    if run == [] {
      HarmlessRule(tickets, keys, KeyOf(f));
      ScanAdds(gate, tickets, f, promoted);
    } else {
      StepKeepsHarmless(gate, tickets, run[0], keys);
      assert forall i :: 0 <= i < |run[1..]| ==> run[1..][i] == run[i + 1];
      ResolvedFindingsReturn(gate, Next(gate, tickets, run[0]), run[1..], keys, f, promoted);
    }
  }

  lemma StepKeepsHarmless(gate: GateConfig, tickets: seq<Ticket>, step: Step, keys: set<string>)
    requires AllFiled(tickets) && AllHarmless(tickets, keys) && NoNewlines(keys)
    requires CanStep(tickets, step) && HarmlessStep(step, keys)
    ensures AllFiled(Next(gate, tickets, step)) && AllHarmless(Next(gate, tickets, step), keys)
  {
    match step
    case Scan(f, promoted) =>
      ScanKeepsHarmless(gate, tickets, f, promoted, keys);
      ScanKeepsFiled(gate, tickets, f, promoted);
    case Others(after) =>
      OthersKeepHarmless(tickets, after, keys);
      forall i | 0 <= i < |after| ensures Filed(after[i]) {
        if i < |tickets| { assert Filed(tickets[i]); }
      }
  }

  lemma ScanKeepsFiled(gate: GateConfig, tickets: seq<Ticket>, f: Finding, promoted: nat)
    requires AllFiled(tickets)
    ensures AllFiled(ApplyFinding(gate, Session(tickets, promoted, []), f, 0).tickets)
  {
    var after := ApplyFinding(gate, Session(tickets, promoted, []), f, 0).tickets;
    ScanAdds(gate, tickets, f, promoted);
    MarkedEnds(f.text, FINDING_MARKER, KeyOf(f));
    forall i | 0 <= i < |after| ensures Filed(after[i]) {
      if i < |tickets| { assert after == tickets || after[..|tickets|][i] == tickets[i]; }
    }
  }

  // ----- Two findings of one repo -----

  lemma SignedKeyPrefix(loop: string, repo: string, s: Option<string>, s': Option<string>)
    requires SignatureText(s) != "" && SignatureText(s') != ""
    ensures FindingKey(loop, repo, s) <= FindingKey(loop, repo, s') <==> SignatureText(s) <= SignatureText(s')
  {
    var head := loop + ":" + repo + ":";
    assert FindingKey(loop, repo, s) == head + SignatureText(s) && FindingKey(loop, repo, s') == head + SignatureText(s');
    assert (head + SignatureText(s))[|head|..] == SignatureText(s) && (head + SignatureText(s'))[|head|..] == SignatureText(s');
    if head + SignatureText(s) <= head + SignatureText(s') {
      assert (head + SignatureText(s'))[..|head + SignatureText(s)|][|head|..] == SignatureText(s);
    }
  }

  /** The lookup after one more ticket. */
  lemma FoundAfterDraft(tickets: seq<Ticket>, after: seq<Ticket>, t: Ticket, key: string)
    requires after == tickets + [t] && FindOpenByKey(tickets, key).None?
    ensures FindOpenByKey(after, key).Some? <==> Open(t) && Includes(t.description, FINDING_MARKER + key)
  {
    FindFirstIs(tickets, FINDING_MARKER + key, true);
    FindFirstIs(after, FINDING_MARKER + key, true);
    if Open(t) && Includes(t.description, FINDING_MARKER + key) { assert Matches(after[|tickets|], FINDING_MARKER + key, true); }
    assert forall i :: 0 <= i < |tickets| ==> after[i] == tickets[i] && !Matches(tickets[i], FINDING_MARKER + key, true);
  }

  /** Two new findings of one loop and repo with different signatures: the first is drafted, and
      the second one gets a ticket of its own exactly when its signature does not start the
      first one's and neither the first one's text nor its key quotes its marker line. */
  lemma SecondIsDraftedIff(gate: GateConfig, tickets: seq<Ticket>, f: Finding, g: Finding, promoted: nat, promoted': nat)
    requires AllFiled(tickets) && f.mode != ObserveOnly && g.mode != ObserveOnly && '\n' !in KeyOf(g)
    requires f.loop == g.loop && f.repo == g.repo && SignatureText(f.signature) != "" && SignatureText(g.signature) != ""
    requires FindOpenByKey(tickets, KeyOf(f)).None? && FindOpenByKey(tickets, KeyOf(g)).None?
    requires SignatureText(f.signature) != SignatureText(g.signature)
    ensures var one := Next(gate, tickets, Scan(f, promoted)); var two := Next(gate, one, Scan(g, promoted'));
      && KeyOf(f) != KeyOf(g) && HasOwnOpen(one, KeyOf(f)) && one <= two
      && (HasOwnOpen(two, KeyOf(g)) <==>
            !(SignatureText(g.signature) <= SignatureText(f.signature)) &&
            !Includes(f.text, FINDING_MARKER + KeyOf(g)) && !Includes(KeyOf(f), FINDING_MARKER + KeyOf(g)))
  {
    var one := Next(gate, tickets, Scan(f, promoted));
    var two := Next(gate, one, Scan(g, promoted'));
    var t := one[|tickets|];
    ScanAdds(gate, tickets, f, promoted);
    assert one == tickets + [t] && OwnOpenAt(one, KeyOf(f), |tickets|);
    KeysAgreeIff(f.loop, f.repo.name, f.signature, g.repo.name, g.signature);
    SameLengthTails(f.repo.name, SignatureText(f.signature), g.repo.name, SignatureText(g.signature));
    SignedKeyPrefix(f.loop, f.repo.name, g.signature, f.signature);
    BothAreMarkers();
    LookupIs(f.text, FINDING_MARKER, KeyOf(f), KeyOf(g));
    FoundAfterDraft(tickets, one, t, KeyOf(g));
    SecondScan(gate, tickets, one, t, g, promoted');
  }

  lemma SecondScan(gate: GateConfig, tickets: seq<Ticket>, one: seq<Ticket>, t: Ticket, g: Finding, promoted: nat)
    requires AllFiled(tickets) && FindOpenByKey(tickets, KeyOf(g)).None? && one == tickets + [t] && !IsFor(t, KeyOf(g))
    requires g.mode != ObserveOnly
    ensures var two := Next(gate, one, Scan(g, promoted));
      one <= two && (HasOwnOpen(two, KeyOf(g)) <==> FindOpenByKey(one, KeyOf(g)).None?)
  {
    var two := Next(gate, one, Scan(g, promoted));
    if HasOwnOpen(tickets, KeyOf(g)) { FoundIfOwnOpen(tickets, KeyOf(g)); }
    forall i | 0 <= i < |one| ensures !OwnOpenAt(one, KeyOf(g), i) {
      if i < |tickets| { assert !OwnOpenAt(tickets, KeyOf(g), i); }
    }
    ScanAdds(gate, one, g, promoted);
    if FindOpenByKey(one, KeyOf(g)).None? { assert OwnOpenAt(two, KeyOf(g), |one|); }
  }

  // ----- Two ways to be hidden -----

  /** Keys that extend each other: the open ticket of `coverage:api-gateway` hides the finding
      `coverage:api`, which has no ticket of its own. */
  lemma LongerKeyHidesShorter(text: string)
    ensures var t := Drafted(1, text, ["api-gateway"], FromFinding(FindingKey("coverage", "api-gateway", None)));
      FindOpenByKey([t], FindingKey("coverage", "api", None)).Some? && !HasOwnOpen([t], FindingKey("coverage", "api", None))
  {
    var long, short := FindingKey("coverage", "api-gateway", None), FindingKey("coverage", "api", None);
    var t := Drafted(1, text, ["api-gateway"], FromFinding(long));
    assert long == "coverage:api-gateway" && short == "coverage:api";
    assert short <= long && |short| < |long|;
    MarkedIncludesPrefix(text, FINDING_MARKER, long, short);
    FindFirstIs([t], FINDING_MARKER + short, true);
    assert Matches([t][0], FINDING_MARKER + short, true);
  }

  /** A text that quotes another finding's marker line hides that finding. */
  lemma QuotedMarkerHides(key: string, other: string)
    requires key != "" && other != key
    ensures var t := Drafted(1, Marked("see", FINDING_MARKER, other), [], FromFinding(key));
      FindOpenByKey([t], other).Some? && !HasOwnOpen([t], other)
  {
    var quoted := Marked("see", FINDING_MARKER, other);
    var t := Drafted(1, quoted, [], FromFinding(key));
    MarkedIncludesPrefix("see", FINDING_MARKER, other, other);
    var i :| 0 <= i <= |quoted| && OccursAt(quoted, FINDING_MARKER + other, i);
    assert t.description[..|quoted|] == quoted;
    assert t.description[i..i + |FINDING_MARKER + other|] == quoted[i..i + |FINDING_MARKER + other|];
    assert OccursAt(t.description, FINDING_MARKER + other, i);
    FindFirstIs([t], FINDING_MARKER + other, true);
    assert Matches([t][0], FINDING_MARKER + other, true);
  }
}
