/** The in-memory ticket store of packages/crew/src/dispatch/fakeClient.ts: tickets in creation
    order, claims, evidence and deliveries, and the two identity lookups, which are substring
    searches over ticket descriptions. */
module TicketStore {
  import opened Prelude
  import opened Text

  datatype Status = Draft | Ready | ClaimedBy | InReview | Blocked | Done | Closed | Cancelled | Custom(name: string)

  predicate Terminal(status: Status) {
    status.Done? || status.Closed? || status.Cancelled?
  }

  datatype Criterion = Criterion(text: string, checkCommand: Option<string>)

  /** Where a ticket came from, as the creation event records it. */
  datatype Origin = FromFinding(key: string) | FromSource(url: string) | Elsewhere

  datatype Ticket = Ticket(number: nat, description: string, status: Status, branch: Option<string>,
                           criteria: seq<Criterion>, repos: seq<string>, origin: Origin)

  const FINDING_MARKER := "Finding-Key: "
  const SOURCE_MARKER := "Source: "

  // ----- Lookups -----

  function FindFirst(tickets: seq<Ticket>, needle: string, openOnly: bool): Option<nat> {
    if tickets == [] then None
    else if !(openOnly && Terminal(tickets[0].status)) && Includes(tickets[0].description, needle) then Some(tickets[0].number)
    else FindFirst(tickets[1..], needle, openOnly)
  }

  /** `findTicketBySource`: any status. */
  function FindBySource(tickets: seq<Ticket>, url: string): Option<nat> {
    FindFirst(tickets, SOURCE_MARKER + url, false)
  }

  /** `findOpenTicketByFindingKey`: tickets in a terminal status are skipped. */
  function FindOpenByKey(tickets: seq<Ticket>, key: string): Option<nat> {
    FindFirst(tickets, FINDING_MARKER + key, true)
  }

  predicate Matches(t: Ticket, needle: string, openOnly: bool) {
    !(openOnly && Terminal(t.status)) && Includes(t.description, needle)
  }

  lemma {:induction false} FindFirstIs(tickets: seq<Ticket>, needle: string, openOnly: bool)
    ensures FindFirst(tickets, needle, openOnly).Some? <==>
            exists i :: 0 <= i < |tickets| && Matches(tickets[i], needle, openOnly)
  {
    if tickets != [] {
      FindFirstIs(tickets[1..], needle, openOnly);
      if Matches(tickets[0], needle, openOnly) {
      } else if FindFirst(tickets[1..], needle, openOnly).Some? {
        var i :| 0 <= i < |tickets[1..]| && Matches(tickets[1..][i], needle, openOnly);
        assert tickets[i + 1] == tickets[1..][i];
      } else {
        forall i | 0 <= i < |tickets| ensures !Matches(tickets[i], needle, openOnly) {
          if i > 0 { assert tickets[i] == tickets[1..][i - 1]; }
        }
      }
    }
  }

  /** What the two lookups answer for, marker texts and terminal statuses spelled out. */
  lemma LookupsAre(tickets: seq<Ticket>, identity: string)
    ensures FindOpenByKey(tickets, identity).Some? <==>
      exists i :: 0 <= i < |tickets| && Includes(tickets[i].description, "Finding-Key: " + identity) &&
                  tickets[i].status != Done && tickets[i].status != Closed && tickets[i].status != Cancelled
    ensures FindBySource(tickets, identity).Some? <==>
      exists i :: 0 <= i < |tickets| && Includes(tickets[i].description, "Source: " + identity)
  {
    FindFirstIs(tickets, FINDING_MARKER + identity, true);
    FindFirstIs(tickets, SOURCE_MARKER + identity, false);
    if FindOpenByKey(tickets, identity).Some? {
      var i :| 0 <= i < |tickets| && Matches(tickets[i], FINDING_MARKER + identity, true);
    }
    if FindBySource(tickets, identity).Some? {
      var i :| 0 <= i < |tickets| && Matches(tickets[i], SOURCE_MARKER + identity, false);
    }
  }

  /** The ticket a lookup answers with is the first that matches. */
  lemma {:induction false} FindFirstAnswers(tickets: seq<Ticket>, needle: string, openOnly: bool)
    requires FindFirst(tickets, needle, openOnly).Some?
    ensures exists i :: 0 <= i < |tickets| && Matches(tickets[i], needle, openOnly) &&
                        tickets[i].number == FindFirst(tickets, needle, openOnly).value &&
                        forall k :: 0 <= k < i ==> !Matches(tickets[k], needle, openOnly)
  {
    if !Matches(tickets[0], needle, openOnly) {
      FindFirstAnswers(tickets[1..], needle, openOnly);
      var i :| 0 <= i < |tickets[1..]| && Matches(tickets[1..][i], needle, openOnly) &&
               tickets[1..][i].number == FindFirst(tickets[1..], needle, openOnly).value &&
               forall k :: 0 <= k < i ==> !Matches(tickets[1..][k], needle, openOnly);
      assert tickets[i + 1] == tickets[1..][i];
      forall k | 0 <= k < i + 1 ensures !Matches(tickets[k], needle, openOnly) {
        if k > 0 { assert tickets[k] == tickets[1..][k - 1]; }
      }
    }
  }

  // ----- Markers -----

  /** A description ending in a marker line. */
  function Marked(base: string, marker: string, identity: string): string {
    base + "\n\n" + (marker + identity)
  }

  /** What the two markers have in common: no newline, and a first letter that is not repeated. */
  predicate IsMarker(marker: string) {
    |marker| > 0 && '\n' !in marker && marker[0] !in marker[1..]
  }

  lemma BothAreMarkers()
    ensures IsMarker(FINDING_MARKER) && IsMarker(SOURCE_MARKER)
  {
  }

  lemma OccurrenceInside(text: string, needle: string, i: nat, from: nat, to: nat)
    requires OccursAt(text, needle, i) && from <= to <= |text|
    ensures from <= i && i + |needle| <= to ==> Includes(text[from..to], needle)
  {
    if from <= i && i + |needle| <= to {
      var part := text[from..to];
      assert forall k :: 0 <= k < |part| ==> part[k] == text[from + k];
      assert part[i - from..i - from + |needle|] == text[i..i + |needle|];
      assert OccursAt(part, needle, i - from);
    }
  }

  /** Character by character: an occurrence of a marker holds no newline. */
  lemma OccurrenceChars(text: string, marker: string, i: nat)
    requires OccursAt(text, marker, i)
    ensures forall k :: 0 <= k < |marker| ==> text[i + k] == marker[k]
    ensures IsMarker(marker) ==> forall k :: i <= k < i + |marker| ==> text[k] != '\n'
    ensures IsMarker(marker) ==> forall k :: i < k < i + |marker| ==> text[k] != marker[0]
  {
    var window := text[i..i + |marker|];
    assert forall k :: 0 <= k < |marker| ==> text[i + k] == window[k];
    forall k | i <= k < i + |marker| && IsMarker(marker) ensures text[k] != '\n' {
      assert text[k] == marker[k - i];
    }
    forall k | i < k < i + |marker| && IsMarker(marker) ensures text[k] != marker[0] {
      assert marker[1..][k - i - 1] == marker[k - i];
    }
  }

  lemma OccurrencePrefix(text: string, needle: string, more: string, i: nat)
    requires OccursAt(text, needle + more, i)
    ensures OccursAt(text, needle, i)
  {
    var whole := text[i..i + |needle + more|];
    assert whole[..|needle|] == needle;
    assert text[i..i + |needle|] == whole[..|needle|];
  }

  /** Where a marker followed by newline-free text can occur in a marked description: inside the
      text before the marker line, at the marker line, or inside the identity. */
  lemma MarkerOccursWhere(base: string, marker: string, identity: string, wanted: string, i: nat)
    requires IsMarker(marker) && '\n' !in wanted
    requires OccursAt(Marked(base, marker, identity), marker + wanted, i)
    ensures i + |marker + wanted| <= |base| || i == |base| + 2 || i >= |base| + 2 + |marker|
  {
    var text := Marked(base, marker, identity);
    var p := |base| + 2;
    assert text[p..p + |marker|] == marker && OccursAt(text, marker, p);
    assert text[|base|] == '\n' && text[|base| + 1] == '\n';
    NoNewlineInside(text, marker + wanted, i);
    OccurrencePrefix(text, marker, wanted, i);
    OccurrenceChars(text, marker, p);
    OccurrenceChars(text, marker, i);
    assert text[i] == marker[0];
  }

  lemma NoNewlineInside(text: string, needle: string, i: nat)
    requires OccursAt(text, needle, i) && '\n' !in needle
    ensures forall k :: i <= k < i + |needle| ==> text[k] != '\n'
  {
    forall k | i <= k < i + |needle| ensures text[k] != '\n' {
      assert text[k] == text[i..i + |needle|][k - i];
    }
  }

  /** The exact meaning of the substring lookup, for any text and identity: it matches when the
      identity looked for is a PREFIX of the one in the marker line, or when the text or the
      identity quotes a marker line itself. */
  lemma LookupIs(base: string, marker: string, identity: string, wanted: string)
    requires IsMarker(marker) && '\n' !in wanted
    ensures Includes(Marked(base, marker, identity), marker + wanted) <==>
            wanted <= identity || Includes(base, marker + wanted) || Includes(identity, marker + wanted)
  {
    if Includes(Marked(base, marker, identity), marker + wanted) {
      var i :| 0 <= i <= |Marked(base, marker, identity)| && OccursAt(Marked(base, marker, identity), marker + wanted, i);
      OccurrenceTells(base, marker, identity, wanted, i);
    }
    if wanted <= identity { MarkedIncludesPrefix(base, marker, identity, wanted); }
    MarkedIncludesParts(base, marker, identity, marker + wanted);
  }

  lemma OccurrenceTells(base: string, marker: string, identity: string, wanted: string, i: nat)
    requires IsMarker(marker) && '\n' !in wanted
    requires OccursAt(Marked(base, marker, identity), marker + wanted, i)
    ensures wanted <= identity || Includes(base, marker + wanted) || Includes(identity, marker + wanted)
  {
    var text := Marked(base, marker, identity);
    var p, q := |base| + 2, |base| + 2 + |marker|;
    MarkerOccursWhere(base, marker, identity, wanted, i);
    assert text[0..|base|] == base && text[q..|text|] == identity && text[p..] == marker + identity;
    OccurrenceInside(text, marker + wanted, i, 0, |base|);
    OccurrenceInside(text, marker + wanted, i, q, |text|);
    if i == p {
      assert text[p..][..|marker + wanted|] == marker + wanted;
      assert (marker + identity)[..|marker + wanted|][|marker|..] == wanted;
    }
  }

  lemma MarkedIncludesParts(base: string, marker: string, identity: string, needle: string)
    ensures Includes(base, needle) || Includes(identity, needle) ==> Includes(Marked(base, marker, identity), needle)
  {
    var text := Marked(base, marker, identity);
    var q := |base| + 2 + |marker|;
    assert text[0..|base|] == base && text[q..|text|] == identity;
    PartIncludes(text, needle, 0, |base|);
    PartIncludes(text, needle, q, |text|);
  }

  lemma PartIncludes(text: string, needle: string, from: nat, to: nat)
    requires from <= to <= |text|
    ensures Includes(text[from..to], needle) ==> Includes(text, needle)
  {
    if Includes(text[from..to], needle) {
      var i :| 0 <= i <= to - from && OccursAt(text[from..to], needle, i);
      var part := text[from..to];
      assert forall k :: 0 <= k < |part| ==> part[k] == text[from + k];
      assert part[i..i + |needle|] == text[from + i..from + i + |needle|];
      assert OccursAt(text, needle, from + i);
    }
  }

  lemma MarkedIncludesPrefix(base: string, marker: string, identity: string, wanted: string)
    requires wanted <= identity
    ensures Includes(Marked(base, marker, identity), marker + wanted)
  {
    var text := Marked(base, marker, identity);
    var p := |base| + 2;
    assert text[p..] == marker + identity;
    assert text[p..p + |marker + wanted|] == text[p..][..|marker + wanted|] == marker + wanted;
    assert OccursAt(text, marker + wanted, p);
  }

  /** What comes before a marker line for this identity at the end of a description. */
  function TextBefore(description: string, marker: string, identity: string): string {
    var line := |Marked("", marker, identity)|;
    if line <= |description| then description[..|description| - line] else description
  }

  predicate EndsMarked(description: string, marker: string, identity: string) {
    description == Marked(TextBefore(description, marker, identity), marker, identity)
  }

  lemma MarkedEnds(base: string, marker: string, identity: string)
    ensures TextBefore(Marked(base, marker, identity), marker, identity) == base
  {
    assert Marked(base, marker, identity)[..|base|] == base;
  }

  // ----- The store -----

  datatype Evidence = Evidence(ticket: nat, token: nat, kind: string, summary: string)

  /** Everything written to the store on behalf of a delivery, in order. */
  datatype Effect =
    | Claim(ticket: nat, token: nat)
    | Heartbeat(token: nat)
    | RecordedEvidence(ticket: nat, token: nat, kind: string, summary: string)
    | DeliveryArtifact(ticket: nat, branch: string, prUrl: Option<string>)
    | RepoDelivery(ticket: nat, repoId: string, branch: string)
    | Submitted(ticket: nat, token: nat)
    | MarkedBlocked(ticket: nat, token: nat)

  /** Everything the store holds. */
  datatype StoreState = StoreState(tickets: seq<Ticket>, claims: map<nat, nat>, evidence: seq<Evidence>, effects: seq<Effect>)

  /** What an effect does to the ticket it names. */
  function TicketAfter(t: Ticket, e: Effect): Ticket {
    match e
    case Claim(_, _) => t.(status := ClaimedBy)
    case DeliveryArtifact(_, branch, _) => t.(branch := Some(branch))
    case Submitted(_, _) => t.(status := InReview)
    case MarkedBlocked(_, _) => t.(status := Blocked)
    case _ => t
  }

  function Named(e: Effect): nat {
    if e.Heartbeat? then 0 else e.ticket
  }

  /** What a successful store call leaves, as its effect records it. */
  function Perform(s: StoreState, e: Effect): StoreState {
    StoreState(
      if 0 < Named(e) <= |s.tickets| then s.tickets[Named(e) - 1 := TicketAfter(s.tickets[Named(e) - 1], e)] else s.tickets,
      if e.Claim? then s.claims[e.token := e.ticket] else s.claims,
      if e.RecordedEvidence? then s.evidence + [Evidence(e.ticket, e.token, e.kind, e.summary)] else s.evidence,
      s.effects + [e])
  }

  function PerformAll(s: StoreState, es: seq<Effect>): (r: StoreState)
    ensures |r.tickets| == |s.tickets|
  {
    if es == [] then s else Perform(PerformAll(s, es[..|es| - 1]), es[|es| - 1])
  }

  lemma {:induction false} PerformAllAppends(s: StoreState, a: seq<Effect>, b: seq<Effect>)
    ensures PerformAll(s, a + b) == PerformAll(PerformAll(s, a), b)
  {
    if b == [] {
      assert a + b == a;
    } else {
      PerformAllAppends(s, a, b[..|b| - 1]);
      assert (a + b)[..|a + b| - 1] == a + b[..|b| - 1];
    }
  }

  lemma {:induction false} PerformAllLogs(s: StoreState, es: seq<Effect>)
    ensures PerformAll(s, es).effects == s.effects + es
  {
    if es != [] {
      PerformAllLogs(s, es[..|es| - 1]);
      assert es == es[..|es| - 1] + [es[|es| - 1]];
    }
  }

  lemma PerformOne(s: StoreState, e: Effect)
    ensures PerformAll(s, [e]) == Perform(s, e)
  {
    assert [e][..0] == [];
  }

  class FakeDispatchClient {
    var tickets: seq<Ticket>
    var claims: map<nat, nat>   // claim token -> ticket number
    var evidence: seq<Evidence>
    var effects: seq<Effect>

    /** Tickets are numbered from one in creation order; every claim names a ticket; tokens are
        issued in sequence. */
    predicate Valid()
      reads this
    {
      && (forall i :: 0 <= i < |tickets| ==> tickets[i].number == i + 1)
      && (forall token :: token in claims ==> token < |claims| && 0 < claims[token] <= |tickets|)
    }

    constructor ()
      ensures Valid() && tickets == [] && claims == map[] && evidence == [] && effects == []
    {
      tickets, claims, evidence, effects := [], map[], [], [];
    }

    ghost function State(): StoreState
      reads this
    {
      StoreState(tickets, claims, evidence, effects)
    }

    predicate Has(number: nat) reads this { 0 < number <= |tickets| }

    function Get(number: nat): Ticket
      requires Has(number)
      reads this
    {
      tickets[number - 1]
    }

    function ListReady(): (ready: seq<nat>)
      reads this
    {
      ReadyAmong(tickets)
    }

    method SeedTicket(description: string, status: Status, criteria: seq<Criterion>, repos: seq<string>, origin: Origin)
      returns (number: nat)
      requires Valid()
      modifies this`tickets
      ensures Valid() && number == |old(tickets)| + 1
      ensures tickets == old(tickets) + [Ticket(number, description, status, None, criteria, repos, origin)]
    {
      number := |tickets| + 1;
      tickets := tickets + [Ticket(number, description, status, None, criteria, repos, origin)];
    }

    /** An empty finding key counts as none. */
    method CreateDraftTicket(description: string, repos: seq<string>, origin: Origin) returns (number: nat)
      requires Valid()
      modifies this`tickets
      ensures Valid() && number == |old(tickets)| + 1
      ensures tickets == old(tickets) + [Drafted(number, description, repos, origin)]
    {
      var text := if origin.FromFinding? && origin.key != "" then Marked(description, FINDING_MARKER, origin.key) else description;
      number := SeedTicket(text, Draft, [], repos, origin);
    }

    method AddAcceptanceCriterion(number: nat, criterion: Criterion)
      requires Valid() && Has(number)
      modifies this`tickets
      ensures Valid()
      ensures tickets == old(tickets)[number - 1 := old(Get(number)).(criteria := old(Get(number)).criteria + [criterion])]
    {
      tickets := tickets[number - 1 := Get(number).(criteria := Get(number).criteria + [criterion])];
    }

    /** The ready gate refuses a ticket without acceptance criteria. */
    method MarkTicketReady(number: nat) returns (ok: bool)
      requires Valid() && Has(number)
      modifies this`tickets
      ensures Valid()
      ensures ok <==> old(Get(number)).criteria != []
      ensures tickets == if ok then old(tickets)[number - 1 := old(Get(number)).(status := Ready)] else old(tickets)
    {
      ok := Get(number).criteria != [];
      if ok { tickets := tickets[number - 1 := Get(number).(status := Ready)]; }
    }

    /** Only a ticket that is `ready` can be claimed. */
    method ClaimTicket(number: nat) returns (token: Option<nat>)
      requires Valid()
      modifies this`tickets, this`claims, this`effects
      ensures Valid()
      ensures token.Some? <==> old(Has(number)) && old(Get(number)).status == Ready
      ensures token.None? ==> tickets == old(tickets) && claims == old(claims) && effects == old(effects)
      ensures token.Some? ==>
        && token.value == |old(claims)| && token.value !in old(claims)
        && tickets == old(tickets)[number - 1 := old(Get(number)).(status := ClaimedBy)]
        && claims == old(claims)[token.value := number]
        && effects == old(effects) + [Claim(number, token.value)]
    {
      if !Has(number) || Get(number).status != Ready { return None; }
      tickets := tickets[number - 1 := Get(number).(status := ClaimedBy)];
      var next := |claims|;
      claims := claims[next := number];
      effects := effects + [Claim(number, next)];
      token := Some(next);
    }

    /** `assertClaim`: the token is known and was issued for this ticket. */
    predicate HoldsClaim(token: nat, number: nat) reads this { token in claims && claims[token] == number }

    method SendHeartbeat(token: nat) returns (ok: bool)
      requires Valid()
      modifies this`effects
      ensures Valid() && (ok <==> token in claims)
      ensures effects == if ok then old(effects) + [Heartbeat(token)] else old(effects)
    {
      ok := token in claims;
      if ok { effects := effects + [Heartbeat(token)]; }
    }

    method RecordEvidence(token: nat, number: nat, kind: string, summary: string) returns (ok: bool)
      requires Valid()
      modifies this`evidence, this`effects
      ensures Valid() && (ok <==> HoldsClaim(token, number))
      ensures evidence == if ok then old(evidence) + [Evidence(number, token, kind, summary)] else old(evidence)
      ensures effects == if ok then old(effects) + [RecordedEvidence(number, token, kind, summary)] else old(effects)
    {
      ok := HoldsClaim(token, number);
      if ok {
        evidence := evidence + [Evidence(number, token, kind, summary)];
        effects := effects + [RecordedEvidence(number, token, kind, summary)];
      }
    }

    method RecordDeliveryArtifact(number: nat, branch: string, prUrl: Option<string>)
      requires Valid() && Has(number)
      modifies this`tickets, this`effects
      ensures Valid()
      ensures tickets == old(tickets)[number - 1 := old(Get(number)).(branch := Some(branch))]
      ensures effects == old(effects) + [DeliveryArtifact(number, branch, prUrl)]
    {
      tickets := tickets[number - 1 := Get(number).(branch := Some(branch))];
      effects := effects + [DeliveryArtifact(number, branch, prUrl)];
    }

    method RecordRepoDelivery(number: nat, repoId: string, branch: string)
      requires Valid() && Has(number)
      modifies this`effects
      ensures Valid() && effects == old(effects) + [RepoDelivery(number, repoId, branch)]
    {
      effects := effects + [RepoDelivery(number, repoId, branch)];
    }

    method SubmitForReview(token: nat, number: nat) returns (ok: bool)
      requires Valid()
      modifies this`tickets, this`effects
      ensures Valid() && (ok <==> HoldsClaim(token, number))
      ensures ok ==> old(Has(number)) && tickets == old(tickets)[number - 1 := old(Get(number)).(status := InReview)]
      ensures !ok ==> tickets == old(tickets)
      ensures effects == if ok then old(effects) + [Submitted(number, token)] else old(effects)
    {
      ok := HoldsClaim(token, number);
      if ok {
        tickets := tickets[number - 1 := Get(number).(status := InReview)];
        effects := effects + [Submitted(number, token)];
      }
    }

    method MarkBlocked(token: nat, number: nat) returns (ok: bool)
      requires Valid()
      modifies this`tickets, this`effects
      ensures Valid() && (ok <==> HoldsClaim(token, number))
      ensures ok ==> old(Has(number)) && tickets == old(tickets)[number - 1 := old(Get(number)).(status := Blocked)]
      ensures !ok ==> tickets == old(tickets)
      ensures effects == if ok then old(effects) + [MarkedBlocked(number, token)] else old(effects)
    {
      ok := HoldsClaim(token, number);
      if ok {
        tickets := tickets[number - 1 := Get(number).(status := Blocked)];
        effects := effects + [MarkedBlocked(number, token)];
      }
    }
  }

  function ReadyAmong(tickets: seq<Ticket>): seq<nat> {
    if tickets == [] then []
    else (if tickets[0].status == Ready then [tickets[0].number] else []) + ReadyAmong(tickets[1..])
  }

  /** The ready list starts with the first ready ticket, and is empty when there is none. */
  lemma {:induction false} FirstReady(tickets: seq<Ticket>)
    ensures ReadyAmong(tickets) == [] ==> forall i :: 0 <= i < |tickets| ==> tickets[i].status != Ready
    ensures ReadyAmong(tickets) != [] ==>
      exists i :: 0 <= i < |tickets| && tickets[i].number == ReadyAmong(tickets)[0] && tickets[i].status == Ready &&
                  forall k :: 0 <= k < i ==> tickets[k].status != Ready
  {
    if tickets != [] && tickets[0].status != Ready {
      FirstReady(tickets[1..]);
      assert forall i :: 0 < i < |tickets| ==> tickets[i] == tickets[1..][i - 1];
      if ReadyAmong(tickets) != [] {
        var i :| 0 <= i < |tickets[1..]| && tickets[1..][i].number == ReadyAmong(tickets[1..])[0] && tickets[1..][i].status == Ready &&
                 forall k :: 0 <= k < i ==> tickets[1..][k].status != Ready;
        assert tickets[i + 1].status == Ready && forall k :: 0 <= k < i + 1 ==> tickets[k].status != Ready;
      }
    }
  }

  /** A draft as the store writes it: a finding key becomes the last line of the description. */
  function Drafted(number: nat, description: string, repos: seq<string>, origin: Origin): Ticket {
    var text := if origin.FromFinding? && origin.key != "" then Marked(description, FINDING_MARKER, origin.key) else description;
    Ticket(number, text, Draft, None, [], repos, origin)
  }
}
