/** The pure half of packages/crew/src/loops/maintenanceLane.ts: the choice of the next
    maintenance lane from the loop flags and a persisted rotation cursor, and what that
    choice guarantees over whole runs. */
module MaintenanceLane {
  import opened Prelude

  /** The idle loops. `Other` covers every loop id that is not a maintenance lane, and any
      string a corrupt cursor file may carry as a key. */
  datatype Lane =
    | SecurityHotspot | Coverage | TestQuality | TypeQuality
    | TechDebt | Documentation | DependencyHygiene
    | Other(name: string)

  const MAINTENANCE_LANES: seq<Lane> :=
    [SecurityHotspot, Coverage, TestQuality, TypeQuality, TechDebt, Documentation, DependencyHygiene]

  function Priority(lane: Lane): nat {
    match lane
    case SecurityHotspot => 0
    case Coverage => 1
    case TestQuality => 2
    case TypeQuality => 3
    case TechDebt => 4
    case Documentation => 5
    case DependencyHygiene => 6
    case Other(_) => 7
  }

  datatype LoopFlags = LoopFlags(
    securityHotspot: bool, coverage: bool, testQuality: bool, typeQuality: bool,
    techDebt: bool, documentation: bool, dependencies: bool)

  predicate IsLaneEnabled(flags: LoopFlags, lane: Lane) {
    match lane
    case SecurityHotspot => flags.securityHotspot
    case Coverage => flags.coverage
    case TestQuality => flags.testQuality
    case TypeQuality => flags.typeQuality
    case TechDebt => flags.techDebt
    case Documentation => flags.documentation
    case DependencyHygiene => flags.dependencies
    case Other(_) => false
  }

  datatype Cursor = Cursor(tick: nat, lastRunTick: map<Lane, nat>, lastChosen: Option<Lane>)

  const EMPTY_CURSOR := Cursor(0, map[], None)

  /** What the cursor file holds; anything that fails to parse is `Corrupt`. */
  datatype CursorFile = Missing | Corrupt | Stored(cursor: Cursor)

  datatype Staleness = Never | Ticks(n: nat)

  datatype Choice = Choice(lane: Option<Lane>, next: Cursor)

  // ----- The selection -----

  function Sanitize(c: Cursor): Cursor {
    c.(lastRunTick := map lane | lane in c.lastRunTick && c.lastRunTick[lane] <= c.tick :: c.lastRunTick[lane])
  }

  predicate Sane(c: Cursor) {
    forall lane :: lane in c.lastRunTick ==> c.lastRunTick[lane] <= c.tick
  }

  function Load(file: CursorFile): Cursor {
    match file
    case Stored(cursor) => Sanitize(cursor)
    case _ => EMPTY_CURSOR
  }

  function StalenessOf(c: Cursor, lane: Lane): Staleness {
    if lane !in c.lastRunTick then Never
    else Ticks(if c.lastRunTick[lane] <= c.tick then c.tick - c.lastRunTick[lane] else 0)
  }

  predicate Staler(a: Staleness, b: Staleness) {
    b.Ticks? && (a.Never? || a.n > b.n)
  }

  /** The comparator of the ranking sort: most stale first, then priority. */
  predicate Precedes(c: Cursor, a: Lane, b: Lane) {
    var sa, sb := StalenessOf(c, a), StalenessOf(c, b);
    if sa != sb then Staler(sa, sb) else Priority(a) < Priority(b)
  }

  function EnabledAmong(flags: LoopFlags, lanes: seq<Lane>): seq<Lane> {
    if lanes == [] then []
    else (if IsLaneEnabled(flags, lanes[0]) then [lanes[0]] else []) + EnabledAmong(flags, lanes[1..])
  }

  function EnabledLanes(flags: LoopFlags): seq<Lane> {
    EnabledAmong(flags, MAINTENANCE_LANES)
  }

  function InsertRanked(c: Cursor, lane: Lane, ranked: seq<Lane>): seq<Lane> {
    if ranked == [] || Precedes(c, lane, ranked[0]) then [lane] + ranked
    else [ranked[0]] + InsertRanked(c, lane, ranked[1..])
  }

  function Rank(c: Cursor, lanes: seq<Lane>): seq<Lane> {
    if lanes == [] then [] else InsertRanked(c, lanes[0], Rank(c, lanes[1..]))
  }

  predicate GuardFires(c: Cursor, ranked: seq<Lane>) {
    |ranked| > 1 && c.lastChosen == Some(ranked[0])
  }

  function Stamp(c: Cursor, lane: Lane): Cursor {
    Cursor(c.tick + 1, c.lastRunTick[lane := c.tick + 1], Some(lane))
  }

  function Choose(flags: LoopFlags, raw: Cursor): Choice {
    var c := Sanitize(raw);
    var ranked := Rank(c, EnabledLanes(flags));
    if ranked == [] then Choice(None, c.(tick := c.tick + 1))
    else
      var lane := if GuardFires(c, ranked) then ranked[1] else ranked[0];
      Choice(Some(lane), Stamp(c, lane))
  }

  /** `sanitizeCursor` as the source runs it: a loop filling a fresh record. */
  method SanitizeCursor(c: Cursor) returns (clean: Cursor)
    ensures clean == Sanitize(c)
  {
    var cleaned: map<Lane, nat> := map[];
    var pending := c.lastRunTick.Keys;
    while pending != {}
      invariant pending <= c.lastRunTick.Keys
      invariant cleaned == map lane | lane in c.lastRunTick && lane !in pending && c.lastRunTick[lane] <= c.tick
                               :: c.lastRunTick[lane]
    {
      var lane :| lane in pending;
      pending := pending - {lane};
      if c.lastRunTick[lane] <= c.tick {
        cleaned := cleaned[lane := c.lastRunTick[lane]];
      }
    }
    clean := c.(lastRunTick := cleaned);
  }

  // ----- The ranking is the sorted list -----

  predicate Ranked(c: Cursor, lanes: seq<Lane>) {
    forall i, j :: 0 <= i < j < |lanes| ==> Precedes(c, lanes[i], lanes[j])
  }

  predicate AreLanes(lanes: seq<Lane>) {
    forall lane :: lane in lanes ==> !lane.Other?
  }

  predicate Distinct(lanes: seq<Lane>) {
    forall i, j :: 0 <= i < j < |lanes| ==> lanes[i] != lanes[j]
  }

  function Elements(lanes: seq<Lane>): set<Lane> {
    set lane | lane in lanes
  }

  lemma PrecedesIsTotal(c: Cursor, a: Lane, b: Lane)
    requires !a.Other? && !b.Other? && a != b
    ensures Precedes(c, a, b) <==> !Precedes(c, b, a)
  {
  }

  lemma PrecedesIsTransitive(c: Cursor, a: Lane, b: Lane, d: Lane)
    requires Precedes(c, a, b) && Precedes(c, b, d)
    ensures Precedes(c, a, d)
  {
  }

  lemma {:induction false} InsertKeepsRanked(c: Cursor, lane: Lane, ranked: seq<Lane>)
    requires Ranked(c, ranked) && AreLanes(ranked) && !lane.Other? && lane !in ranked
    ensures var r := InsertRanked(c, lane, ranked);
      Ranked(c, r) && AreLanes(r) && Elements(r) == Elements(ranked) + {lane} && |r| == |ranked| + 1
  {
    if ranked == [] {
    } else if Precedes(c, lane, ranked[0]) {
      forall j | 0 <= j < |ranked| ensures Precedes(c, lane, ranked[j]) {
        if j > 0 { PrecedesIsTransitive(c, lane, ranked[0], ranked[j]); }
      }
    } else {
      InsertKeepsRanked(c, lane, ranked[1..]);
      PrecedesIsTotal(c, lane, ranked[0]);
      assert ranked == [ranked[0]] + ranked[1..];
      ElementsOfCons(ranked[0], ranked[1..]);
      HeadStaysFirst(c, lane, ranked[0], ranked[1..], InsertRanked(c, lane, ranked[1..]));
    }
  }

  lemma ElementsOfCons(head: Lane, rest: seq<Lane>)
    ensures Elements([head] + rest) == {head} + Elements(rest)
  {
  }

  /** The head of a ranked list stays first when a lane it precedes is inserted behind it. */
  lemma HeadStaysFirst(c: Cursor, lane: Lane, head: Lane, tail: seq<Lane>, rest: seq<Lane>)
    requires Precedes(c, head, lane) && Ranked(c, [head] + tail) && AreLanes(rest) && !head.Other?
    requires Ranked(c, rest) && Elements(rest) == Elements(tail) + {lane}
    ensures Ranked(c, [head] + rest) && AreLanes([head] + rest) && Elements([head] + rest) == {head} + Elements(rest)
  {
    forall j | 0 <= j < |rest| ensures Precedes(c, head, rest[j]) {
      assert rest[j] in Elements(rest);
      if rest[j] != lane {
        assert rest[j] in Elements(tail);
        var k :| 0 <= k < |tail| && tail[k] == rest[j];
        assert Precedes(c, ([head] + tail)[0], ([head] + tail)[k + 1]);
      }
    }
    ElementsOfCons(head, rest);
  }

  lemma {:induction false} RankIsRanked(c: Cursor, lanes: seq<Lane>)
    requires AreLanes(lanes) && Distinct(lanes)
    ensures Ranked(c, Rank(c, lanes)) && AreLanes(Rank(c, lanes))
    ensures Elements(Rank(c, lanes)) == Elements(lanes) && |Rank(c, lanes)| == |lanes|
  {
    if lanes != [] {
      RankIsRanked(c, lanes[1..]);
      assert lanes[0] !in lanes[1..];
      assert lanes[0] !in Elements(Rank(c, lanes[1..]));
      InsertKeepsRanked(c, lanes[0], Rank(c, lanes[1..]));
      assert lanes == [lanes[0]] + lanes[1..];
    }
  }

  /** A ranked list is determined by its elements. */
  lemma {:induction false} RankedIsUnique(c: Cursor, a: seq<Lane>, b: seq<Lane>)
    requires Ranked(c, a) && Ranked(c, b) && AreLanes(a) && AreLanes(b)
    requires Elements(a) == Elements(b)
    ensures a == b
  {
    assert |b| > 0 ==> b[0] in Elements(b);
    if a != [] {
      assert a[0] in Elements(b) && (b != [] ==> b[0] in Elements(a));
      if a[0] != b[0] { PrecedesIsTotal(c, a[0], b[0]); }
      forall x ensures x in Elements(a[1..]) <==> x in Elements(b[1..]) {
        assert x in a <==> x == a[0] || x in a[1..];
        assert x in b <==> x == b[0] || x in b[1..];
        assert x in Elements(a) <==> x in Elements(b);
      }
      RankedIsUnique(c, a[1..], b[1..]);
    }
  }

  lemma EnabledLanesAre(flags: LoopFlags)
    ensures AreLanes(EnabledLanes(flags)) && Distinct(EnabledLanes(flags))
    ensures forall lane :: lane in EnabledLanes(flags) <==> IsLaneEnabled(flags, lane)
  {
    EnabledAmongAre(flags, MAINTENANCE_LANES);
    forall lane ensures IsLaneEnabled(flags, lane) ==> lane in MAINTENANCE_LANES {
      if !lane.Other? { assert MAINTENANCE_LANES[Priority(lane)] == lane; }
    }
  }

  lemma {:induction false} EnabledAmongAre(flags: LoopFlags, lanes: seq<Lane>)
    requires Distinct(lanes)
    ensures AreLanes(EnabledAmong(flags, lanes)) && Distinct(EnabledAmong(flags, lanes))
    ensures forall lane :: lane in EnabledAmong(flags, lanes) <==> lane in lanes && IsLaneEnabled(flags, lane)
  {
    if lanes != [] {
      EnabledAmongAre(flags, lanes[1..]);
      assert lanes[0] !in lanes[1..];
      assert forall lane :: lane in lanes <==> lane == lanes[0] || lane in lanes[1..];
    }
  }

  function RankedEnabled(flags: LoopFlags, c: Cursor): seq<Lane> {
    Rank(c, EnabledLanes(flags))
  }

  lemma RankedEnabledIs(flags: LoopFlags, c: Cursor)
    ensures var r := RankedEnabled(flags, c);
      Ranked(c, r) && AreLanes(r) && Elements(r) == Elements(EnabledLanes(flags)) &&
      |r| == |EnabledLanes(flags)| && Distinct(r) &&
      forall lane :: lane in r <==> IsLaneEnabled(flags, lane)
  {
    EnabledLanesAre(flags);
    RankIsRanked(c, EnabledLanes(flags));
    var r := RankedEnabled(flags, c);
    forall lane ensures lane in r <==> IsLaneEnabled(flags, lane) {
      assert lane in r <==> lane in Elements(r);
    }
  }

  // ----- One selection -----

  /** Which lane is chosen, without mentioning a sort: it is enabled, and every other enabled
      lane ranks after it, except the one lane the no-repeat guard passed over. */
  lemma ChooseIsBest(flags: LoopFlags, raw: Cursor)
    ensures var choice := Choose(flags, raw); var c := Sanitize(raw);
      match choice.lane
      case None => forall lane :: !IsLaneEnabled(flags, lane)
      case Some(best) =>
        && IsLaneEnabled(flags, best)
        && (forall other :: IsLaneEnabled(flags, other) && other != best && !Precedes(c, best, other) ==>
              raw.lastChosen == Some(other) && Precedes(c, other, best))
        && (raw.lastChosen == Some(best) ==>
              (forall other :: IsLaneEnabled(flags, other) ==> other == best) ||
              (exists other :: IsLaneEnabled(flags, other) && Precedes(c, other, best)))
  {
    var c := Sanitize(raw);
    RankedEnabledIs(flags, c);
    var r := RankedEnabled(flags, c);
    if r == [] {
      forall lane ensures !IsLaneEnabled(flags, lane) { assert lane !in r; }
    } else {
      var k := if GuardFires(c, r) then 1 else 0;
      forall other | IsLaneEnabled(flags, other) && other != r[k] && !Precedes(c, r[k], other)
        ensures raw.lastChosen == Some(other) && Precedes(c, other, r[k])
      {
        RanksAfterChoice(c, r, other);
      }
      if raw.lastChosen == Some(r[k]) { ChoiceRepeats(flags, c, r); }
    }
  }

  /** Only the lane the guard passed over ranks before the chosen one. */
  lemma RanksAfterChoice(c: Cursor, r: seq<Lane>, other: Lane)
    requires Ranked(c, r) && other in r && other != r[if GuardFires(c, r) then 1 else 0]
    ensures Precedes(c, r[if GuardFires(c, r) then 1 else 0], other) ||
            (c.lastChosen == Some(other) && Precedes(c, other, r[if GuardFires(c, r) then 1 else 0]))
  {
    var i :| 0 <= i < |r| && r[i] == other;
  }

  /** A lane is chosen twice in a row only if it is the only one enabled. */
  lemma ChoiceRepeats(flags: LoopFlags, c: Cursor, r: seq<Lane>)
    requires r != [] && Ranked(c, r) && Distinct(r) && forall lane :: lane in r <==> IsLaneEnabled(flags, lane)
    requires c.lastChosen == Some(r[if GuardFires(c, r) then 1 else 0])
    ensures |r| == 1 && forall other :: IsLaneEnabled(flags, other) ==> other == r[0]
  {
    forall other | IsLaneEnabled(flags, other) ensures other == r[0] { assert other in r; }
  }

  // ----- The rules of the selection, on the raw cursor -----

  /** As far as the scheduler can tell the lane never ran: it has no stamp, or one from the future. */
  predicate NeverRan(raw: Cursor, lane: Lane) {
    lane !in raw.lastRunTick || raw.lastRunTick[lane] > raw.tick
  }

  predicate RanBefore(raw: Cursor, a: Lane, b: Lane) {
    !NeverRan(raw, a) && !NeverRan(raw, b) && raw.lastRunTick[a] < raw.lastRunTick[b]
  }

  predicate SameAge(raw: Cursor, a: Lane, b: Lane) {
    if NeverRan(raw, a) then NeverRan(raw, b) else !NeverRan(raw, b) && raw.lastRunTick[a] == raw.lastRunTick[b]
  }

  lemma PrecedesIff(raw: Cursor, i: nat, j: nat)
    requires i < 7 && j < 7 && i != j
    ensures var a, b := MAINTENANCE_LANES[i], MAINTENANCE_LANES[j];
      Precedes(Sanitize(raw), a, b) <==>
        (NeverRan(raw, a) && !NeverRan(raw, b)) || RanBefore(raw, a, b) || (SameAge(raw, a, b) && i < j)
  {
    PriorityIsPosition(i);
    PriorityIsPosition(j);
  }

  lemma PriorityIsPosition(i: nat)
    requires i < 7
    ensures Priority(MAINTENANCE_LANES[i]) == i && !MAINTENANCE_LANES[i].Other?
  {
  }

  /** Whose flag is set, lane by lane. */
  lemma EnabledIff(flags: LoopFlags, lane: Lane)
    ensures IsLaneEnabled(flags, lane) <==>
      || (lane == SecurityHotspot && flags.securityHotspot) || (lane == Coverage && flags.coverage)
      || (lane == TestQuality && flags.testQuality) || (lane == TypeQuality && flags.typeQuality)
      || (lane == TechDebt && flags.techDebt) || (lane == Documentation && flags.documentation)
      || (lane == DependencyHygiene && flags.dependencies)
  {
  }

  /** No rival of a chosen lane was due before it, other than the lane of the previous selection: not
      one that never ran while the chosen one did, not one that ran longer ago, and not one of the
      same age and a higher place in the list. */
  predicate DueFirst(raw: Cursor, i: nat, j: nat)
    requires i < 7 && j < 7
  {
    var best, rival := MAINTENANCE_LANES[i], MAINTENANCE_LANES[j];
    raw.lastChosen == Some(rival) ||
    ((NeverRan(raw, rival) ==> NeverRan(raw, best)) && !RanBefore(raw, rival, best) && (SameAge(raw, rival, best) ==> i < j))
  }

  lemma ChooseFollowsRules(flags: LoopFlags, raw: Cursor, i: nat, j: nat)
    requires i < 7 && j < 7 && i != j
    requires Choose(flags, raw).lane == Some(MAINTENANCE_LANES[i]) && IsLaneEnabled(flags, MAINTENANCE_LANES[j])
    ensures IsLaneEnabled(flags, MAINTENANCE_LANES[i]) && DueFirst(raw, i, j)
  {
    ChooseIsBest(flags, raw);
    PrecedesIff(raw, i, j);
    LanesDiffer(i, j);
  }

  lemma LanesDiffer(i: nat, j: nat)
    requires i < 7 && j < 7 && i != j
    ensures MAINTENANCE_LANES[i] != MAINTENANCE_LANES[j]
  {
    PriorityIsPosition(i);
    PriorityIsPosition(j);
  }

  /** Without a usable cursor file the rotation starts afresh: the first selection takes the first
      enabled lane of the fixed order, at tick one. */
  lemma FirstSelection(flags: LoopFlags, file: CursorFile)
    requires !file.Stored?
    ensures Choose(flags, Load(file)).lane == FirstEnabled(flags)
    ensures Choose(flags, Load(file)).next.tick == 1
    ensures FirstEnabled(flags).Some? ==>
      Choose(flags, Load(file)).next == Cursor(1, map[FirstEnabled(flags).value := 1], FirstEnabled(flags))
  {
    var raw := Cursor(0, map[], None);
    ChooseIsBest(flags, raw);
    FirstEnabledIs(flags);
    var first, lane := FirstEnabled(flags), Choose(flags, raw).lane;
    if lane.Some? && first.Some? && lane != first { assert Precedes(Sanitize(raw), first.value, lane.value); }
  }

  lemma FirstEnabledIs(flags: LoopFlags)
    ensures match FirstEnabled(flags)
      case None => forall lane :: !IsLaneEnabled(flags, lane)
      case Some(first) => IsLaneEnabled(flags, first) && forall lane :: IsLaneEnabled(flags, lane) ==> Priority(first) <= Priority(lane)
  {
  }

  function FirstEnabled(flags: LoopFlags): Option<Lane> {
    if flags.securityHotspot then Some(SecurityHotspot)
    else if flags.coverage then Some(Coverage)
    else if flags.testQuality then Some(TestQuality)
    else if flags.typeQuality then Some(TypeQuality)
    else if flags.techDebt then Some(TechDebt)
    else if flags.documentation then Some(Documentation)
    else if flags.dependencies then Some(DependencyHygiene)
    else None
  }

  /** The cursor that is persisted: one tick later, the chosen lane stamped with that tick, stamps
      from the future dropped and all others kept. */
  lemma NextCursorIs(flags: LoopFlags, raw: Cursor, lane: Lane)
    ensures var choice := Choose(flags, raw);
      && choice.next.tick == raw.tick + 1
      && choice.next.lastChosen == (if choice.lane.Some? then choice.lane else raw.lastChosen)
      && (lane in choice.next.lastRunTick <==> choice.lane == Some(lane) || !NeverRan(raw, lane))
      && (lane in choice.next.lastRunTick ==>
            choice.next.lastRunTick[lane] == if choice.lane == Some(lane) then raw.tick + 1 else raw.lastRunTick[lane])
  {
  }

  lemma ChooseKeepsSane(flags: LoopFlags, raw: Cursor)
    ensures Sane(Choose(flags, raw).next)
    ensures Choose(flags, raw).next.tick == raw.tick + 1
    ensures Choose(flags, Sanitize(raw)) == Choose(flags, raw)
  {
    assert Sanitize(Sanitize(raw)) == Sanitize(raw);
  }

  lemma SaneIsFixed(c: Cursor)
    requires Sane(c)
    ensures Sanitize(c) == c
  {
    assert Sanitize(c).lastRunTick == c.lastRunTick;
  }

  /** A stamp ages every other lane by one tick and makes its own lane fresh. */
  lemma StampAges(c: Cursor, lane: Lane, a: Lane)
    requires Sane(c)
    ensures StalenessOf(Stamp(c, lane), a) ==
      if a == lane then Ticks(0) else if a in c.lastRunTick then Ticks(StalenessOf(c, a).n + 1) else Never
  {
  }

  lemma StampKeepsOrder(c: Cursor, lane: Lane, a: Lane, b: Lane)
    requires Sane(c) && a != lane && (b == lane || Precedes(c, a, b))
    ensures Precedes(Stamp(c, lane), a, b)
  {
    StampAges(c, lane, a);
    StampAges(c, lane, b);
  }

  /** `moved` is `r` with entry `j` moved to the back. */
  predicate MovedBack(r: seq<Lane>, j: nat, moved: seq<Lane>) {
    && j < |r| == |moved|
    && moved[|r| - 1] == r[j]
    && (forall k :: 0 <= k < |r| - 1 ==> moved[k] == r[SourceOf(j, k)])
  }

  function SourceOf(j: nat, k: nat): nat {
    if k < j then k else k + 1
  }

  lemma MovingBack(r: seq<Lane>, j: nat, moved: seq<Lane>)
    requires j < |r| && moved == r[..j] + r[j + 1..] + [r[j]]
    ensures MovedBack(r, j, moved)
  {
  }

  lemma MovedPair(c: Cursor, r: seq<Lane>, j: nat, moved: seq<Lane>, x: nat, y: nat)
    requires Sane(c) && Ranked(c, r) && Distinct(r) && MovedBack(r, j, moved) && x < y < |moved|
    ensures Precedes(Stamp(c, r[j]), moved[x], moved[y])
  {
    var i := SourceOf(j, x);
    assert moved[x] == r[i];
    assert if i < j then r[i] != r[j] else r[j] != r[i];
    if y < |r| - 1 {
      assert moved[y] == r[SourceOf(j, y)];
      assert Precedes(c, r[i], r[SourceOf(j, y)]);
    }
    StampKeepsOrder(c, r[j], moved[x], moved[y]);
  }

  lemma MovedIsRanked(c: Cursor, r: seq<Lane>, j: nat, moved: seq<Lane>)
    requires Sane(c) && Ranked(c, r) && Distinct(r) && MovedBack(r, j, moved)
    ensures Ranked(Stamp(c, r[j]), moved)
  {
    forall x, y | 0 <= x < y < |moved| ensures Precedes(Stamp(c, r[j]), moved[x], moved[y]) {
      MovedPair(c, r, j, moved, x, y);
    }
  }

  lemma MovedElements(r: seq<Lane>, j: nat, moved: seq<Lane>)
    requires MovedBack(r, j, moved)
    ensures Elements(moved) == Elements(r)
  {
    forall x ensures x in moved <==> x in r {
      if x in r {
        var k :| 0 <= k < |r| && r[k] == x;
        assert k == j ==> moved[|r| - 1] == x;
        assert k < j ==> moved[k] == r[SourceOf(j, k)];
        assert k > j ==> moved[k - 1] == r[SourceOf(j, k - 1)];
      }
      if x in moved {
        var k :| 0 <= k < |moved| && moved[k] == x;
        assert k < |r| - 1 ==> r[SourceOf(j, k)] == x;
      }
    }
  }

  /** Stamping a lane moves it to the back of the ranking and moves nothing else. */
  lemma StampRotates(flags: LoopFlags, c: Cursor, j: nat)
    requires Sane(c) && j < |RankedEnabled(flags, c)|
    ensures var r := RankedEnabled(flags, c);
      RankedEnabled(flags, Stamp(c, r[j])) == r[..j] + r[j + 1..] + [r[j]]
  {
    var r := RankedEnabled(flags, c);
    RankedEnabledIs(flags, c);
    MovedIsNext(flags, c, r, j, r[..j] + r[j + 1..] + [r[j]]);
  }

  lemma MovedIsNext(flags: LoopFlags, c: Cursor, r: seq<Lane>, j: nat, moved: seq<Lane>)
    requires Sane(c) && j < |r| && moved == r[..j] + r[j + 1..] + [r[j]]
    requires Ranked(c, r) && AreLanes(r) && Distinct(r) && Elements(r) == Elements(EnabledLanes(flags))
    ensures RankedEnabled(flags, Stamp(c, r[j])) == moved
  {
    MovingBack(r, j, moved);
    MovedIsRanked(c, r, j, moved);
    MovedElements(r, j, moved);
    SameElementsAreLanes(r, moved);
    RankedEnabledIs(flags, Stamp(c, r[j]));
    RankedIsUnique(Stamp(c, r[j]), RankedEnabled(flags, Stamp(c, r[j])), moved);
  }

  lemma SameElementsAreLanes(r: seq<Lane>, moved: seq<Lane>)
    requires AreLanes(r) && Elements(moved) == Elements(r)
    ensures AreLanes(moved)
  {
    forall x | x in moved ensures !x.Other? { assert x in Elements(moved); assert x in r; }
  }

  // ----- Runs -----

  /** The cursor after a sequence of selections, one flag setting per selection. */
  function After(c: Cursor, run: seq<LoopFlags>): Cursor
    decreases run
  {
    if run == [] then c else After(Choose(run[0], c).next, run[1..])
  }

  /** The lanes those selections choose. */
  function Selections(c: Cursor, run: seq<LoopFlags>): (lanes: seq<Option<Lane>>)
    ensures |lanes| == |run|
    decreases run
  {
    if run == [] then [] else [Choose(run[0], c).lane] + Selections(Choose(run[0], c).next, run[1..])
  }

  // ----- Starvation freedom -----

  predicate Behind(c: Cursor, lane: Lane, waiting: Lane) {
    Staler(StalenessOf(c, waiting), StalenessOf(c, lane))
  }

  /** The lanes in `behind` have all run since `waiting` last did. */
  predicate AllBehind(c: Cursor, behind: set<Lane>, waiting: Lane) {
    && Sane(c)
    && (forall lane :: lane in behind ==> !lane.Other? && lane != waiting && Behind(c, lane, waiting))
    && (behind != {} ==> c.lastChosen != Some(waiting))
  }

  /** A selection never picks a lane that has run since an enabled `waiting` did, except when
      the no-repeat guard passes `waiting` itself over. */
  lemma PassingOver(flags: LoopFlags, c: Cursor, waiting: Lane)
    requires Sane(c) && IsLaneEnabled(flags, waiting) && Choose(flags, c).lane != Some(waiting)
    ensures Choose(flags, c).lane.Some?
    ensures var lane := Choose(flags, c).lane.value;
      !lane.Other? && Choose(flags, c).next == Stamp(c, lane) &&
      (Behind(c, lane, waiting) ==> c.lastChosen == Some(waiting))
  {
    SaneIsFixed(c);
    var r := RankedEnabled(flags, c);
    RankedEnabledIs(flags, c);
    assert waiting in r;
    var k :| 0 <= k < |r| && r[k] == waiting;
    var lane := Choose(flags, c).lane.value;
    assert lane in r;
    assert k > 0 ==> Precedes(c, r[0], waiting);
    if Behind(c, lane, waiting) {
      assert Precedes(c, waiting, lane);
      assert k == 0;
    }
  }

  lemma StampPutsBehind(c: Cursor, lane: Lane, waiting: Lane, behind: set<Lane>)
    requires AllBehind(c, behind, waiting) && !lane.Other? && lane != waiting
    ensures AllBehind(Stamp(c, lane), behind + {lane}, waiting)
  {
    var next := Stamp(c, lane);
    assert Sane(next);
    forall x | x in behind + {lane} ensures !x.Other? && x != waiting && Behind(next, x, waiting) {
      assert x != lane ==> Behind(c, x, waiting);
    }
  }

  /** While `waiting` is enabled but not chosen, each selection chooses a lane not chosen since. */
  lemma {:induction false} WaitingIsShort(c: Cursor, run: seq<LoopFlags>, waiting: Lane, behind: set<Lane>)
    requires AllEnable(run, waiting) && !waiting.Other? && AllBehind(c, behind, waiting)
    requires Some(waiting) !in Selections(c, run)
    ensures |behind| + |run| <= 6
    decreases run
  {
    if run == [] {
      LanesOtherThan(waiting, behind);
    } else {
      NotAmongSelections(c, run, waiting);
      var lane := OneMoreBehind(run[0], c, waiting, behind);
      WaitingIsShort(Choose(run[0], c).next, run[1..], waiting, behind + {lane});
    }
  }

  predicate AllEnable(run: seq<LoopFlags>, lane: Lane) {
    forall i :: 0 <= i < |run| ==> IsLaneEnabled(run[i], lane)
  }

  /** The lane chosen instead has not been chosen since either. */
  lemma OneMoreBehind(flags: LoopFlags, c: Cursor, waiting: Lane, behind: set<Lane>) returns (lane: Lane)
    requires IsLaneEnabled(flags, waiting) && AllBehind(c, behind, waiting) && Choose(flags, c).lane != Some(waiting)
    ensures lane !in behind && AllBehind(Choose(flags, c).next, behind + {lane}, waiting)
  {
    PassingOver(flags, c, waiting);
    lane := Choose(flags, c).lane.value;
    StampPutsBehind(c, lane, waiting, behind);
  }

  lemma NotAmongSelections(c: Cursor, run: seq<LoopFlags>, waiting: Lane)
    requires run != [] && Some(waiting) !in Selections(c, run)
    ensures Choose(run[0], c).lane != Some(waiting) && Some(waiting) !in Selections(Choose(run[0], c).next, run[1..])
  {
    assert Selections(c, run) == [Choose(run[0], c).lane] + Selections(Choose(run[0], c).next, run[1..]);
  }

  lemma LanesOtherThan(waiting: Lane, lanes: set<Lane>)
    requires !waiting.Other?
    requires forall lane :: lane in lanes ==> !lane.Other? && lane != waiting
    ensures |lanes| <= 6
  {
    var all := {SecurityHotspot, Coverage, TestQuality, TypeQuality, TechDebt, Documentation, DependencyHygiene};
    assert |all - {waiting}| == 6;
    assert lanes <= all - {waiting};
    SubsetIsSmaller(lanes, all - {waiting});
  }

  lemma {:induction false} SubsetIsSmaller<T>(a: set<T>, b: set<T>)
    requires a <= b
    ensures |a| <= |b|
  {
    if a != {} {
      var x :| x in a;
      SubsetIsSmaller(a - {x}, b - {x});
    }
  }

  /** From ANY cursor, corrupt ones included: a lane that stays enabled is chosen within seven
      selections, however the other flags toggle meanwhile. */
  lemma NoLaneStarves(c: Cursor, run: seq<LoopFlags>, lane: Lane)
    requires |run| >= |MAINTENANCE_LANES|
    requires forall i :: 0 <= i < |run| ==> IsLaneEnabled(run[i], lane)
    ensures exists i :: 0 <= i < |MAINTENANCE_LANES| && Selections(c, run)[i] == Some(lane)
  {
    var seven := run[..7];
    assert IsLaneEnabled(run[0], lane);
    SelectionsOfPrefix(c, run, 7);
    SelectionsIgnoreSanitizing(c, seven);
    if Some(lane) !in Selections(c, seven) {
      WaitingIsShort(Sanitize(c), seven, lane, {});
    }
    var i :| 0 <= i < 7 && Selections(c, seven)[i] == Some(lane);
    assert Selections(c, run)[i] == Some(lane);
  }

  lemma SelectionsIgnoreSanitizing(c: Cursor, run: seq<LoopFlags>)
    ensures Selections(Sanitize(c), run) == Selections(c, run)
    ensures run != [] ==> After(Sanitize(c), run) == After(c, run)
  {
    if run != [] { ChooseKeepsSane(run[0], c); }
  }

  lemma {:induction false} SelectionsOfPrefix(c: Cursor, run: seq<LoopFlags>, n: nat)
    requires n <= |run|
    ensures Selections(c, run[..n]) == Selections(c, run)[..n]
    decreases n
  {
    if n > 0 {
      SelectionsOfPrefix(Choose(run[0], c).next, run[1..], n - 1);
      PrefixTail(run, n);
      PrefixOfCons(Choose(run[0], c).lane, Selections(Choose(run[0], c).next, run[1..]), n);
    }
  }

  lemma PrefixTail(run: seq<LoopFlags>, n: nat)
    requires 0 < n <= |run|
    ensures run[..n][0] == run[0] && run[..n][1..] == run[1..][..n - 1]
  {
  }

  lemma PrefixOfCons(first: Option<Lane>, rest: seq<Option<Lane>>, n: nat)
    requires 0 < n <= |rest| + 1
    ensures ([first] + rest)[..n] == [first] + rest[..n - 1]
  {
  }

  lemma {:induction false} SelectionsOfSuffix(c: Cursor, run: seq<LoopFlags>, n: nat)
    requires n <= |run|
    ensures Selections(After(c, run[..n]), run[n..]) == Selections(c, run)[n..]
    decreases n
  {
    if n > 0 {
      SelectionsOfSuffix(Choose(run[0], c).next, run[1..], n - 1);
      assert run[..n][1..] == run[1..][..n - 1];
      assert run[1..][n - 1..] == run[n..];
    } else {
      assert run[n..] == run;
    }
  }

  // ----- Round robin -----

  /** The order in which a fixed set of lanes is served: the ranking, its first two entries
      swapped when the no-repeat guard fires on the starting cursor. */
  function Ring(flags: LoopFlags, raw: Cursor): seq<Lane> {
    var c := Sanitize(raw);
    var r := RankedEnabled(flags, c);
    if GuardFires(c, r) then [r[1], r[0]] + r[2..] else r
  }

  lemma RingIsEnabledLanes(flags: LoopFlags, raw: Cursor)
    ensures var ring := Ring(flags, raw);
      Distinct(ring) && |ring| == |EnabledLanes(flags)| &&
      forall lane :: lane in ring <==> IsLaneEnabled(flags, lane)
  {
    var c := Sanitize(raw);
    RankedEnabledIs(flags, c);
    var r := RankedEnabled(flags, c);
    if GuardFires(c, r) { FirstTwoSwap(r); }
  }

  lemma FirstTwoSwap(r: seq<Lane>)
    requires |r| > 1 && Distinct(r)
    ensures var ring := [r[1], r[0]] + r[2..]; Distinct(ring) && |ring| == |r| && forall lane :: lane in ring <==> lane in r
  {
    var ring := [r[1], r[0]] + r[2..];
    assert forall k :: 2 <= k < |r| ==> ring[k] == r[k];
    assert r == [r[0], r[1]] + r[2..];
    assert forall lane :: lane in r <==> lane == r[0] || lane == r[1] || lane in r[2..];
    assert forall lane :: lane in ring <==> lane == r[0] || lane == r[1] || lane in r[2..];
  }

  function Rotated(ring: seq<Lane>): seq<Lane>
    requires ring != []
  {
    ring[1..] + [ring[0]]
  }

  lemma GuardSwaps(r: seq<Lane>)
    requires |r| > 1
    ensures r[..1] + r[2..] + [r[1]] == Rotated([r[1], r[0]] + r[2..])
  {
  }

  lemma FirstRotates(r: seq<Lane>)
    requires r != []
    ensures r[..0] + r[1..] + [r[0]] == Rotated(r)
  {
  }

  /** After a stamp the lane last chosen is at the back, so the guard rests. */
  lemma GuardRests(c: Cursor, r: seq<Lane>)
    requires r != [] && Distinct(r) && c.lastChosen == Some(r[|r| - 1])
    ensures !GuardFires(c, r)
  {
  }

  lemma {:induction false} RingTurns(flags: LoopFlags, raw: Cursor)
    requires EnabledLanes(flags) != []
    ensures Ring(flags, raw) != []
    ensures Choose(flags, raw).lane == Some(Ring(flags, raw)[0])
    ensures Ring(flags, Choose(flags, raw).next) == Rotated(Ring(flags, raw))
  {
    var c := Sanitize(raw);
    RankedEnabledIs(flags, c);
    var r := RankedEnabled(flags, c);
    var j := if GuardFires(c, r) then 1 else 0;
    var next := Stamp(c, r[j]);
    StampRotates(flags, c, j);
    RankedEnabledIs(flags, next);
    SaneIsFixed(next);
    GuardRests(next, RankedEnabled(flags, next));
    if j == 1 { GuardSwaps(r); } else { FirstRotates(r); }
  }

  predicate AllSame(run: seq<LoopFlags>, flags: LoopFlags) {
    forall k :: 0 <= k < |run| ==> run[k] == flags
  }

  lemma SameTail(run: seq<LoopFlags>, flags: LoopFlags)
    requires AllSame(run, flags) && run != []
    ensures AllSame(run[1..], flags) && run[0] == flags
  {
  }

  lemma {:induction false} RotatedAt(ring: seq<Lane>, i: nat)
    requires ring != []
    ensures Rotated(ring)[i % |ring|] == ring[(i + 1) % |ring|]
  {
    NextModulo(i, |ring|);
  }

  lemma {:induction false} RoundRobinStarts(flags: LoopFlags, raw: Cursor, run: seq<LoopFlags>)
    requires EnabledLanes(flags) != [] && run != [] && run[0] == flags
    ensures |Ring(flags, raw)| == |EnabledLanes(flags)| && Selections(raw, run)[0] == Some(Ring(flags, raw)[0])
  {
    RingIsEnabledLanes(flags, raw);
    RingTurns(flags, raw);
    SelectionAt(raw, run, 0);
  }

  lemma {:induction false} RoundRobinGoesOn(flags: LoopFlags, raw: Cursor, run: seq<LoopFlags>, i: nat, ring: seq<Lane>, next: Cursor)
    requires 0 < i < |run| && run[0] == flags && ring != [] && next == Choose(flags, raw).next
    requires Selections(next, run[1..])[i - 1] == Some(Rotated(ring)[(i - 1) % |ring|])
    ensures Selections(raw, run)[i] == Some(ring[i % |ring|])
  {
    SelectionAt(raw, run, i);
    TurnedOn(ring, i, Selections(next, run[1..])[i - 1]);
  }

  lemma {:induction false} TurnedOn(ring: seq<Lane>, i: nat, chosen: Option<Lane>)
    requires i > 0 && ring != [] && chosen == Some(Rotated(ring)[(i - 1) % |ring|])
    ensures chosen == Some(ring[i % |ring|])
  {
    RotatedAt(ring, i - 1);
  }

  /** With the flags fixed, selection i is entry i modulo n of the ring. */
  lemma {:induction false} RoundRobin(flags: LoopFlags, raw: Cursor, run: seq<LoopFlags>, i: nat)
    requires EnabledLanes(flags) != [] && i < |run| && AllSame(run, flags)
    ensures |Ring(flags, raw)| == |EnabledLanes(flags)|
    ensures Selections(raw, run)[i] == Some(Ring(flags, raw)[i % |EnabledLanes(flags)|])
    decreases run
  {
    SameTail(run, flags);
    RoundRobinStarts(flags, raw, run);
    if i == 0 {
      ModuloOf(0, 0, 0, |EnabledLanes(flags)|);
    } else {
      var next := Choose(flags, raw).next;
      RingTurns(flags, raw);
      RoundRobin(flags, next, run[1..], i - 1);
      RoundRobinGoesOn(flags, raw, run, i, Ring(flags, raw), next);
    }
  }

  lemma {:induction false} SelectionAt(c: Cursor, run: seq<LoopFlags>, i: nat)
    requires i < |run|
    ensures Selections(c, run)[i] == if i == 0 then Choose(run[0], c).lane else Selections(Choose(run[0], c).next, run[1..])[i - 1]
  {
  }

  lemma NextModulo(i: nat, n: nat)
    requires n > 0
    ensures (i + 1) % n == if i % n == n - 1 then 0 else i % n + 1
  {
    var q, m := i / n, i % n;
    assert i == q * n + m;
    if m == n - 1 {
      assert i + 1 == (q + 1) * n;
      ModuloOf(i + 1, q + 1, 0, n);
    } else {
      ModuloOf(i + 1, q, m + 1, n);
    }
  }

  lemma MultipleIsFar(d: int, n: int)
    requires n > 0
    ensures d >= 1 ==> d * n >= n
    ensures d <= -1 ==> d * n <= -n
  {
    if d >= 1 { assert d * n == n + (d - 1) * n; }
    if d <= -1 { assert d * n == -n + (d + 1) * n; }
  }

  lemma ModuloOf(x: int, q: int, m: nat, n: nat)
    requires m < n && x == q * n + m
    ensures x % n == m
  {
    var d := x / n - q;
    MultipleIsFar(d, n);
    assert x == (x / n) * n + x % n;
    assert (x / n) * n - q * n == d * n;
  }

  lemma SameModulo(i: nat, k: nat, n: nat)
    requires 0 < n && i <= k < i + n && i % n == k % n
    ensures i == k
  {
    var d := k / n - i / n;
    MultipleIsFar(d, n);
    assert i == (i / n) * n + i % n && k == (k / n) * n + k % n;
    assert k - i == d * n;
  }

  /** The position of residue `m` in a window of n consecutive numbers starting at `i`. */
  lemma WindowMeets(i: nat, m: nat, n: nat) returns (x: nat)
    requires m < n
    ensures i <= x < i + n && x % n == m
  {
    var q, k := i / n, i % n;
    assert i == q * n + k;
    x := if k <= m then i - k + m else i - k + n + m;
    assert (q + 1) * n == q * n + n;
    ModuloOf(x, if k <= m then q else q + 1, m, n);
  }

  /** Consequences read off the ring: the choice repeats with period n ... */
  lemma {:induction false} RoundRobinPeriod(flags: LoopFlags, raw: Cursor, run: seq<LoopFlags>, i: nat)
    requires EnabledLanes(flags) != [] && AllSame(run, flags)
    requires i + |EnabledLanes(flags)| < |run|
    ensures Selections(raw, run)[i + |EnabledLanes(flags)|] == Selections(raw, run)[i]
  {
    var n := |EnabledLanes(flags)|;
    assert i == (i / n) * n + i % n;
    assert i + n == (i / n + 1) * n + i % n;
    ModuloOf(i + n, i / n + 1, i % n, n);
    RoundRobin(flags, raw, run, i);
    RoundRobin(flags, raw, run, i + n);
  }

  /** ... and any n consecutive selections serve every enabled lane exactly once. */
  lemma {:induction false} RoundRobinServesAll(flags: LoopFlags, raw: Cursor, run: seq<LoopFlags>, i: nat)
    requires EnabledLanes(flags) != [] && AllSame(run, flags)
    requires i + |EnabledLanes(flags)| <= |run|
    ensures var window := Selections(raw, run)[i..i + |EnabledLanes(flags)|];
      && (forall x, y :: 0 <= x < y < |window| ==> window[x] != window[y])
      && (forall lane :: IsLaneEnabled(flags, lane) <==> Some(lane) in window)
  {
    WindowServesAll(flags, raw, run, i, |EnabledLanes(flags)|, Selections(raw, run)[i..i + |EnabledLanes(flags)|]);
  }

  lemma {:induction false} WindowServesAll(flags: LoopFlags, raw: Cursor, run: seq<LoopFlags>, i: nat, n: nat, window: seq<Option<Lane>>)
    requires n == |EnabledLanes(flags)| && EnabledLanes(flags) != [] && AllSame(run, flags)
    requires i + n <= |run| && window == Selections(raw, run)[i..i + n]
    ensures forall x, y :: 0 <= x < y < |window| ==> window[x] != window[y]
    ensures forall lane :: IsLaneEnabled(flags, lane) <==> Some(lane) in window
  {
    var ring := Ring(flags, raw);
    RingIsEnabledLanes(flags, raw);
    WindowReadsRing(flags, raw, run, i, ring, window);
    RingWindow(ring, window, i);
  }

  predicate ReadsRing(ring: seq<Lane>, window: seq<Option<Lane>>, i: nat) {
    |window| == |ring| && forall x :: 0 <= x < |ring| ==> window[x] == Some(ring[(i + x) % |ring|])
  }

  lemma {:induction false} WindowReadsRing(flags: LoopFlags, raw: Cursor, run: seq<LoopFlags>, i: nat, ring: seq<Lane>, window: seq<Option<Lane>>)
    requires EnabledLanes(flags) != [] && AllSame(run, flags) && i + |ring| <= |run|
    requires ring == Ring(flags, raw) && |ring| == |EnabledLanes(flags)| && window == Selections(raw, run)[i..i + |ring|]
    ensures ReadsRing(ring, window, i)
  {
    forall x | 0 <= x < |ring| ensures ReadsAt(Selections(raw, run), ring, i, x) {
      SelectionReads(flags, raw, run, i, ring, x);
    }
    WindowReads(Selections(raw, run), ring, window, i);
  }

  lemma {:induction false} SelectionReads(flags: LoopFlags, raw: Cursor, run: seq<LoopFlags>, i: nat, ring: seq<Lane>, x: nat)
    requires EnabledLanes(flags) != [] && AllSame(run, flags) && i + x < |run|
    requires ring == Ring(flags, raw) && |ring| == |EnabledLanes(flags)|
    ensures ReadsAt(Selections(raw, run), ring, i, x)
  {
    RoundRobin(flags, raw, run, i + x);
  }

  predicate ReadsAt(xs: seq<Option<Lane>>, ring: seq<Lane>, i: nat, x: nat) {
    ring != [] && i + x < |xs| && xs[i + x] == Some(ring[(i + x) % |ring|])
  }

  lemma {:induction false} WindowReads(xs: seq<Option<Lane>>, ring: seq<Lane>, window: seq<Option<Lane>>, i: nat)
    requires i + |ring| <= |xs| && window == xs[i..i + |ring|]
    requires forall x :: 0 <= x < |ring| ==> ReadsAt(xs, ring, i, x)
    ensures ReadsRing(ring, window, i)
  {
    forall x | 0 <= x < |ring| ensures window[x] == Some(ring[(i + x) % |ring|]) {
      assert ReadsAt(xs, ring, i, x) && window[x] == xs[i + x];
    }
  }

  lemma {:induction false} RingWindow(ring: seq<Lane>, window: seq<Option<Lane>>, i: nat)
    requires ReadsRing(ring, window, i) && ring != [] && Distinct(ring)
    ensures forall x, y :: 0 <= x < y < |window| ==> window[x] != window[y]
    ensures forall lane :: lane in ring <==> Some(lane) in window
  {
    var n := |ring|;
    forall x, y | 0 <= x < y < n ensures window[x] != window[y] {
      if (i + x) % n == (i + y) % n { SameModulo(i + x, i + y, n); }
    }
    forall lane | lane in ring ensures Some(lane) in window {
      var k :| 0 <= k < n && ring[k] == lane;
      var x := WindowMeets(i, k, n);
      assert window[x - i] == Some(lane);
    }
  }

  // ----- On the scheduler's own cursors the defences never act -----

  /** What every cursor written by this scheduler satisfies. */
  predicate Canonical(c: Cursor) {
    && Sane(c)
    && (forall a, b :: a in c.lastRunTick && b in c.lastRunTick && a != b ==> c.lastRunTick[a] != c.lastRunTick[b])
    && match c.lastChosen
       case None => c.lastRunTick == map[]
       case Some(last) =>
         last in c.lastRunTick &&
         forall lane :: lane in c.lastRunTick ==> c.lastRunTick[lane] <= c.lastRunTick[last]
  }

  lemma ChooseKeepsCanonical(flags: LoopFlags, c: Cursor)
    requires Canonical(c)
    ensures Canonical(Choose(flags, c).next)
  {
    SaneIsFixed(c);
  }

  lemma {:induction false} ReachableIsCanonical(c: Cursor, run: seq<LoopFlags>)
    requires Canonical(c)
    ensures Canonical(After(c, run))
    decreases run
  {
    if run != [] {
      ChooseKeepsCanonical(run[0], c);
      ReachableIsCanonical(Choose(run[0], c).next, run[1..]);
    }
  }

  /** Least-recently-run selection with no sanitiser, no clamp and no guard: the oldest stamp
      wins, "never run" counts as older than any stamp, earlier in the list breaks ties. */
  function Oldest(c: Cursor, lanes: seq<Lane>): Lane
    requires lanes != []
  {
    if |lanes| == 1 then lanes[0]
    else
      var rest := Oldest(c, lanes[1..]);
      if RunStamp(c, rest) < RunStamp(c, lanes[0]) then rest else lanes[0]
  }

  function RunStamp(c: Cursor, lane: Lane): int {
    if lane in c.lastRunTick then c.lastRunTick[lane] else -1
  }

  function PlainLru(flags: LoopFlags, c: Cursor): Choice {
    var lanes := EnabledLanes(flags);
    if lanes == [] then Choice(None, c.(tick := c.tick + 1))
    else Choice(Some(Oldest(c, lanes)), Stamp(c, Oldest(c, lanes)))
  }

  predicate InPriorityOrder(lanes: seq<Lane>) {
    forall i, j :: 0 <= i < j < |lanes| ==> Priority(lanes[i]) < Priority(lanes[j])
  }

  lemma {:induction false} EnabledInPriorityOrder(flags: LoopFlags, lanes: seq<Lane>)
    requires InPriorityOrder(lanes) && Distinct(lanes)
    ensures InPriorityOrder(EnabledAmong(flags, lanes))
  {
    if lanes != [] {
      EnabledInPriorityOrder(flags, lanes[1..]);
      EnabledAmongAre(flags, lanes[1..]);
      forall lane | lane in EnabledAmong(flags, lanes[1..]) ensures Priority(lanes[0]) < Priority(lane) {
        var k :| 0 <= k < |lanes[1..]| && lanes[1..][k] == lane;
        assert lanes[k + 1] == lane;
      }
    }
  }

  lemma {:induction false} OldestIsTop(c: Cursor, lanes: seq<Lane>)
    requires Sane(c) && lanes != [] && AreLanes(lanes) && InPriorityOrder(lanes)
    ensures Oldest(c, lanes) in lanes
    ensures forall lane :: lane in lanes && lane != Oldest(c, lanes) ==> Precedes(c, Oldest(c, lanes), lane)
  {
    if |lanes| > 1 {
      OldestIsTop(c, lanes[1..]);
      var rest := Oldest(c, lanes[1..]);
      assert forall lane :: lane in lanes <==> lane == lanes[0] || lane in lanes[1..];
      var k :| 0 <= k < |lanes[1..]| && lanes[1..][k] == rest;
      assert Priority(lanes[0]) < Priority(lanes[k + 1]);
      forall lane | lane in lanes && lane != Oldest(c, lanes) ensures Precedes(c, Oldest(c, lanes), lane) {
        if lane in lanes[1..] && lane != rest { assert Precedes(c, rest, lane); }
      }
    }
  }

  /** The guard can only fire on a cursor this scheduler did not write. */
  lemma GuardNeedsForeignCursor(flags: LoopFlags, c: Cursor)
    requires Canonical(c)
    ensures !GuardFires(c, RankedEnabled(flags, c))
  {
    RankedEnabledIs(flags, c);
    var r := RankedEnabled(flags, c);
    assert |r| > 1 ==> Precedes(c, r[0], r[1]);
  }

  /** The head of the ranking is the least recently run lane. */
  lemma TopIsOldest(flags: LoopFlags, c: Cursor)
    requires Sane(c) && EnabledLanes(flags) != []
    ensures RankedEnabled(flags, c) != []
    ensures RankedEnabled(flags, c)[0] == Oldest(c, EnabledLanes(flags))
  {
    var lanes := EnabledLanes(flags);
    EnabledLanesAre(flags);
    EnabledInPriorityOrder(flags, MAINTENANCE_LANES);
    OldestIsTop(c, lanes);
    RankedEnabledIs(flags, c);
    var r := RankedEnabled(flags, c);
    var top := Oldest(c, lanes);
    assert r[0] in Elements(lanes) && top in Elements(r);
    var k :| 0 <= k < |r| && r[k] == top;
    if k > 0 { PrecedesIsTotal(c, r[0], top); }
  }

  /** On every cursor reachable from the empty one, the sanitiser and the clamp are
      identities, stamps are distinct, the guard is silent, and the selection is plain
      least-recently-run. */
  lemma OwnCursorsNeedNoDefence(run: seq<LoopFlags>, flags: LoopFlags)
    ensures var c := After(EMPTY_CURSOR, run);
      && Sanitize(c) == c
      && (forall lane :: lane in c.lastRunTick ==> c.lastRunTick[lane] <= c.tick)
      && (forall a, b :: a in c.lastRunTick && b in c.lastRunTick && a != b ==> c.lastRunTick[a] != c.lastRunTick[b])
      && !GuardFires(c, RankedEnabled(flags, c))
      && Choose(flags, c) == PlainLru(flags, c)
  {
    ReachableIsCanonical(EMPTY_CURSOR, run);
    var c := After(EMPTY_CURSOR, run);
    SaneIsFixed(c);
    GuardNeedsForeignCursor(flags, c);
    RankedEnabledIs(flags, c);
    if EnabledLanes(flags) != [] { TopIsOldest(flags, c); }
  }
}
