/** The lexical-duplication detector of packages/crew/src/loops/idleTechDebt.ts: one pass over
    all 10-line windows with a hash map, proved equal to a quadratic specification. */
module Duplication {
  import opened Prelude
  import opened Text

  const DUP_WINDOW: nat := 10
  const DUP_MIN_NONBLANK_LINES: nat := 4

  datatype File = File(name: string, source: string)

  // ----- Lines -----

  /** `source.split("\n")` */
  function Lines(s: string): (lines: seq<string>)
    ensures lines != []
  {
    if s == "" then [""]
    else
      var rest := Lines(s[1..]);
      if s[0] == '\n' then [""] + rest else [[s[0]] + rest[0]] + rest[1..]
  }

  function TrimStart(s: string): string {
    if s != "" && IsSpace(s[0]) then TrimStart(s[1..]) else s
  }

  function TrimEnd(s: string): string {
    if s != "" && IsSpace(s[|s| - 1]) then TrimEnd(s[..|s| - 1]) else s
  }

  function Trim(s: string): string {
    TrimEnd(TrimStart(s))
  }

  /** `window.join("\n")`: the hash key. */
  function JoinLines(lines: seq<string>): string {
    if lines == [] then "" else if |lines| == 1 then lines[0] else lines[0] + "\n" + JoinLines(lines[1..])
  }

  predicate NoNewline(s: string) {
    '\n' !in s
  }

  predicate AllPlain(lines: seq<string>) {
    forall i :: 0 <= i < |lines| ==> NoNewline(lines[i])
  }

  lemma {:induction false} LinesArePlain(s: string)
    ensures AllPlain(Lines(s))
    ensures JoinLines(Lines(s)) == s
  {
    if s != "" {
      LinesArePlain(s[1..]);
      assert s == [s[0]] + s[1..];
      if s[0] == '\n' { EmptyLineFirst(Lines(s[1..])); } else { FirstLineGrows(s[0], Lines(s[1..])); }
    }
  }

  lemma EmptyLineFirst(rest: seq<string>)
    requires rest != [] && AllPlain(rest)
    ensures AllPlain([""] + rest) && JoinLines([""] + rest) == "\n" + JoinLines(rest)
  {
    assert ([""] + rest)[1..] == rest;
    assert "" + "\n" == "\n";
  }

  lemma FirstLineGrows(c: char, rest: seq<string>)
    requires c != '\n' && rest != [] && AllPlain(rest)
    ensures AllPlain([[c] + rest[0]] + rest[1..]) && JoinLines([[c] + rest[0]] + rest[1..]) == [c] + JoinLines(rest)
  {
    var lines := [[c] + rest[0]] + rest[1..];
    assert NoNewline(rest[0]) && lines[1..] == rest[1..];
    forall i | 0 <= i < |lines| ensures NoNewline(lines[i]) { assert i > 0 ==> lines[i] == rest[i]; }
    if |rest| > 1 {
      Associate([c], rest[0], "\n");
      Associate([c], rest[0] + "\n", JoinLines(rest[1..]));
    }
  }

  lemma {:induction false} TrimIsPlain(s: string)
    requires NoNewline(s)
    ensures NoNewline(TrimStart(s)) && NoNewline(TrimEnd(s))
    decreases |s|
  {
    if s != "" {
      assert NoNewline(s[1..]) && NoNewline(s[..|s| - 1]);
      TrimIsPlain(s[1..]);
      TrimIsPlain(s[..|s| - 1]);
    }
  }

  lemma {:induction false} FirstLineIsUnique(x: string, a: string, y: string, b: string)
    requires NoNewline(x) && NoNewline(y) && x + ("\n" + a) == y + ("\n" + b)
    ensures x == y && a == b
  {
    assert (x + ("\n" + a))[0] == if x == "" then '\n' else x[0];
    assert (y + ("\n" + b))[0] == if y == "" then '\n' else y[0];
    if x == "" {
      assert x + ("\n" + a) == "\n" + a && y + ("\n" + b) == "\n" + b;
      assert a == ("\n" + a)[1..] && b == ("\n" + b)[1..];
    } else {
      assert (x + ("\n" + a))[1..] == x[1..] + ("\n" + a) && (y + ("\n" + b))[1..] == y[1..] + ("\n" + b);
      FirstLineIsUnique(x[1..], a, y[1..], b);
      assert x == [x[0]] + x[1..] && y == [y[0]] + y[1..];
    }
  }

  /** Joining lists of newline-free lines of one length loses nothing. */
  lemma {:induction false} JoinIsInjective(a: seq<string>, b: seq<string>)
    requires |a| == |b| && AllPlain(a) && AllPlain(b) && JoinLines(a) == JoinLines(b)
    ensures a == b
  {
    if |a| > 1 {
      assert NoNewline(a[0]) && NoNewline(b[0]);
      assert a[0] + ("\n" + JoinLines(a[1..])) == JoinLines(a) && b[0] + ("\n" + JoinLines(b[1..])) == JoinLines(b);
      FirstLineIsUnique(a[0], JoinLines(a[1..]), b[0], JoinLines(b[1..]));
      assert forall i :: 0 <= i < |a[1..]| ==> a[1..][i] == a[i + 1] && b[1..][i] == b[i + 1];
      JoinIsInjective(a[1..], b[1..]);
      assert a == [a[0]] + a[1..] && b == [b[0]] + b[1..];
    }
  }

  // ----- Windows -----

  function WindowCount(source: string): nat {
    if |Lines(source)| < DUP_WINDOW then 0 else |Lines(source)| - DUP_WINDOW + 1
  }

  /** The trimmed window that starts at line `p`. */
  function WindowAt(source: string, p: nat): (w: seq<string>)
    requires p < WindowCount(source)
    ensures |w| == DUP_WINDOW
  {
    var lines := Lines(source);
    seq(DUP_WINDOW, k requires 0 <= k < DUP_WINDOW => Trim(lines[p + k]))
  }

  function NonBlank(lines: seq<string>): nat {
    if lines == [] then 0 else (if |lines[0]| > 0 then 1 else 0) + NonBlank(lines[1..])
  }

  predicate Interesting(w: seq<string>) {
    NonBlank(w) >= DUP_MIN_NONBLANK_LINES
  }

  lemma WindowIsPlain(source: string, p: nat)
    requires p < WindowCount(source)
    ensures AllPlain(WindowAt(source, p))
  {
    LinesArePlain(source);
    forall k | 0 <= k < DUP_WINDOW ensures NoNewline(WindowAt(source, p)[k]) {
      var line := Lines(source)[p + k];
      assert NoNewline(line);
      TrimIsPlain(line);
      TrimIsPlain(TrimStart(line));
      assert WindowAt(source, p)[k] == Trim(line);
    }
  }

  // ----- Specification -----

  /** A place: a file and a line to start from. */
  datatype Place = Place(file: nat, line: nat)

  predicate IsPlace(files: seq<File>, at: Place) {
    at.file < |files| && at.line < WindowCount(files[at.file].source)
  }

  function At(files: seq<File>, at: Place): (w: seq<string>)
    requires IsPlace(files, at)
  {
    WindowAt(files[at.file].source, at.line)
  }

  /** The window at this place has enough content and occurs at another place as well. */
  ghost predicate Duplicated(files: seq<File>, at: Place)
    requires IsPlace(files, at)
  {
    Interesting(At(files, at)) &&
    exists other :: IsPlace(files, other) && other != at && At(files, other) == At(files, at)
  }

  /** The places of a file name. */
  ghost predicate InFile(files: seq<File>, at: Place, name: string) {
    IsPlace(files, at) && files[at.file].name == name
  }

  // ----- The specification on the raw lines -----

  predicate AllSpace(s: string) {
    forall i :: 0 <= i < |s| ==> IsSpace(s[i])
  }

  lemma {:induction false} TrimStartIs(s: string) returns (lead: string)
    ensures AllSpace(lead) && s == lead + TrimStart(s) && (TrimStart(s) == "" || !IsSpace(TrimStart(s)[0]))
  {
    lead := "";
    if s != "" && IsSpace(s[0]) {
      lead := TrimStartIs(s[1..]);
      lead := [s[0]] + lead;
    }
  }

  lemma {:induction false} TrimEndIs(s: string) returns (trail: string)
    ensures AllSpace(trail) && s == TrimEnd(s) + trail && (TrimEnd(s) == "" || !IsSpace(TrimEnd(s)[|TrimEnd(s)| - 1]))
    ensures TrimEnd(s) <= s
  {
    trail := "";
    if s != "" && IsSpace(s[|s| - 1]) {
      var n := |s| - 1;
      trail := TrimEndIs(s[..n]);
      assert s == s[..n] + [s[n]];
      trail := trail + [s[n]];
    }
  }

  /** A text without white space at either end. */
  predicate IsCore(s: string) {
    s == "" || (!IsSpace(s[0]) && !IsSpace(s[|s| - 1]))
  }

  /** `line` is `core` between two stretches of white space. */
  predicate Wraps(line: string, core: string, lead: string, trail: string) {
    AllSpace(lead) && AllSpace(trail) && line == lead + core + trail
  }

  lemma {:induction false} SpaceBefore(lead: string, s: string)
    requires AllSpace(lead) && (s == "" || !IsSpace(s[0]))
    ensures TrimStart(lead + s) == s
  {
    if lead == "" {
      assert lead + s == s;
    } else {
      assert (lead + s)[1..] == lead[1..] + s;
      SpaceBefore(lead[1..], s);
    }
  }

  lemma {:induction false} SpaceAfter(s: string, trail: string)
    requires AllSpace(trail) && (s == "" || !IsSpace(s[|s| - 1]))
    ensures TrimEnd(s + trail) == s
  {
    if trail == "" {
      assert s + trail == s;
    } else {
      var n := |trail| - 1;
      assert (s + trail)[..|s + trail| - 1] == s + trail[..n];
      SpaceAfter(s, trail[..n]);
    }
  }

  /** Trimming a line leaves its core: the one text without outer white space that the line wraps. */
  lemma TrimIff(line: string, core: string)
    ensures Trim(line) == core <==> IsCore(core) && exists lead, trail :: Wraps(line, core, lead, trail)
  {
    if Trim(line) == core {
      var lead := TrimStartIs(line);
      var trail := TrimEndIs(TrimStart(line));
      assert core != "" ==> core[0] == TrimStart(line)[0];
      assert Wraps(line, core, lead, trail);
    }
    if IsCore(core) {
      if lead, trail :| Wraps(line, core, lead, trail) { WrappedTrims(line, core, lead, trail); }
    }
  }

  lemma WrappedTrims(line: string, core: string, lead: string, trail: string)
    requires IsCore(core) && Wraps(line, core, lead, trail)
    ensures Trim(line) == core
  {
    assert line == lead + (core + trail);
    if core == "" {
      assert line == (lead + trail) + "";
      SpaceBefore(lead + trail, "");
    } else {
      assert (core + trail)[0] == core[0];
      SpaceBefore(lead, core + trail);
      SpaceAfter(core, trail);
    }
  }

  /** The two lines are one core with different white space around it. */
  ghost predicate Reindented(a: string, b: string) {
    exists core, lead, trail, lead', trail' :: Wraps(a, core, lead, trail) && Wraps(b, core, lead', trail')
  }

  lemma ReindentedIff(a: string, b: string)
    ensures Trim(a) == Trim(b) <==> Reindented(a, b)
  {
    TrimIff(a, Trim(a));
    TrimIff(b, Trim(b));
    if core, lead, trail, lead', trail' :| Wraps(a, core, lead, trail) && Wraps(b, core, lead', trail') {
      CoreOf(a, core, lead, trail);
      CoreOf(b, core, lead', trail');
    }
  }

  /** White space inside the core's own ends does not matter either. */
  lemma CoreOf(line: string, core: string, lead: string, trail: string)
    requires Wraps(line, core, lead, trail)
    ensures Trim(line) == Trim(core)
  {
    var lead' := TrimStartIs(core);
    var trail' := TrimEndIs(TrimStart(core));
    TrimIff(core, Trim(core));
    FiveParts(lead, lead', Trim(core), trail', trail);
    assert Wraps(line, Trim(core), lead + lead', trail' + trail);
    TrimIff(line, Trim(core));
  }

  lemma FiveParts(a: string, b: string, c: string, d: string, e: string)
    ensures a + (b + (c + d)) + e == (a + b) + c + (d + e)
  {
    Associate(a, b, c + d);
    Associate(a + b, c, d);
    Associate((a + b) + c, d, e);
  }

  /** Raw line `k` of the window at a place. */
  function LineAt(files: seq<File>, at: Place, k: nat): string
    requires IsPlace(files, at) && k < 10
  {
    Lines(files[at.file].source)[at.line + k]
  }

  lemma {:induction false} NonBlankAppends(lines: seq<string>, last: string)
    ensures NonBlank(lines + [last]) == NonBlank(lines) + if last != "" then 1 else 0
  {
    if lines == [] {
      assert [] + [last] == [last] && [last][1..] == [];
    } else {
      assert (lines + [last])[1..] == lines[1..] + [last];
      NonBlankAppends(lines[1..], last);
    }
  }

  function NonBlankAt(lines: seq<string>): set<nat> {
    set k: nat | 0 <= k < |lines| && lines[k] != ""
  }

  lemma {:induction false} NonBlankIs(lines: seq<string>)
    ensures NonBlank(lines) == |NonBlankAt(lines)|
  {
    if lines != [] {
      var n := |lines| - 1;
      NonBlankIs(lines[..n]);
      NonBlankAppends(lines[..n], lines[n]);
      assert lines == lines[..n] + [lines[n]];
      assert NonBlankAt(lines) == NonBlankAt(lines[..n]) + if lines[n] != "" then {n} else {};
    }
  }

  /** A line with something on it. */
  predicate HasText(line: string) {
    exists i :: 0 <= i < |line| && !IsSpace(line[i])
  }

  lemma HasTextIff(line: string)
    ensures Trim(line) != "" <==> HasText(line)
  {
    TrimIff(line, Trim(line));
    var lead, trail :| Wraps(line, Trim(line), lead, trail);
    if Trim(line) != "" { assert line[|lead|] == Trim(line)[0]; }
  }

  /** Without trimming, hashing or counting: a ten-line block is duplicated exactly when at least four
      of its lines have text on them and, at some other place, ten lines are the same but for the
      white space around them. So re-indenting a copy does not hide it. */
  lemma DuplicatedIff(files: seq<File>, at: Place)
    requires IsPlace(files, at)
    ensures Duplicated(files, at) <==>
      && |set k: nat | 0 <= k < 10 && HasText(LineAt(files, at, k))| >= 4
      && exists other :: IsPlace(files, other) && other != at && forall k :: 0 <= k < 10 ==> Reindented(LineAt(files, at, k), LineAt(files, other, k))
  {
    var w := At(files, at);
    NonBlankIs(w);
    forall k | 0 <= k < 10 ensures w[k] != "" <==> HasText(LineAt(files, at, k)) { HasTextIff(LineAt(files, at, k)); }
    assert (set k: nat | 0 <= k < 10 && HasText(LineAt(files, at, k))) == NonBlankAt(w);
    forall other | IsPlace(files, other)
      ensures At(files, other) == w <==> forall k :: 0 <= k < 10 ==> Reindented(LineAt(files, at, k), LineAt(files, other, k))
    {
      SameWindowIff(files, at, other);
    }
  }

  lemma SameWindowIff(files: seq<File>, at: Place, other: Place)
    requires IsPlace(files, at) && IsPlace(files, other)
    ensures At(files, other) == At(files, at) <==> forall k :: 0 <= k < 10 ==> Reindented(LineAt(files, at, k), LineAt(files, other, k))
  {
    forall k | 0 <= k < 10
      ensures At(files, at)[k] == At(files, other)[k] <==> Reindented(LineAt(files, at, k), LineAt(files, other, k))
    {
      ReindentedIff(LineAt(files, at, k), LineAt(files, other, k));
    }
  }

  // ----- The pass -----

  /** One interesting window, in scan order. */
  datatype Occurrence = Occurrence(at: Place, name: string, window: seq<string>)

  datatype Entry = Entry(files: set<string>, occurrences: nat)

  function FileOccurrences(index: nat, f: File, n: nat): seq<Occurrence>
    requires n <= WindowCount(f.source)
  {
    if n == 0 then []
    else
      var w := WindowAt(f.source, n - 1);
      FileOccurrences(index, f, n - 1) + if Interesting(w) then [Occurrence(Place(index, n - 1), f.name, w)] else []
  }

  function Occurrences(files: seq<File>): seq<Occurrence> {
    if files == [] then []
    else
      var n := |files| - 1;
      Occurrences(files[..n]) + FileOccurrences(n, files[n], WindowCount(files[n].source))
  }

  function Tally(occs: seq<Occurrence>): map<string, Entry> {
    if occs == [] then map[]
    else AddTo(Tally(occs[..|occs| - 1]), occs[|occs| - 1])
  }

  function AddTo(windows: map<string, Entry>, o: Occurrence): map<string, Entry> {
    var hash := JoinLines(o.window);
    var entry := if hash in windows then windows[hash] else Entry({}, 0);
    windows[hash := Entry(entry.files + {o.name}, entry.occurrences + 1)]
  }

  lemma TallyAppends(occs: seq<Occurrence>, o: Occurrence)
    ensures Tally(occs + [o]) == AddTo(Tally(occs), o)
  {
    assert (occs + [o])[..|occs|] == occs;
  }

  predicate IsCluster(e: Entry) {
    |e.files| >= 2 || e.occurrences >= 2
  }

  /** The clusters of a file among some keys. */
  function ClusterKeys(windows: map<string, Entry>, keys: set<string>, name: string): set<string> {
    set hash | hash in keys && hash in windows && IsCluster(windows[hash]) && name in windows[hash].files
  }

  method DetectDuplication(files: seq<File>) returns (clusters: map<string, nat>)
    ensures forall name :: name in clusters <==> exists at :: InFile(files, at, name) && Duplicated(files, at)
    ensures forall name :: name in clusters ==> clusters[name] == |DuplicatedWindows(files, name)|
  {
    var windows := ScanWindows(files);
    clusters := CountClusters(windows);
    forall name
      ensures name in clusters <==> exists at :: InFile(files, at, name) && Duplicated(files, at)
      ensures name in clusters ==> clusters[name] == |DuplicatedWindows(files, name)|
    {
      assert CountsOne(clusters, windows, windows.Keys, name);
      ClustersAreDuplicates(files, name);
    }
  }

  method ScanWindows(files: seq<File>) returns (windows: map<string, Entry>)
    ensures windows == Tally(Occurrences(files))
  {
    windows := map[];
    for f := 0 to |files|
      invariant windows == Tally(Occurrences(files[..f]))
    {
      windows := ScanFile(f, files[f], windows, Occurrences(files[..f]));
      assert files[..f + 1][..f] == files[..f];
    }
    assert files[..|files|] == files;
  }

  lemma NextWindow(index: nat, f: File, i: nat, before: seq<Occurrence>, windows: map<string, Entry>)
    requires i < WindowCount(f.source) && windows == Tally(before + FileOccurrences(index, f, i))
    ensures var o := Occurrence(Place(index, i), f.name, WindowAt(f.source, i));
      Tally(before + FileOccurrences(index, f, i + 1)) == if Interesting(o.window) then AddTo(windows, o) else windows
  {
    var seen, o := FileOccurrences(index, f, i), Occurrence(Place(index, i), f.name, WindowAt(f.source, i));
    if Interesting(o.window) {
      TallyAppends(before + seen, o);
      assert before + seen + [o] == before + (seen + [o]);
    } else {
      assert seen + [] == seen;
    }
  }

  /** The inner loop: slide the window over one file. */
  method ScanFile(index: nat, f: File, windows0: map<string, Entry>, ghost before: seq<Occurrence>)
    returns (windows: map<string, Entry>)
    requires windows0 == Tally(before)
    ensures windows == Tally(before + FileOccurrences(index, f, WindowCount(f.source)))
  {
    windows := windows0;
    var i := 0;
    assert before + [] == before;
    while i + DUP_WINDOW <= |Lines(f.source)|
      invariant i <= WindowCount(f.source) && windows == Tally(before + FileOccurrences(index, f, i))
    {
      var window := WindowAt(f.source, i);
      NextWindow(index, f, i, before, windows);
      if NonBlank(window) >= DUP_MIN_NONBLANK_LINES {
        windows := AddTo(windows, Occurrence(Place(index, i), f.name, window));
      }
      i := i + 1;
    }
  }

  function CountIn(counts: map<string, nat>, name: string): nat {
    if name in counts then counts[name] else 0
  }

  /** `bumped` is `counts` with one more for each of the names. */
  ghost predicate IsBumped(bumped: map<string, nat>, counts: map<string, nat>, names: set<string>) {
    && bumped.Keys == counts.Keys + names
    && forall name :: name in bumped ==> bumped[name] == CountIn(counts, name) + (if name in names then 1 else 0)
  }

  lemma BumpOne(bumped: map<string, nat>, counts: map<string, nat>, names: set<string>, name: string)
    requires IsBumped(bumped, counts, names) && name !in names
    ensures IsBumped(bumped[name := CountIn(bumped, name) + 1], counts, names + {name})
  {
  }

  /** `clusters` counts the clusters of a file among the keys `done`. */
  predicate CountsOne(clusters: map<string, nat>, windows: map<string, Entry>, done: set<string>, name: string) {
    && (name in clusters <==> ClusterKeys(windows, done, name) != {})
    && CountIn(clusters, name) == |ClusterKeys(windows, done, name)|
  }

  ghost predicate CountsClusters(clusters: map<string, nat>, windows: map<string, Entry>, done: set<string>) {
    forall name :: CountsOne(clusters, windows, done, name)
  }

  lemma OneMoreForName(clusters: map<string, nat>, after: map<string, nat>, windows: map<string, Entry>, done: set<string>, hash: string, name: string)
    requires CountsOne(clusters, windows, done, name) && hash in windows && hash !in done
    requires if IsCluster(windows[hash]) then IsBumped(after, clusters, windows[hash].files) else after == clusters
    ensures CountsOne(after, windows, done + {hash}, name)
  {
    OneMoreKey(windows, done, hash, name);
    var keys := ClusterKeys(windows, done, name);
    assert |keys + {hash}| == |keys| + 1;
  }

  lemma OneMoreCluster(clusters: map<string, nat>, after: map<string, nat>, windows: map<string, Entry>, done: set<string>, hash: string)
    requires CountsClusters(clusters, windows, done) && hash in windows && hash !in done
    requires if IsCluster(windows[hash]) then IsBumped(after, clusters, windows[hash].files) else after == clusters
    ensures CountsClusters(after, windows, done + {hash})
  {
    forall name ensures CountsOne(after, windows, done + {hash}, name) {
      assert CountsOne(clusters, windows, done, name);
      OneMoreForName(clusters, after, windows, done, hash, name);
    }
  }

  method CountClusters(windows: map<string, Entry>) returns (clusters: map<string, nat>)
    ensures CountsClusters(clusters, windows, windows.Keys)
  {
    clusters := map[];
    var pending, done := windows.Keys, {};
    while pending != {}
      invariant Halves(pending, done, windows.Keys) && CountsClusters(clusters, windows, done)
      decreases |pending|
    {
      var hash :| hash in pending;
      MovesOver(pending, done, windows.Keys, hash);
      ghost var before := clusters;
      if IsCluster(windows[hash]) {
        clusters := BumpAll(clusters, windows[hash].files);
      }
      OneMoreCluster(before, clusters, windows, done, hash);
      pending, done := pending - {hash}, done + {hash};
    }
    assert done == windows.Keys;
  }

  predicate Halves(pending: set<string>, done: set<string>, names: set<string>) {
    pending + done == names && pending !! done
  }

  lemma MovesOver(pending: set<string>, done: set<string>, names: set<string>, name: string)
    requires Halves(pending, done, names) && name in pending
    ensures Halves(pending - {name}, done + {name}, names) && name !in done && |pending - {name}| < |pending|
  {
  }

  /** The inner loop: one more cluster for each file of the entry. */
  method BumpAll(counts: map<string, nat>, names: set<string>) returns (bumped: map<string, nat>)
    ensures IsBumped(bumped, counts, names)
  {
    bumped := counts;
    var pending := names;
    ghost var done: set<string> := {};
    while pending != {}
      invariant Halves(pending, done, names) && IsBumped(bumped, counts, done)
      decreases |pending|
    {
      var name :| name in pending;
      MovesOver(pending, done, names, name);
      BumpOne(bumped, counts, done, name);
      bumped := bumped[name := CountIn(bumped, name) + 1];
      pending, done := pending - {name}, done + {name};
    }
    assert done == names;
  }

  lemma OneMoreKey(windows: map<string, Entry>, done: set<string>, hash: string, name: string)
    requires hash in windows && hash !in done
    ensures var more := IsCluster(windows[hash]) && name in windows[hash].files;
      ClusterKeys(windows, done + {hash}, name) == ClusterKeys(windows, done, name) + (if more then {hash} else {})
    ensures hash !in ClusterKeys(windows, done, name)
  {
  }

  // ----- The pass meets the specification -----

  ghost function DuplicatedWindows(files: seq<File>, name: string): set<seq<string>> {
    set i, p | 0 <= i < |files| && 0 <= p < WindowCount(files[i].source) &&
               InFile(files, Place(i, p), name) && Duplicated(files, Place(i, p)) :: WindowAt(files[i].source, p)
  }

  lemma {:induction false} FileOccurrencesAre(index: nat, f: File, n: nat, o: Occurrence)
    requires n <= WindowCount(f.source)
    ensures o in FileOccurrences(index, f, n) <==>
      o.at.file == index && o.at.line < n && o.name == f.name && o.window == WindowAt(f.source, o.at.line) && Interesting(o.window)
  {
    if n > 0 { FileOccurrencesAre(index, f, n - 1, o); }
  }

  predicate IsOccurrence(files: seq<File>, o: Occurrence) {
    IsPlace(files, o.at) && o.name == files[o.at.file].name && o.window == At(files, o.at) && Interesting(o.window)
  }

  lemma {:induction false} OccurrencesAre(files: seq<File>, o: Occurrence)
    ensures o in Occurrences(files) <==> IsOccurrence(files, o)
  {
    if files != [] {
      var n := |files| - 1;
      OccurrencesAre(files[..n], o);
      FileOccurrencesAre(n, files[n], WindowCount(files[n].source), o);
    }
  }

  predicate AllDifferent(occs: seq<Occurrence>) {
    forall i, j :: 0 <= i < j < |occs| ==> occs[i] != occs[j]
  }

  lemma {:induction false} FileOccurrencesDiffer(index: nat, f: File, n: nat)
    requires n <= WindowCount(f.source)
    ensures AllDifferent(FileOccurrences(index, f, n))
  {
    if n > 0 {
      FileOccurrencesDiffer(index, f, n - 1);
      forall o ensures o in FileOccurrences(index, f, n - 1) ==> o.at.line < n - 1 { FileOccurrencesAre(index, f, n - 1, o); }
    }
  }

  lemma {:induction false} OccurrencesDiffer(files: seq<File>)
    ensures AllDifferent(Occurrences(files))
  {
    if files != [] {
      var n := |files| - 1;
      var a, b := Occurrences(files[..n]), FileOccurrences(n, files[n], WindowCount(files[n].source));
      OccurrencesDiffer(files[..n]);
      FileOccurrencesDiffer(n, files[n], WindowCount(files[n].source));
      forall o ensures o in a ==> o.at.file < n { OccurrencesAre(files[..n], o); }
      forall o ensures o in b ==> o.at.file == n { FileOccurrencesAre(n, files[n], WindowCount(files[n].source), o); }
      AppendDiffer(a, b, n);
    }
  }

  lemma AppendDiffer(a: seq<Occurrence>, b: seq<Occurrence>, n: nat)
    requires AllDifferent(a) && AllDifferent(b)
    requires (forall o :: o in a ==> o.at.file < n) && (forall o :: o in b ==> o.at.file == n)
    ensures AllDifferent(a + b)
  {
    forall i, j | 0 <= i < j < |a + b| ensures (a + b)[i] != (a + b)[j] {
      if i < |a| && j >= |a| { assert a[i] in a && b[j - |a|] in b; }
    }
  }

  predicate HasKey(o: Occurrence, hash: string) {
    JoinLines(o.window) == hash
  }

  predicate KeyedIn(occs: seq<Occurrence>, i: nat, hash: string, name: string)
    requires i < |occs|
  {
    HasKey(occs[i], hash) && occs[i].name == name
  }

  /** Two occurrences, at different positions, share a key. */
  ghost predicate Twice(occs: seq<Occurrence>, hash: string) {
    exists i, j :: 0 <= i < j < |occs| && HasKey(occs[i], hash) && HasKey(occs[j], hash)
  }

  ghost predicate Once(occs: seq<Occurrence>, hash: string) {
    exists i :: 0 <= i < |occs| && HasKey(occs[i], hash)
  }

  ghost predicate Names(occs: seq<Occurrence>, hash: string, name: string) {
    exists i :: 0 <= i < |occs| && KeyedIn(occs, i, hash, name)
  }

  lemma OnceAppends(occs: seq<Occurrence>, o: Occurrence, hash: string)
    ensures Once(occs + [o], hash) <==> Once(occs, hash) || HasKey(o, hash)
  {
    var more := occs + [o];
    if Once(occs, hash) {
      var i :| 0 <= i < |occs| && HasKey(occs[i], hash);
      assert more[i] == occs[i];
    }
    assert more[|occs|] == o;
  }

  lemma NamesAppend(occs: seq<Occurrence>, o: Occurrence, hash: string, name: string)
    ensures Names(occs + [o], hash, name) <==> Names(occs, hash, name) || (HasKey(o, hash) && o.name == name)
  {
    var more := occs + [o];
    if Names(occs, hash, name) {
      var i :| 0 <= i < |occs| && KeyedIn(occs, i, hash, name);
      assert KeyedIn(more, i, hash, name);
    }
    if HasKey(o, hash) && o.name == name { assert KeyedIn(more, |occs|, hash, name); }
    if Names(more, hash, name) {
      var i :| 0 <= i < |more| && KeyedIn(more, i, hash, name);
      if i < |occs| { assert KeyedIn(occs, i, hash, name); }
    }
  }

  lemma TwiceAppends(occs: seq<Occurrence>, o: Occurrence, hash: string)
    ensures Twice(occs + [o], hash) <==> Twice(occs, hash) || (Once(occs, hash) && HasKey(o, hash))
  {
    var more := occs + [o];
    if Twice(occs, hash) {
      var i, j :| 0 <= i < j < |occs| && HasKey(occs[i], hash) && HasKey(occs[j], hash);
      assert more[i] == occs[i] && more[j] == occs[j];
    }
    if Once(occs, hash) && HasKey(o, hash) {
      var i :| 0 <= i < |occs| && HasKey(occs[i], hash);
      assert more[i] == occs[i] && more[|occs|] == o;
    }
    if Twice(more, hash) {
      var i, j :| 0 <= i < j < |more| && HasKey(more[i], hash) && HasKey(more[j], hash);
      assert more[i] == occs[i];
      if j < |occs| { assert more[j] == occs[j]; }
    }
  }

  /** The hash map knows, per key, whether it occurred, whether it did twice, and in which files. */
  ghost predicate TallyFacts(occs: seq<Occurrence>, windows: map<string, Entry>, hash: string) {
    && (hash in windows <==> Once(occs, hash))
    && (hash in windows ==>
          && windows[hash].occurrences >= 1
          && (windows[hash].occurrences >= 2 <==> Twice(occs, hash))
          && forall name :: name in windows[hash].files <==> Names(occs, hash, name))
  }

  lemma TallyStep(occs: seq<Occurrence>, windows: map<string, Entry>, o: Occurrence, hash: string)
    requires TallyFacts(occs, windows, hash)
    ensures TallyFacts(occs + [o], AddTo(windows, o), hash)
  {
    var after := AddTo(windows, o);
    OnceAppends(occs, o, hash);
    TwiceAppends(occs, o, hash);
    if hash in after {
      forall name ensures name in after[hash].files <==> Names(occs + [o], hash, name) {
        NamesAppend(occs, o, hash, name);
      }
    }
    if Twice(occs, hash) {
      var i, j :| 0 <= i < j < |occs| && HasKey(occs[i], hash) && HasKey(occs[j], hash);
    }
  }

  lemma {:induction false} TallyIs(occs: seq<Occurrence>, hash: string)
    ensures TallyFacts(occs, Tally(occs), hash)
  {
    if occs != [] {
      var n := |occs| - 1;
      TallyIs(occs[..n], hash);
      TallyStep(occs[..n], Tally(occs[..n]), occs[n], hash);
      assert occs == occs[..n] + [occs[n]];
    }
  }

  /** "Two files or two occurrences" is just two occurrences. */
  lemma ClusterIsTwice(occs: seq<Occurrence>, windows: map<string, Entry>, hash: string)
    requires TallyFacts(occs, windows, hash) && hash in windows
    ensures IsCluster(windows[hash]) <==> Twice(occs, hash)
  {
    if |windows[hash].files| >= 2 {
      var names := windows[hash].files;
      var a :| a in names;
      assert |names - {a}| == |names| - 1;
      var b :| b in names - {a};
      var i :| 0 <= i < |occs| && KeyedIn(occs, i, hash, a);
      var j :| 0 <= j < |occs| && KeyedIn(occs, j, hash, b);
      assert Twice(occs, hash) by {
        if i < j { assert HasKey(occs[i], hash) && HasKey(occs[j], hash); }
      }
    }
  }

  // ----- Places and occurrences -----

  function OccurrenceAt(files: seq<File>, at: Place): Occurrence
    requires IsPlace(files, at)
  {
    Occurrence(at, files[at.file].name, At(files, at))
  }

  lemma PlaceOccurs(files: seq<File>, at: Place) returns (i: nat)
    requires IsPlace(files, at) && Interesting(At(files, at))
    ensures i < |Occurrences(files)| && Occurrences(files)[i] == OccurrenceAt(files, at)
  {
    OccurrencesAre(files, OccurrenceAt(files, at));
    i :| 0 <= i < |Occurrences(files)| && Occurrences(files)[i] == OccurrenceAt(files, at);
  }

  lemma OccurrenceIs(files: seq<File>, i: nat)
    requires i < |Occurrences(files)|
    ensures var o := Occurrences(files)[i]; IsPlace(files, o.at) && o == OccurrenceAt(files, o.at) && Interesting(At(files, o.at))
  {
    OccurrencesAre(files, Occurrences(files)[i]);
  }

  lemma SameKeySameWindow(files: seq<File>, a: Place, b: Place)
    requires IsPlace(files, a) && IsPlace(files, b) && JoinLines(At(files, a)) == JoinLines(At(files, b))
    ensures At(files, a) == At(files, b)
  {
    WindowIsPlain(files[a.file].source, a.line);
    WindowIsPlain(files[b.file].source, b.line);
    JoinIsInjective(At(files, a), At(files, b));
  }

  /** Two occurrences of a key are two places of one window. */
  lemma TwiceIsDuplicated(files: seq<File>, at: Place)
    requires IsPlace(files, at) && Interesting(At(files, at))
    ensures Twice(Occurrences(files), JoinLines(At(files, at))) <==> Duplicated(files, at)
  {
    var occs, hash := Occurrences(files), JoinLines(At(files, at));
    if Twice(occs, hash) {
      var i, j :| 0 <= i < j < |occs| && HasKey(occs[i], hash) && HasKey(occs[j], hash);
      OccurrencesDiffer(files);
      OccurrenceIs(files, i);
      OccurrenceIs(files, j);
      assert occs[i].at != occs[j].at;
      var other := if occs[i].at == at then occs[j].at else occs[i].at;
      SameKeySameWindow(files, other, at);
    }
    if Duplicated(files, at) {
      var other :| IsPlace(files, other) && other != at && At(files, other) == At(files, at);
      var i := PlaceOccurs(files, at);
      var j := PlaceOccurs(files, other);
      assert HasKey(occs[i], hash) && HasKey(occs[j], hash) && i != j;
      if j < i { assert HasKey(occs[j], hash) && HasKey(occs[i], hash); }
    }
  }

  ghost predicate KeyOfDuplicate(files: seq<File>, name: string, hash: string) {
    exists at :: InFile(files, at, name) && Duplicated(files, at) && JoinLines(At(files, at)) == hash
  }

  lemma ClusterKeyIs(files: seq<File>, name: string, hash: string)
    ensures var windows := Tally(Occurrences(files));
      hash in ClusterKeys(windows, windows.Keys, name) <==> KeyOfDuplicate(files, name, hash)
  {
    var occs := Occurrences(files);
    var windows := Tally(occs);
    TallyIs(occs, hash);
    if hash in windows { ClusterIsTwice(occs, windows, hash); }
    if hash in ClusterKeys(windows, windows.Keys, name) {
      var i :| 0 <= i < |occs| && KeyedIn(occs, i, hash, name);
      OccurrenceIs(files, i);
      TwiceIsDuplicated(files, occs[i].at);
      assert InFile(files, occs[i].at, name);
    }
    if KeyOfDuplicate(files, name, hash) {
      var at :| InFile(files, at, name) && Duplicated(files, at) && JoinLines(At(files, at)) == hash;
      TwiceIsDuplicated(files, at);
      var i := PlaceOccurs(files, at);
      assert HasKey(occs[i], hash) && KeyedIn(occs, i, hash, name);
    }
  }

  lemma DuplicatedWindowsAre(files: seq<File>, name: string, w: seq<string>)
    ensures w in DuplicatedWindows(files, name) <==>
            exists at :: InFile(files, at, name) && Duplicated(files, at) && At(files, at) == w
  {
    if at :| InFile(files, at, name) && Duplicated(files, at) && At(files, at) == w {
      assert at == Place(at.file, at.line);
    }
  }

  lemma {:induction false} ImageSize(windows: set<seq<string>>, keys: set<string>)
    requires forall a, b :: a in windows && b in windows && JoinLines(a) == JoinLines(b) ==> a == b
    requires forall hash :: hash in keys <==> exists w :: w in windows && JoinLines(w) == hash
    ensures |keys| == |windows|
  {
    if windows == {} {
      assert keys == {};
    } else {
      var w :| w in windows;
      var hash := JoinLines(w);
      assert hash in keys;
      forall h ensures h in keys - {hash} <==> exists v :: v in windows - {w} && JoinLines(v) == h {
        if h in keys - {hash} {
          var v :| v in windows && JoinLines(v) == h;
          assert v in windows - {w};
        }
      }
      ImageSize(windows - {w}, keys - {hash});
    }
  }

  lemma ClustersAreDuplicates(files: seq<File>, name: string)
    ensures var windows := Tally(Occurrences(files)); var keys := ClusterKeys(windows, windows.Keys, name);
      && (keys != {} <==> exists at :: InFile(files, at, name) && Duplicated(files, at))
      && |keys| == |DuplicatedWindows(files, name)|
  {
    var windows := Tally(Occurrences(files));
    var keys := ClusterKeys(windows, windows.Keys, name);
    var dups := DuplicatedWindows(files, name);
    forall hash ensures hash in keys <==> exists w :: w in dups && JoinLines(w) == hash {
      ClusterKeyIs(files, name, hash);
      if hash in keys {
        var at :| InFile(files, at, name) && Duplicated(files, at) && JoinLines(At(files, at)) == hash;
        DuplicatedWindowsAre(files, name, At(files, at));
      }
      if w :| w in dups && JoinLines(w) == hash { DuplicatedWindowsAre(files, name, w); }
    }
    forall a, b | a in dups && b in dups && JoinLines(a) == JoinLines(b) ensures a == b {
      DuplicatedWindowsAre(files, name, a);
      DuplicatedWindowsAre(files, name, b);
      var p :| InFile(files, p, name) && Duplicated(files, p) && At(files, p) == a;
      var q :| InFile(files, q, name) && Duplicated(files, q) && At(files, q) == b;
      SameKeySameWindow(files, p, q);
    }
    ImageSize(dups, keys);
    if at :| InFile(files, at, name) && Duplicated(files, at) {
      DuplicatedWindowsAre(files, name, At(files, at));
      assert At(files, at) in dups;
    }
    if keys != {} {
      var hash :| hash in keys;
      ClusterKeyIs(files, name, hash);
    }
  }
}
