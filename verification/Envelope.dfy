/** The quarantine envelope of packages/crew/src/eval/deliveryJudge.ts: untrusted text is wrapped
    in a tag after every envelope tag inside it has been defanged. */
module Envelope {
  import opened Prelude
  import opened Text

  const WORD := "untrusted-"

  /** ASCII case folding, as the `i` flag without `u` does for these letters. */
  function Lower(c: char): char {
    if 'A' <= c <= 'Z' then c + ('a' - 'A') else c
  }

  predicate IsNameChar(c: char) {
    'a' <= Lower(c) <= 'z' || '0' <= c <= '9' || c == '-'
  }

  // ----- The pattern <\s*\/?\s*untrusted-[a-z0-9-]*\s*> , stage by stage -----
  // Each stage answers what is left of the text after the rest of the pattern matched.

  function AfterSpaces(s: string): (rest: string)
    ensures |rest| <= |s|
  {
    if s != "" && IsSpace(s[0]) then AfterSpaces(s[1..]) else s
  }

  function AfterName(s: string): (rest: string)
    ensures |rest| <= |s|
  {
    if s != "" && IsNameChar(s[0]) then AfterName(s[1..]) else s
  }

  /** `\s*>` */
  function CloseStage(s: string): (rest: Option<string>)
    ensures rest.Some? ==> |rest.value| < |s|
  {
    var d := AfterSpaces(s);
    if d != "" && d[0] == '>' then Some(d[1..]) else None
  }

  /** `[a-z0-9-]*\s*>` */
  function NameStage(s: string): (rest: Option<string>)
    ensures rest.Some? ==> |rest.value| < |s|
  {
    CloseStage(AfterName(s))
  }

  predicate StartsWithWord(s: string, word: string) {
    if word == "" then true else s != "" && Lower(s[0]) == word[0] && StartsWithWord(s[1..], word[1..])
  }

  lemma {:induction false} WordIsShort(s: string, word: string)
    requires StartsWithWord(s, word)
    ensures |word| <= |s|
  {
    if word != "" { WordIsShort(s[1..], word[1..]); }
  }

  /** `untrusted-[a-z0-9-]*\s*>` */
  function WordStage(s: string): (rest: Option<string>)
    ensures rest.Some? ==> |rest.value| < |s|
  {
    if StartsWithWord(s, WORD) then WordIsShort(s, WORD); NameStage(s[|WORD|..]) else None
  }

  /** `\s*\/?\s*untrusted-[a-z0-9-]*\s*>` */
  function SlashStage(s: string): (rest: Option<string>)
    ensures rest.Some? ==> |rest.value| < |s|
  {
    var a := AfterSpaces(s);
    if a != "" && a[0] == '/' then WordStage(AfterSpaces(a[1..])) else WordStage(a)
  }

  /** A match of the whole pattern at the start of `s`. */
  function MatchRest(s: string): (rest: Option<string>)
    ensures rest.Some? ==> |rest.value| < |s|
  {
    if s != "" && s[0] == '<' then SlashStage(s[1..]) else None
  }

  // ----- Replacement and envelope -----

  /** `body.replace(anyEnvelopeTag, m => "&lt;" + m.slice(1))`. */
  function Neutralise(s: string): string
    decreases |s|
  {
    if s == "" then ""
    else
      match MatchRest(s)
      case None => [s[0]] + Neutralise(s[1..])
      case Some(rest) => "&lt;" + s[1..|s| - |rest|] + Neutralise(rest)
  }

  function Wrap(tag: string, body: string): string {
    "<" + tag + ">" + "\n" + Neutralise(body) + "\n" + "</" + tag + ">"
  }

  predicate IsEnvelopeTag(tag: string) {
    |WORD| <= |tag| && tag[..|WORD|] == WORD && forall i :: |WORD| <= i < |tag| ==> IsNameChar(tag[i])
  }

  /** How many positions of `s` an envelope tag starts at. */
  function CountTags(s: string): nat {
    if s == "" then 0 else (if MatchRest(s).Some? then 1 else 0) + CountTags(s[1..])
  }

  /** How many matches a global left-to-right scan reports. */
  function ScanTags(s: string): nat
    decreases |s|
  {
    if s == "" then 0
    else
      match MatchRest(s)
      case None => ScanTags(s[1..])
      case Some(rest) => 1 + ScanTags(rest)
  }

  // ----- What the pattern matches, read off the text -----

  predicate AllSpace(s: string) {
    forall i :: 0 <= i < |s| ==> IsSpace(s[i])
  }

  predicate InCases(s: string, small: string, large: string)
    requires |small| == |large|
  {
    |s| == |small| && forall i :: 0 <= i < |s| ==> s[i] == small[i] || s[i] == large[i]
  }

  /** The word in any mixture of cases. */
  predicate IsWord(s: string) {
    InCases(s, "untrusted-", "UNTRUSTED-")
  }

  predicate IsName(s: string) {
    forall i :: 0 <= i < |s| ==> 'a' <= s[i] <= 'z' || 'A' <= s[i] <= 'Z' || '0' <= s[i] <= '9' || s[i] == '-'
  }

  /** What a tag is made of, between its brackets. */
  datatype TagParts = TagParts(pad: string, slash: string, gap: string, word: string, name: string, trail: string)

  predicate IsTag(p: TagParts) {
    AllSpace(p.pad) && (p.slash == "" || p.slash == "/") && AllSpace(p.gap) && IsWord(p.word) && IsName(p.name) && AllSpace(p.trail)
  }

  function TagThen(p: TagParts, rest: string): string {
    "<" + (p.pad + (p.slash + (p.gap + (p.word + (p.name + (p.trail + (">" + rest)))))))
  }

  lemma {:induction false} SpacesRead(pad: string, more: string)
    requires AllSpace(pad) && (more == "" || !IsSpace(more[0]))
    ensures AfterSpaces(pad + more) == more
  {
    if pad == "" {
      assert pad + more == more;
    } else {
      assert (pad + more)[1..] == pad[1..] + more;
      SpacesRead(pad[1..], more);
    }
  }

  lemma {:induction false} SpacesAre(s: string) returns (pad: string)
    ensures AllSpace(pad) && s == pad + AfterSpaces(s)
    ensures AfterSpaces(s) == "" || !IsSpace(AfterSpaces(s)[0])
  {
    pad := "";
    if s != "" && IsSpace(s[0]) {
      pad := SpacesAre(s[1..]);
      pad := [s[0]] + pad;
    }
  }

  lemma {:induction false} NameIs(s: string) returns (name: string)
    ensures IsName(name) && s == name + AfterName(s)
  {
    name := "";
    if s != "" && IsNameChar(s[0]) {
      name := NameIs(s[1..]);
      name := [s[0]] + name;
    }
  }

  /** Folding a character to `small` means being `small` or its capital `large`. */
  predicate Folds(small: char, large: char) {
    forall c :: Lower(c) == small <==> c == small || c == large
  }

  lemma {:induction false} WordReadsIff(s: string, small: string, large: string)
    requires |small| == |large| && forall i :: 0 <= i < |small| ==> Folds(small[i], large[i])
    ensures StartsWithWord(s, small) <==> |small| <= |s| && InCases(s[..|small|], small, large)
  {
    if small != "" && s != "" {
      WordReadsIff(s[1..], small[1..], large[1..]);
      assert forall i :: 0 < i < |small| && i < |s| ==>
        s[1..][i - 1] == s[i] && small[1..][i - 1] == small[i] && large[1..][i - 1] == large[i];
    }
  }

  lemma WordFolds()
    ensures forall i :: 0 <= i < 10 ==> Folds("untrusted-"[i], "UNTRUSTED-"[i])
  {
  }

  lemma WordIff(s: string)
    ensures StartsWithWord(s, WORD) <==> |s| >= 10 && IsWord(s[..10])
  {
    WordFolds();
    WordReadsIff(s, WORD, "UNTRUSTED-");
  }

  // From the last part of a tag to the first: what is read, given what reads the rest.

  lemma CloseReads(trail: string, rest: string)
    requires AllSpace(trail)
    ensures CloseStage(trail + (">" + rest)) == Some(rest)
  {
    SpacesRead(trail, ">" + rest);
    assert (">" + rest)[1..] == rest;
  }

  lemma NameStageReads(name: string, more: string, rest: string)
    requires IsName(name) && CloseStage(more) == Some(rest)
    ensures NameStage(name + more) == Some(rest)
  {
    var d := AfterSpaces(more);
    assert more != "" && (IsSpace(more[0]) || more[0] == '>');
    NameReads(name, more);
  }

  lemma WordStageReads(word: string, more: string, rest: string)
    requires IsWord(word) && NameStage(more) == Some(rest)
    ensures WordStage(word + more) == Some(rest)
    ensures !IsSpace((word + more)[0]) && (word + more)[0] != '/'
  {
    assert (word + more)[..10] == word && (word + more)[10..] == more;
    WordIff(word + more);
    assert (word + more)[0] == word[0];
  }

  lemma SlashStageReads(pad: string, slash: string, gap: string, more: string, rest: string)
    requires AllSpace(pad) && (slash == "" || slash == "/") && AllSpace(gap)
    requires WordStage(more) == Some(rest) && more != "" && !IsSpace(more[0]) && more[0] != '/'
    ensures SlashStage(pad + (slash + (gap + more))) == Some(rest)
  {
    SpacesRead(gap, more);
    if slash == "/" {
      SpacesRead(pad, slash + (gap + more));
      assert (slash + (gap + more))[1..] == gap + more;
    } else {
      assert pad + (slash + (gap + more)) == (pad + gap) + more;
      SpacesRead(pad + gap, more);
    }
  }

  lemma TagReads(p: TagParts, rest: string)
    requires IsTag(p)
    ensures MatchRest(TagThen(p, rest)) == Some(rest)
  {
    var close := p.trail + (">" + rest);
    CloseReads(p.trail, rest);
    NameStageReads(p.name, close, rest);
    WordStageReads(p.word, p.name + close, rest);
    SlashStageReads(p.pad, p.slash, p.gap, p.word + (p.name + close), rest);
    AfterBracket(p.pad + (p.slash + (p.gap + (p.word + (p.name + close)))));
  }

  // And back: the parts of what was read.

  lemma CloseSplits(s: string, rest: string) returns (trail: string)
    requires CloseStage(s) == Some(rest)
    ensures AllSpace(trail) && s == trail + (">" + rest)
  {
    trail := SpacesAre(s);
    assert AfterSpaces(s) == ">" + rest;
  }

  lemma WordSplits(s: string, rest: string) returns (word: string, name: string, trail: string)
    requires WordStage(s) == Some(rest)
    ensures IsWord(word) && IsName(name) && AllSpace(trail) && s == word + (name + (trail + (">" + rest)))
  {
    WordIff(s);
    word := s[..10];
    name := NameIs(s[10..]);
    trail := CloseSplits(AfterName(s[10..]), rest);
    assert s == s[..10] + s[10..];
  }

  lemma SlashSplits(s: string, rest: string) returns (pad: string, slash: string, gap: string, more: string)
    requires SlashStage(s) == Some(rest)
    ensures AllSpace(pad) && (slash == "" || slash == "/") && AllSpace(gap)
    ensures WordStage(more) == Some(rest) && s == pad + (slash + (gap + more))
  {
    pad := SpacesAre(s);
    var a := AfterSpaces(s);
    if a != "" && a[0] == '/' {
      slash := "/";
      gap := SpacesAre(a[1..]);
      more := AfterSpaces(a[1..]);
      assert a == slash + a[1..];
    } else {
      slash, gap, more := "", "", a;
      assert slash + (gap + more) == a;
    }
  }

  /** The pattern without its stages: a match at the start of a text is an opening bracket, white
      space, at most one slash, white space, the word in any case, letters of either case, digits
      or hyphens, white space and a closing bracket; `rest` is everything behind it. */
  lemma MatchRestIff(s: string, rest: string)
    ensures MatchRest(s) == Some(rest) <==> exists p :: IsTag(p) && s == TagThen(p, rest)
  {
    if MatchRest(s) == Some(rest) {
      var pad, slash, gap, more := SlashSplits(s[1..], rest);
      var word, name, trail := WordSplits(more, rest);
      assert s == "<" + s[1..];
      assert s == TagThen(TagParts(pad, slash, gap, word, name, trail), rest);
    }
    if p :| IsTag(p) && s == TagThen(p, rest) { TagReads(p, rest); }
  }

  // ----- What a match consumes -----

  /** `whole` is `used` followed by `rest`, and `used` holds no '<'. */
  ghost predicate Consumes(whole: string, rest: string) {
    exists used :: whole == used + rest && '<' !in used
  }

  lemma ConsumesMore(whole: string, middle: string, rest: string)
    requires Consumes(whole, middle) && Consumes(middle, rest)
    ensures Consumes(whole, rest)
  {
    var a :| whole == a + middle && '<' !in a;
    var b :| middle == b + rest && '<' !in b;
    assert whole == (a + b) + rest;
  }

  lemma ConsumesOne(s: string)
    requires s != "" && s[0] != '<'
    ensures Consumes(s, s[1..])
  {
    assert s == [s[0]] + s[1..];
  }

  lemma ConsumesNothing(s: string)
    ensures Consumes(s, s)
  {
    assert s == "" + s;
  }

  lemma {:induction false} SpacesConsume(s: string)
    ensures Consumes(s, AfterSpaces(s))
  {
    if s != "" && IsSpace(s[0]) {
      SpacesConsume(s[1..]);
      ConsumesOne(s);
      ConsumesMore(s, s[1..], AfterSpaces(s));
    } else {
      ConsumesNothing(s);
    }
  }

  lemma {:induction false} NameConsumes(s: string)
    ensures Consumes(s, AfterName(s))
  {
    if s != "" && IsNameChar(s[0]) {
      NameConsumes(s[1..]);
      ConsumesOne(s);
      ConsumesMore(s, s[1..], AfterName(s));
    } else {
      ConsumesNothing(s);
    }
  }

  lemma {:induction false} WordConsumes(s: string, word: string)
    requires StartsWithWord(s, word) && '<' !in word
    ensures |word| <= |s| && Consumes(s, s[|word|..])
  {
    if word == "" {
      ConsumesNothing(s);
    } else {
      assert '<' !in word[1..];
      assert word[0] != '<';
      WordConsumes(s[1..], word[1..]);
      ConsumesOne(s);
      assert s[1..][|word| - 1..] == s[|word|..];
      ConsumesMore(s, s[1..], s[|word|..]);
    }
  }

  lemma CloseConsumes(s: string)
    requires CloseStage(s).Some?
    ensures Consumes(s, CloseStage(s).value)
  {
    SpacesConsume(s);
    ConsumesOne(AfterSpaces(s));
    ConsumesMore(s, AfterSpaces(s), CloseStage(s).value);
  }

  lemma WordStageConsumes(s: string)
    requires WordStage(s).Some?
    ensures Consumes(s, WordStage(s).value)
  {
    WordConsumes(s, WORD);
    var t := s[|WORD|..];
    NameConsumes(t);
    CloseConsumes(AfterName(t));
    ConsumesMore(t, AfterName(t), WordStage(s).value);
    ConsumesMore(s, t, WordStage(s).value);
  }

  lemma SlashStageConsumes(s: string)
    requires SlashStage(s).Some?
    ensures Consumes(s, SlashStage(s).value)
  {
    var a, rest := AfterSpaces(s), SlashStage(s).value;
    SpacesConsume(s);
    if a != "" && a[0] == '/' {
      var b := AfterSpaces(a[1..]);
      ConsumesOne(a);
      SpacesConsume(a[1..]);
      WordStageConsumes(b);
      ConsumesMore(a[1..], b, rest);
      ConsumesMore(a, a[1..], rest);
    } else {
      WordStageConsumes(a);
    }
    ConsumesMore(s, a, rest);
  }

  // ----- The pattern never reads past a '<' or a '&' -----

  /** From here a match in progress fails: white space, then the end, a '<' or a '&'. */
  predicate Stopped(s: string) {
    var w := AfterSpaces(s);
    w == "" || w[0] == '<' || w[0] == '&'
  }

  function Extended(rest: Option<string>, more: string): Option<string> {
    match rest
    case None => None
    case Some(r) => Some(r + more)
  }

  lemma {:induction false} SpacesExtend(u: string, v: string)
    ensures AfterSpaces(u + v) == if AfterSpaces(u) != "" then AfterSpaces(u) + v else AfterSpaces(v)
  {
    if u == "" {
      assert u + v == v;
    } else {
      assert (u + v)[1..] == u[1..] + v;
      if IsSpace(u[0]) { SpacesExtend(u[1..], v); }
    }
  }

  lemma {:induction false} NameExtends(u: string, v: string)
    requires v == "" || !IsNameChar(v[0])
    ensures AfterName(u + v) == AfterName(u) + v
  {
    if u == "" {
      assert u + v == v;
    } else {
      assert (u + v)[1..] == u[1..] + v;
      if IsNameChar(u[0]) { NameExtends(u[1..], v); }
    }
  }

  lemma StoppedStart(v: string)
    requires Stopped(v)
    ensures v == "" || (!IsNameChar(v[0]) && v[0] != '>' && v[0] != '/')
    ensures v == "" || Lower(v[0]) !in WORD
  {
  }

  lemma CloseExtends(u: string, v: string)
    requires Stopped(v)
    ensures CloseStage(u + v) == Extended(CloseStage(u), v)
  {
    SpacesExtend(u, v);
    var d := AfterSpaces(u);
    if d != "" { assert (d + v)[1..] == d[1..] + v; }
  }

  lemma NameStageExtends(u: string, v: string)
    requires Stopped(v)
    ensures NameStage(u + v) == Extended(NameStage(u), v)
  {
    StoppedStart(v);
    NameExtends(u, v);
    CloseExtends(AfterName(u), v);
  }

  lemma {:induction false} WordExtends(u: string, v: string, word: string)
    requires v == "" || Lower(v[0]) !in word
    ensures StartsWithWord(u + v, word) <==> StartsWithWord(u, word)
  {
    if word != "" {
      if u == "" {
        assert u + v == v;
      } else {
        assert (u + v)[1..] == u[1..] + v;
        WordExtends(u[1..], v, word[1..]);
      }
    }
  }

  lemma WordStageExtends(u: string, v: string)
    requires Stopped(v)
    ensures WordStage(u + v) == Extended(WordStage(u), v)
  {
    StoppedStart(v);
    WordExtends(u, v, WORD);
    if StartsWithWord(u, WORD) {
      WordIsShort(u, WORD);
      NameStageExtends(u[|WORD|..], v);
      assert (u + v)[|WORD|..] == u[|WORD|..] + v;
    }
  }

  lemma StoppedSpaces(v: string)
    requires Stopped(v)
    ensures Stopped(AfterSpaces(v)) && WordStage(AfterSpaces(v)) == None
  {
    var w := AfterSpaces(v);
    assert AfterSpaces(w) == w;
    StoppedStart(w);
    assert WORD[0] in WORD;
  }

  lemma SpacedWordExtends(u: string, v: string)
    requires Stopped(v)
    ensures WordStage(AfterSpaces(u + v)) == Extended(WordStage(AfterSpaces(u)), v)
  {
    SpacesExtend(u, v);
    StoppedSpaces(v);
    WordStageExtends(AfterSpaces(u), v);
    assert WordStage("") == None;
  }

  lemma SlashStageExtends(u: string, v: string)
    requires Stopped(v)
    ensures SlashStage(u + v) == Extended(SlashStage(u), v)
  {
    var a := AfterSpaces(u);
    SpacesExtend(u, v);
    if a == "" {
      StoppedSpaces(v);
    } else if a[0] == '/' {
      SpacedWordExtends(a[1..], v);
      assert (a + v)[1..] == a[1..] + v;
    } else {
      WordStageExtends(a, v);
    }
  }

  // ----- Main results -----

  lemma OneWithoutBracket(c: char, text: string)
    requires c != '<'
    ensures CountTags([c] + text) == CountTags(text) && Neutralise([c] + text) == [c] + Neutralise(text)
  {
    assert ([c] + text)[1..] == text;
  }

  lemma {:induction false} NoTagWithoutBracket(u: string, rest: string)
    requires '<' !in u
    ensures CountTags(u + rest) == CountTags(rest) && Neutralise(u + rest) == u + Neutralise(rest)
  {
    if u == "" {
      assert u + rest == rest && u + Neutralise(rest) == Neutralise(rest);
    } else {
      var c, more := u[0], u[1..];
      assert u == [c] + more;
      NoTagWithoutBracket(more, rest);
      OneWithoutBracket(c, more + rest);
      Associate([c], more, rest);
      Associate([c], more, Neutralise(rest));
    }
  }

  /** Text up to its first '<', and the rest. */
  lemma {:induction false} SplitAtBracket(s: string) returns (u: string, v: string)
    ensures s == u + v && '<' !in u && (v == "" || v[0] == '<')
  {
    if s == "" || s[0] == '<' {
      u, v := "", s;
    } else {
      u, v := SplitAtBracket(s[1..]);
      assert s == [s[0]] + s[1..];
      u := [s[0]] + u;
    }
  }

  lemma NeutralisedIsStopped(v: string, tail: string)
    requires (v == "" || v[0] == '<') && Stopped(tail)
    ensures Stopped(Neutralise(v) + tail)
  {
    if v == "" {
      assert Neutralise(v) + tail == tail;
    } else {
      assert (Neutralise(v) + tail)[0] == Neutralise(v)[0];
      assert Neutralise(v)[0] == '<' || Neutralise(v)[0] == '&';
    }
  }

  /** A '<' that starts no tag in the body starts none after the pass, whatever stopping text
      follows: no later replacement, and no boundary, can complete it. */
  lemma NoNewTag(t: string, tail: string)
    requires MatchRest("<" + t) == None && Stopped(tail)
    ensures MatchRest("<" + (Neutralise(t) + tail)) == None
  {
    var u, v := SplitAtBracket(t);
    NoTagWithoutBracket(u, v);
    NeutralisedIsStopped(v, tail);
    Associate(u, Neutralise(v), tail);
    SameSlashStage(u, v, Neutralise(v) + tail);
    AfterBracket(t);
    AfterBracket(Neutralise(t) + tail);
  }

  lemma AfterBracket(t: string)
    ensures MatchRest("<" + t) == SlashStage(t)
  {
    assert ("<" + t)[1..] == t;
  }

  /** Whether a tag is completed inside `u` does not depend on the stopping text behind it. */
  lemma SameSlashStage(u: string, v: string, v': string)
    requires Stopped(v) && Stopped(v')
    ensures SlashStage(u + v).None? <==> SlashStage(u + v').None?
  {
    SlashStageExtends(u, v);
    SlashStageExtends(u, v');
  }

  lemma HeadSurvives(body: string, tail: string)
    requires body != "" && MatchRest(body) == None && Stopped(tail)
    ensures CountTags(Neutralise(body) + tail) == CountTags(Neutralise(body[1..]) + tail)
  {
    var after := Neutralise(body[1..]) + tail;
    assert Neutralise(body) + tail == [body[0]] + after;
    assert ([body[0]] + after)[1..] == after;
    if body[0] == '<' {
      assert body == "<" + body[1..];
      NoNewTag(body[1..], tail);
    }
  }

  lemma DefangedForm(body: string, rest: string) returns (escaped: string)
    requires MatchRest(body) == Some(rest)
    ensures Neutralise(body) == escaped + Neutralise(rest) && '<' !in escaped
  {
    SlashStageConsumes(body[1..]);
    var used :| body[1..] == used + rest && '<' !in used;
    assert body[1..|body| - |rest|] == used;
    escaped := "&lt;" + used;
  }

  lemma MatchIsDefanged(body: string, rest: string, tail: string)
    requires MatchRest(body) == Some(rest)
    ensures CountTags(Neutralise(body) + tail) == CountTags(Neutralise(rest) + tail)
  {
    var escaped := DefangedForm(body, rest);
    CountBehind(escaped, Neutralise(rest), tail);
  }

  lemma CountBehind(escaped: string, rest: string, tail: string)
    requires '<' !in escaped
    ensures CountTags((escaped + rest) + tail) == CountTags(rest + tail)
  {
    Associate(escaped, rest, tail);
    NoTagWithoutBracket(escaped, rest + tail);
  }

  /** One replacement pass leaves no tag in the body, and none straddling its end. */
  lemma {:induction false} NoTagSurvives(body: string, tail: string)
    requires Stopped(tail)
    ensures CountTags(Neutralise(body) + tail) == CountTags(tail)
    decreases |body|
  {
    if body == "" {
      assert Neutralise(body) + tail == tail;
    } else {
      match MatchRest(body)
      case None =>
        HeadSurvives(body, tail);
        NoTagSurvives(body[1..], tail);
      case Some(rest) =>
        MatchIsDefanged(body, rest, tail);
        NoTagSurvives(rest, tail);
    }
  }

  lemma {:induction false} WordReads(word: string, more: string)
    requires forall i :: 0 <= i < |word| ==> Lower(word[i]) == word[i]
    ensures StartsWithWord(word + more, word)
  {
    if word != "" {
      assert (word + more)[1..] == word[1..] + more;
      WordReads(word[1..], more);
    }
  }

  lemma {:induction false} NameReads(name: string, more: string)
    requires forall i :: 0 <= i < |name| ==> IsNameChar(name[i])
    requires more != "" && !IsNameChar(more[0])
    ensures AfterName(name + more) == more
  {
    if name == "" {
      assert name + more == more;
    } else {
      assert (name + more)[1..] == name[1..] + more;
      NameReads(name[1..], more);
    }
  }

  lemma OwnNameMatches(tag: string, more: string)
    requires IsEnvelopeTag(tag)
    ensures WordStage(tag + (">" + more)) == Some(more)
  {
    var name, tail := tag[|WORD|..], ">" + more;
    assert tag == WORD + name;
    assert tag + tail == WORD + (name + tail);
    WordReads(WORD, name + tail);
    assert (tag + tail)[|WORD|..] == name + tail;
    NameReads(name, tail);
    assert tail[1..] == more;
  }

  lemma NoBracketInName(tag: string)
    requires IsEnvelopeTag(tag)
    ensures '<' !in tag && tag != "" && tag[0] == 'u'
  {
    assert forall i :: 0 <= i < |WORD| ==> tag[i] == WORD[i];
  }

  lemma OpeningMatches(tag: string, tail: string)
    requires tag != "" && tag[0] == 'u'
    ensures MatchRest("<" + (tag + tail)) == WordStage(tag + tail)
    ensures MatchRest("<" + ("/" + (tag + tail))) == WordStage(tag + tail)
  {
    AfterBracket(tag + tail);
    AfterBracket("/" + (tag + tail));
    assert AfterSpaces(tag + tail) == tag + tail;
    assert ("/" + (tag + tail))[1..] == tag + tail;
  }

  /** The envelope's own tags are matches. */
  lemma OwnTagMatches(tag: string, more: string)
    requires IsEnvelopeTag(tag)
    ensures MatchRest("<" + tag + ">" + more) == Some(more)
    ensures MatchRest("</" + tag + ">" + more) == Some(more)
    ensures '<' !in tag
  {
    NoBracketInName(tag);
    OwnNameMatches(tag, more);
    OpeningMatches(tag, ">" + more);
    Regroup("<", tag, ">", more);
    Regroup("</", tag, ">", more);
    SlashApart(tag + (">" + more));
  }

  lemma Regroup(a: string, b: string, c: string, d: string)
    ensures ((a + b) + c) + d == a + (b + (c + d))
  {
    Associate(a + b, c, d);
    Associate(a, b, c + d);
  }

  lemma SlashApart(t: string)
    ensures "</" + t == "<" + ("/" + t)
  {
  }

  lemma HeadTagCounts(head: string, more: string)
    requires head != "" && '<' !in head[1..] && MatchRest(head + more).Some?
    ensures CountTags(head + more) == 1 + CountTags(more)
  {
    assert (head + more)[1..] == head[1..] + more;
    NoTagWithoutBracket(head[1..], more);
  }

  lemma OwnTagsCount(tag: string, more: string)
    requires IsEnvelopeTag(tag)
    ensures CountTags("<" + tag + ">" + more) == 1 + CountTags(more)
    ensures CountTags("</" + tag + ">" + more) == 1 + CountTags(more)
  {
    OwnTagMatches(tag, more);
    var open, close := "<" + tag + ">", "</" + tag + ">";
    assert open[1..] == tag + ">" && close[1..] == "/" + tag + ">";
    HeadTagCounts(open, more);
    HeadTagCounts(close, more);
  }

  /** For every body: exactly two tags, the opening one at the start and the closing one at the end. */
  lemma EnvelopeHasTwoTags(tag: string, body: string)
    requires IsEnvelopeTag(tag)
    ensures CountTags(Wrap(tag, body)) == 2
    ensures MatchRest(Wrap(tag, body)) == Some("\n" + Neutralise(body) + "\n" + "</" + tag + ">")
    ensures MatchRest("</" + tag + ">") == Some("")
  {
    var close := "</" + tag + ">";
    var inner := "\n" + Neutralise(body) + "\n" + close;
    WrapIs(tag, body);
    OwnTagsCount(tag, inner);
    OwnTagMatches(tag, inner);
    InnerCounts(body, close);
    assert close + "" == close;
    OwnTagsCount(tag, "");
    OwnTagMatches(tag, "");
  }

  lemma WrapIs(tag: string, body: string)
    ensures Wrap(tag, body) == "<" + tag + ">" + ("\n" + Neutralise(body) + "\n" + ("</" + tag + ">"))
    ensures "\n" + Neutralise(body) + "\n" + "</" + tag + ">" == "\n" + Neutralise(body) + "\n" + ("</" + tag + ">")
  {
  }

  lemma InnerCounts(body: string, close: string)
    requires close != "" && close[0] == '<'
    ensures CountTags("\n" + Neutralise(body) + "\n" + close) == CountTags(close)
  {
    var tail := "\n" + close;
    Regroup("\n", Neutralise(body), "\n", close);
    NoTagWithoutBracket("\n", Neutralise(body) + tail);
    ClosingStops(close);
    NoTagSurvives(body, tail);
    NoTagWithoutBracket("\n", close);
  }

  lemma ClosingStops(close: string)
    requires close != "" && close[0] == '<'
    ensures Stopped("\n" + close)
  {
    assert ("\n" + close)[1..] == close && AfterSpaces(close) == close;
  }

  lemma {:induction false} UntaggedIsUnchanged(s: string)
    requires CountTags(s) == 0
    ensures Neutralise(s) == s
  {
    if s != "" { UntaggedIsUnchanged(s[1..]); }
  }

  /** The pass is idempotent, and changes a text exactly when it holds a tag. */
  lemma NeutraliseIsIdempotent(s: string)
    ensures CountTags(Neutralise(s)) == 0
    ensures Neutralise(Neutralise(s)) == Neutralise(s)
    ensures Neutralise(s) == s <==> CountTags(s) == 0
  {
    NoTagSurvives(s, "");
    assert Neutralise(s) + "" == Neutralise(s);
    UntaggedIsUnchanged(Neutralise(s));
    if CountTags(s) == 0 { UntaggedIsUnchanged(s); }
  }

  /** Tags cannot overlap, so counting positions is counting the matches of a global scan; and
      each match costs exactly the three characters of its escape. */
  lemma {:induction false} ScanCountsPositions(s: string)
    ensures ScanTags(s) == CountTags(s)
    ensures |Neutralise(s)| == |s| + 3 * CountTags(s)
    decreases |s|
  {
    if s != "" {
      match MatchRest(s)
      case None => ScanCountsPositions(s[1..]);
      case Some(rest) =>
        SlashStageConsumes(s[1..]);
        var used :| s[1..] == used + rest && '<' !in used;
        NoTagWithoutBracket(used, rest);
        ScanCountsPositions(rest);
    }
  }

  ghost predicate StartsTag(s: string) {
    exists p, rest :: IsTag(p) && s == TagThen(p, rest)
  }

  lemma StartsTagIff(s: string)
    ensures StartsTag(s) <==> MatchRest(s).Some?
  {
    if MatchRest(s).Some? { MatchRestIff(s, MatchRest(s).value); }
    if p, rest :| IsTag(p) && s == TagThen(p, rest) { MatchRestIff(s, rest); }
  }

  /** The pass position by position: a bracket that starts a tag is written as an entity, and every
      other character as it is. */
  ghost function EscapeTags(s: string): string {
    if s == "" then ""
    else (if StartsTag(s) then "&lt;" else [s[0]]) + EscapeTags(s[1..])
  }

  lemma {:induction false} PlainIsKept(u: string, rest: string)
    requires '<' !in u
    ensures EscapeTags(u + rest) == u + EscapeTags(rest)
  {
    if u == "" {
      assert u + rest == rest;
    } else {
      assert (u + rest)[1..] == u[1..] + rest;
      PlainIsKept(u[1..], rest);
      assert u == [u[0]] + u[1..];
    }
  }

  /** The one-pass replacement escapes exactly the brackets that start tags; all other text stays. */
  lemma {:induction false} NeutraliseIsEscapeTags(s: string)
    ensures Neutralise(s) == EscapeTags(s)
    decreases |s|
  {
    if s != "" {
      StartsTagIff(s);
      match MatchRest(s)
      case None =>
        NeutraliseIsEscapeTags(s[1..]);
      case Some(rest) =>
        SlashStageConsumes(s[1..]);
        var used :| s[1..] == used + rest && '<' !in used;
        assert s[1..|s| - |rest|] == used;
        PlainIsKept(used, rest);
        NeutraliseIsEscapeTags(rest);
    }
  }
}
