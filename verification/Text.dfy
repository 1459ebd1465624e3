/** String helpers: the lexicographic order behind `<` and `.sort()`, and substring search. */
module Text {
  predicate Less(a: string, b: string) {
    if b == "" then false
    else if a == "" then true
    else a[0] < b[0] || (a[0] == b[0] && Less(a[1..], b[1..]))
  }

  /** `k` is where `a` falls behind `b`: both agree before it, and there `a` ends or has the smaller
      character. */
  predicate FallsBehindAt(a: string, b: string, k: nat) {
    k <= |a| && k < |b| && (forall i :: 0 <= i < k ==> a[i] == b[i]) && (k == |a| || a[k] < b[k])
  }

  lemma {:induction false} LessIff(a: string, b: string)
    ensures Less(a, b) <==> exists k: nat :: FallsBehindAt(a, b, k)
  {
    if a == "" || b == "" || a[0] != b[0] {
      assert Less(a, b) ==> FallsBehindAt(a, b, 0);
    } else {
      LessIff(a[1..], b[1..]);
      if k: nat :| FallsBehindAt(a[1..], b[1..], k) {
        assert forall i :: 0 < i <= k ==> a[i] == a[1..][i - 1] && b[i] == b[1..][i - 1];
        assert FallsBehindAt(a, b, k + 1);
      }
      if k: nat :| FallsBehindAt(a, b, k) {
        assert k > 0;
        assert FallsBehindAt(a[1..], b[1..], k - 1);
      }
    }
  }

  lemma {:induction false} LessIsTotal(a: string, b: string)
    ensures a == b || Less(a, b) || Less(b, a)
  {
    if a != "" && b != "" && a[0] == b[0] {
      LessIsTotal(a[1..], b[1..]);
      assert a == [a[0]] + a[1..] && b == [b[0]] + b[1..];
    }
  }

  lemma {:induction false} LessIsIrreflexive(a: string)
    ensures !Less(a, a)
  {
    if a != "" { LessIsIrreflexive(a[1..]); }
  }

  lemma {:induction false} LessIsTransitive(a: string, b: string, c: string)
    requires Less(a, b) && Less(b, c)
    ensures Less(a, c)
  {
    if a != "" && a[0] == b[0] && b[0] == c[0] { LessIsTransitive(a[1..], b[1..], c[1..]); }
  }

  lemma LessIsAsymmetric(a: string, b: string)
    requires Less(a, b)
    ensures !Less(b, a)
  {
    if Less(b, a) {
      LessIsTransitive(a, b, a);
      LessIsIrreflexive(a);
    }
  }

  /** ECMAScript white space and line terminators: what `trim()` strips and `\s` matches. */
  predicate IsSpace(c: char) {
    c == ' ' || '\U{9}' <= c <= '\U{D}' || c == '\U{A0}' || c == '\U{1680}' || '\U{2000}' <= c <= '\U{200A}' ||
    c == '\U{2028}' || c == '\U{2029}' || c == '\U{202F}' || c == '\U{205F}' || c == '\U{3000}' || c == '\U{FEFF}'
  }

  /** The white space and line terminators of ECMA-262, sections 12.2 and 12.3, one by one. */
  const WHITE_SPACE :=
    "\t\n\U{B}\U{C}\r \U{A0}\U{1680}\U{2000}\U{2001}\U{2002}\U{2003}\U{2004}\U{2005}\U{2006}\U{2007}\U{2008}\U{2009}\U{200A}\U{2028}\U{2029}\U{202F}\U{205F}\U{3000}\U{FEFF}"

  lemma IsSpaceIff(c: char)
    ensures IsSpace(c) <==> c in WHITE_SPACE
  {
    if '\U{9}' <= c <= '\U{D}' { assert WHITE_SPACE[c as int - 9] == c; }
    if c == ' ' { assert WHITE_SPACE[5] == c; }
    if c == '\U{A0}' { assert WHITE_SPACE[6] == c; }
    if c == '\U{1680}' { assert WHITE_SPACE[7] == c; }
    if '\U{2000}' <= c <= '\U{200A}' { assert WHITE_SPACE[8 + (c as int - 0x2000)] == c; }
    if c == '\U{2028}' { assert WHITE_SPACE[19] == c; }
    if c == '\U{2029}' { assert WHITE_SPACE[20] == c; }
    if c == '\U{202F}' { assert WHITE_SPACE[21] == c; }
    if c == '\U{205F}' { assert WHITE_SPACE[22] == c; }
    if c == '\U{3000}' { assert WHITE_SPACE[23] == c; }
    if c == '\U{FEFF}' { assert WHITE_SPACE[24] == c; }
  }

  /** `text.includes(needle)`. */
  predicate Includes(text: string, needle: string) {
    exists i :: 0 <= i <= |text| && OccursAt(text, needle, i)
  }

  predicate OccursAt(text: string, needle: string, i: nat) {
    i + |needle| <= |text| && text[i..i + |needle|] == needle
  }
}
