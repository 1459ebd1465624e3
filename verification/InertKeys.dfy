/** The canonical serialiser of packages/crew/src/config/inertKeys.ts and the `deliberate` flag
    computed with it. */
module InertKeys {
  import opened Prelude
  import opened Text

  /** A parsed value. A finite number is represented by the text `JSON.stringify` prints for it;
      an object keeps the order of its keys. */
  datatype Json =
    | Null
    | Bool(b: bool)
    | Num(text: string)
    | Str(s: string)
    | Arr(items: seq<Json>)
    | Obj(fields: seq<Field>)

  datatype Field = Field(key: string, value: Json)

  predicate IsNumberChar(c: char) {
    '0' <= c <= '9' || c == '-' || c == '+' || c == '.' || c == 'e'
  }

  predicate IsNumberText(s: string) {
    s != "" && ('0' <= s[0] <= '9' || s[0] == '-') && forall i :: 0 <= i < |s| ==> IsNumberChar(s[i])
  }

  predicate DistinctKeys(fields: seq<Field>) {
    forall i, j :: 0 <= i < j < |fields| ==> fields[i].key != fields[j].key
  }

  predicate WellFormed(v: Json) {
    match v
    case Num(text) => IsNumberText(text)
    case Arr(items) => forall item :: item in items ==> WellFormed(item)
    case Obj(fields) => DistinctKeys(fields) && forall f :: f in fields ==> WellFormed(f.value)
    case _ => true
  }

  function Keys(fields: seq<Field>): set<string> {
    set f | f in fields :: f.key
  }

  /** Equal values, up to the order of object keys at every level. */
  ghost predicate Same(u: Json, v: Json) {
    match (u, v)
    case (Arr(a), Arr(b)) => |a| == |b| && forall i :: 0 <= i < |a| ==> Same(a[i], b[i])
    case (Obj(a), Obj(b)) =>
      Keys(a) == Keys(b) && forall f, g :: f in a && g in b && f.key == g.key ==> Same(f.value, g.value)
    case _ => u == v
  }

  // ----- Serialisation -----

  function HexDigit(n: nat): char
    requires n < 16
  {
    if n < 10 then '0' + n as char else 'a' + (n - 10) as char
  }

  /** One character inside a JSON string. */
  function Escape(c: char): string {
    if c == '"' then "\\\""
    else if c == '\\' then "\\\\"
    else if c == '\U{8}' then "\\b"
    else if c == '\t' then "\\t"
    else if c == '\n' then "\\n"
    else if c == '\U{C}' then "\\f"
    else if c == '\r' then "\\r"
    else if c < ' ' then "\\u00" + [HexDigit(c as int / 16)] + [HexDigit(c as int % 16)]
    else [c]
  }

  function EscapeAll(s: string): string {
    if s == "" then "" else Escape(s[0]) + EscapeAll(s[1..])
  }

  /** `JSON.stringify` of a string. */
  function Quote(s: string): string {
    "\"" + EscapeAll(s) + "\""
  }

  function InsertField(f: Field, sorted: seq<Field>): (r: seq<Field>)
    ensures forall g :: g in r <==> g == f || g in sorted
  {
    if sorted == [] || Less(f.key, sorted[0].key) then [f] + sorted
    else
      assert sorted == [sorted[0]] + sorted[1..];
      [sorted[0]] + InsertField(f, sorted[1..])
  }

  /** `Object.keys(v).sort()`, with the values carried along. */
  function SortFields(fields: seq<Field>): (r: seq<Field>)
    ensures forall f :: f in r <==> f in fields
  {
    if fields == [] then []
    else
      assert fields == [fields[0]] + fields[1..];
      InsertField(fields[0], SortFields(fields[1..]))
  }

  lemma ItemIsSmaller(owner: Json, item: Json)
    requires owner.Arr? && item in owner.items
    ensures item < owner
  {
    var i :| 0 <= i < |owner.items| && owner.items[i] == item;
  }

  function Stable(v: Json): string
    decreases v, 1, 0
  {
    match v
    case Null => "null"
    case Bool(b) => if b then "true" else "false"
    case Num(text) => text
    case Str(s) => Quote(s)
    case Arr(items) => "[" + ItemsText(v, items) + "]"
    case Obj(fields) => "{" + FieldsText(v, SortFields(fields)) + "}"
  }

  /** The items joined with commas; `owner` is the array they belong to. */
  function ItemsText(owner: Json, items: seq<Json>): string
    requires owner.Arr? && forall x :: x in items ==> x in owner.items
    decreases owner, 0, |items|
  {
    if items == [] then ""
    else
      ItemIsSmaller(owner, items[0]);
      if |items| == 1 then Stable(items[0])
      else Stable(items[0]) + "," + ItemsText(owner, items[1..])
  }

  function FieldsText(owner: Json, fields: seq<Field>): string
    requires owner.Obj? && forall f :: f in fields ==> f in owner.fields
    decreases owner, 0, |fields|
  {
    if fields == [] then ""
    else if |fields| == 1 then FieldText(owner, fields[0])
    else FieldText(owner, fields[0]) + "," + FieldsText(owner, fields[1..])
  }

  function FieldText(owner: Json, f: Field): string
    requires owner.Obj? && f in owner.fields
    decreases owner, 0, 0
  {
    Quote(f.key) + ":" + Stable(f.value)
  }

  /** True when the value differs from every untouched value. */
  predicate Deliberate(untouched: seq<Json>, value: Json) {
    !exists i :: 0 <= i < |untouched| && Stable(untouched[i]) == Stable(value)
  }

  // ----- Strings read back, by the grammar of RFC 8259, section 7 -----

  function HexValue(c: char): Option<nat> {
    if '0' <= c <= '9' then Some(c as int - '0' as int)
    else if 'a' <= c <= 'f' then Some(10 + (c as int - 'a' as int))
    else if 'A' <= c <= 'F' then Some(10 + (c as int - 'A' as int))
    else None
  }

  /** The character a four-digit escape stands for; surrogates are not modelled. */
  function HexChar(digits: string): Option<char>
    requires |digits| == 4
  {
    var a, b, c, d := HexValue(digits[0]), HexValue(digits[1]), HexValue(digits[2]), HexValue(digits[3]);
    if a.None? || b.None? || c.None? || d.None? then None
    else
      var code := ((a.value * 16 + b.value) * 16 + c.value) * 16 + d.value;
      if code < 0xD800 then Some(code as char) else None
  }

  datatype Read<T> = Read(value: T, rest: string)

  /** One character of a string's content. */
  function ReadChar(s: string): Option<Read<char>> {
    if s == "" || s[0] == '"' || s[0] < ' ' then None
    else if s[0] != '\\' then Some(Read(s[0], s[1..]))
    else if |s| < 2 then None
    else
      match s[1]
      case '"' => Some(Read('"', s[2..]))
      case '\\' => Some(Read('\\', s[2..]))
      case '/' => Some(Read('/', s[2..]))
      case 'b' => Some(Read('\U{8}', s[2..]))
      case 'f' => Some(Read('\U{C}', s[2..]))
      case 'n' => Some(Read('\U{A}', s[2..]))
      case 'r' => Some(Read('\U{D}', s[2..]))
      case 't' => Some(Read('\U{9}', s[2..]))
      case 'u' => if |s| < 6 || HexChar(s[2..6]).None? then None else Some(Read(HexChar(s[2..6]).value, s[6..]))
      case _ => None
  }

  /** The content up to the closing quote. */
  function ReadContent(s: string): Option<Read<string>>
    decreases |s|
  {
    if s == "" then None
    else if s[0] == '"' then Some(Read("", s[1..]))
    else
      match ReadChar(s)
      case None => None
      case Some(first) =>
        if |first.rest| >= |s| then None
        else
          match ReadContent(first.rest)
          case None => None
          case Some(more) => Some(Read([first.value] + more.value, more.rest))
  }

  function ReadString(s: string): Option<Read<string>> {
    if s != "" && s[0] == '"' then ReadContent(s[1..]) else None
  }

  lemma EscapeReads(c: char, rest: string)
    ensures ReadChar(Escape(c) + rest) == Some(Read(c, rest))
    ensures Escape(c) != "" && Escape(c)[0] != '"'
  {
    var s := Escape(c) + rest;
    assert s[|Escape(c)|..] == rest;
    if |Escape(c)| == 6 { HexReads(c, s); }
  }

  lemma HexReads(c: char, s: string)
    requires c < ' ' && |s| >= 6 && s[..6] == "\\u00" + [HexDigit(c as int / 16)] + [HexDigit(c as int % 16)]
    ensures s[0] == '\\' && s[1] == 'u' && HexChar(s[2..6]) == Some(c)
  {
    var digits := s[..6][2..];
    assert digits == s[2..6] && digits == "00" + [HexDigit(c as int / 16)] + [HexDigit(c as int % 16)];
    assert s[..6][0] == s[0] && s[..6][1] == s[1];
  }

  lemma {:induction false} ContentReads(s: string, rest: string)
    ensures ReadContent(EscapeAll(s) + ("\"" + rest)) == Some(Read(s, rest))
  {
    if s == "" {
      assert EscapeAll(s) + ("\"" + rest) == "\"" + rest && ("\"" + rest)[1..] == rest;
    } else {
      var more := EscapeAll(s[1..]) + ("\"" + rest);
      ContentReads(s[1..], rest);
      Associate(Escape(s[0]), EscapeAll(s[1..]), "\"" + rest);
      EscapeReads(s[0], more);
      assert (Escape(s[0]) + more)[0] == Escape(s[0])[0];
      assert s == [s[0]] + s[1..];
    }
  }

  /** A quoted string is a JSON text that reads back as the string, whatever follows it. */
  lemma QuoteReads(s: string, rest: string)
    ensures ReadString(Quote(s) + rest) == Some(Read(s, rest))
  {
    ContentReads(s, rest);
    QuoteOpens(s, rest);
    assert ("\"" + (EscapeAll(s) + ("\"" + rest)))[1..] == EscapeAll(s) + ("\"" + rest);
  }

  // ----- Strings are self-delimiting -----

  lemma EscapeIsPrefixFree(c: char, d: char, x: string, y: string)
    requires Escape(c) + x == Escape(d) + y
    ensures c == d && x == y
  {
    var l, r := Escape(c) + x, Escape(d) + y;
    assert l[0] == Escape(c)[0] && r[0] == Escape(d)[0];
    if |Escape(c)| > 1 && |Escape(d)| > 1 {
      assert l[1] == Escape(c)[1] && r[1] == Escape(d)[1];
      if Escape(c)[1] == 'u' {
        assert l[4] == Escape(c)[4] && l[5] == Escape(c)[5] && r[4] == Escape(d)[4] && r[5] == Escape(d)[5];
      }
    }
    assert l[|Escape(c)|..] == x && r[|Escape(d)|..] == y;
  }

  lemma EscapeIsNotQuote(c: char)
    ensures Escape(c) != "" && Escape(c)[0] != '"'
  {
  }

  lemma HeadAt(a: string, b: string)
    requires a != ""
    ensures (a + b)[0] == a[0]
  {
  }

  lemma HeadsDecode(s: string, t: string, x: string, y: string)
    requires s != "" && t != "" && EscapeAll(s) + ("\"" + x) == EscapeAll(t) + ("\"" + y)
    ensures s[0] == t[0] && EscapeAll(s[1..]) + ("\"" + x) == EscapeAll(t[1..]) + ("\"" + y)
  {
    Associate(Escape(s[0]), EscapeAll(s[1..]), "\"" + x);
    Associate(Escape(t[0]), EscapeAll(t[1..]), "\"" + y);
    EscapeIsPrefixFree(s[0], t[0], EscapeAll(s[1..]) + ("\"" + x), EscapeAll(t[1..]) + ("\"" + y));
  }

  lemma {:induction false} StringsDecode(s: string, t: string, x: string, y: string)
    requires EscapeAll(s) + ("\"" + x) == EscapeAll(t) + ("\"" + y)
    ensures s == t && x == y
  {
    QuoteEnds(s, x);
    QuoteEnds(t, y);
    if s == "" {
      assert x == ("\"" + x)[1..] && y == ("\"" + y)[1..];
    } else {
      HeadsDecode(s, t, x, y);
      StringsDecode(s[1..], t[1..], x, y);
      assert s == [s[0]] + s[1..] && t == [t[0]] + t[1..];
    }
  }

  /** The text after a string's content starts with a quote exactly when the content is empty. */
  lemma QuoteEnds(s: string, x: string)
    ensures (EscapeAll(s) + ("\"" + x))[0] == '"' <==> s == ""
    ensures s == "" ==> EscapeAll(s) + ("\"" + x) == "\"" + x
  {
    if s != "" {
      EscapeIsNotQuote(s[0]);
      assert (EscapeAll(s) + ("\"" + x))[0] == Escape(s[0])[0];
    }
  }

  lemma QuotesDecode(s: string, t: string, x: string, y: string)
    requires Quote(s) + x == Quote(t) + y
    ensures s == t && x == y
  {
    QuoteOpens(s, x);
    QuoteOpens(t, y);
    LiteralDecodes("\"", EscapeAll(s) + ("\"" + x), EscapeAll(t) + ("\"" + y));
    StringsDecode(s, t, x, y);
  }

  lemma QuoteOpens(s: string, x: string)
    ensures Quote(s) + x == "\"" + (EscapeAll(s) + ("\"" + x))
  {
    var content := EscapeAll(s);
    Associate("\"" + content, "\"", x);
    Associate("\"", content, "\"" + x);
  }

  // ----- Numbers end at a delimiter -----

  predicate Delimited(x: string) {
    x == "" || x[0] == ',' || x[0] == ']' || x[0] == '}'
  }

  lemma {:induction false} NumbersDecode(a: string, b: string, x: string, y: string)
    requires forall i :: 0 <= i < |a| ==> IsNumberChar(a[i])
    requires forall i :: 0 <= i < |b| ==> IsNumberChar(b[i])
    requires Delimited(x) && Delimited(y) && a + x == b + y
    ensures a == b && x == y
  {
    assert a != "" ==> (a + x)[0] == a[0];
    assert b != "" ==> (b + y)[0] == b[0];
    assert a == "" ==> a + x == x;
    assert b == "" ==> b + y == y;
    if a != "" && b != "" {
      assert (a + x)[1..] == a[1..] + x && (b + y)[1..] == b[1..] + y;
      NumbersDecode(a[1..], b[1..], x, y);
      assert a == [a[0]] + a[1..] && b == [b[0]] + b[1..];
    }
  }

  // ----- Unique decoding -----

  /** The first character tells the kind of value. */
  function Lead(v: Json): char
    requires WellFormed(v)
  {
    match v
    case Null => 'n'
    case Bool(b) => if b then 't' else 'f'
    case Num(text) => text[0]
    case Str(_) => '"'
    case Arr(_) => '['
    case Obj(_) => '{'
  }

  lemma StableLeads(v: Json)
    requires WellFormed(v)
    ensures Stable(v) != "" && Stable(v)[0] == Lead(v)
    ensures Lead(v) != ',' && Lead(v) != ']' && Lead(v) != '}'
  {
  }

  /** Values whose texts, extended, are equal are of one kind. */
  lemma KindsAgree(u: Json, v: Json, x: string, y: string)
    requires WellFormed(u) && WellFormed(v) && Stable(u) + x == Stable(v) + y
    ensures Lead(u) == Lead(v)
    ensures (u.Null? <==> v.Null?) && (u.Bool? <==> v.Bool?) && (u.Num? <==> v.Num?) && (u.Str? <==> v.Str?)
    ensures (u.Arr? <==> v.Arr?) && (u.Obj? <==> v.Obj?)
  {
    StableLeads(u);
    StableLeads(v);
    assert (Stable(u) + x)[0] == Stable(u)[0] && (Stable(v) + y)[0] == Stable(v)[0];
  }

  lemma LeafDecodes(u: Json, v: Json, x: string, y: string)
    requires WellFormed(u) && WellFormed(v) && Delimited(x) && Delimited(y) && !u.Arr? && !u.Obj?
    requires Stable(u) + x == Stable(v) + y
    ensures u == v && x == y
  {
    KindsAgree(u, v, x, y);
    match u
    case Num(text) => NumbersDecode(text, v.text, x, y);
    case Str(s) => QuotesDecode(s, v.s, x, y);
    case _ => LiteralDecodes(Stable(u), x, y);
  }

  lemma LiteralDecodes(literal: string, x: string, y: string)
    requires literal + x == literal + y
    ensures x == y
  {
    assert (literal + x)[|literal|..] == x && (literal + y)[|literal|..] == y;
  }

  lemma ArrayOpens(u: Json, x: string)
    requires u.Arr?
    ensures (Stable(u) + x)[1..] == ItemsText(u, u.items) + ("]" + x)
  {
  }

  lemma ObjectOpens(u: Json, x: string)
    requires u.Obj?
    ensures (Stable(u) + x)[1..] == FieldsText(u, SortFields(u.fields)) + ("}" + x)
  {
  }

  /** The serialisation is uniquely decodable: equal texts, followed by anything a value can be
      followed by, come from equal values and equal rests. */
  lemma {:induction false} Decodes(u: Json, v: Json, x: string, y: string)
    requires WellFormed(u) && WellFormed(v) && Delimited(x) && Delimited(y)
    requires Stable(u) + x == Stable(v) + y
    ensures Same(u, v) && x == y
    decreases u, 1, 0
  {
    KindsAgree(u, v, x, y);
    if u.Arr? {
      ArrayOpens(u, x);
      ArrayOpens(v, y);
      ItemsDecode(u, u.items, v, v.items, x, y);
    } else if u.Obj? {
      ObjectOpens(u, x);
      ObjectOpens(v, y);
      FieldsDecode(u, SortFields(u.fields), v, SortFields(v.fields), x, y);
      SameFieldLists(u, v);
    } else {
      LeafDecodes(u, v, x, y);
    }
  }

  /** What follows the first item, up to and past the closing bracket. */
  function AfterItem(u: Json, a: seq<Json>, x: string): string
    requires u.Arr? && a != [] && forall i :: i in a ==> i in u.items
  {
    if |a| == 1 then "]" + x else "," + (ItemsText(u, a[1..]) + ("]" + x))
  }

  lemma ItemsLead(u: Json, a: seq<Json>, x: string)
    requires u.Arr? && WellFormed(u) && forall i :: i in a ==> i in u.items
    ensures (ItemsText(u, a) + ("]" + x))[0] == ']' <==> a == []
    ensures if a == [] then ItemsText(u, a) + ("]" + x) == "]" + x
            else ItemsText(u, a) + ("]" + x) == Stable(a[0]) + AfterItem(u, a, x)
  {
    if a == [] {
      assert "" + ("]" + x) == "]" + x;
    } else {
      StableLeads(a[0]);
      ItemsSplit(u, a, x);
      HeadAt(Stable(a[0]), AfterItem(u, a, x));
    }
  }

  lemma ItemsSplit(u: Json, a: seq<Json>, x: string)
    requires u.Arr? && a != [] && forall i :: i in a ==> i in u.items
    ensures ItemsText(u, a) + ("]" + x) == Stable(a[0]) + AfterItem(u, a, x)
  {
    if |a| > 1 {
      Associate(Stable(a[0]), ",", ItemsText(u, a[1..]));
      Associate(Stable(a[0]), "," + ItemsText(u, a[1..]), "]" + x);
      Associate(",", ItemsText(u, a[1..]), "]" + x);
    }
  }

  lemma AfterItemsAgree(u: Json, a: seq<Json>, v: Json, b: seq<Json>, x: string, y: string)
    requires u.Arr? && a != [] && (forall i :: i in a ==> i in u.items)
    requires v.Arr? && b != [] && (forall i :: i in b ==> i in v.items)
    requires AfterItem(u, a, x) == AfterItem(v, b, y)
    ensures |a| == 1 <==> |b| == 1
    ensures if |a| == 1 then x == y else ItemsText(u, a[1..]) + ("]" + x) == ItemsText(v, b[1..]) + ("]" + y)
  {
    var p, q := AfterItem(u, a, x), AfterItem(v, b, y);
    assert p[0] == (if |a| == 1 then ']' else ',') && q[0] == (if |b| == 1 then ']' else ',');
    assert p[1..] == if |a| == 1 then x else ItemsText(u, a[1..]) + ("]" + x);
    assert q[1..] == if |b| == 1 then y else ItemsText(v, b[1..]) + ("]" + y);
  }

  /** Item lists, up to the closing bracket. */
  lemma {:induction false} ItemsDecode(u: Json, a: seq<Json>, v: Json, b: seq<Json>, x: string, y: string)
    requires u.Arr? && v.Arr? && WellFormed(u) && WellFormed(v)
    requires (forall i :: i in a ==> i in u.items) && (forall i :: i in b ==> i in v.items)
    requires ItemsText(u, a) + ("]" + x) == ItemsText(v, b) + ("]" + y)
    ensures |a| == |b| && x == y && forall i :: 0 <= i < |a| ==> Same(a[i], b[i])
    decreases u, 0, |a|
  {
    ItemsLead(u, a, x);
    ItemsLead(v, b, y);
    if a == [] {
      LiteralDecodes("]", x, y);
    } else {
      ItemIsSmaller(u, a[0]);
      Decodes(a[0], b[0], AfterItem(u, a, x), AfterItem(v, b, y));
      AfterItemsAgree(u, a, v, b, x, y);
      if |a| > 1 {
        ItemsDecode(u, a[1..], v, b[1..], x, y);
        assert a == [a[0]] + a[1..] && b == [b[0]] + b[1..];
      }
    }
  }

  ghost predicate SameList(a: seq<Field>, b: seq<Field>) {
    |a| == |b| && forall i :: 0 <= i < |a| ==> a[i].key == b[i].key && Same(a[i].value, b[i].value)
  }

  function AfterField(u: Json, a: seq<Field>, x: string): string
    requires u.Obj? && a != [] && forall f :: f in a ==> f in u.fields
  {
    if |a| == 1 then "}" + x else "," + (FieldsText(u, a[1..]) + ("}" + x))
  }

  lemma FieldsLead(u: Json, a: seq<Field>, x: string)
    requires u.Obj? && forall f :: f in a ==> f in u.fields
    ensures (FieldsText(u, a) + ("}" + x))[0] == '}' <==> a == []
    ensures if a == [] then FieldsText(u, a) + ("}" + x) == "}" + x
            else FieldsText(u, a) + ("}" + x) == FieldText(u, a[0]) + AfterField(u, a, x)
  {
    if a == [] {
      assert "" + ("}" + x) == "}" + x;
    } else {
      FieldTextSplit(u, a[0], "");
      FieldsSplit(u, a, x);
      HeadAt(FieldText(u, a[0]), AfterField(u, a, x));
    }
  }

  lemma FieldsSplit(u: Json, a: seq<Field>, x: string)
    requires u.Obj? && a != [] && forall f :: f in a ==> f in u.fields
    ensures FieldsText(u, a) + ("}" + x) == FieldText(u, a[0]) + AfterField(u, a, x)
  {
    if |a| > 1 {
      Associate(FieldText(u, a[0]), ",", FieldsText(u, a[1..]));
      Associate(FieldText(u, a[0]), "," + FieldsText(u, a[1..]), "}" + x);
      Associate(",", FieldsText(u, a[1..]), "}" + x);
    }
  }

  lemma FieldTextSplit(u: Json, f: Field, x: string)
    requires u.Obj? && f in u.fields
    ensures FieldText(u, f) + x == Quote(f.key) + (":" + (Stable(f.value) + x))
    ensures FieldText(u, f) != "" && FieldText(u, f)[0] == '"'
  {
    var q, v := Quote(f.key), Stable(f.value);
    assert q != "" && q[0] == '"';
    Associate(q, ":", v);
    HeadAt(q, ":" + v);
    Associate(q, ":" + v, x);
    Associate(":", v, x);
  }

  lemma AfterFieldsAgree(u: Json, a: seq<Field>, v: Json, b: seq<Field>, x: string, y: string)
    requires u.Obj? && a != [] && (forall f :: f in a ==> f in u.fields)
    requires v.Obj? && b != [] && (forall f :: f in b ==> f in v.fields)
    requires AfterField(u, a, x) == AfterField(v, b, y)
    ensures |a| == 1 <==> |b| == 1
    ensures if |a| == 1 then x == y else FieldsText(u, a[1..]) + ("}" + x) == FieldsText(v, b[1..]) + ("}" + y)
  {
    var p, q := AfterField(u, a, x), AfterField(v, b, y);
    assert p[0] == (if |a| == 1 then '}' else ',') && q[0] == (if |b| == 1 then '}' else ',');
    assert p[1..] == if |a| == 1 then x else FieldsText(u, a[1..]) + ("}" + x);
    assert q[1..] == if |b| == 1 then y else FieldsText(v, b[1..]) + ("}" + y);
  }

  /** The key of a field, and where its value starts. */
  lemma FieldKeysDecode(u: Json, f: Field, v: Json, g: Field, x: string, y: string)
    requires u.Obj? && v.Obj? && f in u.fields && g in v.fields
    requires FieldText(u, f) + x == FieldText(v, g) + y
    ensures f.key == g.key && Stable(f.value) + x == Stable(g.value) + y
  {
    var p, q := Stable(f.value) + x, Stable(g.value) + y;
    FieldTextSplit(u, f, x);
    FieldTextSplit(v, g, y);
    QuotesDecode(f.key, g.key, ":" + p, ":" + q);
    LiteralDecodes(":", p, q);
  }

  lemma {:induction false} FieldsDecode(u: Json, a: seq<Field>, v: Json, b: seq<Field>, x: string, y: string)
    requires u.Obj? && v.Obj? && WellFormed(u) && WellFormed(v)
    requires (forall f :: f in a ==> f in u.fields) && (forall f :: f in b ==> f in v.fields)
    requires FieldsText(u, a) + ("}" + x) == FieldsText(v, b) + ("}" + y)
    ensures SameList(a, b) && x == y
    decreases u, 0, |a|
  {
    FieldsLead(u, a, x);
    FieldsLead(v, b, y);
    if a == [] {
      LiteralDecodes("}", x, y);
    } else {
      var p, q := AfterField(u, a, x), AfterField(v, b, y);
      FieldKeysDecode(u, a[0], v, b[0], p, q);
      Decodes(a[0].value, b[0].value, p, q);
      AfterFieldsAgree(u, a, v, b, x, y);
      if |a| > 1 { FieldsDecode(u, a[1..], v, b[1..], x, y); }
      SameListGrows(a, b);
    }
  }

  lemma SameListGrows(a: seq<Field>, b: seq<Field>)
    requires a != [] && b != [] && a[0].key == b[0].key && Same(a[0].value, b[0].value)
    requires (|a| == 1 && |b| == 1) || SameList(a[1..], b[1..])
    ensures SameList(a, b)
  {
    forall i | 0 < i < |a| ensures a[i].key == b[i].key && Same(a[i].value, b[i].value) {
      assert a[i] == a[1..][i - 1] && b[i] == b[1..][i - 1];
    }
  }

  lemma OneField(fields: seq<Field>, f: Field, g: Field)
    requires DistinctKeys(fields) && f in fields && g in fields && f.key == g.key
    ensures f == g
  {
  }

  lemma ListedKeys(a: seq<Field>, b: seq<Field>, fields: seq<Field>, others: seq<Field>)
    requires SameList(a, b) && (forall f :: f in fields ==> f in a) && (forall g :: g in b ==> g in others)
    ensures Keys(fields) <= Keys(others)
  {
    forall key | key in Keys(fields) ensures key in Keys(others) {
      var f :| f in fields && f.key == key;
      var i :| 0 <= i < |a| && a[i] == f;
      assert b[i] in others && b[i].key == key;
    }
  }

  lemma ListedValues(a: seq<Field>, b: seq<Field>, others: seq<Field>, f: Field, g: Field)
    requires SameList(a, b) && DistinctKeys(others) && f in a && g in others && f.key == g.key
    requires forall h :: h in b ==> h in others
    ensures Same(f.value, g.value)
  {
    var i :| 0 <= i < |a| && a[i] == f;
    assert b[i] in others;
    OneField(others, b[i], g);
  }

  lemma ListedKeysBack(a: seq<Field>, b: seq<Field>, fields: seq<Field>, others: seq<Field>)
    requires SameList(a, b) && (forall f :: f in a ==> f in fields) && (forall g :: g in others ==> g in b)
    ensures Keys(others) <= Keys(fields)
  {
    forall key | key in Keys(others) ensures key in Keys(fields) {
      var g :| g in others && g.key == key;
      var i :| 0 <= i < |b| && b[i] == g;
      assert a[i] in fields && a[i].key == key;
    }
  }

  /** Sorted field lists that agree position by position come from equal objects. */
  lemma SameFieldLists(u: Json, v: Json)
    requires u.Obj? && v.Obj? && WellFormed(u) && WellFormed(v)
    requires SameList(SortFields(u.fields), SortFields(v.fields))
    ensures Same(u, v)
  {
    var a, b := SortFields(u.fields), SortFields(v.fields);
    ListedKeys(a, b, u.fields, v.fields);
    ListedKeysBack(a, b, u.fields, v.fields);
    forall f, g | f in u.fields && g in v.fields && f.key == g.key ensures Same(f.value, g.value) {
      ListedValues(a, b, v.fields, f, g);
    }
  }

  // ----- Key order does not matter -----

  predicate KeySorted(fields: seq<Field>) {
    forall i, j :: 0 <= i < j < |fields| ==> Less(fields[i].key, fields[j].key)
  }

  lemma {:induction false} InsertSorts(f: Field, sorted: seq<Field>)
    requires KeySorted(sorted) && f.key !in Keys(sorted)
    ensures KeySorted(InsertField(f, sorted))
  {
    if sorted == [] {
    } else if Less(f.key, sorted[0].key) {
      forall j | 0 <= j < |sorted| ensures Less(f.key, sorted[j].key) {
        if j > 0 { LessIsTransitive(f.key, sorted[0].key, sorted[j].key); }
      }
    } else {
      assert sorted[0] in sorted && sorted[0].key in Keys(sorted);
      LessIsTotal(f.key, sorted[0].key);
      assert forall g :: g in sorted[1..] ==> g in sorted;
      InsertSorts(f, sorted[1..]);
      var rest := InsertField(f, sorted[1..]);
      forall j | 0 <= j < |rest| ensures Less(sorted[0].key, rest[j].key) {
        assert rest[j] in rest;
        if rest[j] != f {
          var k :| 0 <= k < |sorted[1..]| && sorted[1..][k] == rest[j];
          assert sorted[k + 1] == rest[j];
        }
      }
    }
  }

  lemma {:induction false} SortSorts(fields: seq<Field>)
    requires DistinctKeys(fields)
    ensures KeySorted(SortFields(fields))
  {
    if fields != [] {
      SortSorts(fields[1..]);
      var rest := SortFields(fields[1..]);
      forall g | g in rest ensures g.key != fields[0].key {
        var k :| 0 <= k < |fields[1..]| && fields[1..][k] == g;
        assert fields[k + 1] == g;
      }
      InsertSorts(fields[0], rest);
    }
  }

  lemma SortedHeadsAgree(a: seq<Field>, b: seq<Field>)
    requires KeySorted(a) && KeySorted(b) && Keys(a) == Keys(b) && a != [] && b != []
    ensures a[0].key == b[0].key
  {
    assert a[0] in a && b[0] in b;
    assert a[0].key in Keys(a) && b[0].key in Keys(b);
    HeadIsLeast(a, b[0].key);
    HeadIsLeast(b, a[0].key);
    if Less(a[0].key, b[0].key) { LessIsAsymmetric(a[0].key, b[0].key); }
  }

  /** Two key-sorted lists with the same keys have them in the same positions. */
  lemma {:induction false} SortedKeysAgree(a: seq<Field>, b: seq<Field>)
    requires KeySorted(a) && KeySorted(b) && Keys(a) == Keys(b)
    ensures |a| == |b| && forall i :: 0 <= i < |a| ==> a[i].key == b[i].key
  {
    assert a != [] ==> a[0] in a && a[0].key in Keys(a);
    assert b != [] ==> b[0] in b && b[0].key in Keys(b);
    if a != [] && b != [] {
      SortedHeadsAgree(a, b);
      TailKeys(a);
      TailKeys(b);
      SortedKeysAgree(a[1..], b[1..]);
      assert a == [a[0]] + a[1..] && b == [b[0]] + b[1..];
    }
  }

  lemma HeadIsLeast(a: seq<Field>, key: string)
    requires a != [] && KeySorted(a) && key in Keys(a)
    ensures key == a[0].key || Less(a[0].key, key)
  {
    var f :| f in a && f.key == key;
    var i :| 0 <= i < |a| && a[i] == f;
  }

  lemma TailKeys(a: seq<Field>)
    requires a != [] && KeySorted(a)
    ensures Keys(a[1..]) == Keys(a) - {a[0].key} && KeySorted(a[1..])
  {
    assert a == [a[0]] + a[1..];
    forall f | f in a[1..] ensures f.key != a[0].key {
      var i :| 0 <= i < |a[1..]| && a[1..][i] == f;
      assert Less(a[0].key, a[i + 1].key);
      LessIsIrreflexive(f.key);
    }
  }

  lemma {:induction false} SameSerialise(u: Json, v: Json)
    requires WellFormed(u) && WellFormed(v) && Same(u, v)
    ensures Stable(u) == Stable(v)
    decreases u, 1, 0
  {
    match u
    case Arr(items) => ItemsSerialise(u, items, v, v.items);
    case Obj(fields) =>
      var a, b := SortFields(fields), SortFields(v.fields);
      SortSorts(fields);
      SortSorts(v.fields);
      assert Keys(a) == Keys(fields) && Keys(b) == Keys(v.fields);
      SortedKeysAgree(a, b);
      FieldsSerialise(u, a, v, b);
    case _ =>
  }

  lemma {:induction false} ItemsSerialise(u: Json, a: seq<Json>, v: Json, b: seq<Json>)
    requires u.Arr? && v.Arr? && WellFormed(u) && WellFormed(v)
    requires (forall i :: i in a ==> i in u.items) && (forall i :: i in b ==> i in v.items)
    requires |a| == |b| && forall i :: 0 <= i < |a| ==> Same(a[i], b[i])
    ensures ItemsText(u, a) == ItemsText(v, b)
    decreases u, 0, |a|
  {
    if a != [] {
      ItemIsSmaller(u, a[0]);
      SameSerialise(a[0], b[0]);
      ItemsSerialise(u, a[1..], v, b[1..]);
    }
  }

  lemma {:induction false} FieldsSerialise(u: Json, a: seq<Field>, v: Json, b: seq<Field>)
    requires u.Obj? && v.Obj? && WellFormed(u) && WellFormed(v) && Same(u, v)
    requires (forall f :: f in a ==> f in u.fields) && (forall f :: f in b ==> f in v.fields)
    requires |a| == |b| && forall i :: 0 <= i < |a| ==> a[i].key == b[i].key
    ensures FieldsText(u, a) == FieldsText(v, b)
    decreases u, 0, |a|
  {
    if a != [] {
      assert a[0] in u.fields && b[0] in v.fields;
      SameSerialise(a[0].value, b[0].value);
      FieldsSerialise(u, a[1..], v, b[1..]);
    }
  }

  // ----- Main results -----

  /** Equal canonical texts, exactly for equal values up to key order. */
  lemma StableIsCanonical(u: Json, v: Json)
    requires WellFormed(u) && WellFormed(v)
    ensures Stable(u) == Stable(v) <==> Same(u, v)
  {
    if Stable(u) == Stable(v) {
      assert Stable(u) + "" == Stable(v) + "";
      Decodes(u, v, "", "");
    }
    if Same(u, v) { SameSerialise(u, v); }
  }

  /** `deliberate` says exactly that the value differs from every untouched value. */
  lemma DeliberateIff(untouched: seq<Json>, value: Json)
    requires WellFormed(value) && forall i :: 0 <= i < |untouched| ==> WellFormed(untouched[i])
    ensures Deliberate(untouched, value) <==> forall i :: 0 <= i < |untouched| ==> !Same(untouched[i], value)
  {
    forall i | 0 <= i < |untouched| ensures Stable(untouched[i]) == Stable(value) <==> Same(untouched[i], value) {
      StableIsCanonical(untouched[i], value);
    }
  }
}
