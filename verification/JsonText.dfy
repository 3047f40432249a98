/** JSON.stringify of a canonical value, and that nothing else prints the same
    (apps/api/src/orchestrator/approval-round.ts). */
module JsonText {
  import opened CanonicalJson
  import opened Sorting

  function Hex(n: nat): char
    requires n < 16
  {
    "0123456789abcdef"[n]
  }

  /** How JSON.stringify quotes one character. */
  function Escape(c: char): string {
    if c == '"' then ['\\', '"']
    else if c == '\\' then ['\\', '\\']
    else if c as int == 8 then ['\\', 'b']
    else if c as int == 9 then ['\\', 't']
    else if c as int == 10 then ['\\', 'n']
    else if c as int == 12 then ['\\', 'f']
    else if c as int == 13 then ['\\', 'r']
    else if (c as int) < 32 then ['\\', 'u', '0', '0', Hex(c as int / 16), Hex(c as int % 16)]
    else [c]
  }

  // Each value is written in front of what follows it.

  /** A string's characters and its closing quote. */
  function Quoted(s: string, rest: string): string {
    if s == "" then "\"" + rest else Escape(s[0]) + Quoted(s[1..], rest)
  }

  function Put(v: Json, rest: string): string
    decreases v
  {
    match v
    case Null => "null" + rest
    case Bool(b) => (if b then "true" else "false") + rest
    case Num(text) => text + rest
    case Str(s) => "\"" + Quoted(s, rest)
    case Arr(items) => "[" + (if items == [] then "]" + rest else Put(items[0], PutMore(items[1..], rest)))
    case Obj(fields) => "{" + (if fields == [] then "}" + rest else PutField(fields[0], PutMoreFields(fields[1..], rest)))
  }

  function PutMore(items: seq<Json>, rest: string): string
    decreases items
  {
    if items == [] then "]" + rest else "," + Put(items[0], PutMore(items[1..], rest))
  }

  function PutField(f: Field, rest: string): string
    decreases f
  {
    "\"" + Quoted(f.key, ":" + Put(f.value, rest))
  }

  function PutMoreFields(fields: seq<Field>, rest: string): string
    decreases fields
  {
    if fields == [] then "}" + rest else "," + PutField(fields[0], PutMoreFields(fields[1..], rest))
  }

  /** canonicalJson */
  function Print(v: Json): string {
    Put(Canonical(v), "")
  }

  // ---- nothing else prints the same ----

  lemma HexTells(m: nat, n: nat)
    requires m < 16 && n < 16 && Hex(m) == Hex(n)
    ensures m == n
  {}

  lemma EscapeTells(c: char, d: char, x: string, y: string)
    requires Escape(c) + x == Escape(d) + y
    ensures c == d && x == y
  {
    var p, q := Escape(c), Escape(d);
    assert (p + x)[0] == p[0] && (q + y)[0] == q[0];
    if |p| > 1 {
      assert (p + x)[1] == p[1] && (q + y)[1] == q[1];
      if |p| == 6 {
        assert (p + x)[4] == p[4] && (q + y)[4] == q[4];
        assert (p + x)[5] == p[5] && (q + y)[5] == q[5];
        HexTells(c as int / 16, d as int / 16);
        HexTells(c as int % 16, d as int % 16);
      }
    }
    assert p == q;
    assert x == (p + x)[|p|..] && y == (q + y)[|q|..];
  }

  /** An escape never starts with the closing quote. */
  lemma EscapeGoesOn(c: char, more: string, end: string)
    ensures Escape(c) + more != "\"" + end
  {
    assert (Escape(c) + more)[0] == Escape(c)[0];
    assert ("\"" + end)[0] == '"';
  }

  lemma {:induction false} QuotedTells(s: string, t: string, x: string, y: string)
    requires Quoted(s, x) == Quoted(t, y)
    ensures s == t && x == y
    decreases |s|
  {
    hide Escape;
    if s == "" && t == "" {
      After("\"", x, y);
    } else if s == "" {
      EscapeGoesOn(t[0], Quoted(t[1..], y), x);
    } else if t == "" {
      EscapeGoesOn(s[0], Quoted(s[1..], x), y);
    } else {
      EscapeTells(s[0], t[0], Quoted(s[1..], x), Quoted(t[1..], y));
      QuotedTells(s[1..], t[1..], x, y);
      assert s == [s[0]] + s[1..] && t == [t[0]] + t[1..];
    }
  }

  lemma After(p: string, x: string, y: string)
    requires p + x == p + y
    ensures x == y
  {
    assert x == (p + x)[|p|..] && y == (p + y)[|p|..];
  }

  /** What may follow a value. */
  predicate Ends(x: string) {
    x == "" || x[0] in ",]}"
  }

  lemma NoShorterNumeral(s: string, t: string, x: string, y: string)
    requires IsNumeral(t) && Ends(x) && s + x == t + y
    ensures |s| >= |t|
  {
    assert forall i :: 0 <= i < |t| ==> InNumeral((t + y)[i]);
    assert |s + x| == |t + y|;
    assert x != "" ==> (s + x)[|s|] == x[0] && !InNumeral(x[0]);
  }

  lemma NumeralTells(s: string, t: string, x: string, y: string)
    requires IsNumeral(s) && IsNumeral(t) && Ends(x) && Ends(y) && s + x == t + y
    ensures s == t && x == y
  {
    NoShorterNumeral(s, t, x, y);
    NoShorterNumeral(t, s, y, x);
    assert s == (s + x)[..|s|] && t == (t + y)[..|t|];
    After(s, x, y);
  }

  /** A value's kind shows in its first character. */
  function Kind(v: Json): char
    requires WellFormed(v)
  {
    match v
    case Null => 'n'
    case Bool(b) => if b then 't' else 'f'
    case Num(text) => text[0]
    case Str(_) => '"'
    case Arr(_) => '['
    case Obj(_) => '{'
  }

  lemma FirstTells(v: Json, x: string)
    requires WellFormed(v)
    ensures Put(v, x) != "" && Put(v, x)[0] == Kind(v)
  {
    hide PutMore, PutMoreFields, Quoted;
  }

  lemma MoreEnds(items: seq<Json>, x: string)
    ensures Ends(PutMore(items, x))
  {
    hide Put;
  }

  lemma MoreFieldsEnd(fields: seq<Field>, x: string)
    ensures Ends(PutMoreFields(fields, x))
  {
    hide PutField;
  }

  /** A value's text tells the value, whatever follows it. */
  lemma {:induction false} PutTells(a: Json, b: Json, x: string, y: string)
    requires WellFormed(a) && WellFormed(b) && Ends(x) && Ends(y) && Put(a, x) == Put(b, y)
    ensures a == b && x == y
    decreases a, 1
  {
    FirstTells(a, x);
    FirstTells(b, y);
    assert Kind(a) == Kind(b);
    match a
    case Null => After("null", x, y);
    case Bool(t) => After(if t then "true" else "false", x, y);
    case Num(text) => NumeralTells(text, b.text, x, y);
    case Str(s) =>
      After("\"", Quoted(s, x), Quoted(b.s, y));
      QuotedTells(s, b.s, x, y);
    case Arr(items) => ItemsTell(items, b.items, x, y);
    case Obj(fields) => FieldsTell(fields, b.fields, x, y);
  }

  ghost predicate AllWellFormed(items: seq<Json>) {
    forall i :: 0 <= i < |items| ==> WellFormed(items[i])
  }

  ghost predicate FieldsWellFormed(fields: seq<Field>) {
    forall i :: 0 <= i < |fields| ==> WellFormed(fields[i].value)
  }

  lemma {:induction false} ItemsTell(s: seq<Json>, t: seq<Json>, x: string, y: string)
    requires AllWellFormed(s) && AllWellFormed(t) && Put(Arr(s), x) == Put(Arr(t), y)
    ensures s == t && x == y
    decreases s, 0
  {
    var p := if s == [] then "]" + x else Put(s[0], PutMore(s[1..], x));
    var q := if t == [] then "]" + y else Put(t[0], PutMore(t[1..], y));
    After("[", p, q);
    hide Put, PutMore;
    if s != [] { FirstTells(s[0], PutMore(s[1..], x)); }
    if t != [] { FirstTells(t[0], PutMore(t[1..], y)); }
    assert s == [] <==> t == [];
    if s == [] {
      After("]", x, y);
    } else {
      MoreEnds(s[1..], x);
      MoreEnds(t[1..], y);
      PutTells(s[0], t[0], PutMore(s[1..], x), PutMore(t[1..], y));
      MoreTells(s[1..], t[1..], x, y);
      assert s == [s[0]] + s[1..] && t == [t[0]] + t[1..];
    }
  }

  lemma {:induction false} MoreTells(s: seq<Json>, t: seq<Json>, x: string, y: string)
    requires AllWellFormed(s) && AllWellFormed(t) && PutMore(s, x) == PutMore(t, y)
    ensures s == t && x == y
    decreases s, 0
  {
    hide Put;
    if s == [] {
      assert PutMore(t, y)[0] == ']';
      After("]", x, y);
    } else {
      assert PutMore(t, y)[0] == ',';
      After(",", Put(s[0], PutMore(s[1..], x)), Put(t[0], PutMore(t[1..], y)));
      MoreEnds(s[1..], x);
      MoreEnds(t[1..], y);
      hide PutMore;
      PutTells(s[0], t[0], PutMore(s[1..], x), PutMore(t[1..], y));
      MoreTells(s[1..], t[1..], x, y);
      assert s == [s[0]] + s[1..] && t == [t[0]] + t[1..];
    }
  }

  lemma {:induction false} FieldTells(f: Field, g: Field, x: string, y: string)
    requires WellFormed(f.value) && WellFormed(g.value) && Ends(x) && Ends(y) && PutField(f, x) == PutField(g, y)
    ensures f == g && x == y
    decreases f, 2
  {
    hide Quoted, Put;
    var p, q := ":" + Put(f.value, x), ":" + Put(g.value, y);
    After("\"", Quoted(f.key, p), Quoted(g.key, q));
    QuotedTells(f.key, g.key, p, q);
    After(":", Put(f.value, x), Put(g.value, y));
    PutTells(f.value, g.value, x, y);
  }

  lemma {:induction false} FieldsTell(s: seq<Field>, t: seq<Field>, x: string, y: string)
    requires FieldsWellFormed(s) && FieldsWellFormed(t) && Put(Obj(s), x) == Put(Obj(t), y)
    ensures s == t && x == y
    decreases s, 0
  {
    var p := if s == [] then "}" + x else PutField(s[0], PutMoreFields(s[1..], x));
    var q := if t == [] then "}" + y else PutField(t[0], PutMoreFields(t[1..], y));
    After("{", p, q);
    assert s == [] <==> p[0] == '}';
    assert t == [] <==> q[0] == '}';
    hide Put, PutField, PutMoreFields;
    if s == [] {
      After("}", x, y);
    } else {
      MoreFieldsEnd(s[1..], x);
      MoreFieldsEnd(t[1..], y);
      FieldTells(s[0], t[0], PutMoreFields(s[1..], x), PutMoreFields(t[1..], y));
      MoreFieldsTell(s[1..], t[1..], x, y);
      assert s == [s[0]] + s[1..] && t == [t[0]] + t[1..];
    }
  }

  lemma {:induction false} MoreFieldsTell(s: seq<Field>, t: seq<Field>, x: string, y: string)
    requires FieldsWellFormed(s) && FieldsWellFormed(t) && PutMoreFields(s, x) == PutMoreFields(t, y)
    ensures s == t && x == y
    decreases s, 0
  {
    hide PutField;
    if s == [] {
      assert PutMoreFields(t, y)[0] == '}';
      After("}", x, y);
    } else {
      assert PutMoreFields(t, y)[0] == ',';
      After(",", PutField(s[0], PutMoreFields(s[1..], x)), PutField(t[0], PutMoreFields(t[1..], y)));
      MoreFieldsEnd(s[1..], x);
      MoreFieldsEnd(t[1..], y);
      hide PutMoreFields;
      FieldTells(s[0], t[0], PutMoreFields(s[1..], x), PutMoreFields(t[1..], y));
      MoreFieldsTell(s[1..], t[1..], x, y);
      assert s == [s[0]] + s[1..] && t == [t[0]] + t[1..];
    }
  }

  lemma {:induction false} CanonicalIsWellFormed(v: Json)
    requires WellFormed(v)
    ensures WellFormed(Canonical(v))
    decreases v
  {
    match v
    case Arr(items) =>
      forall i | 0 <= i < |items| ensures WellFormed(Canonical(items[i])) {
        CanonicalIsWellFormed(items[i]);
      }
    case Obj(fields) =>
      forall i | 0 <= i < |fields| ensures WellFormed(Canonical(fields[i].value)) {
        CanonicalIsWellFormed(fields[i].value);
      }
      var all := CanonicalFields(fields);
      var sorted := Sort(FieldBefore, all);
      FieldOrderIsStrict();
      FieldsAreComparable(fields);
      SortInOrder(FieldBefore, all);
      forall i, j | 0 <= i < j < |sorted| ensures sorted[i].key != sorted[j].key {
        KeyOrderIsTotal(sorted[i].key, sorted[j].key);
      }
      forall i | 0 <= i < |sorted| ensures WellFormed(sorted[i].value) {
        SortHas(FieldBefore, all, sorted[i]);
      }
    case _ =>
  }

  /** Two values print alike exactly when they are equal up to the order of object keys. */
  lemma PrintTells(a: Json, b: Json)
    requires WellFormed(a) && WellFormed(b)
    ensures Print(a) == Print(b) <==> Same(a, b)
  {
    CanonicalIffSame(a, b);
    if Print(a) == Print(b) {
      CanonicalIsWellFormed(a);
      CanonicalIsWellFormed(b);
      PutTells(Canonical(a), Canonical(b), "", "");
    }
  }
}
