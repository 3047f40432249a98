/** The printer behind a round's content hash: JSON with object keys in one order at every level
    (apps/api/src/orchestrator/approval-round.ts). Text is Unicode, as the database stores it. */
module CanonicalJson {
  import opened Sorting

  /** A JSON value; an object's fields in the order the object lists them. A number is the text it prints as. */
  datatype Json = Null | Bool(b: bool) | Num(text: string) | Str(s: string) | Arr(items: seq<Json>) | Obj(fields: seq<Field>)
  datatype Field = Field(key: string, value: Json)

  predicate DistinctKeys(fields: seq<Field>) {
    forall i, j :: 0 <= i < j < |fields| ==> fields[i].key != fields[j].key
  }

  predicate InNumeral(c: char) {
    '0' <= c <= '9' || c in "-+.eE"
  }

  predicate IsNumeral(text: string) {
    text != "" && ('0' <= text[0] <= '9' || text[0] == '-') && forall i :: 0 <= i < |text| ==> InNumeral(text[i])
  }

  predicate WellFormed(v: Json) {
    match v
    case Num(text) => IsNumeral(text)
    case Arr(items) => forall i :: 0 <= i < |items| ==> WellFormed(items[i])
    case Obj(fields) => DistinctKeys(fields) && forall i :: 0 <= i < |fields| ==> WellFormed(fields[i].value)
    case _ => true
  }

  /** Equal but for the order objects list their keys in. */
  ghost predicate Same(a: Json, b: Json)
    decreases a
  {
    match a
    case Arr(items) => b.Arr? && |b.items| == |items| && forall i :: 0 <= i < |items| ==> Same(items[i], b.items[i])
    case Obj(fields) =>
      && b.Obj?
      && (forall i :: 0 <= i < |fields| ==> HasLike(fields[i], b.fields))
      && (forall j :: 0 <= j < |b.fields| ==> IsLikeOne(fields, b.fields[j]))
    case _ => a == b
  }

  ghost predicate HasLike(f: Field, others: seq<Field>)
    decreases f
  {
    exists j :: 0 <= j < |others| && others[j].key == f.key && Same(f.value, others[j].value)
  }

  ghost predicate IsLikeOne(fields: seq<Field>, other: Field)
    decreases fields
  {
    exists i :: 0 <= i < |fields| && other.key == fields[i].key && Same(fields[i].value, other.value)
  }

  // ---- key order ----

  /** Where UTF-16 code units put a character: surrogate pairs come before U+E000. */
  function UnitOrder(c: char): int {
    var n := c as int;
    if n >= 0x10000 then n - 0x10000 + 0xD800 else if n >= 0xE000 then n + 0x100000 else n
  }

  /** `<` of two strings. */
  predicate TextBefore(a: string, b: string) {
    if a == "" || b == "" then a == "" && b != ""
    else UnitOrder(a[0]) < UnitOrder(b[0]) || (a[0] == b[0] && TextBefore(a[1..], b[1..]))
  }

  /** A key an object lists before all others, in numeric order: a canonical array index. */
  predicate IsIndex(key: string) {
    key != "" && (key[0] == '0' ==> key == "0") && |key| <= 10 && (|key| == 10 ==> !TextBefore("4294967294", key))
      && forall i :: 0 <= i < |key| ==> '0' <= key[i] <= '9'
  }

  /** The order JSON.stringify lists the rebuilt object's keys in: array indices by number, then the rest
      as Object.fromEntries was given them. */
  predicate KeyBefore(a: string, b: string) {
    if IsIndex(a) && IsIndex(b) then |a| < |b| || (|a| == |b| && TextBefore(a, b))
    else IsIndex(a) || (!IsIndex(b) && TextBefore(a, b))
  }

  lemma {:induction false} TextOrderIsTotal(a: string, b: string)
    ensures TextBefore(a, b) || a == b || TextBefore(b, a)
    ensures !(TextBefore(a, b) && TextBefore(b, a))
  {
    if a != "" && b != "" {
      TextOrderIsTotal(a[1..], b[1..]);
      assert a == [a[0]] + a[1..] && b == [b[0]] + b[1..];
    }
  }

  lemma {:induction false} TextOrderIsTransitive(a: string, b: string, c: string)
    requires TextBefore(a, b) && TextBefore(b, c)
    ensures TextBefore(a, c)
  {
    if a != "" && a[0] == b[0] == c[0] {
      TextOrderIsTransitive(a[1..], b[1..], c[1..]);
    }
  }

  lemma KeyOrderIsTotal(a: string, b: string)
    ensures KeyBefore(a, b) || a == b || KeyBefore(b, a)
    ensures !(KeyBefore(a, b) && KeyBefore(b, a))
  {
    TextOrderIsTotal(a, b);
  }

  lemma KeyOrderIsTransitive(a: string, b: string, c: string)
    requires KeyBefore(a, b) && KeyBefore(b, c)
    ensures KeyBefore(a, c)
  {
    if TextBefore(a, b) && TextBefore(b, c) {
      TextOrderIsTransitive(a, b, c);
    }
  }

  // ---- the canonical form ----

  predicate FieldBefore(a: Field, b: Field) {
    KeyBefore(a.key, b.key)
  }

  /** The replacer, applied at every level: each object rebuilt with its keys in order. */
  function Canonical(v: Json): Json
    decreases v
  {
    match v
    case Arr(items) => Arr(CanonicalItems(items))
    case Obj(fields) => Obj(Sort(FieldBefore, CanonicalFields(fields)))
    case _ => v
  }

  function CanonicalItems(items: seq<Json>): (r: seq<Json>)
    ensures |r| == |items| && forall i :: 0 <= i < |r| ==> r[i] == Canonical(items[i])
    decreases items
  {
    if items == [] then [] else [Canonical(items[0])] + CanonicalItems(items[1..])
  }

  function CanonicalFields(fields: seq<Field>): (r: seq<Field>)
    ensures |r| == |fields| && forall i :: 0 <= i < |r| ==> r[i] == Field(fields[i].key, Canonical(fields[i].value))
    decreases fields
  {
    if fields == [] then [] else [Field(fields[0].key, Canonical(fields[0].value))] + CanonicalFields(fields[1..])
  }

  lemma FieldOrderIsStrict()
    ensures IsStrict(FieldBefore)
  {
    forall a: Field, b: Field | FieldBefore(a, b) ensures !FieldBefore(b, a) {
      KeyOrderIsTotal(a.key, b.key);
    }
    forall a: Field, b: Field, c: Field | FieldBefore(a, b) && FieldBefore(b, c) ensures FieldBefore(a, c) {
      KeyOrderIsTransitive(a.key, b.key, c.key);
    }
  }

  lemma FieldsAreComparable(fields: seq<Field>)
    requires DistinctKeys(fields)
    ensures Comparable(FieldBefore, CanonicalFields(fields))
  {
    var all := CanonicalFields(fields);
    forall i, j | 0 <= i < j < |all| ensures FieldBefore(all[i], all[j]) || FieldBefore(all[j], all[i]) {
      KeyOrderIsTotal(all[i].key, all[j].key);
    }
  }

  lemma CanonicalObjects(a: seq<Field>, b: seq<Field>)
    requires DistinctKeys(a) && DistinctKeys(b)
    ensures Canonical(Obj(a)) == Canonical(Obj(b)) <==>
      forall f :: f in CanonicalFields(a) <==> f in CanonicalFields(b)
  {
    FieldOrderIsStrict();
    FieldsAreComparable(a);
    FieldsAreComparable(b);
    SortsAlike(FieldBefore, CanonicalFields(a), CanonicalFields(b));
  }

  ghost predicate AgreeOn(a: seq<Field>, b: seq<Field>) {
    forall i, j :: 0 <= i < |a| && 0 <= j < |b| ==>
      (Canonical(a[i].value) == Canonical(b[j].value) <==> Same(a[i].value, b[j].value))
  }

  lemma FieldsHaveLikes(a: seq<Field>, b: seq<Field>)
    requires AgreeOn(a, b)
    ensures (forall f :: f in CanonicalFields(a) ==> f in CanonicalFields(b)) <==> forall i :: 0 <= i < |a| ==> HasLike(a[i], b)
  {
    hide Same, Canonical;
    var ca, cb := CanonicalFields(a), CanonicalFields(b);
    forall i | 0 <= i < |a| ensures ca[i] in cb <==> HasLike(a[i], b) {
      assert forall j :: 0 <= j < |b| ==> (cb[j] == ca[i] <==> b[j].key == a[i].key && Same(a[i].value, b[j].value));
    }
    assert forall i :: 0 <= i < |a| ==> ca[i] in ca;
  }

  lemma FieldsAreLike(a: seq<Field>, b: seq<Field>)
    requires AgreeOn(a, b)
    ensures (forall f :: f in CanonicalFields(b) ==> f in CanonicalFields(a)) <==> forall j :: 0 <= j < |b| ==> IsLikeOne(a, b[j])
  {
    hide Same, Canonical;
    var ca, cb := CanonicalFields(a), CanonicalFields(b);
    forall j | 0 <= j < |b| ensures cb[j] in ca <==> IsLikeOne(a, b[j]) {
      assert forall i :: 0 <= i < |a| ==> (ca[i] == cb[j] <==> b[j].key == a[i].key && Same(a[i].value, b[j].value));
    }
    assert forall j :: 0 <= j < |b| ==> cb[j] in cb;
  }

  /** The canonical fields are the same set exactly when each field has its like on the other side. */
  lemma SameFields(a: seq<Field>, b: seq<Field>)
    requires AgreeOn(a, b)
    ensures (forall f :: f in CanonicalFields(a) <==> f in CanonicalFields(b)) <==> Same(Obj(a), Obj(b))
  {
    hide Canonical, HasLike, IsLikeOne;
    FieldsHaveLikes(a, b);
    FieldsAreLike(a, b);
  }

  lemma SameItems(a: seq<Json>, b: seq<Json>)
    requires |a| == |b| ==> forall i :: 0 <= i < |a| ==> (Canonical(a[i]) == Canonical(b[i]) <==> Same(a[i], b[i]))
    ensures Canonical(Arr(a)) == Canonical(Arr(b)) <==> Same(Arr(a), Arr(b))
  {
    var ca, cb := CanonicalItems(a), CanonicalItems(b);
    if ca == cb {
      forall i | 0 <= i < |a| ensures Same(a[i], b[i]) {
        assert ca[i] == cb[i];
      }
    }
  }

  /** Two values have one canonical form exactly when they differ at most in key order. */
  lemma {:induction false} CanonicalIffSame(a: Json, b: Json)
    requires WellFormed(a) && WellFormed(b)
    ensures Canonical(a) == Canonical(b) <==> Same(a, b)
    decreases a
  {
    if a.Arr? && b.Arr? {
      if |a.items| == |b.items| {
        forall i | 0 <= i < |a.items| ensures Canonical(a.items[i]) == Canonical(b.items[i]) <==> Same(a.items[i], b.items[i]) {
          CanonicalIffSame(a.items[i], b.items[i]);
        }
      }
      SameItems(a.items, b.items);
    } else if a.Obj? && b.Obj? {
      forall i, j | 0 <= i < |a.fields| && 0 <= j < |b.fields|
        ensures Canonical(a.fields[i].value) == Canonical(b.fields[j].value) <==> Same(a.fields[i].value, b.fields[j].value)
      {
        CanonicalIffSame(a.fields[i].value, b.fields[j].value);
      }
      CanonicalObjects(a.fields, b.fields);
      SameFields(a.fields, b.fields);
    }
  }
}
