/** What a round's content hash tells apart (apps/api/src/orchestrator/approval-round.ts). sha256 is
    taken to be injective: a hash is the text it hashes. */
module ContentHash {
  import opened CanonicalJson
  import opened JsonText
  import opened Sorting

  datatype Variant = Variant(platform: string, caption: string, hashtags: seq<string>)

  /** The rows read for the hash, in the order the database happened to give them; the copy is Null when
      the post has none. */
  datatype ApprovedContent = ApprovedContent(copy: Json, variants: seq<Variant>, assetIds: seq<string>)

  predicate PlatformsDiffer(variants: seq<Variant>) {
    forall i, j :: 0 <= i < j < |variants| ==> variants[i].platform != variants[j].platform
  }

  predicate IdsDiffer(ids: seq<string>) {
    forall i, j :: 0 <= i < j < |ids| ==> ids[i] != ids[j]
  }

  /** The database's: stored JSON, one variant a platform, one row an asset. */
  predicate Stored(content: ApprovedContent) {
    WellFormed(content.copy) && PlatformsDiffer(content.variants) && IdsDiffer(content.assetIds)
  }

  predicate VariantBefore(a: Variant, b: Variant) {
    TextBefore(a.platform, b.platform)
  }

  function Strings(texts: seq<string>): (items: seq<Json>)
    ensures |items| == |texts| && forall i :: 0 <= i < |items| ==> items[i] == Str(texts[i])
  {
    if texts == [] then [] else [Str(texts[0])] + Strings(texts[1..])
  }

  function VariantJson(v: Variant): Json {
    Obj([Field("platform", Str(v.platform)), Field("caption", Str(v.caption)), Field("hashtags", Arr(Strings(v.hashtags)))])
  }

  function VariantsJson(variants: seq<Variant>): (items: seq<Json>)
    ensures |items| == |variants| && forall i :: 0 <= i < |items| ==> items[i] == VariantJson(variants[i])
  {
    if variants == [] then [] else [VariantJson(variants[0])] + VariantsJson(variants[1..])
  }

  function Normalized(content: ApprovedContent): Json {
    Obj([
      Field("copy", content.copy),
      Field("variants", Arr(VariantsJson(Sort(VariantBefore, content.variants)))),
      Field("assetIds", Arr(Strings(Sort(TextBefore, content.assetIds))))])
  }

  /** contentHash */
  function ContentHash(content: ApprovedContent): string {
    Print(Normalized(content))
  }

  // ---- what it tells apart ----

  lemma StringsTell(a: seq<string>, b: seq<string>)
    ensures Same(Arr(Strings(a)), Arr(Strings(b))) <==> a == b
  {
    if Same(Arr(Strings(a)), Arr(Strings(b))) {
      forall i | 0 <= i < |a| ensures a[i] == b[i] {
        assert Same(Strings(a)[i], Strings(b)[i]);
      }
    }
  }

  lemma StringTells(a: string, b: string)
    ensures Same(Str(a), Str(b)) <==> a == b
  {
  }

  lemma VariantTells(a: Variant, b: Variant)
    ensures Same(VariantJson(a), VariantJson(b)) <==> a == b
  {
    hide Same, Strings;
    StringTells(a.platform, b.platform);
    StringTells(a.caption, b.caption);
    StringsTell(a.hashtags, b.hashtags);
    ThreeFieldsTell(VariantJson(a).fields, VariantJson(b).fields);
  }

  /** Objects of the same three keys are the same exactly when each key's values are. */
  lemma ThreeFieldsTell(a: seq<Field>, b: seq<Field>)
    requires |a| == |b| == 3 && DistinctKeys(a) && forall i :: 0 <= i < 3 ==> a[i].key == b[i].key
    ensures Same(Obj(a), Obj(b)) <==>
      Same(a[0].value, b[0].value) && Same(a[1].value, b[1].value) && Same(a[2].value, b[2].value)
  {
    forall i | 0 <= i < 3 ensures HasLike(a[i], b) <==> Same(a[i].value, b[i].value) {
      assert forall j :: 0 <= j < 3 && b[j].key == a[i].key ==> j == i;
    }
    forall j | 0 <= j < 3 ensures IsLikeOne(a, b[j]) <==> Same(a[j].value, b[j].value) {
      assert forall i :: 0 <= i < 3 && a[i].key == b[j].key ==> i == j;
    }
  }

  lemma VariantsTell(a: seq<Variant>, b: seq<Variant>)
    ensures Same(Arr(VariantsJson(a)), Arr(VariantsJson(b))) <==> a == b
  {
    forall i | 0 <= i < |a| && |a| == |b| ensures Same(VariantsJson(a)[i], VariantsJson(b)[i]) <==> a[i] == b[i] {
      VariantTells(a[i], b[i]);
    }
  }

  lemma TextOrderIsStrict()
    ensures IsStrict(TextBefore)
  {
    forall a: string, b: string | TextBefore(a, b) ensures !TextBefore(b, a) {
      TextOrderIsTotal(a, b);
    }
    forall a: string, b: string, c: string | TextBefore(a, b) && TextBefore(b, c) ensures TextBefore(a, c) {
      TextOrderIsTransitive(a, b, c);
    }
  }

  lemma VariantOrderIsStrict()
    ensures IsStrict(VariantBefore)
  {
    TextOrderIsStrict();
  }

  lemma RowsAreComparable(content: ApprovedContent)
    requires Stored(content)
    ensures Comparable(VariantBefore, content.variants) && Comparable(TextBefore, content.assetIds)
  {
    var variants, ids := content.variants, content.assetIds;
    forall i, j | 0 <= i < j < |variants|
      ensures VariantBefore(variants[i], variants[j]) || VariantBefore(variants[j], variants[i])
    {
      TextOrderIsTotal(variants[i].platform, variants[j].platform);
    }
    forall i, j | 0 <= i < j < |ids| ensures TextBefore(ids[i], ids[j]) || TextBefore(ids[j], ids[i]) {
      TextOrderIsTotal(ids[i], ids[j]);
    }
  }

  lemma SortedRowsTell(a: ApprovedContent, b: ApprovedContent)
    requires Stored(a) && Stored(b)
    ensures Sort(VariantBefore, a.variants) == Sort(VariantBefore, b.variants) <==> forall v :: v in a.variants <==> v in b.variants
    ensures Sort(TextBefore, a.assetIds) == Sort(TextBefore, b.assetIds) <==> forall id :: id in a.assetIds <==> id in b.assetIds
  {
    TextOrderIsStrict();
    VariantOrderIsStrict();
    RowsAreComparable(a);
    RowsAreComparable(b);
    hide Stored, VariantBefore, TextBefore;
    SortsAlike(VariantBefore, a.variants, b.variants);
    SortsAlike(TextBefore, a.assetIds, b.assetIds);
  }

  lemma VariantsAreWellFormed(variants: seq<Variant>)
    ensures WellFormed(Arr(VariantsJson(variants)))
  {
    var items := VariantsJson(variants);
    forall i | 0 <= i < |items| ensures WellFormed(items[i]) {
      assert WellFormed(Arr(Strings(variants[i].hashtags)));
    }
  }

  lemma NormalizedIsWellFormed(content: ApprovedContent)
    requires Stored(content)
    ensures WellFormed(Normalized(content))
  {
    hide Sort;
    VariantsAreWellFormed(Sort(VariantBefore, content.variants));
    var ids := Arr(Strings(Sort(TextBefore, content.assetIds)));
    assert WellFormed(ids);
    var fields := Normalized(content).fields;
    assert forall i :: 0 <= i < |fields| ==> WellFormed(fields[i].value);
  }

  /** The same content, whatever order its rows and keys come in. */
  ghost predicate SameContent(a: ApprovedContent, b: ApprovedContent) {
    && Same(a.copy, b.copy)
    && (forall v :: v in a.variants <==> v in b.variants)
    && (forall id :: id in a.assetIds <==> id in b.assetIds)
  }

  /** Two hashes agree exactly when the copy (up to key order), each platform's caption and ordered
      hashtags, and the set of current assets do. */
  lemma HashTellsContent(a: ApprovedContent, b: ApprovedContent)
    requires Stored(a) && Stored(b)
    ensures ContentHash(a) == ContentHash(b) <==> SameContent(a, b)
  {
    hide Same, WellFormed, Print, Sort, Stored;
    NormalizedIsWellFormed(a);
    NormalizedIsWellFormed(b);
    PrintTells(Normalized(a), Normalized(b));
    ThreeFieldsTell(Normalized(a).fields, Normalized(b).fields);
    VariantsTell(Sort(VariantBefore, a.variants), Sort(VariantBefore, b.variants));
    StringsTell(Sort(TextBefore, a.assetIds), Sort(TextBefore, b.assetIds));
    SortedRowsTell(a, b);
  }
}
