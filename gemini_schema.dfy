/** How the coding tools' JSON Schemas are rewritten into the subset Gemini
    accepts: `anyOf`/`oneOf`/`allOf` unions are flattened by merging their
    variants, `const` becomes a one-value `enum` and `patternProperties` is
    dropped, at every level reached through `properties`, `items` and
    `additionalProperties`.

    The functions here say what the rewrite computes; the methods at the end
    compute it with the loops the code uses and are proved equal to them. */
module GeminiSchema {
  import opened Wrappers
  import opened JsonValue
  import opened Sequences

  // ---------------------------------------------------------------------
  // Schema depth: how deep the rewrite can descend.  Only the keys it
  // recurses through count, so copying `default` or turning `const` into
  // `enum` never makes a schema deeper.
  // ---------------------------------------------------------------------

  function Deeper(a: nat, b: nat): nat {
    if a < b then b else a
  }

  /** Keys whose value is itself a schema, or an array of schemas. */
  predicate IsSchemaKey(k: string) {
    k == "items" || k == "additionalProperties" || k == "anyOf" || k == "oneOf" || k == "allOf"
  }

  function Depth(j: Json): nat
    decreases j
  {
    match j
    case Arr(items) => 1 + ItemsDepth(items)
    case Obj(fs) => 1 + FieldsDepth(fs)
    case _ => 0
  }

  function ItemsDepth(items: seq<Json>): nat
    decreases items
  {
    if items == [] then 0 else Deeper(Depth(items[0]), ItemsDepth(items[1..]))
  }

  function FieldsDepth(fs: seq<Field>): nat
    decreases fs
  {
    if fs == [] then 0 else Deeper(FieldDepth(fs[0]), FieldsDepth(fs[1..]))
  }

  function FieldDepth(f: Field): nat
    decreases f
  {
    if f.key == "properties" then PropsDepth(f.value)
    else if IsSchemaKey(f.key) then Depth(f.value)
    else 0
  }

  /** A `properties` map: the deepest of the schemas it maps names to. */
  function PropsDepth(v: Json): nat
    decreases v
  {
    match v
    case Obj(fs) => ValuesDepth(fs)
    case Arr(items) => ItemsDepth(items)
    case _ => 0
  }

  function ValuesDepth(fs: seq<Field>): nat
    decreases fs
  {
    if fs == [] then 0 else Deeper(Depth(fs[0].value), ValuesDepth(fs[1..]))
  }

  lemma {:induction false} ItemsDepthAtMost(items: seq<Json>, n: nat)
    ensures ItemsDepth(items) <= n <==> forall x :: x in items ==> Depth(x) <= n
  {
    if items != [] {
      ItemsDepthAtMost(items[1..], n);
      assert items[0] in items;
      assert forall x :: x in items <==> x == items[0] || x in items[1..];
    }
  }

  lemma {:induction false} FieldsDepthAtMost(fs: seq<Field>, n: nat)
    ensures FieldsDepth(fs) <= n <==> forall f :: f in fs ==> FieldDepth(f) <= n
  {
    if fs != [] {
      FieldsDepthAtMost(fs[1..], n);
      assert fs[0] in fs;
      assert forall f :: f in fs <==> f == fs[0] || f in fs[1..];
    }
  }

  lemma {:induction false} ValuesDepthAtMost(fs: seq<Field>, n: nat)
    ensures ValuesDepth(fs) <= n <==> forall f :: f in fs ==> Depth(f.value) <= n
  {
    if fs != [] {
      ValuesDepthAtMost(fs[1..], n);
      assert forall f :: f in fs <==> f == fs[0] || f in fs[1..];
    }
  }

  /** The entries of a `properties` map are no deeper than the map. */
  lemma EntriesDepth(v: Json)
    ensures forall f :: f in Entries(v) ==> Depth(f.value) <= PropsDepth(v)
  {
    match v
    case Obj(fs) => ValuesDepthAtMost(fs, PropsDepth(v));
    case Arr(items) =>
      ItemsDepthAtMost(items, PropsDepth(v));
      forall f | f in Entries(v) ensures Depth(f.value) <= PropsDepth(v) {
        var k :| 0 <= k < |Entries(v)| && Entries(v)[k] == f;
        assert f.value == items[k] && items[k] in items;
      }
    case _ =>
  }

  // ---------------------------------------------------------------------
  // Merging two property schemas.
  // ---------------------------------------------------------------------

  /** `extractEnumValues`: the values a schema allows by `enum`, or by
      `const` as a single value. */
  function ExtractEnumValues(schema: Json): (r: Option<seq<Json>>)
    ensures r.Some? ==> IsObjectLike(schema)
    ensures IsObjectLike(schema) && Get(schema, "enum").Arr? ==> r == Some(Get(schema, "enum").items)
    ensures schema.Obj? && !Get(schema, "enum").Arr? && HasKey(schema.fields, "const") ==> r == Some([Get(schema, "const")])
    ensures r.None? ==> !Get(schema, "enum").Arr? && !(schema.Obj? && HasKey(schema.fields, "const"))
  {
    if !IsObjectLike(schema) then None
    else if Get(schema, "enum").Arr? then Some(Get(schema, "enum").items)
    else if schema.Obj? && HasKey(schema.fields, "const") then Some([Get(schema, "const")])
    else None
  }

  /** `Array.from(new Set(s))`: each value once, at its first position. */
  function Dedupe(s: seq<Json>): (r: seq<Json>)
    ensures forall x :: x in r <==> x in s
    ensures forall i, j :: 0 <= i < j < |r| ==> r[i] != r[j]
    ensures |r| <= |s|
  {
    if s == [] then []
    else
      var d := Dedupe(s[..|s| - 1]);
      var x := s[|s| - 1];
      assert s == s[..|s| - 1] + [x];
      if x in d then d else d + [x]
  }

  /** The position of the first occurrence of `x` in `s`. */
  function IndexIn(s: seq<Json>, x: Json): (i: nat)
    requires x in s
    ensures i < |s| && s[i] == x
    ensures forall j :: 0 <= j < i ==> s[j] != x
  {
    if s[0] == x then 0 else 1 + IndexIn(s[1..], x)
  }

  lemma {:induction false} IndexInPrefix(s: seq<Json>, p: nat, y: Json)
    requires p <= |s| && y in s[..p]
    ensures IndexIn(s, y) == IndexIn(s[..p], y) < p
  {
    if s[0] != y {
      assert s[..p][1..] == s[1..][..p - 1];
      IndexInPrefix(s[1..], p - 1, y);
    }
  }

  /** `Dedupe` lists values in the order of their first occurrences. */
  lemma {:induction false} DedupeKeepsFirstOrder(s: seq<Json>)
    ensures forall i, j :: 0 <= i < j < |Dedupe(s)| ==> IndexIn(s, Dedupe(s)[i]) < IndexIn(s, Dedupe(s)[j])
  {
    if s != [] {
      var init := s[..|s| - 1];
      var x := s[|s| - 1];
      var d := Dedupe(init);
      var r := Dedupe(s);
      DedupeKeepsFirstOrder(init);
      forall y | y in d ensures IndexIn(s, y) == IndexIn(init, y) < |init| {
        IndexInPrefix(s, |init|, y);
      }
      if x !in d {
        forall k | 0 <= k < |init| ensures s[k] != x {
          assert s[k] == init[k] && init[k] in init;
        }
        assert IndexIn(s, x) == |init|;
      }
      forall i, j | 0 <= i < j < |r| ensures IndexIn(s, r[i]) < IndexIn(s, r[j]) {
        assert r[i] in d;
      }
    }
  }

  /** `value === null ? "null" : typeof value`. */
  function TypeName(v: Json): string {
    if v.Null? then "null" else TypeOf(v)
  }

  /** The `type` given to a merged enum: the one type all its values share,
      when `new Set(values.map(typeName))` has exactly one member. */
  function CommonType(values: seq<Json>): (t: Option<string>)
    ensures t.Some? <==> values != [] && forall v :: v in values ==> TypeName(v) == TypeName(values[0])
    ensures t.Some? ==> forall v :: v in values ==> TypeName(v) == t.value
  {
    var types := set v | v in values :: TypeName(v);
    SingleType(values);
    if |types| == 1 then Some(TypeName(values[0])) else None
  }

  /** A set of type names has one member exactly when every value shares
      the first one's type. */
  lemma SingleType(values: seq<Json>)
    ensures |set v | v in values :: TypeName(v)| == 1 <==>
            values != [] && forall v :: v in values ==> TypeName(v) == TypeName(values[0])
  {
    var types := set v | v in values :: TypeName(v);
    if values != [] && forall v :: v in values ==> TypeName(v) == TypeName(values[0]) {
      assert values[0] in values;
      assert types == {TypeName(values[0])};
    }
    if |types| == 1 {
      var t0 :| t0 in types;
      assert types == (types - {t0}) + {t0};
      assert |types - {t0}| == 0;
      assert types == {t0};
      assert values != [];
      assert values[0] in values && TypeName(values[0]) in types;
      forall v | v in values ensures TypeName(v) == TypeName(values[0]) {
        assert TypeName(v) in types;
      }
    }
  }

  /** The keys copied onto a merged enum, existing schema first. */
  const DescriptiveKeys: seq<string> := ["title", "description", "default", "type"]

  /** `if (!(key in merged) && key in record) merged[key] = record[key]` for
      the given keys in order. */
  function CopyKeys(merged: seq<Field>, source: Json, keys: seq<string>): seq<Field> {
    if keys == [] then merged
    else
      var m := CopyKeys(merged, source, keys[..|keys| - 1]);
      var k := keys[|keys| - 1];
      if !HasKey(m, k) && source.Obj? && HasKey(source.fields, k) then Put(m, k, Get(source, k)) else m
  }

  /** The merged schema when either side lists enum values. */
  function EnumMerged(existing: Json, incoming: Json, values: seq<Json>): Json {
    var m := CopyKeys(CopyKeys([], existing, DescriptiveKeys), incoming, DescriptiveKeys);
    var t := CommonType(values);
    var m' := if t.Some? then Put(m, "type", Str(t.value)) else m;
    Obj(Put(m', "enum", Arr(values)))
  }

  /** `Array.isArray(j) ? j : []`. */
  function ArrayItems(j: Json): seq<Json> {
    if j.Arr? then j.items else []
  }

  /** `(e.type as string) ?? (i.type as string) ?? "object"`. */
  function TypeOr(e: Json, i: Json): Json {
    if !Nullish(Get(e, "type")) then Get(e, "type")
    else if !Nullish(Get(i, "type")) then Get(i, "type")
    else Str("object")
  }

  /** `(i.properties) ?? {}`. */
  function IncomingProps(i: Json): Json {
    if Nullish(Get(i, "properties")) then Obj([]) else Get(i, "properties")
  }

  /** `mergePropertySchemas`. */
  function Merged(existing: Json, incoming: Json): Json
    decreases incoming, 3
  {
    if !Truthy(existing) then incoming
    else if !Truthy(incoming) then existing
    else
      var ee, ie := ExtractEnumValues(existing), ExtractEnumValues(incoming);
      if ee.Some? || ie.Some? then
        EnumMerged(existing, incoming, Dedupe(ee.GetOr([]) + ie.GetOr([])))
      else if existing.Obj? && incoming.Obj? then ObjectMerged(existing, incoming)
      else existing
  }

  /** Two object schemas merged: incoming fields override existing ones,
      properties are merged name by name, only the properties both require
      stay required, and the existing `type` is kept. */
  function ObjectMerged(existing: Json, incoming: Json): Json
    requires existing.Obj? && incoming.Obj?
    decreases incoming, 2
  {
    var props := MergedProperties(existing, incoming);
    var required := Filter(ArrayItems(Get(existing, "required")), r => r in ArrayItems(Get(incoming, "required")));
    Obj(Put(Put(Put(FromEntries(existing.fields + incoming.fields),
      "type", TypeOr(existing, incoming)),
      "properties", if |props| > 0 then Obj(props) else Undefined),
      "required", if |required| > 0 then Arr(required) else Undefined))
  }

  /** `mergedProperties` after the loop: a copy of the existing
      properties with every incoming property merged in. */
  function MergedProperties(existing: Json, incoming: Json): seq<Field>
    requires incoming.Obj?
    decreases incoming, 1
  {
    IncomingPropsSmaller(incoming);
    MergeProps(FromEntries(Entries(Get(existing, "properties"))), Entries(IncomingProps(incoming)), incoming)
  }

  lemma IncomingPropsSmaller(incoming: Json)
    requires incoming.Obj?
    ensures forall f :: f in Entries(IncomingProps(incoming)) ==> f.value < incoming
  {
    if IncomingProps(incoming) != Obj([]) { GetSmaller(incoming, "properties"); }
  }

  /** The loop over the incoming properties: each is merged into whatever
      the accumulated map holds under its name. */
  function MergeProps(acc: seq<Field>, entries: seq<Field>, bound: Json): seq<Field>
    requires forall f :: f in entries ==> f.value < bound
    decreases bound, 0, |entries|
  {
    if entries == [] then acc
    else
      var f := entries[0];
      assert f in entries;
      MergeProps(Put(acc, f.key, Merged(Get(Obj(acc), f.key), f.value)), entries[1..], bound)
  }

  /** `mergeSchemas` before `?? {}`: a left fold from the first schema. */
  function FoldMerge(schemas: seq<Json>): Json
    requires schemas != []
  {
    if |schemas| == 1 then schemas[0]
    else Merged(FoldMerge(schemas[..|schemas| - 1]), schemas[|schemas| - 1])
  }

  /** `mergeSchemas`. */
  function MergedAll(schemas: seq<Json>): Json {
    if schemas == [] then Obj([])
    else if Nullish(FoldMerge(schemas)) then Obj([])
    else FoldMerge(schemas)
  }

  // ---------------------------------------------------------------------
  // Merging never deepens a schema.
  // ---------------------------------------------------------------------

  lemma {:induction false} MergedDepth(existing: Json, incoming: Json, n: nat)
    requires Depth(existing) <= n && Depth(incoming) <= n
    ensures Depth(Merged(existing, incoming)) <= n
    decreases incoming, 3
  {
    if Truthy(existing) && Truthy(incoming) {
      var ee, ie := ExtractEnumValues(existing), ExtractEnumValues(incoming);
      if ee.Some? || ie.Some? {
        EnumMergedDepth(existing, incoming, Dedupe(ee.GetOr([]) + ie.GetOr([])));
      } else if existing.Obj? && incoming.Obj? {
        ObjectMergedDepth(existing, incoming, n);
      }
    }
  }

  /** Keys under which no schema is nested. */
  predicate FlatKey(k: string) {
    k != "properties" && !IsSchemaKey(k)
  }

  lemma PutDepth(fs: seq<Field>, k: string, v: Json, n: nat)
    requires FieldsDepth(fs) <= n && FieldDepth(Field(k, v)) <= n
    ensures FieldsDepth(Put(fs, k, v)) <= n
  {
    FieldsDepthAtMost(fs, n);
    PutMembers(fs, k, v);
    FieldsDepthAtMost(Put(fs, k, v), n);
  }

  lemma PutValuesDepth(fs: seq<Field>, k: string, v: Json, n: nat)
    requires ValuesDepth(fs) <= n && Depth(v) <= n
    ensures ValuesDepth(Put(fs, k, v)) <= n
  {
    ValuesDepthAtMost(fs, n);
    PutMembers(fs, k, v);
    ValuesDepthAtMost(Put(fs, k, v), n);
  }

  lemma {:induction false} CopyKeysDepth(merged: seq<Field>, source: Json, keys: seq<string>)
    requires FieldsDepth(merged) == 0 && forall k :: k in keys ==> FlatKey(k)
    ensures FieldsDepth(CopyKeys(merged, source, keys)) == 0
  {
    if keys != [] {
      var init := keys[..|keys| - 1];
      assert forall k :: k in init ==> k in keys;
      CopyKeysDepth(merged, source, init);
      var k := keys[|keys| - 1];
      assert k in keys;
      PutDepth(CopyKeys(merged, source, init), k, Get(source, k), 0);
    }
  }

  lemma DescriptiveKeysFlat()
    ensures forall k :: k in DescriptiveKeys ==> FlatKey(k)
  {
    assert DescriptiveKeys == ["title", "description", "default", "type"];
  }

  /** A merged enum holds no nested schema. */
  lemma EnumMergedDepth(existing: Json, incoming: Json, values: seq<Json>)
    ensures Depth(EnumMerged(existing, incoming, values)) == 1
  {
    DescriptiveKeysFlat();
    var m0 := CopyKeys([], existing, DescriptiveKeys);
    CopyKeysDepth([], existing, DescriptiveKeys);
    var m := CopyKeys(m0, incoming, DescriptiveKeys);
    CopyKeysDepth(m0, incoming, DescriptiveKeys);
    var t := CommonType(values);
    var m' := if t.Some? then Put(m, "type", Str(t.value)) else m;
    if t.Some? {
      PutDepth(m, "type", Str(t.value), 0);
    }
    assert FieldDepth(Field("enum", Arr(values))) == 0;
    PutDepth(m', "enum", Arr(values), 0);
  }

  lemma {:induction false} ObjectMergedDepth(existing: Json, incoming: Json, n: nat)
    requires existing.Obj? && incoming.Obj? && Depth(existing) <= n && Depth(incoming) <= n
    ensures Depth(ObjectMerged(existing, incoming)) <= n
    decreases incoming, 2
  {
    MergedPropertiesDepth(existing, incoming, n - 1);
    FieldsDepthAtMost(existing.fields, n - 1);
    FieldsDepthAtMost(incoming.fields, n - 1);
    var base := FromEntries(existing.fields + incoming.fields);
    FromEntriesMembers(existing.fields + incoming.fields);
    FieldsDepthAtMost(base, n - 1);
    var props := MergedProperties(existing, incoming);
    var required := Filter(ArrayItems(Get(existing, "required")), r => r in ArrayItems(Get(incoming, "required")));
    ThreePutsDepth(base, TypeOr(existing, incoming), if |props| > 0 then Obj(props) else Undefined,
      if |required| > 0 then Arr(required) else Undefined, n - 1);
  }

  lemma ThreePutsDepth(base: seq<Field>, t: Json, p: Json, q: Json, n: nat)
    requires FieldsDepth(base) <= n && PropsDepth(p) <= n
    ensures FieldsDepth(Put(Put(Put(base, "type", t), "properties", p), "required", q)) <= n
  {
    PutDepth(base, "type", t, n);
    PutDepth(Put(base, "type", t), "properties", p, n);
    PutDepth(Put(Put(base, "type", t), "properties", p), "required", q, n);
  }

  lemma {:induction false} MergedPropertiesDepth(existing: Json, incoming: Json, n: nat)
    requires existing.Obj? && incoming.Obj? && FieldsDepth(existing.fields) <= n && FieldsDepth(incoming.fields) <= n
    ensures ValuesDepth(MergedProperties(existing, incoming)) <= n
    decreases incoming, 1
  {
    var eProps := Get(existing, "properties");
    var iProps := IncomingProps(incoming);
    FieldsDepthAtMost(existing.fields, n);
    FieldsDepthAtMost(incoming.fields, n);
    assert PropsDepth(eProps) <= n by {
      if HasKey(existing.fields, "properties") { LookupIn(existing.fields, "properties"); assert Field("properties", eProps) in existing.fields; }
    }
    assert PropsDepth(iProps) <= n by {
      if iProps != Obj([]) { LookupIn(incoming.fields, "properties"); assert Field("properties", iProps) in incoming.fields; }
    }
    IncomingPropsSmaller(incoming);
    var acc := FromEntries(Entries(eProps));
    FromEntriesMembers(Entries(eProps));
    EntriesDepth(eProps);
    ValuesDepthAtMost(acc, n);
    EntriesDepth(iProps);
    MergePropsDepth(acc, Entries(iProps), incoming, n);
  }

  lemma {:induction false} MergePropsDepth(acc: seq<Field>, entries: seq<Field>, bound: Json, n: nat)
    requires forall f :: f in entries ==> f.value < bound
    requires ValuesDepth(acc) <= n
    requires forall f :: f in entries ==> Depth(f.value) <= n
    ensures ValuesDepth(MergeProps(acc, entries, bound)) <= n
    decreases bound, 0, |entries|
  {
    if entries != [] {
      var f := entries[0];
      assert f in entries;
      var x := Get(Obj(acc), f.key);
      ValuesDepthAtMost(acc, n);
      assert Depth(x) <= n by {
        if HasKey(acc, f.key) { LookupIn(acc, f.key); assert Field(f.key, x) in acc; }
      }
      MergedDepth(x, f.value, n);
      var acc' := Put(acc, f.key, Merged(x, f.value));
      PutValuesDepth(acc, f.key, Merged(x, f.value), n);
      assert forall g :: g in entries[1..] ==> g in entries;
      MergePropsDepth(acc', entries[1..], bound, n);
    }
  }

  /** `CopyKeys` adds fields under the given keys only. */
  lemma {:induction false} CopyKeysKeys(merged: seq<Field>, source: Json, keys: seq<string>)
    ensures forall f :: f in CopyKeys(merged, source, keys) ==> f in merged || f.key in keys
  {
    if keys != [] {
      var m := CopyKeys(merged, source, keys[..|keys| - 1]);
      var k := keys[|keys| - 1];
      CopyKeysKeys(merged, source, keys[..|keys| - 1]);
      PutMembers(m, k, Get(source, k));
      assert forall x :: x in keys[..|keys| - 1] ==> x in keys;
    }
  }

  /** `mergeSchemas` is no deeper than its deepest input, and an empty
      object is depth one. */
  lemma {:induction false} FoldMergeDepth(schemas: seq<Json>, n: nat)
    requires schemas != [] && ItemsDepth(schemas) <= n
    ensures Depth(FoldMerge(schemas)) <= n
  {
    ItemsDepthAtMost(schemas, n);
    assert schemas[|schemas| - 1] in schemas;
    if |schemas| > 1 {
      var init := schemas[..|schemas| - 1];
      ItemsDepthAtMost(init, n);
      assert forall x :: x in init ==> x in schemas;
      FoldMergeDepth(init, n);
      MergedDepth(FoldMerge(init), schemas[|schemas| - 1], n);
    }
  }

  // ---------------------------------------------------------------------
  // Cleaning.
  // ---------------------------------------------------------------------

  /** The variants of a union level, `anyOf` first, then `oneOf`, then `allOf`. */
  function UnionVariants(obj: Json): seq<Json> {
    ArrayItems(Get(obj, "anyOf")) + ArrayItems(Get(obj, "oneOf")) + ArrayItems(Get(obj, "allOf"))
  }

  /** Flattening a union leaves less to descend into. */
  lemma UnionShallower(obj: Json)
    requires obj.Obj? && UnionVariants(obj) != []
    ensures Depth(MergedAll(UnionVariants(obj))) < Depth(obj)
  {
    var n := Depth(obj) - 2;
    FieldsDepthAtMost(obj.fields, Depth(obj) - 1);
    forall k | k == "anyOf" || k == "oneOf" || k == "allOf"
      ensures forall x :: x in ArrayItems(Get(obj, k)) ==> Depth(x) <= n
    {
      if Get(obj, k).Arr? {
        LookupIn(obj.fields, k);
        assert Field(k, Get(obj, k)) in obj.fields;
        ItemsDepthAtMost(Get(obj, k).items, n);
      }
    }
    var vs := UnionVariants(obj);
    assert Depth(obj) >= 2 by {
      var k :| (k == "anyOf" || k == "oneOf" || k == "allOf") && ArrayItems(Get(obj, k)) != [];
      LookupIn(obj.fields, k);
      assert Field(k, Get(obj, k)) in obj.fields;
    }
    ItemsDepthAtMost(vs, n);
    FoldMergeDepth(vs, n);
  }

  lemma ItemsShallower(j: Json)
    requires j.Arr?
    ensures forall x :: x in j.items ==> Depth(x) < Depth(j)
  {
    ItemsDepthAtMost(j.items, Depth(j) - 1);
  }

  /** `cleanSchemaForGemini`. */
  function Cleaned(schema: Json): Json
    decreases Depth(schema), 2
  {
    if !IsObjectLike(schema) then schema
    else if schema.Arr? then
      ItemsShallower(schema);
      Arr(seq(|schema.items|, k requires 0 <= k < |schema.items| => Cleaned(schema.items[k])))
    else if UnionVariants(schema) != [] then
      UnionShallower(schema);
      Cleaned(MergedAll(UnionVariants(schema)))
    else CleanFields([], schema.fields)
  }

  /** The loop over an object level's entries, adding each rewritten entry
      to `cleaned`. */
  function CleanFields(cleaned: seq<Field>, fs: seq<Field>): (r: Json)
    ensures r.Obj?
    decreases FieldsDepth(fs) + 1, 1, |fs|
  {
    if fs == [] then Obj(cleaned)
    else
      assert FieldDepth(fs[0]) <= FieldsDepth(fs);
      CleanFields(CleanStep(cleaned, fs[0]), fs[1..])
  }

  /** One entry of an object level: `patternProperties` is skipped, `const`
      is stored as `enum`, nested schemas are cleaned, and anything else is
      copied. */
  function CleanStep(cleaned: seq<Field>, f: Field): seq<Field>
    decreases FieldDepth(f) + 1, 0
  {
    if f.key == "patternProperties" then cleaned
    else if f.key == "const" then Put(cleaned, "enum", Arr([f.value]))
    else if f.key == "properties" && IsObjectLike(f.value) then
      var es := Entries(f.value);
      EntriesDepth(f.value);
      Put(cleaned, "properties", Obj(FromEntries(seq(|es|, k requires 0 <= k < |es| => Field(es[k].key, Cleaned(es[k].value))))))
    else if (f.key == "items" || f.key == "additionalProperties") && IsObjectLike(f.value) then
      Put(cleaned, f.key, Cleaned(f.value))
    else Put(cleaned, f.key, f.value)
  }

  // ---------------------------------------------------------------------
  // What merging means.
  // ---------------------------------------------------------------------

  /** Copying keys in order keeps the first value found: what `merged`
      already had, else the source's. */
  lemma {:induction false} CopyKeysLookup(m: seq<Field>, source: Json, keys: seq<string>, k: string)
    ensures Lookup(CopyKeys(m, source, keys), k) ==
            if !HasKey(m, k) && k in keys && source.Obj? && HasKey(source.fields, k) then Lookup(source.fields, k)
            else Lookup(m, k)
  {
    if keys != [] {
      var init := keys[..|keys| - 1];
      assert keys == init + [keys[|keys| - 1]];
      CopyKeysLookup(m, source, init, k);
    }
  }

  /** The `title`, `description`, `default` or `type` a merged enum takes
      over: the existing schema's, else the incoming one's. */
  function Described(existing: Json, incoming: Json, k: string): Option<Json> {
    if existing.Obj? && HasKey(existing.fields, k) then Lookup(existing.fields, k)
    else if incoming.Obj? && HasKey(incoming.fields, k) then Lookup(incoming.fields, k)
    else None
  }

  lemma DescribedLookup(existing: Json, incoming: Json, k: string)
    requires k in DescriptiveKeys
    ensures Lookup(CopyKeys(CopyKeys([], existing, DescriptiveKeys), incoming, DescriptiveKeys), k) ==
            Described(existing, incoming, k)
  {
    CopyKeysLookup([], existing, DescriptiveKeys, k);
    CopyKeysLookup(CopyKeys([], existing, DescriptiveKeys), incoming, DescriptiveKeys, k);
  }

  /** The merge of two schemas of which one lists enum values. */
  lemma MergedIsEnum(existing: Json, incoming: Json)
    requires Truthy(existing) && Truthy(incoming)
    requires ExtractEnumValues(existing).Some? || ExtractEnumValues(incoming).Some?
    ensures Merged(existing, incoming) ==
            EnumMerged(existing, incoming, Dedupe(ExtractEnumValues(existing).GetOr([]) + ExtractEnumValues(incoming).GetOr([])))
  {
  }

  /** When either side lists enum values, the merge allows each value of
      either list once and keeps only the descriptive keys and `enum`. */
  lemma EnumMergeFacts(existing: Json, incoming: Json)
    requires Truthy(existing) && Truthy(incoming)
    requires ExtractEnumValues(existing).Some? || ExtractEnumValues(incoming).Some?
    ensures
      var values := Dedupe(ExtractEnumValues(existing).GetOr([]) + ExtractEnumValues(incoming).GetOr([]));
      var r := Merged(existing, incoming);
      && r.Obj?
      && Lookup(r.fields, "enum") == Some(Arr(values))
      && (forall x :: x in values <==> x in ExtractEnumValues(existing).GetOr([]) || x in ExtractEnumValues(incoming).GetOr([]))
      && (forall f :: f in r.fields ==> f.key in DescriptiveKeys || f.key == "enum")
  {
    var values := Dedupe(ExtractEnumValues(existing).GetOr([]) + ExtractEnumValues(incoming).GetOr([]));
    MergedIsEnum(existing, incoming);
    EnumMergedKeys(existing, incoming, values);
  }

  lemma EnumMergedKeys(existing: Json, incoming: Json, values: seq<Json>)
    ensures EnumMerged(existing, incoming, values).Obj?
    ensures Lookup(EnumMerged(existing, incoming, values).fields, "enum") == Some(Arr(values))
    ensures forall f :: f in EnumMerged(existing, incoming, values).fields ==> f.key in DescriptiveKeys || f.key == "enum"
  {
    var m0 := CopyKeys([], existing, DescriptiveKeys);
    var m := CopyKeys(m0, incoming, DescriptiveKeys);
    CopyKeysKeys([], existing, DescriptiveKeys);
    CopyKeysKeys(m0, incoming, DescriptiveKeys);
    var t := CommonType(values);
    var m' := if t.Some? then Put(m, "type", Str(t.value)) else m;
    PutMembers(m, "type", Str(if t.Some? then t.value else ""));
    PutMembers(m', "enum", Arr(values));
  }

  /** The merged enum's `title`, `description` and `default` come from the
      existing schema, else the incoming one; so does its `type` unless all
      values share one type, which then becomes the `type`. */
  lemma EnumMergeDescribed(existing: Json, incoming: Json)
    requires Truthy(existing) && Truthy(incoming)
    requires ExtractEnumValues(existing).Some? || ExtractEnumValues(incoming).Some?
    ensures
      var values := Dedupe(ExtractEnumValues(existing).GetOr([]) + ExtractEnumValues(incoming).GetOr([]));
      && Merged(existing, incoming) == EnumMerged(existing, incoming, values)
      && forall k :: k in DescriptiveKeys ==> EnumLookup(existing, incoming, values, k)
  {
    var values := Dedupe(ExtractEnumValues(existing).GetOr([]) + ExtractEnumValues(incoming).GetOr([]));
    MergedIsEnum(existing, incoming);
    forall k | k in DescriptiveKeys
      ensures EnumLookup(existing, incoming, values, k)
    {
      EnumMergedDescribed(existing, incoming, values, k);
    }
  }

  /** What a merged enum holds under one descriptive key. */
  predicate EnumLookup(existing: Json, incoming: Json, values: seq<Json>, k: string) {
    var r := EnumMerged(existing, incoming, values);
    && r.Obj?
    && (k == "type" && CommonType(values).Some? ==> Lookup(r.fields, k) == Some(Str(CommonType(values).value)))
    && (k != "type" || CommonType(values).None? ==> Lookup(r.fields, k) == Described(existing, incoming, k))
  }

  lemma EnumMergedDescribed(existing: Json, incoming: Json, values: seq<Json>, k: string)
    requires k in DescriptiveKeys
    ensures EnumLookup(existing, incoming, values, k)
  {
    DescribedLookup(existing, incoming, k);
    DescriptiveKeysFlat();
  }

  /** The incoming properties are merged one name at a time into the
      accumulated map: a name the incoming map has gets the merge of what
      the map held and the incoming schema, any other keeps its value. */
  lemma {:induction false} MergePropsLookup(acc: seq<Field>, entries: seq<Field>, bound: Json, k: string)
    requires forall f :: f in entries ==> f.value < bound
    requires UniqueKeys(entries)
    ensures Lookup(MergeProps(acc, entries, bound), k) ==
            if HasKey(entries, k) then Some(Merged(Get(Obj(acc), k), Get(Obj(entries), k)))
            else Lookup(acc, k)
    decreases |entries|
  {
    if entries != [] {
      var f := entries[0];
      assert f in entries;
      var acc' := Put(acc, f.key, Merged(Get(Obj(acc), f.key), f.value));
      UniqueKeysTail(entries);
      assert forall g :: g in entries[1..] ==> g in entries;
      MergePropsLookup(acc', entries[1..], bound, k);
      if k == f.key {
        AbsentKey(entries[1..], k);
      }
    }
  }

  /** Two object schemas without enum values give an object whose `type` is
      the existing one when that is set, then the incoming one, then
      `"object"`. */
  lemma ObjectMergeType(existing: Json, incoming: Json)
    requires existing.Obj? && incoming.Obj?
    requires ExtractEnumValues(existing).None? && ExtractEnumValues(incoming).None?
    ensures
      var r := Merged(existing, incoming);
      && r.Obj?
      && Lookup(r.fields, "type") == Some(TypeOr(existing, incoming))
      && (!Nullish(Get(existing, "type")) ==> Get(r, "type") == Get(existing, "type"))
  {
  }

  /** `properties` and `required` are always present, `required` is
      `undefined` when empty, and only the names both schemas require stay
      required, in the existing order. */
  lemma ObjectMergeRequired(existing: Json, incoming: Json)
    requires existing.Obj? && incoming.Obj?
    requires ExtractEnumValues(existing).None? && ExtractEnumValues(incoming).None?
    ensures
      var r := Merged(existing, incoming);
      var required := Get(r, "required");
      && r.Obj?
      && HasKey(r.fields, "properties") && HasKey(r.fields, "required")
      && (required.Undefined? || (required.Arr? && required.items != []))
      && (forall x :: x in ArrayItems(required) <==>
            x in ArrayItems(Get(existing, "required")) && x in ArrayItems(Get(incoming, "required")))
      && IsSubsequence(ArrayItems(required), ArrayItems(Get(existing, "required")))
  {
  }

  /** Every other field is the incoming one when the incoming schema has it
      and the existing one otherwise. */
  lemma ObjectMergeOverrides(existing: Json, incoming: Json)
    requires existing.Obj? && incoming.Obj?
    requires ExtractEnumValues(existing).None? && ExtractEnumValues(incoming).None?
    requires UniqueKeys(incoming.fields)
    ensures
      var r := Merged(existing, incoming);
      && r.Obj?
      && (forall k :: k != "type" && k != "properties" && k != "required" ==>
            Lookup(r.fields, k) == if HasKey(incoming.fields, k) then Lookup(incoming.fields, k)
                                   else Lookup(FromEntries(existing.fields), k))
  {
    forall k | k != "type" && k != "properties" && k != "required"
      ensures Lookup(Obj(Put(Put(Put(FromEntries(existing.fields + incoming.fields),
                "type", TypeOr(existing, incoming)), "properties", Get(ObjectMerged(existing, incoming), "properties")),
                "required", Get(ObjectMerged(existing, incoming), "required"))).fields, k) ==
              if HasKey(incoming.fields, k) then Lookup(incoming.fields, k) else Lookup(FromEntries(existing.fields), k)
    {
      FromEntriesOverride(existing.fields, incoming.fields, k);
    }
  }

  /** `properties` name by name, for property maps whose names are
      distinct. */
  lemma MergedPropertiesByName(existing: Json, incoming: Json, k: string)
    requires incoming.Obj?
    requires UniqueKeys(Entries(Get(existing, "properties"))) && UniqueKeys(Entries(IncomingProps(incoming)))
    ensures
      var eProps, iProps := Entries(Get(existing, "properties")), Entries(IncomingProps(incoming));
      Lookup(MergedProperties(existing, incoming), k) ==
        if HasKey(iProps, k) then Some(Merged(Get(Obj(eProps), k), Get(Obj(iProps), k)))
        else Lookup(eProps, k)
  {
    IncomingPropsSmaller(incoming);
    FromEntriesUnique(Entries(Get(existing, "properties")));
    MergePropsLookup(FromEntries(Entries(Get(existing, "properties"))), Entries(IncomingProps(incoming)), incoming, k);
  }

  // ---------------------------------------------------------------------
  // What cleaning means.
  // ---------------------------------------------------------------------

  /** A schema in the subset Gemini accepts: at every level reached through
      arrays, `properties`, `items` and `additionalProperties`, no
      `patternProperties` and no `const`. */
  predicate Ready(j: Json)
    decreases j
  {
    match j
    case Arr(items) => forall x | x in items :: Ready(x)
    case Obj(fs) => forall f | f in fs :: FieldReady(f)
    case _ => true
  }

  predicate FieldReady(f: Field)
    decreases f
  {
    && f.key != "patternProperties"
    && f.key != "const"
    && (f.key == "properties" && IsObjectLike(f.value) ==> forall e | e in Entries(f.value) :: Ready(e.value))
    && ((f.key == "items" || f.key == "additionalProperties") && IsObjectLike(f.value) ==> Ready(f.value))
  }

  /** Whatever the input, the rewritten schema is in the subset. */
  lemma {:induction false} CleanedReady(schema: Json)
    ensures Ready(Cleaned(schema))
    decreases Depth(schema), 2
  {
    if !IsObjectLike(schema) {
    } else if schema.Arr? {
      ItemsShallower(schema);
      var r := Cleaned(schema);
      forall x | x in r.items ensures Ready(x) {
        var k :| 0 <= k < |r.items| && r.items[k] == x;
        assert schema.items[k] in schema.items;
        CleanedReady(schema.items[k]);
      }
    } else if UnionVariants(schema) != [] {
      UnionShallower(schema);
      CleanedReady(MergedAll(UnionVariants(schema)));
    } else {
      CleanFieldsReady([], schema.fields);
    }
  }

  lemma {:induction false} CleanFieldsReady(cleaned: seq<Field>, fs: seq<Field>)
    requires forall f :: f in cleaned ==> FieldReady(f)
    ensures Ready(CleanFields(cleaned, fs))
    decreases FieldsDepth(fs) + 1, 1, |fs|
  {
    if fs != [] {
      var f := fs[0];
      var next: seq<Field>;
      if f.key == "patternProperties" {
        next := cleaned;
      } else if f.key == "const" {
        next := Put(cleaned, "enum", Arr([f.value]));
        PutMembers(cleaned, "enum", Arr([f.value]));
      } else if f.key == "properties" && IsObjectLike(f.value) {
        var es := Entries(f.value);
        EntriesDepth(f.value);
        assert PropsDepth(f.value) == FieldDepth(f) <= FieldsDepth(fs);
        var props := seq(|es|, k requires 0 <= k < |es| => Field(es[k].key, Cleaned(es[k].value)));
        forall e | e in props ensures Ready(e.value) {
          var k :| 0 <= k < |props| && props[k] == e;
          assert es[k] in es;
          CleanedReady(es[k].value);
        }
        FromEntriesMembers(props);
        next := Put(cleaned, "properties", Obj(FromEntries(props)));
        PutMembers(cleaned, "properties", Obj(FromEntries(props)));
      } else if (f.key == "items" || f.key == "additionalProperties") && IsObjectLike(f.value) {
        assert Depth(f.value) == FieldDepth(f) <= FieldsDepth(fs);
        CleanedReady(f.value);
        next := Put(cleaned, f.key, Cleaned(f.value));
        PutMembers(cleaned, f.key, Cleaned(f.value));
      } else {
        next := Put(cleaned, f.key, f.value);
        PutMembers(cleaned, f.key, f.value);
      }
      assert CleanFields(cleaned, fs) == CleanFields(next, fs[1..]);
      CleanFieldsReady(next, fs[1..]);
    }
  }

  /** Keys an object level passes through unchanged. */
  predicate CopiedKey(k: string) {
    k != "patternProperties" && k != "const" && k != "enum" && k != "properties" && k != "items" && k != "additionalProperties"
  }

  lemma {:induction false} CleanFieldsLookup(cleaned: seq<Field>, fs: seq<Field>, k: string)
    requires UniqueKeys(fs) && CopiedKey(k)
    ensures CleanFields(cleaned, fs).Obj?
    ensures Lookup(CleanFields(cleaned, fs).fields, k) == if HasKey(fs, k) then Lookup(fs, k) else Lookup(cleaned, k)
    decreases |fs|
  {
    if fs != [] {
      var f := fs[0];
      UniqueKeysTail(fs);
      var next := CleanStep(cleaned, f);
      assert CleanFields(cleaned, fs) == CleanFields(next, fs[1..]);
      CleanFieldsLookup(next, fs[1..], k);
      if k == f.key {
        AbsentKey(fs[1..], k);
      }
    }
  }

  lemma {:induction false} CleanFieldsEnum(cleaned: seq<Field>, fs: seq<Field>)
    requires UniqueKeys(fs) && !HasKey(fs, "enum")
    ensures CleanFields(cleaned, fs).Obj?
    ensures Lookup(CleanFields(cleaned, fs).fields, "enum") ==
            if HasKey(fs, "const") then Some(Arr([Lookup(fs, "const").value])) else Lookup(cleaned, "enum")
    decreases |fs|
  {
    if fs != [] {
      var f := fs[0];
      UniqueKeysTail(fs);
      var next := CleanStep(cleaned, f);
      assert CleanFields(cleaned, fs) == CleanFields(next, fs[1..]);
      CleanFieldsEnum(next, fs[1..]);
      if f.key == "const" {
        AbsentKey(fs[1..], "const");
      }
    }
  }

  /** One object level without a union: `patternProperties` and `const`
      are gone, a `const` becomes a one-value `enum`, and every other key
      outside `properties`, `items` and `additionalProperties` keeps its
      value. */
  lemma CleanedLevel(obj: Json)
    requires obj.Obj? && UnionVariants(obj) == [] && UniqueKeys(obj.fields)
    ensures
      var r := Cleaned(obj);
      && r.Obj?
      && !HasKey(r.fields, "patternProperties") && !HasKey(r.fields, "const")
      && (forall k :: CopiedKey(k) ==> Lookup(r.fields, k) == Lookup(obj.fields, k))
      && (HasKey(obj.fields, "const") && !HasKey(obj.fields, "enum") ==>
            Lookup(r.fields, "enum") == Some(Arr([Get(obj, "const")])))
  {
    var r := Cleaned(obj);
    CleanedReady(obj);
    forall k | CopiedKey(k) ensures Lookup(r.fields, k) == Lookup(obj.fields, k) {
      CleanFieldsLookup([], obj.fields, k);
    }
    if HasKey(obj.fields, "const") && !HasKey(obj.fields, "enum") {
      CleanFieldsEnum([], obj.fields);
    }
    AbsentKey(r.fields, "patternProperties");
    AbsentKey(r.fields, "const");
  }

  // ---------------------------------------------------------------------
  // The loops as the code runs them.
  // ---------------------------------------------------------------------

  /** One pass of the outer `for (const source of [existing, incoming])`
      loop, whose inner loop runs over `keys`, the descriptive keys. */
  method CopyDescriptive(merged: seq<Field>, source: Json, keys: seq<string>) returns (m: seq<Field>)
    ensures m == CopyKeys(merged, source, keys)
  {
    m := merged;
    if !IsObjectLike(source) {
      CopyKeysFromNonObject(merged, source, keys);
      return;
    }
    for i := 0 to |keys|
      invariant m == CopyKeys(merged, source, keys[..i])
    {
      var key := keys[i];
      if !HasKey(m, key) && source.Obj? && HasKey(source.fields, key) {
        m := Put(m, key, Get(source, key));
      }
      assert keys[..i + 1][..i] == keys[..i];
    }
    assert keys[..|keys|] == keys;
  }

  /** A source that is not an object contributes nothing. */
  lemma {:induction false} CopyKeysFromNonObject(merged: seq<Field>, source: Json, keys: seq<string>)
    requires !source.Obj?
    ensures CopyKeys(merged, source, keys) == merged
  {
    if keys != [] {
      CopyKeysFromNonObject(merged, source, keys[..|keys| - 1]);
    }
  }

  /** `mergePropertySchemas`. */
  method MergePropertySchemas(existing: Json, incoming: Json) returns (r: Json)
    ensures r == Merged(existing, incoming)
    decreases incoming, 3
  {
    if !Truthy(existing) {
      return incoming;
    }
    if !Truthy(incoming) {
      return existing;
    }
    var existingEnum := ExtractEnumValues(existing);
    var incomingEnum := ExtractEnumValues(incoming);
    if existingEnum.Some? || incomingEnum.Some? {
      var values := Dedupe(existingEnum.GetOr([]) + incomingEnum.GetOr([]));
      var merged := CopyDescriptive([], existing, DescriptiveKeys);
      merged := CopyDescriptive(merged, incoming, DescriptiveKeys);
      var t := CommonType(values);
      if t.Some? {
        merged := Put(merged, "type", Str(t.value));
      }
      merged := Put(merged, "enum", Arr(values));
      return Obj(merged);
    }
    if existing.Obj? && incoming.Obj? {
      var mergedProperties := MergePropertiesLoop(existing, incoming);
      var required := Filter(ArrayItems(Get(existing, "required")), r => r in ArrayItems(Get(incoming, "required")));
      var fields := FromEntries(existing.fields + incoming.fields);
      fields := Put(fields, "type", TypeOr(existing, incoming));
      fields := Put(fields, "properties", if |mergedProperties| > 0 then Obj(mergedProperties) else Undefined);
      fields := Put(fields, "required", if |required| > 0 then Arr(required) else Undefined);
      return Obj(fields);
    }
    return existing;
  }

  /** The `for (const [key, value] of Object.entries(iProps))` loop. */
  method MergePropertiesLoop(existing: Json, incoming: Json) returns (mergedProperties: seq<Field>)
    requires incoming.Obj?
    ensures mergedProperties == MergedProperties(existing, incoming)
    decreases incoming, 2
  {
    mergedProperties := FromEntries(Entries(Get(existing, "properties")));
    IncomingPropsSmaller(incoming);
    var entries := Entries(IncomingProps(incoming));
    assert entries[0..] == entries;
    for k := 0 to |entries|
      invariant forall f :: f in entries[k..] ==> f in entries
      invariant MergeProps(mergedProperties, entries[k..], incoming) == MergedProperties(existing, incoming)
    {
      var key := entries[k].key;
      assert entries[k] in entries;
      var merged := MergePropertySchemas(Get(Obj(mergedProperties), key), entries[k].value);
      mergedProperties := Put(mergedProperties, key, merged);
      assert entries[k..][1..] == entries[k + 1..];
    }
  }

  /** `mergeSchemas`. */
  method MergeSchemas(schemas: seq<Json>) returns (r: Json)
    ensures r == MergedAll(schemas)
  {
    if |schemas| == 0 {
      return Obj([]);
    }
    var merged := schemas[0];
    assert schemas[..1] == [schemas[0]];
    for i := 1 to |schemas|
      invariant merged == FoldMerge(schemas[..i])
    {
      merged := MergePropertySchemas(merged, schemas[i]);
      assert schemas[..i + 1][..i] == schemas[..i];
    }
    assert schemas[..|schemas|] == schemas;
    r := if Nullish(merged) then Obj([]) else merged;
  }

  /** `cleanSchemaForGemini`. */
  method CleanSchemaForGemini(schema: Json) returns (r: Json)
    ensures r == Cleaned(schema)
    decreases Depth(schema), 2
  {
    if !IsObjectLike(schema) {
      return schema;
    }
    if schema.Arr? {
      ItemsShallower(schema);
      var items: seq<Json> := [];
      for k := 0 to |schema.items|
        invariant |items| == k
        invariant forall m :: 0 <= m < k ==> items[m] == Cleaned(schema.items[m])
      {
        assert schema.items[k] in schema.items;
        var c := CleanSchemaForGemini(schema.items[k]);
        items := items + [c];
      }
      assert items == seq(|schema.items|, k requires 0 <= k < |schema.items| => Cleaned(schema.items[k]));
      return Arr(items);
    }
    var variants := UnionVariants(schema);
    if |variants| > 0 {
      UnionShallower(schema);
      var merged := MergeSchemas(variants);
      r := CleanSchemaForGemini(merged);
      return;
    }
    var cleaned: seq<Field> := [];
    var fs := schema.fields;
    FieldsDepthAtMost(fs, Depth(schema) - 1);
    assert fs[0..] == fs;
    for k := 0 to |fs|
      invariant CleanFields(cleaned, fs[k..]) == Cleaned(schema)
    {
      assert fs[k] in fs;
      assert fs[k..][0] == fs[k] && fs[k..][1..] == fs[k + 1..];
      cleaned := CleanEntry(cleaned, fs[k]);
    }
    assert fs[|fs|..] == [];
    r := Obj(cleaned);
  }

  /** One pass of the loop over an object level's entries. */
  method CleanEntry(cleaned: seq<Field>, f: Field) returns (c: seq<Field>)
    ensures c == CleanStep(cleaned, f)
    decreases FieldDepth(f) + 1, 0
  {
    var key, value := f.key, f.value;
    if key == "patternProperties" {
      return cleaned;
    }
    if key == "const" {
      return Put(cleaned, "enum", Arr([value]));
    }
    if key == "properties" && IsObjectLike(value) {
      var es := Entries(value);
      EntriesDepth(value);
      var props: seq<Field> := [];
      for m := 0 to |es|
        invariant |props| == m
        invariant forall n :: 0 <= n < m ==> props[n] == Field(es[n].key, Cleaned(es[n].value))
      {
        assert es[m] in es;
        var v := CleanSchemaForGemini(es[m].value);
        props := props + [Field(es[m].key, v)];
      }
      assert props == seq(|es|, k requires 0 <= k < |es| => Field(es[k].key, Cleaned(es[k].value)));
      return Put(cleaned, key, Obj(FromEntries(props)));
    }
    if (key == "items" || key == "additionalProperties") && IsObjectLike(value) {
      var v := CleanSchemaForGemini(value);
      return Put(cleaned, key, v);
    }
    return Put(cleaned, key, value);
  }
}
