/** JavaScript values as the TypeScript code sees them: configuration records,
    JSON Schemas, tool-call arguments.  Objects keep their fields in insertion
    order, as JavaScript objects do for string keys, and assigning to a key
    that is already present keeps its position.  `Undefined` is the value
    `undefined` stored under a key that is present; an absent key is simply
    not in the field list.  Numbers are integers. */
module JsonValue {
  import opened Wrappers
  import opened Strings

  datatype Json =
    | Undefined
    | Null
    | Bool(b: bool)
    | Num(n: int)
    | Str(s: string)
    | Arr(items: seq<Json>)
    | Obj(fields: seq<Field>)

  datatype Field = Field(key: string, value: Json)

  /** JavaScript truthiness: `undefined`, `null`, `false`, `0` and `""` are falsy. */
  predicate Truthy(j: Json) {
    match j
    case Undefined => false
    case Null => false
    case Bool(b) => b
    case Num(n) => n != 0
    case Str(s) => s != ""
    case _ => true
  }

  /** The values on which `??` falls through to its right operand. */
  predicate Nullish(j: Json) {
    j.Undefined? || j.Null?
  }

  /** `typeof j`. */
  function TypeOf(j: Json): string {
    match j
    case Undefined => "undefined"
    case Bool(_) => "boolean"
    case Num(_) => "number"
    case Str(_) => "string"
    case _ => "object"
  }

  /** `j && typeof j === "object"`: an array or an object. */
  predicate IsObjectLike(j: Json)
    ensures IsObjectLike(j) <==> j.Arr? || j.Obj?
  {
    Truthy(j) && TypeOf(j) == "object"
  }

  /** The value of the first field named `k`. */
  function Lookup(fs: seq<Field>, k: string): Option<Json>
  {
    if fs == [] then None
    else if fs[0].key == k then Some(fs[0].value)
    else Lookup(fs[1..], k)
  }

  /** A value found is a field of the record; a key not found names no field. */
  lemma {:induction false} LookupIn(fs: seq<Field>, k: string)
    ensures Lookup(fs, k).Some? ==> Field(k, Lookup(fs, k).value) in fs
    ensures Lookup(fs, k).None? ==> forall f :: f in fs ==> f.key != k
  {
    if fs != [] && fs[0].key != k {
      LookupIn(fs[1..], k);
      assert forall f :: f in fs ==> f == fs[0] || f in fs[1..];
    }
  }

  predicate HasKey(fs: seq<Field>, k: string) {
    Lookup(fs, k).Some?
  }

  /** `o[k] = v`: the first field named `k` gets the new value in place, or a
      new field is appended when there is none. */
  function Put(fs: seq<Field>, k: string, v: Json): (r: seq<Field>)
    ensures Lookup(r, k) == Some(v)
    ensures forall k' :: k' != k ==> Lookup(r, k') == Lookup(fs, k')
    ensures HasKey(fs, k) ==> |r| == |fs|
    ensures !HasKey(fs, k) ==> r == fs + [Field(k, v)]
  {
    if fs == [] then [Field(k, v)]
    else if fs[0].key == k then
      var r := [Field(k, v)] + fs[1..];
      assert r[1..] == fs[1..];
      r
    else
      var rest := Put(fs[1..], k, v);
      var r := [fs[0]] + rest;
      assert r[1..] == rest;
      assert !HasKey(fs, k) ==> r == fs + [Field(k, v)] by {
        if !HasKey(fs, k) { assert fs == [fs[0]] + fs[1..]; }
      }
      r
  }

  /** `delete o[k]`. */
  function Remove(fs: seq<Field>, k: string): (r: seq<Field>)
    ensures Lookup(r, k) == None
    ensures forall k' :: k' != k ==> Lookup(r, k') == Lookup(fs, k')
    ensures |r| <= |fs|
    ensures !HasKey(fs, k) ==> r == fs
  {
    if fs == [] then []
    else if fs[0].key == k then Remove(fs[1..], k)
    else
      var rest := Remove(fs[1..], k);
      var r := [fs[0]] + rest;
      assert r[1..] == rest;
      assert !HasKey(fs, k) ==> r == fs by {
        if !HasKey(fs, k) { assert fs == [fs[0]] + fs[1..]; }
      }
      r
  }

  /** `j[k]` for a string key that is not an array index: a missing key, and
      any key of a non-object, reads as `undefined`. */
  function Get(j: Json, k: string): (r: Json)
    ensures !j.Obj? ==> r == Undefined
    ensures j.Obj? && !HasKey(j.fields, k) ==> r == Undefined
    ensures j.Obj? && HasKey(j.fields, k) ==> r == Lookup(j.fields, k).value
  {
    if j.Obj? then Lookup(j.fields, k).GetOr(Undefined) else Undefined
  }

  /** `Object.entries(j)`, which is also what the spread `{...j}` copies: an
      object's own fields, an array's elements under their decimal indices,
      nothing for any other value. */
  function Entries(j: Json): (fs: seq<Field>)
    ensures j.Obj? ==> fs == j.fields
    ensures j.Arr? ==> |fs| == |j.items| && forall i :: 0 <= i < |fs| ==> fs[i].value == j.items[i]
    ensures !j.Obj? && !j.Arr? ==> fs == []
    ensures forall i :: 0 <= i < |fs| ==> fs[i].value < j
    ensures forall f :: f in fs ==> f.value < j
  {
    match j
    case Obj(fields) =>
      assert forall i :: 0 <= i < |fields| ==> fields[i].value < fields[i];
      fields
    case Arr(items) => seq(|items|, i requires 0 <= i < |items| => Field(NatToString(i), items[i]))
    case _ => []
  }

  /** `Object.fromEntries(fs)`: later duplicates overwrite earlier ones. */
  function FromEntries(fs: seq<Field>): seq<Field> {
    if fs == [] then [] else Put(FromEntries(fs[..|fs| - 1]), fs[|fs| - 1].key, fs[|fs| - 1].value)
  }

  /** Every key occurs at most once. */
  predicate UniqueKeys(fs: seq<Field>) {
    forall i, j :: 0 <= i < j < |fs| ==> fs[i].key != fs[j].key
  }

  /** Over fields with distinct keys, `Object.fromEntries` gives the list back. */
  lemma {:induction false} FromEntriesUnique(fs: seq<Field>)
    requires UniqueKeys(fs)
    ensures FromEntries(fs) == fs
  {
    if fs != [] {
      var init := fs[..|fs| - 1];
      var last := fs[|fs| - 1];
      UniqueKeysInit(fs);
      FromEntriesUnique(init);
      AbsentKey(init, last.key);
      assert init + [last] == fs;
    }
  }

  lemma UniqueKeysInit(fs: seq<Field>)
    requires fs != [] && UniqueKeys(fs)
    ensures UniqueKeys(fs[..|fs| - 1])
    ensures forall f :: f in fs[..|fs| - 1] ==> f.key != fs[|fs| - 1].key
  {
  }

  lemma UniqueKeysTail(fs: seq<Field>)
    requires fs != [] && UniqueKeys(fs)
    ensures UniqueKeys(fs[1..])
    ensures forall f :: f in fs[1..] ==> f.key != fs[0].key
  {
    forall f | f in fs[1..] ensures f.key != fs[0].key {
      var i :| 0 <= i < |fs[1..]| && fs[1..][i] == f;
      assert fs[i + 1] == f;
    }
  }

  lemma {:induction false} AbsentKey(fs: seq<Field>, k: string)
    requires forall f :: f in fs ==> f.key != k
    ensures !HasKey(fs, k)
  {
    if fs != [] {
      assert forall f :: f in fs[1..] ==> f in fs;
      AbsentKey(fs[1..], k);
    }
  }

  /** The first `k` of a concatenation is in the left part if it is there at all. */
  lemma {:induction false} LookupAppend(a: seq<Field>, b: seq<Field>, k: string)
    ensures Lookup(a + b, k) == if HasKey(a, k) then Lookup(a, k) else Lookup(b, k)
  {
    if a == [] {
      assert a + b == b;
    } else {
      assert (a + b)[0] == a[0] && (a + b)[1..] == a[1..] + b;
      LookupAppend(a[1..], b, k);
    }
  }

  /** Spreading `a` and then `b`, whose keys are distinct: a key of `b`
      takes `b`'s value, any other keeps the value spreading `a` gave it. */
  lemma {:induction false} FromEntriesOverride(a: seq<Field>, b: seq<Field>, k: string)
    requires UniqueKeys(b)
    ensures Lookup(FromEntries(a + b), k) == if HasKey(b, k) then Lookup(b, k) else Lookup(FromEntries(a), k)
  {
    if b != [] {
      var init := b[..|b| - 1];
      var last := b[|b| - 1];
      assert (a + b)[..|a + b| - 1] == a + init;
      assert b == init + [last];
      UniqueKeysInit(b);
      FromEntriesOverride(a, init, k);
      LookupAppend(init, [last], k);
      if k == last.key {
        AbsentKey(init, k);
      }
    } else {
      assert a + b == a;
    }
  }

  /** `o[k] = v` introduces no field other than `k: v`. */
  lemma {:induction false} PutMembers(fs: seq<Field>, k: string, v: Json)
    ensures forall f :: f in Put(fs, k, v) ==> f in fs || f == Field(k, v)
  {
    if fs != [] && fs[0].key != k {
      PutMembers(fs[1..], k, v);
      assert Put(fs, k, v) == [fs[0]] + Put(fs[1..], k, v);
    } else if fs != [] {
      assert Put(fs, k, v) == [Field(k, v)] + fs[1..];
    }
  }

  /** `Object.fromEntries` keeps only fields it was given. */
  lemma {:induction false} FromEntriesMembers(fs: seq<Field>)
    ensures forall f :: f in FromEntries(fs) ==> f in fs
  {
    if fs != [] {
      FromEntriesMembers(fs[..|fs| - 1]);
      PutMembers(FromEntries(fs[..|fs| - 1]), fs[|fs| - 1].key, fs[|fs| - 1].value);
      assert fs == fs[..|fs| - 1] + [fs[|fs| - 1]];
    }
  }

  /** A value read from an object is smaller than the object. */
  lemma GetSmaller(j: Json, k: string)
    requires j.Obj? && HasKey(j.fields, k)
    ensures Get(j, k) < j
  {
    LookupIn(j.fields, k);
    assert Field(k, Get(j, k)) in j.fields;
  }
}
