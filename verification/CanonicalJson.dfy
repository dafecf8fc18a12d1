/**
 Canonical serialization of evaluation manifests (evaluation-invariants.ts).

 Values are JavaScript values as `canonicalize` sees them. An object is the
 sequence of its own enumerable string keys with their values.
 */
module CanonicalJson {
  import opened LexOrder

  datatype Json =
    | Undefined
    | Null
    | Bool(b: bool)
    | Num(n: real)
    | Str(s: Text)
    | Date(iso: Text)
    | Arr(items: seq<Json>)
    | Obj(fields: seq<Field>)

  datatype Field = Field(key: Text, value: Json)

  /** "__proto__": assigning this key on an object literal creates no own property. */
  const PROTO: Text := [95, 95, 112, 114, 111, 116, 111, 95, 95]

  /** The fields that reach the canonical object. */
  predicate Kept(f: Field) {
    f.value != Undefined && f.key != PROTO
  }

  function Canonicalize(v: Json): Json
    decreases v, 1
  {
    match v
    case Date(iso) => Str(iso)
    case Arr(items) => Arr(CanonicalizeItems(items))
    case Obj(fields) => Obj(CanonicalizeFields(fields))
    case _ => v
  }

  function CanonicalizeItems(items: seq<Json>): (r: seq<Json>)
    ensures |r| == |items|
    ensures forall i :: 0 <= i < |items| ==> r[i] == Canonicalize(items[i])
    decreases items, 0
  {
    if items == [] then [] else [Canonicalize(items[0])] + CanonicalizeItems(items[1..])
  }

  /** Sort by key, drop undefined values, canonicalize what remains. */
  function CanonicalizeFields(fields: seq<Field>): seq<Field>
    decreases fields, 0
  {
    if fields == [] then []
    else
      var rest := CanonicalizeFields(fields[1..]);
      if Kept(fields[0]) then Insert(Field(fields[0].key, Canonicalize(fields[0].value)), rest) else rest
  }

  function Insert(f: Field, sorted: seq<Field>): seq<Field> {
    if sorted == [] || Less(f.key, sorted[0].key) then [f] + sorted
    else [sorted[0]] + Insert(f, sorted[1..])
  }

  /** Own keys of a JavaScript object are distinct, at every depth. */
  ghost predicate WellFormed(v: Json) {
    match v
    case Arr(items) => forall i :: 0 <= i < |items| ==> WellFormed(items[i])
    case Obj(fields) =>
      && (forall i, j :: 0 <= i < j < |fields| ==> fields[i].key != fields[j].key)
      && (forall i :: 0 <= i < |fields| ==> WellFormed(fields[i].value))
    case _ => true
  }

  /**
   Content equality: key order and dropped keys are irrelevant at every depth, a
   Date counts as its ISO text, array positions matter.
   */
  ghost predicate SameContent(a: Json, b: Json)
    decreases a, 1
  {
    if a.Arr? && b.Arr? then
      |a.items| == |b.items| && forall i :: 0 <= i < |a.items| ==> SameContent(a.items[i], b.items[i])
    else if a.Obj? && b.Obj? then
      && (forall f :: f in a.fields && Kept(f) ==> HasTwin(f, b.fields))
      && (forall g :: g in b.fields && Kept(g) ==> IsTwin(a.fields, g))
    else
      !a.Arr? && !a.Obj? && !b.Arr? && !b.Obj? && Scalar(a) == Scalar(b)
  }

  /** Some kept field of `fields` has the key and the content of `f`. */
  ghost predicate HasTwin(f: Field, fields: seq<Field>)
    decreases f, 0
  {
    exists g :: g in fields && Kept(g) && f.key == g.key && SameContent(f.value, g.value)
  }

  ghost predicate IsTwin(fields: seq<Field>, g: Field)
    decreases fields, 0
  {
    exists f :: f in fields && Kept(f) && f.key == g.key && SameContent(f.value, g.value)
  }

  function Scalar(v: Json): Json {
    if v.Date? then Str(v.iso) else v
  }

  // ---- Sorted field lists ----

  ghost predicate StrictlySorted(fields: seq<Field>) {
    forall i, j :: 0 <= i < j < |fields| ==> Less(fields[i].key, fields[j].key)
  }

  lemma {:induction false} InsertAddsOne(f: Field, sorted: seq<Field>)
    ensures forall x :: x in Insert(f, sorted) <==> x == f || x in sorted
  {
    if !(sorted == [] || Less(f.key, sorted[0].key)) {
      InsertAddsOne(f, sorted[1..]);
      assert sorted == [sorted[0]] + sorted[1..];
    }
  }

  lemma {:induction false} InsertKeepsSorted(f: Field, sorted: seq<Field>)
    requires StrictlySorted(sorted)
    requires forall x :: x in sorted ==> x.key != f.key
    ensures StrictlySorted(Insert(f, sorted))
  {
    if sorted == [] {
    } else if Less(f.key, sorted[0].key) {
      forall j | 0 < j < |sorted| ensures Less(f.key, sorted[j].key) {
        LessIsTransitive(f.key, sorted[0].key, sorted[j].key);
      }
    } else {
      LessIsTotal(f.key, sorted[0].key);
      assert sorted[0] in sorted;
      var rest := Insert(f, sorted[1..]);
      InsertKeepsSorted(f, sorted[1..]);
      InsertAddsOne(f, sorted[1..]);
      forall j | 0 <= j < |rest| ensures Less(sorted[0].key, rest[j].key) {
        assert rest[j] in rest;
      }
    }
  }

  /** A strictly sorted field list is determined by its members. */
  lemma {:induction false} SortedListIsUnique(a: seq<Field>, b: seq<Field>)
    requires StrictlySorted(a) && StrictlySorted(b)
    requires forall x :: x in a <==> x in b
    ensures a == b
  {
    assert a != [] ==> a[0] in b;
    assert b != [] ==> b[0] in a;
    if a != [] && b != [] {
      HeadIsLeast(a, b[0]);
      HeadIsLeast(b, a[0]);
      if a[0] != b[0] {
        LessIsTransitive(a[0].key, b[0].key, a[0].key);
        LessIsIrreflexive(a[0].key);
      }
      forall x ensures x in a[1..] <==> x in b[1..] {
        TailMembers(a, x);
        TailMembers(b, x);
      }
      SortedListIsUnique(a[1..], b[1..]);
      assert a == [a[0]] + a[1..] && b == [b[0]] + b[1..];
    }
  }

  lemma HeadIsLeast(a: seq<Field>, x: Field)
    requires StrictlySorted(a) && x in a
    ensures x == a[0] || Less(a[0].key, x.key)
  {
    var i :| 0 <= i < |a| && a[i] == x;
  }

  lemma TailMembers(a: seq<Field>, x: Field)
    requires StrictlySorted(a) && a != []
    ensures x in a[1..] <==> x in a && x != a[0]
  {
    assert a == [a[0]] + a[1..];
    if a[0] in a[1..] {
      LessIsIrreflexive(a[0].key);
    }
  }

  // ---- What canonicalizing an object produces ----

  ghost predicate ComesFrom(x: Field, fields: seq<Field>) {
    exists f :: f in fields && Kept(f) && x == Field(f.key, Canonicalize(f.value))
  }

  lemma {:induction false} CanonicalMembers(fields: seq<Field>)
    ensures forall x :: x in CanonicalizeFields(fields) <==> ComesFrom(x, fields)
  {
    if fields != [] {
      CanonicalMembers(fields[1..]);
      InsertAddsOne(Field(fields[0].key, Canonicalize(fields[0].value)), CanonicalizeFields(fields[1..]));
      assert fields == [fields[0]] + fields[1..];
      forall x ensures ComesFrom(x, fields) <==> ComesFrom(x, [fields[0]]) || ComesFrom(x, fields[1..]) {
      }
    }
  }

  lemma {:induction false} CanonicalIsSorted(fields: seq<Field>)
    requires forall i, j :: 0 <= i < j < |fields| ==> fields[i].key != fields[j].key
    ensures StrictlySorted(CanonicalizeFields(fields))
  {
    if fields != [] {
      CanonicalIsSorted(fields[1..]);
      CanonicalMembers(fields[1..]);
      if Kept(fields[0]) {
        InsertKeepsSorted(Field(fields[0].key, Canonicalize(fields[0].value)), CanonicalizeFields(fields[1..]));
      }
    }
  }

  // ---- The theorem ----

  /** Two values canonicalize alike exactly when they have the same content. */
  lemma {:induction false} EqualFormsIffSameContent(a: Json, b: Json)
    requires WellFormed(a) && WellFormed(b)
    ensures Canonicalize(a) == Canonicalize(b) <==> SameContent(a, b)
    decreases a
  {
    if a.Arr? && b.Arr? {
      forall i | 0 <= i < |a.items| && i < |b.items|
        ensures Canonicalize(a.items[i]) == Canonicalize(b.items[i]) <==> SameContent(a.items[i], b.items[i])
      {
        EqualFormsIffSameContent(a.items[i], b.items[i]);
      }
    } else if a.Obj? && b.Obj? {
      forall f, g | f in a.fields && g in b.fields
        ensures Canonicalize(f.value) == Canonicalize(g.value) <==> SameContent(f.value, g.value)
      {
        EqualFormsIffSameContent(f.value, g.value);
      }
      assert FieldsAgree(a.fields, b.fields);
      CanonicalMembers(a.fields);
      CanonicalMembers(b.fields);
      if Canonicalize(a) == Canonicalize(b) {
        SameMembersSameContent(a.fields, b.fields);
      }
      if SameContent(a, b) {
        SameContentSameMembers(a.fields, b.fields);
        CanonicalIsSorted(a.fields);
        CanonicalIsSorted(b.fields);
        SortedListIsUnique(CanonicalizeFields(a.fields), CanonicalizeFields(b.fields));
      }
    }
  }

  /** The induction hypothesis of the object case: the claim for every pair of field values. */
  ghost predicate FieldsAgree(a: seq<Field>, b: seq<Field>) {
    forall f, g :: f in a && g in b ==>
      (Canonicalize(f.value) == Canonicalize(g.value) <==> SameContent(f.value, g.value))
  }

  lemma SameMembersSameContent(a: seq<Field>, b: seq<Field>)
    requires FieldsAgree(a, b)
    requires forall x :: ComesFrom(x, a) <==> ComesFrom(x, b)
    ensures SameContent(Obj(a), Obj(b))
  {
    forall f | f in a && Kept(f) ensures HasTwin(f, b) {
      assert ComesFrom(Field(f.key, Canonicalize(f.value)), a);
    }
    forall g | g in b && Kept(g) ensures IsTwin(a, g) {
      assert ComesFrom(Field(g.key, Canonicalize(g.value)), b);
    }
  }

  lemma SameContentSameMembers(a: seq<Field>, b: seq<Field>)
    requires FieldsAgree(a, b) && SameContent(Obj(a), Obj(b))
    ensures forall x :: ComesFrom(x, a) <==> ComesFrom(x, b)
  {
    forall x | ComesFrom(x, a) ensures ComesFrom(x, b) {
      var f :| f in a && Kept(f) && x == Field(f.key, Canonicalize(f.value));
      assert HasTwin(f, b);
    }
    forall x | ComesFrom(x, b) ensures ComesFrom(x, a) {
      var g :| g in b && Kept(g) && x == Field(g.key, Canonicalize(g.value));
      assert IsTwin(a, g);
    }
  }

  /** The canonical form is itself well formed and has the content it was made from. */
  lemma {:induction false} CanonicalFormKeepsContent(v: Json)
    requires WellFormed(v)
    ensures WellFormed(Canonicalize(v)) && SameContent(Canonicalize(v), v)
    decreases v
  {
    match v {
      case Arr(items) =>
        forall i | 0 <= i < |items|
          ensures WellFormed(Canonicalize(items[i])) && SameContent(Canonicalize(items[i]), items[i])
        {
          CanonicalFormKeepsContent(items[i]);
        }
      case Obj(fields) =>
        var sorted := CanonicalizeFields(fields);
        forall f | f in fields
          ensures WellFormed(Canonicalize(f.value)) && SameContent(Canonicalize(f.value), f.value)
          ensures f.value != Undefined ==> Canonicalize(f.value) != Undefined
        {
          CanonicalFormKeepsContent(f.value);
        }
        CanonicalMembers(fields);
        CanonicalIsSorted(fields);
        forall i, j | 0 <= i < j < |sorted| ensures sorted[i].key != sorted[j].key {
          LessIsIrreflexive(sorted[i].key);
        }
        forall j | 0 <= j < |sorted| ensures WellFormed(sorted[j].value) {
          assert ComesFrom(sorted[j], fields);
        }
        forall x | x in sorted && Kept(x) ensures HasTwin(x, fields) {
          assert ComesFrom(x, fields);
        }
        forall f | f in fields && Kept(f) ensures IsTwin(sorted, f) {
          var x := Field(f.key, Canonicalize(f.value));
          assert ComesFrom(x, fields);
        }
      case _ =>
    }
  }

  /**
   Which keys the canonical object has, and with which values: those of the object, but
   for undefined values and a key `__proto__`; the values are canonical, the keys sorted.
   A null, a false, a zero or an empty text is a value like any other.
   */
  lemma CanonicalFieldsAre(fields: seq<Field>, key: Text)
    requires WellFormed(Obj(fields))
    ensures var canonical := Canonicalize(Obj(fields));
            && canonical.Obj? && StrictlySorted(canonical.fields)
            && ((exists x :: x in canonical.fields && x.key == key) <==>
                  key != [95, 95, 112, 114, 111, 116, 111, 95, 95] && exists f :: f in fields && f.key == key && f.value != Undefined)
            && (forall x, f :: x in canonical.fields && f in fields && x.key == f.key ==> x.value == Canonicalize(f.value))
  {
    CanonicalMembers(fields);
    CanonicalIsSorted(fields);
    var canonical := CanonicalizeFields(fields);
    if f :| f in fields && f.key == key && f.value != Undefined && key != [95, 95, 112, 114, 111, 116, 111, 95, 95] {
      assert ComesFrom(Field(f.key, Canonicalize(f.value)), fields);
    }
    forall x, f | x in canonical && f in fields && x.key == f.key ensures x.value == Canonicalize(f.value) {
      assert ComesFrom(x, fields);
      var g :| g in fields && Kept(g) && x == Field(g.key, Canonicalize(g.value));
      var i :| 0 <= i < |fields| && fields[i] == f;
      var k :| 0 <= k < |fields| && fields[k] == g;
      assert i == k;
    }
  }

  lemma CanonicalizeIsIdempotent(v: Json)
    requires WellFormed(v)
    ensures Canonicalize(Canonicalize(v)) == Canonicalize(v)
  {
    CanonicalFormKeepsContent(v);
    EqualFormsIffSameContent(Canonicalize(v), v);
  }

  /** Manifests with equal content get equal hashes, whatever serializer and digest are used. */
  lemma EqualContentHashesAlike<Bytes, Hash>(a: Json, b: Json, stringify: Json -> Bytes, sha256: Bytes -> Hash)
    requires WellFormed(a) && WellFormed(b) && SameContent(a, b)
    ensures sha256(stringify(Canonicalize(a))) == sha256(stringify(Canonicalize(b)))
  {
    EqualFormsIffSameContent(a, b);
  }

  /** Two values that differ in an own key `__proto__` and canonicalize alike. */
  lemma ProtoIsLost()
    ensures var (a, b) := (Obj([Field(PROTO, Num(1.0))]), Obj([]));
            WellFormed(a) && WellFormed(b) && a != b && Canonicalize(a) == Canonicalize(b)
  {
    var fields := [Field(PROTO, Num(1.0))];
    assert !Kept(fields[0]) && fields[1..] == [];
    assert CanonicalizeFields(fields) == CanonicalizeFields([]);
  }
}
