/**
 JSON Merge Patch (RFC 7396, section 2) and what it does to a ManagedService's status
 (internal/controller/managedservice_status.go, lines 165-180).
 */
module MergePatch {
  import opened Wrappers
  import opened Objects
  import opened Conditions

  /** Scalars and arrays are leaves: a merge patch replaces them whole. */
  datatype Json<K, +T> = Null | Leaf(value: T) | Object(fields: map<K, Json<K, T>>)

  /** No null anywhere: a null in a document cannot be told from an absent field by a merge patch. */
  predicate NullFree<K, T>(j: Json<K, T>) {
    match j
    case Null => false
    case Leaf(_) => true
    case Object(fields) => forall k | k in fields :: NullFree(fields[k])
  }

  /** Section 2 of RFC 7396. */
  function Apply<K, T>(target: Json<K, T>, patch: Json<K, T>): (r: Json<K, T>)
    ensures patch.Object? ==> r.Object?
    decreases patch
  {
    match patch
    case Object(changes) =>
      var fields := if target.Object? then target.fields else map[];
      Object(map k | k in fields.Keys + changes.Keys && !(k in changes && changes[k].Null?)
             :: if k in changes then Apply(if k in fields then fields[k] else Null, changes[k]) else fields[k])
    case _ => patch
  }

  /** The patch that takes one object to another, as CreateMergePatch computes it. */
  function Diff<K, T(==)>(before: Json<K, T>, after: Json<K, T>): (r: Json<K, T>)
    requires before.Object? && after.Object?
    ensures r.Object?
    decreases after
  {
    var b, a := before.fields, after.fields;
    Object(map k | k in b.Keys + a.Keys && !(k in b && k in a && b[k] == a[k])
           :: if k !in a then Null
              else if k in b && b[k].Object? && a[k].Object? then Diff(b[k], a[k])
              else a[k])
  }

  /** Onto anything but an object, a null-free document patches to itself. */
  lemma {:induction false} ApplyFresh<K, T>(target: Json<K, T>, patch: Json<K, T>)
    requires NullFree(patch) && !target.Object?
    ensures Apply(target, patch) == patch
    decreases patch
  {
    if patch.Object? {
      forall k | k in patch.fields ensures Apply(Null, patch.fields[k]) == patch.fields[k] {
        ApplyFresh(Null, patch.fields[k]);
      }
    }
  }

  /** Applying the difference of two null-free objects to the first gives the second. */
  lemma {:induction false} RoundTrip<K, T>(before: Json<K, T>, after: Json<K, T>)
    requires before.Object? && after.Object? && NullFree(before) && NullFree(after)
    ensures Apply(before, Diff(before, after)) == after
    decreases after
  {
    var b, a, d := before.fields, after.fields, Diff(before, after).fields;
    var r := Apply(before, Diff(before, after));
    forall k | k in a ensures k in r.fields && r.fields[k] == a[k] {
      if k in d {
        assert NullFree(a[k]) && !d[k].Null?;
        assert r.fields[k] == Apply(if k in b then b[k] else Null, d[k]);
        if k in b && b[k].Object? && a[k].Object? {
          RoundTrip(b[k], a[k]);
        } else if a[k].Object? {
          ApplyFresh(if k in b then b[k] else Null, a[k]);
        }
      }
    }
    assert r.fields.Keys == a.Keys;
  }

  // ----- The status subresource

  datatype Field = Number(n: int) | Text(text: string) | List(conditions: seq<Condition>)

  /** Field names of the object and of its status; the rest of the object is under other names. */
  datatype Name = STATUS | GENERATION | READY | ENDPOINT | CONDITIONS | Other(name: string)

  const STATUS_FIELDS: set<Name> := {GENERATION, READY, ENDPOINT, CONDITIONS}

  function FieldOf(s: Status, name: Name): Field {
    match name
    case GENERATION => Number(s.observedGeneration)
    case READY => Number(s.readyReplicas)
    case ENDPOINT => Text(s.endpoint)
    case _ => List(s.conditions)
  }

  predicate IsZero(f: Field) { f == Number(0) || f == Text("") || f == List([]) }

  /** Zero fields are left out of the document. */
  function StatusFields(s: Status): map<Name, Json<Name, Field>> {
    map name | name in STATUS_FIELDS && !IsZero(FieldOf(s, name)) :: Leaf(FieldOf(s, name))
  }

  /** The whole object: `rest` is everything outside the status. */
  function Document(rest: map<Name, Json<Name, Field>>, s: Status): Json<Name, Field> {
    Object(if s == EMPTY_STATUS then rest else rest[STATUS := Object(StatusFields(s))])
  }

  function NumberAt(fields: map<Name, Json<Name, Field>>, name: Name): int {
    if name in fields && fields[name].Leaf? && fields[name].value.Number? then fields[name].value.n else 0
  }

  function ParseStatus(document: Json<Name, Field>): Status {
    if document.Object? && STATUS in document.fields && document.fields[STATUS].Object? then
      var fields := document.fields[STATUS].fields;
      Status(
        NumberAt(fields, GENERATION), NumberAt(fields, READY),
        if ENDPOINT in fields && fields[ENDPOINT].Leaf? && fields[ENDPOINT].value.Text? then fields[ENDPOINT].value.text else "",
        if CONDITIONS in fields && fields[CONDITIONS].Leaf? && fields[CONDITIONS].value.List? then fields[CONDITIONS].value.conditions else [])
    else EMPTY_STATUS
  }

  /** What the patch from `before` to `after` makes of a stored status: the changed fields, and only those. */
  function Merge(stored: Status, before: Status, after: Status): Status {
    Status(
      if before.observedGeneration == after.observedGeneration then stored.observedGeneration else after.observedGeneration,
      if before.readyReplicas == after.readyReplicas then stored.readyReplicas else after.readyReplicas,
      if before.endpoint == after.endpoint then stored.endpoint else after.endpoint,
      if before.conditions == after.conditions then stored.conditions else after.conditions)
  }

  /** Each field that the patch leaves out already has the intended value in the stored object. */
  predicate KeptFieldsAgree(stored: Status, before: Status, after: Status) {
    && (before.observedGeneration == after.observedGeneration ==> stored.observedGeneration == after.observedGeneration)
    && (before.readyReplicas == after.readyReplicas ==> stored.readyReplicas == after.readyReplicas)
    && (before.endpoint == after.endpoint ==> stored.endpoint == after.endpoint)
    && (before.conditions == after.conditions ==> stored.conditions == after.conditions)
  }

  /** The stored status is the computed one exactly when the stored object agrees on the fields the patch leaves out. */
  lemma MergeExact(stored: Status, before: Status, after: Status)
    ensures Merge(stored, before, after) == after <==> KeptFieldsAgree(stored, before, after)
    ensures stored == before ==> Merge(stored, before, after) == after
  {
  }

  /** The status part of the patch. */
  lemma StatusFieldsMerge(stored: Status, before: Status, after: Status)
    ensures Apply(Object(StatusFields(stored)), Diff(Object(StatusFields(before)), Object(StatusFields(after))))
            == Object(StatusFields(Merge(stored, before, after)))
  {
    var s, b, a := StatusFields(stored), StatusFields(before), StatusFields(after);
    var d := Diff(Object(b), Object(a)).fields;
    var r := Apply(Object(s), Object(d)).fields;
    forall name | name in STATUS_FIELDS
      ensures name in r <==> !IsZero(FieldOf(Merge(stored, before, after), name))
      ensures name in r ==> r[name] == Leaf(FieldOf(Merge(stored, before, after), name))
    {
      FieldMerge(stored, before, after, name);
    }
    PatchKeys(stored, before, after);
    FieldsEqual(r, Merge(stored, before, after));
  }

  lemma PatchKeys(stored: Status, before: Status, after: Status)
    ensures Apply(Object(StatusFields(stored)), Diff(Object(StatusFields(before)), Object(StatusFields(after)))).fields.Keys
            <= STATUS_FIELDS
  {
    var s, b, a := StatusFields(stored), StatusFields(before), StatusFields(after);
    assert s.Keys <= STATUS_FIELDS && b.Keys <= STATUS_FIELDS && a.Keys <= STATUS_FIELDS;
    assert Diff(Object(b), Object(a)).fields.Keys <= STATUS_FIELDS;
  }

  /** A document that agrees with a status on every field is its document. */
  lemma FieldsEqual(r: map<Name, Json<Name, Field>>, s: Status)
    requires r.Keys <= STATUS_FIELDS
    requires forall name | name in STATUS_FIELDS :: name in r <==> !IsZero(FieldOf(s, name))
    requires forall name | name in STATUS_FIELDS && name in r :: r[name] == Leaf(FieldOf(s, name))
    ensures r == StatusFields(s)
  {
    assert r.Keys == StatusFields(s).Keys;
  }

  /** One field of the patch. */
  lemma FieldDiff(before: Status, after: Status, name: Name)
    requires name in STATUS_FIELDS
    ensures var d := Diff(Object(StatusFields(before)), Object(StatusFields(after))).fields;
            && (name in d <==> FieldOf(before, name) != FieldOf(after, name))
            && (name in d ==> d[name] == if IsZero(FieldOf(after, name)) then Null else Leaf(FieldOf(after, name)))
  {
  }

  /** A patch entry that is no object replaces the field, or removes it. */
  lemma FieldApply(fields: map<Name, Json<Name, Field>>, d: map<Name, Json<Name, Field>>, name: Name)
    requires name in d ==> !d[name].Object?
    ensures var r := Apply(Object(fields), Object(d)).fields;
            && (name in r <==> if name in d then !d[name].Null? else name in fields)
            && (name in r ==> r[name] == if name in d then d[name] else fields[name])
  {
  }

  lemma FieldOfMerge(stored: Status, before: Status, after: Status, name: Name)
    requires name in STATUS_FIELDS
    ensures FieldOf(Merge(stored, before, after), name)
            == if FieldOf(before, name) == FieldOf(after, name) then FieldOf(stored, name) else FieldOf(after, name)
  {
  }

  /** One field of the status under the patch. */
  lemma FieldMerge(stored: Status, before: Status, after: Status, name: Name)
    requires name in STATUS_FIELDS
    ensures var r := Apply(Object(StatusFields(stored)), Diff(Object(StatusFields(before)), Object(StatusFields(after)))).fields;
            var f := FieldOf(Merge(stored, before, after), name);
            && (name in r <==> !IsZero(f))
            && (name in r ==> r[name] == Leaf(f))
  {
    var d := Diff(Object(StatusFields(before)), Object(StatusFields(after))).fields;
    FieldDiff(before, after, name);
    FieldOfMerge(stored, before, after, name);
    FieldApply(StatusFields(stored), d, name);
  }

  lemma ParseInverse(rest: map<Name, Json<Name, Field>>, s: Status)
    requires STATUS !in rest
    ensures ParseStatus(Object(rest[STATUS := Object(StatusFields(s))])) == s
    ensures ParseStatus(Document(rest, s)) == s
  {
    var fields := StatusFields(s);
    assert forall name | name in STATUS_FIELDS :: name in fields <==> !IsZero(FieldOf(s, name));
    assert s == EMPTY_STATUS || Document(rest, s) == Object(rest[STATUS := Object(fields)]);
  }

  /**
   RFC 7396 applied to the whole object, whose other fields may have been edited since it was read:
   they stay as stored, and the status becomes the merge.
   */
  lemma PatchDocument(
    storedRest: map<Name, Json<Name, Field>>, readRest: map<Name, Json<Name, Field>>,
    stored: Status, before: Status, after: Status)
    requires STATUS !in storedRest && STATUS !in readRest
    requires after != EMPTY_STATUS
    ensures var patched := Apply(Document(storedRest, stored), Diff(Document(readRest, before), Document(readRest, after)));
            && patched.Object?
            && patched.fields - {STATUS} == storedRest
            && ParseStatus(patched) == Merge(stored, before, after)
  {
    DocumentDiff(readRest, before, after);
    if before == after {
      ApplyNothing(Document(storedRest, stored).fields);
      ParseInverse(storedRest, stored);
      WithoutOne(storedRest, STATUS, Document(storedRest, stored).fields);
    } else {
      PatchStatusField(stored, before, after);
      PatchChanged(storedRest, stored, StatusPatch(before, after), Merge(stored, before, after));
    }
  }

  /** Where the patch holds a status, the patched document carries the merged one. */
  lemma PatchChanged(rest: map<Name, Json<Name, Field>>, stored: Status, patch: Json<Name, Field>, merged: Status)
    requires STATUS !in rest && patch.Object?
    requires Apply(StoredField(stored), patch) == Object(StatusFields(merged))
    ensures var patched := Apply(Document(rest, stored), Object(map[STATUS := patch]));
            && patched.Object?
            && patched.fields - {STATUS} == rest
            && ParseStatus(patched) == merged
  {
    ApplyOne(rest, STATUS, if stored == EMPTY_STATUS then None else Some(StoredField(stored)), patch);
    ParseInverse(rest, merged);
    WithoutOne(rest, STATUS, rest[STATUS := Object(StatusFields(merged))]);
  }

  function StoredField(s: Status): Json<Name, Field> {
    if s == EMPTY_STATUS then Null else Object(StatusFields(s))
  }

  function StatusPatch(before: Status, after: Status): Json<Name, Field> {
    if before == EMPTY_STATUS then Object(StatusFields(after))
    else Diff(Object(StatusFields(before)), Object(StatusFields(after)))
  }

  /** Only the status can be in the patch. */
  lemma DocumentDiff(rest: map<Name, Json<Name, Field>>, before: Status, after: Status)
    requires STATUS !in rest && after != EMPTY_STATUS
    ensures Diff(Document(rest, before), Document(rest, after))
            == Object(if before == after then map[] else map[STATUS := StatusPatch(before, after)])
  {
    var d := Diff(Document(rest, before), Document(rest, after)).fields;
    assert d.Keys <= {STATUS};
    assert after == before ==> STATUS !in d;
    if before != after && before != EMPTY_STATUS && StatusFields(before) == StatusFields(after) {
      ParseInverse(rest, before);
      ParseInverse(rest, after);
      assert false;
    }
  }

  lemma WithoutOne<K, V>(rest: map<K, V>, key: K, fields: map<K, V>)
    requires key !in rest && (fields == rest || (key in fields && fields == rest[key := fields[key]]))
    ensures fields - {key} == rest
  {
  }

  lemma ApplyNothing<K, T>(fields: map<K, Json<K, T>>)
    ensures Apply(Object(fields), Object(map[])) == Object(fields)
  {
    assert Apply(Object(fields), Object(map[])).fields == fields;
  }

  /** A field after a patch, read off the patch and the field before it. */
  lemma ApplyAt<K, T>(fields: map<K, Json<K, T>>, changes: map<K, Json<K, T>>, k: K)
    requires k in changes ==> !changes[k].Null?
    ensures var r := Apply(Object(fields), Object(changes)).fields;
            && (k in r <==> k in fields || k in changes)
            && (k in r ==> r[k] == if k in changes then Apply(if k in fields then fields[k] else Null, changes[k]) else fields[k])
  {
  }

  lemma ApplyOneField<K, T>(fields: map<K, Json<K, T>>, key: K, patch: Json<K, T>, x: Json<K, T>)
    requires !patch.Null? && x == Apply(if key in fields then fields[key] else Null, patch)
    ensures Apply(Object(fields), Object(map[key := patch])) == Object(fields[key := x])
  {
    var changes, after := map[key := patch], fields[key := x];
    var r := Apply(Object(fields), Object(changes)).fields;
    forall k ensures k in r <==> k in after { ApplyAt(fields, changes, k); }
    forall k | k in r ensures r[k] == after[k] { ApplyAt(fields, changes, k); }
    assert r == after;
  }

  /** A patch of one field touches that field only. */
  lemma ApplyOne<K, T>(rest: map<K, Json<K, T>>, key: K, current: Option<Json<K, T>>, patch: Json<K, T>)
    requires key !in rest && !patch.Null?
    ensures var fields := if current.None? then rest else rest[key := current.value];
            Apply(Object(fields), Object(map[key := patch]))
            == Object(rest[key := Apply(if current.None? then Null else current.value, patch)])
  {
    var fields := if current.None? then rest else rest[key := current.value];
    var x := Apply(if current.None? then Null else current.value, patch);
    Overwritten(rest, key, current, x);
    ApplyOneField(fields, key, patch, x);
  }

  lemma Overwritten<K, V>(rest: map<K, V>, key: K, current: Option<V>, x: V)
    requires key !in rest
    ensures var fields := if current.None? then rest else rest[key := current.value];
            && fields[key := x] == rest[key := x]
            && (key in fields <==> current.Some?) && (key in fields ==> fields[key] == current.value)
  {
  }

  /** An absent status patches like an empty one. */
  lemma PatchStatusField(stored: Status, before: Status, after: Status)
    requires after != EMPTY_STATUS && before != after
    ensures Apply(StoredField(stored), StatusPatch(before, after)) == Object(StatusFields(Merge(stored, before, after)))
  {
    var s, b, a := StatusFields(stored), StatusFields(before), StatusFields(after);
    StatusFieldsMerge(stored, before, after);
    if before == EMPTY_STATUS {
      assert b == map[];
      assert Diff(Object(b), Object(a)).fields == a;
    }
    if stored == EMPTY_STATUS {
      assert s == map[];
    }
  }
}
