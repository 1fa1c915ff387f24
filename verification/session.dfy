/**
 * The write-through session of src/djangostdnet/session.py: copying a stdnet
 * instance's fields into its paired Django row before it is added, copying a
 * Django object's fields into its stdnet counterpart, and deleting that
 * counterpart.  Each copy is a diff: a field is written only where the
 * target's attribute differs, and the target is saved only if something
 * changed.
 */
module Sessions {
  import opened Wrappers
  import opened Values
  import Fields

  /** A field of a model: its name, and whether it is a ForeignKey or OneToOneField. */
  datatype Field = Field(name: string, related: bool)

  /** The attribute a field is stored under: `<name>_id` for a relation (session.py:44-48, 79-82). */
  function StorageName(f: Field): string
  {
    if f.related then Fields.AttName(f.name) else f.name
  }

  /** A stdnet instance's attribute: `None` when it was never set. */
  function Attr(m: map<string, Value>, key: string): Value
  {
    if key in m then m[key] else Null
  }

  /** The direction of a copy: stdnet instance to Django row, or Django object to stdnet instance. */
  datatype Direction = ToDjango | FromDjango

  datatype SyncError =
    | NoRelatedObject(field: string)  // `.pkvalue()` on a relation that holds `None`
    | MissingAttribute(attr: string)  // `getattr(django_obj, field_name)` without a default

  /**
   * The value copied for field `f` from `src`.  To Django, a relation's value
   * is the related object's pk, and a relation set to `None` fails
   * (session.py:44-49).  From Django, the attribute must exist (session.py:84).
   */
  function Read(dir: Direction, f: Field, src: map<string, Value>): (r: Result<Value, SyncError>)
    ensures r.Ok? ==> r.value == Attr(src, StorageName(f))
    ensures dir == FromDjango ==> (r.Ok? <==> StorageName(f) in src)
    ensures dir == ToDjango ==> (r.Ok? <==> !f.related || Attr(src, StorageName(f)) != Null)
  {
    var key := StorageName(f);
    match dir
    case ToDjango =>
      if f.related && Attr(src, key) == Null then Err(NoRelatedObject(f.name)) else Ok(Attr(src, key))
    case FromDjango =>
      if key in src then Ok(src[key]) else Err(MissingAttribute(key))
  }

  /** `getattr(target, key, UNDEFINED) == v`: an absent attribute equals nothing. */
  predicate Matches(f: Field, v: Value, dst: map<string, Value>)
  {
    StorageName(f) in dst && dst[StorageName(f)] == v
  }

  /** The target's attributes after a copy, whether anything was written, and the error that stopped it. */
  datatype Synced = Synced(attrs: map<string, Value>, modified: bool, error: Option<SyncError>)

  /** The field loop of session.py:43-52 and 78-97, over `fields` in order; it stops at the first error. */
  function Sync(dir: Direction, fields: seq<Field>, src: map<string, Value>, dst: map<string, Value>): Synced
    decreases |fields|
  {
    if fields == [] then Synced(dst, false, None)
    else
      var prev := Sync(dir, fields[..|fields| - 1], src, dst);
      var f := fields[|fields| - 1];
      if prev.error.Some? then prev
      else
        match Read(dir, f, src)
        case Err(e) => Synced(prev.attrs, prev.modified, Some(e))
        case Ok(v) => if Matches(f, v, prev.attrs) then prev else Synced(prev.attrs[StorageName(f) := v], true, None)
  }

  /** Every field can be read from `src`. */
  predicate Readable(dir: Direction, fields: seq<Field>, src: map<string, Value>)
  {
    forall f :: f in fields ==> Read(dir, f, src).Ok?
  }

  /** Every field reads from `src` as the value `dst` already holds. */
  predicate AllMatch(dir: Direction, fields: seq<Field>, src: map<string, Value>, dst: map<string, Value>)
  {
    forall f :: f in fields ==> Read(dir, f, src).Ok? && Matches(f, Read(dir, f, src).value, dst)
  }

  /** The attributes a copy of `fields` may write. */
  function StorageNames(fields: seq<Field>): (r: set<string>)
    ensures forall f :: f in fields ==> StorageName(f) in r
    decreases |fields|
  {
    if fields == [] then {} else StorageNames(fields[..|fields| - 1]) + {StorageName(fields[|fields| - 1])}
  }

  lemma InFront(fields: seq<Field>, f: Field)
    requires fields != [] && f in fields && f != fields[|fields| - 1]
    ensures f in fields[..|fields| - 1]
  {
    var i :| 0 <= i < |fields| && fields[i] == f;
    assert fields[..|fields| - 1][i] == f;
  }

  /** The copy fails exactly when some field cannot be read. */
  lemma {:induction false} SyncFailsIffUnreadable(dir: Direction, fields: seq<Field>, src: map<string, Value>, dst: map<string, Value>)
    ensures Sync(dir, fields, src, dst).error.None? <==> Readable(dir, fields, src)
    decreases |fields|
  {
    if fields != [] {
      var front := fields[..|fields| - 1];
      SyncFailsIffUnreadable(dir, front, src, dst);
      assert fields == front + [fields[|fields| - 1]];
      forall f | f in fields && f != fields[|fields| - 1]
        ensures f in front
      {
        InFront(fields, f);
      }
    }
  }

  /** Attributes outside the copied fields are left as they were. */
  lemma {:induction false} SyncFrame(dir: Direction, fields: seq<Field>, src: map<string, Value>, dst: map<string, Value>)
    ensures var r := Sync(dir, fields, src, dst);
            && r.attrs.Keys <= dst.Keys + StorageNames(fields)
            && dst.Keys <= r.attrs.Keys
            && forall k :: k in dst && k !in StorageNames(fields) ==> r.attrs[k] == dst[k]
    decreases |fields|
  {
    if fields != [] {
      SyncFrame(dir, fields[..|fields| - 1], src, dst);
    }
  }

  /** After a successful copy every field of the target equals its source value. */
  lemma {:induction false} SyncMakesMatch(dir: Direction, fields: seq<Field>, src: map<string, Value>, dst: map<string, Value>)
    requires Sync(dir, fields, src, dst).error.None?
    ensures AllMatch(dir, fields, src, Sync(dir, fields, src, dst).attrs)
    decreases |fields|
  {
    if fields != [] {
      var front := fields[..|fields| - 1];
      var last := fields[|fields| - 1];
      var prev := Sync(dir, front, src, dst);
      var r := Sync(dir, fields, src, dst);
      SyncMakesMatch(dir, front, src, dst);
      forall f | f in fields
        ensures Read(dir, f, src).Ok? && Matches(f, Read(dir, f, src).value, r.attrs)
      {
        if f != last {
          InFront(fields, f);
        }
      }
    }
  }

  /**
   * A copy that writes nothing leaves the target as it was, and a successful
   * copy writes something exactly when some field did not match already.
   */
  lemma {:induction false} SyncModifiedIff(dir: Direction, fields: seq<Field>, src: map<string, Value>, dst: map<string, Value>)
    ensures var r := Sync(dir, fields, src, dst);
            && (!r.modified ==> r.attrs == dst)
            && (r.error.None? ==> (r.modified <==> !AllMatch(dir, fields, src, dst)))
    decreases |fields|
  {
    if fields != [] {
      var front := fields[..|fields| - 1];
      var last := fields[|fields| - 1];
      SyncModifiedIff(dir, front, src, dst);
      forall f | f in fields && f != last
        ensures f in front
      {
        InFront(fields, f);
      }
      assert last in fields;
    }
  }

  /** Copying again after a successful copy writes nothing. */
  lemma SyncIdempotent(dir: Direction, fields: seq<Field>, src: map<string, Value>, dst: map<string, Value>)
    requires Sync(dir, fields, src, dst).error.None?
    ensures var once := Sync(dir, fields, src, dst).attrs;
            Sync(dir, fields, src, once) == Synced(once, false, None)
  {
    var once := Sync(dir, fields, src, dst).attrs;
    SyncMakesMatch(dir, fields, src, dst);
    SyncFailsIffUnreadable(dir, fields, src, dst);
    SyncFailsIffUnreadable(dir, fields, src, once);
    SyncModifiedIff(dir, fields, src, once);
  }

  /** Once the loop has failed, the later fields are not looked at. */
  lemma {:induction false} SyncErrorPersists(dir: Direction, fields: seq<Field>, n: nat, src: map<string, Value>, dst: map<string, Value>)
    requires n <= |fields|
    requires Sync(dir, fields[..n], src, dst).error.Some?
    ensures Sync(dir, fields, src, dst) == Sync(dir, fields[..n], src, dst)
    decreases |fields| - n
  {
    if n < |fields| {
      assert fields[..n + 1][..n] == fields[..n];
      assert Sync(dir, fields[..n + 1], src, dst) == Sync(dir, fields[..n], src, dst);
      SyncErrorPersists(dir, fields, n + 1, src, dst);
    } else {
      assert fields[..n] == fields;
    }
  }

  // ---------------------------------------------------------------------------
  // Models, rows and instances
  // ---------------------------------------------------------------------------

  /** A stdnet model's `_meta`: the name of its pk field and its fields, the pk among them. */
  datatype ModelMeta = ModelMeta(pkName: string, fields: seq<Field>)

  /** `instance._meta.pk`: the pk is a plain field. */
  function PkField(meta: ModelMeta): Field
  {
    Field(meta.pkName, false)
  }

  /** The pk is one of the fields, and no two fields share a storage attribute. */
  predicate WellFormed(meta: ModelMeta)
  {
    && PkField(meta) in meta.fields
    && forall i, j :: 0 <= i < j < |meta.fields| ==> StorageName(meta.fields[i]) != StorageName(meta.fields[j])
  }

  /** `[field for field in _meta.fields if field != pk]` (session.py:37-38, 73-74). */
  function NonPk(fields: seq<Field>, pk: Field): (r: seq<Field>)
    ensures forall f :: f in r <==> f in fields && f != pk
    decreases |fields|
  {
    if fields == [] then []
    else
      var front := NonPk(fields[..|fields| - 1], pk);
      var last := fields[|fields| - 1];
      assert forall f :: f in fields ==> f in fields[..|fields| - 1] || f == last;
      if last == pk then front else front + [last]
  }

  /** No field other than the pk is stored under the pk's name. */
  lemma PkNameIsOnlyThePk(meta: ModelMeta, f: Field)
    requires WellFormed(meta)
    requires f in NonPk(meta.fields, PkField(meta))
    ensures StorageName(f) != meta.pkName
  {
    var i :| 0 <= i < |meta.fields| && meta.fields[i] == f;
    var j :| 0 <= j < |meta.fields| && meta.fields[j] == PkField(meta);
    assert i != j;
    assert StorageName(meta.fields[j]) == meta.pkName;
  }

  /** A Django model instance (`instance._instance`, or a `django_obj`). */
  class DjangoObject {
    var attrs: map<string, Value>

    constructor (attrs: map<string, Value>)
      ensures this.attrs == attrs
    {
      this.attrs := attrs;
    }
  }

  /** `save()` of a Django row: a missing pk is assigned from the auto-increment counter. */
  function SavedAttrs(attrs: map<string, Value>, pkName: string, nextId: int): (r: map<string, Value>)
    ensures Attr(r, pkName) != Null
    ensures Attr(attrs, pkName) != Null ==> r == attrs
    ensures forall k :: k in attrs && k != pkName ==> k in r && r[k] == attrs[k]
    ensures r.Keys == attrs.Keys + {pkName} || r == attrs
  {
    if Attr(attrs, pkName) == Null then attrs[pkName := Int(nextId)] else attrs
  }

  /** A Django model's table, keyed by pk. */
  class DjangoTable {
    const pkName: string
    var rows: map<Value, map<string, Value>>
    var nextId: int
    /** How often `save()` ran. */
    var saves: nat

    /** Each stored row holds its own key as its pk. */
    predicate Valid()
      reads this
    {
      forall pk :: pk in rows ==> pk != Null && Attr(rows[pk], pkName) == pk
    }

    constructor (pkName: string)
      ensures this.pkName == pkName && rows == map[] && saves == 0 && Valid()
    {
      this.pkName := pkName;
      rows := map[];
      nextId := 1;
      saves := 0;
    }

    /** `objects.get(pk=pk)`; `null` for `DoesNotExist`, which a `None` pk always gives. */
    method Get(pk: Value) returns (r: DjangoObject?)
      ensures r == null <==> pk == Null || pk !in rows
      ensures r != null ==> fresh(r) && r.attrs == rows[pk]
    {
      if pk == Null || pk !in rows {
        return null;
      }
      r := new DjangoObject(rows[pk]);
    }

    /** `save()`: the row gets a pk if it has none, and is stored under it. */
    method Save(obj: DjangoObject)
      modifies this, obj
      ensures obj.attrs == SavedAttrs(old(obj.attrs), pkName, old(nextId))
      ensures rows == old(rows)[Attr(obj.attrs, pkName) := obj.attrs]
      ensures nextId == old(nextId) + (if Attr(old(obj.attrs), pkName) == Null then 1 else 0)
      ensures saves == old(saves) + 1
      ensures old(Valid()) ==> Valid()
    {
      if Attr(obj.attrs, pkName) == Null {
        obj.attrs := obj.attrs[pkName := Int(nextId)];
        nextId := nextId + 1;
      }
      rows := rows[Attr(obj.attrs, pkName) := obj.attrs];
      saves := saves + 1;
    }
  }

  /** A stdnet model instance. */
  class StdnetInstance {
    /** Field attributes by storage name, the pk under the pk's name. */
    var values: map<string, Value>
    /** `_instance`: the paired Django row, once loaded. */
    var paired: DjangoObject?
    /** The model's `_django_meta.model` is set. */
    const bound: bool

    constructor (values: map<string, Value>, bound: bool)
      ensures this.values == values && paired == null && this.bound == bound
    {
      this.values := values;
      paired := null;
      this.bound := bound;
    }
  }

  /** The stored stdnet instances of one model, by pk (what `manager.get` reads). */
  class Manager {
    var docs: map<Value, map<string, Value>>

    constructor (docs: map<Value, map<string, Value>>)
      ensures this.docs == docs
    {
      this.docs := docs;
    }

    /** `manager.get(pk=pk)`; `null` for `DoesNotExist`. */
    method Get(pk: Value, bound: bool) returns (r: StdnetInstance?)
      ensures r == null <==> pk == Null || pk !in docs
      ensures r != null ==> fresh(r) && r.values == docs[pk] && r.paired == null && r.bound == bound
    {
      if pk == Null || pk !in docs {
        return null;
      }
      r := new StdnetInstance(docs[pk], bound);
    }
  }

  // ---------------------------------------------------------------------------
  // `_ensure_django_instance`
  // ---------------------------------------------------------------------------

  /**
   * The outcome of `_ensure_django_instance`: the row, whether it was saved,
   * the instance's new values, the error, and the table's auto-increment
   * counter afterwards.
   */
  datatype Ensured = Ensured(row: map<string, Value>, saved: bool, values: map<string, Value>,
                             error: Option<SyncError>, nextId: int)

  /** The row the copy starts from: the paired one, else the stored one, else a new one carrying the instance's pk. */
  function StartRow(paired: Option<map<string, Value>>, values: map<string, Value>,
                    rows: map<Value, map<string, Value>>, pkName: string): map<string, Value>
  {
    var pk := Attr(values, pkName);
    if paired.Some? then paired.value
    else if pk != Null && pk in rows then rows[pk]
    else map[pkName := pk]
  }

  /** The fields `_ensure_django_instance` compares: all of them, less the pk when the row has none yet. */
  function ComparedFields(start: map<string, Value>, meta: ModelMeta): seq<Field>
  {
    if Attr(start, meta.pkName) == Null then NonPk(meta.fields, PkField(meta)) else meta.fields
  }

  /**
   * `_ensure_django_instance` (session.py:23-59), given the paired row's
   * attributes (`None` when there is none), the instance's values, the table
   * and its auto-increment counter.
   */
  function EnsureSpec(paired: Option<map<string, Value>>, values: map<string, Value>,
                      rows: map<Value, map<string, Value>>, nextId: int, meta: ModelMeta): Ensured
  {
    var pk := Attr(values, meta.pkName);
    var created := paired.None? && !(pk != Null && pk in rows);
    var start := StartRow(paired, values, rows, meta.pkName);
    var creation := Attr(start, meta.pkName) == Null;
    var s := Sync(ToDjango, ComparedFields(start, meta), values, start);
    if s.error.Some? then Ensured(s.attrs, false, values, s.error, nextId)
    else
      var saved := created || creation || s.modified;
      var row := if saved then SavedAttrs(s.attrs, meta.pkName, nextId) else s.attrs;
      var pkAssigned := saved && Attr(s.attrs, meta.pkName) == Null;
      Ensured(row, saved, if creation then values[meta.pkName := Attr(row, meta.pkName)] else values, None,
              if pkAssigned then nextId + 1 else nextId)
  }

  /** After a successful call every non-pk field of the row equals the instance's value, and the row has a pk. */
  lemma EnsureCopiesFields(paired: Option<map<string, Value>>, values: map<string, Value>,
                           rows: map<Value, map<string, Value>>, nextId: int, meta: ModelMeta)
    requires WellFormed(meta)
    requires EnsureSpec(paired, values, rows, nextId, meta).error.None?
    ensures var o := EnsureSpec(paired, values, rows, nextId, meta);
            && AllMatch(ToDjango, NonPk(meta.fields, PkField(meta)), values, o.row)
            && Attr(o.row, meta.pkName) != Null
  {
    var start := StartRow(paired, values, rows, meta.pkName);
    var fields := ComparedFields(start, meta);
    var s := Sync(ToDjango, fields, values, start);
    var o := EnsureSpec(paired, values, rows, nextId, meta);
    SyncMakesMatch(ToDjango, fields, values, start);
    SyncModifiedIff(ToDjango, fields, values, start);
    forall f | f in NonPk(meta.fields, PkField(meta))
      ensures Read(ToDjango, f, values).Ok? && Matches(f, Read(ToDjango, f, values).value, o.row)
    {
      PkNameIsOnlyThePk(meta, f);
      assert f in fields;
    }
  }

  /** The row is saved exactly when it is new, has no pk, or some compared field differed. */
  lemma EnsureSavesIffChanged(paired: Option<map<string, Value>>, values: map<string, Value>,
                              rows: map<Value, map<string, Value>>, nextId: int, meta: ModelMeta)
    requires EnsureSpec(paired, values, rows, nextId, meta).error.None?
    ensures var start := StartRow(paired, values, rows, meta.pkName);
            var pk := Attr(values, meta.pkName);
            var saved := EnsureSpec(paired, values, rows, nextId, meta).saved;
            saved <==> (|| (paired.None? && !(pk != Null && pk in rows))
                        || Attr(start, meta.pkName) == Null
                        || !AllMatch(ToDjango, ComparedFields(start, meta), values, start))
  {
    var start := StartRow(paired, values, rows, meta.pkName);
    SyncModifiedIff(ToDjango, ComparedFields(start, meta), values, start);
  }

  /**
   * An existing row with a pk whose every field already matches is neither
   * changed nor saved (tests/models.py:312-319).
   */
  lemma EnsureSkipsSaveWhenInSync(values: map<string, Value>, rows: map<Value, map<string, Value>>,
                                  nextId: int, meta: ModelMeta)
    requires forall pk :: pk in rows ==> pk != Null && Attr(rows[pk], meta.pkName) == pk
    requires Attr(values, meta.pkName) in rows
    requires AllMatch(ToDjango, meta.fields, values, rows[Attr(values, meta.pkName)])
    ensures var o := EnsureSpec(None, values, rows, nextId, meta);
            o == Ensured(rows[Attr(values, meta.pkName)], false, values, None, nextId)
  {
    var start := rows[Attr(values, meta.pkName)];
    SyncFailsIffUnreadable(ToDjango, meta.fields, values, start);
    SyncModifiedIff(ToDjango, meta.fields, values, start);
  }

  /** With no paired and no stored row, a row carrying the instance's pk is built and saved. */
  lemma EnsureBuildsMissingRow(values: map<string, Value>, rows: map<Value, map<string, Value>>,
                               nextId: int, meta: ModelMeta)
    requires WellFormed(meta)
    requires Attr(values, meta.pkName) != Null && Attr(values, meta.pkName) !in rows
    requires EnsureSpec(None, values, rows, nextId, meta).error.None?
    ensures var o := EnsureSpec(None, values, rows, nextId, meta);
            && o.saved
            && Attr(o.row, meta.pkName) == Attr(values, meta.pkName)
            && o.values == values
  {
    var start := StartRow(None, values, rows, meta.pkName);
    SyncMakesMatch(ToDjango, meta.fields, values, start);
    assert PkField(meta) in meta.fields;
  }

  /**
   * A row without a pk is a creation: the pk is not compared, the row is
   * saved, and the pk it is given is written back into the instance.
   */
  lemma EnsureCreationWritesBackPk(paired: Option<map<string, Value>>, values: map<string, Value>,
                                   rows: map<Value, map<string, Value>>, nextId: int, meta: ModelMeta)
    requires WellFormed(meta)
    requires Attr(StartRow(paired, values, rows, meta.pkName), meta.pkName) == Null
    requires EnsureSpec(paired, values, rows, nextId, meta).error.None?
    ensures PkField(meta) !in ComparedFields(StartRow(paired, values, rows, meta.pkName), meta)
    ensures var o := EnsureSpec(paired, values, rows, nextId, meta);
            && o.saved
            && Attr(o.row, meta.pkName) != Null
            && o.values == values[meta.pkName := Attr(o.row, meta.pkName)]
  {
  }

  // ---------------------------------------------------------------------------
  // `add_from_django_object`
  // ---------------------------------------------------------------------------

  /** The outcome of `add_from_django_object`: the instance's values, whether it was added, and the error. */
  datatype Imported = Imported(values: map<string, Value>, added: bool, error: Option<SyncError>)

  /** `add_from_django_object` (session.py:61-104) for a Django object with attributes `obj`. */
  function AddFromSpec(docs: map<Value, map<string, Value>>, obj: map<string, Value>, meta: ModelMeta): Imported
  {
    var pk := Attr(obj, meta.pkName);
    var found := pk != Null && pk in docs;
    var start := if found then docs[pk] else map[];
    var s := Sync(FromDjango, NonPk(meta.fields, PkField(meta)), obj, start);
    if s.error.Some? then Imported(s.attrs, false, s.error)
    else
      Imported(if found then s.attrs else s.attrs[meta.pkName := pk], !found || s.modified, None)
  }

  /** After a successful call every non-pk field of the instance equals the Django object's, and so does the pk. */
  lemma AddFromCopiesFields(docs: map<Value, map<string, Value>>, obj: map<string, Value>, meta: ModelMeta)
    requires WellFormed(meta)
    requires forall pk :: pk in docs ==> Attr(docs[pk], meta.pkName) == pk
    requires AddFromSpec(docs, obj, meta).error.None?
    ensures var o := AddFromSpec(docs, obj, meta);
            && AllMatch(FromDjango, NonPk(meta.fields, PkField(meta)), obj, o.values)
            && Attr(o.values, meta.pkName) == Attr(obj, meta.pkName)
  {
    var pk := Attr(obj, meta.pkName);
    var found := pk != Null && pk in docs;
    var start := if found then docs[pk] else map[];
    var fields := NonPk(meta.fields, PkField(meta));
    var s := Sync(FromDjango, fields, obj, start);
    SyncMakesMatch(FromDjango, fields, obj, start);
    SyncFrame(FromDjango, fields, obj, start);
    forall f | f in fields
      ensures StorageName(f) != meta.pkName
    {
      PkNameIsOnlyThePk(meta, f);
    }
    assert meta.pkName !in StorageNames(fields) by {
      StorageNamesOnly(fields, meta.pkName);
    }
  }

  /** A name no field is stored under is not among the storage names. */
  lemma {:induction false} StorageNamesOnly(fields: seq<Field>, key: string)
    requires forall f :: f in fields ==> StorageName(f) != key
    ensures key !in StorageNames(fields)
    decreases |fields|
  {
    if fields != [] {
      forall f | f in fields[..|fields| - 1]
        ensures StorageName(f) != key
      {
        var i :| 0 <= i < |fields| - 1 && fields[..|fields| - 1][i] == f;
        assert fields[i] == f;
      }
      StorageNamesOnly(fields[..|fields| - 1], key);
      assert fields[|fields| - 1] in fields;
    }
  }

  /**
   * A new counterpart is always added; an existing one is added exactly when
   * some non-pk field differed from the Django object.
   */
  lemma AddFromAddsIffChanged(docs: map<Value, map<string, Value>>, obj: map<string, Value>, meta: ModelMeta)
    requires AddFromSpec(docs, obj, meta).error.None?
    ensures var pk := Attr(obj, meta.pkName);
            var o := AddFromSpec(docs, obj, meta);
            && (!(pk != Null && pk in docs) ==> o.added)
            && (pk != Null && pk in docs ==>
                  (o.added <==> !AllMatch(FromDjango, NonPk(meta.fields, PkField(meta)), obj, docs[pk]))
                  && (!o.added ==> o.values == docs[pk]))
  {
    var pk := Attr(obj, meta.pkName);
    if pk != Null && pk in docs {
      SyncModifiedIff(FromDjango, NonPk(meta.fields, PkField(meta)), obj, docs[pk]);
    }
  }

  /** The call fails exactly when the Django object lacks the attribute of some non-pk field. */
  lemma AddFromFailsIffMissing(docs: map<Value, map<string, Value>>, obj: map<string, Value>, meta: ModelMeta)
    ensures AddFromSpec(docs, obj, meta).error.None? <==>
            forall f :: f in NonPk(meta.fields, PkField(meta)) ==> StorageName(f) in obj
  {
    var pk := Attr(obj, meta.pkName);
    var start := if pk != Null && pk in docs then docs[pk] else map[];
    SyncFailsIffUnreadable(FromDjango, NonPk(meta.fields, PkField(meta)), obj, start);
  }

  /** The field loop of `_ensure_django_instance` (session.py:43-52), writing into the Django row. */
  method CopyToRow(row: DjangoObject, fields: seq<Field>, values: map<string, Value>)
    returns (modified: bool, err: Option<SyncError>)
    modifies row
    ensures var s := Sync(ToDjango, fields, values, old(row.attrs));
            row.attrs == s.attrs && modified == s.modified && err == s.error
  {
    ghost var start := row.attrs;
    modified := false;
    err := None;
    var i := 0;
    while i < |fields|
      invariant 0 <= i <= |fields|
      invariant Sync(ToDjango, fields[..i], values, start) == Synced(row.attrs, modified, None)
    {
      assert fields[..i + 1][..i] == fields[..i];
      var f := fields[i];
      var v := Read(ToDjango, f, values);
      if v.Err? {
        SyncErrorPersists(ToDjango, fields, i + 1, values, start);
        return modified, Some(v.error);
      }
      if !Matches(f, v.value, row.attrs) {
        modified := true;
        row.attrs := row.attrs[StorageName(f) := v.value];
      }
      i := i + 1;
    }
    assert fields[..i] == fields;
  }

  /** The field loop of `add_from_django_object` (session.py:78-97), writing into the stdnet instance. */
  method CopyToInstance(instance: StdnetInstance, fields: seq<Field>, obj: map<string, Value>)
    returns (modified: bool, err: Option<SyncError>)
    modifies instance
    ensures var s := Sync(FromDjango, fields, obj, old(instance.values));
            instance.values == s.attrs && modified == s.modified && err == s.error
    ensures instance.paired == old(instance.paired)
  {
    ghost var start := instance.values;
    modified := false;
    err := None;
    var i := 0;
    while i < |fields|
      invariant 0 <= i <= |fields|
      invariant Sync(FromDjango, fields[..i], obj, start) == Synced(instance.values, modified, None)
      invariant instance.paired == old(instance.paired)
    {
      assert fields[..i + 1][..i] == fields[..i];
      var f := fields[i];
      var v := Read(FromDjango, f, obj);
      if v.Err? {
        SyncErrorPersists(FromDjango, fields, i + 1, obj, start);
        return modified, Some(v.error);
      }
      if !Matches(f, v.value, instance.values) {
        modified := true;
        instance.values := instance.values[StorageName(f) := v.value];
      }
      i := i + 1;
    }
    assert fields[..i] == fields;
  }

  // ---------------------------------------------------------------------------
  // The session
  // ---------------------------------------------------------------------------

  class Session {
    /** What the base session's `add` queued: each instance with its `modified` flag. */
    var added: seq<(StdnetInstance, bool)>
    /** The pks the base session's `delete` queued. */
    var deleted: seq<Value>

    constructor ()
      ensures added == [] && deleted == []
    {
      added := [];
      deleted := [];
    }

    /** `_ensure_django_instance` (session.py:23-59). */
    method EnsureDjangoInstance(instance: StdnetInstance, table: DjangoTable, meta: ModelMeta)
      returns (r: Result<(), SyncError>)
      requires table.pkName == meta.pkName
      modifies instance, instance.paired, table
      ensures var o := EnsureSpec(if old(instance.paired) == null then None else Some(old(instance.paired.attrs)),
                                  old(instance.values), old(table.rows), old(table.nextId), meta);
              && instance.paired != null
              && instance.paired.attrs == o.row
              && instance.values == o.values
              && (r.Err? <==> o.error.Some?)
              && (r.Err? ==> r.error == o.error.value)
              && table.rows == (if o.saved then old(table.rows)[Attr(o.row, meta.pkName) := o.row] else old(table.rows))
              && table.nextId == o.nextId
              && table.saves == old(table.saves) + (if o.saved then 1 else 0)
      ensures old(instance.paired) != null ==> instance.paired == old(instance.paired)
      ensures old(instance.paired) == null ==> fresh(instance.paired)
      ensures old(table.Valid()) ==> table.Valid()
    {
      ghost var paired0 := if instance.paired == null then None else Some(instance.paired.attrs);
      var pk := Attr(instance.values, meta.pkName);
      var modified := false;
      if instance.paired == null {
        var found := table.Get(pk);
        if found == null {
          modified := true;
          found := new DjangoObject(map[meta.pkName := pk]);
        }
        instance.paired := found;
      }
      var row := instance.paired;
      ghost var start := row.attrs;
      assert start == StartRow(paired0, instance.values, table.rows, meta.pkName);
      var creation := Attr(row.attrs, meta.pkName) == Null;
      var fields := if creation then NonPk(meta.fields, PkField(meta)) else meta.fields;
      if creation {
        modified := true;
      }
      var changed, err := CopyToRow(row, fields, instance.values);
      if err.Some? {
        return Err(err.value);
      }
      modified := modified || changed;
      if modified {
        table.Save(row);
      }
      if creation {
        instance.values := instance.values[meta.pkName := Attr(row.attrs, meta.pkName)];
      }
      r := Ok(());
    }

    /**
     * `add` (session.py:13-21): an instance that is modified and bound to a
     * Django model is first copied to its Django row; then the base session
     * queues it, unless the copy failed.
     */
    method Add(instance: StdnetInstance, modified: bool, table: DjangoTable, meta: ModelMeta)
      returns (r: Result<(), SyncError>)
      requires table.pkName == meta.pkName
      modifies this, instance, instance.paired, table
      ensures !(modified && instance.bound) ==>
                && r.Ok? && added == old(added) + [(instance, modified)]
                && unchanged(instance) && unchanged(table) && (instance.paired != null ==> unchanged(instance.paired))
      ensures modified && instance.bound ==>
                var o := EnsureSpec(if old(instance.paired) == null then None else Some(old(instance.paired.attrs)),
                                    old(instance.values), old(table.rows), old(table.nextId), meta);
                && instance.paired != null && instance.paired.attrs == o.row
                && instance.values == o.values
                && table.rows == (if o.saved then old(table.rows)[Attr(o.row, meta.pkName) := o.row] else old(table.rows))
                && table.nextId == o.nextId
                && table.saves == old(table.saves) + (if o.saved then 1 else 0)
                && (r.Err? <==> o.error.Some?)
                && added == old(added) + (if r.Ok? then [(instance, modified)] else [])
      ensures deleted == old(deleted)
    {
      if modified && instance.bound {
        var e := EnsureDjangoInstance(instance, table, meta);
        if e.Err? {
          return Err(e.error);
        }
      }
      added := added + [(instance, modified)];
      r := Ok(());
    }

    /** `add_from_django_object` (session.py:61-104). */
    method AddFromDjangoObject(manager: Manager, djangoObj: DjangoObject, meta: ModelMeta)
      returns (instance: StdnetInstance, r: Result<(), SyncError>)
      modifies this
      ensures var o := AddFromSpec(manager.docs, djangoObj.attrs, meta);
              && fresh(instance)
              && instance.values == o.values
              && instance.paired == djangoObj
              && (r.Err? <==> o.error.Some?)
              && added == old(added) + (if o.added then [(instance, true)] else [])
      ensures deleted == old(deleted)
    {
      var pk := Attr(djangoObj.attrs, meta.pkName);
      var found := manager.Get(pk, true);
      var creation := found == null;
      var modified := creation;
      if found == null {
        instance := new StdnetInstance(map[], true);
      } else {
        instance := found;
      }
      var fields := NonPk(meta.fields, PkField(meta));
      instance.paired := djangoObj;
      var changed, err := CopyToInstance(instance, fields, djangoObj.attrs);
      if err.Some? {
        return instance, Err(err.value);
      }
      modified := modified || changed;
      if creation {
        instance.values := instance.values[meta.pkName := pk];
      }
      if modified {
        added := added + [(instance, true)];
      }
      r := Ok(());
    }

    /** `delete_from_django_object` (session.py:106-113): a missing counterpart is ignored. */
    method DeleteFromDjangoObject(manager: Manager, djangoObj: DjangoObject, meta: ModelMeta)
      modifies this
      ensures var pk := Attr(djangoObj.attrs, meta.pkName);
              deleted == old(deleted) + (if pk != Null && pk in manager.docs then [pk] else [])
      ensures added == old(added)
    {
      var pk := Attr(djangoObj.attrs, meta.pkName);
      var instance := manager.Get(pk, true);
      if instance != null {
        deleted := deleted + [pk];
      }
    }
  }
}
