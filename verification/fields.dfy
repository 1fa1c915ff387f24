/**
 * The one-to-one relation field of src/djangostdnet/fields.py:8-170:
 * construction, reverse-name registration on the related model, the `_id`
 * storage name, value conversion, `__`-separated lookups, and assignment
 * through the reverse accessor `LazyOneToOneField.__set__`.
 */
module Fields {
  import opened Wrappers
  import opened Values

  datatype FieldError =
    | ModelNotSpecified                 // `odm.FieldError('Model not specified')`
    | DuplicatedRelatedName(name: string)

  /** `get_attname` (fields.py:112-113): the attribute holding the related pk. */
  function AttName(name: string): (r: string)
    ensures |r| == |name| + 3 && r[..|name|] == name && r[|name|..] == "_id"
  {
    name + "_id"
  }

  /** Distinct fields never share a storage attribute. */
  lemma AttNameInjective(a: string, b: string)
    requires AttName(a) == AttName(b)
    ensures a == b
  {
    assert |a| == |b|;
    assert a == AttName(a)[..|a|];
  }

  /**
   * The reverse accessor's name (fields.py:96-97): the explicit `related_name`
   * unless it is falsy, else `<owning model name>_<field name>`.
   */
  function ReverseName(relatedName: Option<string>, ownerName: string, fieldName: string): (r: string)
    ensures relatedName.Some? && relatedName.value != "" ==> r == relatedName.value
    ensures relatedName.None? || relatedName.value == "" ==>
              && |r| == |ownerName| + 1 + |fieldName|
              && r[..|ownerName|] == ownerName && r[|ownerName|] == '_' && r[|ownerName| + 1..] == fieldName
  {
    if relatedName.None? || relatedName.value == "" then ownerName + "_" + fieldName else relatedName.value
  }

  /** Two fields of one model get distinct default reverse names. */
  lemma DefaultReverseNamesDistinct(ownerName: string, f1: string, f2: string)
    requires f1 != f2
    ensures ReverseName(None, ownerName, f1) != ReverseName(None, ownerName, f2)
  {
    var n := |ownerName| + 1;
    assert (ownerName + "_" + f1)[n..] == f1;
    assert (ownerName + "_" + f2)[n..] == f2;
  }

  /**
   * Default names of fields of different models can clash: such a pair is
   * then rejected as a duplicated related name by `SetRelmodel`.
   */
  lemma DefaultReverseNamesCanClash()
    ensures ReverseName(None, "a_b", "c") == ReverseName(None, "a", "b_c")
  {
  }

  /** The default reverse name of tests/fields.py:95. */
  lemma DefaultReverseNameExample()
    ensures ReverseName(None, "achildmodel", "parent") == "achildmodel_parent"
  {
  }

  /** An entry of a model's `_meta.related`: the reverse accessor installed by a one-to-one field. */
  datatype ReverseAccessor = ReverseAccessor(ownerModel: string, fieldName: string)

  /** The parts of a stdnet model's `_meta` that reverse registration reads and writes. */
  class ModelMeta {
    const name: string
    var dfields: set<string>
    var related: map<string, ReverseAccessor>

    constructor (name: string, dfields: set<string>)
      ensures this.name == name && this.dfields == dfields && related == map[]
    {
      this.name := name;
      this.dfields := dfields;
      related := map[];
    }
  }

  class OneToOneField {
    /** The field's name and its owning model's name, set when the field is attached to that model. */
    var name: string
    var ownerName: string
    /** The related model, by name until it is resolved. */
    var relmodel: string
    var relatedName: Option<string>
    /** `relmodel_manager`: the reverse accessor, once installed. */
    var reverse: Option<ReverseAccessor>

    constructor (name: string, ownerName: string, relmodel: string, relatedName: Option<string>)
      ensures this.name == name && this.ownerName == ownerName
      ensures this.relmodel == relmodel && this.relatedName == relatedName && reverse == None
    {
      this.name := name;
      this.ownerName := ownerName;
      this.relmodel := relmodel;
      this.relatedName := relatedName;
      reverse := None;
    }

    /**
     * `_set_relmodel` and `_register_with_related_model` (fields.py:93-110):
     * fill in the default reverse name, then install the reverse accessor on
     * the related model unless that name is already a related name or a field
     * of it.
     */
    method SetRelmodel(meta: ModelMeta) returns (r: Result<(), FieldError>)
      modifies this, meta
      ensures name == old(name) && ownerName == old(ownerName)
      ensures relmodel == meta.name
      ensures relatedName == Some(ReverseName(old(relatedName), ownerName, name))
      ensures meta.dfields == old(meta.dfields)
      ensures r.Err? <==> relatedName.value in old(meta.related) || relatedName.value in meta.dfields
      ensures r.Err? ==> r.error == DuplicatedRelatedName(relatedName.value)
      ensures r.Err? ==> meta.related == old(meta.related) && reverse == old(reverse)
      ensures r.Ok? ==> meta.related == old(meta.related)[relatedName.value := ReverseAccessor(ownerName, name)]
      ensures r.Ok? ==> reverse == Some(ReverseAccessor(ownerName, name))
    {
      relmodel := meta.name;
      if relatedName.None? || relatedName.value == "" {
        relatedName := Some(ownerName + "_" + name);
      }
      var rn := relatedName.value;
      if rn !in meta.related && rn !in meta.dfields {
        var accessor := ReverseAccessor(ownerName, name);
        meta.related := meta.related[rn := accessor];
        reverse := Some(accessor);
        r := Ok(());
      } else {
        r := Err(DuplicatedRelatedName(rn));
      }
    }
  }

  /**
   * `OneToOneField.__init__` (fields.py:81-86), with the field attached to
   * model `ownerName` under `name`: a falsy `model` raises a FieldError.
   */
  method NewOneToOneField(name: string, ownerName: string, model: Option<string>, relatedName: Option<string>)
    returns (r: Result<OneToOneField, FieldError>)
    ensures r.Err? <==> model.None? || model.value == ""
    ensures r.Err? ==> r.error == ModelNotSpecified
    ensures r.Ok? ==> fresh(r.value) && r.value.relmodel == model.value && r.value.relatedName == relatedName
    ensures r.Ok? ==> r.value.name == name && r.value.ownerName == ownerName && r.value.reverse == None
  {
    if model.None? || model.value == "" {
      return Err(ModelNotSpecified);
    }
    var f := new OneToOneField(name, ownerName, model.value, relatedName);
    r := Ok(f);
  }

  /** A value given to `to_python`: an instance of some model (with its pk), or a plain value. */
  datatype PyValue = Instance(model: string, pk: Value) | Plain(v: Value)

  predicate PyTruthy(v: PyValue)
  {
    v.Instance? || Truthy(v.v)
  }

  /**
   * `to_python` (fields.py:137-143): an instance of the related model becomes
   * its pk; any other truthy value goes through the related pk field's own
   * `to_python`, the parameter `pkToPython`; a falsy value is returned as is.
   */
  function ToPython(v: PyValue, relmodel: string, pkToPython: PyValue -> PyValue): (r: PyValue)
    ensures v.Instance? && v.model == relmodel ==> r == Plain(v.pk)
    ensures !PyTruthy(v) ==> r == v
    ensures PyTruthy(v) && !(v.Instance? && v.model == relmodel) ==> r == pkToPython(v)
  {
    if v.Instance? && v.model == relmodel then Plain(v.pk)
    else if PyTruthy(v) then pkToPython(v)
    else v
  }

  /** When the pk field leaves plain values alone, `to_python` is idempotent. */
  lemma ToPythonIdempotent(v: PyValue, relmodel: string, pkToPython: PyValue -> PyValue)
    requires forall x: PyValue :: x.Plain? && PyTruthy(x) ==> pkToPython(x) == x
    requires v.Instance? ==> v.model == relmodel
    ensures ToPython(ToPython(v, relmodel, pkToPython), relmodel, pkToPython) == ToPython(v, relmodel, pkToPython)
  {
  }

  // ---------------------------------------------------------------------------
  // Lookups through a one-to-one field
  // ---------------------------------------------------------------------------

  /** A field of a model's `dfields`: a plain field, or a one-to-one field to another model. */
  datatype FieldDesc = PlainField | OneToOneDesc(relmodel: string)

  /** Model name -> the model's fields by name. */
  type Schema = map<string, map<string, FieldDesc>>

  /** Every one-to-one field points at a model of the schema. */
  predicate Closed(schema: Schema)
  {
    forall m, f :: m in schema && f in schema[m] && schema[m][f].OneToOneDesc? ==> schema[m][f].relmodel in schema
  }

  /** The lookup separator `JSPLITTER`, `__`, starts at index `j` of `s`. */
  predicate SepAt(s: string, j: int)
  {
    0 <= j && j + 1 < |s| && s[j] == '_' && s[j + 1] == '_'
  }

  /** `s` holds no separator. */
  predicate NoSep(s: string)
  {
    forall j :: 0 <= j < |s| ==> !SepAt(s, j)
  }

  /** The first index at or after `from` where a separator starts, or `|s|` when there is none. */
  function FindSep(s: string, from: nat): (k: nat)
    requires from <= |s|
    ensures from <= k <= |s|
    ensures k < |s| ==> SepAt(s, k)
    ensures forall j :: from <= j < k ==> !SepAt(s, j)
    decreases |s| - from
  {
    if from == |s| then |s|
    else if SepAt(s, from) then from
    else FindSep(s, from + 1)
  }

  /**
   * `bits = name.split('__'); fname = bits.pop(0); remaining = '__'.join(bits)`:
   * the text before the first separator, and everything after it.
   */
  function SplitFirst(s: string): (r: (string, string))
    ensures r.0 == s[..FindSep(s, 0)]
    ensures NoSep(r.0)
    ensures !NoSep(s) ==> s == r.0 + "__" + r.1
    ensures NoSep(s) ==> r == (s, "")
    ensures |r.1| < |s| || s == ""
  {
    var k := FindSep(s, 0);
    assert forall j :: SepAt(s[..k], j) ==> SepAt(s, j);
    if k < |s| then (s[..k], s[k + 2..]) else (s, "")
  }

  /** Like Python's `split('__')`, the first separator is the leftmost pair of underscores. */
  lemma SplitFirstLeftmost()
    ensures SplitFirst("a___b") == ("a", "_b")
  {
    assert SepAt("a___b", 1);
    assert !SepAt("a___b", 0);
    assert FindSep("a___b", 0) == 1;
    var s := "a___b";
    assert s[..1] == "a" && s[3..] == "_b";
  }

  /** A lookup's result: the storage name of the last field and the `(attname, meta)` hops to reach it. */
  datatype Lookup = Lookup(name: string, nested: seq<(string, string)>)

  datatype LookupError =
    | NotAField(segment: string, model: string)  // `'%s not a valid field for %s'`
    | NestedOnPlainField(field: string)          // a plain field given a nested path

  /** The number of `__`-separated segments a lookup consumes. */
  function Segments(name: string): nat
    decreases |name|
  {
    if name == "" then 0 else 1 + Segments(SplitFirst(name).1)
  }

  /**
   * `get_lookup` of the one-to-one field `fieldName` to model `relmodel`
   * (fields.py:154-170).  Sub-fields of the related model resolve the rest of
   * the path through their own `get_lookup`: a one-to-one sub-field
   * recursively, a plain one by stdnet's base rule (its storage name, and no
   * nested path allowed).  An empty path is the base rule for this field.
   */
  function GetLookup(fieldName: string, relmodel: string, name: string, schema: Schema): (r: Result<Lookup, LookupError>)
    requires relmodel in schema && Closed(schema)
    ensures name == "" ==> r == Ok(Lookup(AttName(fieldName), []))
    ensures r.Ok? ==> |r.value.nested| == Segments(name)
    ensures r.Ok? && name != "" ==> r.value.nested[0] == (AttName(fieldName), relmodel)
    ensures r.Ok? ==> forall k :: 0 <= k < |r.value.nested| ==> r.value.nested[k].1 in schema
    ensures name != "" && SplitFirst(name).0 !in schema[relmodel] ==>
              r == Err(NotAField(SplitFirst(name).0, relmodel))
    // a plain sub-field ends the path, and accepts no nested path
    ensures var (fname, rest) := SplitFirst(name);
            name != "" && fname in schema[relmodel] && schema[relmodel][fname].PlainField? ==>
              r == (if rest == "" then Ok(Lookup(fname, [(AttName(fieldName), relmodel)]))
                    else Err(NestedOnPlainField(fname)))
    // a one-to-one sub-field resolves the rest of the path, after the hop through this field
    ensures var (fname, rest) := SplitFirst(name);
            name != "" && fname in schema[relmodel] && schema[relmodel][fname].OneToOneDesc? ==>
              var inner := GetLookup(fname, schema[relmodel][fname].relmodel, rest, schema);
              && (r.Ok? <==> inner.Ok?)
              && (r.Err? ==> r.error == inner.error)
              && (r.Ok? ==> r.value.name == inner.value.name && r.value.nested[1..] == inner.value.nested)
    decreases |name|
  {
    if name == "" then Ok(Lookup(AttName(fieldName), []))
    else
      var (fname, remaining) := SplitFirst(name);
      if fname !in schema[relmodel] then Err(NotAField(fname, relmodel))
      else
        var inner :-
          match schema[relmodel][fname]
          case PlainField =>
            if remaining == "" then Ok(Lookup(fname, [])) else Err(NestedOnPlainField(fname))
          case OneToOneDesc(sub) =>
            GetLookup(fname, sub, remaining, schema);
        assert inner.nested == [] ==> [(AttName(fieldName), relmodel)] + inner.nested == [(AttName(fieldName), relmodel)];
        Ok(Lookup(inner.name, [(AttName(fieldName), relmodel)] + inner.nested))
  }

  /** `parent__name` through `parent` to a plain `name` (tests/fields/one_to_one_field.py:102). */
  lemma LookupThroughOneHop(schema: Schema, fieldName: string, relmodel: string, sub: string)
    requires relmodel in schema && Closed(schema)
    requires sub != "" && NoSep(sub)
    requires sub in schema[relmodel] && schema[relmodel][sub] == PlainField
    ensures GetLookup(fieldName, relmodel, sub, schema) == Ok(Lookup(sub, [(AttName(fieldName), relmodel)]))
  {
    assert SplitFirst(sub) == (sub, "");
    assert Segments("") == 0;
    assert [(AttName(fieldName), relmodel)] + [] == [(AttName(fieldName), relmodel)];
  }

  /**
   * A nested path through a plain field fails.  The field name must not end
   * in `_`, or the first separator would start inside it.
   */
  lemma NoLookupThroughPlainField(schema: Schema, fieldName: string, relmodel: string, first: string, rest: string)
    requires relmodel in schema && Closed(schema)
    requires first != "" && rest != "" && NoSep(first) && first[|first| - 1] != '_'
    requires first in schema[relmodel] && schema[relmodel][first] == PlainField
    ensures GetLookup(fieldName, relmodel, first + "__" + rest, schema) == Err(NestedOnPlainField(first))
  {
    var s := first + "__" + rest;
    assert SepAt(s, |first|);
    assert forall j :: 0 <= j < |first| ==> !SepAt(s, j) by {
      forall j | 0 <= j < |first|
        ensures !SepAt(s, j)
      {
        if j + 1 < |first| {
          assert !SepAt(first, j);
        }
      }
    }
    assert FindSep(s, 0) == |first|;
    assert s[..|first|] == first && s[|first| + 2..] == rest;
    assert SplitFirst(s) == (first, rest);
  }

  // ---------------------------------------------------------------------------
  // Assignment through the reverse accessor
  // ---------------------------------------------------------------------------

  /** A model instance: its pk, its stored attributes and its cached related objects by field name. */
  class ModelInstance {
    const model: string
    var pk: Value
    var attrs: map<string, Value>
    var caches: map<string, ModelInstance>

    constructor (model: string, pk: Value)
      ensures this.model == model && this.pk == pk && attrs == map[] && caches == map[]
    {
      this.model := model;
      this.pk := pk;
      attrs := map[];
      caches := map[];
    }
  }

  datatype AssignError =
    | AccessedViaClass   // AttributeError: the accessor was used on the class
    | NotAnInstance      // ValueError: the value is not an instance of the owning model
    | AssignedNone       // AttributeError: `setattr(None, ...)` after the type check

  /**
   * `LazyOneToOneField.__set__` (fields.py:27-40): assigning `value` to the
   * reverse accessor of `field` on `instance` (an instance of the related
   * model).  `value` must be an instance of the field's owning model; it then
   * stores `instance`'s pk under the field's `_id` name and the two objects
   * cache each other.  `None` passes the type check but the first `setattr`
   * on it fails.  Every failure leaves both objects unchanged.
   */
  method AssignReverse(field: OneToOneField, instance: ModelInstance?, value: ModelInstance?)
    returns (r: Result<(), AssignError>)
    modifies instance, value
    ensures instance == null ==> r == Err(AccessedViaClass)
    ensures instance != null && value != null && value.model != field.ownerName ==> r == Err(NotAnInstance)
    ensures instance != null && value == null ==> r == Err(AssignedNone)
    ensures r.Ok? <==> instance != null && value != null && value.model == field.ownerName
    ensures r.Err? ==> instance != null ==> unchanged(instance)
    ensures r.Err? ==> value != null ==> unchanged(value)
    ensures r.Ok? ==> && value.attrs == old(value.attrs)[AttName(field.name) := old(instance.pk)]
                      && value.caches == old(value.caches)[field.name := instance]
                      && instance.caches == old(instance.caches)[field.name := value]
                      && instance.pk == old(instance.pk) && value.pk == old(value.pk)
                      && (instance != value ==> instance.attrs == old(instance.attrs))
  {
    if instance == null {
      return Err(AccessedViaClass);
    }
    if value != null && value.model != field.ownerName {
      return Err(NotAnInstance);
    }
    if value == null {
      return Err(AssignedNone);
    }
    value.attrs := value.attrs[AttName(field.name) := instance.pk];
    value.caches := value.caches[field.name := instance];
    instance.caches := instance.caches[field.name := value];
    r := Ok(());
  }
}
