/**
 * Schema projection of src/djangostdnet/models.py: the open table that maps
 * Django field classes to stdnet field classes (lines 24-41) and the loop in
 * `ModelMeta.__new__` that derives one stdnet field per Django field
 * (lines 126-167).
 */
module Projection {
  import opened Wrappers

  /** Django field classes with a built-in rule; any other class is known by its name. */
  datatype DjangoFieldClass =
    | AutoField | CharField | IntegerField | FloatField | BooleanField
    | DateField | DateTimeField | ForeignKey | ManyToManyField | OneToOneField
    | ImageField | IPAddressField
    | OtherClass(className: string)

  /** The class's `__name__`, which the warning for an unmapped field names. */
  function ClassName(c: DjangoFieldClass): string
  {
    match c
    case AutoField => "AutoField"
    case CharField => "CharField"
    case IntegerField => "IntegerField"
    case FloatField => "FloatField"
    case BooleanField => "BooleanField"
    case DateField => "DateField"
    case DateTimeField => "DateTimeField"
    case ForeignKey => "ForeignKey"
    case ManyToManyField => "ManyToManyField"
    case OneToOneField => "OneToOneField"
    case ImageField => "ImageField"
    case IPAddressField => "IPAddressField"
    case OtherClass(n) => n
  }

  /**
   * stdnet field classes: those of `stdnet.odm`, the three of
   * src/djangostdnet/fields.py, and any other (plain) field class by name.
   */
  datatype StdnetFieldClass =
    | StdAutoId | StdSymbol | StdChar | StdInteger | StdFloat | StdBoolean
    | StdDate | StdDateTime | StdForeignKey | StdManyToMany | StdOneToOne
    | StdImage | StdIPAddress
    | StdOther(className: string)

  /** The classes the projection treats as relations (models.py:142-144). */
  predicate IsRelationClass(k: StdnetFieldClass)
  {
    k == StdForeignKey || k == StdOneToOne || k == StdManyToMany
  }

  /** `field.rel` of a relation field: the related model, its `related_name` and `through` model. */
  datatype Rel = Rel(to: int, relatedName: Option<string>, through: int)

  /** The attributes of a Django field that the projection reads. */
  datatype DjangoField = DjangoField(
    name: string,
    cls: DjangoFieldClass,
    blank: bool,
    nullable: bool,
    dbIndex: bool,
    unique: bool,
    primaryKey: bool,
    concrete: bool,
    rel: Option<Rel>,
    uploadTo: string)

  /** The keyword arguments every generated field receives (models.py:134-139). */
  datatype FieldParams = FieldParams(required: bool, index: bool, unique: bool, primaryKey: bool)

  /** A generated stdnet field: its class and the arguments it is constructed with. */
  datatype StdnetField = StdnetField(
    cls: StdnetFieldClass,
    params: FieldParams,
    relModel: Option<int>,
    relatedName: Option<string>,
    uploadTo: Option<string>)

  /** A value of the mapping table: a stdnet field class, or a callable choosing one from the field. */
  datatype Rule =
    | FieldClassRule(target: StdnetFieldClass)
    | CallableRule(choose: DjangoField -> StdnetFieldClass)

  /** An entry of `mapper.registered_models`: a stdnet model and the Django model it mirrors, if any. */
  datatype RegisteredModel = RegisteredModel(model: int, djangoModel: Option<int>)

  datatype ProjectionError =
    | ImplicitRelation(fieldName: string)  // ValueError: not exactly one mirroring model
    | MissingRel(fieldName: string)        // AttributeError: `field.rel` is None
    | MissingModelArgument(fieldName: string)  // TypeError: a relation class called without its model

  /** The CharField rule (models.py:26): indexed or primary-key text becomes a SymbolField. */
  function CharFieldTarget(f: DjangoField): StdnetFieldClass
  {
    if f.dbIndex || f.primaryKey then StdSymbol else StdChar
  }

  /** The built-in table `_mapping` (models.py:24-37). */
  function DefaultMapping(): (r: map<DjangoFieldClass, Rule>)
    ensures forall c :: c in r <==> !c.OtherClass?
    ensures r[CharField] == CallableRule(CharFieldTarget)
    ensures forall c :: c in r && c != CharField ==> r[c].FieldClassRule?
  {
    map[
      AutoField := FieldClassRule(StdAutoId),
      CharField := CallableRule(CharFieldTarget),
      IntegerField := FieldClassRule(StdInteger),
      FloatField := FieldClassRule(StdFloat),
      BooleanField := FieldClassRule(StdBoolean),
      DateField := FieldClassRule(StdDate),
      DateTimeField := FieldClassRule(StdDateTime),
      ForeignKey := FieldClassRule(StdForeignKey),
      ManyToManyField := FieldClassRule(StdManyToMany),
      OneToOneField := FieldClassRule(StdOneToOne),
      ImageField := FieldClassRule(StdImage),
      IPAddressField := FieldClassRule(StdIPAddress)
    ]
  }

  /** The process-wide mapping table, open to `register_field_mapping`. */
  class FieldMapping {
    var rules: map<DjangoFieldClass, Rule>

    constructor ()
      ensures rules == DefaultMapping()
    {
      rules := DefaultMapping();
    }

    /** `register_field_mapping` (models.py:40-41): adds or replaces one rule. */
    method RegisterFieldMapping(djangoField: DjangoFieldClass, rule: Rule)
      modifies this
      ensures rules == old(rules)[djangoField := rule]
    {
      rules := rules[djangoField := rule];
    }
  }

  function ParamsOf(f: DjangoField): FieldParams
  {
    FieldParams(!(f.blank || f.nullable), f.dbIndex, f.unique, f.primaryKey)
  }

  /** Entry `i` of `registered` is a stdnet model mirroring Django model `to`. */
  predicate MirrorAt(registered: seq<RegisteredModel>, to: int, i: int)
  {
    0 <= i < |registered| && registered[i].djangoModel == Some(to)
  }

  /**
   * The registered stdnet models that mirror Django model `to`, in
   * registration order (models.py:146-147).  `MirrorsNone` and
   * `MirrorsSingle` relate its length to the mirroring positions.
   */
  function Mirrors(registered: seq<RegisteredModel>, to: int): (r: seq<RegisteredModel>)
    ensures forall m :: m in r <==> m in registered && m.djangoModel == Some(to)
    ensures |r| <= |registered|
  {
    if |registered| == 0 then []
    else
      Mirrors(registered[..|registered| - 1], to)
      + (if registered[|registered| - 1].djangoModel == Some(to) then [registered[|registered| - 1]] else [])
  }

  /** Position `i` is the only position of `registered` that mirrors `to`. */
  ghost predicate UniqueMirror(registered: seq<RegisteredModel>, to: int, i: int)
  {
    MirrorAt(registered, to, i) && forall j :: MirrorAt(registered, to, j) ==> j == i
  }

  /** No mirror is found exactly when no registered model mirrors `to`. */
  lemma MirrorsNone(registered: seq<RegisteredModel>, to: int)
    ensures |Mirrors(registered, to)| == 0 <==> forall i :: !MirrorAt(registered, to, i)
  {
    var r := Mirrors(registered, to);
    if |r| > 0 {
      assert r[0] in r;
      var k :| 0 <= k < |registered| && registered[k] == r[0];
      assert MirrorAt(registered, to, k);
    } else {
      forall i | 0 <= i < |registered| ensures registered[i].djangoModel != Some(to) {
        assert registered[i] in registered;
      }
    }
  }

  /**
   * Exactly one mirror is found exactly when one position of `registered`
   * mirrors `to`, and that mirror is the model at the position.
   */
  lemma {:induction false} MirrorsSingle(registered: seq<RegisteredModel>, to: int)
    ensures |Mirrors(registered, to)| == 1 <==> exists i :: UniqueMirror(registered, to, i)
    ensures |Mirrors(registered, to)| == 1 ==>
              forall i :: MirrorAt(registered, to, i) ==> Mirrors(registered, to)[0] == registered[i]
    decreases |registered|
  {
    if |registered| > 0 {
      var n := |registered| - 1;
      var front := registered[..n];
      var rf := Mirrors(front, to);
      var r := Mirrors(registered, to);
      MirrorsNone(front, to);
      MirrorsSingle(front, to);
      forall i ensures MirrorAt(registered, to, i) <==> MirrorAt(front, to, i) || (i == n && registered[n].djangoModel == Some(to)) {
        if 0 <= i < n { assert registered[i] == front[i]; }
      }
      if registered[n].djangoModel == Some(to) {
        MirrorsSingleLast(registered, front, to, rf, r);
      } else {
        assert r == rf;
        forall i ensures UniqueMirror(registered, to, i) <==> UniqueMirror(front, to, i) { }
        if |r| == 1 {
          var i :| UniqueMirror(front, to, i);
          assert UniqueMirror(registered, to, i);
        }
      }
    }
  }

  /** The step of `MirrorsSingle` where the last registered model is a mirror. */
  lemma MirrorsSingleLast(registered: seq<RegisteredModel>, front: seq<RegisteredModel>, to: int,
                          rf: seq<RegisteredModel>, r: seq<RegisteredModel>)
    requires |registered| > 0 && front == registered[..|registered| - 1]
    requires registered[|registered| - 1].djangoModel == Some(to)
    requires r == rf + [registered[|registered| - 1]]
    requires forall i :: MirrorAt(registered, to, i) <==> MirrorAt(front, to, i) || i == |registered| - 1
    requires |rf| == 0 <==> forall i :: !MirrorAt(front, to, i)
    ensures |r| == 1 <==> exists i :: UniqueMirror(registered, to, i)
    ensures |r| == 1 ==> forall i :: MirrorAt(registered, to, i) ==> r[0] == registered[i]
  {
    var n := |registered| - 1;
    if |rf| == 0 {
      assert UniqueMirror(registered, to, n);
    } else {
      var k :| MirrorAt(front, to, k);
      assert MirrorAt(registered, to, k) && MirrorAt(registered, to, n) && k != n;
      forall i ensures !UniqueMirror(registered, to, i) {
        if i == n { assert MirrorAt(registered, to, k); } else { assert MirrorAt(registered, to, n); }
      }
    }
  }

  /** Some registered stdnet model mirrors a Django model. */
  predicate AnyMirror(registered: seq<RegisteredModel>)
  {
    exists i :: 0 <= i < |registered| && registered[i].djangoModel.Some?
  }

  /** The stdnet class a rule picks for a field: the class itself, or what the callable returns. */
  function RuleTarget(rule: Rule, f: DjangoField): StdnetFieldClass
  {
    match rule
    case FieldClassRule(k) => k
    case CallableRule(choose) => choose(f)
  }

  /** A rule that is a relation class, which the loop gives the mirroring stdnet model (models.py:142-144). */
  predicate RelationRule(rule: Rule)
  {
    rule.FieldClassRule? && IsRelationClass(rule.target)
  }

  /** The outcome of projecting one field that was not skipped. */
  datatype Step =
    | Generated(field: StdnetField, through: Option<int>)
    | Unsupported(className: string)

  /** One iteration of the projection loop on a field that is not skipped (models.py:134-167). */
  function ProjectOne(f: DjangoField, mapping: map<DjangoFieldClass, Rule>, registered: seq<RegisteredModel>)
    : (r: Result<Step, ProjectionError>)
    ensures r.Ok? && r.value.Unsupported? <==> f.cls !in mapping
    ensures r.Ok? && r.value.Unsupported? ==> r.value.className == ClassName(f.cls)
    // every generated field has the rule's class and the derived keyword arguments
    ensures r.Ok? && r.value.Generated? ==>
              && f.cls in mapping
              && r.value.field.cls == RuleTarget(mapping[f.cls], f)
              && r.value.field.params.required == !(f.blank || f.nullable)
              && r.value.field.params.index == f.dbIndex
              && r.value.field.params.unique == f.unique
              && r.value.field.params.primaryKey == f.primaryKey
    // `upload_to` is passed only when the rule is the image class itself
    ensures r.Ok? && r.value.Generated? ==>
              r.value.field.uploadTo == (if mapping[f.cls] == FieldClassRule(StdImage) then Some(f.uploadTo) else None)
    // the error cases: a relation without exactly one mirror, or a callable choosing a relation class
    ensures r.Err? <==>
              && f.cls in mapping
              && (|| (RelationRule(mapping[f.cls]) && !(f.rel.Some? && |Mirrors(registered, f.rel.value.to)| == 1))
                  || (mapping[f.cls].CallableRule? && IsRelationClass(RuleTarget(mapping[f.cls], f))))
    ensures f.cls in mapping && RelationRule(mapping[f.cls]) && f.rel.None? ==>
              r == (if AnyMirror(registered) then Err(MissingRel(f.name)) else Err(ImplicitRelation(f.name)))
    ensures f.cls in mapping && mapping[f.cls].CallableRule? && IsRelationClass(RuleTarget(mapping[f.cls], f)) ==>
              r == Err(MissingModelArgument(f.name))
    // a relation points at its one mirror; a many-to-many field also carries `related_name` and `through`
    ensures r.Ok? && r.value.Generated? && RelationRule(mapping[f.cls]) ==>
              && f.rel.Some?
              && (forall i :: MirrorAt(registered, f.rel.value.to, i) ==> r.value.field.relModel == Some(registered[i].model))
              && r.value.field.relatedName == (if f.cls == ManyToManyField then f.rel.value.relatedName else None)
              && r.value.through == (if f.cls == ManyToManyField then Some(f.rel.value.through) else None)
    ensures r.Ok? && r.value.Generated? && !RelationRule(mapping[f.cls]) ==>
              r.value.field.relModel.None? && r.value.field.relatedName.None? && r.value.through.None?
  {
    if f.cls !in mapping then Ok(Unsupported(ClassName(f.cls)))
    else
      match mapping[f.cls]
      case FieldClassRule(k) =>
        if IsRelationClass(k) then
          // `field.rel.to` is only evaluated against registered models that mirror a Django model
          if f.rel.None? then (if AnyMirror(registered) then Err(MissingRel(f.name)) else Err(ImplicitRelation(f.name)))
          else
            var rels := Mirrors(registered, f.rel.value.to);
            MirrorsSingle(registered, f.rel.value.to);
            if |rels| != 1 then Err(ImplicitRelation(f.name))
            else
              var manyToMany := f.cls == ManyToManyField;
              Ok(Generated(
                   StdnetField(k, ParamsOf(f), Some(rels[0].model),
                               if manyToMany then f.rel.value.relatedName else None, None),
                   if manyToMany then Some(f.rel.value.through) else None))
        else if k == StdImage then
          Ok(Generated(StdnetField(k, ParamsOf(f), None, None, Some(f.uploadTo)), None))
        else
          Ok(Generated(StdnetField(k, ParamsOf(f), None, None, None), None))
      case CallableRule(choose) =>
        // the chosen class is called with the keyword arguments only: a relation class lacks its model
        if IsRelationClass(choose(f)) then Err(MissingModelArgument(f.name))
        else Ok(Generated(StdnetField(choose(f), ParamsOf(f), None, None, None), None))
  }

  /** The fields generated so far, the warnings logged and the `through` models of many-to-many fields. */
  datatype Projection = Projection(generated: map<string, StdnetField>, warnings: seq<string>, through: map<string, int>)

  /** One pass of the loop body: skip, generate, or warn (models.py:127-167). */
  function Advance(p: Projection, f: DjangoField, declared: set<string>,
                   mapping: map<DjangoFieldClass, Rule>, registered: seq<RegisteredModel>)
    : Result<Projection, ProjectionError>
  {
    if f.name in declared || f.name in p.generated || !f.concrete then Ok(p)
    else
      match ProjectOne(f, mapping, registered)
      case Err(e) => Err(e)
      case Ok(Generated(sf, t)) =>
        Ok(Projection(p.generated[f.name := sf], p.warnings,
                      if t.Some? then p.through[f.name := t.value] else p.through))
      case Ok(Unsupported(n)) => Ok(p.(warnings := p.warnings + [n]))
  }

  /** The whole loop as a left fold over the Django model's fields. */
  function ProjectAll(fields: seq<DjangoField>, declared: set<string>,
                      mapping: map<DjangoFieldClass, Rule>, registered: seq<RegisteredModel>)
    : Result<Projection, ProjectionError>
    decreases |fields|
  {
    if |fields| == 0 then Ok(Projection(map[], [], map[]))
    else
      var p :- ProjectAll(fields[..|fields| - 1], declared, mapping, registered);
      Advance(p, fields[|fields| - 1], declared, mapping, registered)
  }

  /** The names of the metaclass's own entries in the class dictionary before the loop (models.py:120-124). */
  const MetaclassNames: set<string> := {"Meta", "_django_meta", "__getattr__", "_instance"}

  /**
   * The projection loop of `ModelMeta.__new__` (models.py:126-167).
   * `declared` holds the names already in the class dictionary: the fields the
   * stdnet model declares itself together with `MetaclassNames`.
   */
  method ProjectFields(fields: seq<DjangoField>, declared: set<string>,
                       mapping: map<DjangoFieldClass, Rule>, registered: seq<RegisteredModel>)
    returns (r: Result<Projection, ProjectionError>)
    requires MetaclassNames <= declared
    ensures r == ProjectAll(fields, declared, mapping, registered)
    ensures r.Ok? ==> r.value.generated.Keys !! declared
  {
    var generated: map<string, StdnetField> := map[];
    var warnings: seq<string> := [];
    var through: map<string, int> := map[];
    var i := 0;
    while i < |fields|
      invariant 0 <= i <= |fields|
      invariant ProjectAll(fields[..i], declared, mapping, registered) == Ok(Projection(generated, warnings, through))
      invariant generated.Keys !! declared
    {
      var f := fields[i];
      assert fields[..i + 1][..i] == fields[..i];
      if f.name in declared || f.name in generated || !f.concrete {
        i := i + 1;
        continue;
      }
      var step := ProjectOne(f, mapping, registered);
      if step.Err? {
        ErrorPersists(fields, i + 1, declared, mapping, registered);
        assert fields[..|fields|] == fields;
        return Err(step.error);
      }
      match step.value {
        case Generated(sf, t) =>
          generated := generated[f.name := sf];
          if t.Some? {
            through := through[f.name := t.value];
          }
        case Unsupported(n) =>
          warnings := warnings + [n];
      }
      i := i + 1;
    }
    assert fields[..|fields|] == fields;
    r := Ok(Projection(generated, warnings, through));
  }

  /** An error raised while projecting a prefix ends the whole loop with that error. */
  lemma {:induction false} ErrorPersists(fields: seq<DjangoField>, n: nat, declared: set<string>,
                                          mapping: map<DjangoFieldClass, Rule>, registered: seq<RegisteredModel>)
    requires n <= |fields|
    requires ProjectAll(fields[..n], declared, mapping, registered).Err?
    ensures ProjectAll(fields, declared, mapping, registered) == ProjectAll(fields[..n], declared, mapping, registered)
    decreases |fields| - n
  {
    if n == |fields| {
      assert fields[..n] == fields;
    } else {
      assert fields[..|fields| - 1][..n] == fields[..n];
      ErrorPersists(fields[..|fields| - 1], n, declared, mapping, registered);
    }
  }

  // ---------------------------------------------------------------------------
  // Properties of the whole projection
  // ---------------------------------------------------------------------------

  predicate DistinctNames(fields: seq<DjangoField>)
  {
    forall i, j :: 0 <= i < j < |fields| ==> fields[i].name != fields[j].name
  }

  /** A field the loop does not skip: not already in the class dictionary, and concrete. */
  predicate Eligible(f: DjangoField, declared: set<string>)
  {
    f.name !in declared && f.concrete
  }

  /** Reference definition of the warnings: the class names of eligible unmapped fields, in order. */
  function UnsupportedNames(fields: seq<DjangoField>, declared: set<string>, mapping: map<DjangoFieldClass, Rule>)
    : seq<string>
    decreases |fields|
  {
    if |fields| == 0 then []
    else
      var f := fields[|fields| - 1];
      UnsupportedNames(fields[..|fields| - 1], declared, mapping)
      + (if Eligible(f, declared) && f.cls !in mapping then [ClassName(f.cls)] else [])
  }

  /** The generated names are exactly those of the eligible fields that have a rule. */
  predicate KeysMatch(fields: seq<DjangoField>, declared: set<string>, mapping: map<DjangoFieldClass, Rule>, p: Projection)
  {
    && p.through.Keys <= p.generated.Keys
    && p.generated.Keys <= NameSet(fields)
    && (forall i :: 0 <= i < |fields| ==>
          (fields[i].name in p.generated <==> Eligible(fields[i], declared) && fields[i].cls in mapping))
  }

  function NameSet(fields: seq<DjangoField>): set<string>
  {
    set i | 0 <= i < |fields| :: fields[i].name
  }

  /** The last field's name is not among the others' when names are distinct. */
  lemma LastNameIsNew(fields: seq<DjangoField>)
    requires |fields| > 0 && DistinctNames(fields)
    ensures fields[|fields| - 1].name !in NameSet(fields[..|fields| - 1])
    ensures NameSet(fields) == NameSet(fields[..|fields| - 1]) + {fields[|fields| - 1].name}
    ensures DistinctNames(fields[..|fields| - 1])
  {
    var n := |fields| - 1;
    var front := fields[..n];
    forall i | 0 <= i < n ensures front[i].name != fields[n].name { }
    assert NameSet(fields) == NameSet(front) + {fields[n].name} by {
      forall x | x in NameSet(fields) ensures x in NameSet(front) + {fields[n].name} {
        var i :| 0 <= i < |fields| && fields[i].name == x;
        if i < n { assert front[i].name == x; }
      }
    }
  }

  /** Every generated field, and its `through` model, is what `ProjectOne` makes of its Django field. */
  predicate ValuesMatch(fields: seq<DjangoField>, mapping: map<DjangoFieldClass, Rule>,
                        registered: seq<RegisteredModel>, p: Projection)
  {
    forall i :: 0 <= i < |fields| && fields[i].name in p.generated ==>
      ProjectOne(fields[i], mapping, registered) == Ok(Generated(p.generated[fields[i].name], Get(p.through, fields[i].name)))
  }

  /** With distinct names the loop succeeds exactly when every eligible field projects without error. */
  lemma {:induction false} ProjectAllSucceeds(fields: seq<DjangoField>, declared: set<string>,
                                              mapping: map<DjangoFieldClass, Rule>, registered: seq<RegisteredModel>)
    requires DistinctNames(fields)
    ensures ProjectAll(fields, declared, mapping, registered).Ok? <==>
              forall i :: 0 <= i < |fields| && Eligible(fields[i], declared) ==> ProjectOne(fields[i], mapping, registered).Ok?
    decreases |fields|
  {
    if |fields| > 0 {
      var n := |fields| - 1;
      var front := fields[..n];
      assert DistinctNames(front);
      ProjectAllSucceeds(front, declared, mapping, registered);
      var f := fields[n];
      forall i | 0 <= i < n ensures front[i] == fields[i] && front[i].name != f.name { }
      var q := ProjectAll(front, declared, mapping, registered);
      if q.Ok? {
        ProjectAllKeys(front, declared, mapping, registered);
        assert f.name !in q.value.generated;
      }
    }
  }

  /** With distinct names a successful loop generates exactly the eligible fields that have a rule. */
  lemma {:induction false} ProjectAllKeys(fields: seq<DjangoField>, declared: set<string>,
                                          mapping: map<DjangoFieldClass, Rule>, registered: seq<RegisteredModel>)
    requires DistinctNames(fields)
    ensures ProjectAll(fields, declared, mapping, registered).Ok? ==>
              KeysMatch(fields, declared, mapping, ProjectAll(fields, declared, mapping, registered).value)
    decreases |fields|
  {
    if |fields| > 0 {
      var n := |fields| - 1;
      var front := fields[..n];
      var f := fields[n];
      LastNameIsNew(fields);
      ProjectAllKeys(front, declared, mapping, registered);
      var q := ProjectAll(front, declared, mapping, registered);
      var r := ProjectAll(fields, declared, mapping, registered);
      if q.Ok? && r.Ok? {
        var p := q.value;
        var p' := r.value;
        assert f.name !in p.generated;
        assert r == Advance(p, f, declared, mapping, registered);
        forall i | 0 <= i < n ensures front[i] == fields[i] && front[i].name != f.name { }
        if !Eligible(f, declared) {
          assert p' == p;
        } else {
          var step := ProjectOne(f, mapping, registered);
          if step.value.Generated? {
            assert p'.generated == p.generated[f.name := step.value.field];
            assert f.cls in mapping;
          } else {
            assert p'.generated == p.generated && p'.through == p.through;
          }
        }
      }
    }
  }

  /** With distinct names each generated field is the one `ProjectOne` makes of its Django field. */
  lemma {:induction false} ProjectAllValues(fields: seq<DjangoField>, declared: set<string>,
                                            mapping: map<DjangoFieldClass, Rule>, registered: seq<RegisteredModel>)
    requires DistinctNames(fields)
    ensures ProjectAll(fields, declared, mapping, registered).Ok? ==>
              ValuesMatch(fields, mapping, registered, ProjectAll(fields, declared, mapping, registered).value)
    decreases |fields|
  {
    if |fields| > 0 {
      var n := |fields| - 1;
      var front := fields[..n];
      var f := fields[n];
      assert DistinctNames(front);
      ProjectAllValues(front, declared, mapping, registered);
      ProjectAllKeys(front, declared, mapping, registered);
      var q := ProjectAll(front, declared, mapping, registered);
      var r := ProjectAll(fields, declared, mapping, registered);
      if q.Ok? && r.Ok? {
        var p := q.value;
        forall i | 0 <= i < n ensures front[i] == fields[i] && front[i].name != f.name { }
        assert f.name !in p.generated;
        assert r == Advance(p, f, declared, mapping, registered);
      }
    }
  }

  /** With distinct names the warnings are the reference list: one class name per eligible unmapped field. */
  lemma {:induction false} ProjectAllWarnings(fields: seq<DjangoField>, declared: set<string>,
                                              mapping: map<DjangoFieldClass, Rule>, registered: seq<RegisteredModel>)
    requires DistinctNames(fields)
    ensures ProjectAll(fields, declared, mapping, registered).Ok? ==>
              ProjectAll(fields, declared, mapping, registered).value.warnings == UnsupportedNames(fields, declared, mapping)
    decreases |fields|
  {
    if |fields| > 0 {
      var n := |fields| - 1;
      var front := fields[..n];
      var f := fields[n];
      assert DistinctNames(front);
      ProjectAllWarnings(front, declared, mapping, registered);
      ProjectAllKeys(front, declared, mapping, registered);
      var q := ProjectAll(front, declared, mapping, registered);
      forall i | 0 <= i < n ensures front[i] == fields[i] && front[i].name != f.name { }
      if q.Ok? {
        assert f.name !in q.value.generated;
      }
    }
  }

  /** Fields the stdnet model declares itself, and non-concrete fields, are never generated (models.py:127-132). */
  lemma NeverRegenerated(fields: seq<DjangoField>, declared: set<string>,
                         mapping: map<DjangoFieldClass, Rule>, registered: seq<RegisteredModel>, i: nat)
    requires DistinctNames(fields)
    requires i < |fields|
    requires !Eligible(fields[i], declared)
    requires ProjectAll(fields, declared, mapping, registered).Ok?
    ensures fields[i].name !in ProjectAll(fields, declared, mapping, registered).value.generated
  {
    ProjectAllKeys(fields, declared, mapping, registered);
  }

  /** Every generated field is constructed with `required = not (blank or null)` and the copied `index`, `unique`, `primary_key`. */
  lemma GeneratedParams(fields: seq<DjangoField>, declared: set<string>,
                        mapping: map<DjangoFieldClass, Rule>, registered: seq<RegisteredModel>, i: nat)
    requires DistinctNames(fields)
    requires i < |fields|
    requires ProjectAll(fields, declared, mapping, registered).Ok?
    requires fields[i].name in ProjectAll(fields, declared, mapping, registered).value.generated
    ensures var sf := ProjectAll(fields, declared, mapping, registered).value.generated[fields[i].name];
            && sf.params.required == !(fields[i].blank || fields[i].nullable)
            && sf.params.index == fields[i].dbIndex
            && sf.params.unique == fields[i].unique
            && sf.params.primaryKey == fields[i].primaryKey
  {
    ProjectAllKeys(fields, declared, mapping, registered);
    ProjectAllValues(fields, declared, mapping, registered);
  }

  /** With the built-in table a CharField becomes a SymbolField exactly when indexed or a primary key. */
  lemma CharFieldProjection(f: DjangoField, registered: seq<RegisteredModel>)
    requires f.cls == CharField
    ensures ProjectOne(f, DefaultMapping(), registered).Ok?
    ensures ProjectOne(f, DefaultMapping(), registered).value.Generated?
    ensures ProjectOne(f, DefaultMapping(), registered).value.field.cls == StdSymbol <==> f.dbIndex || f.primaryKey
    ensures ProjectOne(f, DefaultMapping(), registered).value.field.cls == StdChar <==> !(f.dbIndex || f.primaryKey)
  {
    assert DefaultMapping()[CharField] == CallableRule(CharFieldTarget);
  }

  /** The reference warnings contain one entry per eligible unmapped field. */
  lemma {:induction false} UnsupportedNamesSingle(fields: seq<DjangoField>, declared: set<string>,
                                                  mapping: map<DjangoFieldClass, Rule>, j: nat)
    requires j < |fields|
    requires Eligible(fields[j], declared) && fields[j].cls !in mapping
    requires forall i :: 0 <= i < |fields| && i != j && Eligible(fields[i], declared) ==> fields[i].cls in mapping
    ensures UnsupportedNames(fields, declared, mapping) == [ClassName(fields[j].cls)]
    decreases |fields|
  {
    var n := |fields| - 1;
    var front := fields[..n];
    if j == n {
      UnsupportedNamesNone(front, declared, mapping);
    } else {
      UnsupportedNamesSingle(front, declared, mapping, j);
    }
  }

  lemma {:induction false} UnsupportedNamesNone(fields: seq<DjangoField>, declared: set<string>,
                                                mapping: map<DjangoFieldClass, Rule>)
    requires forall i :: 0 <= i < |fields| && Eligible(fields[i], declared) ==> fields[i].cls in mapping
    ensures UnsupportedNames(fields, declared, mapping) == []
    decreases |fields|
  {
    if |fields| > 0 {
      UnsupportedNamesNone(fields[..|fields| - 1], declared, mapping);
    }
  }

  /**
   * One eligible field of an unmapped class: exactly one warning, naming the
   * class, that field left out, every other eligible field kept.
   */
  lemma UnmappedFieldWarnsOnce(fields: seq<DjangoField>, declared: set<string>,
                               mapping: map<DjangoFieldClass, Rule>, registered: seq<RegisteredModel>, j: nat)
    requires DistinctNames(fields)
    requires j < |fields|
    requires Eligible(fields[j], declared) && fields[j].cls !in mapping
    requires forall i :: 0 <= i < |fields| && i != j && Eligible(fields[i], declared) ==> fields[i].cls in mapping
    requires ProjectAll(fields, declared, mapping, registered).Ok?
    ensures var p := ProjectAll(fields, declared, mapping, registered).value;
            && p.warnings == [ClassName(fields[j].cls)]
            && fields[j].name !in p.generated
            && forall i :: 0 <= i < |fields| && i != j && Eligible(fields[i], declared) ==> fields[i].name in p.generated
  {
    ProjectAllKeys(fields, declared, mapping, registered);
    ProjectAllWarnings(fields, declared, mapping, registered);
    UnsupportedNamesSingle(fields, declared, mapping, j);
  }

  /**
   * After `register_field_mapping(c, rule)` for the one class that had no
   * rule, nothing is warned about and every eligible field is generated.
   */
  lemma RegisteredMappingSilencesWarning(fields: seq<DjangoField>, declared: set<string>,
                                         mapping: map<DjangoFieldClass, Rule>, registered: seq<RegisteredModel>,
                                         c: DjangoFieldClass, rule: Rule)
    requires DistinctNames(fields)
    requires forall i :: 0 <= i < |fields| && Eligible(fields[i], declared) ==> fields[i].cls in mapping || fields[i].cls == c
    requires ProjectAll(fields, declared, mapping[c := rule], registered).Ok?
    ensures var p := ProjectAll(fields, declared, mapping[c := rule], registered).value;
            && p.warnings == []
            && forall i :: 0 <= i < |fields| && Eligible(fields[i], declared) ==> fields[i].name in p.generated
  {
    ProjectAllKeys(fields, declared, mapping[c := rule], registered);
    ProjectAllWarnings(fields, declared, mapping[c := rule], registered);
    UnsupportedNamesNone(fields, declared, mapping[c := rule]);
  }

  /**
   * A relation field projects only when exactly one registered stdnet model
   * mirrors its related Django model, and the generated field points at it;
   * otherwise the whole projection fails (models.py:146-153).
   */
  lemma RelationNeedsOneMirror(fields: seq<DjangoField>, declared: set<string>,
                               mapping: map<DjangoFieldClass, Rule>, registered: seq<RegisteredModel>, i: nat)
    requires DistinctNames(fields)
    requires i < |fields| && Eligible(fields[i], declared)
    requires fields[i].cls in mapping && mapping[fields[i].cls].FieldClassRule?
    requires IsRelationClass(mapping[fields[i].cls].target)
    ensures ProjectAll(fields, declared, mapping, registered).Ok? ==>
              && fields[i].rel.Some?
              && |Mirrors(registered, fields[i].rel.value.to)| == 1
              && fields[i].name in ProjectAll(fields, declared, mapping, registered).value.generated
              && var sf := ProjectAll(fields, declared, mapping, registered).value.generated[fields[i].name];
                 sf.relModel == Some(Mirrors(registered, fields[i].rel.value.to)[0].model)
    ensures fields[i].rel.None? || |Mirrors(registered, fields[i].rel.value.to)| != 1 ==>
              ProjectAll(fields, declared, mapping, registered).Err?
  {
    ProjectAllSucceeds(fields, declared, mapping, registered);
    ProjectAllKeys(fields, declared, mapping, registered);
    ProjectAllValues(fields, declared, mapping, registered);
  }
}
