# django-stdnet, modelled in Dafny

django-stdnet mirrors Django models into stdnet, a key/value ORM on Redis.
A stdnet model names a Django model. Its metaclass then derives the stdnet
fields from the Django fields and picks its backends, and a session keeps
the two stores in step. This project models the parts of that bridge whose
behaviour can be stated exactly. Each ORM is replaced by finite maps: a
record is a map from attribute name to value, a store is a map from pk to
record.

- `Gate` (gate.dfy): `ThreadGate`, the per-thread reentrancy counter that
  keeps the many-to-many change handlers from echoing each other's writes.
- `Registry` (registry.dfy): the registry pairing Django and stdnet models.
- `Projection` (projection.dfy): the field-mapping table, including
  `register_field_mapping`, and the loop that turns Django fields into
  stdnet fields.
- `Backends` (backends.dfy): how `backend`/`read_backend` are resolved
  through `STDNET_BACKENDS`.
- `Fields` (fields.dfy): `OneToOneField`, covering construction,
  registration of the reverse accessor, the `_id` storage name,
  `to_python`, `__` lookups and assignment through the reverse accessor.
- `Sessions` (session.dfy): the diff-then-write copies between a stdnet
  instance and its Django row, and deletion of the stdnet counterpart.
- `Ttl` (ttl.dfy): the `TTLField` envelope `"<now>:<ttl>"` and the purge of
  expired instances from query results.
- `Wrappers` and `Values`: `Option`/`Result`, and the scalar values records
  hold.

State the source changes in place is modelled as classes: `ThreadGate`,
`ModelRegistry`, `FieldMapping`, `ModelMeta`, `OneToOneField`,
`ModelInstance`, `DjangoObject`, `DjangoTable`, `StdnetInstance`, `Session`
and `TtlQuery`. Each loop is a method, proved equal to a specification
function written as a fold over a prefix of its input (`ProjectAll`, `Sync`,
`Purge`). The properties are lemmas about those functions. The clock `now`
and the thread id are parameters. Models are identified by name or by an
integer. The Django fields a projection reads are assumed to have distinct
names, as Django guarantees.

## Model

| member | source | states |
|---|---|---|
| Gate.EnterStates | src/djangostdnet/models.py:67-71 | Entering adds the thread, raises its count by one and leaves every other thread's count alone |
| Gate.ExitStates | src/djangostdnet/models.py:73-77 | Exiting lowers the thread's count by one and drops the entry exactly when it reaches zero; no other thread is touched |
| Gate.EnterKeepsPositive | src/djangostdnet/models.py:67-71 | Entering keeps every stored count positive |
| Gate.ExitKeepsPositive | src/djangostdnet/models.py:73-77 | Exiting a thread that had entered keeps every stored count positive |
| Gate.EnterExitRestores | src/djangostdnet/models.py:67-77 | Enter followed by exit on one thread restores the whole map |
| Gate.EnterTimesDepth | src/djangostdnet/models.py:67-71 | After k nested entries the depth has grown by k, all counts stay positive and other threads are unchanged |
| Gate.NestedUseRestores | src/djangostdnet/models.py:63-77 | k nested entries followed by k exits restore the map |
| Gate.ThreadGate.Enter | src/djangostdnet/models.py:67-71 | Returns whether the thread already had an entry; the new state is `EnterStates` of the old |
| Gate.ThreadGate.Exit | src/djangostdnet/models.py:73-77 | The new state is `ExitStates` of the old; a thread that never entered is stored at -1, as the `defaultdict` does |
| Gate.HandleGuarded | src/djangostdnet/models.py:227-241 | A gate-guarded handler whose write re-triggers the handler on the same thread writes once, only if the thread was outside the gate, and leaves the gate as it found it |
| Registry.RegisterKeepsLinked | src/djangostdnet/models.py:49-51 | After `register` every value of either map is a key of the other |
| Registry.RegisterFreshKeepsInverse | src/djangostdnet/models.py:49-51 | Registering a pair of two new models keeps the maps mutually inverse |
| Registry.ReRegisterBreaksInverse | src/djangostdnet/models.py:49-51 | Registering a second stdnet model for one Django model leaves the maps not inverse |
| Registry.ModelRegistry.Register | src/djangostdnet/models.py:49-51 | Updates both maps with the pair and preserves linkage |
| Registry.ModelRegistry.GetDjangoModel | src/djangostdnet/models.py:53-54 | Returns the Django model registered for a stdnet model, or fails when there is none |
| Registry.ModelRegistry.GetStdnetModel | src/djangostdnet/models.py:56-57 | Returns the stdnet model registered for a Django model, or fails when there is none |
| Registry.RegisterThenLookUp | src/djangostdnet/models.py:49-57 | After `register(d, s)` the two lookups return `s` and `d` |
| Projection.DefaultMapping | src/djangostdnet/models.py:24-37 | The built-in table has a rule for each of the twelve named Django classes and no other; CharField's is the callable, the rest are classes |
| Projection.FieldMapping.constructor | src/djangostdnet/models.py:24-37 | The table starts as the built-in mapping |
| Projection.FieldMapping.RegisterFieldMapping | src/djangostdnet/models.py:40-41 | Adds or replaces exactly one rule |
| Projection.Mirrors | src/djangostdnet/models.py:146-147 | The registered stdnet models whose Django model is the related one, and only those |
| Projection.MirrorsNone | src/djangostdnet/models.py:146-148 | No mirror is found exactly when no registered entry mirrors the related model |
| Projection.MirrorsSingle | src/djangostdnet/models.py:146-149 | Exactly one mirror is found exactly when one registered entry, and no other, mirrors the related model; the mirror found is that entry |
| Projection.ProjectOne | src/djangostdnet/models.py:134-167 | An unmapped class yields a warning naming it. A generated field has the rule's class: the class itself, or what the callable returns. Its arguments are `required = not (blank or null)` plus copied `index`/`unique`/`primary_key`. `upload_to` is passed exactly when the rule is the image class. A relation rule fails unless `rel` is set and exactly one registered model mirrors it. The field then points at that model, and a many-to-many field alone carries `related_name` and `through`. A missing `rel` is an AttributeError only when some registered model has a Django mirror. A callable that picks a relation class fails for lack of the model argument. No other case fails |
| Projection.ProjectAll | src/djangostdnet/models.py:126-167 | The loop as a fold over the Django fields: skip, generate, warn or fail per field; its properties are the `ProjectAll*` lemmas below |
| Projection.ProjectFields | src/djangostdnet/models.py:126-167 | The loop computes `ProjectAll` and never generates a name already in the class dictionary |
| Projection.ErrorPersists | src/djangostdnet/models.py:146-149 | An error on a prefix is the error of the whole loop |
| Projection.ProjectAllSucceeds | src/djangostdnet/models.py:126-167 | The loop succeeds exactly when every non-skipped field projects without error |
| Projection.ProjectAllKeys | src/djangostdnet/models.py:127-140 | The generated names are exactly those of the non-skipped fields whose class has a rule |
| Projection.ProjectAllValues | src/djangostdnet/models.py:134-165 | Each generated field, and its `through` model, is what `ProjectOne` makes of its Django field |
| Projection.ProjectAllWarnings | src/djangostdnet/models.py:140-167 | The warnings are one class name per non-skipped unmapped field, in order |
| Projection.NeverRegenerated | src/djangostdnet/models.py:127-132 | Fields declared on the stdnet model and non-concrete fields are never generated |
| Projection.GeneratedParams | src/djangostdnet/models.py:134-139 | Every generated field is constructed with the derived keyword arguments |
| Projection.CharFieldProjection | src/djangostdnet/models.py:26 | With the built-in table a CharField becomes a SymbolField exactly when indexed or a primary key, else a CharField |
| Projection.UnsupportedNamesSingle | src/djangostdnet/models.py:166-167 | With one unmapped field the reference warning list is that field's class name |
| Projection.UnsupportedNamesNone | src/djangostdnet/models.py:140 | With every class mapped the reference warning list is empty |
| Projection.UnmappedFieldWarnsOnce | tests/models.py:423-441 | An unmapped field is left out with exactly one warning naming its class, and every other mapped field is kept |
| Projection.RegisteredMappingSilencesWarning | tests/models.py:398-421 | After registering a rule for a class its fields are generated and nothing is warned |
| Projection.RelationNeedsOneMirror | src/djangostdnet/models.py:142-155 | A relation field is generated only when exactly one registered model mirrors its related model, and then points at it |
| Backends.Lookup | src/djangostdnet/models.py:178-191 | A name outside the settings passes through. A connection string resolves to itself. A dict resolves to `BACKEND`, or for reads to `READ_BACKEND` falling back to `BACKEND`. A dict without `BACKEND` is a KeyError |
| Backends.ReadName | src/djangostdnet/models.py:169-176 | The read backend's name: `read_backend` when given, else the backend's name, else `'default'` |
| Backends.Resolve | src/djangostdnet/models.py:169-191 | Fails exactly when a looked-up name is a dict without `BACKEND`. Otherwise the write backend is the lookup of `backend` (default `'default'`), and the read backend the read lookup of `read_backend` (default: the backend's name) |
| Backends.DefaultDictSetting | tests/__init__.py:12-16 | Without options, a `default` dict setting gives `BACKEND` for writes and `READ_BACKEND`, else `BACKEND`, for reads |
| Backends.DefaultsToDefault | src/djangostdnet/models.py:169-176 | With no options and no `default` setting both backends are `'default'` |
| Backends.ReadFollowsBackend | src/djangostdnet/models.py:174-176 | Without `read_backend`, reads go where writes go unless the setting names a `READ_BACKEND` |
| Backends.ConnectionStringsPassThrough | tests/models.py:20-35 | Names that are not settings are used as given |
| Backends.NamedConnectionString | tests/models.py:37-54 | A setting holding a connection string resolves to it for both backends |
| Backends.NamedDict | tests/models.py:56-67 | A dict setting yields `BACKEND` for writes and `READ_BACKEND`, else `BACKEND`, for reads |
| Fields.ReverseName | src/djangostdnet/fields.py:96-97 | A non-empty `related_name` is used as given; otherwise the name is the owning model's name, `_`, and the field's name |
| Fields.AttName | src/djangostdnet/fields.py:112-113 | The storage attribute is the field name followed by `_id` |
| Fields.AttNameInjective | src/djangostdnet/fields.py:112-113 | Distinct fields never share a storage attribute |
| Fields.DefaultReverseNamesDistinct | src/djangostdnet/fields.py:96-97 | Two fields of one model get distinct default reverse names |
| Fields.DefaultReverseNamesCanClash | src/djangostdnet/fields.py:96-104 | Default names of fields of different models can coincide, which the duplicate check then rejects |
| Fields.DefaultReverseNameExample | tests/fields.py:95 | Field `parent` of model `achildmodel` gets reverse name `achildmodel_parent` |
| Fields.OneToOneField.SetRelmodel | src/djangostdnet/fields.py:93-110 | Sets the related model and fills in the default reverse name. A name already among the related model's `related` or `dfields` is a FieldError that leaves the related model's `related` and the accessor unchanged. Otherwise exactly that name is added to `related` and the accessor is kept |
| Fields.NewOneToOneField | src/djangostdnet/fields.py:81-86 | A falsy model raises FieldError; otherwise the field holds the model and `related_name` |
| Fields.ToPython | src/djangostdnet/fields.py:137-143 | An instance of the related model becomes its pk; a falsy value is returned unchanged; anything else goes through the pk field's conversion |
| Fields.ToPythonIdempotent | src/djangostdnet/fields.py:137-143 | When the pk conversion leaves plain values alone, converting twice is converting once |
| Fields.FindSep | src/djangostdnet/fields.py:156 | Finds the first `__` at or after an index, or reports that there is none |
| Fields.SplitFirst | src/djangostdnet/fields.py:156-161 | The text before the first `__`, which holds no separator, and the rest. When the input has a separator, joining the two with `__` gives the input back; otherwise the rest is empty |
| Fields.SplitFirstLeftmost | src/djangostdnet/fields.py:156-158 | As with `split('__')`, `a___b` splits into `a` and `_b` |
| Fields.GetLookup | src/djangostdnet/fields.py:154-170 | An empty path is the field's own `_id` name. An unknown first segment is an error naming it. A plain sub-field gives its own name after one hop, and a nested path below it is an error. A one-to-one sub-field fails when its own lookup of the rest fails. Otherwise the result has that lookup's name, and its nested path is the hop through this field followed by that lookup's path. The path has one entry per segment, each naming a model |
| Fields.LookupThroughOneHop | tests/fields/one_to_one_field.py:102 | `parent__name` resolves to `name` through one hop `(parent_id, related model)` |
| Fields.NoLookupThroughPlainField | src/djangostdnet/fields.py:160-163 | A nested path below a plain field is an error |
| Fields.AssignReverse | src/djangostdnet/fields.py:27-40 | Access through the class, or a value that is not an instance of the owning model, fails and changes nothing. `None` fails at the first `setattr`. Otherwise the value stores the instance's pk under `<field>_id` and the two objects cache each other |
| Sessions.Read | src/djangostdnet/session.py:44-49 | The copied value is the attribute under the storage name. Towards Django a relation set to `None` fails; from Django a missing attribute fails |
| Sessions.StorageNames | src/djangostdnet/session.py:44-48 | Every field's storage attribute is among the names a copy may write |
| Sessions.Sync | src/djangostdnet/session.py:43-52 | The copy loop as a fold over the fields: write each differing value, stop at the first unreadable field; its properties are the `Sync*` lemmas below |
| Sessions.SyncFailsIffUnreadable | src/djangostdnet/session.py:43-52 | A copy fails exactly when some field cannot be read |
| Sessions.SyncFrame | src/djangostdnet/session.py:50-52 | A copy keeps every existing attribute, adds only storage names and changes no other attribute |
| Sessions.SyncMakesMatch | src/djangostdnet/session.py:50-52 | After a successful copy every field of the target equals its source value |
| Sessions.SyncModifiedIff | src/djangostdnet/session.py:50-52 | A copy that writes nothing leaves the target unchanged, and a successful copy writes exactly when some field differed |
| Sessions.SyncIdempotent | src/djangostdnet/session.py:43-52 | Copying again after a successful copy writes nothing |
| Sessions.SyncErrorPersists | src/djangostdnet/session.py:46 | Once a field fails, later fields are not copied |
| Sessions.NonPk | src/djangostdnet/session.py:37-38 | Exactly the fields other than the pk |
| Sessions.PkNameIsOnlyThePk | src/djangostdnet/session.py:73-74 | In a well-formed model no non-pk field is stored under the pk's name |
| Sessions.SavedAttrs | src/djangostdnet/session.py:54-55 | A saved row always has a pk; a row with one keeps it, and other attributes are untouched |
| Sessions.DjangoTable.Get | src/djangostdnet/session.py:28-29 | `objects.get(pk=...)` loads a copy of the stored row, or fails for an absent or `None` pk |
| Sessions.DjangoTable.Save | src/djangostdnet/session.py:55 | Stores the row under its pk, assigning the next id when it has none, and counts the save |
| Sessions.Manager.Get | src/djangostdnet/session.py:66-70 | `manager.get` loads a stored stdnet instance, or fails when there is none |
| Sessions.EnsureSpec | src/djangostdnet/session.py:23-59 | `_ensure_django_instance` as a function of the paired row, the instance's values and the table; its properties are the `Ensure*` lemmas below |
| Sessions.EnsureCopiesFields | src/djangostdnet/session.py:43-52 | After `_ensure_django_instance` every non-pk field of the row equals the instance's value, relations as `<name>_id` = related pk, and the row has a pk |
| Sessions.EnsureSavesIffChanged | src/djangostdnet/session.py:25-55 | The row is saved exactly when it is new, has no pk, or some compared field differed |
| Sessions.EnsureSkipsSaveWhenInSync | tests/models.py:312-319 | A stored row whose every field already matches is neither changed nor saved |
| Sessions.EnsureBuildsMissingRow | src/djangostdnet/session.py:26-55 | With no row for the instance's pk, a row carrying that pk is built and saved |
| Sessions.EnsureCreationWritesBackPk | src/djangostdnet/session.py:33-59 | A row without a pk is not compared on the pk, is saved, and the pk it gets is written back to the instance |
| Sessions.AddFromSpec | src/djangostdnet/session.py:61-104 | `add_from_django_object` as a function of the stored instances and the Django object; its properties are the `AddFrom*` lemmas below |
| Sessions.AddFromCopiesFields | src/djangostdnet/session.py:73-100 | After `add_from_django_object` every non-pk field of the instance equals the Django object's, and so does the pk |
| Sessions.StorageNamesOnly | src/djangostdnet/session.py:79-82 | A name no field is stored under is not written by a copy |
| Sessions.AddFromAddsIffChanged | src/djangostdnet/session.py:63-104 | A new counterpart is always added; an existing one exactly when some non-pk field differed, and otherwise stays as stored |
| Sessions.AddFromFailsIffMissing | src/djangostdnet/session.py:84 | The call fails exactly when the Django object lacks the attribute of a non-pk field |
| Sessions.CopyToRow | src/djangostdnet/session.py:43-52 | The loop writes into the row what `Sync` computes towards Django |
| Sessions.CopyToInstance | src/djangostdnet/session.py:78-97 | The loop writes into the instance what `Sync` computes from Django |
| Sessions.Session.EnsureDjangoInstance | src/djangostdnet/session.py:23-59 | The row, the stored rows, the id counter, the save count and the instance's values become what `EnsureSpec` describes |
| Sessions.Session.Add | src/djangostdnet/session.py:13-21 | An unmodified or unbound instance goes straight to the base `add`. Otherwise the Django row is synchronised first: the row, the stored rows, the id counter and the save count follow `EnsureSpec`. The instance is then queued unless that failed |
| Sessions.Session.AddFromDjangoObject | src/djangostdnet/session.py:61-104 | The instance's values, its pairing and the session's queue become what `AddFromSpec` describes |
| Sessions.Session.DeleteFromDjangoObject | src/djangostdnet/session.py:106-113 | The counterpart is queued for deletion when it exists; otherwise nothing happens and nothing fails |
| Ttl.DigitChar | src/djangostdnet/ttl.py:75 | The character of a decimal digit |
| Ttl.NatToString | src/djangostdnet/ttl.py:75 | A non-empty string of decimal digits |
| Ttl.IntToString | src/djangostdnet/ttl.py:75 | `str` of an integer never contains `:` |
| Ttl.DigitsValue | src/djangostdnet/ttl.py:82 | Defined exactly on non-empty digit strings |
| Ttl.ParseInt | src/djangostdnet/ttl.py:82 | `int` of a digit string is its value, with `+` or `-` optionally in front; anything else, the empty string included, is a ValueError |
| Ttl.DigitsValueOfNatToString | src/djangostdnet/ttl.py:75-82 | Parsing the digits of `n` gives `n` |
| Ttl.ParseIntOfIntToString | src/djangostdnet/ttl.py:75-82 | `int(str(i)) == i` |
| Ttl.Split | src/djangostdnet/ttl.py:82 | `split` always gives at least one piece |
| Ttl.SplitWithoutSeparator | src/djangostdnet/ttl.py:82 | A string without `:` is one piece |
| Ttl.SplitAtFirst | src/djangostdnet/ttl.py:82 | Splitting `a:b` with `a` free of `:` gives `a` followed by the pieces of `b` |
| Ttl.Encode | src/djangostdnet/ttl.py:72-75 | `None` stays `None`. Every other value `v` is stored as `"<now>:<int(v)>"`: an int as itself, a boolean as 1 or 0, an integer string as its parse. Only a string that is not an integer fails |
| Ttl.Decode | src/djangostdnet/ttl.py:77-83 | Ints pass through unchanged. A string decodes exactly when it splits into two integer pieces, and then gives `t + delta - now` |
| Ttl.DecodeLater | src/djangostdnet/ttl.py:72-83 | Decoding k seconds after encoding gives the TTL less k |
| Ttl.EncodeDecodeRoundTrip | src/djangostdnet/ttl.py:72-83 | Decoding at the encoding time gives back the TTL |
| Ttl.StaleEnvelopeExpires | tests/ttl.py:31-37 | A TTL of 10 stored at time 0 reads as expired at time 11 |
| Ttl.Purge | src/djangostdnet/ttl.py:26-39 | The purge loop as a fold over the items: keep the live ones, delete the expired ones, stop at a model without exactly one TTL field; `Ttl.PurgeIsFilter` relates it to `Live`/`Dead` |
| Ttl.LiveDeadSnoc | src/djangostdnet/ttl.py:35-38 | Appending an item extends the live or the expired list by it |
| Ttl.PurgeIsFilter | src/djangostdnet/ttl.py:26-39 | The purge fails exactly when some model lacks exactly one TTLField; otherwise it keeps exactly the live items and deletes exactly the expired ones, in order |
| Ttl.LiveMembers | src/djangostdnet/ttl.py:35-38 | Live items are the unexpired ones, expired items the rest, and together they account for every item |
| Ttl.LiveOfLive | src/djangostdnet/ttl.py:35-38 | A live list has no expired item |
| Ttl.PurgeIdempotent | src/djangostdnet/ttl.py:26-39 | Purging a purged list returns it unchanged and deletes nothing |
| Ttl.SlicesDropExpired | tests/ttl.py:80-96 | Each slice returns the live records of the raw slice only, so it can be shorter than asked |
| Ttl.PurgeErrorPersists | src/djangostdnet/ttl.py:31-32 | The error stops the loop; later items are neither kept nor deleted |
| Ttl.TtlQuery.PurgeExpired | src/djangostdnet/ttl.py:26-39 | Returns what `Purge` keeps, or its error, and deletes what `Purge` deletes |
| Ttl.TtlQuery.Items | src/djangostdnet/ttl.py:21-47 | Without a callback returns the purge of the raw result; with one, returns the callback applied to that purge |

## Left out

- Signal and handler wiring (src/djangostdnet/models.py:200-283) is ORM calls. Only the gate check guarding the handlers is modelled, in `Gate.HandleGuarded`.
- Attribute forwarding (`proxy__getattr__`, `TTLBackendMiddleware`, `TTLManager`, `TTLBackendQueryClassWrapper`) is runtime reflection with nothing to state.
- The `get_fields` version shim, and the `ImageField`, `IPAddressField`, `DecimalField` and `DateTimeField` classes, delegate to library code. The projection records only which stdnet class a field gets, plus `upload_to` for images.
- The timezone adjustment in `add_from_django_object` (src/djangostdnet/session.py:87-93) depends on Django's timezone utilities.
- The index-advancing behaviour of `query()[i]` comes from stdnet's query slicing, which is not part of this model. Only the purge of a slice is modelled.
- Clock, threads and storage backends are external. `now` is an integer parameter, the thread id is a parameter, and stores are maps.
- `Gate.HandleGuarded`: models the echo of the mirrored write as a bounded recursion (`echoes`), not as signal dispatch.
- `Registry.ModelRegistry.Register`: keeps the maps mutually inverse only for a pair of new models. The source does not re-establish inversion on re-registration (`Registry.ReRegisterBreaksInverse`).
- `Backends.Resolve`: an absent `backend` and one set to `None` are both `None` here. The source keeps an explicit `None` as the backend name rather than using `'default'`. Setting values are strings, so a `BACKEND` of `None`, as in tests/__init__.py, is not represented.
- `Projection.GeneratedParams`: states the keyword arguments a field is constructed with. `ImageField.__init__` then overrides `required` to false (src/djangostdnet/fields.py:181); the generated field's own attributes are not modelled.
- `Projection.ProjectOne`: a rule whose target is a class is taken to be a stdnet field class. Exact-class lookup is modelled by class tags, so a subclass of a mapped Django class is a different, unmapped class.
- `Fields.OneToOneField.SetRelmodel`: lazy resolution of a related model given by name (`related.load_relmodel`), the forward proxy set on the owning model, and the abstract-model check of `register_with_model` are not modelled. The method runs once the related model is known.
- `Fields.GetLookup`: sub-fields other than one-to-one fields follow stdnet's base rule (their own name, and no nested path). Stdnet's own `ForeignKey.get_lookup` is not part of this model.
- `Fields.AssignReverse`: "instance of the owning model" is name equality, so subclass instances are not considered.
- `Fields.ToPython`: the related pk field's own `to_python` is a parameter.
- `Sessions.Read`: a relation's `<name>_id` is assumed to name a stored related object and is copied as the related pk. The source loads the related object (`field.get_value(instance).pkvalue()`), so an id naming no stored object raises there; the model does not capture that.
- `Sessions.Session.EnsureDjangoInstance`: a newly constructed Django row holds only its pk, standing for Django's field defaults. Likewise a new stdnet instance starts empty, and an absent stdnet attribute reads as `None`.
- `Sessions.DjangoTable.Save`: Django's auto-increment is a counter starting at 1. Database constraints are not modelled.
- `Ttl.ParseInt`: Python's `int()` also accepts surrounding whitespace; that is not modelled.
- `Ttl.Encode`: values other than `None`, integers, booleans and strings are not modelled.
