/**
 * Backend resolution of `ModelMeta.__new__` (src/djangostdnet/models.py:169-191):
 * the write and read backends of a stdnet model, from its `Meta` options and
 * the `STDNET_BACKENDS` setting.
 */
module Backends {
  import opened Wrappers

  /** A value of `STDNET_BACKENDS`: a connection string, or a dict with `BACKEND` and maybe `READ_BACKEND`. */
  datatype Setting = Url(url: string) | Dict(entries: map<string, string>)

  /** The KeyError raised when a dict setting has no `BACKEND` entry. */
  datatype BackendError = KeyError(key: string)

  /** The two values passed to `mapper.register`. */
  datatype Resolved = Resolved(backend: string, readBackend: string)

  const DefaultName: string := "default"

  /** A name that `STDNET_BACKENDS` holds as a dict lacking `BACKEND`: resolving it raises. */
  predicate Broken(name: string, settings: map<string, Setting>)
  {
    name in settings && settings[name].Dict? && "BACKEND" !in settings[name].entries
  }

  /**
   * One `if name in settings.STDNET_BACKENDS` block.  The read block prefers
   * `READ_BACKEND`, but `value['BACKEND']` is evaluated first as the default
   * argument of `get`, so a dict without `BACKEND` raises in both blocks.
   */
  function Lookup(name: string, settings: map<string, Setting>, forRead: bool): (r: Result<string, BackendError>)
    ensures r.Err? <==> Broken(name, settings)
    ensures name !in settings ==> r == Ok(name)
    ensures name in settings && settings[name].Url? ==> r == Ok(settings[name].url)
    ensures name in settings && settings[name].Dict? && "BACKEND" in settings[name].entries ==>
              var e := settings[name].entries;
              r == Ok(if forRead && "READ_BACKEND" in e then e["READ_BACKEND"] else e["BACKEND"])
  {
    if name !in settings then Ok(name)
    else
      match settings[name]
      case Url(u) => Ok(u)
      case Dict(e) =>
        if "BACKEND" !in e then Err(KeyError("BACKEND"))
        else if forRead && "READ_BACKEND" in e then Ok(e["READ_BACKEND"])
        else Ok(e["BACKEND"])
  }

  /** The name `read_backend` falls back to: the backend *name*, before it is resolved. */
  function ReadName(backend: Option<string>, readBackend: Option<string>): (r: string)
    ensures readBackend.Some? ==> r == readBackend.value
    ensures readBackend.None? ==> r == (if backend.Some? then backend.value else DefaultName)
  {
    if readBackend.Some? then readBackend.value
    else if backend.Some? then backend.value
    else DefaultName
  }

  /**
   * `backend` defaults to `'default'`, `read_backend` to the backend name;
   * each name found in the settings is replaced by its value.  `None` stands
   * for an absent option; a `read_backend` set to `None` behaves the same.
   */
  function Resolve(backend: Option<string>, readBackend: Option<string>, settings: map<string, Setting>)
    : (r: Result<Resolved, BackendError>)
    ensures r.Err? <==> Broken(if backend.Some? then backend.value else DefaultName, settings)
                        || Broken(ReadName(backend, readBackend), settings)
    ensures r.Ok? ==>
              r.value == Resolved(Lookup(if backend.Some? then backend.value else DefaultName, settings, false).value,
                                  Lookup(ReadName(backend, readBackend), settings, true).value)
    ensures r.Ok? && backend.None? && DefaultName !in settings ==> r.value.backend == DefaultName
    ensures r.Ok? && readBackend.None? ==> r.value.readBackend == Lookup(ReadName(backend, None), settings, true).value
  {
    var name := if backend.Some? then backend.value else DefaultName;
    var b :- Lookup(name, settings, false);
    var rb :- Lookup(ReadName(backend, readBackend), settings, true);
    Ok(Resolved(b, rb))
  }

  /** Without options and without a `default` setting, both backends are `'default'`. */
  lemma DefaultsToDefault(settings: map<string, Setting>)
    requires DefaultName !in settings
    ensures Resolve(None, None, settings) == Ok(Resolved(DefaultName, DefaultName))
  {
  }

  /** Without `read_backend`, reads go where writes go unless the setting is a dict naming a `READ_BACKEND`. */
  lemma ReadFollowsBackend(backend: Option<string>, settings: map<string, Setting>)
    requires Resolve(backend, None, settings).Ok?
    requires var name := ReadName(backend, None);
             !(name in settings && settings[name].Dict? && "READ_BACKEND" in settings[name].entries)
    ensures Resolve(backend, None, settings).value.readBackend == Resolve(backend, None, settings).value.backend
  {
  }

  /** Names that are not settings pass through unchanged (tests/models.py:20-35). */
  lemma ConnectionStringsPassThrough(backend: string, readBackend: string, settings: map<string, Setting>)
    requires backend !in settings && readBackend !in settings
    ensures Resolve(Some(backend), Some(readBackend), settings) == Ok(Resolved(backend, readBackend))
  {
  }

  /** A name whose setting is a connection string resolves to it on both sides (tests/models.py:37-54). */
  lemma NamedConnectionString(name: string, url: string)
    ensures Resolve(Some(name), Some(name), map[name := Url(url)]) == Ok(Resolved(url, url))
  {
  }

  /**
   * A name whose setting is a dict resolves to `BACKEND` for writes and to
   * `READ_BACKEND`, falling back to `BACKEND`, for reads (tests/models.py:56-67).
   */
  lemma NamedDict(name: string, entries: map<string, string>)
    requires "BACKEND" in entries
    ensures var r := Resolve(Some(name), Some(name), map[name := Dict(entries)]);
            && r.Ok?
            && r.value.backend == entries["BACKEND"]
            && r.value.readBackend == if "READ_BACKEND" in entries then entries["READ_BACKEND"] else entries["BACKEND"]
  {
  }

  /**
   * Without options, a `default` dict setting supplies both backends: its
   * `BACKEND` for writes, its `READ_BACKEND` or else `BACKEND` for reads.
   * This is the configuration of tests/__init__.py.
   */
  lemma DefaultDictSetting(settings: map<string, Setting>)
    requires DefaultName in settings && settings[DefaultName].Dict?
    requires "BACKEND" in settings[DefaultName].entries
    ensures var e := settings[DefaultName].entries;
            Resolve(None, None, settings)
              == Ok(Resolved(e["BACKEND"], if "READ_BACKEND" in e then e["READ_BACKEND"] else e["BACKEND"]))
  {
  }
}
