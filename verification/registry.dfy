/**
 * The model registry of src/djangostdnet/models.py:44-57: two dictionaries
 * pairing each Django model with the stdnet model that mirrors it.
 * Model classes are abstract values of types `D` (Django) and `S` (stdnet).
 */
module Registry {
  import opened Wrappers

  /** Every value of each map is a key of the other one. */
  predicate Linked<D, S>(toStdnet: map<D, S>, toDjango: map<S, D>)
  {
    && (forall d :: d in toStdnet ==> toStdnet[d] in toDjango)
    && (forall s :: s in toDjango ==> toDjango[s] in toStdnet)
  }

  /** The two maps are inverse to each other. */
  predicate Inverse<D, S>(toStdnet: map<D, S>, toDjango: map<S, D>)
  {
    && (forall d :: d in toStdnet ==> toStdnet[d] in toDjango && toDjango[toStdnet[d]] == d)
    && (forall s :: s in toDjango ==> toDjango[s] in toStdnet && toStdnet[toDjango[s]] == s)
  }

  /** `register` keeps the maps linked, whatever was registered before. */
  lemma RegisterKeepsLinked<D, S>(toStdnet: map<D, S>, toDjango: map<S, D>, d: D, s: S)
    requires Linked(toStdnet, toDjango)
    ensures Linked(toStdnet[d := s], toDjango[s := d])
  {
  }

  /** Registering a pair whose two models are both new keeps the maps inverse. */
  lemma RegisterFreshKeepsInverse<D, S>(toStdnet: map<D, S>, toDjango: map<S, D>, d: D, s: S)
    requires Inverse(toStdnet, toDjango)
    requires d !in toStdnet && s !in toDjango
    ensures Inverse(toStdnet[d := s], toDjango[s := d])
  {
  }

  /**
   * Registering a second stdnet model for the same Django model leaves the
   * first stdnet model pointing at a Django model that no longer points back:
   * the registry does not keep the maps inverse on its own.
   */
  lemma ReRegisterBreaksInverse(d: int, s1: int, s2: int)
    requires s1 != s2
    ensures !Inverse(map[d := s1][d := s2], map[s1 := d][s2 := d])
  {
    var toStdnet := map[d := s1][d := s2];
    var toDjango := map[s1 := d][s2 := d];
    assert s1 in toDjango && toStdnet[toDjango[s1]] == s2;
  }

  class ModelRegistry<D(==), S(==)> {
    var djangoToStdnet: map<D, S>
    var stdnetToDjango: map<S, D>

    constructor ()
      ensures djangoToStdnet == map[] && stdnetToDjango == map[]
    {
      djangoToStdnet := map[];
      stdnetToDjango := map[];
    }

    /** `register` (models.py:49-51). */
    method Register(djangoModel: D, stdnetModel: S)
      modifies this
      ensures djangoToStdnet == old(djangoToStdnet)[djangoModel := stdnetModel]
      ensures stdnetToDjango == old(stdnetToDjango)[stdnetModel := djangoModel]
      ensures Linked(old(djangoToStdnet), old(stdnetToDjango)) ==> Linked(djangoToStdnet, stdnetToDjango)
    {
      djangoToStdnet := djangoToStdnet[djangoModel := stdnetModel];
      stdnetToDjango := stdnetToDjango[stdnetModel := djangoModel];
    }

    /** `get_django_model` (models.py:53-54); `None` stands for the KeyError. */
    method GetDjangoModel(stdnetModel: S) returns (r: Option<D>)
      ensures r.Some? <==> stdnetModel in stdnetToDjango
      ensures r.Some? ==> stdnetToDjango[stdnetModel] == r.value
    {
      r := Get(stdnetToDjango, stdnetModel);
    }

    /** `get_stdnet_model` (models.py:56-57); `None` stands for the KeyError. */
    method GetStdnetModel(djangoModel: D) returns (r: Option<S>)
      ensures r.Some? <==> djangoModel in djangoToStdnet
      ensures r.Some? ==> djangoToStdnet[djangoModel] == r.value
    {
      r := Get(djangoToStdnet, djangoModel);
    }
  }

  /** After `register(d, s)` each lookup returns the other model of the pair. */
  method RegisterThenLookUp<D(==), S(==)>(registry: ModelRegistry<D, S>, d: D, s: S)
    returns (stdnetModel: Option<S>, djangoModel: Option<D>)
    modifies registry
    ensures stdnetModel == Some(s) && djangoModel == Some(d)
  {
    registry.Register(d, s);
    stdnetModel := registry.GetStdnetModel(d);
    djangoModel := registry.GetDjangoModel(s);
  }
}
