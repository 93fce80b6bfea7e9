/** The single-slot scattering-vector map cache of the propagator: a map is
    recomputed exactly when the slot is empty or one of the ten geometry
    parameters differs from the ones the slot was filled with. */
module QMapCache {
  import opened Numbers

  /** The ten scalars get_qmap is called with, in the order of its key list. */
  datatype QMapKey = QMapKey(
    nx: int, ny: int, cx: real, cy: real, pixelSize: real, detectorDistance: real,
    wavelength: real, euler0: real, euler1: real, euler2: real)

  /** A per-pixel field of scattering vectors, rows of the detector one after another. */
  type QMap = seq<Vec3>

  datatype Cache = Empty | Cached(key: QMapKey, qmap: QMap)

  /** The key's components in the order get_qmap compares them. */
  function Components(k: QMapKey): (cs: seq<real>)
    ensures |cs| == 10
  {
    [k.nx as real, k.ny as real, k.cx, k.cy, k.pixelSize, k.detectorDistance,
     k.wavelength, k.euler0, k.euler1, k.euler2]
  }

  /** Two keys agree on every component exactly when they are the same key. */
  lemma ComponentsDetermineKey(a: QMapKey, b: QMapKey)
    ensures a == b <==> forall j :: 0 <= j < 10 ==> Components(a)[j] == Components(b)[j]
  {
    if forall j :: 0 <= j < 10 ==> Components(a)[j] == Components(b)[j] {
      assert Components(a)[0] == Components(b)[0];
      assert Components(a)[1] == Components(b)[1];
      assert Components(a)[2] == Components(b)[2];
      assert Components(a)[3] == Components(b)[3];
      assert Components(a)[4] == Components(b)[4];
      assert Components(a)[5] == Components(b)[5];
      assert Components(a)[6] == Components(b)[6];
      assert Components(a)[7] == Components(b)[7];
      assert Components(a)[8] == Components(b)[8];
      assert Components(a)[9] == Components(b)[9];
    }
  }

  /** Some component of the requested key differs from the cached one. */
  predicate SomeComponentDiffers(a: QMapKey, b: QMapKey) {
    exists j :: 0 <= j < 10 && Components(a)[j] != Components(b)[j]
  }

  /** The decision of get_qmap: recompute when the slot is empty, otherwise
      compare the ten parameters one by one. */
  method MustRecompute(cache: Cache, key: QMapKey) returns (calculate: bool)
    ensures calculate <==> cache.Empty? || cache.key != key
  {
    if cache.Empty? {
      return true;
    }
    var cached := Components(cache.key);
    var wanted := Components(key);
    calculate := false;
    var i := 0;
    while i < 10
      invariant 0 <= i <= 10
      invariant calculate <==> exists j :: 0 <= j < i && cached[j] != wanted[j]
    {
      if cached[i] != wanted[i] {
        calculate := true;
      }
      i := i + 1;
    }
    ComponentsDetermineKey(cache.key, key);
  }

  /** One call of get_qmap as a state transition: the map returned, the cache
      afterwards, and whether the map was computed afresh. */
  datatype Lookup = Lookup(qmap: QMap, cache: Cache, recomputed: bool)

  function Request(cache: Cache, key: QMapKey, generate: QMapKey -> QMap): (r: Lookup)
    ensures r.recomputed <==> cache.Empty? || SomeComponentDiffers(cache.key, key)
    ensures r.cache == Cached(key, r.qmap)
    ensures r.recomputed ==> r.qmap == generate(key)
    ensures !r.recomputed ==> r.qmap == cache.qmap && r.cache == cache
  {
    ComponentsDetermineKey(if cache.Empty? then key else cache.key, key);
    if cache.Cached? && cache.key == key then Lookup(cache.qmap, cache, false)
    else
      var q := generate(key);
      Lookup(q, Cached(key, q), true)
  }

  /** The slot holds what the generator computes for its key. */
  predicate Coherent(cache: Cache, generate: QMapKey -> QMap) {
    cache.Cached? ==> cache.qmap == generate(cache.key)
  }

  /** Caching is transparent: from a coherent slot every request returns the
      generator's map for the requested key and leaves the slot coherent. */
  lemma RequestTransparent(cache: Cache, key: QMapKey, generate: QMapKey -> QMap)
    requires Coherent(cache, generate)
    ensures Request(cache, key, generate).qmap == generate(key)
    ensures Coherent(Request(cache, key, generate).cache, generate)
  {
  }

  /** Two requests with the same key in a row: the second is served from the
      slot and returns the same map. */
  lemma RepeatedRequestHits(cache: Cache, key: QMapKey, generate: QMapKey -> QMap)
    ensures var first := Request(cache, key, generate);
      var second := Request(first.cache, key, generate);
      !second.recomputed && second.qmap == first.qmap && second.cache == first.cache
  {
    var first := Request(cache, key, generate);
    ComponentsDetermineKey(key, key);
  }
}
