/**
 * `ModelCacheBase`: a read-through cache of serialized model data. The
 * serializer class is a function from the data and the `many` flag to the
 * serializer's `.data`; a QuerySet or a list is a `JList`.
 */
module ModelCache {
  import opened Wrappers
  import opened JsonData
  import opened CacheBase

  /** A serializer class: `serializer_class(data, many=...).data`. */
  type SerializerClass = (Json, bool) -> Json

  /** A serializer instance: the class applied to the data with the chosen `many` flag. */
  datatype Serializer = Serializer(cls: SerializerClass, data: Json, many: bool)

  /** The TypeError `get_serializer` raises when no serializer class is set. */
  function MissingSerializerMessage(className: string): string
  {
    className + " should either include a 'serializer_class' attribute,"
      + "or override the 'get_serializer_class()' method"
  }

  /**
   * `get_serializer`: a TypeError without a serializer class; otherwise the
   * class instantiated on the data, with `many=True` exactly for a
   * QuerySet or list.
   */
  function GetSerializer(className: string, serializerClass: Option<SerializerClass>, data: Json)
    : (r: Result<Serializer, string>)
    ensures r.Err? <==> serializerClass.None?
    ensures r.Err? ==> r.error == MissingSerializerMessage(className)
    ensures r.Ok? ==> r.value.cls == serializerClass.value && r.value.data == data && (r.value.many <==> data.JList?)
  {
    match serializerClass
    case None => Err(MissingSerializerMessage(className))
    case Some(cls) => Ok(Serializer(cls, data, data.JList?))
  }

  /** `serialize`: the chosen serializer's `.data`. */
  function Serialize(className: string, serializerClass: Option<SerializerClass>, data: Json): (r: Result<Json, string>)
    ensures r.Err? <==> serializerClass.None?
    ensures r.Ok? ==> r.value == serializerClass.value(data, data.JList?)
  {
    match GetSerializer(className, serializerClass, data)
    case Err(e) => Err(e)
    case Ok(s) => Ok(s.cls(s.data, s.many))
  }

  /** `to_cache_representation`: the identity. */
  function ToCacheRepresentation(obj: Json): (r: Json)
    ensures r == obj
  {
    obj
  }

  /**
   * `ModelCacheBase.get`. Unless `force_db`, a cached value is returned as
   * is. Otherwise the data is loaded; a None from the database is returned
   * with the cache untouched, and anything else is serialized, cached under
   * the key and returned.
   */
  method Get(cache: KeyedCache, key: CacheKey, forceDb: bool, getFromDb: CacheKey -> Json,
             serializerClass: Option<SerializerClass>)
    returns (r: Result<Json, string>, loaded: bool)
    modifies cache.store
    ensures loaded <==> forceDb || Lookup(old(cache.store.entries), cache.Formatted(key)) == JNull
    ensures !loaded ==> r == Ok(Lookup(old(cache.store.entries), cache.Formatted(key))) && cache.store.entries == old(cache.store.entries)
    ensures loaded && getFromDb(key) == JNull ==> r == Ok(JNull) && cache.store.entries == old(cache.store.entries)
    ensures loaded && getFromDb(key) != JNull ==>
      r == Serialize(cache.className, serializerClass, getFromDb(key))
      && (r.Err? ==> cache.store.entries == old(cache.store.entries))
      && (r.Ok? ==>
            cache.store.entries
            == AfterSet(old(cache.store.entries), cache.keyPrefix, cache.singleKey, cache.expireDuration, key, r.value, None))
  {
    var data: Json;
    if forceDb {
      data := JNull;
    } else {
      data := cache.CacheGet(key);
    }
    loaded := data == JNull;
    if loaded {
      data := getFromDb(key);
      if data == JNull {
        return Ok(JNull), loaded;
      }
      var serialized := Serialize(cache.className, serializerClass, data);
      if serialized.Err? {
        return serialized, loaded;
      }
      data := serialized.value;
      cache.CacheSet(key, data, None);
    }
    return Ok(ToCacheRepresentation(data)), loaded;
  }
}
