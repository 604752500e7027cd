/**
  `persisted`: a property whose value lives in a key-value store, optionally memoised on
  the instance and optionally passed through an encode/decode pair.
  Python's `None` is `Option.None`; a serializer function that raises answers `None`.
*/
module Persistent {
  import opened Wrappers

  /**
    `encode` may raise (None) or return any value, Python None included; `decode` is only
    applied to a stored value that is not None, and may raise (None) or return None.
  */
  datatype Serializer<!V> = Serializer(encode: Option<V> -> Option<Option<V>>, decode: V -> Option<Option<V>>)

  /** The stored value after decoding; a raised decode reads as None. */
  function Decoded<V>(stored: Option<V>, serializer: Option<Serializer<V>>): Option<V> {
    if serializer.Some? && stored.Some? then
      match serializer.value.decode(stored.value)
      case None => None
      case Some(d) => d
    else stored
  }

  /** What a read of the store yields: the decoded value, or the default when that is None. */
  function Load<V>(stored: Option<V>, serializer: Option<Serializer<V>>, default: Option<V>): (r: Option<V>)
    ensures stored.None? ==> r == default
    ensures serializer.None? ==> r == if stored.None? then default else stored
    ensures serializer.Some? && stored.Some? && serializer.value.decode(stored.value).None? ==> r == default
    ensures r.None? ==> default.None?
  {
    var v := Decoded(stored, serializer);
    if v.None? then default else v
  }

  /** The value the setter hands to the store: the encoded value, or a raised encode. */
  function ToStore<V>(value: Option<V>, serializer: Option<Serializer<V>>): (r: Result<Option<V>, string>)
    ensures serializer.None? ==> r == Success(value)
    ensures serializer.Some? ==> (r.Failure? <==> serializer.value.encode(value).None?)
  {
    if serializer.None? then Success(value)
    else match serializer.value.encode(value)
      case None => Failure("Error encoding value")
      case Some(e) => Success(e)
  }

  /** Without a serializer a stored value other than None reads back unchanged. */
  lemma PlainRoundTrip<V>(value: V, default: Option<V>)
    ensures ToStore(Some(value), None).Success?
    ensures Load(ToStore(Some(value), None).value, None, default) == Some(value)
  {
  }

  /**
    With a serializer whose decode inverts its encode on `value`, a stored value reads back
    as `value`.
  */
  lemma SerializedRoundTrip<V>(value: V, serializer: Serializer<V>, default: Option<V>)
    requires serializer.encode(Some(value)).Some? && serializer.encode(Some(value)).value.Some?
    requires serializer.decode(serializer.encode(Some(value)).value.value) == Some(Some(value))
    ensures ToStore(Some(value), Some(serializer)).Success?
    ensures Load(ToStore(Some(value), Some(serializer)).value, Some(serializer), default) == Some(value)
  {
  }

  /** `DefaultStorage` over a pickledb database: `get` and `set` followed by `dump`. */
  class DefaultStorage<V> {
    /** The database in memory. */
    var data: map<string, Option<V>>
    /** The database as last dumped to its file. */
    var dumped: map<string, Option<V>>
    /** What pickledb answers for a missing key (False in pickledb 0.9, None later). */
    const missing: Option<V>
    /** How many times `get` has been called. */
    ghost var gets: nat

    constructor (data: map<string, Option<V>>, missing: Option<V>)
      ensures this.data == data && dumped == data && this.missing == missing && gets == 0
    {
      this.data := data;
      dumped := data;
      this.missing := missing;
      gets := 0;
    }

    method Get(key: string) returns (v: Option<V>)
      modifies this`gets
      ensures gets == old(gets) + 1
      ensures v == if key in data then data[key] else missing
    {
      gets := gets + 1;
      v := if key in data then data[key] else missing;
    }

    /** `set`: write the key, then dump the whole database to its file. */
    method Set(key: string, value: Option<V>)
      modifies this`data, this`dumped
      ensures data == old(data)[key := value] && dumped == data
    {
      data := data[key := value];
      dumped := data;
    }
  }

  /** One `persisted(key, default, use_cache, serializer)` property on one instance. */
  class Persisted<V> {
    const store: DefaultStorage<V>
    const key: string
    const default: Option<V>
    const useCache: bool
    const serializer: Option<Serializer<V>>
    /** The instance attribute `_cache_<key>`: absent until first read or set. */
    var cached: Option<Option<V>>

    constructor (store: DefaultStorage<V>, key: string, default: Option<V>, useCache: bool,
                 serializer: Option<Serializer<V>>)
      ensures this.store == store && this.key == key && this.default == default
      ensures this.useCache == useCache && this.serializer == serializer && cached.None?
    {
      this.store := store;
      this.key := key;
      this.default := default;
      this.useCache := useCache;
      this.serializer := serializer;
      cached := None;
    }

    /** What the store holds for the key, as `get` would answer it. */
    function Stored(): Option<V>
      reads this, store
    {
      if key in store.data then store.data[key] else store.missing
    }

    /**
      The getter. With the cache on, the store is read only when the attribute is still
      absent and later reads return the memoised value; with it off, every read goes to
      the store.
    */
    method Get() returns (v: Option<V>)
      modifies this`cached, store`gets
      ensures store.data == old(store.data)
      ensures useCache && old(cached).Some? ==> v == old(cached).value && cached == old(cached) && store.gets == old(store.gets)
      ensures useCache && old(cached).None? ==> v == Load(Stored(), serializer, default) && cached == Some(v) && store.gets == old(store.gets) + 1
      ensures !useCache ==> v == Load(Stored(), serializer, default) && cached == old(cached) && store.gets == old(store.gets) + 1
    {
      if useCache {
        if cached.None? {
          var raw := store.Get(key);
          cached := Some(Load(raw, serializer, default));
        }
        return cached.value;
      }
      var raw := store.Get(key);
      v := Load(raw, serializer, default);
    }

    /**
      The setter. A raised encode propagates before the store is touched; otherwise the store
      gets the encoded value and, with the cache on, so does the attribute (the encoded value,
      not the one given).
    */
    method Set(value: Option<V>) returns (r: Result<(), string>)
      modifies this`cached, store`data, store`dumped
      ensures r.Failure? <==> ToStore(value, serializer).Failure?
      ensures r.Failure? ==> store.data == old(store.data) && store.dumped == old(store.dumped) && cached == old(cached)
      ensures r.Success? ==> store.data == old(store.data)[key := ToStore(value, serializer).value] && store.dumped == store.data
      ensures r.Success? ==> cached == if useCache then Some(ToStore(value, serializer).value) else old(cached)
    {
      var toStore := ToStore(value, serializer);
      if toStore.Failure? {
        return Failure(toStore.error);
      }
      store.Set(key, toStore.value);
      if useCache {
        cached := Some(toStore.value);
      }
      r := Success(());
    }
  }

  /**
    With the cache on and no serializer, a set followed by a get gives back the value set,
    without reading the store again.
  */
  method SetThenGet<V>(p: Persisted<V>, value: Option<V>) returns (v: Option<V>)
    requires p.useCache && p.serializer.None?
    modifies p, p.store
    ensures v == value && p.store.gets == old(p.store.gets)
  {
    var _ := p.Set(value);
    v := p.Get();
  }
}
