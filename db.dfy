/** The cache-aside facade `MongoAndRedisCache` (internal/db/mongo.go): a durable
    collection of preference records and a cache of their JSON snapshots, both
    held as plain state. The functions Read and Upsert say what one call does to
    both stores and what it returns; the class methods perform the same steps one
    at a time and are proved against them. */
module Db {
  import opened Preferences

  /** The filter `{"username": ..., "appName": ...}` that identifies a record. */
  type Identity = (string, string)

  /** The document FindOne decodes (`PreferencesRecord`). */
  datatype PreferencesRecord = PreferencesRecord(appName: string, username: string, preferences: Prefs)

  /** The `user_preferences` collection and the cache's keyspace. */
  datatype Stores = Stores(durable: map<Identity, Prefs>, cache: map<string, CacheVal>)

  /** What one call returns, and both stores afterwards. */
  datatype Outcome<T> = Outcome(result: Result<T>, after: Stores)

  /** Fault inputs of a read.
      cacheGetFails: the cache could not be reached on GET (treated like a miss);
      findFails: the durable store could not be reached on FindOne;
      cacheSetFails: the cache refused the refill write. */
  datatype ReadFaults = ReadFaults(cacheGetFails: bool, findFails: bool, cacheSetFails: bool)

  /** Fault inputs of a write: the durable update, the re-read, the cache refresh. */
  datatype WriteFaults = WriteFaults(updateFails: bool, reread: ReadFaults, cacheSetFails: bool)

  const NoReadFaults := ReadFaults(false, false, false)
  const NoWriteFaults := WriteFaults(false, NoReadFaults, false)

  // ---------------------------------------------------------------------------
  // The `$set` update document and how the durable store applies it

  /** A dotted update path `parent.field`: the string `"preferences." + key` that
      the facade builds is the path whose parent is the `preferences` field and
      whose field is `key`. */
  datatype Path = Path(parent: string, field: string)

  /** The document field that holds a record's preference map. */
  const PreferencesField: string := "preferences"

  /** The path through which one preference is set. */
  function FieldPath(key: string): (path: Path)
    ensures IsFieldPath(path) && path.field == key
  {
    Path(PreferencesField, key)
  }

  /** Whether a path names a field inside `preferences`. */
  predicate IsFieldPath(path: Path)
  {
    path.parent == PreferencesField
  }

  /** The `$set` document that sets every entry of `partial` and nothing else. */
  function SetDocument(partial: Prefs): (doc: map<Path, string>)
    ensures forall key :: key in partial <==> FieldPath(key) in doc
    ensures forall key :: key in partial ==> FieldPath(key) in doc && doc[FieldPath(key)] == partial[key]
    ensures forall path :: path in doc ==> IsFieldPath(path)
  {
    map key | key in partial :: FieldPath(key) := partial[key]
  }

  /** A `$set` document is determined by the entries it sets: any document whose
      paths are exactly the field paths of `partial`'s keys, each carrying that
      key's value, is SetDocument(partial). */
  lemma SetDocumentDetermined(partial: Prefs, doc: map<Path, string>)
    requires forall key :: key in partial ==> FieldPath(key) in doc && doc[FieldPath(key)] == partial[key]
    requires forall path :: path in doc ==> IsFieldPath(path) && path.field in partial
    ensures doc == SetDocument(partial)
  {
    forall path | path in doc
      ensures path in SetDocument(partial) && doc[path] == SetDocument(partial)[path]
    {
      assert path == FieldPath(path.field);
    }
  }

  /** The fields of `preferences` that `$set` names. */
  function SetFields(doc: map<Path, string>): (fields: set<string>)
    ensures forall key :: key in fields <==> FieldPath(key) in doc
  {
    set path | path in doc && IsFieldPath(path) :: path.field
  }

  /** `$set` applied to a record's preferences: each named field is set (created
      if absent); every other field keeps its value. */
  function ApplySet(prefs: Prefs, doc: map<Path, string>): (r: Prefs)
    ensures r.Keys == prefs.Keys + SetFields(doc)
    ensures forall key :: key in prefs && FieldPath(key) !in doc ==> key in r && r[key] == prefs[key]
    ensures forall key :: FieldPath(key) in doc ==> key in r && r[key] == doc[FieldPath(key)]
  {
    map key | key in prefs.Keys + SetFields(doc) ::
      if FieldPath(key) in doc then doc[FieldPath(key)] else prefs[key]
  }

  /** `UpdateOne(filter, {"$set": doc})` with upsert: a missing record is created
      from the filter's fields alone, then `$set` is applied. */
  function UpdateOne(durable: map<Identity, Prefs>, id: Identity, doc: map<Path, string>): (r: map<Identity, Prefs>)
    ensures r.Keys == durable.Keys + {id}
    ensures forall other :: other in durable && other != id ==> other in r && r[other] == durable[other]
  {
    durable[id := ApplySet(Existing(durable, id), doc)]
  }

  /** The preferences of the record for `id`; the empty map when there is none. */
  function Existing(durable: map<Identity, Prefs>, id: Identity): Prefs
  {
    if id in durable then durable[id] else map[]
  }

  // ---------------------------------------------------------------------------
  // The two operations, as functions of both stores

  /** GetPreferences (mongo.go:80-124). With `fetchFromCache` and a usable cache
      entry, that entry is decoded and returned, or its decode error, and nothing is
      written. Otherwise
      the durable record is read; a failure is returned as is; on success the cache
      is refilled with the serialisation of the still-nil local `preferences`
      (the JSON `null`), and the record's preferences are returned. */
  function Read(s: Stores, username: string, appName: string, fetchFromCache: bool, f: ReadFaults): (o: Outcome<GoMap>)
    ensures o.after == s || o.after == s.(cache := s.cache[CacheKey(username, appName) := Null])
    ensures o.result.Err? ==> o.after == s
  {
    var key := CacheKey(username, appName);
    if fetchFromCache && !f.cacheGetFails && key in s.cache then
      Outcome(Unmarshal(s.cache[key]), s)
    else if f.findFails then Outcome(Err(StoreUnavailable), s)
    else if (username, appName) !in s.durable then Outcome(Err(NotFound), s)
    else if f.cacheSetFails then Outcome(Err(CacheUnavailable), s)
    else Outcome(Ok(Map(s.durable[(username, appName)])), s.(cache := s.cache[key := Marshal(Nil)]))
  }

  /** UpsertPreferences (mongo.go:41-74): merge `partial` into the durable record,
      then refresh the cache from the merged record. A failed update is returned
      as is and touches neither store. */
  function Upsert(s: Stores, username: string, appName: string, partial: Prefs, f: WriteFaults): (o: Outcome<()>)
    ensures f.updateFails ==> o == Outcome(Err(StoreUnavailable), s)
    ensures o.result != Err(NotFound) && o.result != Err(DecodeFailed)
  {
    if f.updateFails then Outcome(Err(StoreUnavailable), s)
    else Refresh(s.(durable := UpdateOne(s.durable, (username, appName), SetDocument(partial))), username, appName, f)
  }

  /** The second half of UpsertPreferences (mongo.go:58-73): re-read the whole
      record bypassing the cache, then cache its serialisation. */
  function Refresh(merged: Stores, username: string, appName: string, f: WriteFaults): (o: Outcome<()>)
    ensures o.after.durable == merged.durable
    ensures (username, appName) in merged.durable ==> o.result != Err(NotFound)
    ensures o.result.Err? ==> o.result != Err(DecodeFailed)
  {
    var reread := Read(merged, username, appName, false, f.reread);
    if reread.result.Err? then Outcome(Err(reread.result.error), reread.after)
    else if f.cacheSetFails then Outcome(Err(CacheUnavailable), reread.after)
    else
      var cache := reread.after.cache[CacheKey(username, appName) := Marshal(reread.result.value)];
      Outcome(Ok(()), reread.after.(cache := cache))
  }

  // ---------------------------------------------------------------------------
  // The facade, step by step

  /** The loop at mongo.go:45-49: one `preferences.<key>` entry per preference,
      visited in whatever order the map yields its keys. */
  method BuildUpdate(preferences: Prefs) returns (doc: map<Path, string>)
    ensures forall key :: key in preferences ==> FieldPath(key) in doc && doc[FieldPath(key)] == preferences[key]
    ensures forall path :: path in doc ==> IsFieldPath(path) && path.field in preferences
  {
    doc := map[];
    var todo := preferences.Keys;
    while todo != {}
      invariant todo <= preferences.Keys
      invariant forall path :: path in doc ==> IsFieldPath(path) && path.field in preferences && path.field !in todo
      invariant forall key :: key in preferences && key !in todo ==> FieldPath(key) in doc && doc[FieldPath(key)] == preferences[key]
      decreases todo
    {
      var key :| key in todo;
      doc := doc[FieldPath(key) := preferences[key]];
      todo := todo - {key};
    }
  }

  class MongoAndRedisCache {
    /** The `user_preferences` collection: one preference map per identity. */
    var durable: map<Identity, Prefs>
    /** The cache's keyspace: JSON snapshots under `username-appName`. */
    var cache: map<string, CacheVal>

    function State(): Stores
      reads this
    {
      Stores(durable, cache)
    }

    constructor (durable: map<Identity, Prefs>, cache: map<string, CacheVal>)
      ensures State() == Stores(durable, cache)
    {
      this.durable := durable;
      this.cache := cache;
    }

    method GetPreferences(username: string, appName: string, fetchFromCache: bool, f: ReadFaults)
      returns (r: Result<GoMap>)
      modifies this
      ensures r == Read(old(State()), username, appName, fetchFromCache, f).result
      ensures State() == Read(old(State()), username, appName, fetchFromCache, f).after
    {
      var preferences: GoMap := Nil;

      if fetchFromCache {
        var key := CacheKey(username, appName);
        if !f.cacheGetFails && key in cache {
          var decoded := Unmarshal(cache[key]);
          if decoded.Err? {
            return Err(decoded.error);
          }
          preferences := decoded.value;
          return Ok(preferences);
        }
      }

      if f.findFails {
        return Err(StoreUnavailable);
      }
      if (username, appName) !in durable {
        return Err(NotFound);
      }
      var res := PreferencesRecord(appName, username, durable[(username, appName)]);

      var jsonData := Marshal(preferences);
      if f.cacheSetFails {
        return Err(CacheUnavailable);
      }
      cache := cache[CacheKey(username, appName) := jsonData];

      return Ok(Map(res.preferences));
    }

    method UpsertPreferences(username: string, appName: string, preferences: Prefs, f: WriteFaults)
      returns (r: Result<()>)
      modifies this
      ensures r == Upsert(old(State()), username, appName, preferences, f).result
      ensures State() == Upsert(old(State()), username, appName, preferences, f).after
    {
      var update := BuildUpdate(preferences);
      SetDocumentDetermined(preferences, update);

      if f.updateFails {
        return Err(StoreUnavailable);
      }
      durable := UpdateOne(durable, (username, appName), update);

      var fetched := GetPreferences(username, appName, false, f.reread);
      if fetched.Err? {
        return Err(fetched.error);
      }

      var jsonData := Marshal(fetched.value);
      if f.cacheSetFails {
        return Err(CacheUnavailable);
      }
      cache := cache[CacheKey(username, appName) := jsonData];

      return Ok(());
    }
  }
}
