# Preference store: cache-aside facade and POST handler

This project models the core of a small preference service in Dafny. The service keeps one
string-to-string preference map per `(username, appName)` in a durable document
collection. It keeps a JSON snapshot of that map in a cache under the key
`username-appName`.

The model covers two parts of the service:

- **`MongoAndRedisCache`** (`internal/db/mongo.go`), the facade over both stores.
  - `UpsertPreferences` merges a partial map into the durable record, field by field,
    through a `$set` document of `preferences.<key>` paths with upsert. It then re-reads
    the whole record, bypassing the cache, and writes its JSON into the cache.
  - `GetPreferences` may answer from the cache. Otherwise it reads the durable record
    and refills the cache.
- **`SetPreferencesForApp`** (`internal/routes/set.go`), the POST handler. It deletes
  the keys `username` and `appName` from the bound body, then calls the upsert for the
  identity given by the path.

Both stores are plain state. The durable store is a `map<(string, string), Prefs>` and
the cache is a `map<string, CacheVal>`. `CacheVal = Null | Obj(map) | Malformed` stands for the JSON
text in the cache, abstracted by what `json.Unmarshal` makes of it: `Null` is the
literal `null`, `Obj(m)` is any text that decodes into the map `m`, and `Malformed` is
any text that `json.Unmarshal` refuses. A Go map value is `GoMap = Nil | Map(map)`, because
a nil map and an empty map serialise differently (`null` and `{}`). Every store failure
is an explicit fault input (`ReadFaults`, `WriteFaults`), so each error branch of the
code can be stated. A decode failure is not a fault input: it follows from the cached
value.

The model is organised in layers:

- The functions `Db.Read`, `Db.Upsert` (with its second half `Db.Refresh`) and
  `Routes.SetForApp` give each operation's result and both stores afterwards.
- The class methods `Db.MongoAndRedisCache.GetPreferences`,
  `Db.MongoAndRedisCache.UpsertPreferences` and the handler method
  `Routes.SetPreferencesForApp` perform the source's steps one at a time. Each is proved
  equal to its function.
- The lemmas in `DbProps` and `Routes` state what those functions promise.
- `Client` states the service's scenarios as method bodies that verify against the
  methods' contracts.

The model keeps one quirk of the read path as written. When `GetPreferences` reads the
durable record, it refills the cache from the local `preferences` variable. That
variable is still nil at that point (mongo.go:82 and mongo.go:113). So the cache
receives `null` while the caller receives the record. A later cached read of that
identity then returns the nil map (`DbProps.ColdReadThenCachedRead`). After a
successful write the cache holds the full merged record, because `UpsertPreferences`
overwrites the `null` that its own re-read wrote. If only that final cache write fails,
the `null` stays (`DbProps.UpsertCacheFailureKeepsMerge`).

The doc comment of `GetPreferences` (mongo.go:76-79) says that on a cache miss, or when
`fetchFromCache` is false, the record is read from the durable store and the cache is
updated. The model follows the code where that summary leaves things out:

- The cache is updated with the JSON of the still-nil local variable, which is `null`,
  not with the record just read (mongo.go:82, mongo.go:113-118).
- With `fetchFromCache`, any entry under the key answers before the durable store is
  reached (mongo.go:84-98). This includes an entry written for another identity whose
  key collides (`DbProps.CachedReadOfOtherIdentity`). So a read reports NotFound for a
  missing record only on the path that reaches the durable store
  (`DbProps.ReadDurableFailure`).

## Model

| member | source | states |
|---|---|---|
| `Preferences.CacheKey` | internal/db/mongo.go:68 | The cache key is the username, one `-`, then the app name: its length, prefix, separator and suffix. The same function is used at mongo.go:68, :85 and :118. |
| `Preferences.CacheKeyNotInjective` | internal/db/mongo.go:85 | `("a-b", "c")` and `("a", "b-c")` are different identities that share one cache key. |
| `Preferences.CacheKeyInjectiveWithoutSeparator` | internal/db/mongo.go:118 | When the usernames contain no `-`, equal cache keys imply equal identities. |
| `Preferences.Marshal` | internal/db/mongo.go:113 | `json.Marshal` of a Go map gives `null` exactly for the nil map, and otherwise an object with the map's entries. |
| `Preferences.Unmarshal` | internal/db/mongo.go:92-95 | Unmarshalling into a nil map variable fails with a decode error exactly for a cached value that `json.Unmarshal` refuses. `null` leaves the variable nil, and any text that decodes into a map gives that map. |
| `Preferences.MarshalRoundTrip` | internal/db/mongo.go:92-97 | Decoding an encoded map gives it back without error, and every cached value that decodes re-encodes to a text with the same decoding. |
| `Db.FieldPath` | internal/db/mongo.go:47 | The path built for a preference key names a field inside `preferences`, and that field is exactly the key. |
| `Db.SetDocument` | internal/db/mongo.go:44-49 | The `$set` document holds a path for a key exactly when the key is in the partial map, with the partial's value. It holds no other kind of path. |
| `Db.SetFields` | internal/db/mongo.go:45-49 | The fields a `$set` document names are exactly the keys whose path it holds. |
| `Db.ApplySet` | internal/db/mongo.go:53 | `$set` produces the old fields plus the named ones. Named fields take the document's value. Unnamed fields keep theirs. |
| `Db.UpdateOne` | internal/db/mongo.go:51-53 | An upserting update creates the identity's record if it is missing and leaves every other record unchanged. |
| `Db.SetDocumentDetermined` | internal/db/mongo.go:44-49 | A `$set` document is determined by the entries it sets. Any document with the properties `BuildUpdate` guarantees is the partial's `SetDocument`, so the facade sends exactly that document. |
| `Db.BuildUpdate` | internal/db/mongo.go:45-49 | The loop over the partial map, in whatever order it visits the keys, builds a document that holds `preferences.<key>` exactly for the partial's keys, each with that key's value, and no other kind of path. |
| `Db.Read` | internal/db/mongo.go:80-124 | A read changes no durable record. It either changes nothing or sets only its own cache key, to `null`. A failed read changes nothing. |
| `Db.Upsert` | internal/db/mongo.go:41-74 | A failed durable update returns StoreUnavailable and leaves both stores untouched. A write never reports NotFound or a decode error. |
| `Db.Refresh` | internal/db/mongo.go:58-73 | The re-read and cache refresh do not change the durable store. They report no NotFound for a record that exists. |
| `Db.MongoAndRedisCache.GetPreferences` | internal/db/mongo.go:80-124 | Performs the source's read steps on the object's two stores. Its result and new state equal `Read` of the old state. |
| `Db.MongoAndRedisCache.UpsertPreferences` | internal/db/mongo.go:41-74 | Builds the update, merges, re-reads through `GetPreferences` and refreshes the cache. Its result and new state equal `Upsert` of the old state. |
| `DbProps.SetDocumentMerges` | internal/db/mongo.go:44-53 | Applying the `$set` document of a partial map is a field-level merge: the old preferences overridden by the partial. |
| `DbProps.UpdateOneMerges` | internal/db/mongo.go:51-53 | The upserting update replaces the identity's record by the old record (empty if there was none) merged with the partial, and changes nothing else. |
| `DbProps.UpsertAfterUpdate` | internal/db/mongo.go:53-58 | Once the durable update succeeds, the write is the refresh step applied to the merged durable state. |
| `DbProps.RefreshOutcome` | internal/db/mongo.go:58-73 | The refresh step, case by case. A failed re-read returns StoreUnavailable and changes nothing. A failed refill returns CacheUnavailable and changes nothing. A failed final write returns CacheUnavailable and leaves `null` cached. Success caches the whole record. |
| `DbProps.UpsertMergesRecord` | internal/db/mongo.go:44-56 | Once the update succeeds, whatever fails later, the record is the old preferences overridden by the partial. Keys absent from the partial keep their values. A new record holds exactly the partial. No other record changes. |
| `DbProps.UpsertSucceedsIff` | internal/db/mongo.go:53-73 | A write succeeds if and only if the update, the re-read, the refill and the final cache write all succeed. |
| `DbProps.UpsertSuccessState` | internal/db/mongo.go:58-71 | After a successful write, the durable store holds the merged record. The cache entry under `username-appName` holds that whole merged record, not the partial. Nothing else changes. |
| `DbProps.UpsertCacheFailureKeepsMerge` | internal/db/mongo.go:68-71 | A cache failure after a successful update returns CacheUnavailable, and the merge is not rolled back. The cache is left as it was, or holds `null` if only the final write failed. |
| `DbProps.ReadCacheHit` | internal/db/mongo.go:84-98 | With the cache enabled and an entry present, the read changes nothing and returns the decoded entry. A cached `null` gives the nil map without error, an object gives its members, and only other text gives a decode error. |
| `DbProps.CacheHitSkipsDurable` | internal/db/mongo.go:84-98 | On a cache hit the result does not depend on the durable store, and nothing is written. |
| `DbProps.ReadBypassIgnoresCache` | internal/db/mongo.go:84-105 | When the cache is bypassed or unreachable, the read's result depends only on the durable store. |
| `DbProps.ReadDurableFailure` | internal/db/mongo.go:101-105 | Without a usable cache entry, a missing record returns NotFound and an unreachable store returns StoreUnavailable. In both cases the cache is not written. |
| `DbProps.ReadRefillWritesNull` | internal/db/mongo.go:107-123 | On the durable-hit path the caller receives the record and the cache receives `null`. A failed refill fails the read although the record was found. |
| `DbProps.WriteThenCachedRead` | internal/db/mongo.go:58-71 | After a successful write, a fault-free cached read returns exactly the durable record: cache and durable store agree. |
| `DbProps.TwoWritesThenCachedRead` | internal/db/mongo.go:44-71 | Two successful writes, then a cached read, return the old record overridden by the first partial, then by the second. |
| `DbProps.FaultFreeUpsertSucceeds` | internal/db/mongo.go:53-73 | Without faults, a write succeeds. |
| `DbProps.FaultFreeWritesThenCachedRead` | internal/db/mongo.go:41-74 | Without faults, two writes and a cached read return the union of the two partials over the old record, the second winning. |
| `DbProps.ThemeThenLanguage` | internal/db/mongo.go:41-74 | Writing `{"theme":"dark"}` then `{"lang":"en"}` for a new identity, then reading through the cache, returns both keys. |
| `DbProps.ColdReadThenCachedRead` | internal/db/mongo.go:82-123 | A cold cached read returns the record but leaves `null` cached, so the next cached read returns the nil map. |
| `DbProps.CachedReadOfOtherIdentity` | internal/db/mongo.go:68 | After a write for `("a-b", "c")`, a cached read of `("a", "b-c")` returns the first identity's record. |
| `Routes.StripIdentityKeys` | internal/routes/set.go:24-25 | The stripped body holds neither `username` nor `appName`. It keeps every other body entry with its value and adds nothing. |
| `Routes.SetForApp` | internal/routes/set.go:18-22 | A body that fails to bind returns 400 `"Invalid request body"` and leaves both stores untouched. Any response the handler writes is a 200 or a 400. |
| `Routes.SetPreferencesForApp` | internal/routes/set.go:14-35 | Performs the handler's steps: bind check, two deletes, the call to the facade. Its result and the stores afterwards equal `SetForApp`. |
| `Routes.BoundBodyDelegates` | internal/routes/set.go:28-34 | A bound body is written through the upsert with its identity keys removed. The store's error is returned unchanged. Success is 200 with an empty body. |
| `Routes.OtherKeysPassedThrough` | internal/routes/set.go:18-29 | On success the record is the old preferences overridden by exactly the body's other entries, each with its value. |
| `Routes.FaultFreePost` | internal/routes/set.go:14-35 | Without faults, a bound POST gets 200 and merges the body's other entries into the record the path names. |
| `Routes.IdentityFromPath` | internal/routes/set.go:15-29 | The handler's result and effect do not depend on the body's `username` or `appName` entries. No record other than the path's changes. |
| `Routes.HandlerDurable` | internal/routes/set.go:24-29 | After the handler, the durable store holds the stripped body merged into the path's record, or is unchanged if binding or the update failed. |
| `Routes.HandlerKeepsNoIdentityKeys` | internal/routes/set.go:24-29 | If no record has a `username` or `appName` preference, none has one after the handler, whatever the body and whichever step fails. |

## Left out

- `NewMongoAndRedisCache` (mongo.go:16-36) is not modelled. It only opens connections and pings the cache. The class constructor takes both stores' initial contents instead.
- `main.go` (configuration from the environment, server start-up, middleware, routing) and the `Database` interface are not modelled. The interface only gives the method shapes.
- `GetPreferencesForApp` in internal/routes/get.go is not modelled. It only calls `GetPreferences` with `fetchFromCache = true` and returns the map as JSON.
- The placeholder handlers `GetPreferences` and `SetPreferences` are not modelled. They only answer "Hello, World!".
- The error branches of `json.Marshal` (mongo.go:64-66 and :114-116) are left out. Marshalling a `map[string]string` cannot fail.
- The error branch of `redisResult.Result()` (mongo.go:88-90) is left out. It reports the same error as `Err()`, which was just found nil.
- BSON decoding failures (mongo.go:108-111) are left out. The specific `ErrNoDocuments` value is shown as NotFound.
- `Db.FieldPath` models the string `"preferences." + key` as the path `Path("preferences", key)`, a parent field and one subfield, so the model stores every key as one field. MongoDB agrees only for keys that are non-empty and contain no `.`, with no leading `$`. The update fails for keys that are empty, start with `$`, have an empty segment (`a.`, `.a`, `a..b`), or whose prefix already holds a string. Other dotted keys are stored as nested documents, and the record then fails to decode into a string map on every later durable read, including the re-read of the write itself.
- `Db.UpdateOne` treats a missing `preferences` field as an empty map. The record created by an empty `$set` on a missing identity, which would read back as a nil map, is not modelled.
- Echo's `Bind` is abstracted to its outcome: `Bound(map)` or `BindFailed`. The bound map may hold `username` and `appName`, from the body or copied in from the path parameters.
- What the framework answers for an error a handler returns is not modelled.
- A cache write that fails is modelled as not written. A write that lands but reports a timeout is not modelled.
- Reads and writes of the cache have no expiry in the source and none in the model.
- Context cancellation and concurrent requests on one identity are not modelled. The code adds no locking, so each call is modelled as atomic and sequential.
