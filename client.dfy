/** The service's scenarios, stated as method bodies that verify against the
    contracts of the facade's and the handler's methods and the lemmas about
    them. */
module Client {
  import opened Preferences
  import opened Db
  import opened DbProps
  import opened Routes

  /** Two writes for ("alice", "app1"), then a cached read returns both keys. */
  method AliceWritesTwice()
  {
    var db := new MongoAndRedisCache(map[], map[]);
    var s0 := db.State();
    var r1 := db.UpsertPreferences("alice", "app1", map["theme" := "dark"], NoWriteFaults);
    var s1 := db.State();
    var r2 := db.UpsertPreferences("alice", "app1", map["lang" := "en"], NoWriteFaults);
    var s2 := db.State();
    DbProps.ThemeThenLanguage(s0, s1, s2, "alice", "app1");
    var got := db.GetPreferences("alice", "app1", true, NoReadFaults);
    assert got == Ok(Map(map["theme" := "dark", "lang" := "en"]));
  }

  /** A read of ("bob", "app2") with no prior write is NotFound. */
  method BobNeverWrote()
  {
    var db := new MongoAndRedisCache(map[], map[]);
    var got := db.GetPreferences("bob", "app2", true, NoReadFaults);
    assert got == Err(NotFound);
    assert db.cache == map[];
  }

  /** A write for ("carol", "app3") while the durable store is unreachable fails
      with StoreUnavailable and leaves both stores as they were. */
  method CarolStoreDown(durable: map<Identity, Prefs>, cache: map<string, CacheVal>)
  {
    var db := new MongoAndRedisCache(durable, cache);
    var down := NoWriteFaults.(updateFails := true);
    var r := db.UpsertPreferences("carol", "app3", map["theme" := "light"], down);
    assert r == Err(StoreUnavailable);
    assert db.durable == durable && db.cache == cache;
  }

  /** A record read cold through the cache comes back whole, but the next cached
      read of it returns the nil map. */
  method ColdReadTwice(record: Prefs)
  {
    var db := new MongoAndRedisCache(map[("dave", "app4") := record], map[]);
    var first := db.GetPreferences("dave", "app4", true, NoReadFaults);
    assert first == Ok(Map(record));
    var second := db.GetPreferences("dave", "app4", true, NoReadFaults);
    assert second == Ok(Nil);
  }

  /** A POST whose body also names a `username` writes only the other keys, to
      the record the path names. */
  method ErinPostsForeignUsername()
  {
    var db := new MongoAndRedisCache(map[], map[]);
    var s0 := db.State();
    var body := map["theme" := "dark", "username" := "mallory"];
    var r := SetPreferencesForApp(db, "erin", "app5", Bound(body), NoWriteFaults);
    FaultFreePost(s0, db.State(), "erin", "app5", body);
    assert r == Ok(Response(StatusOK, ""));
    assert Existing(s0.durable, ("erin", "app5")) == map[];
    OnlyTheme();
    assert db.durable[("erin", "app5")] == map["theme" := "dark"];
  }

  lemma OnlyTheme()
    ensures map[] + (map["theme" := "dark", "username" := "mallory"] - IdentityKeys) == map["theme" := "dark"]
  {
  }
}
