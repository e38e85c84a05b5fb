/** What the cache-aside facade promises, stated over the functions Read and
    Upsert that its methods are proved against. */
module DbProps {
  import opened Preferences
  import opened Db

  // ---------------------------------------------------------------------------
  // The durable merge

  /** Applying the `$set` document built from `partial` is a field-level merge:
      the record's preferences overridden by `partial`. */
  lemma SetDocumentMerges(prefs: Prefs, partial: Prefs)
    ensures ApplySet(prefs, SetDocument(partial)) == prefs + partial
  {
  }

  /** The upserting update with that document replaces the identity's record by
      the merge and leaves every other record alone. */
  lemma UpdateOneMerges(durable: map<Identity, Prefs>, id: Identity, partial: Prefs)
    ensures UpdateOne(durable, id, SetDocument(partial)) == durable[id := Existing(durable, id) + partial]
  {
    SetDocumentMerges(Existing(durable, id), partial);
  }

  /** A write whose durable update went through is the refresh of the merged state. */
  lemma UpsertAfterUpdate(s: Stores, username: string, appName: string, partial: Prefs, f: WriteFaults)
    requires !f.updateFails
    ensures Upsert(s, username, appName, partial, f) ==
      Refresh(s.(durable := s.durable[(username, appName) := Existing(s.durable, (username, appName)) + partial]),
              username, appName, f)
  {
    UpdateOneMerges(s.durable, (username, appName), partial);
  }

  /** The refresh after a merge: which step fails decides the error, and on
      success the cache holds the whole record read back. */
  lemma RefreshOutcome(merged: Stores, username: string, appName: string, f: WriteFaults)
    requires (username, appName) in merged.durable
    ensures var key, o := CacheKey(username, appName), Refresh(merged, username, appName, f);
      && o.after.durable == merged.durable
      && (f.reread.findFails ==> o == Outcome(Err(StoreUnavailable), merged))
      && (!f.reread.findFails && f.reread.cacheSetFails ==> o == Outcome(Err(CacheUnavailable), merged))
      && (!f.reread.findFails && !f.reread.cacheSetFails && f.cacheSetFails ==>
            o == Outcome(Err(CacheUnavailable), merged.(cache := merged.cache[key := Null])))
      && (!f.reread.findFails && !f.reread.cacheSetFails && !f.cacheSetFails ==>
            o == Outcome(Ok(()), merged.(cache := merged.cache[key := Obj(merged.durable[(username, appName)])])))
  {
    var key := CacheKey(username, appName);
    assert merged.cache[key := Null][key := Obj(merged.durable[(username, appName)])]
        == merged.cache[key := Obj(merged.durable[(username, appName)])];
  }

  /** Once the durable update has gone through, the record for the identity is its
      old preferences overridden by the partial map, whatever happens afterwards:
      keys absent from the partial keep their values, a record that did not exist
      holds exactly the partial's entries, and no other record changes. */
  lemma UpsertMergesRecord(s: Stores, username: string, appName: string, partial: Prefs, f: WriteFaults)
    requires !f.updateFails
    ensures var d := Upsert(s, username, appName, partial, f).after.durable;
      && d == s.durable[(username, appName) := Existing(s.durable, (username, appName)) + partial]
      && d[(username, appName)] == Existing(s.durable, (username, appName)) + partial
      && (forall key :: key in Existing(s.durable, (username, appName)) && key !in partial ==>
            d[(username, appName)][key] == Existing(s.durable, (username, appName))[key])
      && ((username, appName) !in s.durable ==> d[(username, appName)] == partial)
      && d.Keys == s.durable.Keys + {(username, appName)}
      && (forall other :: other in s.durable && other != (username, appName) ==> d[other] == s.durable[other])
  {
    UpsertAfterUpdate(s, username, appName, partial, f);
    RefreshOutcome(s.(durable := s.durable[(username, appName) := Existing(s.durable, (username, appName)) + partial]),
                   username, appName, f);
  }

  /** The write succeeds exactly when the update, the re-read and both cache writes
      succeed. */
  lemma UpsertSucceedsIff(s: Stores, username: string, appName: string, partial: Prefs, f: WriteFaults)
    ensures Upsert(s, username, appName, partial, f).result.Ok? <==>
      !f.updateFails && !f.reread.findFails && !f.reread.cacheSetFails && !f.cacheSetFails
  {
  }

  /** After a successful write the cache entry holds the whole merged record,
      not just the partial update; both stores change only at this identity. */
  lemma UpsertSuccessState(s: Stores, username: string, appName: string, partial: Prefs, f: WriteFaults)
    requires Upsert(s, username, appName, partial, f).result.Ok?
    ensures Upsert(s, username, appName, partial, f).after ==
      Stores(s.durable[(username, appName) := Existing(s.durable, (username, appName)) + partial],
             s.cache[CacheKey(username, appName) := Obj(Existing(s.durable, (username, appName)) + partial)])
  {
    UpsertAfterUpdate(s, username, appName, partial, f);
    RefreshOutcome(s.(durable := s.durable[(username, appName) := Existing(s.durable, (username, appName)) + partial]),
                   username, appName, f);
  }

  /** A cache failure after the durable update is reported as an error although the
      merge stays applied. When only the final refresh fails, the cache is left
      holding the `null` that the re-read wrote. */
  lemma UpsertCacheFailureKeepsMerge(s: Stores, username: string, appName: string, partial: Prefs, f: WriteFaults)
    requires !f.updateFails && !f.reread.findFails
    requires f.reread.cacheSetFails || f.cacheSetFails
    ensures Upsert(s, username, appName, partial, f).result == Err(CacheUnavailable)
    ensures Upsert(s, username, appName, partial, f).after.durable[(username, appName)] ==
      Existing(s.durable, (username, appName)) + partial
    ensures f.reread.cacheSetFails ==> Upsert(s, username, appName, partial, f).after.cache == s.cache
    ensures !f.reread.cacheSetFails ==>
      Upsert(s, username, appName, partial, f).after.cache == s.cache[CacheKey(username, appName) := Null]
  {
  }

  // ---------------------------------------------------------------------------
  // The read path

  /** With the cache enabled and an entry present, the decoded entry is returned
      without consulting the durable store or writing the cache: a cached `null`
      decodes to the nil map without error, an object to its members, and only
      text of another shape fails to decode. */
  lemma ReadCacheHit(s: Stores, username: string, appName: string, f: ReadFaults)
    requires !f.cacheGetFails && CacheKey(username, appName) in s.cache
    ensures var o, c := Read(s, username, appName, true, f), s.cache[CacheKey(username, appName)];
      && o.after == s
      && (c.Null? ==> o.result == Ok(Nil))
      && (c.Obj? ==> o.result == Ok(Map(c.fields)))
      && (c.Malformed? ==> o.result == Err(DecodeFailed))
  {
  }

  /** A cache hit does not consult the durable store: whatever that store holds,
      the same value is returned and nothing is written. */
  lemma CacheHitSkipsDurable(s: Stores, t: Stores, username: string, appName: string, f: ReadFaults)
    requires !f.cacheGetFails && CacheKey(username, appName) in s.cache
    requires t.cache == s.cache
    ensures Read(t, username, appName, true, f) == Outcome(Read(s, username, appName, true, f).result, t)
  {
  }

  /** When the cache is bypassed or unreachable, the result of a read depends only
      on the durable store, not on what the cache holds. */
  lemma ReadBypassIgnoresCache(s: Stores, t: Stores, username: string, appName: string, fetchFromCache: bool, f: ReadFaults)
    requires !fetchFromCache || f.cacheGetFails
    requires s.durable == t.durable
    ensures Read(s, username, appName, fetchFromCache, f).result == Read(t, username, appName, fetchFromCache, f).result
  {
  }

  /** Without a usable cache entry, a missing record is reported as NotFound and
      the cache is not written; an unreachable durable store likewise. */
  lemma ReadDurableFailure(s: Stores, username: string, appName: string, fetchFromCache: bool, f: ReadFaults)
    requires !fetchFromCache || f.cacheGetFails || CacheKey(username, appName) !in s.cache
    requires f.findFails || (username, appName) !in s.durable
    ensures Read(s, username, appName, fetchFromCache, f) ==
      Outcome(Err(if f.findFails then StoreUnavailable else NotFound), s)
  {
  }

  /** On the durable-hit path the caller receives the record's preferences but the
      cache receives `null`, the serialisation of the local variable that is still
      nil; if that cache write fails, the read fails although the record was found. */
  lemma ReadRefillWritesNull(s: Stores, username: string, appName: string, fetchFromCache: bool, f: ReadFaults)
    requires !fetchFromCache || f.cacheGetFails || CacheKey(username, appName) !in s.cache
    requires !f.findFails && (username, appName) in s.durable
    ensures var o := Read(s, username, appName, fetchFromCache, f);
      && (!f.cacheSetFails ==> o.result == Ok(Map(s.durable[(username, appName)])))
      && (!f.cacheSetFails ==> o.after.cache == s.cache[CacheKey(username, appName) := Null])
      && (f.cacheSetFails ==> o == Outcome(Err(CacheUnavailable), s))
  {
  }

  // ---------------------------------------------------------------------------
  // Sequences of calls

  /** After a successful write, a cached read returns exactly the merged record
      held by the durable store: cache and durable store agree. */
  lemma WriteThenCachedRead(s: Stores, w: Stores, username: string, appName: string, partial: Prefs, f: WriteFaults)
    requires Upsert(s, username, appName, partial, f) == Outcome(Ok(()), w)
    ensures (username, appName) in w.durable
    ensures Read(w, username, appName, true, NoReadFaults) == Outcome(Ok(Map(w.durable[(username, appName)])), w)
  {
    UpsertSuccessState(s, username, appName, partial, f);
    ReadCacheHit(w, username, appName, NoReadFaults);
  }

  /** Two successful writes to one identity, then a cached read: the union of the
      two partial maps over the old record, the second write winning on overlap. */
  lemma TwoWritesThenCachedRead(s: Stores, w1: Stores, w2: Stores, username: string, appName: string,
                                p1: Prefs, p2: Prefs, f1: WriteFaults, f2: WriteFaults)
    requires Upsert(s, username, appName, p1, f1) == Outcome(Ok(()), w1)
    requires Upsert(w1, username, appName, p2, f2) == Outcome(Ok(()), w2)
    ensures Read(w2, username, appName, true, NoReadFaults) ==
      Outcome(Ok(Map(Existing(s.durable, (username, appName)) + p1 + p2)), w2)
  {
    var id := (username, appName);
    UpsertSuccessState(s, username, appName, p1, f1);
    assert w1.durable == s.durable[id := Existing(s.durable, id) + p1];
    UpsertSuccessState(w1, username, appName, p2, f2);
    assert w2.cache[CacheKey(username, appName)] == Obj(Existing(s.durable, id) + p1 + p2);
    ReadCacheHit(w2, username, appName, NoReadFaults);
  }

  /** Without faults a write succeeds. */
  lemma FaultFreeUpsertSucceeds(s: Stores, w: Stores, username: string, appName: string, partial: Prefs)
    requires Upsert(s, username, appName, partial, NoWriteFaults).after == w
    ensures Upsert(s, username, appName, partial, NoWriteFaults) == Outcome(Ok(()), w)
  {
    UpsertSucceedsIff(s, username, appName, partial, NoWriteFaults);
  }

  /** Without faults, two writes to one identity and a cached read return the
      old record overridden by the first partial map, then by the second. */
  lemma FaultFreeWritesThenCachedRead(s: Stores, w1: Stores, w2: Stores, username: string, appName: string,
                                      p1: Prefs, p2: Prefs)
    requires Upsert(s, username, appName, p1, NoWriteFaults).after == w1
    requires Upsert(w1, username, appName, p2, NoWriteFaults).after == w2
    ensures Read(w2, username, appName, true, NoReadFaults).result ==
      Ok(Map(Existing(s.durable, (username, appName)) + p1 + p2))
  {
    FaultFreeUpsertSucceeds(s, w1, username, appName, p1);
    FaultFreeUpsertSucceeds(w1, w2, username, appName, p2);
    TwoWritesThenCachedRead(s, w1, w2, username, appName, p1, p2, NoWriteFaults, NoWriteFaults);
  }

  /** The scenario of writing `{"theme": "dark"}`, then `{"lang": "en"}`, for an
      identity with no record, then reading it through the cache. */
  lemma ThemeThenLanguage(s: Stores, w1: Stores, w2: Stores, username: string, appName: string)
    requires (username, appName) !in s.durable
    requires Upsert(s, username, appName, map["theme" := "dark"], NoWriteFaults).after == w1
    requires Upsert(w1, username, appName, map["lang" := "en"], NoWriteFaults).after == w2
    ensures Read(w2, username, appName, true, NoReadFaults).result == Ok(Map(map["theme" := "dark", "lang" := "en"]))
  {
    FaultFreeWritesThenCachedRead(s, w1, w2, username, appName, map["theme" := "dark"], map["lang" := "en"]);
    assert Existing(s.durable, (username, appName)) == map[];
    ThemeAndLanguage();
  }

  lemma ThemeAndLanguage()
    ensures map[] + map["theme" := "dark"] + map["lang" := "en"] == map["theme" := "dark", "lang" := "en"]
  {
  }

  /** A cold cached read returns the record but leaves `null` in the cache, so the
      next cached read of the same identity returns the nil map. */
  lemma ColdReadThenCachedRead(s: Stores, username: string, appName: string)
    requires (username, appName) in s.durable
    requires CacheKey(username, appName) !in s.cache
    ensures var first := Read(s, username, appName, true, NoReadFaults);
      && first.result == Ok(Map(s.durable[(username, appName)]))
      && Read(first.after, username, appName, true, NoReadFaults) == Outcome(Ok(Nil), first.after)
  {
  }

  /** Because the cache key is not injective, a cached read of one identity can
      return the record written for another, whatever that other identity holds. */
  lemma CachedReadOfOtherIdentity(s: Stores, w: Stores, partial: Prefs)
    requires Upsert(s, "a-b", "c", partial, NoWriteFaults).after == w
    ensures Read(w, "a", "b-c", true, NoReadFaults).result == Ok(Map(Existing(s.durable, ("a-b", "c")) + partial))
  {
    CacheKeyNotInjective();
    UpsertSucceedsIff(s, "a-b", "c", partial, NoWriteFaults);
    UpsertSuccessState(s, "a-b", "c", partial, NoWriteFaults);
    ReadCacheHit(w, "a", "b-c", NoReadFaults);
  }
}
