/** The POST handler `SetPreferencesForApp` (internal/routes/set.go): the record's
    identity comes from the path, the preferences from the bound body with the
    keys `username` and `appName` removed, and the write is delegated to the
    facade's UpsertPreferences. */
module Routes {
  import opened Preferences
  import opened Db
  import opened DbProps

  const StatusOK: int := 200
  const StatusBadRequest: int := 400

  /** The response the handler writes itself; a returned error is left to the
      framework's error handler. */
  datatype Response = Response(status: int, body: string)

  /** What binding the request produced: a string map, or a failure to bind. */
  datatype Bound = Bound(preferences: Prefs) | BindFailed

  const IdentityKeys: set<string> := {"username", "appName"}

  /** The body with the identity keys deleted (set.go:24-25). */
  function StripIdentityKeys(body: Prefs): (r: Prefs)
    ensures "username" !in r && "appName" !in r
    ensures forall key :: key in body && key !in IdentityKeys ==> key in r && r[key] == body[key]
    ensures r.Keys <= body.Keys
  {
    body - IdentityKeys
  }

  /** What one call of the handler returns, and both stores afterwards. */
  function SetForApp(s: Stores, username: string, appName: string, bind: Bound, f: WriteFaults): (o: Outcome<Response>)
    ensures bind.BindFailed? ==> o == Outcome(Ok(Response(StatusBadRequest, "Invalid request body")), s)
    ensures o.result.Ok? ==> o.result.value.status in {StatusOK, StatusBadRequest}
  {
    match bind
    case BindFailed => Outcome(Ok(Response(StatusBadRequest, "Invalid request body")), s)
    case Bound(body) =>
      var w := Upsert(s, username, appName, StripIdentityKeys(body), f);
      if w.result.Err? then Outcome(Err(w.result.error), w.after)
      else Outcome(Ok(Response(StatusOK, "")), w.after)
  }

  /** The handler, step by step. `username` and `appName` are the path parameters. */
  method SetPreferencesForApp(db: MongoAndRedisCache, username: string, appName: string, bind: Bound, f: WriteFaults)
    returns (r: Result<Response>)
    modifies db
    ensures r == SetForApp(old(db.State()), username, appName, bind, f).result
    ensures db.State() == SetForApp(old(db.State()), username, appName, bind, f).after
  {
    if bind.BindFailed? {
      return Ok(Response(StatusBadRequest, "Invalid request body"));
    }
    var preferences := bind.preferences;

    preferences := preferences - {"username"};
    preferences := preferences - {"appName"};
    assert preferences == StripIdentityKeys(bind.preferences);

    var err := db.UpsertPreferences(username, appName, preferences, f);
    if err.Err? {
      return Err(err.error);
    }

    return Ok(Response(StatusOK, ""));
  }

  /** A bound body is written through the facade with its identity keys removed;
      the facade's error is returned unchanged, and its success is a 200 with an
      empty body. */
  lemma BoundBodyDelegates(s: Stores, username: string, appName: string, body: Prefs, f: WriteFaults)
    ensures var h, w := SetForApp(s, username, appName, Bound(body), f),
                        Upsert(s, username, appName, StripIdentityKeys(body), f);
      && h.after == w.after
      && (w.result.Err? ==> h.result == Err(w.result.error))
      && (w.result.Ok? ==> h.result == Ok(Response(StatusOK, "")))
  {
  }

  /** Every body entry other than the identity keys reaches the record unchanged:
      on success the record is the old preferences overridden by exactly those
      entries. */
  lemma OtherKeysPassedThrough(s: Stores, username: string, appName: string, body: Prefs, f: WriteFaults)
    requires SetForApp(s, username, appName, Bound(body), f).result.Ok?
    ensures var d := SetForApp(s, username, appName, Bound(body), f).after.durable;
      && (username, appName) in d
      && d[(username, appName)] == Existing(s.durable, (username, appName)) + (body - IdentityKeys)
      && (forall key :: key in body && key !in IdentityKeys ==> d[(username, appName)][key] == body[key])
  {
    UpsertSucceedsIff(s, username, appName, StripIdentityKeys(body), f);
    UpsertMergesRecord(s, username, appName, StripIdentityKeys(body), f);
  }

  /** Without faults a POST with a bound body is answered 200 and merges the
      body's non-identity entries into the record the path names. */
  lemma FaultFreePost(s: Stores, w: Stores, username: string, appName: string, body: Prefs)
    requires SetForApp(s, username, appName, Bound(body), NoWriteFaults).after == w
    ensures SetForApp(s, username, appName, Bound(body), NoWriteFaults) == Outcome(Ok(Response(StatusOK, "")), w)
    ensures (username, appName) in w.durable
    ensures w.durable[(username, appName)] == Existing(s.durable, (username, appName)) + (body - IdentityKeys)
  {
    UpsertSucceedsIff(s, username, appName, StripIdentityKeys(body), NoWriteFaults);
    OtherKeysPassedThrough(s, username, appName, body, NoWriteFaults);
  }

  /** The record's identity comes from the path alone: the handler does the same
      whatever the body says under `username` and `appName`, and it changes no
      record but the one the path names. */
  lemma IdentityFromPath(s: Stores, username: string, appName: string, b1: Prefs, b2: Prefs, f: WriteFaults)
    requires forall key :: key !in IdentityKeys ==> (key in b1 <==> key in b2)
    requires forall key :: key in b1 && key !in IdentityKeys ==> key in b2 && b1[key] == b2[key]
    ensures SetForApp(s, username, appName, Bound(b1), f) == SetForApp(s, username, appName, Bound(b2), f)
    ensures var d := SetForApp(s, username, appName, Bound(b1), f).after.durable;
      forall other :: other != (username, appName) ==>
        (other in d <==> other in s.durable) && (other in d ==> d[other] == s.durable[other])
  {
    assert StripIdentityKeys(b1) == StripIdentityKeys(b2);
    if !f.updateFails {
      UpsertMergesRecord(s, username, appName, StripIdentityKeys(b1), f);
    }
  }

  /** No record carries an identity key among its preferences. */
  ghost predicate NoIdentityKeys(durable: map<Identity, Prefs>)
  {
    forall id :: id in durable ==> "username" !in durable[id] && "appName" !in durable[id]
  }

  /** The durable store after the handler: the merge of the stripped body into the
      path's record once the durable update has gone through, else unchanged. */
  lemma HandlerDurable(s: Stores, username: string, appName: string, bind: Bound, f: WriteFaults)
    ensures SetForApp(s, username, appName, bind, f).after.durable ==
      if bind.Bound? && !f.updateFails
      then s.durable[(username, appName) := Existing(s.durable, (username, appName)) + StripIdentityKeys(bind.preferences)]
      else s.durable
  {
    if bind.Bound? && !f.updateFails {
      UpsertMergesRecord(s, username, appName, StripIdentityKeys(bind.preferences), f);
    }
  }

  lemma NoIdentityKeysUpdate(durable: map<Identity, Prefs>, id: Identity, record: Prefs)
    requires NoIdentityKeys(durable)
    requires "username" !in record && "appName" !in record
    ensures NoIdentityKeys(durable[id := record])
  {
  }

  /** Through this handler a record never gains a `username` or `appName`
      preference, whatever the body holds and whichever step fails. */
  lemma HandlerKeepsNoIdentityKeys(s: Stores, username: string, appName: string, bind: Bound, f: WriteFaults)
    requires NoIdentityKeys(s.durable)
    ensures NoIdentityKeys(SetForApp(s, username, appName, bind, f).after.durable)
  {
    HandlerDurable(s, username, appName, bind, f);
    if bind.Bound? && !f.updateFails {
      var record := Existing(s.durable, (username, appName)) + StripIdentityKeys(bind.preferences);
      assert "username" !in Existing(s.durable, (username, appName));
      assert "appName" !in Existing(s.durable, (username, appName));
      NoIdentityKeysUpdate(s.durable, (username, appName), record);
    }
  }
}
