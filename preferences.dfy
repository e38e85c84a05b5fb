/** Values shared by the preference store and its HTTP handler: preference maps,
    Go map values (which may be nil), their JSON text in the cache, the errors
    the stores report, and the key under which a record is cached. */
module Preferences {

  /** The payload of a preference record: keys are unique, order is irrelevant. */
  type Prefs = map<string, string>

  /** A Go `map[string]string` value: either the nil map or an allocated map. */
  datatype GoMap = Nil | Map(entries: Prefs)

  /** The JSON text held in the cache, abstracted by what `json.Unmarshal` makes
      of it in a nil `map[string]string` variable: `Null` is the literal `null`,
      `Obj(m)` is any text it decodes into `m` (key order, spacing and members
      that are `null` included), and `Malformed` is any text it refuses. */
  datatype CacheVal = Null | Obj(fields: Prefs) | Malformed

  /** The failures the two stores and the JSON decoder report. */
  datatype Error =
    | StoreUnavailable   // the durable store could not be reached or refused the call
    | NotFound           // no durable record for the identity
    | CacheUnavailable   // the cache refused a write
    | DecodeFailed       // the cached text is not a JSON object of strings

  datatype Result<T> = Ok(value: T) | Err(error: Error)

  /** `json.Marshal` of a Go map: the nil map becomes `null`, any other map an
      object; it never produces text that does not decode. */
  function Marshal(v: GoMap): (c: CacheVal)
    ensures c.Null? <==> v.Nil?
    ensures v.Map? ==> c.Obj? && c.fields == v.entries
  {
    match v
    case Nil => Null
    case Map(m) => Obj(m)
  }

  /** `json.Unmarshal` into a nil `map[string]string` variable: `null` leaves the
      variable nil, text that decodes into a map allocates that map, and text it
      refuses is a decode error. */
  function Unmarshal(c: CacheVal): (r: Result<GoMap>)
    ensures r.Err? <==> c.Malformed?
    ensures r.Err? ==> r.error == DecodeFailed
    ensures c.Null? ==> r == Ok(Nil)
    ensures c.Obj? ==> r == Ok(Map(c.fields))
  {
    match c
    case Null => Ok(Nil)
    case Obj(m) => Ok(Map(m))
    case Malformed => Err(DecodeFailed)
  }

  /** Decoding what was encoded gives the map back, and every cached value that
      decodes re-encodes to a text with the same decoding. */
  lemma MarshalRoundTrip(v: GoMap, c: CacheVal)
    ensures Unmarshal(Marshal(v)) == Ok(v)
    ensures Unmarshal(c).Ok? ==> Marshal(Unmarshal(c).value) == c
  {
  }

  const Separator: char := '-'

  /** The cache key `fmt.Sprintf("%s-%s", username, appName)`. */
  function CacheKey(username: string, appName: string): (key: string)
    ensures |key| == |username| + 1 + |appName|
    ensures key[..|username|] == username
    ensures key[|username|] == Separator
    ensures key[|username| + 1..] == appName
  {
    username + [Separator] + appName
  }

  /** The cache key does not determine the identity: two different identities
      share one cache entry. */
  lemma CacheKeyNotInjective()
    ensures ("a-b", "c") != ("a", "b-c")
    ensures CacheKey("a-b", "c") == CacheKey("a", "b-c")
  {
    assert CacheKey("a-b", "c") == "a-b-c";
    assert CacheKey("a", "b-c") == "a-b-c";
  }

  predicate NoSeparator(s: string)
  {
    forall i :: 0 <= i < |s| ==> s[i] != Separator
  }

  /** When usernames contain no separator the cache key does determine the
      identity: the first separator in the key ends the username. */
  lemma CacheKeyInjectiveWithoutSeparator(u1: string, a1: string, u2: string, a2: string)
    requires NoSeparator(u1) && NoSeparator(u2)
    requires CacheKey(u1, a1) == CacheKey(u2, a2)
    ensures u1 == u2 && a1 == a2
  {
  }
}
