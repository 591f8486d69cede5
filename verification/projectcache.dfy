/** `fetchZohoProjects` (worker.js:118-138): a cache-aside read of the project
    list through the worker's key-value namespace. The namespace is a map
    from keys to stored text and TTL; the two upstream calls it may make
    (the Zoho token refresh and the project listing) are recorded in a log
    and their replies are inputs. */
module ProjectCache {
  import opened Wrappers
  import opened Json
  import opened JsonParse

  const CacheKey := "zoho_projects"
  const CacheTtl: nat := 3600

  /** A stored value and the expiration TTL, in seconds, it was put with. */
  datatype Entry = Entry(text: string, ttl: nat)

  /** The upstream calls a miss makes, in order. */
  datatype Request = TokenRequest | ProjectListRequest(accessToken: string)

  /** `env.CACHE.get(key, 'json')`: null for a missing key, otherwise the
      stored text parsed as JSON (which throws if it is not JSON). */
  function CachedValue(entries: map<string, Entry>, key: string): (r: Result<JsValue>)
    ensures key !in entries ==> r == Success(Null)
    ensures key in entries ==> r == Parse(entries[key].text)
  {
    if key in entries then Parse(entries[key].text) else Success(Null)
  }

  // ---------------------------------------------------------------------
  // `data.projects.map(p => ({ id: p.id_string, name: p.name }))`

  /** The summary of one project; reading a property of a null or missing
      project throws. */
  function ProjectSummary(p: JsValue): (r: Result<JsValue>)
    ensures r.Success? <==> !(p.Undefined? || p.Null?)
    ensures r.Success? ==>
      r.value.Obj? && UniqueKeys(r.value.members)
      && Get(r.value, "id") == Get(p, "id_string") && Get(r.value, "name") == Get(p, "name")
  {
    match Member(p, "id_string")
    case Failure(e) => Failure(e)
    case Success(id) =>
      var ms := [Field("id", id), Field("name", Get(p, "name"))];
      assert |"id"| != |"name"|;
      assert ms[..1] == [Field("id", id)];
      assert Lookup(ms, "id") == Lookup(ms[..1], "id");
      Success(Obj(ms))
  }

  // ---------------------------------------------------------------------
  // The specification of one call

  /** What a miss yields from the token refresh and the listing reply (each
      a Failure when that step throws): the mapped list, or the error. */
  function MissOutcome(token: Result<string>, listing: Result<JsValue>): (r: Result<JsValue>)
    ensures r.Success? ==> r.value.Arr?
  {
    if token.Failure? then Failure(token.error)
    else if listing.Failure? then Failure(listing.error)
    else
      match Member(listing.value, "projects")
      case Failure(e) => Failure(e)
      case Success(projects) =>
        if !Truthy(projects) then Failure("Failed to fetch projects")
        else if !projects.Arr? then Failure("data.projects.map is not a function")
        else
          match MapAll(ProjectSummary, projects.items)
          case Failure(e) => Failure(e)
          case Success(qs) => Success(Arr(qs))
  }

  /** A hit: the cached value is present and truthy. */
  predicate Hit(entries: map<string, Entry>) {
    var c := CachedValue(entries, CacheKey);
    c.Success? && Truthy(c.value)
  }

  /** The result of `fetchZohoProjects`: the cached list on a hit, the
      fetched one on a miss, and never a falsy value. */
  function FetchOutcome(entries: map<string, Entry>, token: Result<string>, listing: Result<JsValue>): (r: Result<JsValue>)
    ensures Hit(entries) ==> r == CachedValue(entries, CacheKey)
    ensures CachedValue(entries, CacheKey).Success? && !Hit(entries) ==> r == MissOutcome(token, listing)
    ensures r.Success? ==> Truthy(r.value)
  {
    match CachedValue(entries, CacheKey)
    case Failure(e) => Failure(e)
    case Success(cached) => if Truthy(cached) then Success(cached) else MissOutcome(token, listing)
  }

  /** The namespace afterwards: only a miss that produced a list stores it,
      and no other key is touched. */
  function StoreAfter(entries: map<string, Entry>, token: Result<string>, listing: Result<JsValue>): (r: map<string, Entry>)
    ensures forall key :: key != CacheKey ==> (key in r <==> key in entries) && (key in r ==> r[key] == entries[key])
    ensures Hit(entries) || MissOutcome(token, listing).Failure? ==> r == entries
    ensures CacheKey in r && CacheKey in entries && r[CacheKey] != entries[CacheKey] ==> r[CacheKey].ttl == CacheTtl
  {
    if CachedValue(entries, CacheKey).Failure? || Hit(entries) then entries
    else match MissOutcome(token, listing)
      case Failure(_) => entries
      case Success(projects) => entries[CacheKey := Entry(Serialize(projects), CacheTtl)]
  }

  /** The upstream calls made: none on a hit (or an unreadable cache), the
      token refresh on a miss, and the listing once a token was obtained. */
  function RequestsMade(entries: map<string, Entry>, token: Result<string>): (r: seq<Request>)
    ensures Hit(entries) ==> r == []
    ensures |r| <= 2 && (r != [] ==> r[0] == TokenRequest)
    ensures |r| == 2 <==> !Hit(entries) && CachedValue(entries, CacheKey).Success? && token.Success?
  {
    if CachedValue(entries, CacheKey).Failure? || Hit(entries) then []
    else [TokenRequest] + (if token.Success? then [ProjectListRequest(token.value)] else [])
  }

  // ---------------------------------------------------------------------
  // The namespace and the operation

  class ProjectStore {
    /** The key-value namespace `env.CACHE`. */
    var entries: map<string, Entry>
    /** The upstream calls made so far. */
    var requests: seq<Request>

    constructor(initial: map<string, Entry>)
      ensures entries == initial && requests == []
    {
      entries := initial;
      requests := [];
    }

    /** `fetchZohoProjects(env)` */
    method FetchProjects(token: Result<string>, listing: Result<JsValue>) returns (r: Result<JsValue>)
      modifies this
      ensures r == FetchOutcome(old(entries), token, listing)
      ensures entries == StoreAfter(old(entries), token, listing)
      ensures requests == old(requests) + RequestsMade(old(entries), token)
    {
      var cached := CachedValue(entries, CacheKey);
      if cached.Failure? {
        return Failure(cached.error);
      }
      if Truthy(cached.value) {
        return Success(cached.value);
      }
      requests := requests + [TokenRequest];
      if token.Failure? {
        return Failure(token.error);
      }
      requests := requests + [ProjectListRequest(token.value)];
      r := MissOutcome(token, listing);
      if r.Success? {
        entries := entries[CacheKey := Entry(Serialize(r.value), CacheTtl)];
      }
    }

    /** The TTL running out: the namespace forgets the key. */
    method Expire(key: string)
      modifies this
      ensures entries == old(entries) - {key} && requests == old(requests)
    {
      entries := entries - {key};
    }
  }

  // ---------------------------------------------------------------------
  // Properties

  /** A hit returns the cached list and makes no upstream call and no write. */
  lemma HitNoUpstream(entries: map<string, Entry>, token: Result<string>, listing: Result<JsValue>)
    requires Hit(entries)
    ensures FetchOutcome(entries, token, listing) == CachedValue(entries, CacheKey)
    ensures StoreAfter(entries, token, listing) == entries
    ensures RequestsMade(entries, token) == []
  {
  }

  /** A miss whose listing has a `projects` array of project objects stores
      the mapped `{id, name}` list with TTL 3600 and returns that list. */
  lemma MissStores(entries: map<string, Entry>, accessToken: string, data: JsValue)
    requires CacheKey !in entries
    requires Get(data, "projects").Arr? && !(data.Undefined? || data.Null?)
    requires forall i :: 0 <= i < |Get(data, "projects").items| ==>
      !(Get(data, "projects").items[i].Undefined? || Get(data, "projects").items[i].Null?)
    ensures var ps := Get(data, "projects").items;
      var r := FetchOutcome(entries, Success(accessToken), Success(data));
      r.Success? && r.value.Arr? && |r.value.items| == |ps|
      && (forall i :: 0 <= i < |ps| ==>
            Get(r.value.items[i], "id") == Get(ps[i], "id_string")
            && Get(r.value.items[i], "name") == Get(ps[i], "name"))
      && StoreAfter(entries, Success(accessToken), Success(data))
         == entries[CacheKey := Entry(Serialize(r.value), CacheTtl)]
      && RequestsMade(entries, Success(accessToken)) == [TokenRequest, ProjectListRequest(accessToken)]
  {
  }

  /** A miss whose listing has no usable `projects` throws
      'Failed to fetch projects' and writes nothing. */
  lemma MissWithoutProjects(entries: map<string, Entry>, token: Result<string>, data: JsValue)
    requires CacheKey !in entries && token.Success?
    requires !(data.Undefined? || data.Null?) && !Truthy(Get(data, "projects"))
    ensures FetchOutcome(entries, token, Success(data)) == Failure("Failed to fetch projects")
    ensures StoreAfter(entries, token, Success(data)) == entries
  {
  }

  /** A failed token refresh stops the miss before the listing is asked for. */
  lemma TokenFailure(entries: map<string, Entry>, error: string, listing: Result<JsValue>)
    requires CacheKey !in entries
    ensures FetchOutcome(entries, Failure(error), listing) == Failure(error)
    ensures StoreAfter(entries, Failure(error), listing) == entries
    ensures RequestsMade(entries, Failure(error)) == [TokenRequest]
  {
  }

  /** Cache-aside: once a miss has stored the list, the next call is a hit
      that returns that list as JSON leaves it, whatever the upstream
      replies would have been, and calls nobody. */
  lemma SecondCallHits(entries: map<string, Entry>, token: Result<string>, listing: Result<JsValue>,
                       token2: Result<string>, listing2: Result<JsValue>)
    requires !Hit(entries) && CachedValue(entries, CacheKey).Success?
    requires MissOutcome(token, listing).Success?
    ensures var after := StoreAfter(entries, token, listing);
      var first := FetchOutcome(entries, token, listing);
      Hit(after)
      && FetchOutcome(after, token2, listing2) == Success(Strip(first.value))
      && StoreAfter(after, token2, listing2) == after
      && RequestsMade(after, token2) == []
  {
    var list := MissOutcome(token, listing).value;
    var after := StoreAfter(entries, token, listing);
    ParseSerialize(list);
    assert after[CacheKey].text == Serialize(list);
  }
}
