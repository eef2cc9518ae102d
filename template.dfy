/** skport/template.ts: the directory of games, and the profile lookup every
    game shares, which goes through the shared cache before the network. */
module Template {
  import opened Wrappers
  import opened Strings
  import opened Hashing
  import opened Config
  import opened Cache
  import opened Got
  import opened OAuth
  import opened SkportGot
  import opened Records

  /** `Game.list`: the games by name, and the order `keys()` lists them in. */
  class GameDirectory<G> {
    var games: map<string, G>
    var order: seq<string>

    ghost predicate Valid()
      reads this
    {
      Distinct(order) && forall k :: k in games <==> k in order
    }

    constructor ()
      ensures Valid() && games == map[] && order == []
    {
      games := map[];
      order := [];
    }

    /** `Game.list.set(name, game)`, as a game's constructor calls it: the
        name is stored as given; a new name goes last, a known one keeps its
        place and gets the new game. */
    method Register(name: string, game: G)
      requires Valid()
      modifies this
      ensures Valid()
      ensures games == old(games)[name := game]
      ensures order == if name in old(games) then old(order) else old(order) + [name]
      ensures forall n :: Lower(n) == name ==> Get(n) == Some(game)
      ensures forall n :: Lower(n) != name ==> Get(n) == old(Get(n))
    {
      if name !in games {
        order := order + [name];
      }
      games := games[name := game];
    }

    /** `Game.get`: the name is lowercased before the lookup. */
    function Get(name: string): (r: Option<G>)
      reads this
      ensures r.Some? <==> Lower(name) in games
      ensures r.Some? ==> r.value == games[Lower(name)]
    {
      if Lower(name) in games then Some(games[Lower(name)]) else None
    }

    /** `Game.getActiveGames`: every registered name, once each. */
    function ActiveGames(): (r: seq<string>)
      reads this
      requires Valid()
      ensures Distinct(r)
      ensures forall k :: k in r <==> k in games
    {
      order
    }
  }

  /** Lookups lowercase but registration does not: a game registered under
      a name with an uppercase letter is found by no name at all. */
  lemma UppercaseNameUnreachable<G>(d: GameDirectory<G>, key: string, name: string)
    requires key in d.games && !IsLower(key)
    ensures d.Get(name).Some? ==> Lower(name) != key
  {
    LowerIsLower(name);
  }

  // ---------------------------------------------------------------------
  // getProfile

  const ProfileSignPath: string := "/web/v1/wiki/me"

  /** One hour. */
  const ProfileTtl: int := 60 * 60 * 1000

  /** The arguments `getProfile` passes: account only, no game role. */
  function ProfileContext(account: Account, creds: map<string, RuntimeCredentials>, hashes: HashFunctions,
                          now: int): CallContext {
    CallContext(SkportArgs(account, Some(false), ProfileSignPath), now, creds, hashes)
  }

  function ProfileRequest(clients: map<string, GotModule<CallContext>>, account: Account, creds: map<string, RuntimeCredentials>, hashes: HashFunctions,
                          up: Upstream, now: int): Result<ApiResponse<ProfileData>, GotError> {
    Request(clients, "SKPortWeb", "wiki/me", ProfileContext(account, creds, hashes, now), up.wikiMe)
  }

  /** A reply `getProfile` keeps: code 0 with a user. */
  predicate ProfileAccepted(resp: Result<ApiResponse<ProfileData>, GotError>) {
    resp.Ok? && resp.value.code == 0 && resp.value.data.Some? && resp.value.data.value.user.Some?
  }

  /** The profile a read of the cache finds. */
  function CachedProfile(m: map<string, Entry<CacheValue>>, key: string, now: int): Option<ProfileUser> {
    var e := Lookup(m, key, now);
    if e.Some? && e.value.data.ProfileValue? then Some(e.value.data.profile) else None
  }

  /** `getProfile` as a function of the cache before the call and of what
      the profile request returns: a hit is returned as is; on a miss the
      reply's user is cached for an hour and returned; anything else, a
      throw included, gives nothing. */
  function ProfileAfter(entries: map<string, Entry<CacheValue>>, name: string, now: int,
                        resp: Result<ApiResponse<ProfileData>, GotError>): Fetched<ProfileUser> {
    var key := ProfileKey(name);
    var hit := CachedProfile(entries, key, now);
    var afterRead := AfterRead(entries, key, now);
    if hit.Some? then Fetched(hit, afterRead)
    else if ProfileAccepted(resp) then
      var user := resp.value.data.value.user.value;
      Fetched(Some(user), afterRead[key := Entry(ProfileValue(user), now, ProfileTtl)])
    else Fetched(None, afterRead)
  }

  /** `getProfile`: cache first, then the SKPortWeb profile endpoint. */
  method GetProfile(clients: map<string, GotModule<CallContext>>, cache: TtlCache<CacheValue>, creds: map<string, RuntimeCredentials>, hashes: HashFunctions,
                    up: Upstream, account: Account, now: int) returns (r: Option<ProfileUser>)
    modifies cache
    ensures var f := ProfileAfter(old(cache.entries), account.name, now, ProfileRequest(clients, account, creds, hashes, up, now));
            r == f.value && cache.entries == f.entries
  {
    var key := ProfileKey(account.name);
    ghost var hit := CachedProfile(cache.entries, key, now);
    var cached := cache.Get(key, now);
    assert hit.Some? <==> cached.Some? && cached.value.ProfileValue?;
    if cached.Some? && cached.value.ProfileValue? {
      assert hit == Some(cached.value.profile);
      return Some(cached.value.profile);
    }
    var resp := ProfileRequest(clients, account, creds, hashes, up, now);
    if resp.Ok? && resp.value.code == 0 && resp.value.data.Some? && resp.value.data.value.user.Some? {
      var user := resp.value.data.value.user.value;
      cache.Set(key, ProfileValue(user), ProfileTtl, now);
      return Some(user);
    }
    return None;
  }

  /** A cache hit makes no request: the outcome is the same whatever the
      network would have answered. */
  lemma ProfileHitIgnoresNetwork(entries: map<string, Entry<CacheValue>>, name: string, now: int,
                                 resp1: Result<ApiResponse<ProfileData>, GotError>,
                                 resp2: Result<ApiResponse<ProfileData>, GotError>)
    requires CachedProfile(entries, ProfileKey(name), now).Some?
    ensures ProfileAfter(entries, name, now, resp1) == ProfileAfter(entries, name, now, resp2)
    ensures ProfileAfter(entries, name, now, resp1).value == CachedProfile(entries, ProfileKey(name), now)
  {
  }

  /** Cache-aside round trip: a profile fetched at `now` is what any lookup
      in the following hour returns, whatever the network would answer then;
      a failed fetch caches nothing. */
  lemma ProfileCachedForAnHour(entries: map<string, Entry<CacheValue>>, name: string, now: int, later: int,
                               resp: Result<ApiResponse<ProfileData>, GotError>,
                               resp2: Result<ApiResponse<ProfileData>, GotError>)
    requires CachedProfile(entries, ProfileKey(name), now).None?
    requires now <= later < now + ProfileTtl
    ensures var f := ProfileAfter(entries, name, now, resp);
            && (f.value.Some? <==> ProfileAccepted(resp))
            && (f.value.Some? ==> ProfileAfter(f.entries, name, later, resp2).value == f.value)
            && (f.value.None? ==> f.entries == AfterRead(entries, ProfileKey(name), now))
  {
  }

  /** The profile request: sent through SKPortWeb to "wiki/me" under the
      web prefix, without `sk-game-role`, and signed with v2 exactly when the
      account has a runtime salt. It fails before sending exactly when the
      account has no credential. */
  lemma ProfileRequestShape(account: Account, creds: map<string, RuntimeCredentials>, hashes: HashFunctions, now: int)
    ensures var ctx := ProfileContext(account, creds, hashes, now);
            var p := Prepare(Clients, "SKPortWeb", "wiki/me", ctx);
            && (p.Ok? <==> EffectiveCred(ctx) != "")
            && (p.Ok? ==>
                  && p.value.url == "wiki/me"
                  && p.value.client.prefixUrl == Some("https://zonai.skport.com/web/v1")
                  && "sk-game-role" !in p.value.client.headers
                  && "sign" in p.value.client.headers
                  && p.value.client.headers["sign"]
                     == (if EffectiveSalt(ctx) != "" then SignV2(hashes, ProfileSignPath, Timestamp(now), "3", "1.0.0", EffectiveSalt(ctx))
                         else SignV1(hashes, Timestamp(now), EffectiveCred(ctx))))
  {
    var ctx := ProfileContext(account, creds, hashes, now);
    PreparedStatic(SkportWebModule, "wiki/me", ctx);
    SignVersionV2Examples();
    SignatureChoice(ctx, Timestamp(now), EffectiveCred(ctx));
  }
}
