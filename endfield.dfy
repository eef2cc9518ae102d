/** skport/endfield/index.ts: the Endfield game. It keeps one credential per
    account fresh (reusing it for thirty minutes, else running the OAuth
    exchange, else falling back to the configured credential), builds the
    per-account state at start-up, and fetches the game card through the
    shared cache. */
module Endfield {
  import opened Wrappers
  import opened Strings
  import opened Hashing
  import opened Config
  import opened Cache
  import opened Got
  import opened OAuth
  import opened SkportGot
  import opened Records
  import opened Template

  /** `Endfield.REGEN_RATE`: seconds per stamina point. */
  const RegenRate: int := 432

  /** Credentials younger than this are reused: thirty minutes. */
  const CredentialTtl: int := 30 * 60 * 1000

  /** Game stats are cached for ten minutes. */
  const StatsTtl: int := 10 * 60 * 1000

  const CardSignPath: string := "/api/v1/game/endfield/card/detail"
  const CardUrl: string := "game/endfield/card/detail"

  /** Every stored credential can sign a request. */
  ghost predicate CredsUsable(m: map<string, RuntimeCredentials>) {
    forall k :: k in m ==> m[k].cred != ""
  }

  function CredentialsOf(m: map<string, RuntimeCredentials>, name: string): Option<RuntimeCredentials> {
    if name in m then Some(m[name]) else None
  }

  /** What a successful exchange stores. */
  function FromOAuth(c: OAuthCredentials, now: int): RuntimeCredentials {
    RuntimeCredentials(c.cred, c.salt, c.userId, c.hgId, now)
  }

  /** What the legacy fallback stores: the configured credential, no salt. */
  function Legacy(account: Account, now: int): RuntimeCredentials {
    RuntimeCredentials(account.cred, "", "", None, now)
  }

  // ---------------------------------------------------------------------
  // The credential lifecycle

  datatype CredentialDecision =
    | KeepExisting
    | StoreOAuth(c: RuntimeCredentials)
    | StoreLegacy(c: RuntimeCredentials)
    | NoCredentials

  /** The existing credential is reused: present, no forced refresh, and
      strictly younger than thirty minutes. */
  predicate Fresh(existing: Option<RuntimeCredentials>, forceRefresh: bool, now: int) {
    existing.Some? && !forceRefresh && now - existing.value.obtainedAt < CredentialTtl
  }

  /** `initOAuth` as a decision on the stored credential, the account, the
      OAuth endpoints and the clock. */
  function DecideCredentials(existing: Option<RuntimeCredentials>, account: Account, forceRefresh: bool,
                             ep: OAuthEndpoints, now: int): CredentialDecision {
    if Fresh(existing, forceRefresh, now) then KeepExisting
    else if account.accountToken != "" && PerformOAuthFlow(account.accountToken, ep).result.Ok? then
      StoreOAuth(FromOAuth(PerformOAuthFlow(account.accountToken, ep).result.value, now))
    else if account.cred != "" then StoreLegacy(Legacy(account, now))
    else NoCredentials
  }

  /** The store after a decision: a stored credential replaces the whole
      record; keeping, and failing, leave the store as it was. */
  function Apply(m: map<string, RuntimeCredentials>, name: string, d: CredentialDecision): map<string, RuntimeCredentials> {
    match d
    case StoreOAuth(c) => m[name := c]
    case StoreLegacy(c) => m[name := c]
    case _ => m
  }

  /** The freshness rule: the credential is kept, without running the
      exchange, exactly when it is present, not forced and strictly younger
      than thirty minutes; at exactly thirty minutes it is refreshed. */
  lemma FreshnessRule(existing: Option<RuntimeCredentials>, account: Account, forceRefresh: bool,
                      ep1: OAuthEndpoints, ep2: OAuthEndpoints, now: int)
    ensures DecideCredentials(existing, account, forceRefresh, ep1, now).KeepExisting? <==>
              existing.Some? && !forceRefresh && now < existing.value.obtainedAt + 30 * 60 * 1000
    ensures existing.Some? && now == existing.value.obtainedAt + 30 * 60 * 1000 ==>
              !DecideCredentials(existing, account, forceRefresh, ep1, now).KeepExisting?
    ensures Fresh(existing, forceRefresh, now) ==>
              DecideCredentials(existing, account, forceRefresh, ep1, now)
              == DecideCredentials(existing, account, forceRefresh, ep2, now)
  {
  }

  /** The fallbacks: a successful exchange wins and is stamped `now`; then
      the configured credential with an empty salt; with neither, nothing is
      stored and a stale credential is left in place. */
  lemma FallbackOrder(existing: Option<RuntimeCredentials>, account: Account, forceRefresh: bool,
                      ep: OAuthEndpoints, now: int, m: map<string, RuntimeCredentials>)
    requires !Fresh(existing, forceRefresh, now)
    ensures var d := DecideCredentials(existing, account, forceRefresh, ep, now);
            var run := PerformOAuthFlow(account.accountToken, ep).result;
            && (account.accountToken != "" && run.Ok? ==>
                  d.StoreOAuth? && d.c.cred == run.value.cred && d.c.salt == run.value.salt && d.c.obtainedAt == now)
            && ((account.accountToken == "" || run.Err?) && account.cred != "" ==>
                  d == StoreLegacy(RuntimeCredentials(account.cred, "", "", None, now)))
            && (d.NoCredentials? <==> (account.accountToken == "" || run.Err?) && account.cred == "")
            && (d.NoCredentials? ==> Apply(m, account.name, d) == m)
  {
  }

  /** Every decision but a failure leaves a usable credential under the
      account's name, and no decision makes a stored credential unusable. */
  lemma {:induction false} DecisionKeepsUsable(m: map<string, RuntimeCredentials>, account: Account, forceRefresh: bool,
                                              ep: OAuthEndpoints, now: int)
    requires CredsUsable(m)
    ensures var d := DecideCredentials(CredentialsOf(m, account.name), account, forceRefresh, ep, now);
            && CredsUsable(Apply(m, account.name, d))
            && (!d.NoCredentials? ==> account.name in Apply(m, account.name, d)
                                      && Apply(m, account.name, d)[account.name].cred != "")
  {
    var d := DecideCredentials(CredentialsOf(m, account.name), account, forceRefresh, ep, now);
    if d.StoreOAuth? {
      OAuthSuccessFields(account.accountToken, ep);
    }
  }

  /** `sk_game_role` is `<platform>_<uid>_<server>`: the uid is its second
      `_`-separated field, or the whole role when that field is missing or
      empty. */
  function UidOf(role: string): string {
    var parts := Split(role, '_');
    if |parts| >= 2 && parts[1] != "" then parts[1] else role
  }

  /** The uid of a well-formed role is its middle field; a role without
      `_` is its own uid. */
  lemma UidOfRole(platform: string, uid: string, server: string)
    requires '_' !in platform && '_' !in uid && uid != ""
    ensures UidOf(platform + "_" + uid + "_" + server) == uid
    ensures UidOf(platform + "_" + uid) == uid
    ensures UidOf(platform) == platform
  {
    SplitAtFirst(platform, '_', uid + "_" + server);
    assert platform + "_" + uid + "_" + server == platform + ['_'] + (uid + "_" + server);
    SplitAtFirst(uid, '_', server);
    assert uid + "_" + server == uid + ['_'] + server;
    SplitAtFirst(platform, '_', uid);
    assert platform + "_" + uid == platform + ['_'] + uid;
    SplitNoSeparator(uid, '_');
    SplitNoSeparator(platform, '_');
  }

  // ---------------------------------------------------------------------
  // Game stats

  /** `runtimeCreds?.salt`. */
  function RuntimeSalt(creds: map<string, RuntimeCredentials>, name: string): string {
    if name in creds then creds[name].salt else ""
  }

  /** The stats record built from the card detail. */
  function StatsOf(d: CardDetail): GameStats {
    GameStats(d.name, d.level, d.worldLevel, d.charNum, d.weaponNum, d.lastLoginTime, d.serverName,
              Some(Stamina(d.curStamina, d.maxStamina, d.maxTs)),
              Some(Progress(d.bpCurLevel, d.bpMaxLevel)),
              Some(Progress(d.dailyActivation, d.maxDailyActivation)))
  }

  function CardContext(account: Account, creds: map<string, RuntimeCredentials>, hashes: HashFunctions,
                       now: int): CallContext {
    CallContext(SkportArgs(account, None, CardSignPath), now, creds, hashes)
  }

  function CardRequest(clients: map<string, GotModule<CallContext>>, account: Account, creds: map<string, RuntimeCredentials>, hashes: HashFunctions,
                       up: Upstream, now: int): Result<ApiResponse<CardData>, GotError> {
    Request(clients, "SKPortApp", CardUrl, CardContext(account, creds, hashes, now), up.cardDetail)
  }

  /** A reply `fetchGameStats` keeps: code 0 with a detail. */
  predicate CardAccepted(resp: Result<ApiResponse<CardData>, GotError>) {
    resp.Ok? && resp.value.code == 0 && resp.value.data.Some? && resp.value.data.value.detail.Some?
  }

  function CachedStats(m: map<string, Entry<CacheValue>>, key: string, now: int): Option<GameStats> {
    var e := Lookup(m, key, now);
    if e.Some? && e.value.data.StatsValue? then Some(e.value.data.stats) else None
  }

  /** `fetchGameStats` as a function of the cache before the call, the
      runtime salt and what the card request returns. */
  function StatsAfter(entries: map<string, Entry<CacheValue>>, name: string, bypassCache: bool, salt: string,
                      now: int, resp: Result<ApiResponse<CardData>, GotError>): Fetched<GameStats> {
    var key := StatsKey(name);
    var hit := if bypassCache then None else CachedStats(entries, key, now);
    var afterRead := if bypassCache then entries else AfterRead(entries, key, now);
    if hit.Some? then Fetched(hit, afterRead)
    else if salt == "" then Fetched(None, afterRead)
    else if CardAccepted(resp) then
      var stats := StatsOf(resp.value.data.value.detail.value);
      Fetched(Some(stats), afterRead[key := Entry(StatsValue(stats), now, StatsTtl)])
    else Fetched(None, afterRead)
  }

  /** Without the bypass flag a cached value is returned and nothing is
      asked of the network; without a salt nothing is asked either and
      nothing is cached. */
  lemma StatsWithoutRequest(entries: map<string, Entry<CacheValue>>, name: string, bypassCache: bool, salt: string,
                            now: int, resp1: Result<ApiResponse<CardData>, GotError>,
                            resp2: Result<ApiResponse<CardData>, GotError>)
    ensures var hit := CachedStats(entries, StatsKey(name), now);
            && (!bypassCache && hit.Some? ==>
                  StatsAfter(entries, name, bypassCache, salt, now, resp1).value == hit)
            && ((!bypassCache && hit.Some?) || salt == "" ==>
                  StatsAfter(entries, name, bypassCache, salt, now, resp1)
                  == StatsAfter(entries, name, bypassCache, salt, now, resp2))
            && ((bypassCache || hit.None?) && salt == "" ==>
                  StatsAfter(entries, name, bypassCache, salt, now, resp1).value.None?)
  {
  }

  /** With the bypass flag the cache is not consulted: the answer depends
      only on the salt and the reply. Fresh stats are what any read in the
      next ten minutes finds; a failed fetch returns nothing. */
  lemma StatsBypassAndCaching(e1: map<string, Entry<CacheValue>>, e2: map<string, Entry<CacheValue>>, name: string,
                              salt: string, now: int, later: int, resp: Result<ApiResponse<CardData>, GotError>,
                              resp2: Result<ApiResponse<CardData>, GotError>)
    requires now <= later < now + StatsTtl
    ensures StatsAfter(e1, name, true, salt, now, resp).value == StatsAfter(e2, name, true, salt, now, resp).value
    ensures var f := StatsAfter(e1, name, true, salt, now, resp);
            && (f.value.Some? <==> salt != "" && CardAccepted(resp))
            && (f.value.Some? ==> StatsAfter(f.entries, name, false, "", later, resp2).value == f.value)
  {
  }

  /** The card request goes through SKPortApp, carries the game role, and
      behind the salt gate it is always signed with v2 over the card path. */
  lemma CardRequestShape(account: Account, creds: map<string, RuntimeCredentials>, hashes: HashFunctions, now: int)
    requires RuntimeSalt(creds, account.name) != ""
    ensures var ctx := CardContext(account, creds, hashes, now);
            var p := Prepare(Clients, "SKPortApp", CardUrl, ctx);
            && (p.Ok? <==> EffectiveCred(ctx) != "")
            && (p.Ok? ==>
                  && p.value.url == CardUrl
                  && p.value.client.prefixUrl == Some("https://zonai.skport.com/api/v1")
                  && HasHeader(p.value.client.headers, "sk-game-role", account.skGameRole)
                  && HasHeader(p.value.client.headers, "sign",
                               SignV2(hashes, CardSignPath, Timestamp(now), "3", "1.0.0", RuntimeSalt(creds, account.name))))
  {
    var ctx := CardContext(account, creds, hashes, now);
    assert ctx.args.includeGameRole.GetOr(true);
    CardPathsKnown();
    PreparedStatic(SkportAppModule, CardUrl, ctx);
    if EffectiveCred(ctx) != "" {
      SaltedSignIsV2(ctx);
    }
  }

  /** The card url is a plain path, and the card sign path asks for v2. */
  lemma CardPathsKnown()
    ensures '.' !in CardUrl && '%' !in CardUrl
    ensures GetSignVersion(CardSignPath) == V2
  {
    assert forall i :: 0 <= i < |CardUrl| ==> CardUrl[i] !in ".%";
    SignVersionV2Examples();
  }

  /** Is `xs` what is left of `ys` after dropping some elements? */
  predicate IsSubsequence<T(==)>(xs: seq<T>, ys: seq<T>)
    decreases |ys|
  {
    if xs == [] then true
    else if ys == [] then false
    else if xs[|xs| - 1] == ys[|ys| - 1] then IsSubsequence(xs[..|xs| - 1], ys[..|ys| - 1])
    else IsSubsequence(xs, ys[..|ys| - 1])
  }

  /** Keeping or dropping one more element keeps a subsequence one. */
  lemma SubsequenceExtend<T>(xs: seq<T>, ys: seq<T>, y: T)
    requires IsSubsequence(xs, ys)
    ensures IsSubsequence(xs + [y], ys + [y])
    ensures IsSubsequence(xs, ys + [y])
  {
    assert (xs + [y])[..|xs|] == xs;
    assert (ys + [y])[..|ys|] == ys;
    SubsequenceAppendRight(xs, ys, y);
  }

  /** A subsequence of a prefix is a subsequence of the whole. */
  lemma {:induction false} SubsequenceAppendRight<T>(xs: seq<T>, ys: seq<T>, y: T)
    requires IsSubsequence(xs, ys)
    ensures IsSubsequence(xs, ys + [y])
    decreases |ys|, 1
  {
    assert (ys + [y])[..|ys|] == ys;
    if xs != [] && xs[|xs| - 1] == y {
      SubsequenceDropLast(xs, ys);
    }
  }

  /** Dropping the last element keeps a subsequence one. */
  lemma {:induction false} SubsequenceDropLast<T>(xs: seq<T>, ys: seq<T>)
    requires xs != [] && IsSubsequence(xs, ys)
    ensures IsSubsequence(xs[..|xs| - 1], ys)
    decreases |ys|, 0
  {
    var xs' := xs[..|xs| - 1];
    var ys' := ys[..|ys| - 1];
    assert ys == ys' + [ys[|ys| - 1]];
    if xs[|xs| - 1] == ys[|ys| - 1] && IsSubsequence(xs', ys') {
      SubsequenceAppendRight(xs', ys', ys[|ys| - 1]);
    } else {
      SubsequenceDropLast(xs, ys');
      SubsequenceAppendRight(xs', ys', ys[|ys| - 1]);
    }
  }

  /** The accounts a game keeps against its credential store: every stored
      credential is usable, every account has one, and no account object
      appears twice. */
  ghost predicate AccountsUsable(accounts: seq<StoredAccount>, m: map<string, RuntimeCredentials>) {
    && CredsUsable(m)
    && (forall i :: 0 <= i < |accounts| ==> accounts[i].account.name in m)
    && (forall i, j :: 0 <= i < j < |accounts| ==> accounts[i] != accounts[j])
  }

  /** A new account object with a credential can be appended. */
  lemma AppendUsable(accounts: seq<StoredAccount>, m: map<string, RuntimeCredentials>, a: StoredAccount)
    requires AccountsUsable(accounts, m) && a !in accounts && a.account.name in m
    ensures AccountsUsable(accounts + [a], m)
  {
    var accounts' := accounts + [a];
    forall i, j | 0 <= i < j < |accounts'|
      ensures accounts'[i] != accounts'[j]
    {
      if j < |accounts| {
        assert accounts'[i] == accounts[i] && accounts'[j] == accounts[j];
      } else {
        assert accounts'[i] in accounts;
      }
    }
  }

  /** What `init` keeps of one booted account: the configured account, its
      profile and its game stats. */
  datatype BootRecord = BootRecord(account: Account, profile: Option<ProfileUser>, game: Option<GameStats>)

  /** What booting an account yields: its profile and game stats, and the
      cache booting leaves behind. */
  datatype Booting = Booting(profile: Option<ProfileUser>, game: Option<GameStats>,
                             entries: map<string, Entry<CacheValue>>)

  /** Booting one account once its credentials are in place: the profile
      through the cache, then the game stats through the cache, their
      nickname over the profile's. */
  function BootAfter(clients: map<string, GotModule<CallContext>>, entries: map<string, Entry<CacheValue>>, creds: map<string, RuntimeCredentials>,
                     hashes: HashFunctions, up: Upstream, account: Account, now: int): Booting {
    var pf := ProfileAfter(entries, account.name, now, ProfileRequest(clients, account, creds, hashes, up, now));
    var sf := StatsAfter(pf.entries, account.name, false, RuntimeSalt(creds, account.name), now,
                         CardRequest(clients, account, creds, hashes, up, now));
    Booting(BootProfile(pf.value, sf.value), sf.value, sf.entries)
  }

  /** What `init` leaves in a freshly booted account: the record's account,
      profile and game stats, the account's uid, the boot time and no
      attendance yet. */
  ghost predicate Booted(a: StoredAccount, r: BootRecord, now: int)
    reads a
  {
    && a.account == r.account && a.profile == r.profile && a.game == r.game
    && a.uid == UidOf(r.account.skGameRole) && a.lastUpdated == now && a.attendance.None?
  }

  /** Each of `xs` is booted from the record at the same position of `rs`. */
  ghost predicate AllBooted(xs: seq<StoredAccount>, rs: seq<BootRecord>, now: int)
    reads xs
  {
    |xs| == |rs| && forall i :: 0 <= i < |xs| ==> Booted(xs[i], rs[i], now)
  }

  lemma AllBootedSnoc(xs: seq<StoredAccount>, rs: seq<BootRecord>, x: StoredAccount, r: BootRecord, now: int)
    requires AllBooted(xs, rs, now) && Booted(x, r, now)
    ensures AllBooted(xs + [x], rs + [r], now)
  {
    forall i | 0 <= i < |xs| + 1
      ensures Booted((xs + [x])[i], (rs + [r])[i], now)
    {
      if i < |xs| {
        assert (xs + [x])[i] == xs[i] && (rs + [r])[i] == rs[i];
      }
    }
  }

  /** The outside world `init` talks to: the OAuth endpoints, and what
      booting an account with given cache and credentials yields. */
  datatype Network = Network(
    oauth: OAuthEndpoints,
    boot: (map<string, Entry<CacheValue>>, map<string, RuntimeCredentials>, Account) -> Booting)

  /** Appending after a concatenation. */
  lemma SnocAssoc<T>(xs: seq<T>, ys: seq<T>, y: T)
    ensures (xs + ys) + [y] == xs + (ys + [y])
  {
  }

  /** What `init` threads through its loop: the credential store, the cache
      and the accounts booted so far. */
  datatype InitState = InitState(creds: map<string, RuntimeCredentials>, cache: map<string, Entry<CacheValue>>,
                                 booted: seq<BootRecord>)

  /** One round of `init`: the account's credentials are decided without a
      forced refresh; an account left without any is skipped and changes
      nothing, any other is booted and kept. */
  function InitNext(st: InitState, account: Account, net: Network, now: int): InitState {
    var d := DecideCredentials(CredentialsOf(st.creds, account.name), account, false, net.oauth, now);
    if d.NoCredentials? then st
    else
      var creds := Apply(st.creds, account.name, d);
      var b := net.boot(st.cache, creds, account);
      InitState(creds, b.entries, st.booted + [BootRecord(account, b.profile, b.game)])
  }

  /** `init` over the configured accounts, in order. */
  function InitRounds(st: InitState, config: seq<Account>, net: Network, now: int): InitState
    decreases |config|
  {
    if config == [] then st
    else InitNext(InitRounds(st, config[..|config| - 1], net, now), config[|config| - 1], net, now)
  }

  /** The configured accounts behind the booted ones. */
  function RecordAccounts(rs: seq<BootRecord>): seq<Account> {
    seq(|rs|, i requires 0 <= i < |rs| => rs[i].account)
  }

  /** A round leaves the booted accounts alone or appends one record, for
      the account of that round. */
  lemma NextAppends(st: InitState, account: Account, net: Network, now: int)
    ensures var r := InitNext(st, account, net, now);
            || r.booted == st.booted
            || (&& |r.booted| == |st.booted| + 1 && r.booted == st.booted + [r.booted[|st.booted|]]
                && r.booted[|st.booted|].account == account)
  {
  }

  /** Slicing a sequence with one more element at its end. */
  lemma SnocSlice<T>(xs: seq<T>, x: T, k: nat)
    requires k <= |xs|
    ensures (xs + [x])[..k] == xs[..k] && (xs + [x])[k..] == xs[k..] + [x]
  {
  }

  /** The accounts of one more record. */
  lemma RecordsSnoc(rs: seq<BootRecord>, r: BootRecord)
    ensures RecordAccounts(rs + [r]) == RecordAccounts(rs) + [r.account]
  {
  }

  /** An account is skipped exactly when no fresh credential is stored under
      its name, its token is missing or its exchange fails, and it has no
      configured credential; a skipped account changes nothing. */
  lemma SkipRule(st: InitState, account: Account, net: Network, now: int)
    ensures var r := InitNext(st, account, net, now);
            && (r.booted == st.booted <==>
                  && !Fresh(CredentialsOf(st.creds, account.name), false, now)
                  && (account.accountToken == "" || PerformOAuthFlow(account.accountToken, net.oauth).result.Err?)
                  && account.cred == "")
            && (r.booted == st.booted ==> r == st)
            && (r.booted != st.booted ==> r.booted == st.booted + [r.booted[|st.booted|]]
                                          && r.booted[|st.booted|].account == account)
  {
    var existing := CredentialsOf(st.creds, account.name);
    if !Fresh(existing, false, now) {
      FallbackOrder(existing, account, false, net.oauth, now, st.creds);
    }
  }

  /** `init` keeps the records it started with. */
  lemma {:induction false} InitKeepsPrefix(st: InitState, config: seq<Account>, net: Network, now: int)
    ensures var r := InitRounds(st, config, net, now);
            |st.booted| <= |r.booted| && r.booted[..|st.booted|] == st.booted
    decreases |config|
  {
    if config != [] {
      var p := InitRounds(st, config[..|config| - 1], net, now);
      var r := InitNext(p, config[|config| - 1], net, now);
      InitKeepsPrefix(st, config[..|config| - 1], net, now);
      NextAppends(p, config[|config| - 1], net, now);
      if r.booted != p.booted {
        SnocSlice(p.booted, r.booted[|p.booted|], |st.booted|);
      }
    }
  }

  /** `init` adds the kept accounts in configuration order: the accounts of
      the new records are a subsequence of the configured ones. */
  lemma {:induction false} InitKeepsOrder(st: InitState, config: seq<Account>, net: Network, now: int)
    ensures var r := InitRounds(st, config, net, now);
            |st.booted| <= |r.booted| && IsSubsequence(RecordAccounts(r.booted[|st.booted|..]), config)
    decreases |config|
  {
    InitKeepsPrefix(st, config, net, now);
    if config != [] {
      var front := config[..|config| - 1];
      var last := config[|config| - 1];
      var p := InitRounds(st, front, net, now);
      var r := InitNext(p, last, net, now);
      InitKeepsOrder(st, front, net, now);
      NextAppends(p, last, net, now);
      var kept := p.booted[|st.booted|..];
      assert front + [last] == config;
      SubsequenceExtend(RecordAccounts(kept), front, last);
      if r.booted != p.booted {
        SnocSlice(p.booted, r.booted[|p.booted|], |st.booted|);
        RecordsSnoc(kept, r.booted[|p.booted|]);
      }
    }
  }

  /** An account configured with a credential is always kept. */
  lemma {:induction false} InitKeepsCredentialed(st: InitState, config: seq<Account>, i: nat, net: Network,
                                                 now: int)
    requires i < |config| && config[i].cred != ""
    ensures config[i] in RecordAccounts(InitRounds(st, config, net, now).booted)
    decreases |config|
  {
    var front := config[..|config| - 1];
    var last := config[|config| - 1];
    var p := InitRounds(st, front, net, now);
    var r := InitNext(p, last, net, now);
    SkipRule(p, last, net, now);
    if i == |config| - 1 {
      assert RecordAccounts(r.booted)[|p.booted|] == last;
    } else {
      InitKeepsCredentialed(st, front, i, net, now);
      assert front[i] == config[i];
      var k :| 0 <= k < |p.booted| && RecordAccounts(p.booted)[k] == config[i];
      assert r.booted[k] == p.booted[k];
      assert RecordAccounts(r.booted)[k] == config[i];
    }
  }

  /** `init` keeps every stored credential usable, and every kept account
      has a credential under its name. */
  lemma {:induction false} InitKeepsUsable(st: InitState, config: seq<Account>, net: Network, now: int)
    requires CredsUsable(st.creds)
    requires forall i :: 0 <= i < |st.booted| ==> st.booted[i].account.name in st.creds
    ensures var r := InitRounds(st, config, net, now);
            && CredsUsable(r.creds)
            && forall i :: 0 <= i < |r.booted| ==> r.booted[i].account.name in r.creds
    decreases |config|
  {
    if config != [] {
      var front := config[..|config| - 1];
      var last := config[|config| - 1];
      var p := InitRounds(st, front, net, now);
      InitKeepsUsable(st, front, net, now);
      DecisionKeepsUsable(p.creds, last, false, net.oauth, now);
      SkipRule(p, last, net, now);
    }
  }

  /** The profile a booted account keeps once its game stats are in: a
      non-empty nickname from the stats replaces the profile's, or makes a
      profile with empty user id and avatar when there was none. */
  function BootProfile(profile: Option<ProfileUser>, stats: Option<GameStats>): (p: Option<ProfileUser>)
    ensures stats.Some? && stats.value.nickname != "" ==> p.Some? && p.value.nickname == stats.value.nickname
    ensures stats.None? || stats.value.nickname == "" ==> p == profile
    ensures profile.Some? ==> p.Some? && p.value.userId == profile.value.userId && p.value.avatar == profile.value.avatar
    ensures profile.None? && p.Some? ==> p.value.userId == "" && p.value.avatar == ""
  {
    if stats.None? || stats.value.nickname == "" then profile
    else if profile.Some? then Some(profile.value.(nickname := stats.value.nickname))
    else Some(ProfileUser(stats.value.nickname, "", ""))
  }

  /** The game stats of `init`, when fetched, are stored with the account,
      their nickname over the profile's. */
  method AdoptStats(stored: StoredAccount, stats: Option<GameStats>)
    modifies stored
    ensures stored.game == (if stats.Some? then stats else old(stored.game))
    ensures stored.profile == BootProfile(old(stored.profile), stats)
    ensures stored.attendance == old(stored.attendance) && stored.lastUpdated == old(stored.lastUpdated)
  {
    if stats.Some? {
      stored.game := stats;
      var nickname := stats.value.nickname;
      if nickname != "" {
        if stored.profile.Some? {
          stored.profile := Some(stored.profile.value.(nickname := nickname));
        } else {
          stored.profile := Some(ProfileUser(nickname, "", ""));
        }
      }
    }
  }

  // ---------------------------------------------------------------------
  // The game

  class Endfield {
    /** The SKPort client registry the game sends its requests through. */
    const clients: map<string, GotModule<CallContext>>
    const store: CredentialStore
    const cache: TtlCache<CacheValue>
    const hashes: HashFunctions
    const upstream: Upstream
    var accounts: seq<StoredAccount>

    /** The network this game talks to at time `now`. */
    function Net(now: int): Network {
      Network(upstream.oauth, (e, c, a) => BootAfter(clients, e, c, hashes, upstream, a, now))
    }

    /** Every stored credential is usable, every account kept has one, and
        no account object appears twice. */
    ghost predicate Valid()
      reads this, store
    {
      AccountsUsable(accounts, store.entries)
    }

    /** The constructor registers the game as "endfield". */
    constructor (directory: GameDirectory<Endfield>, store: CredentialStore, cache: TtlCache<CacheValue>,
                 hashes: HashFunctions, upstream: Upstream)
      requires directory.Valid() && CredsUsable(store.entries)
      modifies directory
      ensures Valid() && accounts == []
      ensures this.clients == Clients && this.store == store && this.cache == cache && this.hashes == hashes && this.upstream == upstream
      ensures directory.Valid() && directory.games == old(directory.games)["endfield" := this]
    {
      this.clients := Clients;
      this.store := store;
      this.cache := cache;
      this.hashes := hashes;
      this.upstream := upstream;
      this.accounts := [];
      new;
      directory.Register("endfield", this);
    }

    /** `refreshOAuth`: without a token nothing happens; otherwise the
        exchange runs and, only when it succeeds, replaces the stored
        credential. */
    method RefreshOAuth(account: Account, now: int) returns (ok: bool)
      requires Valid()
      modifies store
      ensures Valid()
      ensures var run := PerformOAuthFlow(account.accountToken, upstream.oauth).result;
              && (ok <==> account.accountToken != "" && run.Ok?)
              && (ok ==> store.entries == old(store.entries)[account.name := FromOAuth(run.value, now)])
              && (!ok ==> store.entries == old(store.entries))
    {
      if account.accountToken == "" {
        return false;
      }
      var run := PerformOAuthFlow(account.accountToken, upstream.oauth);
      if run.result.Err? {
        return false;
      }
      OAuthSuccessFields(account.accountToken, upstream.oauth);
      store.Set(account.name, FromOAuth(run.result.value, now));
      return true;
    }

    /** `initOAuth`: reuse a fresh credential, else run the exchange, else
        fall back to the configured credential. */
    method InitOAuth(account: Account, forceRefresh: bool, now: int) returns (ok: bool)
      requires Valid()
      modifies store
      ensures Valid()
      ensures var d := DecideCredentials(CredentialsOf(old(store.entries), account.name), account, forceRefresh,
                                         upstream.oauth, now);
              && (ok <==> !d.NoCredentials?)
              && store.entries == Apply(old(store.entries), account.name, d)
      ensures ok ==> account.name in store.entries && store.entries[account.name].cred != ""
    {
      DecisionKeepsUsable(store.entries, account, forceRefresh, upstream.oauth, now);
      var existing := store.Get(account.name);
      if existing.Some? && !forceRefresh {
        var age := now - existing.value.obtainedAt;
        if age < CredentialTtl {
          return true;
        }
      }
      if account.accountToken != "" {
        var run := PerformOAuthFlow(account.accountToken, upstream.oauth);
        if run.result.Ok? {
          store.Set(account.name, FromOAuth(run.result.value, now));
          return true;
        }
      }
      if account.cred != "" {
        store.Set(account.name, Legacy(account, now));
        return true;
      }
      return false;
    }

    /** `fetchGameStats`: the cached stats unless bypassed, nothing without
        a runtime salt, else the card request; accepted stats are cached for
        ten minutes. */
    method FetchGameStats(account: Account, bypassCache: bool, now: int) returns (r: Option<GameStats>)
      modifies cache
      ensures var f := StatsAfter(old(cache.entries), account.name, bypassCache, RuntimeSalt(store.entries, account.name),
                                  now, CardRequest(clients, account, store.entries, hashes, upstream, now));
              r == f.value && cache.entries == f.entries
    {
      var salt := RuntimeSalt(store.entries, account.name);
      var resp := CardRequest(clients, account, store.entries, hashes, upstream, now);
      r := StatsWith(account.name, bypassCache, salt, resp, now);
    }

    /** `fetchGameStats` given the runtime salt and the reply the card
        request would get; the reply is read only past the cache and the
        salt gate. */
    method StatsWith(name: string, bypassCache: bool, salt: string, resp: Result<ApiResponse<CardData>, GotError>,
                     now: int) returns (r: Option<GameStats>)
      modifies cache
      ensures var f := StatsAfter(old(cache.entries), name, bypassCache, salt, now, resp);
              r == f.value && cache.entries == f.entries
    {
      var key := StatsKey(name);
      if !bypassCache {
        var cached := cache.Get(key, now);
        if cached.Some? && cached.value.StatsValue? {
          return Some(cached.value.stats);
        }
      }
      if salt == "" {
        return None;
      }
      if resp.Ok? && resp.value.code == 0 && resp.value.data.Some? && resp.value.data.value.detail.Some? {
        var stats := StatsOf(resp.value.data.value.detail.value);
        cache.Set(key, StatsValue(stats), StatsTtl, now);
        return Some(stats);
      }
      return None;
    }

    /** One account of `init` after its credentials are in place: its
        profile, its uid, and its game stats when they can be fetched (their
        nickname overrides the profile's). */
    method Boot(account: Account, now: int) returns (stored: StoredAccount)
      modifies cache
      ensures var b := BootAfter(clients, old(cache.entries), store.entries, hashes, upstream, account, now);
              fresh(stored) && Booted(stored, BootRecord(account, b.profile, b.game), now) && cache.entries == b.entries
    {
      var profile := GetProfile(clients, cache, store.entries, hashes, upstream, account, now);
      var uid := UidOf(account.skGameRole);
      stored := new StoredAccount(account, profile, uid, now);
      var stats := FetchGameStats(account, false, now);
      AdoptStats(stored, stats);
    }

    /** One pass of the `init` loop, from the state `st` the earlier passes
        left: an account whose credentials can be put in place is booted and
        appended as a new object; any other is skipped. */
    method AddAccount(account: Account, ghost st: InitState, now: int) returns (added: bool)
      requires Valid() && store.entries == st.creds && cache.entries == st.cache
      modifies this, store, cache
      ensures Valid()
      ensures var d := DecideCredentials(CredentialsOf(old(store.entries), account.name), account, false,
                                         upstream.oauth, now);
              && (added <==> !d.NoCredentials?)
              && store.entries == Apply(old(store.entries), account.name, d)
      ensures var r := InitNext(st, account, Net(now), now);
              && store.entries == r.creds && cache.entries == r.cache
              && (!added ==> accounts == old(accounts) && r == st)
              && (added ==> && |accounts| == |old(accounts)| + 1 && |r.booted| == |st.booted| + 1
                            && accounts == old(accounts) + [accounts[|old(accounts)|]]
                            && r.booted == st.booted + [r.booted[|st.booted|]]
                            && fresh(accounts[|old(accounts)|])
                            && Booted(accounts[|old(accounts)|], r.booted[|st.booted|], now))
    {
      ghost var d := DecideCredentials(CredentialsOf(st.creds, account.name), account, false, upstream.oauth, now);
      added := InitOAuth(account, false, now);
      if added {
        ghost var b := BootAfter(clients, st.cache, store.entries, hashes, upstream, account, now);
        var stored := Boot(account, now);
        AppendUsable(accounts, store.entries, stored);
        accounts := accounts + [stored];
        assert Net(now).boot(st.cache, store.entries, account) == b;
        assert InitNext(st, account, Net(now), now) == InitState(store.entries, b.entries, st.booted + [BootRecord(account, b.profile, b.game)]);
      } else {
        assert InitNext(st, account, Net(now), now) == st;
      }
    }

    /** `init`: the configured accounts are taken in order; each whose
        credentials can be put in place is booted and appended with its uid,
        its profile and, when available, its game stats, and the others are
        skipped. */
    method Init(configAccounts: seq<Account>, now: int)
      requires Valid()
      modifies this, store, cache
      ensures Valid()
      ensures |old(accounts)| <= |accounts| && accounts[..|old(accounts)|] == old(accounts)
      ensures var r := InitRounds(InitState(old(store.entries), old(cache.entries), []), configAccounts,
                                  Net(now), now);
              var kept := accounts[|old(accounts)|..];
              && store.entries == r.creds && cache.entries == r.cache
              && |kept| == |r.booted|
              && forall i :: 0 <= i < |kept| ==> Booted(kept[i], r.booted[i], now)
      ensures forall a :: a in accounts[|old(accounts)|..] ==> fresh(a)
    {
      ghost var st0 := InitState(store.entries, cache.entries, []);
      ghost var st := st0;
      ghost var added: seq<StoredAccount> := [];
      var n := 0;
      while n < |configAccounts|
        invariant 0 <= n <= |configAccounts|
        invariant Valid()
        invariant accounts == old(accounts) + added
        invariant st == InitRounds(st0, configAccounts[..n], Net(now), now)
        invariant store.entries == st.creds && cache.entries == st.cache
        invariant AllBooted(added, st.booted, now)
        invariant forall a :: a in added ==> fresh(a)
      {
        added := InitStep(configAccounts[n], old(accounts), added, st, now);
        assert configAccounts[..n + 1][..n] == configAccounts[..n];
        st := InitNext(st, configAccounts[n], Net(now), now);
        n := n + 1;
      }
      assert configAccounts[..n] == configAccounts;
      assert accounts[|old(accounts)|..] == added;
    }

    /** One round of `init` from the state the rounds so far left: the
        account is skipped, or booted and appended as a new object, and the
        accounts added before stay booted. */
    method InitStep(account: Account, ghost prefix: seq<StoredAccount>, ghost added: seq<StoredAccount>,
                    ghost st: InitState, now: int) returns (ghost added': seq<StoredAccount>)
      requires Valid() && accounts == prefix + added
      requires store.entries == st.creds && cache.entries == st.cache
      requires AllBooted(added, st.booted, now)
      modifies this, store, cache
      ensures Valid() && accounts == prefix + added'
      ensures var r := InitNext(st, account, Net(now), now);
              store.entries == r.creds && cache.entries == r.cache && AllBooted(added', r.booted, now)
      ensures forall a :: a in added' ==> a in added || fresh(a)
    {
      var isAdded := AddAccount(account, st, now);
      if isAdded {
        ghost var r := InitNext(st, account, Net(now), now);
        ghost var a := accounts[|accounts| - 1];
        AllBootedSnoc(added, st.booted, a, r.booted[|added|], now);
        SnocAssoc(prefix, added, a);
        added' := added + [a];
      } else {
        added' := added;
      }
    }
  }
}
