/** gots/skport/index.ts and the two static clients below it
    (gots/skport-app/index.ts, gots/skport-web/index.ts): the SKPort client
    module whose options are computed per call from the account, the runtime
    credential store and the clock, plus the registry they form. */
module SkportGot {
  import opened Wrappers
  import opened Strings
  import opened Hashing
  import opened OAuth
  import opened Config
  import opened Got

  /** `SKPortOptions`: `includeGameRole` defaults to true; "" stands for an
      absent `signPath`. */
  datatype SkportArgs = SkportArgs(account: Account, includeGameRole: Option<bool>, signPath: string)

  /** Everything the options closure reads: its argument, the clock, the
      credential store and the hash functions. */
  datatype CallContext = CallContext(
    args: SkportArgs,
    nowMs: int,
    creds: map<string, RuntimeCredentials>,
    hashes: HashFunctions)

  /** `Math.floor(Date.now() / 1000).toString()`. */
  function Timestamp(nowMs: int): string {
    IntToString(nowMs / 1000)
  }

  /** `runtimeCreds?.cred || account.cred`. */
  function EffectiveCred(ctx: CallContext): string {
    var name := ctx.args.account.name;
    if name in ctx.creds && ctx.creds[name].cred != "" then ctx.creds[name].cred else ctx.args.account.cred
  }

  /** `runtimeCreds?.salt`; "" when there are no runtime credentials. */
  function EffectiveSalt(ctx: CallContext): string {
    var name := ctx.args.account.name;
    if name in ctx.creds then ctx.creds[name].salt else ""
  }

  /** The signature actually used: v2 needs a sign path that classifies as v2
      and a salt; anything else falls back to v1 without notice. */
  function ChosenVersion(signPath: string, salt: string): SignVersion {
    if signPath != "" && GetSignVersion(signPath) == V2 && salt != "" then V2 else V1
  }

  function Sign(ctx: CallContext, timestamp: string, cred: string): string {
    var path := ctx.args.signPath;
    if ChosenVersion(path, EffectiveSalt(ctx)) == V2 then SignV2(ctx.hashes, path, timestamp, "3", "1.0.0", EffectiveSalt(ctx))
    else SignV1(ctx.hashes, timestamp, cred)
  }

  const BaseHeaderNames: set<string> := {"cred", "priority", "sk-language", "timestamp", "vname", "sign"}

  function NoCredentialsMessage(name: string): string {
    "No credentials for \"" + name + "\". Run OAuth or provide cred."
  }

  /** The six headers every SKPort call sends. */
  function BaseHeaders(cred: string, timestamp: string, sign: string): (h: map<string, string>)
    ensures h.Keys == BaseHeaderNames
    ensures && h["cred"] == cred && h["priority"] == "u=1, i" && h["sk-language"] == "en"
            && h["timestamp"] == timestamp && h["vname"] == "1.0.0" && h["sign"] == sign
  {
    map["cred" := cred, "priority" := "u=1, i", "sk-language" := "en",
        "timestamp" := timestamp, "vname" := "1.0.0", "sign" := sign]
  }

  /** The optional game-role header is none of the base headers. */
  lemma GameRoleNotBase()
    ensures "sk-game-role" !in BaseHeaderNames
  {
    assert "sk-game-role"[1] == 'k';
    assert "sk-game-role"[0] == 's';
  }

  /** The `options` closure of the SKPort module. */
  function SkportOptions(ctx: CallContext): (r: Result<Options, string>)
    ensures r.Err? <==> EffectiveCred(ctx) == ""
    ensures r.Err? ==> r.error == NoCredentialsMessage(ctx.args.account.name)
    ensures r.Ok? ==> r.value.prefixUrl.None?
    ensures r.Ok? ==>
              (r.value.headers.Keys ==
                 BaseHeaderNames + (if ctx.args.includeGameRole.GetOr(true) then {"sk-game-role"} else {}))
    ensures r.Ok? ==> && r.value.headers["cred"] == EffectiveCred(ctx)
                      && r.value.headers["priority"] == "u=1, i"
                      && r.value.headers["sk-language"] == "en"
                      && r.value.headers["timestamp"] == Timestamp(ctx.nowMs)
                      && r.value.headers["vname"] == "1.0.0"
                      && r.value.headers["sign"] == Sign(ctx, Timestamp(ctx.nowMs), EffectiveCred(ctx))
    ensures r.Ok? && ctx.args.includeGameRole.GetOr(true) ==>
              (r.value.headers["sk-game-role"] == ctx.args.account.skGameRole)
  {
    var timestamp := Timestamp(ctx.nowMs);
    var cred := EffectiveCred(ctx);
    if cred == "" then Err(NoCredentialsMessage(ctx.args.account.name))
    else
      var headers := BaseHeaders(cred, timestamp, Sign(ctx, timestamp, cred));
      GameRoleNotBase();
      var headers' := if ctx.args.includeGameRole.GetOr(true) then headers["sk-game-role" := ctx.args.account.skGameRole] else headers;
      Ok(Options(None, headers'))
  }

  /** A runtime credential wins over the configured one; the configured one
      is used when the store has none, or an empty one. */
  lemma CredPriority(ctx: CallContext)
    ensures var name := ctx.args.account.name;
            && (name in ctx.creds && ctx.creds[name].cred != "" ==> EffectiveCred(ctx) == ctx.creds[name].cred)
            && (name !in ctx.creds || ctx.creds[name].cred == "" ==> EffectiveCred(ctx) == ctx.args.account.cred)
            && (EffectiveCred(ctx) == "" <==>
                  ctx.args.account.cred == "" && (name !in ctx.creds || ctx.creds[name].cred == ""))
  {
  }

  /** v2 is used only with a v2 path and a runtime salt; without a sign path,
      or without a salt, the v1 signature over the timestamp and the
      credential is sent. */
  lemma SignatureChoice(ctx: CallContext, timestamp: string, cred: string)
    ensures ChosenVersion(ctx.args.signPath, EffectiveSalt(ctx)) == V2 ==>
              && ctx.args.signPath != "" && GetSignVersion(ctx.args.signPath) == V2
              && ctx.args.account.name in ctx.creds && ctx.creds[ctx.args.account.name].salt != ""
    ensures ctx.args.signPath == "" ==> Sign(ctx, timestamp, cred) == SignV1(ctx.hashes, timestamp, cred)
    ensures EffectiveSalt(ctx) == "" ==> Sign(ctx, timestamp, cred) == SignV1(ctx.hashes, timestamp, cred)
    ensures GetSignVersion(ctx.args.signPath) == V1 ==> Sign(ctx, timestamp, cred) == SignV1(ctx.hashes, timestamp, cred)
  {
  }

  /** With a v2 sign path and a runtime salt, the sign header is the v2
      signature of that path. */
  lemma SaltedSignIsV2(ctx: CallContext)
    requires GetSignVersion(ctx.args.signPath) == V2 && EffectiveSalt(ctx) != ""
    requires SkportOptions(ctx).Ok?
    ensures SkportOptions(ctx).value.headers["sign"]
            == SignV2(ctx.hashes, ctx.args.signPath, Timestamp(ctx.nowMs), "3", "1.0.0", EffectiveSalt(ctx))
  {
    assert ctx.args.signPath != "" by {
      assert !AnyContains("", V2Patterns) by {
        forall i | 0 <= i < |V2Patterns| ensures !Contains("", V2Patterns[i]) {
          assert |V2Patterns[i]| > 0;
        }
      }
    }
  }

  /** The timestamp header is the decimal form of the whole seconds, and it
      is the very string that was signed. */
  lemma TimestampHeader(ctx: CallContext)
    requires ctx.nowMs >= 0 && SkportOptions(ctx).Ok?
    ensures var h := SkportOptions(ctx).value.headers;
            && IsDigits(h["timestamp"])
            && DigitsValue(h["timestamp"]) == ctx.nowMs / 1000
            && h["sign"] == Sign(ctx, h["timestamp"], h["cred"])
  {
    NatToStringRoundTrip(ctx.nowMs / 1000);
  }

  /** With the v2 signature, the HMAC input is the sign path, the timestamp
      and the fixed header JSON; the MD5 input is the hex of that HMAC. */
  lemma SignV2Input(ctx: CallContext)
    requires ctx.nowMs >= 0 && SkportOptions(ctx).Ok?
    requires ChosenVersion(ctx.args.signPath, EffectiveSalt(ctx)) == V2
    ensures var ts := Timestamp(ctx.nowMs);
            var msg := ctx.args.signPath + ts + ("{\"platform\":\"3\",\"timestamp\":" + ("\"" + ts + "\"")
                                                 + ",\"dId\":\"\",\"vName\":\"1.0.0\"}");
            SkportOptions(ctx).value.headers["sign"]
              == Hex(ctx.hashes.md5(Hex(ctx.hashes.hmacSha256(EffectiveSalt(ctx), msg))))
  {
    var ts := Timestamp(ctx.nowMs);
    NatToStringRoundTrip(ctx.nowMs / 1000);
    HeaderJsonText(ts);
  }

  // ---------------------------------------------------------------------
  // The client modules

  /** The root the SKPort module names as its parent; its definition is not
      part of this model, so it is a module that adds nothing. */
  const GlobalModule: GotModule<CallContext> :=
    GotModule("Global", ObjectOptions, Static(NoOptions), "", "Root client")

  const SkportModule: GotModule<CallContext> :=
    GotModule("SKPort", FunctionOptions, Derived(SkportOptions), "Global",
              "Base SKPort API client with authentication headers")

  const AppUserAgent: string :=
    "Skport/0.7.0 (com.gryphline.skport; build:700089; Android 33; ) Okhttp/5.1.0"

  const SkportAppModule: GotModule<CallContext> :=
    GotModule("SKPortApp", ObjectOptions,
              Static(Options(Some("https://zonai.skport.com/api/v1"),
                             map["platform" := "3", "User-Agent" := AppUserAgent])),
              "SKPort", "SKPort App client - Android UA for game data")

  const SkportWebModule: GotModule<CallContext> :=
    GotModule("SKPortWeb", ObjectOptions,
              Static(Options(Some("https://zonai.skport.com/web/v1"),
                             map["platform" := "3", "Referer" := "https://game.skport.com/",
                                 "Origin" := "https://game.skport.com"])),
              "SKPort", "SKPort Web client - browser UA for web operations")

  /** The modules package as the registry imports it. */
  const Exports: seq<Export<CallContext>> := [
    ObjectValue(true, true, GlobalModule),
    ObjectValue(true, true, SkportModule),
    ObjectValue(true, true, SkportAppModule),
    ObjectValue(true, true, SkportWebModule)]

  const Clients: map<string, GotModule<CallContext>> := map[
    "global" := GlobalModule,
    "skport" := SkportModule,
    "skportapp" := SkportAppModule,
    "skportweb" := SkportWebModule]

  /** The lowercased names of the four modules. */
  lemma LowerNames()
    ensures Lower("Global") == "global" && Lower("SKPort") == "skport"
    ensures Lower("SKPortApp") == "skportapp" && Lower("SKPortWeb") == "skportweb"
  {
    assert forall i :: 0 <= i < 6 ==> Lower("Global")[i] == "global"[i];
    assert forall i :: 0 <= i < 6 ==> Lower("SKPort")[i] == "skport"[i];
    assert forall i :: 0 <= i < 9 ==> Lower("SKPortApp")[i] == "skportapp"[i];
    assert forall i :: 0 <= i < 9 ==> Lower("SKPortWeb")[i] == "skportweb"[i];
  }

  /** Importing the four modules registers them under their lowercased names. */
  lemma ClientsRegistered()
    ensures Registered(map[], Exports) == Clients
  {
    LowerNames();
    var m1 := map["global" := GlobalModule];
    var m2 := m1["skport" := SkportModule];
    var m3 := m2["skportapp" := SkportAppModule];
    assert Registered(map[], Exports) == Registered(m1, Exports[1..]);
    assert Registered(m1, Exports[1..]) == Registered(m2, Exports[2..]);
    assert Registered(m2, Exports[2..]) == Registered(m3, Exports[3..]);
    assert Registered(m3, Exports[3..]) == Registered(m3["skportweb" := SkportWebModule], []);
  }

  /** The registry holds the four modules under four distinct names. */
  lemma ClientKeys()
    ensures Clients.Keys == {"global", "skport", "skportapp", "skportweb"}
    ensures |Clients| == 4
  {
    assert "global"[0] != "skport"[0] && "skportapp"[6] != "skportweb"[6];
  }

  /** The parent chain of the registered clients is acyclic and complete, so
      validation accepts it. */
  lemma ClientsValid()
    ensures RankedBy(Clients, map["global" := 0, "skport" := 1, "skportapp" := 2, "skportweb" := 2])
    ensures forall k :: k in Clients ==> !Dangling(Clients, k)
    ensures |Clients| == 4
  {
    LowerNames();
    ClientKeys();
    var rank := map["global" := 0, "skport" := 1, "skportapp" := 2, "skportweb" := 2];
    forall k | k in Clients && Clients[k].parent != ""
      ensures Lower(Clients[k].parent) in Clients
      ensures Lower(Clients[k].parent) in rank && rank[Lower(Clients[k].parent)] < rank[k]
    {
      if k == "skport" {
        assert Lower(Clients[k].parent) == "global";
      } else {
        assert k == "skportapp" || k == "skportweb";
        assert Lower(Clients[k].parent) == "skport";
      }
    }
  }

  /** What a call through SKPortWeb or SKPortApp sends: the SKPort headers of
      the call, plus the client's own headers and prefix URL. Resolution fails
      exactly when the account has no credential. */
  lemma ResolveStaticClient(client: GotModule<CallContext>, ctx: CallContext)
    requires client == SkportWebModule || client == SkportAppModule
    ensures var r := ResolveInstance(Clients, client.name, ctx, |Clients|);
            var own := client.options.options;
            && (r.Err? <==> EffectiveCred(ctx) == "")
            && (r.Err? ==> r.error == OptionsFailed(NoCredentialsMessage(ctx.args.account.name)))
            && (r.Ok? ==> r.value == Extend(Extend(Extend(BaseClient, NoOptions), SkportOptions(ctx).value), own))
  {
    LowerNames();
    assert Lower(client.name) in Clients && Clients[Lower(client.name)] == client;
    assert CurrentOptions(client, ctx) == Ok(client.options.options);
    ResolveSkport(ctx);
    ResolveParentFirst(Clients, client.name, ctx, 4);
    var p := ResolveInstance(Clients, "SKPort", ctx, 3);
    var r := ResolveInstance(Clients, client.name, ctx, |Clients|);
    ClientKeys();
    if p.Ok? {
      assert r == Ok(Extend(p.value, client.options.options));
    }
  }

  /** The SKPort client of a call: the root client extended with the SKPort
      options, or the failure of those options. */
  lemma ResolveSkport(ctx: CallContext)
    ensures var r := ResolveInstance(Clients, "SKPort", ctx, 3);
            && (r.Err? <==> SkportOptions(ctx).Err?)
            && (r.Err? ==> r.error == OptionsFailed(SkportOptions(ctx).error))
            && (r.Ok? ==> r.value == Extend(Extend(BaseClient, NoOptions), SkportOptions(ctx).value))
  {
    LowerNames();
    ResolveParentFirst(Clients, "SKPort", ctx, 3);
    ResolveRoot(Clients, "Global", ctx, 2);
  }

  /** Extending the SKPort options with static options that only add other
      headers keeps every SKPort header. */
  lemma ExtendKeepsSkportHeaders(ctx: CallContext, own: Options)
    requires SkportOptions(ctx).Ok?
    requires forall k :: k in own.headers ==> k !in BaseHeaderNames && k != "sk-game-role"
    ensures var h := Extend(Extend(Extend(BaseClient, NoOptions), SkportOptions(ctx).value), own).headers;
            var o := SkportOptions(ctx).value.headers;
            && (forall k :: k in o ==> k in h && h[k] == o[k])
            && ("sk-game-role" in h <==> ctx.args.includeGameRole.GetOr(true))
            && (forall k :: k in own.headers ==> k in h && h[k] == own.headers[k])
  {
    var o := SkportOptions(ctx).value;
    GameRoleNotBase();
    ExtendTwice(o, own);
  }

  /** The static clients' own headers are other names than the SKPort ones. */
  lemma OwnHeadersDisjoint(client: GotModule<CallContext>)
    requires client == SkportWebModule || client == SkportAppModule
    ensures client.options.Static?
    ensures var own := client.options.options.headers;
            && (forall k :: k in own ==> k !in BaseHeaderNames && k != "sk-game-role")
            && "platform" in own && own["platform"] == "3"
  {
  }

  /** The headers of a call through SKPortWeb or SKPortApp: every SKPort
      header of the call survives, since the static clients' own headers
      (`platform`, `User-Agent`, `Referer`, `Origin`) never collide with
      them, and `platform` is "3". */
  lemma StaticClientHeaders(client: GotModule<CallContext>, ctx: CallContext)
    requires client == SkportWebModule || client == SkportAppModule
    requires ResolveInstance(Clients, client.name, ctx, |Clients|).Ok?
    ensures SkportOptions(ctx).Ok?
    ensures var h := ResolveInstance(Clients, client.name, ctx, |Clients|).value.headers;
            var o := SkportOptions(ctx).value.headers;
            && (forall k :: k in o ==> k in h && h[k] == o[k])
            && ("sk-game-role" in h <==> ctx.args.includeGameRole.GetOr(true))
            && "platform" in h && h["platform"] == "3"
  {
    ResolveStaticClient(client, ctx);
    var own := client.options.options;
    OwnHeadersDisjoint(client);
    ExtendKeepsSkportHeaders(ctx, own);
  }

  /** A call through SKPortWeb or SKPortApp to a plain url: it is prepared
      exactly when the account has a credential, goes to the client's prefix
      URL with the url unchanged, and carries every SKPort header of the
      call. */
  lemma PreparedStatic(client: GotModule<CallContext>, url: string, ctx: CallContext)
    requires client == SkportWebModule || client == SkportAppModule
    requires '.' !in url && '%' !in url
    ensures var p := Prepare(Clients, client.name, url, ctx);
            && (p.Ok? <==> EffectiveCred(ctx) != "")
            && (p.Ok? ==>
                  && SkportOptions(ctx).Ok?
                  && p.value.url == url
                  && p.value.client.prefixUrl == client.options.options.prefixUrl
                  && (forall k :: k in SkportOptions(ctx).value.headers ==>
                        k in p.value.client.headers && p.value.client.headers[k] == SkportOptions(ctx).value.headers[k])
                  && ("sk-game-role" in p.value.client.headers <==> ctx.args.includeGameRole.GetOr(true)))
  {
    ResolveStaticClient(client, ctx);
    SanitizeKeepsPlainUrl(url);
    if EffectiveCred(ctx) != "" {
      StaticClientHeaders(client, ctx);
    }
  }
}
