/** crons/stamina-check/index.ts: every half hour, for each account that
    asks for it, predict the stamina from the last known values; only when
    the prediction reaches the alert target is the card fetched afresh, and
    when the fresh stamina reaches the target every configured platform is
    notified (Discord with an embed, the others with one line of text). */
module StaminaCheck {
  import opened Wrappers
  import opened Strings
  import opened Config
  import opened Cache
  import opened Got
  import opened Records
  import opened Endfield
  import opened Embeds

  /** The alert target is this far below the maximum unless configured. */
  const DefaultThreshold: int := -10

  const StaminaColor: int := 0x00A8FF
  const ThresholdColor: int := 0xF1C40F
  const NearColor: int := 0xE67E22
  const FullColor: int := 0xE74C3C

  const MonitorFooter: string := "SKPort Stamina Monitor"

  // ---------------------------------------------------------------------
  // The embed

  /** The four rungs of the embed's ladder. */
  datatype Level = Full | AlmostFull | Alert | Report

  function LevelOf(current: int, max: int, target: int): Level {
    if current >= max then Full
    else if current >= max - 5 then AlmostFull
    else if current >= target then Alert
    else Report
  }

  /** The ladder partitions the stamina range: full from the maximum up,
      almost full in the five points below it, alert from the target up to
      there, a plain report below all of them. */
  lemma LevelRanges(current: int, max: int, target: int)
    ensures LevelOf(current, max, target) == Full <==> current >= max
    ensures LevelOf(current, max, target) == AlmostFull <==> max - 5 <= current < max
    ensures LevelOf(current, max, target) == Alert <==> target <= current < max - 5
    ensures LevelOf(current, max, target) == Report <==> current < max - 5 && current < target
  {
  }

  function Title(l: Level): string {
    match l
    case Full => "Stamina Full"
    case AlmostFull => "Stamina Almost Full"
    case Alert => "Stamina Alert"
    case Report => "Stamina Report"
  }

  function Description(l: Level, nickname: string): string {
    match l
    case Full => "**" + nickname + "**'s stamina is **FULL**!"
    case AlmostFull => "**" + nickname + "**'s stamina is almost full!"
    case Alert => "**" + nickname + "**'s stamina is reaching the limit!"
    case Report => "**" + nickname + "**'s stamina status update."
  }

  function Color(l: Level): int {
    match l
    case Full => FullColor
    case AlmostFull => NearColor
    case Alert => ThresholdColor
    case Report => StaminaColor
  }

  /** `game?.nickname || profile?.nickname || account.name`. */
  function Nickname(account: Account, profile: Option<ProfileUser>, game: Option<GameStats>): string {
    if game.Some? && game.value.nickname != "" then game.value.nickname
    else if profile.Some? && profile.value.nickname != "" then profile.value.nickname
    else account.name
  }

  function StaminaOf(game: Option<GameStats>): Option<Stamina> {
    if game.Some? then game.value.stamina else None
  }

  /** `buildStaminaEmbed`: missing stamina values count as 0; the optional
      fields appear only when their value is set and non-zero / non-empty.
      `formatTime` is `formatTimeRemaining` and `isoNow` the ISO time of the
      call. */
  function BuildStaminaEmbed(account: Account, profile: Option<ProfileUser>, game: Option<GameStats>, uid: string,
                             threshold: int, formatTime: int -> string, isoNow: string): Embed {
    var nickname := Nickname(account, profile, game);
    var avatar := if profile.Some? && profile.value.avatar != "" then profile.value.avatar else EndfieldIcon;
    var stamina := StaminaOf(game);
    var current := if stamina.Some? then stamina.value.current else 0;
    var max := if stamina.Some? then stamina.value.max else 0;
    var level := LevelOf(current, max, max + threshold);
    var fields :=
      [EmbedField("Current Stamina", "**" + IntToString(current) + "** / " + IntToString(max), true)]
      + (if uid != "" then [EmbedField("UID", uid, true)] else [])
      + (if game.Some? && game.value.level != 0 then [EmbedField("Rank", IntToString(game.value.level), true)] else [])
      + (if game.Some? && game.value.serverName != "" then [EmbedField("Region", game.value.serverName, true)] else [])
      + (if stamina.Some? && stamina.value.recoveryTime.Some? && stamina.value.recoveryTime.value != 0
         then [EmbedField("Fully Restored in", formatTime(stamina.value.recoveryTime.value), false)] else []);
    Embed(Some(Title(level)), Some(Description(level, nickname)), Some(Color(level)), Some(avatar), Some(fields),
          Some(MonitorFooter), Some(EndfieldIcon), Some(isoNow))
  }

  /** The embed's title follows the ladder over the stored stamina (0 for
      missing values), its first field is the current stamina over the
      maximum, and it always carries a thumbnail and the monitor footer. */
  lemma EmbedShape(account: Account, profile: Option<ProfileUser>, game: Option<GameStats>, uid: string,
                   threshold: int, formatTime: int -> string, isoNow: string)
    ensures var e := BuildStaminaEmbed(account, profile, game, uid, threshold, formatTime, isoNow);
            var st := StaminaOf(game);
            var current := if st.Some? then st.value.current else 0;
            var max := if st.Some? then st.value.max else 0;
            && e.title == Some(Title(LevelOf(current, max, max + threshold)))
            && (st.None? ==> e.title == Some("Stamina Full"))
            && e.fields.Some? && |e.fields.value| >= 1
            && e.fields.value[0].value == "**" + IntToString(current) + "** / " + IntToString(max)
            && e.thumbnailUrl.Some? && e.thumbnailUrl.value != ""
            && e.footerText == Some(MonitorFooter)
  {
  }

  // ---------------------------------------------------------------------
  // The cron

  /** The stamina rules are on for the account. */
  predicate Enabled(account: Account) {
    account.settings.Some? && account.settings.value.staminaCheck
  }

  function Threshold(account: Account): int {
    if account.settings.Some? && account.settings.value.staminaThreshold.Some?
    then account.settings.value.staminaThreshold.value else DefaultThreshold
  }

  /** The API is asked unless the stored stamina predicts a value below the
      target. */
  predicate ShouldFetch(game: Option<GameStats>, lastUpdated: int, threshold: int, now: int) {
    var st := StaminaOf(game);
    !(st.Some? && PredictValue(st.value.current, st.value.max, st.value.recoveryTime, lastUpdated, RegenRate, now)
                  < st.value.max + threshold)
  }

  /** Without stored stamina the card is always fetched; with it, it is
      fetched exactly when the prediction reaches the target. */
  lemma FetchRule(game: Option<GameStats>, lastUpdated: int, threshold: int, now: int)
    ensures StaminaOf(game).None? ==> ShouldFetch(game, lastUpdated, threshold, now)
    ensures StaminaOf(game).Some? ==>
              var st := StaminaOf(game).value;
              (ShouldFetch(game, lastUpdated, threshold, now) <==>
                 PredictValue(st.current, st.max, st.recoveryTime, lastUpdated, RegenRate, now) >= st.max + threshold)
  {
  }

  /** Stored stamina already at its maximum (no server time) is always
      fetched once the threshold is not positive: the prediction never falls
      below the stored value while time moves forward. */
  lemma FullStaminaFetched(current: int, max: int, lastUpdated: int, threshold: int, now: int, rest: GameStats)
    requires current >= max && threshold <= 0 && lastUpdated <= now
    requires rest.stamina == Some(Stamina(current, max, None))
    ensures ShouldFetch(Some(rest), lastUpdated, threshold, now)
  {
    PredictFromElapsed(current, max, lastUpdated, RegenRate, now);
  }

  /** The prefix of the text alert. */
  function AlertPrefix(current: int, max: int): string {
    if current >= max then "Stamina Full"
    else if current >= max - 5 then "Stamina Near Full"
    else "Stamina Alert"
  }

  /** An alert is sent only from the target up, so the embed that goes with
      it is never a plain report, and its rung agrees with the text
      prefix. */
  lemma AlertAgreesWithEmbed(current: int, max: int, threshold: int)
    requires current >= max + threshold
    ensures LevelOf(current, max, max + threshold) != Report
    ensures AlertPrefix(current, max) == "Stamina Full" <==> LevelOf(current, max, max + threshold) == Full
    ensures AlertPrefix(current, max) == "Stamina Near Full" <==> LevelOf(current, max, max + threshold) == AlmostFull
    ensures AlertPrefix(current, max) == "Stamina Alert" <==> LevelOf(current, max, max + threshold) == Alert
  {
  }

  function AlertText(prefix: string, name: string, current: int, max: int): string {
    "[" + prefix + "] " + name + ": " + IntToString(current) + "/" + IntToString(max)
  }

  /** A notification platform as the cron sees it. */
  datatype PlatformInfo = PlatformInfo(name: string, configured: bool)

  /** What the cron hands to a platform's `send`. */
  datatype Delivery = Delivery(platform: string, content: Json)

  function DeliveryFor(p: PlatformInfo, embed: Embed, text: string): Delivery {
    if p.name == "Discord" then Delivery(p.name, JObj(map["embeds" := JArr([EmbedJson(embed)])]))
    else Delivery(p.name, JStr(text))
  }

  /** One delivery per configured platform, in platform order. */
  function Deliveries(platforms: seq<PlatformInfo>, embed: Embed, text: string): (r: seq<Delivery>)
    ensures |r| <= |platforms|
    ensures (forall i :: 0 <= i < |platforms| ==> platforms[i].configured) ==>
              |r| == |platforms| && forall i :: 0 <= i < |platforms| ==> r[i] == DeliveryFor(platforms[i], embed, text)
    ensures (forall i :: 0 <= i < |platforms| ==> !platforms[i].configured) ==> r == []
  {
    if platforms == [] then []
    else
      var front := platforms[..|platforms| - 1];
      var rest := Deliveries(front, embed, text);
      var last := platforms[|platforms| - 1];
      assert forall i :: 0 <= i < |front| ==> front[i] == platforms[i];
      if last.configured then rest + [DeliveryFor(last, embed, text)] else rest
  }

  /** One delivery per configured platform and none for the others, in
      platform order: the deliveries distribute over concatenation, and a
      single platform gets its delivery exactly when it is configured. */
  lemma {:induction false} DeliveriesAppend(a: seq<PlatformInfo>, b: seq<PlatformInfo>, embed: Embed, text: string)
    ensures Deliveries(a + b, embed, text) == Deliveries(a, embed, text) + Deliveries(b, embed, text)
    decreases |b|
  {
    if b == [] {
      assert a + b == a;
    } else {
      var front := b[..|b| - 1];
      var last := b[|b| - 1];
      var tail := if last.configured then [DeliveryFor(last, embed, text)] else [];
      assert (a + b)[..|a + b| - 1] == a + front;
      assert (a + b)[|a + b| - 1] == last;
      assert Deliveries(a + b, embed, text) == Deliveries(a + front, embed, text) + tail;
      DeliveriesAppend(a, front, embed, text);
      assert Deliveries(b, embed, text) == Deliveries(front, embed, text) + tail;
    }
  }

  /** A single platform is kept exactly when it is configured. */
  lemma DeliveriesSingle(p: PlatformInfo, embed: Embed, text: string)
    ensures Deliveries([p], embed, text) == if p.configured then [DeliveryFor(p, embed, text)] else []
  {
    assert [p][..0] == [];
  }


  /** Every delivery goes to a configured platform. */
  lemma {:induction false} DeliveriesConfigured(platforms: seq<PlatformInfo>, embed: Embed, text: string, k: nat)
    requires k < |Deliveries(platforms, embed, text)|
    ensures exists i :: 0 <= i < |platforms| && platforms[i].configured
                        && Deliveries(platforms, embed, text)[k] == DeliveryFor(platforms[i], embed, text)
  {
    var front := platforms[..|platforms| - 1];
    var rest := Deliveries(front, embed, text);
    if k < |rest| {
      DeliveriesConfigured(front, embed, text, k);
      var i :| 0 <= i < |front| && front[i].configured && rest[k] == DeliveryFor(front[i], embed, text);
      assert platforms[i] == front[i];
    } else {
      assert platforms[|platforms| - 1].configured;
    }
  }

  /** Fresh stats the cron can use: fetched, with stamina. */
  predicate Usable(stats: Option<GameStats>) {
    stats.Some? && stats.value.stamina.Some?
  }

  /** The cron's step for one account, given the runtime salt and the reply
      the card request would get (read only when the card is fetched). The
      fields of `stored` are the whole state it changes besides the cache. */
  method AccountStep(e: Endfield, stored: StoredAccount, platforms: seq<PlatformInfo>, salt: string,
                     resp: Result<ApiResponse<CardData>, GotError>, now: int, formatTime: int -> string,
                     isoNow: string) returns (sent: seq<Delivery>)
    modifies e.cache, stored
    ensures var account := stored.account;
            var threshold := Threshold(account);
            if !Enabled(account) || !ShouldFetch(old(stored.game), old(stored.lastUpdated), threshold, now) then
              sent == [] && e.cache.entries == old(e.cache.entries)
              && stored.game == old(stored.game) && stored.lastUpdated == old(stored.lastUpdated)
            else
              var f := StatsAfter(old(e.cache.entries), account.name, true, salt, now, resp);
              && e.cache.entries == f.entries
              && (!Usable(f.value) ==>
                    sent == [] && stored.game == old(stored.game) && stored.lastUpdated == old(stored.lastUpdated))
              && (Usable(f.value) ==>
                    var st := f.value.value.stamina.value;
                    && stored.game == f.value && stored.lastUpdated == now
                    && sent == (if st.current >= st.max + threshold then
                                  Deliveries(platforms,
                                             BuildStaminaEmbed(account, stored.profile, f.value, stored.uid, threshold,
                                                               formatTime, isoNow),
                                             AlertText(AlertPrefix(st.current, st.max), account.name, st.current, st.max))
                                else []))
    ensures stored.profile == old(stored.profile) && stored.attendance == old(stored.attendance)
  {
    sent := [];
    var account := stored.account;
    if !Enabled(account) {
      return;
    }
    var threshold := Threshold(account);
    var shouldFetch := true;
    if stored.game.Some? && stored.game.value.stamina.Some? {
      var stamina := stored.game.value.stamina.value;
      var target := stamina.max + threshold;
      var predicted := PredictValue(stamina.current, stamina.max, stamina.recoveryTime, stored.lastUpdated, RegenRate, now);
      if predicted < target {
        shouldFetch := false;
      }
    }
    if !shouldFetch {
      return;
    }
    var stats := e.StatsWith(account.name, true, salt, resp, now);
    if stats.None? || stats.value.stamina.None? {
      return;
    }
    stored.game := stats;
    stored.lastUpdated := now;
    var st := stats.value.stamina.value;
    var target := st.max + threshold;
    if st.current >= target {
      var prefix := AlertPrefix(st.current, st.max);
      var embed := BuildStaminaEmbed(account, stored.profile, stored.game, stored.uid, threshold, formatTime, isoNow);
      var text := AlertText(prefix, account.name, st.current, st.max);
      sent := Notify(platforms, embed, text);
    }
  }

  /** The notification loop: every configured platform receives the alert. */
  method Notify(platforms: seq<PlatformInfo>, embed: Embed, text: string) returns (sent: seq<Delivery>)
    ensures sent == Deliveries(platforms, embed, text)
  {
    sent := [];
    for i := 0 to |platforms|
      invariant sent == Deliveries(platforms[..i], embed, text)
    {
      if platforms[i].configured {
        sent := sent + [DeliveryFor(platforms[i], embed, text)];
      }
      assert platforms[..i + 1][..i] == platforms[..i];
    }
    assert platforms[..|platforms|] == platforms;
  }

  // ---------------------------------------------------------------------
  // The cron's rounds

  /** The fields of a stored account the cron reads and writes. */
  datatype CronView = CronView(profile: Option<ProfileUser>, game: Option<GameStats>, lastUpdated: int)

  function CronViewOf(s: StoredAccount): CronView
    reads s
  {
    CronView(s.profile, s.game, s.lastUpdated)
  }

  ghost function CronViews(xs: seq<StoredAccount>): (r: seq<CronView>)
    reads xs
    ensures |r| == |xs| && forall i :: 0 <= i < |xs| ==> r[i] == CronViewOf(xs[i])
  {
    seq(|xs|, i reads xs requires 0 <= i < |xs| => CronViewOf(xs[i]))
  }

  /** What one account's step leaves: the cache, the deliveries and the
      account's fields. */
  datatype Stepped = Stepped(entries: map<string, Entry<CacheValue>>, sent: seq<Delivery>, view: CronView)

  /** The cron's step for one account as a function of the cache, the
      account's fields, its runtime salt and the reply its card request
      gets. */
  function StepAfter(entries: map<string, Entry<CacheValue>>, account: Account, uid: string, v: CronView,
                     platforms: seq<PlatformInfo>, salt: string, resp: Result<ApiResponse<CardData>, GotError>,
                     now: int, formatTime: int -> string, isoNow: string): Stepped
  {
    var threshold := Threshold(account);
    if !Enabled(account) || !ShouldFetch(v.game, v.lastUpdated, threshold, now) then Stepped(entries, [], v)
    else
      var f := StatsAfter(entries, account.name, true, salt, now, resp);
      if !Usable(f.value) then Stepped(f.entries, [], v)
      else
        var st := f.value.value.stamina.value;
        var sent := if st.current >= st.max + threshold then
                      Deliveries(platforms, BuildStaminaEmbed(account, v.profile, f.value, uid, threshold, formatTime, isoNow),
                                 AlertText(AlertPrefix(st.current, st.max), account.name, st.current, st.max))
                    else [];
        Stepped(f.entries, sent, v.(game := f.value, lastUpdated := now))
  }

  /** Every delivery goes to a platform of the list that is configured. */
  ghost predicate ToConfigured(sent: seq<Delivery>, platforms: seq<PlatformInfo>) {
    forall j :: 0 <= j < |sent| ==> SentTo(sent[j], platforms)
  }

  /** The delivery goes to a configured platform of the list. */
  ghost predicate SentTo(d: Delivery, platforms: seq<PlatformInfo>) {
    exists n :: 0 <= n < |platforms| && platforms[n].configured && d.platform == platforms[n].name
  }

  lemma DeliveriesToConfigured(platforms: seq<PlatformInfo>, embed: Embed, text: string)
    ensures ToConfigured(Deliveries(platforms, embed, text), platforms)
  {
    forall j | 0 <= j < |Deliveries(platforms, embed, text)|
      ensures SentTo(Deliveries(platforms, embed, text)[j], platforms)
    {
      DeliveriesConfigured(platforms, embed, text, j);
      var n :| 0 <= n < |platforms| && platforms[n].configured
               && Deliveries(platforms, embed, text)[j] == DeliveryFor(platforms[n], embed, text);
    }
  }

  /** A step sends at most one delivery per platform, only to configured
      platforms, and keeps the stored profile. */
  lemma StepAfterSends(entries: map<string, Entry<CacheValue>>, account: Account, uid: string, v: CronView,
                       platforms: seq<PlatformInfo>, salt: string, resp: Result<ApiResponse<CardData>, GotError>,
                       now: int, formatTime: int -> string, isoNow: string)
    ensures var s := StepAfter(entries, account, uid, v, platforms, salt, resp, now, formatTime, isoNow);
            && |s.sent| <= |platforms| && ToConfigured(s.sent, platforms) && s.view.profile == v.profile
  {
    var threshold := Threshold(account);
    if Enabled(account) && ShouldFetch(v.game, v.lastUpdated, threshold, now) {
      var f := StatsAfter(entries, account.name, true, salt, now, resp);
      if Usable(f.value) {
        var st := f.value.value.stamina.value;
        DeliveriesToConfigured(platforms, BuildStaminaEmbed(account, v.profile, f.value, uid, threshold, formatTime, isoNow),
                               AlertText(AlertPrefix(st.current, st.max), account.name, st.current, st.max));
      }
    }
  }

  /** A run of the cron: the platforms, and one account's step as a function
      of the cache, the account, its uid and its fields. */
  datatype CronRun = CronRun(platforms: seq<PlatformInfo>,
                             step: (map<string, Entry<CacheValue>>, Account, string, CronView) -> Stepped)

  /** The game's own: each step with the account's runtime salt from the
      credential store and the reply to its card request. */
  function CronOf(e: Endfield, platforms: seq<PlatformInfo>, now: int, formatTime: int -> string, isoNow: string)
    : CronRun
    reads e.store
  {
    var creds := e.store.entries;
    CronRun(platforms,
            (m, a: Account, uid, v) =>
              StepAfter(m, a, uid, v, platforms, RuntimeSalt(creds, a.name),
                        CardRequest(e.clients, a, creds, e.hashes, e.upstream, now), now, formatTime, isoNow))
  }

  /** Every step sends at most one delivery per platform, only to configured
      platforms, and keeps the stored profile. */
  ghost predicate StepsWell(c: CronRun) {
    forall m, a, u, v ::
      && |c.step(m, a, u, v).sent| <= |c.platforms|
      && ToConfigured(c.step(m, a, u, v).sent, c.platforms)
      && c.step(m, a, u, v).view.profile == v.profile
  }

  lemma CronOfStepsWell(e: Endfield, platforms: seq<PlatformInfo>, now: int, formatTime: int -> string,
                        isoNow: string)
    ensures StepsWell(CronOf(e, platforms, now, formatTime, isoNow))
  {
    var c := CronOf(e, platforms, now, formatTime, isoNow);
    var creds := e.store.entries;
    forall m, a, u, v
      ensures && |c.step(m, a, u, v).sent| <= |c.platforms|
              && ToConfigured(c.step(m, a, u, v).sent, c.platforms)
              && c.step(m, a, u, v).view.profile == v.profile
    {
      StepAfterSends(m, a, u, v, platforms, RuntimeSalt(creds, a.name),
                     CardRequest(e.clients, a, creds, e.hashes, e.upstream, now), now, formatTime, isoNow);
    }
  }

  /** What the cron's loop threads through: the cache, the deliveries so far
      and the fields of every stored account. */
  datatype RunState = RunState(cache: map<string, Entry<CacheValue>>, sent: seq<Delivery>, views: seq<CronView>)

  /** Round `i`: the `i`-th account's step, its deliveries appended. */
  function RunNext(st: RunState, i: nat, stored: StoredAccount, c: CronRun): RunState
    requires i < |st.views|
  {
    var s := c.step(st.cache, stored.account, stored.uid, st.views[i]);
    RunState(s.entries, st.sent + s.sent, st.views[i := s.view])
  }

  /** The first `k` rounds of the cron over the stored accounts, in order. */
  function RunRounds(st: RunState, accounts: seq<StoredAccount>, k: nat, c: CronRun): (r: RunState)
    requires k <= |accounts| == |st.views|
    ensures |r.views| == |st.views|
  {
    if k == 0 then st
    else RunNext(RunRounds(st, accounts, k - 1, c), k - 1, accounts[k - 1], c)
  }

  /** `trace` holds the state after each number of rounds. */
  ghost predicate RunTraceOf(trace: seq<RunState>, st: RunState, accounts: seq<StoredAccount>, c: CronRun)
    requires |accounts| == |st.views|
  {
    && |trace| == |accounts| + 1
    && forall k {:trigger RunRounds(st, accounts, k, c)} :: 0 <= k <= |accounts| ==>
         trace[k] == RunRounds(st, accounts, k, c)
  }

  ghost function RunTrace(st: RunState, accounts: seq<StoredAccount>, c: CronRun): (r: seq<RunState>)
    requires |accounts| == |st.views|
    ensures RunTraceOf(r, st, accounts, c)
  {
    seq(|accounts| + 1, k requires 0 <= k <= |accounts| => RunRounds(st, accounts, k, c))
  }

  /** Consecutive entries of a trace are one round apart. */
  lemma RunTraceStep(trace: seq<RunState>, st: RunState, accounts: seq<StoredAccount>, c: CronRun, i: nat)
    requires i < |accounts| == |st.views| && RunTraceOf(trace, st, accounts, c)
    ensures |trace[i].views| == |accounts| && trace[i + 1] == RunNext(trace[i], i, accounts[i], c)
  {
    assert trace[i] == RunRounds(st, accounts, i, c);
    assert trace[i + 1] == RunRounds(st, accounts, i + 1, c);
  }

  /** The rounds keep the deliveries made before them and add at most one
      per platform and account, each to a configured platform. */
  lemma {:induction false} RunSends(st: RunState, accounts: seq<StoredAccount>, k: nat, c: CronRun)
    requires k <= |accounts| == |st.views| && StepsWell(c)
    ensures var r := RunRounds(st, accounts, k, c);
            && |st.sent| <= |r.sent| <= |st.sent| + k * |c.platforms|
            && r.sent[..|st.sent|] == st.sent
            && ToConfigured(r.sent[|st.sent|..], c.platforms)
  {
    if k > 0 {
      var p := RunRounds(st, accounts, k - 1, c);
      RunSends(st, accounts, k - 1, c);
      var stored := accounts[k - 1];
      var s := c.step(p.cache, stored.account, stored.uid, p.views[k - 1]);
      var r := RunRounds(st, accounts, k, c);
      assert r.sent == p.sent + s.sent;
      assert r.sent[..|st.sent|] == p.sent[..|st.sent|];
      assert r.sent[|st.sent|..] == p.sent[|st.sent|..] + s.sent;
      assert (k - 1) * |c.platforms| + |c.platforms| == k * |c.platforms|;
      assert ToConfigured(s.sent, c.platforms);
      var added := r.sent[|st.sent|..];
      forall j | 0 <= j < |added|
        ensures SentTo(added[j], c.platforms)
      {
        if j < |p.sent| - |st.sent| {
          assert added[j] == p.sent[|st.sent|..][j];
        } else {
          assert added[j] == s.sent[j - (|p.sent| - |st.sent|)];
        }
      }
    }
  }

  /** The cron never writes a stored profile. */
  lemma {:induction false} RunKeepsProfiles(st: RunState, accounts: seq<StoredAccount>, k: nat, c: CronRun)
    requires k <= |accounts| == |st.views| && StepsWell(c)
    ensures forall j :: 0 <= j < |st.views| ==> RunRounds(st, accounts, k, c).views[j].profile == st.views[j].profile
  {
    if k > 0 {
      RunKeepsProfiles(st, accounts, k - 1, c);
      var p := RunRounds(st, accounts, k - 1, c);
      var stored := accounts[k - 1];
      assert c.step(p.cache, stored.account, stored.uid, p.views[k - 1]).view.profile == p.views[k - 1].profile;
    }
  }

  /** Each account is stepped with the fields it had before the run: the
      rounds so far leave the later accounts alone. */
  lemma {:induction false} RunLeavesLater(st: RunState, accounts: seq<StoredAccount>, k: nat, c: CronRun)
    requires k <= |accounts| == |st.views|
    ensures forall j :: k <= j < |st.views| ==> RunRounds(st, accounts, k, c).views[j] == st.views[j]
  {
    if k > 0 {
      RunLeavesLater(st, accounts, k - 1, c);
    }
  }

  /** For the game's own steps, a round for a disabled account, or one whose
      prediction is below the target, changes nothing and sends nothing. */
  lemma QuietRound(e: Endfield, platforms: seq<PlatformInfo>, now: int, formatTime: int -> string, isoNow: string,
                   st: RunState, i: nat, stored: StoredAccount)
    requires i < |st.views|
    requires !Enabled(stored.account)
             || !ShouldFetch(st.views[i].game, st.views[i].lastUpdated, Threshold(stored.account), now)
    ensures RunNext(st, i, stored, CronOf(e, platforms, now, formatTime, isoNow)) == st
  {
    assert st.views[i := st.views[i]] == st.views;
  }

  /** No stored account object appears twice, as the game's accounts are
      kept. */
  predicate DistinctAccounts(xs: seq<StoredAccount>) {
    forall i, j :: 0 <= i < j < |xs| ==> xs[i] != xs[j]
  }

  /** The cron's `code`: `game` is what `Game.get("endfield")` returned.
      Every stored account is stepped in order, each over the cache the
      accounts before it left; the deliveries are those of the accounts in
      turn. */
  method Run(game: Option<Endfield>, platforms: seq<PlatformInfo>, now: int, formatTime: int -> string,
             isoNow: string) returns (sent: seq<Delivery>)
    requires game.Some? ==> DistinctAccounts(game.value.accounts)
    modifies if game.Some? then {game.value.cache} else {}
    modifies if game.Some? then set a | a in game.value.accounts else {}
    ensures game.None? ==> sent == []
    ensures game.Some? ==>
              var e := game.value;
              RunState(e.cache.entries, sent, CronViews(e.accounts))
              == RunRounds(RunState(old(e.cache.entries), [], old(CronViews(e.accounts))), e.accounts, |e.accounts|,
                           CronOf(e, platforms, now, formatTime, isoNow))
    ensures game.Some? ==> forall a :: a in game.value.accounts ==>
              a.profile == old(a.profile) && a.attendance == old(a.attendance)
  {
    sent := [];
    if game.None? {
      return;
    }
    var e := game.value;
    ghost var c := CronOf(e, platforms, now, formatTime, isoNow);
    ghost var st0 := RunState(e.cache.entries, [], CronViews(e.accounts));
    ghost var trace := RunTrace(st0, e.accounts, c);
    assert trace[0] == RunRounds(st0, e.accounts, 0, c);
    sent := RunLoop(e, platforms, now, formatTime, isoNow, c, st0, trace);
    assert trace[|e.accounts|] == RunRounds(st0, e.accounts, |e.accounts|, c);
  }

  /** The loop of the cron: round by round, the cache, the deliveries and
      the stored accounts follow `trace`. */
  method RunLoop(e: Endfield, platforms: seq<PlatformInfo>, now: int, formatTime: int -> string, isoNow: string,
                 ghost c: CronRun, ghost st0: RunState, ghost trace: seq<RunState>) returns (sent: seq<Delivery>)
    requires DistinctAccounts(e.accounts) && c == CronOf(e, platforms, now, formatTime, isoNow)
    requires st0 == RunState(e.cache.entries, [], CronViews(e.accounts)) && RunTraceOf(trace, st0, e.accounts, c)
    requires trace[0] == st0
    modifies e.cache, set a | a in e.accounts
    ensures RunState(e.cache.entries, sent, CronViews(e.accounts)) == trace[|e.accounts|]
    ensures forall a :: a in e.accounts ==> a.profile == old(a.profile) && a.attendance == old(a.attendance)
  {
    sent := [];
    for i := 0 to |e.accounts|
      invariant RunState(e.cache.entries, sent, CronViews(e.accounts)) == trace[i]
      invariant forall a :: a in e.accounts ==> a.profile == old(a.profile) && a.attendance == old(a.attendance)
    {
      sent := RunRound(e, i, platforms, now, formatTime, isoNow, c, st0, trace, sent);
    }
  }

  /** Round `i` of the cron's loop. */
  method RunRound(e: Endfield, i: nat, platforms: seq<PlatformInfo>, now: int, formatTime: int -> string,
                  isoNow: string, ghost c: CronRun, ghost st0: RunState, ghost trace: seq<RunState>,
                  sent: seq<Delivery>) returns (sent': seq<Delivery>)
    requires DistinctAccounts(e.accounts) && i < |e.accounts| && c == CronOf(e, platforms, now, formatTime, isoNow)
    requires |st0.views| == |e.accounts| && RunTraceOf(trace, st0, e.accounts, c)
    requires RunState(e.cache.entries, sent, CronViews(e.accounts)) == trace[i]
    modifies e.cache, e.accounts[i]
    ensures RunState(e.cache.entries, sent', CronViews(e.accounts)) == trace[i + 1]
    ensures e.accounts[i].profile == old(e.accounts[i].profile)
    ensures e.accounts[i].attendance == old(e.accounts[i].attendance)
  {
    RunTraceStep(trace, st0, e.accounts, c, i);
    var out := StepAt(e, i, platforms, now, formatTime, isoNow, c);
    sent' := sent + out;
  }

  /** The step of the `i`-th stored account: the other accounts keep their
      fields. */
  method StepAt(e: Endfield, i: nat, platforms: seq<PlatformInfo>, now: int, formatTime: int -> string,
                isoNow: string, ghost c: CronRun) returns (sent: seq<Delivery>)
    requires DistinctAccounts(e.accounts) && i < |e.accounts| && c == CronOf(e, platforms, now, formatTime, isoNow)
    modifies e.cache, e.accounts[i]
    ensures var stored := e.accounts[i];
            var s := c.step(old(e.cache.entries), stored.account, stored.uid, old(CronViews(e.accounts))[i]);
            && sent == s.sent && e.cache.entries == s.entries
            && CronViews(e.accounts) == old(CronViews(e.accounts))[i := s.view]
    ensures e.accounts[i].profile == old(e.accounts[i].profile)
    ensures e.accounts[i].attendance == old(e.accounts[i].attendance)
  {
    var stored := e.accounts[i];
    ghost var others := CronViews(e.accounts);
    sent := CronStep(e, stored, platforms, now, formatTime, isoNow);
    forall k | 0 <= k < |others|
      ensures CronViews(e.accounts)[k] == others[i := CronViewOf(stored)][k]
    {
      if k != i {
        assert e.accounts[k] != stored by {
          if k < i {
            assert e.accounts[k] != e.accounts[i];
          } else {
            assert e.accounts[i] != e.accounts[k];
          }
        }
      }
    }
  }

  /** One account's step with its runtime salt and the reply its card
      request gets. */
  method CronStep(e: Endfield, stored: StoredAccount, platforms: seq<PlatformInfo>, now: int,
                  formatTime: int -> string, isoNow: string) returns (sent: seq<Delivery>)
    modifies e.cache, stored
    ensures var s := StepAfter(old(e.cache.entries), stored.account, stored.uid, old(CronViewOf(stored)), platforms,
                               RuntimeSalt(e.store.entries, stored.account.name),
                               CardRequest(e.clients, stored.account, e.store.entries, e.hashes, e.upstream, now),
                               now, formatTime, isoNow);
            && sent == s.sent && e.cache.entries == s.entries && CronViewOf(stored) == s.view
    ensures stored.profile == old(stored.profile) && stored.attendance == old(stored.attendance)
  {
    var salt := RuntimeSalt(e.store.entries, stored.account.name);
    var resp := CardRequest(e.clients, stored.account, e.store.entries, e.hashes, e.upstream, now);
    sent := AccountStep(e, stored, platforms, salt, resp, now, formatTime, isoNow);
  }
}
