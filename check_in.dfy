/** skport/endfield/check-in.ts: the daily attendance run. For each stored
    account it refreshes the credential, reads the attendance status (through
    the shared cache), works out the sign-in count and the rewards from the
    calendar, claims when the day is still open, enriches the result with the
    game card, and writes the outcome back into the stored account. */
module CheckIn {
  import opened Wrappers
  import opened Config
  import opened Hashing
  import opened Cache
  import opened Got
  import opened OAuth
  import opened SkportGot
  import opened Records
  import opened Endfield

  const AttendanceUrl: string := "game/endfield/attendance"

  /** A status reply with code 0 is cached for thirty minutes. */
  const StatusTtl: int := 30 * 60 * 1000

  /** After a claim the "signed in today" marker is cached for twelve hours. */
  const ClaimTtl: int := 12 * 60 * 60 * 1000

  const MissingCredentials: string := "Missing valid credentials or sk_game_role"
  const ClaimFailed: string := "Failed to claim attendance"
  const StatusUnknown: string := "Could not determine attendance status"

  // ---------------------------------------------------------------------
  // The result record

  /** `SignInResult["status"]`: "claimed", "already_claimed" or "error". */
  datatype Status = Claimed | AlreadyClaimed | Errored

  datatype ResultProfile = ResultProfile(nickname: Option<string>, userId: Option<string>, avatar: Option<string>)

  datatype ResultGame = ResultGame(uid: string, level: Option<int>, server: Option<string>, charCount: Option<int>)

  /** `SignInResult`. */
  datatype CheckInResult = CheckInResult(
    name: string,
    status: Status,
    rewards: seq<Reward>,
    profile: ResultProfile,
    game: ResultGame,
    attendance: AttendanceSummary,
    nextReward: Option<Reward>,
    error: Option<string>)

  /** A result reports an error message exactly when its status is "error". */
  predicate Consistent(r: CheckInResult) {
    r.status == Errored <==> r.error.Some?
  }

  /** The fields of a stored account that a check-in reads and writes. */
  datatype StoredView = StoredView(
    profile: Option<ProfileUser>,
    game: Option<GameStats>,
    attendance: Option<AttendanceSummary>,
    lastUpdated: int)

  function ViewOf(s: StoredAccount): StoredView
    reads s
  {
    StoredView(s.profile, s.game, s.attendance, s.lastUpdated)
  }

  /** The result as first built: status "error", no rewards, the game fields
      and the sign-in count carried over from the stored account. */
  function Initial(account: Account, v: StoredView): CheckInResult {
    CheckInResult(
      account.name, Errored, [], ResultProfile(None, None, None),
      ResultGame(UidOf(account.skGameRole),
                 if v.game.Some? then Some(v.game.value.level) else None,
                 if v.game.Some? then Some(v.game.value.serverName) else None,
                 if v.game.Some? then Some(v.game.value.charCount) else None),
      AttendanceSummary(if v.attendance.Some? then v.attendance.value.totalSignIns else None, None),
      None, None)
  }

  /** The stored profile, with the game icon standing in for a missing avatar. */
  function WithProfile(r: CheckInResult, profile: Option<ProfileUser>): CheckInResult {
    if profile.Some? then
      var p := profile.value;
      r.(profile := ResultProfile(Some(p.nickname), Some(p.userId),
                                  Some(if p.avatar != "" then p.avatar else EndfieldIcon)))
    else r
  }

  // ---------------------------------------------------------------------
  // Calendar bookkeeping

  /** The done entries of the calendar, in calendar order. */
  function DoneEntries(cal: seq<CalendarEntry>): (r: seq<CalendarEntry>)
    ensures |r| <= |cal|
    ensures forall k :: 0 <= k < |r| ==> r[k].done
    ensures |r| == 0 <==> forall i :: 0 <= i < |cal| ==> !cal[i].done
    ensures |r| > 0 ==> exists i :: 0 <= i < |cal| && cal[i] == r[|r| - 1]
                                    && forall j :: i < j < |cal| ==> !cal[j].done
  {
    if cal == [] then []
    else
      var rest := DoneEntries(cal[..|cal| - 1]);
      if cal[|cal| - 1].done then rest + [cal[|cal| - 1]] else rest
  }

  /** The filter keeps every done entry and only those, in order: it
      distributes over concatenation and keeps a single entry exactly when
      it is done. */
  lemma {:induction false} DoneEntriesAppend(a: seq<CalendarEntry>, b: seq<CalendarEntry>)
    ensures DoneEntries(a + b) == DoneEntries(a) + DoneEntries(b)
    decreases |b|
  {
    if b == [] {
      assert a + b == a;
    } else {
      var front := b[..|b| - 1];
      var last := b[|b| - 1];
      var tail := if last.done then [last] else [];
      assert (a + b)[..|a + b| - 1] == a + front;
      assert (a + b)[|a + b| - 1] == last;
      assert DoneEntries(a + b) == DoneEntries(a + front) + tail;
      DoneEntriesAppend(a, front);
      assert DoneEntries(b) == DoneEntries(front) + tail;
    }
  }

  /** A single calendar entry is kept exactly when it is done. */
  lemma DoneEntriesSingle(e: CalendarEntry)
    ensures DoneEntries([e]) == if e.done then [e] else []
  {
    assert [e][..0] == [];
  }


  /** The first entry not yet done (`calendar.find(r => !r.done)`). */
  function FirstNotDone(cal: seq<CalendarEntry>): (r: Option<CalendarEntry>)
    ensures r.None? <==> forall i :: 0 <= i < |cal| ==> cal[i].done
    ensures r.Some? ==> exists i :: 0 <= i < |cal| && cal[i] == r.value && !r.value.done
                                    && forall j :: 0 <= j < i ==> cal[j].done
  {
    if cal == [] then None
    else if !cal[0].done then Some(cal[0])
    else
      var r := FirstNotDone(cal[1..]);
      assert r.Some? ==> exists i :: 1 <= i < |cal| && cal[i] == r.value && !r.value.done
                                     && forall j :: 1 <= j < i ==> cal[j].done;
      r
  }

  /** The reward the resource map describes for an award id, if any. */
  function InfoReward(m: Option<map<string, ResourceInfo>>, id: string): Option<Reward> {
    if m.Some? && id in m.value then
      var info := m.value[id];
      Some(Reward(info.name, info.count, info.icon))
    else None
  }

  /** What a status reply with code 0 and data tells the result: the number
      of done entries and the calendar (when something is done), the reward
      of the last done entry (when there is nothing to claim), and the reward
      of the first entry not yet done. */
  function Bookkeeping(r: CheckInResult, data: Option<ApiResponse<AttendanceData>>, canClaim: bool): (r': CheckInResult)
    ensures r'.name == r.name && r'.status == r.status && r'.error == r.error
  {
    if data.Some? && data.value.code == 0 && data.value.data.Some? then
      var d := data.value.data.value;
      var cal := d.calendar.GetOr([]);
      var done := DoneEntries(cal);
      var r1 :=
        if |done| > 0 then
          var a := r.(attendance := AttendanceSummary(Some(|done|), Some(cal)));
          var info := InfoReward(d.resourceInfoMap, done[|done| - 1].awardId);
          if !canClaim && info.Some? then a.(rewards := [info.value]) else a
        else r;
      var next := FirstNotDone(cal);
      var info := if next.Some? then InfoReward(d.resourceInfoMap, next.value.awardId) else None;
      if info.Some? then r1.(nextReward := info) else r1
    else r
  }

  // ---------------------------------------------------------------------
  // The attendance status

  function StatusContext(account: Account, creds: map<string, RuntimeCredentials>, hashes: HashFunctions,
                         now: int): CallContext {
    CallContext(SkportArgs(account, None, ""), now, creds, hashes)
  }

  /** The status GET: SKPortWeb, no sign path. */
  function StatusRequest(clients: map<string, GotModule<CallContext>>, account: Account, creds: map<string, RuntimeCredentials>, hashes: HashFunctions,
                         up: Upstream, now: int): Result<ApiResponse<AttendanceData>, GotError> {
    Request(clients, "SKPortWeb", AttendanceUrl, StatusContext(account, creds, hashes, now), up.attendanceStatus)
  }

  /** A status reply that says the day is already signed. */
  predicate SignedToday(a: ApiResponse<AttendanceData>) {
    a.code == 0 && a.data.Some? && a.data.value.hasToday == Some(true)
  }

  function CachedStatus(m: map<string, Entry<CacheValue>>, key: string, now: int): Option<ApiResponse<AttendanceData>> {
    var e := Lookup(m, key, now);
    if e.Some? && e.value.data.AttendanceValue? then Some(e.value.data.attendance) else None
  }

  /** What the status check reports, with the cache it leaves behind. */
  datatype Checked = Checked(data: Option<ApiResponse<AttendanceData>>, canClaim: bool,
                             entries: map<string, Entry<CacheValue>>)

  /** `#checkAttendance` as a function of the cache and the status reply. */
  function CheckAfter(entries: map<string, Entry<CacheValue>>, name: string, now: int,
                      resp: Result<ApiResponse<AttendanceData>, GotError>): Checked {
    var key := AttendanceKey(name);
    var cached := CachedStatus(entries, key, now);
    var afterRead := AfterRead(entries, key, now);
    if cached.Some? && SignedToday(cached.value) then Checked(cached, false, afterRead)
    else if resp.Err? then Checked(None, false, afterRead)
    else if resp.value.code == 0 then
      Checked(Some(resp.value), !SignedToday(resp.value), afterRead[key := Entry(AttendanceValue(resp.value), now, StatusTtl)])
    else Checked(Some(resp.value), false, afterRead)
  }

  /** The three rules of the status check: a cached "signed today" answers
      without asking the network; a fresh code-0 reply is cached for thirty
      minutes and allows a claim exactly when the day is not signed; any
      other reply, or a throw, allows no claim and caches nothing. */
  lemma CheckRules(entries: map<string, Entry<CacheValue>>, name: string, now: int, later: int,
                   resp: Result<ApiResponse<AttendanceData>, GotError>,
                   resp2: Result<ApiResponse<AttendanceData>, GotError>)
    requires now <= later < now + StatusTtl
    ensures var cached := CachedStatus(entries, AttendanceKey(name), now);
            var c := CheckAfter(entries, name, now, resp);
            && (cached.Some? && SignedToday(cached.value) ==>
                  !c.canClaim && c.data == cached && c == CheckAfter(entries, name, now, resp2))
            && (!(cached.Some? && SignedToday(cached.value)) ==>
                  && (c.canClaim <==> resp.Ok? && resp.value.code == 0 && !SignedToday(resp.value))
                  && (resp.Ok? && resp.value.code == 0 ==>
                        CachedStatus(c.entries, AttendanceKey(name), later) == Some(resp.value))
                  && (!(resp.Ok? && resp.value.code == 0) ==>
                        c.entries == AfterRead(entries, AttendanceKey(name), now)))
  {
  }

  // ---------------------------------------------------------------------
  // The claim

  function ClaimContext(account: Account, creds: map<string, RuntimeCredentials>, hashes: HashFunctions,
                        now: int): CallContext {
    CallContext(SkportArgs(account, None, AttendancePath), now, creds, hashes)
  }

  /** The claim POST: SKPortWeb, signed for the attendance path. */
  function ClaimRequest(clients: map<string, GotModule<CallContext>>, account: Account, creds: map<string, RuntimeCredentials>, hashes: HashFunctions,
                        up: Upstream, now: int): Result<ApiResponse<ClaimData>, GotError> {
    Request(clients, "SKPortWeb", AttendanceUrl, ClaimContext(account, creds, hashes, now), up.attendanceClaim)
  }

  function RewardOf(c: ClaimResource): Reward {
    Reward(c.name, c.count, c.icon.GetOr(""))
  }

  /** The rewards of a claim reply: one per award id the resource map knows,
      in award order; unknown ids are skipped. */
  function RewardsFor(ids: seq<string>, m: map<string, ClaimResource>): (r: seq<Reward>)
    ensures |r| <= |ids|
    ensures (forall i :: 0 <= i < |ids| ==> ids[i] in m) ==>
              |r| == |ids| && forall i :: 0 <= i < |ids| ==> r[i] == RewardOf(m[ids[i]])
    ensures (forall i :: 0 <= i < |ids| ==> ids[i] !in m) ==> r == []
  {
    if ids == [] then []
    else
      var front := ids[..|ids| - 1];
      var rest := RewardsFor(front, m);
      var last := ids[|ids| - 1];
      assert forall i :: 0 <= i < |front| ==> front[i] == ids[i];
      if last in m then rest + [RewardOf(m[last])] else rest
  }

  /** One reward per known award id, in award order: the rewards distribute
      over concatenation, and a single id gives its reward exactly when the
      map knows it. */
  lemma {:induction false} RewardsForAppend(a: seq<string>, b: seq<string>, m: map<string, ClaimResource>)
    ensures RewardsFor(a + b, m) == RewardsFor(a, m) + RewardsFor(b, m)
    decreases |b|
  {
    if b == [] {
      assert a + b == a;
    } else {
      var front := b[..|b| - 1];
      var last := b[|b| - 1];
      var tail := if last in m then [RewardOf(m[last])] else [];
      assert (a + b)[..|a + b| - 1] == a + front;
      assert (a + b)[|a + b| - 1] == last;
      assert RewardsFor(a + b, m) == RewardsFor(a + front, m) + tail;
      RewardsForAppend(a, front, m);
      assert RewardsFor(b, m) == RewardsFor(front, m) + tail;
    }
  }

  /** A single award id is kept exactly when the map knows it. */
  lemma RewardsForSingle(id: string, m: map<string, ClaimResource>)
    ensures RewardsFor([id], m) == if id in m then [RewardOf(m[id])] else []
  {
    assert [id][..0] == [];
  }


  /** Every reward comes from an award id the resource map knows. */
  lemma {:induction false} RewardsFromKnownIds(ids: seq<string>, m: map<string, ClaimResource>, k: nat)
    requires k < |RewardsFor(ids, m)|
    ensures exists i :: 0 <= i < |ids| && ids[i] in m && RewardsFor(ids, m)[k] == RewardOf(m[ids[i]])
  {
    var front := ids[..|ids| - 1];
    var last := ids[|ids| - 1];
    var rest := RewardsFor(front, m);
    if k < |rest| {
      RewardsFromKnownIds(front, m, k);
      var i :| 0 <= i < |front| && front[i] in m && rest[k] == RewardOf(m[front[i]]);
      assert ids[i] == front[i];
    } else {
      assert ids[|ids| - 1] in m;
    }
  }

  /** The records array of the cached claim: `total` empty slots, the last
      one holding the first reward when there is one. */
  function RecordsFor(total: nat, first: Option<Reward>): seq<CachedRecord> {
    seq(total, i requires 0 <= i < total =>
      if i == total - 1 && first.Some? then CachedRecord(Some(first.value.name), Some(first.value.count), Some(first.value.icon))
      else EmptyRecord)
  }

  /** The reward loop of `#claimAttendance`: one reward per award id the
      resource map knows, in award order. */
  method CollectRewards(awards: seq<string>, resourceMap: map<string, ClaimResource>) returns (rewards: seq<Reward>)
    ensures rewards == RewardsFor(awards, resourceMap)
  {
    rewards := [];
    for i := 0 to |awards|
      invariant rewards == RewardsFor(awards[..i], resourceMap)
    {
      if awards[i] in resourceMap {
        rewards := rewards + [RewardOf(resourceMap[awards[i]])];
      }
      assert awards[..i + 1][..i] == awards[..i];
    }
    assert awards[..|awards|] == awards;
  }

  /** The records array: `total` empty slots, then the first reward written
      into the last one. */
  method BuildRecords(total: nat, first: Option<Reward>) returns (records: seq<CachedRecord>)
    ensures records == RecordsFor(total, first)
  {
    var a := new CachedRecord[total](_ => EmptyRecord);
    if total > 0 && first.Some? {
      a[total - 1] := CachedRecord(Some(first.value.name), Some(first.value.count), Some(first.value.icon));
    }
    records := a[..];
  }

  /** The status the claim leaves in the cache: signed today, with the
      records array sized one past the previous sign-in count. */
  function ClaimedStatus(totalBefore: Option<nat>, rewards: seq<Reward>): ApiResponse<AttendanceData> {
    var first := if |rewards| > 0 then Some(rewards[0]) else None;
    ApiResponse(0, "", Some(AttendanceData(Some(true), None, None, Some(RecordsFor(totalBefore.GetOr(0) + 1, first)))))
  }

  datatype Claim = Claim(success: bool, rewards: seq<Reward>, entries: map<string, Entry<CacheValue>>)

  /** `#claimAttendance` as a function of the cache and the claim reply. */
  function ClaimAfter(entries: map<string, Entry<CacheValue>>, name: string, totalBefore: Option<nat>, now: int,
                      resp: Result<ApiResponse<ClaimData>, GotError>): Claim {
    if resp.Ok? && resp.value.code == 0 then
      var d := resp.value.data;
      var ids := if d.Some? && d.value.awardIds.Some? then d.value.awardIds.value else [];
      var m := if d.Some? && d.value.resourceInfoMap.Some? then d.value.resourceInfoMap.value else map[];
      var rewards := RewardsFor(ids, m);
      Claim(true, rewards, entries[AttendanceKey(name) := Entry(AttendanceValue(ClaimedStatus(totalBefore, rewards)), now, ClaimTtl)])
    else Claim(false, [], entries)
  }

  /** A successful claim is remembered: for twelve hours every status check
      reports the day as signed, allows no claim and asks nothing of the
      network. The cached records array has one slot more than the previous
      count, and its last slot holds the first reward. A failed claim leaves
      the cache alone. */
  lemma ClaimThenCheck(entries: map<string, Entry<CacheValue>>, name: string, totalBefore: Option<nat>, now: int,
                       later: int, resp: Result<ApiResponse<ClaimData>, GotError>,
                       s1: Result<ApiResponse<AttendanceData>, GotError>,
                       s2: Result<ApiResponse<AttendanceData>, GotError>)
    requires now <= later < now + ClaimTtl
    ensures var cl := ClaimAfter(entries, name, totalBefore, now, resp);
            && (cl.success <==> resp.Ok? && resp.value.code == 0)
            && (!cl.success ==> cl.entries == entries && cl.rewards == [])
            && (cl.success ==>
                  var c := CheckAfter(cl.entries, name, later, s1);
                  && !c.canClaim
                  && c == CheckAfter(cl.entries, name, later, s2)
                  && c.data.Some? && c.data.value.data.Some?
                  && var recs := c.data.value.data.value.records;
                  && recs.Some? && |recs.value| == totalBefore.GetOr(0) + 1
                  && (|cl.rewards| > 0 ==> recs.value[|recs.value| - 1].resourceName == Some(cl.rewards[0].name))
                  && (forall k :: 0 <= k < |recs.value| - 1 ==> recs.value[k] == EmptyRecord))
  {
  }

  // ---------------------------------------------------------------------
  // One account

  /** The status ladder once the calendar is read. */
  function Settle(r: CheckInResult, data: Option<ApiResponse<AttendanceData>>, canClaim: bool, claim: Claim): CheckInResult {
    if canClaim then
      if claim.success then
        var t := r.attendance.totalSignIns;
        r.(status := Claimed, rewards := claim.rewards,
           attendance := r.attendance.(totalSignIns := if t.Some? then Some(t.value + 1) else None))
      else r.(status := Errored, error := Some(ClaimFailed))
    else if data.Some? && data.value.code == 0 then r.(status := AlreadyClaimed)
    else r.(error := Some(StatusUnknown))
  }

  /** The game card's contribution: its level, server and character count,
      and a non-empty nickname that overrides the profile's. */
  function Enrich(r: CheckInResult, v: StoredView, stats: Option<GameStats>): (e: (CheckInResult, StoredView))
    ensures e.0.name == r.name && e.0.status == r.status && e.0.error == r.error && e.0.attendance == r.attendance
    ensures e.0.rewards == r.rewards && e.0.nextReward == r.nextReward
  {
    if stats.None? then (r, v)
    else
      var s := stats.value;
      var g := r.game.(level := Some(s.level), server := Some(s.serverName), charCount := Some(s.charCount));
      if s.nickname != "" then
        (r.(game := g, profile := r.profile.(nickname := Some(s.nickname))),
         v.(game := stats, profile := if v.profile.Some? then Some(v.profile.value.(nickname := s.nickname)) else None))
      else (r.(game := g), v.(game := stats))
  }

  /** The attendance part of `#processAccount`: the status check, the
      calendar bookkeeping, the claim when allowed, and the status ladder;
      with the cache it leaves behind. */
  function Attendance(entries: map<string, Entry<CacheValue>>, name: string, r: CheckInResult,
                      statusResp: Result<ApiResponse<AttendanceData>, GotError>,
                      claimResp: Result<ApiResponse<ClaimData>, GotError>, now: int)
    : (CheckInResult, map<string, Entry<CacheValue>>)
  {
    var c := CheckAfter(entries, name, now, statusResp);
    var r2 := Bookkeeping(r, c.data, c.canClaim);
    var cl := if c.canClaim then ClaimAfter(c.entries, name, r2.attendance.totalSignIns, now, claimResp)
              else Claim(false, [], c.entries);
    (Settle(r2, c.data, c.canClaim, cl), cl.entries)
  }

  datatype Processed = Processed(result: CheckInResult, entries: map<string, Entry<CacheValue>>, view: StoredView)

  /** `#processAccount` once the credential decision is made, as a function
      of the cache, the stored account and the three replies. */
  function Outcome(entries: map<string, Entry<CacheValue>>, account: Account, v: StoredView, hasAuth: bool,
                   statusResp: Result<ApiResponse<AttendanceData>, GotError>,
                   claimResp: Result<ApiResponse<ClaimData>, GotError>,
                   salt: string, cardResp: Result<ApiResponse<CardData>, GotError>, now: int): Processed {
    var r0 := Initial(account, v);
    if !hasAuth || account.skGameRole == "" then
      Processed(r0.(error := Some(MissingCredentials)), entries, v)
    else
      var a := Attendance(entries, account.name, WithProfile(r0, v.profile), statusResp, claimResp, now);
      var s := StatsAfter(a.1, account.name, false, salt, now, cardResp);
      var e := Enrich(a.0, v, s.value);
      Processed(e.0, s.entries, e.1.(attendance := Some(e.0.attendance), lastUpdated := now))
  }

  /** Without a credential or a game role the account gets an error result
      and nothing else happens: no reply is consulted, the cache and the
      stored account are untouched. */
  lemma MissingCredentialsStops(entries: map<string, Entry<CacheValue>>, account: Account, v: StoredView,
                                hasAuth: bool, s1: Result<ApiResponse<AttendanceData>, GotError>,
                                s2: Result<ApiResponse<AttendanceData>, GotError>,
                                c1: Result<ApiResponse<ClaimData>, GotError>,
                                c2: Result<ApiResponse<ClaimData>, GotError>,
                                salt1: string, salt2: string,
                                d1: Result<ApiResponse<CardData>, GotError>,
                                d2: Result<ApiResponse<CardData>, GotError>, now: int)
    requires !hasAuth || account.skGameRole == ""
    ensures var o := Outcome(entries, account, v, hasAuth, s1, c1, salt1, d1, now);
            && o == Outcome(entries, account, v, hasAuth, s2, c2, salt2, d2, now)
            && o.result.status == Errored && o.result.error == Some(MissingCredentials)
            && o.result.name == account.name
            && o.entries == entries && o.view == v
  {
  }

  /** Every result reports an error message exactly when its status is
      "error", and carries the account's name. */
  lemma OutcomeConsistent(entries: map<string, Entry<CacheValue>>, account: Account, v: StoredView, hasAuth: bool,
                          statusResp: Result<ApiResponse<AttendanceData>, GotError>,
                          claimResp: Result<ApiResponse<ClaimData>, GotError>,
                          salt: string, cardResp: Result<ApiResponse<CardData>, GotError>, now: int)
    ensures var o := Outcome(entries, account, v, hasAuth, statusResp, claimResp, salt, cardResp, now);
            Consistent(o.result) && o.result.name == account.name
  {
  }

  /** The status ladder: "claimed" exactly when the check allowed a claim
      and the claim reply had code 0; "already_claimed" exactly when no
      claim was allowed and the status reply had code 0; "error" otherwise.
      The claim request is consulted only when the check allowed a claim. */
  lemma StatusLadder(entries: map<string, Entry<CacheValue>>, account: Account, v: StoredView,
                     statusResp: Result<ApiResponse<AttendanceData>, GotError>,
                     claimResp: Result<ApiResponse<ClaimData>, GotError>,
                     claimResp2: Result<ApiResponse<ClaimData>, GotError>,
                     salt: string, cardResp: Result<ApiResponse<CardData>, GotError>, now: int)
    requires account.skGameRole != ""
    ensures var c := CheckAfter(entries, account.name, now, statusResp);
            var o := Outcome(entries, account, v, true, statusResp, claimResp, salt, cardResp, now);
            && (o.result.status == Claimed <==> c.canClaim && claimResp.Ok? && claimResp.value.code == 0)
            && (o.result.status == AlreadyClaimed <==> !c.canClaim && c.data.Some? && c.data.value.code == 0)
            && (c.canClaim && !(claimResp.Ok? && claimResp.value.code == 0) ==> o.result.error == Some(ClaimFailed))
            && (!c.canClaim && !(c.data.Some? && c.data.value.code == 0) ==> o.result.error == Some(StatusUnknown))
            && (!c.canClaim ==> o == Outcome(entries, account, v, true, statusResp, claimResp2, salt, cardResp, now))
  {
  }

  /** Past the credential decision, the result's status and attendance are
      those the attendance part produced, and the stored account keeps that
      attendance. */
  lemma OutcomeAttendance(entries: map<string, Entry<CacheValue>>, account: Account, v: StoredView,
                          statusResp: Result<ApiResponse<AttendanceData>, GotError>,
                          claimResp: Result<ApiResponse<ClaimData>, GotError>,
                          salt: string, cardResp: Result<ApiResponse<CardData>, GotError>, now: int)
    requires account.skGameRole != ""
    ensures var a := Attendance(entries, account.name, WithProfile(Initial(account, v), v.profile), statusResp, claimResp, now);
            var o := Outcome(entries, account, v, true, statusResp, claimResp, salt, cardResp, now);
            && o.result.status == a.0.status && o.result.attendance == a.0.attendance
            && o.result.rewards == a.0.rewards && o.result.nextReward == a.0.nextReward
            && o.view.attendance == Some(o.result.attendance)
  {
  }

  /** Bookkeeping on a readable calendar with done entries records their
      number and the calendar. */
  lemma BookkeepingCounts(r: CheckInResult, data: Option<ApiResponse<AttendanceData>>, canClaim: bool)
    requires data.Some? && data.value.code == 0 && data.value.data.Some?
    ensures var cal := data.value.data.value.calendar.GetOr([]);
            |DoneEntries(cal)| > 0 ==>
              Bookkeeping(r, data, canClaim).attendance == AttendanceSummary(Some(|DoneEntries(cal)|), Some(cal))
  {
  }

  /** The status ladder adds one to a known sign-in count exactly on a
      successful claim, and leaves the calendar alone. */
  lemma SettleCounts(r: CheckInResult, data: Option<ApiResponse<AttendanceData>>, canClaim: bool, claim: Claim)
    requires r.status != Claimed && r.attendance.totalSignIns.Some?
    ensures var s := Settle(r, data, canClaim, claim);
            && s.attendance.calendar == r.attendance.calendar
            && s.attendance.totalSignIns == Some(if s.status == Claimed then r.attendance.totalSignIns.value + 1
                                                 else r.attendance.totalSignIns.value)
  {
  }

  /** The attendance part's sign-in count on a readable calendar with done
      entries. */
  lemma AttendanceSignIns(entries: map<string, Entry<CacheValue>>, name: string, r: CheckInResult,
                          statusResp: Result<ApiResponse<AttendanceData>, GotError>,
                          claimResp: Result<ApiResponse<ClaimData>, GotError>, now: int)
    requires r.status != Claimed
    ensures var c := CheckAfter(entries, name, now, statusResp);
            var a := Attendance(entries, name, r, statusResp, claimResp, now).0;
            c.data.Some? && c.data.value.code == 0 && c.data.value.data.Some? ==>
              var cal := c.data.value.data.value.calendar.GetOr([]);
              var n := |DoneEntries(cal)|;
              n > 0 ==>
                && a.attendance.totalSignIns == Some(if a.status == Claimed then n + 1 else n)
                && a.attendance.calendar == Some(cal)
  {
    var c := CheckAfter(entries, name, now, statusResp);
    if c.data.Some? && c.data.value.code == 0 && c.data.value.data.Some? {
      var cal := c.data.value.data.value.calendar.GetOr([]);
      if |DoneEntries(cal)| > 0 {
        var r2 := Bookkeeping(r, c.data, c.canClaim);
        BookkeepingCounts(r, c.data, c.canClaim);
        var cl := if c.canClaim then ClaimAfter(c.entries, name, r2.attendance.totalSignIns, now, claimResp)
                  else Claim(false, [], c.entries);
        SettleCounts(r2, c.data, c.canClaim, cl);
      }
    }
  }

  /** With at least one done calendar entry the sign-in count is the number
      of done entries, one more after a successful claim; the stored account
      keeps that count. */
  lemma SignInCount(entries: map<string, Entry<CacheValue>>, account: Account, v: StoredView,
                    statusResp: Result<ApiResponse<AttendanceData>, GotError>,
                    claimResp: Result<ApiResponse<ClaimData>, GotError>,
                    salt: string, cardResp: Result<ApiResponse<CardData>, GotError>, now: int)
    requires account.skGameRole != ""
    ensures var c := CheckAfter(entries, account.name, now, statusResp);
            var o := Outcome(entries, account, v, true, statusResp, claimResp, salt, cardResp, now);
            c.data.Some? && c.data.value.code == 0 && c.data.value.data.Some? ==>
              var cal := c.data.value.data.value.calendar.GetOr([]);
              var n := |DoneEntries(cal)|;
              n > 0 ==>
                && o.result.attendance.totalSignIns == Some(if o.result.status == Claimed then n + 1 else n)
                && o.result.attendance.calendar == Some(cal)
                && o.view.attendance == Some(o.result.attendance)
  {
    OutcomeAttendance(entries, account, v, statusResp, claimResp, salt, cardResp, now);
    AttendanceSignIns(entries, account.name, WithProfile(Initial(account, v), v.profile), statusResp, claimResp, now);
  }

  /** The rewards bookkeeping reports: the last done entry's reward when
      nothing is to be claimed, the first entry not done as the next. */
  lemma BookkeepingRewards(r: CheckInResult, data: Option<ApiResponse<AttendanceData>>, canClaim: bool)
    requires data.Some? && data.value.code == 0 && data.value.data.Some?
    ensures var d := data.value.data.value;
            var cal := d.calendar.GetOr([]);
            var done := DoneEntries(cal);
            var b := Bookkeeping(r, data, canClaim);
            && (!canClaim && |done| > 0 && InfoReward(d.resourceInfoMap, done[|done| - 1].awardId).Some? ==>
                  b.rewards == [InfoReward(d.resourceInfoMap, done[|done| - 1].awardId).value])
            && (FirstNotDone(cal).Some? && InfoReward(d.resourceInfoMap, FirstNotDone(cal).value.awardId).Some? ==>
                  b.nextReward == InfoReward(d.resourceInfoMap, FirstNotDone(cal).value.awardId))
  {
  }

  /** The status ladder never touches the next reward, and touches the
      rewards only when a claim was allowed. */
  lemma SettleRewards(r: CheckInResult, data: Option<ApiResponse<AttendanceData>>, canClaim: bool, claim: Claim)
    ensures var s := Settle(r, data, canClaim, claim);
            && s.nextReward == r.nextReward
            && (!canClaim ==> s.rewards == r.rewards)
  {
  }

  /** When there is nothing to claim, the reported reward is the one of the
      last done entry, and the next reward is the one of the first entry not
      done, each when the resource map knows it. */
  lemma RewardsFromCalendar(entries: map<string, Entry<CacheValue>>, account: Account, v: StoredView,
                            statusResp: Result<ApiResponse<AttendanceData>, GotError>,
                            claimResp: Result<ApiResponse<ClaimData>, GotError>,
                            salt: string, cardResp: Result<ApiResponse<CardData>, GotError>, now: int)
    requires account.skGameRole != ""
    ensures var c := CheckAfter(entries, account.name, now, statusResp);
            var o := Outcome(entries, account, v, true, statusResp, claimResp, salt, cardResp, now);
            c.data.Some? && c.data.value.code == 0 && c.data.value.data.Some? ==>
              var d := c.data.value.data.value;
              var cal := d.calendar.GetOr([]);
              var done := DoneEntries(cal);
              && (!c.canClaim && |done| > 0 && InfoReward(d.resourceInfoMap, done[|done| - 1].awardId).Some? ==>
                    o.result.rewards == [InfoReward(d.resourceInfoMap, done[|done| - 1].awardId).value])
              && (FirstNotDone(cal).Some? && InfoReward(d.resourceInfoMap, FirstNotDone(cal).value.awardId).Some? ==>
                    o.result.nextReward == InfoReward(d.resourceInfoMap, FirstNotDone(cal).value.awardId))
  {
    OutcomeAttendance(entries, account, v, statusResp, claimResp, salt, cardResp, now);
    var c := CheckAfter(entries, account.name, now, statusResp);
    if c.data.Some? && c.data.value.code == 0 && c.data.value.data.Some? {
      var r1 := WithProfile(Initial(account, v), v.profile);
      var r2 := Bookkeeping(r1, c.data, c.canClaim);
      BookkeepingRewards(r1, c.data, c.canClaim);
      var cl := if c.canClaim then ClaimAfter(c.entries, account.name, r2.attendance.totalSignIns, now, claimResp)
                else Claim(false, [], c.entries);
      SettleRewards(r2, c.data, c.canClaim, cl);
    }
  }

  /** The status GET has no sign path, so it is signed with v1 whatever
      salt the account has; it carries the game role. */
  lemma StatusRequestShape(account: Account, creds: map<string, RuntimeCredentials>, hashes: HashFunctions, now: int)
    ensures var ctx := StatusContext(account, creds, hashes, now);
            var p := Prepare(Clients, "SKPortWeb", AttendanceUrl, ctx);
            && (p.Ok? <==> EffectiveCred(ctx) != "")
            && (p.Ok? ==>
                  && "sk-game-role" in p.value.client.headers
                  && HasHeader(p.value.client.headers, "sign", SignV1(hashes, Timestamp(now), EffectiveCred(ctx))))
  {
    var ctx := StatusContext(account, creds, hashes, now);
    assert ctx.args.includeGameRole.GetOr(true);
    PreparedStatic(SkportWebModule, AttendanceUrl, ctx);
    SignatureChoice(ctx, Timestamp(now), EffectiveCred(ctx));
  }

  /** The claim is signed for the attendance path, which classifies as v1:
      it is signed with v1 whatever salt the account has (the v2 flag the
      caller passes is never read); it carries the game role. */
  lemma ClaimRequestShape(account: Account, creds: map<string, RuntimeCredentials>, hashes: HashFunctions, now: int)
    ensures var ctx := ClaimContext(account, creds, hashes, now);
            var p := Prepare(Clients, "SKPortWeb", AttendanceUrl, ctx);
            && (p.Ok? <==> EffectiveCred(ctx) != "")
            && (p.Ok? ==>
                  && "sk-game-role" in p.value.client.headers
                  && HasHeader(p.value.client.headers, "sign", SignV1(hashes, Timestamp(now), EffectiveCred(ctx))))
  {
    var ctx := ClaimContext(account, creds, hashes, now);
    assert ctx.args.includeGameRole.GetOr(true);
    PreparedStatic(SkportWebModule, AttendanceUrl, ctx);
    SignVersionV1Example();
    SignatureChoice(ctx, Timestamp(now), EffectiveCred(ctx));
  }

  /** The game card's fields written into the result and the stored
      account, its non-empty nickname over the profile's. */
  method ApplyStats(stored: StoredAccount, r: CheckInResult, stats: Option<GameStats>) returns (result: CheckInResult)
    modifies stored
    ensures (result, ViewOf(stored)) == Enrich(r, old(ViewOf(stored)), stats)
  {
    result := r;
    if stats.Some? {
      result := result.(game := result.game.(level := Some(stats.value.level), server := Some(stats.value.serverName),
                                             charCount := Some(stats.value.charCount)));
      if stats.value.nickname != "" {
        result := result.(profile := result.profile.(nickname := Some(stats.value.nickname)));
        if stored.profile.Some? {
          stored.profile := Some(stored.profile.value.(nickname := stats.value.nickname));
        }
      }
      stored.game := stats;
    }
  }

  // ---------------------------------------------------------------------
  // The rounds of `execute`

  /** The outside world `execute` talks to: the OAuth endpoints, and the
      outcome of `#processAccount` once the credential decision is made,
      for a given cache, credential store, account, stored fields and
      authentication flag. */
  datatype Checker = Checker(
    oauth: OAuthEndpoints,
    attend: (map<string, Entry<CacheValue>>, map<string, RuntimeCredentials>, Account, StoredView, bool) -> Processed)

  /** What `execute` threads through its loop: the credential store, the
      cache, the results so far and the stored fields of every account. */
  datatype ExecState = ExecState(creds: map<string, RuntimeCredentials>, cache: map<string, Entry<CacheValue>>,
                                 results: seq<CheckInResult>, views: seq<StoredView>)

  /** Round `i` of `execute`: the account's credentials are decided without
      a forced refresh, the account is processed over the new store with
      its stored fields, and those fields are replaced. */
  function ExecNext(st: ExecState, i: nat, account: Account, net: Checker, now: int): ExecState
    requires i < |st.views|
  {
    var d := DecideCredentials(CredentialsOf(st.creds, account.name), account, false, net.oauth, now);
    var creds := Apply(st.creds, account.name, d);
    var o := net.attend(st.cache, creds, account, st.views[i], !d.NoCredentials?);
    ExecState(creds, o.entries, st.results + [o.result], st.views[i := o.view])
  }

  /** The first `k` rounds of `execute` over the stored accounts, in order. */
  function ExecRounds(st: ExecState, accounts: seq<Account>, k: nat, net: Checker, now: int): (r: ExecState)
    requires k <= |accounts| == |st.views|
    ensures |r.views| == |st.views|
  {
    if k == 0 then st
    else ExecNext(ExecRounds(st, accounts, k - 1, net, now), k - 1, accounts[k - 1], net, now)
  }

  /** `trace` holds the state after each number of rounds. */
  ghost predicate TraceOf(trace: seq<ExecState>, st: ExecState, accounts: seq<Account>, net: Checker, now: int)
    requires |accounts| == |st.views|
  {
    && |trace| == |accounts| + 1
    && forall k {:trigger ExecRounds(st, accounts, k, net, now)} :: 0 <= k <= |accounts| ==>
         trace[k] == ExecRounds(st, accounts, k, net, now)
  }

  /** The states of `execute` after 0, 1, ... rounds. */
  ghost function ExecTrace(st: ExecState, accounts: seq<Account>, net: Checker, now: int): (r: seq<ExecState>)
    requires |accounts| == |st.views|
    ensures TraceOf(r, st, accounts, net, now)
  {
    seq(|accounts| + 1, k requires 0 <= k <= |accounts| => ExecRounds(st, accounts, k, net, now))
  }

  /** The processing of `#processAccount` reports consistently and names
      the account it was given. */
  ghost predicate Reports(net: Checker) {
    forall c, m, a, v, h :: Consistent(net.attend(c, m, a, v, h).result) && net.attend(c, m, a, v, h).result.name == a.name
  }

  /** `execute` keeps the results it had and adds one per round, in account
      order, each consistent and named after its account. */
  lemma {:induction false} ExecOneResultEach(st: ExecState, accounts: seq<Account>, k: nat, net: Checker, now: int)
    requires k <= |accounts| == |st.views| && Reports(net)
    ensures var r := ExecRounds(st, accounts, k, net, now);
            && |r.results| == |st.results| + k && r.results[..|st.results|] == st.results
            && forall i :: 0 <= i < k ==>
                 r.results[|st.results| + i].name == accounts[i].name && Consistent(r.results[|st.results| + i])
  {
    if k > 0 {
      var p := ExecRounds(st, accounts, k - 1, net, now);
      var r := ExecNext(p, k - 1, accounts[k - 1], net, now);
      ExecOneResultEach(st, accounts, k - 1, net, now);
      assert r.results == p.results + [r.results[|p.results|]];
      forall i | 0 <= i < k
        ensures r.results[|st.results| + i].name == accounts[i].name && Consistent(r.results[|st.results| + i])
      {
        if i < k - 1 {
          assert r.results[|st.results| + i] == p.results[|st.results| + i];
        }
      }
    }
  }

  /** Each account is processed once, with the stored fields it had before
      the run: the rounds so far leave the later accounts' fields alone. */
  lemma {:induction false} ExecLeavesLater(st: ExecState, accounts: seq<Account>, k: nat, net: Checker, now: int)
    requires k <= |accounts| == |st.views|
    ensures forall j :: k <= j < |st.views| ==> ExecRounds(st, accounts, k, net, now).views[j] == st.views[j]
  {
    if k > 0 {
      ExecLeavesLater(st, accounts, k - 1, net, now);
    }
  }

  /** `execute` keeps every stored credential usable. */
  lemma {:induction false} ExecKeepsUsable(st: ExecState, accounts: seq<Account>, k: nat, net: Checker, now: int)
    requires k <= |accounts| == |st.views| && CredsUsable(st.creds)
    ensures CredsUsable(ExecRounds(st, accounts, k, net, now).creds)
  {
    if k > 0 {
      var p := ExecRounds(st, accounts, k - 1, net, now);
      ExecKeepsUsable(st, accounts, k - 1, net, now);
      DecisionKeepsUsable(p.creds, accounts[k - 1], false, net.oauth, now);
    }
  }

  /** A round for an account without any credential leaves the store as it
      was and processes the account unauthenticated. */
  lemma NoCredentialsRound(st: ExecState, i: nat, account: Account, net: Checker, now: int)
    requires i < |st.views|
    requires !Fresh(CredentialsOf(st.creds, account.name), false, now)
    requires account.accountToken == "" || PerformOAuthFlow(account.accountToken, net.oauth).result.Err?
    requires account.cred == ""
    ensures var r := ExecNext(st, i, account, net, now);
            && r.creds == st.creds
            && r.results == st.results + [net.attend(st.cache, st.creds, account, st.views[i], false).result]
  {
    FallbackOrder(CredentialsOf(st.creds, account.name), account, false, net.oauth, now, st.creds);
  }

  /** The stored accounts' configured accounts, in order. */
  function AccountsOf(xs: seq<StoredAccount>): (r: seq<Account>)
    ensures |r| == |xs| && forall i :: 0 <= i < |xs| ==> r[i] == xs[i].account
  {
    seq(|xs|, i requires 0 <= i < |xs| => xs[i].account)
  }

  /** The fields `execute` reads and writes, for each stored account. */
  ghost function Views(xs: seq<StoredAccount>): (r: seq<StoredView>)
    reads xs
    ensures |r| == |xs| && forall i :: 0 <= i < |xs| ==> r[i] == ViewOf(xs[i])
  {
    seq(|xs|, i reads xs requires 0 <= i < |xs| => ViewOf(xs[i]))
  }

  // ---------------------------------------------------------------------
  /** One account's `#processAccount` after its credential step, over the
      game's own endpoints. */
  function Attended(clients: map<string, GotModule<CallContext>>, hashes: HashFunctions, up: Upstream, now: int, entries: map<string, Entry<CacheValue>>,
                  creds: map<string, RuntimeCredentials>, account: Account, v: StoredView, hasAuth: bool): Processed {
    Outcome(entries, account, v, hasAuth,
            StatusRequest(clients, account, creds, hashes, up, now),
            ClaimRequest(clients, account, creds, hashes, up, now),
            RuntimeSalt(creds, account.name),
            CardRequest(clients, account, creds, hashes, up, now), now)
  }

  // The check-in runner

  /** `CheckIn`: runs the attendance routine of one game instance. */
  class CheckIn {
    const instance: Endfield

    constructor (instance: Endfield)
      ensures this.instance == instance
    {
      this.instance := instance;
    }

    /** The game's own `Checker`: `#processAccount`'s outcome over the
        replies the three endpoints give to the account's requests. */
    function Net(now: int): Checker {
      Checker(instance.upstream.oauth, (e, c, a, v, h) => Attended(instance.clients, instance.hashes, instance.upstream, now, e, c, a, v, h))
    }

    /** The game's `Checker` reports consistently. */
    lemma NetReports(now: int)
      ensures Reports(Net(now))
    {
      forall c, m, a, v, h
        ensures Consistent(Net(now).attend(c, m, a, v, h).result) && Net(now).attend(c, m, a, v, h).result.name == a.name
      {
        OutcomeConsistent(c, a, v, h, StatusRequest(instance.clients, a, m, instance.hashes, instance.upstream, now),
                          ClaimRequest(instance.clients, a, m, instance.hashes, instance.upstream, now), RuntimeSalt(m, a.name),
                          CardRequest(instance.clients, a, m, instance.hashes, instance.upstream, now), now);
      }
    }

    /** `#checkAttendance`. */
    method CheckAttendance(account: Account, now: int) returns (data: Option<ApiResponse<AttendanceData>>, canClaim: bool)
      modifies instance.cache
      ensures var c := CheckAfter(old(instance.cache.entries), account.name, now,
                                  StatusRequest(instance.clients, account, instance.store.entries, instance.hashes, instance.upstream, now));
              data == c.data && canClaim == c.canClaim && instance.cache.entries == c.entries
    {
      var resp := StatusRequest(instance.clients, account, instance.store.entries, instance.hashes, instance.upstream, now);
      data, canClaim := CheckWith(account.name, resp, now);
    }

    /** The status check once the request is settled: the reply is used
        only when the cache holds no "signed today" answer. */
    method CheckWith(name: string, resp: Result<ApiResponse<AttendanceData>, GotError>, now: int)
      returns (data: Option<ApiResponse<AttendanceData>>, canClaim: bool)
      modifies instance.cache
      ensures var c := CheckAfter(old(instance.cache.entries), name, now, resp);
              data == c.data && canClaim == c.canClaim && instance.cache.entries == c.entries
    {
      var key := AttendanceKey(name);
      var cached := instance.cache.Get(key, now);
      if cached.Some? && cached.value.AttendanceValue? {
        var a := cached.value.attendance;
        if a.code == 0 && a.data.Some? {
          var hasToday := a.data.value.hasToday.GetOr(false);
          if hasToday {
            return Some(a), false;
          }
        }
      }
      if resp.Err? {
        return None, false;
      }
      if resp.value.code == 0 {
        instance.cache.Set(key, AttendanceValue(resp.value), StatusTtl, now);
        var hasToday := resp.value.data.Some? && resp.value.data.value.hasToday.GetOr(false);
        return Some(resp.value), !hasToday;
      }
      return Some(resp.value), false;
    }

    /** `#claimAttendance`: `totalBefore` is the result's sign-in count at
        the time of the claim. */
    method ClaimAttendance(account: Account, totalBefore: Option<nat>, now: int) returns (success: bool, rewards: seq<Reward>)
      modifies instance.cache
      ensures var cl := ClaimAfter(old(instance.cache.entries), account.name, totalBefore, now,
                                   ClaimRequest(instance.clients, account, instance.store.entries, instance.hashes, instance.upstream, now));
              success == cl.success && rewards == cl.rewards && instance.cache.entries == cl.entries
    {
      var resp := ClaimRequest(instance.clients, account, instance.store.entries, instance.hashes, instance.upstream, now);
      success, rewards := ClaimWith(account.name, totalBefore, resp, now);
    }

    /** The claim once the request is settled: the rewards in award order,
        and the "signed today" status cached for twelve hours. */
    method ClaimWith(name: string, totalBefore: Option<nat>, resp: Result<ApiResponse<ClaimData>, GotError>, now: int)
      returns (success: bool, rewards: seq<Reward>)
      modifies instance.cache
      ensures var cl := ClaimAfter(old(instance.cache.entries), name, totalBefore, now, resp);
              success == cl.success && rewards == cl.rewards && instance.cache.entries == cl.entries
    {
      if resp.Err? || resp.value.code != 0 {
        return false, [];
      }
      var d := resp.value.data;
      var awards := if d.Some? && d.value.awardIds.Some? then d.value.awardIds.value else [];
      var resourceMap := if d.Some? && d.value.resourceInfoMap.Some? then d.value.resourceInfoMap.value else map[];
      rewards := CollectRewards(awards, resourceMap);
      var records := BuildRecords(totalBefore.GetOr(0) + 1, if |rewards| > 0 then Some(rewards[0]) else None);
      var status := ApiResponse(0, "", Some(AttendanceData(Some(true), None, None, Some(records))));
      instance.cache.Set(AttendanceKey(name), AttendanceValue(status), ClaimTtl, now);
      success := true;
    }

    /** `#processAccount`: the credential is refreshed first; the rest is
        `Outcome` over the refreshed store. */
    method ProcessAccount(stored: StoredAccount, now: int) returns (result: CheckInResult)
      requires instance.Valid()
      modifies instance.store, instance.cache, stored
      ensures instance.Valid()
      ensures var d := DecideCredentials(CredentialsOf(old(instance.store.entries), stored.account.name), stored.account,
                                         false, instance.upstream.oauth, now);
              var creds := instance.store.entries;
              var account := stored.account;
              && creds == Apply(old(instance.store.entries), account.name, d)
              && var o := Attended(instance.clients, instance.hashes, instance.upstream, now, old(instance.cache.entries), creds, account,
                                   old(ViewOf(stored)), !d.NoCredentials?);
                 result == o.result && instance.cache.entries == o.entries && ViewOf(stored) == o.view
      ensures Consistent(result) && result.name == stored.account.name
    {
      var account := stored.account;
      var hasAuth := instance.InitOAuth(account, false, now);
      var creds := instance.store.entries;
      // The replies the three endpoints give to this account's requests;
      // `Attend` reads each one only where the source sends the request.
      var statusResp := StatusRequest(instance.clients, account, creds, instance.hashes, instance.upstream, now);
      var claimResp := ClaimRequest(instance.clients, account, creds, instance.hashes, instance.upstream, now);
      var cardResp := CardRequest(instance.clients, account, creds, instance.hashes, instance.upstream, now);
      result := Attend(stored, hasAuth, RuntimeSalt(creds, account.name), statusResp, claimResp, cardResp, now);
      assert instance.store.entries == creds;
    }

    /** The part of `#processAccount` after the credential decision, given
        the runtime salt and the replies. */
    method Attend(stored: StoredAccount, hasAuth: bool, salt: string,
                  statusResp: Result<ApiResponse<AttendanceData>, GotError>,
                  claimResp: Result<ApiResponse<ClaimData>, GotError>,
                  cardResp: Result<ApiResponse<CardData>, GotError>, now: int)
      returns (result: CheckInResult)
      modifies instance.cache, stored
      ensures var o := Outcome(old(instance.cache.entries), stored.account, old(ViewOf(stored)), hasAuth,
                               statusResp, claimResp, salt, cardResp, now);
              result == o.result && instance.cache.entries == o.entries && ViewOf(stored) == o.view
      ensures Consistent(result) && result.name == stored.account.name
    {
      var account := stored.account;
      OutcomeConsistent(instance.cache.entries, account, ViewOf(stored), hasAuth, statusResp, claimResp,
                        salt, cardResp, now);
      result := Initial(account, ViewOf(stored));
      if !hasAuth || account.skGameRole == "" {
        result := result.(error := Some(MissingCredentials));
        return;
      }
      result := WithProfile(result, stored.profile);
      result := AttendanceStep(account.name, result, statusResp, claimResp, now);
      var stats := instance.StatsWith(account.name, false, salt, cardResp, now);
      result := ApplyStats(stored, result, stats);
      stored.attendance := Some(result.attendance);
      stored.lastUpdated := now;
    }

    /** Lines of `#processAccount` from the status check to the status
        ladder. */
    method AttendanceStep(name: string, r: CheckInResult,
                          statusResp: Result<ApiResponse<AttendanceData>, GotError>,
                          claimResp: Result<ApiResponse<ClaimData>, GotError>, now: int)
      returns (result: CheckInResult)
      modifies instance.cache
      ensures (result, instance.cache.entries) == Attendance(old(instance.cache.entries), name, r, statusResp, claimResp, now)
    {
      result := r;
      var data, canClaim := CheckWith(name, statusResp, now);
      result := Bookkeeping(result, data, canClaim);
      if canClaim {
        var success, rewards := ClaimWith(name, result.attendance.totalSignIns, claimResp, now);
        if success {
          result := result.(status := Claimed, rewards := rewards);
          if result.attendance.totalSignIns.Some? {
            result := result.(attendance := result.attendance.(totalSignIns := Some(result.attendance.totalSignIns.value + 1)));
          }
        } else {
          result := result.(status := Errored, error := Some(ClaimFailed));
        }
      } else if data.Some? && data.value.code == 0 {
        result := result.(status := AlreadyClaimed);
      } else {
        result := result.(error := Some(StatusUnknown));
      }
    }

    /** `execute`: every stored account is processed in turn, each over the
        credential store and cache the accounts before it left. */
    method Execute(now: int) returns (results: seq<CheckInResult>)
      requires instance.Valid()
      modifies instance.store, instance.cache, instance.accounts
      ensures instance.Valid()
      ensures ExecState(instance.store.entries, instance.cache.entries, results, Views(instance.accounts))
              == ExecRounds(ExecState(old(instance.store.entries), old(instance.cache.entries), [],
                                      old(Views(instance.accounts))),
                            AccountsOf(instance.accounts), |instance.accounts|, Net(now), now)
      ensures |results| == |instance.accounts|
      ensures forall i :: 0 <= i < |results| ==>
                results[i].name == instance.accounts[i].account.name && Consistent(results[i])
    {
      ghost var all := AccountsOf(instance.accounts);
      ghost var st0 := ExecState(instance.store.entries, instance.cache.entries, [], Views(instance.accounts));
      ghost var trace := ExecTrace(st0, all, Net(now), now);
      results := ExecLoop(all, st0, Net(now), trace, now);
      assert instance.accounts == old(instance.accounts) && all == AccountsOf(instance.accounts);
      assert trace[|all|] == ExecRounds(st0, all, |all|, Net(now), now);
      ExecReports(st0, all, now);
    }

    /** Over the game's endpoints, the rounds give one consistent result per
        account, named after it. */
    lemma ExecReports(st0: ExecState, all: seq<Account>, now: int)
      requires |all| == |st0.views| && st0.results == []
      ensures var r := ExecRounds(st0, all, |all|, Net(now), now);
              && |r.results| == |all|
              && forall i :: 0 <= i < |all| ==> r.results[i].name == all[i].name && Consistent(r.results[i])
    {
      NetReports(now);
      ExecOneResultEach(st0, all, |all|, Net(now), now);
    }

    /** The loop of `execute`: round by round, the store, the cache, the
        results and the stored accounts follow `trace`. */
    method ExecLoop(ghost all: seq<Account>, ghost st0: ExecState, ghost net: Checker, ghost trace: seq<ExecState>,
                    now: int) returns (results: seq<CheckInResult>)
      requires instance.Valid() && all == AccountsOf(instance.accounts) && net == Net(now)
      requires st0 == ExecState(instance.store.entries, instance.cache.entries, [], Views(instance.accounts))
      requires TraceOf(trace, st0, all, net, now) && trace[0] == st0
      modifies instance.store, instance.cache, instance.accounts
      ensures instance.Valid()
      ensures ExecState(instance.store.entries, instance.cache.entries, results, Views(instance.accounts))
              == trace[|all|]
    {
      results := [];
      for i := 0 to |instance.accounts|
        invariant instance.Valid()
        invariant ExecState(instance.store.entries, instance.cache.entries, results, Views(instance.accounts))
                  == trace[i]
      {
        results := ExecStep(i, all, st0, net, trace, results, now);
      }
    }

    /** Round `i` of `execute`: the account is processed as
        `#processAccount` does, and the other accounts keep their stored
        fields. */
    method ExecStep(i: nat, ghost all: seq<Account>, ghost st0: ExecState, ghost net: Checker,
                    ghost trace: seq<ExecState>, results: seq<CheckInResult>, now: int)
      returns (results': seq<CheckInResult>)
      requires instance.Valid() && i < |instance.accounts| && all == AccountsOf(instance.accounts) && |all| == |st0.views|
      requires net == Net(now) && TraceOf(trace, st0, all, net, now)
      requires ExecState(instance.store.entries, instance.cache.entries, results, Views(instance.accounts)) == trace[i]
      modifies instance.store, instance.cache, instance.accounts[i]
      ensures instance.Valid()
      ensures ExecState(instance.store.entries, instance.cache.entries, results', Views(instance.accounts))
              == trace[i + 1]
    {
      assert trace[i] == ExecRounds(st0, all, i, net, now);
      assert trace[i + 1] == ExecRounds(st0, all, i + 1, net, now);
      var result := ProcessAt(i, now);
      results' := results + [result];
    }

    /** `#processAccount` on the `i`-th stored account: the other accounts
        keep their stored fields. */
    method ProcessAt(i: nat, now: int) returns (result: CheckInResult)
      requires instance.Valid() && i < |instance.accounts|
      modifies instance.store, instance.cache, instance.accounts[i]
      ensures instance.Valid()
      ensures var account := instance.accounts[i].account;
              var d := DecideCredentials(CredentialsOf(old(instance.store.entries), account.name), account,
                                         false, instance.upstream.oauth, now);
              var creds := instance.store.entries;
              && creds == Apply(old(instance.store.entries), account.name, d)
              && var o := Attended(instance.clients, instance.hashes, instance.upstream, now, old(instance.cache.entries), creds, account,
                                   old(Views(instance.accounts))[i], !d.NoCredentials?);
                 result == o.result && instance.cache.entries == o.entries
                 && Views(instance.accounts) == old(Views(instance.accounts))[i := o.view]
      ensures result.name == instance.accounts[i].account.name && Consistent(result)
    {
      var stored := instance.accounts[i];
      ghost var others := Views(instance.accounts);
      result := ProcessAccount(stored, now);
      forall k | 0 <= k < |others|
        ensures Views(instance.accounts)[k] == others[i := ViewOf(stored)][k]
      {
        if k != i {
          assert instance.accounts[k] != stored by {
            if k < i {
              assert instance.accounts[k] != instance.accounts[i];
            } else {
              assert instance.accounts[i] != instance.accounts[k];
            }
          }
        }
      }
    }
  }
}
