/** The records the game layer passes around (skport/template.ts and the
    attendance payloads of skport/endfield/check-in.ts), the values the
    shared cache holds, the remote endpoints as functions of the prepared
    request, and the per-account state object. */
module Records {
  import opened Wrappers
  import opened Config
  import opened OAuth
  import opened Got
  import opened Cache

  /** The game icon the notifications fall back to. */
  const EndfieldIcon: string :=
    "https://play-lh.googleusercontent.com/IHJeGhqSpth4VzATp_afjsCnFRc-uYgGC1EV3b2tryjyZsVrbcaeN5L_m8VKwvOSpIu_Skc49mDpLsAzC6Jl3mM"

  datatype Reward = Reward(name: string, count: int, icon: string)

  /** `ProfileData["user"]`; "" stands for an empty field. */
  datatype ProfileUser = ProfileUser(nickname: string, userId: string, avatar: string)

  datatype ProfileData = ProfileData(user: Option<ProfileUser>)

  /** `ApiResponse<T>`; `message` is "" when absent. */
  datatype ApiResponse<T> = ApiResponse(code: int, message: string, data: Option<T>)

  datatype Stamina = Stamina(current: int, max: int, recoveryTime: Option<int>)

  datatype Progress = Progress(level: int, maxLevel: int)

  /** `GameStats`, as `fetchGameStats` fills it: numbers the source tests
      for truthiness are 0 when absent, strings "". */
  datatype GameStats = GameStats(
    nickname: string,
    level: int,
    worldLevel: int,
    charCount: int,
    weaponCount: int,
    lastLoginTime: int,
    serverName: string,
    stamina: Option<Stamina>,
    bp: Option<Progress>,
    daily: Option<Progress>)

  /** The part of the card detail payload that `fetchGameStats` reads, with
      the numeric strings already read as numbers. */
  datatype CardDetail = CardDetail(
    serverName: string,
    name: string,
    level: int,
    worldLevel: int,
    charNum: int,
    weaponNum: int,
    lastLoginTime: int,
    curStamina: int,
    maxStamina: int,
    maxTs: Option<int>,
    bpCurLevel: int,
    bpMaxLevel: int,
    dailyActivation: int,
    maxDailyActivation: int)

  datatype CardData = CardData(detail: Option<CardDetail>)

  datatype CalendarEntry = CalendarEntry(awardId: string, available: bool, done: bool)

  datatype ResourceInfo = ResourceInfo(id: string, name: string, count: int, icon: string)

  /** One slot of the records array the claim writes to the cache. */
  datatype CachedRecord = CachedRecord(resourceName: Option<string>, count: Option<int>, icon: Option<string>)

  const EmptyRecord: CachedRecord := CachedRecord(None, None, None)

  /** `AttendanceData`; `records` only appears in the value the claim caches. */
  datatype AttendanceData = AttendanceData(
    hasToday: Option<bool>,
    calendar: Option<seq<CalendarEntry>>,
    resourceInfoMap: Option<map<string, ResourceInfo>>,
    records: Option<seq<CachedRecord>>)

  /** A resource of the claim reply; its `icon` may be missing. */
  datatype ClaimResource = ClaimResource(name: string, count: int, icon: Option<string>)

  datatype ClaimData = ClaimData(awardIds: Option<seq<string>>, resourceInfoMap: Option<map<string, ClaimResource>>)

  /** What the shared cache holds under the three kinds of key. */
  datatype CacheValue =
    | StatsValue(stats: GameStats)
    | AttendanceValue(attendance: ApiResponse<AttendanceData>)
    | ProfileValue(profile: ProfileUser)

  function ProfileKey(name: string): string { "profile:" + name }
  function StatsKey(name: string): string { "stats:endfield:" + name }
  function AttendanceKey(name: string): string { "attendance:endfield:" + name }

  /** The three kinds of key never collide, whatever the account names. */
  lemma KeysDisjoint(a: string, b: string)
    ensures ProfileKey(a) != StatsKey(b) && ProfileKey(a) != AttendanceKey(b) && StatsKey(a) != AttendanceKey(b)
    ensures ProfileKey(a) == ProfileKey(b) <==> a == b
    ensures StatsKey(a) == StatsKey(b) <==> a == b
    ensures AttendanceKey(a) == AttendanceKey(b) <==> a == b
  {
    assert ProfileKey(a)[0] == 'p' && StatsKey(b)[0] == 's' && AttendanceKey(b)[0] == 'a';
    assert StatsKey(a)[0] == 's';
    if ProfileKey(a) == ProfileKey(b) { assert a == ProfileKey(a)[8..] && b == ProfileKey(b)[8..]; }
    if StatsKey(a) == StatsKey(b) { assert a == StatsKey(a)[15..] && b == StatsKey(b)[15..]; }
    if AttendanceKey(a) == AttendanceKey(b) { assert a == AttendanceKey(a)[20..] && b == AttendanceKey(b)[20..]; }
  }

  /** What a cache-aside lookup returns, with the cache it leaves behind. */
  datatype Fetched<T> = Fetched(value: Option<T>, entries: map<string, Entry<CacheValue>>)

  /** The remote endpoints the game layer calls, as functions of the request
      the client sends; `None` stands for a request that threw. */
  datatype Upstream = Upstream(
    oauth: OAuthEndpoints,
    wikiMe: PreparedRequest -> Option<ApiResponse<ProfileData>>,
    cardDetail: PreparedRequest -> Option<ApiResponse<CardData>>,
    attendanceStatus: PreparedRequest -> Option<ApiResponse<AttendanceData>>,
    attendanceClaim: PreparedRequest -> Option<ApiResponse<ClaimData>>)

  /** `StoredAccount["attendance"]` and the `attendance` of a result. */
  datatype AttendanceSummary = AttendanceSummary(totalSignIns: Option<nat>, calendar: Option<seq<CalendarEntry>>)

  /** `StoredAccount`: the per-account state the game keeps between runs. */
  class StoredAccount {
    const account: Account
    var profile: Option<ProfileUser>
    const uid: string
    var game: Option<GameStats>
    var attendance: Option<AttendanceSummary>
    var lastUpdated: int

    constructor (account: Account, profile: Option<ProfileUser>, uid: string, lastUpdated: int)
      ensures this.account == account && this.profile == profile && this.uid == uid
      ensures game.None? && attendance.None? && this.lastUpdated == lastUpdated
    {
      this.account := account;
      this.profile := profile;
      this.uid := uid;
      this.game := None;
      this.attendance := None;
      this.lastUpdated := lastUpdated;
    }
  }
}
