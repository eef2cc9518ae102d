/** services/google-script/index.js: the stand-alone Google Apps Script
    copy of the daily check-in. It repeats the OAuth exchange and the two
    signers over the Apps Script digest functions, which return signed
    bytes, then checks and claims attendance for each configured account
    and posts one Discord embed per account. The HTTP calls are functions
    of what is sent; the digests are the fields of a `GasHashes` value. */
module GoogleScript {
  import opened Wrappers
  import opened Strings
  import opened Config
  import opened Hashing
  import opened OAuth
  import opened SkportGot
  import opened Records
  import opened Embeds

  const AttendanceEndpoint: string := "game/endfield/attendance"
  const UserAgent: string := "Skport/0.7.0 (com.gryphline.skport; build:700089; Android 33; ) Okhttp/5.1.0"
  const GasFooter: string := "SKPort Auto Check-In (GAS)"
  const MissingCredentialsMessage: string := "Missing credentials (cred/token or sk_game_role)"

  const SuccessColor: int := 0xFFD700
  const AlreadyColor: int := 0x3498DB
  const ErrorColor: int := 0xE74C3C

  // ---------------------------------------------------------------------
  // Hex and the signers

  /** A Java byte, as `Utilities.computeDigest` returns them. */
  newtype sbyte = x: int | -128 <= x < 128

  /** `Utilities.computeDigest(MD5, s)` and
      `Utilities.computeHmacSignature(HMAC_SHA_256, message, key)`, the latter
      taken here as a function of (key, message). */
  datatype GasHashes = GasHashes(
    md5: string -> seq<sbyte>,
    hmacSha256: (string, string) -> seq<sbyte>)

  /** `byte < 0 ? byte + 256 : byte`. */
  function Unsigned(b: sbyte): byte {
    if b < 0 then (b as int + 256) as byte else b as int as byte
  }

  function UnsignedAll(bytes: seq<sbyte>): (r: seq<byte>)
    ensures |r| == |bytes| && forall i :: 0 <= i < |bytes| ==> r[i] == Unsigned(bytes[i])
  {
    seq(|bytes|, i requires 0 <= i < |bytes| => Unsigned(bytes[i]))
  }

  /** `b.toString(16)` for 0 <= b < 256. */
  function Radix16(b: int): string
    requires 0 <= b < 256
  {
    if b < 16 then [HexDigit(b)] else [HexDigit(b / 16), HexDigit(b % 16)]
  }

  /** `("0" + b.toString(16)).slice(-2)`. */
  function ByteHex(byte: sbyte): string {
    var t := "0" + Radix16(Unsigned(byte) as int);
    t[|t| - 2..]
  }

  /** `toHex`: the bytes mapped and joined without separator. */
  function ToHex(bytes: seq<sbyte>): string
    decreases |bytes|
  {
    if bytes == [] then "" else ByteHex(bytes[0]) + ToHex(bytes[1..])
  }

  /** The padding and the slice make every byte exactly two digits, high
      nibble first. */
  lemma ByteHexDigits(byte: sbyte)
    ensures ByteHex(byte) == [HexDigit(Unsigned(byte) as int / 16), HexDigit(Unsigned(byte) as int % 16)]
  {
    var u := Unsigned(byte) as int;
    if u < 16 {
      assert u / 16 == 0;
      assert HexDigit(0) == '0';
    }
  }

  /** The script's hex of signed bytes is the hex of the unsigned bytes,
      two lowercase digits per byte, as Node's `digest("hex")` writes them. */
  lemma {:induction false} ToHexIsHex(bytes: seq<sbyte>)
    ensures ToHex(bytes) == Hex(UnsignedAll(bytes))
    ensures |ToHex(bytes)| == 2 * |bytes|
    decreases |bytes|
  {
    if bytes != [] {
      ToHexIsHex(bytes[1..]);
      ByteHexDigits(bytes[0]);
      assert UnsignedAll(bytes)[1..] == UnsignedAll(bytes[1..]);
    }
  }

  /** The Node digests the script's digests amount to. */
  function AsUnsigned(g: GasHashes): HashFunctions {
    HashFunctions(s => UnsignedAll(g.md5(s)), (k, m) => UnsignedAll(g.hmacSha256(k, m)))
  }

  /** `generateSignV1` of the script. */
  function GasSignV1(g: GasHashes, timestamp: string, cred: string): string {
    ToHex(g.md5(SignV1Message(timestamp, cred)))
  }

  /** `generateSignV2` of the script, with its fixed platform "3" and
      version "1.0.0". */
  function GasSignV2(g: GasHashes, path: string, timestamp: string, salt: string): string {
    ToHex(g.md5(ToHex(g.hmacSha256(salt, SignV2Message(path, timestamp, "3", "1.0.0")))))
  }

  /** The script signs exactly as the server-side signers do: the same
      strings go to the same digests, and the signed-byte hex is the same
      text. */
  lemma GasSignersAgree(g: GasHashes, path: string, timestamp: string, cred: string, salt: string)
    ensures GasSignV1(g, timestamp, cred) == SignV1(AsUnsigned(g), timestamp, cred)
    ensures GasSignV2(g, path, timestamp, salt) == SignV2(AsUnsigned(g), path, timestamp, "3", "1.0.0", salt)
  {
    var h := AsUnsigned(g);
    ToHexIsHex(g.md5(SignV1Message(timestamp, cred)));
    var mac := g.hmacSha256(salt, SignV2Message(path, timestamp, "3", "1.0.0"));
    ToHexIsHex(mac);
    assert h.hmacSha256(salt, SignV2Message(path, timestamp, "3", "1.0.0")) == UnsignedAll(mac);
    ToHexIsHex(g.md5(ToHex(mac)));
  }

  // ---------------------------------------------------------------------
  // OAuth

  /** How a step of the script fails: an error it throws itself, or an
      exception the runtime raises (a failed fetch, a reply that is not
      JSON, a property read on a missing object), whose text is not
      modelled. */
  datatype GasFailure = Raised(message: string) | RuntimeError

  /** `performOAuthFlow` of the script: the same three steps and checks as
      the server's; it returns the credential and the salt. */
  function GasOAuth(token: string, ep: OAuthEndpoints): Result<(string, string), GasFailure> {
    var basic := ep.basicInfo(token);
    if basic.None? then Err(RuntimeError)
    else if basic.value.status != 0 then Err(Raised("OAuth Step 1 Failed: " + basic.value.msg))
    else
      var grant := ep.grant(token);
      if grant.None? then Err(RuntimeError)
      else if grant.value.status != 0 || grant.value.data.None? || grant.value.data.value.code == "" then
        Err(Raised("OAuth Step 2 Failed: " + grant.value.msg))
      else
        var cred := ep.generateCred(grant.value.data.value.code);
        if cred.None? then Err(RuntimeError)
        else if cred.value.code != 0 || cred.value.data.None? || cred.value.data.value.cred == "" then
          Err(Raised("OAuth Step 3 Failed: " + cred.value.message))
        else Ok((cred.value.data.value.cred, cred.value.data.value.token))
  }

  /** The two copies of the exchange succeed on the same replies and yield
      the same credential and salt (`data.token`). */
  lemma GasOAuthAgrees(token: string, ep: OAuthEndpoints)
    ensures GasOAuth(token, ep).Ok? <==> PerformOAuthFlow(token, ep).result.Ok?
    ensures GasOAuth(token, ep).Ok? ==>
              var c := PerformOAuthFlow(token, ep).result.value;
              GasOAuth(token, ep).value == (c.cred, c.salt) && c.cred != ""
  {
  }

  // ---------------------------------------------------------------------
  // One account

  /** The two attendance calls, with the headers each is sent with. */
  datatype AttendanceCall = StatusCheck(headers: map<string, string>) | ClaimCall(headers: map<string, string>)

  /** The attendance endpoint: GET for the status, POST for the claim;
      None for a fetch that threw or a reply that is not JSON. */
  datatype AttendanceService = AttendanceService(
    status: map<string, string> -> Option<ApiResponse<AttendanceData>>,
    claim: map<string, string> -> Option<ApiResponse<ClaimData>>)

  /** A Discord notification: title, description, color and thumbnail. */
  datatype Notice = Notice(title: string, description: string, color: int, thumbnail: Option<string>)

  datatype ProcessRun = ProcessRun(result: Result<Notice, GasFailure>, calls: seq<AttendanceCall>)

  /** The credential and salt `processAccount` signs with: from the OAuth
      exchange when the account has a token (a failure there propagates),
      otherwise the configured credential with no salt. */
  function Credentials(account: Account, ep: OAuthEndpoints): Result<(string, string), GasFailure> {
    var cs :=
      if account.accountToken != "" then GasOAuth(account.accountToken, ep)
      else Ok((account.cred, ""));
    if cs.Err? then cs
    else if cs.value.0 == "" || account.skGameRole == "" then Err(Raised(MissingCredentialsMessage))
    else cs
  }

  /** `salt ? generateSignV2(signPath, …) : generateSignV1(…)`. */
  function GasSign(g: GasHashes, salt: string, timestamp: string, cred: string): string {
    if salt != "" then GasSignV2(g, "/web/v1/" + AttendanceEndpoint, timestamp, salt)
    else GasSignV1(g, timestamp, cred)
  }

  function GasHeaders(account: Account, cred: string, timestamp: string, sign: string): (h: map<string, string>)
    ensures h.Keys == {"cred", "sk-game-role", "platform", "sk-language", "timestamp", "vname", "sign", "User-Agent"}
    ensures && h["cred"] == cred && h["sk-game-role"] == account.skGameRole && h["platform"] == "3"
            && h["sk-language"] == "en" && h["timestamp"] == timestamp && h["vname"] == "1.0.0"
            && h["sign"] == sign && h["User-Agent"] == UserAgent
  {
    map["cred" := cred, "sk-game-role" := account.skGameRole, "platform" := "3", "sk-language" := "en",
        "timestamp" := timestamp, "vname" := "1.0.0", "sign" := sign, "User-Agent" := UserAgent]
  }

  /** One line of the rewards text: the resource when the map knows the id,
      the bare id otherwise. */
  function RewardLine(id: string, m: map<string, ClaimResource>): string {
    if id in m then "- **" + m[id].name + "** x" + IntToString(m[id].count) else "- Reward ID: " + id
  }

  function RewardLines(ids: seq<string>, m: map<string, ClaimResource>): (r: seq<string>)
    ensures |r| == |ids| && forall i :: 0 <= i < |ids| ==> r[i] == RewardLine(ids[i], m)
  {
    seq(|ids|, i requires 0 <= i < |ids| => RewardLine(ids[i], m))
  }

  /** The icon of the first award, when the map knows it. */
  function FirstRewardIcon(ids: seq<string>, m: map<string, ClaimResource>): Option<string> {
    if |ids| > 0 && ids[0] in m then m[ids[0]].icon else None
  }

  /** What the claim reply leads to. */
  function ClaimOutcome(account: Account, reply: Option<ApiResponse<ClaimData>>): Result<Notice, GasFailure> {
    if reply.None? then Err(RuntimeError)
    else if reply.value.code != 0 then Err(Raised("Claim failed: " + reply.value.message))
    else if reply.value.data.None? || reply.value.data.value.awardIds.None? then Err(RuntimeError)
    else
      var ids := reply.value.data.value.awardIds.value;
      var m := reply.value.data.value.resourceInfoMap;
      if |ids| > 0 && m.None? then Err(RuntimeError)
      else
        var known := m.GetOr(map[]);
        Ok(Notice("Daily Sign-in Claimed",
                  "Successfully claimed rewards for **" + account.name + "**\n\n" + Join(RewardLines(ids, known), "\n"),
                  SuccessColor, FirstRewardIcon(ids, known)))
  }

  function AlreadyNotice(account: Account): Notice {
    Notice("Already Signed In", "**" + account.name + "** has already claimed today's rewards", AlreadyColor, None)
  }

  /** What the status reply leads to, given the headers to claim with. */
  function StatusOutcome(account: Account, status: Option<ApiResponse<AttendanceData>>, headers: map<string, string>,
                         service: AttendanceService): ProcessRun {
    if status.None? then ProcessRun(Err(RuntimeError), [StatusCheck(headers)])
    else if status.value.code != 0 then
      ProcessRun(Err(Raised("Status check failed: " + status.value.message)), [StatusCheck(headers)])
    else if status.value.data.None? then ProcessRun(Err(RuntimeError), [StatusCheck(headers)])
    else if status.value.data.value.hasToday == Some(true) then
      ProcessRun(Ok(AlreadyNotice(account)), [StatusCheck(headers)])
    else
      ProcessRun(ClaimOutcome(account, service.claim(headers)), [StatusCheck(headers), ClaimCall(headers)])
  }

  /** The headers both attendance calls carry for a credential and salt. */
  function AttendHeaders(account: Account, cred: string, salt: string, g: GasHashes, nowMs: int): map<string, string> {
    var ts := Timestamp(nowMs);
    GasHeaders(account, cred, ts, GasSign(g, salt, ts, cred))
  }

  /** The attendance half of `processAccount`, once credentials are known. */
  function Attend(account: Account, cred: string, salt: string, g: GasHashes, service: AttendanceService, nowMs: int): ProcessRun {
    var headers := AttendHeaders(account, cred, salt, g, nowMs);
    StatusOutcome(account, service.status(headers), headers, service)
  }

  /** `processAccount`: the notice it sends or the failure it throws, and
      the attendance calls it makes. */
  function Process(account: Account, ep: OAuthEndpoints, g: GasHashes, service: AttendanceService, nowMs: int): ProcessRun {
    var c := Credentials(account, ep);
    if c.Err? then ProcessRun(Err(c.error), [])
    else Attend(account, c.value.0, c.value.1, g, service, nowMs)
  }

  /** Without a credential (configured, or from the exchange) or a game
      role the script throws before any attendance call. */
  lemma MissingCredentialsFirst(account: Account, ep: OAuthEndpoints, g: GasHashes, service: AttendanceService, nowMs: int)
    requires account.skGameRole == "" || (account.accountToken == "" && account.cred == "")
    ensures Process(account, ep, g, service, nowMs).calls == []
    ensures GasOAuth(account.accountToken, ep).Ok? || account.accountToken == "" ==>
              Process(account, ep, g, service, nowMs).result == Err(Raised(MissingCredentialsMessage))
  {
  }

  /** The script signs with v2 exactly when it has a salt, whatever the
      path: for the attendance path, which the server-side rule signs with
      v1 (`OAuth.SignVersionV1Example`), a salted account gets the v2
      signature. */
  lemma SignatureBySalt(account: Account, cred: string, salt: string, g: GasHashes, nowMs: int)
    ensures var h := AttendHeaders(account, cred, salt, g, nowMs);
            var ts := Timestamp(nowMs);
            && h["sign"] == (if salt != "" then GasSignV2(g, AttendancePath, ts, salt) else GasSignV1(g, ts, cred))
            && h["timestamp"] == ts && h["cred"] == cred && h["sk-game-role"] == account.skGameRole
            && h["platform"] == "3" && h["vname"] == "1.0.0"
  {
    SignPathIsAttendance();
  }

  /** The script's `signPath` is the attendance path. */
  lemma SignPathIsAttendance()
    ensures "/web/v1/" + AttendanceEndpoint == AttendancePath
  {
  }

  /** A day already signed ends the run after the status check, without a
      claim; a status code other than 0 is thrown, also without a claim;
      the claim, when made, carries the status check's headers. */
  lemma StatusDecides(account: Account, cred: string, salt: string, g: GasHashes, service: AttendanceService, nowMs: int)
    ensures var run := Attend(account, cred, salt, g, service, nowMs);
            var h := AttendHeaders(account, cred, salt, g, nowMs);
            var st := service.status(h);
            && 1 <= |run.calls| <= 2 && run.calls[0] == StatusCheck(h)
            && (st.Some? && st.value.code == 0 && st.value.data.Some? && st.value.data.value.hasToday == Some(true) ==>
                  run.result == Ok(AlreadyNotice(account)) && |run.calls| == 1)
            && (st.Some? && st.value.code != 0 ==>
                  run.result == Err(Raised("Status check failed: " + st.value.message)) && |run.calls| == 1)
            && (|run.calls| == 2 <==>
                  st.Some? && st.value.code == 0 && st.value.data.Some? && st.value.data.value.hasToday != Some(true))
            && (|run.calls| == 2 ==> run.calls[1] == ClaimCall(h) && run.result == ClaimOutcome(account, service.claim(h)))
  {
    var h := AttendHeaders(account, cred, salt, g, nowMs);
    StatusCases(account, service.status(h), h, service);
  }

  /** The status reply alone decides whether a claim follows. */
  lemma StatusCases(account: Account, st: Option<ApiResponse<AttendanceData>>, h: map<string, string>,
                    service: AttendanceService)
    ensures var run := StatusOutcome(account, st, h, service);
            && 1 <= |run.calls| <= 2 && run.calls[0] == StatusCheck(h)
            && (st.Some? && st.value.code == 0 && st.value.data.Some? && st.value.data.value.hasToday == Some(true) ==>
                  run.result == Ok(AlreadyNotice(account)) && |run.calls| == 1)
            && (st.Some? && st.value.code != 0 ==>
                  run.result == Err(Raised("Status check failed: " + st.value.message)) && |run.calls| == 1)
            && (|run.calls| == 2 <==>
                  st.Some? && st.value.code == 0 && st.value.data.Some? && st.value.data.value.hasToday != Some(true))
            && (|run.calls| == 2 ==> run.calls[1] == ClaimCall(h) && run.result == ClaimOutcome(account, service.claim(h)))
  {
  }

  /** A successful claim lists one reward line per award, in order, and
      uses the first award's icon as the thumbnail. */
  lemma ClaimNotice(account: Account, reply: ApiResponse<ClaimData>)
    requires ClaimOutcome(account, Some(reply)).Ok?
    ensures var ids := reply.data.value.awardIds.value;
            var m := reply.data.value.resourceInfoMap.GetOr(map[]);
            var n := ClaimOutcome(account, Some(reply)).value;
            && reply.code == 0
            && n.title == "Daily Sign-in Claimed" && n.color == SuccessColor
            && n.thumbnail == (if |ids| > 0 && ids[0] in m then m[ids[0]].icon else None)
            && n.description == "Successfully claimed rewards for **" + account.name + "**\n\n"
                                + Join(RewardLines(ids, m), "\n")
            && forall i :: 0 <= i < |ids| ==> RewardLines(ids, m)[i] == RewardLine(ids[i], m)
  {
  }

  /** Re-signing the claim with the same inputs leaves the headers as they
      were. */
  lemma ResignKeeps(account: Account, cred: string, ts: string, sign: string)
    ensures GasHeaders(account, cred, ts, sign)["sign" := sign] == GasHeaders(account, cred, ts, sign)
  {
  }

  /** The method form of `processAccount`: `cred` and `salt` are reassigned
      from the exchange, then the attendance calls follow. */
  method ProcessAccount(account: Account, ep: OAuthEndpoints, g: GasHashes, service: AttendanceService, nowMs: int)
    returns (run: ProcessRun)
    ensures run == Process(account, ep, g, service, nowMs)
  {
    var cred := account.cred;
    var salt := "";
    if account.accountToken != "" {
      var oauthResult := GasOAuth(account.accountToken, ep);
      if oauthResult.Err? {
        return ProcessRun(Err(oauthResult.error), []);
      }
      cred := oauthResult.value.0;
      salt := oauthResult.value.1;
    }
    if cred == "" || account.skGameRole == "" {
      return ProcessRun(Err(Raised(MissingCredentialsMessage)), []);
    }
    run := AttendAccount(account, cred, salt, g, service, nowMs);
  }

  /** The status check and the claim; the claim's `sign` header is
      recomputed before it is sent. */
  method AttendAccount(account: Account, cred: string, salt: string, g: GasHashes, service: AttendanceService, nowMs: int)
    returns (run: ProcessRun)
    ensures run == Attend(account, cred, salt, g, service, nowMs)
  {
    var timestamp := Timestamp(nowMs);
    var sign := GasSign(g, salt, timestamp, cred);
    var headers := GasHeaders(account, cred, timestamp, sign);
    assert headers == AttendHeaders(account, cred, salt, g, nowMs);
    var statusData := service.status(headers);
    if statusData.None? {
      return ProcessRun(Err(RuntimeError), [StatusCheck(headers)]);
    }
    if statusData.value.code != 0 {
      return ProcessRun(Err(Raised("Status check failed: " + statusData.value.message)), [StatusCheck(headers)]);
    }
    if statusData.value.data.None? {
      return ProcessRun(Err(RuntimeError), [StatusCheck(headers)]);
    }
    if statusData.value.data.value.hasToday == Some(true) {
      return ProcessRun(Ok(AlreadyNotice(account)), [StatusCheck(headers)]);
    }
    var claimSign := GasSign(g, salt, timestamp, cred);
    ResignKeeps(account, cred, timestamp, sign);
    headers := headers["sign" := claimSign];
    var claimData := service.claim(headers);
    return ProcessRun(ClaimOutcome(account, claimData), [StatusCheck(headers), ClaimCall(headers)]);
  }

  // ---------------------------------------------------------------------
  // main

  /** The notice `main` ends up sending for one account: the run's own, or
      "Sign-in Failed" with the error's message. `runtimeMessage` stands for
      the message of a runtime exception. */
  function NoticeOf(result: Result<Notice, GasFailure>, runtimeMessage: string): Notice {
    match result
    case Ok(n) => n
    case Err(Raised(m)) => Notice("Sign-in Failed", m, ErrorColor, None)
    case Err(RuntimeError) => Notice("Sign-in Failed", runtimeMessage, ErrorColor, None)
  }

  /** `sendNotification`'s payload: one embed, the thumbnail falling back
      to the game icon. */
  function NoticePayload(n: Notice, isoNow: string): Json {
    var thumb := if n.thumbnail.Some? && n.thumbnail.value != "" then n.thumbnail.value else EndfieldIcon;
    JObj(map["embeds" := JArr([EmbedJson(Embed(Some(n.title), Some(n.description), Some(n.color), Some(thumb), None,
                                               Some(GasFooter), Some(EndfieldIcon), Some(isoNow)))])])
  }

  /** `main`: every account is processed in turn, each failure caught on its
      own; with a webhook configured, each account yields exactly one
      posted payload, in account order. */
  method RunAll(accounts: seq<Account>, ep: OAuthEndpoints, g: GasHashes, service: AttendanceService, nowMs: int,
                webhook: string, runtimeMessage: string, isoNow: string)
    returns (posted: seq<Json>)
    ensures webhook == "" ==> posted == []
    ensures webhook != "" ==>
              |posted| == |accounts|
              && forall i :: 0 <= i < |accounts| ==>
                   posted[i] == NoticePayload(NoticeOf(Process(accounts[i], ep, g, service, nowMs).result, runtimeMessage), isoNow)
  {
    posted := [];
    for i := 0 to |accounts|
      invariant webhook == "" ==> posted == []
      invariant webhook != "" ==>
                  |posted| == i
                  && forall j :: 0 <= j < i ==>
                       posted[j] == NoticePayload(NoticeOf(Process(accounts[j], ep, g, service, nowMs).result, runtimeMessage), isoNow)
    {
      var run := ProcessAccount(accounts[i], ep, g, service, nowMs);
      var notice := NoticeOf(run.result, runtimeMessage);
      if webhook != "" {
        posted := posted + [NoticePayload(notice, isoNow)];
      }
    }
  }
}
