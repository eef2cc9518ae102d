/** skport/oauth.ts: the three-step OAuth exchange that turns an account token
    into a credential and a salt, the two request signers and the path rule
    that picks between them. The three remote endpoints are functions of what
    is sent to them; `None` stands for a request that threw. */
module OAuth {
  import opened Wrappers
  import opened Strings
  import opened Hashing

  datatype BasicInfo = BasicInfo(hgId: string)
  /** Step 1 reply; `msg` is "" when absent. */
  datatype BasicInfoResponse = BasicInfoResponse(status: int, data: Option<BasicInfo>, msg: string)

  /** `code` is "" when absent. */
  datatype GrantData = GrantData(code: string)
  datatype GrantResponse = GrantResponse(status: int, data: Option<GrantData>, msg: string)

  /** `token` is the salt; "" stands for an absent field, which every reader of
      the salt treats the same way. */
  datatype CredData = CredData(cred: string, token: string, userId: string)
  datatype CredResponse = CredResponse(code: int, message: string, data: Option<CredData>)

  datatype OAuthEndpoints = OAuthEndpoints(
    basicInfo: string -> Option<BasicInfoResponse>,
    grant: string -> Option<GrantResponse>,
    generateCred: string -> Option<CredResponse>)

  datatype OAuthStep = BasicInfoStep | GrantStep | GenerateCredStep

  datatype OAuthRequest =
    | BasicInfoRequest(token: string)
    | GrantRequest(token: string)
    | GenerateCredRequest(code: string)

  datatype OAuthFailure =
    | StepFailed(step: OAuthStep, message: string)
    | RequestThrew(step: OAuthStep)

  datatype OAuthCredentials = OAuthCredentials(cred: string, salt: string, userId: string, hgId: Option<string>)

  /** The outcome of the flow and the requests it made, in order. */
  datatype OAuthRun = OAuthRun(result: Result<OAuthCredentials, OAuthFailure>, requests: seq<OAuthRequest>)

  predicate BasicInfoOk(r: Option<BasicInfoResponse>) {
    r.Some? && r.value.status == 0
  }

  predicate GrantOk(r: Option<GrantResponse>) {
    r.Some? && r.value.status == 0 && r.value.data.Some? && r.value.data.value.code != ""
  }

  predicate CredOk(r: Option<CredResponse>) {
    r.Some? && r.value.code == 0 && r.value.data.Some? && r.value.data.value.cred != ""
  }

  /** `msg || "status N"`. */
  function MessageOr(msg: string, what: string, n: int): string {
    if msg != "" then msg else what + " " + IntToString(n)
  }

  /** `performOAuthFlow`: basic info, then the grant code, then the credential;
      the first failing step ends the flow. */
  function PerformOAuthFlow(token: string, ep: OAuthEndpoints): (run: OAuthRun)
    ensures 1 <= |run.requests| <= 3 && run.requests[0] == BasicInfoRequest(token)
    ensures !BasicInfoOk(ep.basicInfo(token)) <==> |run.requests| == 1
    ensures |run.requests| >= 2 ==> run.requests[1] == GrantRequest(token)
    ensures |run.requests| == 3 <==> BasicInfoOk(ep.basicInfo(token)) && GrantOk(ep.grant(token))
    ensures |run.requests| == 3 ==> run.requests[2] == GenerateCredRequest(ep.grant(token).value.data.value.code)
    ensures run.result.Ok? <==>
              |run.requests| == 3 && CredOk(ep.generateCred(ep.grant(token).value.data.value.code))
    ensures run.result.Err? ==> run.result.error.step == [BasicInfoStep, GrantStep, GenerateCredStep][|run.requests| - 1]
  {
    var basic := ep.basicInfo(token);
    if basic.None? then OAuthRun(Err(RequestThrew(BasicInfoStep)), [BasicInfoRequest(token)])
    else if basic.value.status != 0 then
      OAuthRun(Err(StepFailed(BasicInfoStep, "OAuth Step 1 failed: " + MessageOr(basic.value.msg, "status", basic.value.status))),
               [BasicInfoRequest(token)])
    else
      var grant := ep.grant(token);
      if grant.None? then
        OAuthRun(Err(RequestThrew(GrantStep)), [BasicInfoRequest(token), GrantRequest(token)])
      else if grant.value.status != 0 || grant.value.data.None? || grant.value.data.value.code == "" then
        OAuthRun(Err(StepFailed(GrantStep, "OAuth Step 2 failed: " + MessageOr(grant.value.msg, "status", grant.value.status))),
                 [BasicInfoRequest(token), GrantRequest(token)])
      else
        var code := grant.value.data.value.code;
        var requests := [BasicInfoRequest(token), GrantRequest(token), GenerateCredRequest(code)];
        var cred := ep.generateCred(code);
        if cred.None? then OAuthRun(Err(RequestThrew(GenerateCredStep)), requests)
        else if cred.value.code != 0 || cred.value.data.None? || cred.value.data.value.cred == "" then
          OAuthRun(Err(StepFailed(GenerateCredStep, "OAuth Step 3 failed: " + MessageOr(cred.value.message, "code", cred.value.code))),
                   requests)
        else
          var d := cred.value.data.value;
          OAuthRun(Ok(OAuthCredentials(d.cred, d.token, d.userId,
                                       if basic.value.data.Some? then Some(basic.value.data.value.hgId) else None)),
                   requests)
  }

  /** A successful flow returns the step 3 credential, its token as the salt,
      its user id, and the hgId of step 1. */
  lemma OAuthSuccessFields(token: string, ep: OAuthEndpoints)
    requires PerformOAuthFlow(token, ep).result.Ok?
    ensures var c := PerformOAuthFlow(token, ep).result.value;
            var d := ep.generateCred(ep.grant(token).value.data.value.code).value.data.value;
            var b := ep.basicInfo(token).value;
            && c.cred == d.cred && c.cred != "" && c.salt == d.token && c.userId == d.userId
            && c.hgId == (if b.data.Some? then Some(b.data.value.hgId) else None)
  {
  }

  // ---------------------------------------------------------------------
  // Signing

  /** The string v1 hashes with MD5. */
  function SignV1Message(timestamp: string, cred: string): string {
    "timestamp=" + timestamp + "&cred=" + cred
  }

  /** `generateSignV1`: MD5 of the v1 message, as lowercase hex. */
  function SignV1(h: HashFunctions, timestamp: string, cred: string): string {
    Hex(h.md5(SignV1Message(timestamp, cred)))
  }

  /** One character as `JSON.stringify` writes it inside a string literal
      (Dafny characters are Unicode scalar values, so there are no lone
      surrogates to escape). */
  function JsonEscapeChar(c: char): string {
    if c == '"' then "\\\""
    else if c == '\\' then "\\\\"
    else if c == '\U{8}' then "\\b"
    else if c == '\U{C}' then "\\f"
    else if c == '\n' then "\\n"
    else if c == '\r' then "\\r"
    else if c == '\t' then "\\t"
    else if (c as int) < 0x20 then "\\u00" + [HexDigit(c as int / 16), HexDigit(c as int % 16)]
    else [c]
  }

  predicate JsonPlain(c: char) {
    c != '"' && c != '\\' && (c as int) >= 0x20
  }

  function JsonEscape(s: string): string
    decreases |s|
  {
    if s == [] then "" else JsonEscapeChar(s[0]) + JsonEscape(s[1..])
  }

  /** A string value as `JSON.stringify` writes it. */
  function JsonString(s: string): string {
    "\"" + JsonEscape(s) + "\""
  }

  /** A string is written verbatim exactly when it holds no quote, no backslash
      and no control character. */
  lemma {:induction false} JsonEscapeVerbatim(s: string)
    ensures JsonEscape(s) == s <==> forall i :: 0 <= i < |s| ==> JsonPlain(s[i])
    ensures |JsonEscape(s)| >= |s|
    decreases |s|
  {
    if s != [] {
      JsonEscapeVerbatim(s[1..]);
      assert |JsonEscapeChar(s[0])| >= 1;
      if JsonPlain(s[0]) {
        assert JsonEscapeChar(s[0]) == [s[0]];
        if JsonEscape(s[1..]) == s[1..] {
          assert s == [s[0]] + s[1..];
        }
        if forall i :: 0 <= i < |s| ==> JsonPlain(s[i]) {
          assert forall i :: 0 <= i < |s[1..]| ==> JsonPlain(s[1..][i]) by {
            forall i | 0 <= i < |s[1..]| ensures JsonPlain(s[1..][i]) {
              assert s[1..][i] == s[i + 1];
            }
          }
        } else {
          var i :| 0 <= i < |s| && !JsonPlain(s[i]);
          assert s[1..][i - 1] == s[i];
        }
      } else {
        assert |JsonEscapeChar(s[0])| >= 2;
      }
    }
  }

  /** The header object v2 hashes: `JSON.stringify({platform, timestamp, dId: "", vName})`,
      keys in that order. */
  function HeaderJson(platform: string, timestamp: string, vName: string): string {
    ("{\"platform\":" + JsonString(platform) + ",\"timestamp\":")
      + JsonString(timestamp)
      + (",\"dId\":\"\",\"vName\":" + JsonString(vName) + "}")
  }

  /** The string v2 hashes with HMAC-SHA256: path, then timestamp, then the header JSON. */
  function SignV2Message(path: string, timestamp: string, platform: string, vName: string): string {
    path + timestamp + HeaderJson(platform, timestamp, vName)
  }

  /** `generateSignV2`: HMAC-SHA256 keyed by the salt, rendered as hex, then MD5
      of that hex text, rendered as hex. */
  function SignV2(h: HashFunctions, path: string, timestamp: string, platform: string, vName: string, salt: string): string {
    Hex(h.md5(Hex(h.hmacSha256(salt, SignV2Message(path, timestamp, platform, vName)))))
  }

  /** A decimal timestamp is written as itself between quotes. */
  lemma JsonDigits(timestamp: string)
    requires IsDigits(timestamp)
    ensures JsonString(timestamp) == "\"" + timestamp + "\""
  {
    JsonEscapeVerbatim(timestamp);
  }

  /** The text around the timestamp, for the platform and version the callers pass. */
  lemma JsonConstants()
    ensures "{\"platform\":" + JsonString("3") + ",\"timestamp\":" == "{\"platform\":\"3\",\"timestamp\":"
    ensures ",\"dId\":\"\",\"vName\":" + JsonString("1.0.0") + "}" == ",\"dId\":\"\",\"vName\":\"1.0.0\"}"
  {
    JsonConstantValues();
  }

  /** The platform and version the callers pass are written verbatim. */
  lemma JsonConstantValues()
    ensures JsonString("3") == "\"3\""
    ensures JsonString("1.0.0") == "\"1.0.0\""
  {
    assert JsonEscape("3") == "3";
    assert JsonEscape("1.0.0") == "1.0.0";
  }

  /** For a decimal timestamp and the constants the callers pass, the header
      object v2 hashes is exactly this JSON text. */
  lemma HeaderJsonText(timestamp: string)
    requires IsDigits(timestamp)
    ensures HeaderJson("3", timestamp, "1.0.0")
            == "{\"platform\":\"3\",\"timestamp\":" + ("\"" + timestamp + "\"")
               + ",\"dId\":\"\",\"vName\":\"1.0.0\"}"
  {
    JsonDigits(timestamp);
    JsonConstants();
  }

  /** The v1 message determines its timestamp and credential, for any timestamp
      without an `&`: changing either changes the hashed string. */
  lemma SignV1MessageInjective(ts1: string, cred1: string, ts2: string, cred2: string)
    requires '&' !in ts1 && '&' !in ts2
    requires SignV1Message(ts1, cred1) == SignV1Message(ts2, cred2)
    ensures ts1 == ts2 && cred1 == cred2
  {
    var m := SignV1Message(ts1, cred1);
    assert m[10..] == ts1 + ['&'] + ("cred=" + cred1);
    assert m[10..] == ts2 + ['&'] + ("cred=" + cred2);
    IndexOfAfter(ts1, '&', "cred=" + cred1);
    IndexOfAfter(ts2, '&', "cred=" + cred2);
    assert ts1 == m[10..10 + |ts1|] == ts2;
    assert cred1 == m[16 + |ts1|..] == cred2;
  }

  /** v1 and v2 never hand MD5 the same text: the v2 MD5 input is hex, and the
      v1 message starts with a letter that is not a hex digit. */
  lemma SignInputsDisjoint(timestamp: string, cred: string, hmac: seq<byte>)
    ensures SignV1Message(timestamp, cred) != Hex(hmac)
  {
    var m := SignV1Message(timestamp, cred);
    assert m[0] == 't' && !IsHexDigit(m[0]);
  }

  datatype SignVersion = V1 | V2

  /** The path fragments that require the v2 signature. */
  const V2Patterns: seq<string> := ["/binding", "/card/detail", "/wiki/", "/enums", "/v2/"]

  function AnyContains(path: string, patterns: seq<string>): (b: bool)
    ensures b <==> exists i :: 0 <= i < |patterns| && Contains(path, patterns[i])
    decreases |patterns|
  {
    if patterns == [] then false
    else Contains(path, patterns[0]) || AnyContains(path, patterns[1..])
  }

  /** `getSignVersion`: v2 iff the path contains one of the v2 fragments. */
  function GetSignVersion(path: string): SignVersion {
    if AnyContains(path, V2Patterns) then V2 else V1
  }

  lemma {:induction false} SignVersionRule(path: string)
    ensures GetSignVersion(path) == V2 <==>
              exists i, k :: 0 <= i < |V2Patterns| && OccursAt(path, V2Patterns[i], k)
  {
    forall i | 0 <= i < |V2Patterns| {
      ContainsIff(path, V2Patterns[i]);
    }
  }

  /** The attendance endpoint, signed with v1. */
  const AttendancePath: string := "/web/v1/game/endfield/attendance"

  /** The only `b` of the attendance path is the one of "/web". */
  lemma AttendancePathB(j: int)
    ensures 0 <= j < |AttendancePath| && AttendancePath[j] == 'b' ==> j == 3
  {
    assert forall i :: 0 <= i < |AttendancePath| && AttendancePath[i] == 'b' ==> i == 3;
  }

  /** "/binding" does not occur in the attendance path: no slash there is
      followed by a `b`. */
  lemma AttendanceNoBinding()
    ensures !Contains(AttendancePath, "/binding")
  {
    ContainsIff(AttendancePath, "/binding");
    forall k ensures !OccursAt(AttendancePath, "/binding", k) {
      OccursAtChar(AttendancePath, "/binding", k, 0);
      OccursAtChar(AttendancePath, "/binding", k, 1);
      AttendancePathB(k + 1);
    }
  }

  /** A path is signed with v1 exactly when it contains none of the v2 fragments. */
  lemma SignVersionV1(path: string)
    ensures GetSignVersion(path) == V1 <==>
              !Contains(path, "/binding") && !Contains(path, "/card/detail") && !Contains(path, "/wiki/")
              && !Contains(path, "/enums") && !Contains(path, "/v2/")
  {
    assert V2Patterns == ["/binding", "/card/detail", "/wiki/", "/enums", "/v2/"];
  }

  /** The profile path and the card detail path are signed with v2. */
  lemma SignVersionV2Examples()
    ensures GetSignVersion("/web/v1/wiki/me") == V2
    ensures GetSignVersion("/api/v1/game/endfield/card/detail") == V2
  {
    assert OccursAt("/web/v1/wiki/me", "/wiki/", 7);
    assert OccursAt("/api/v1/game/endfield/card/detail", "/card/detail", 21);
    SignVersionV1("/web/v1/wiki/me");
    SignVersionV1("/api/v1/game/endfield/card/detail");
    ContainsIff("/web/v1/wiki/me", "/wiki/");
    ContainsIff("/api/v1/game/endfield/card/detail", "/card/detail");
  }

  /** Characters of the other v2 fragments that the attendance path lacks. */
  lemma AttendancePathLacks()
    ensures 'r' !in AttendancePath && 'k' !in AttendancePath
    ensures 's' !in AttendancePath && '2' !in AttendancePath
  {
    assert forall i :: 0 <= i < |AttendancePath| ==> AttendancePath[i] !in "rks2";
  }

  /** The attendance path is signed with v1. */
  lemma SignVersionV1Example()
    ensures GetSignVersion(AttendancePath) == V1
  {
    AttendancePathLacks();
    AttendanceNoBinding();
    AbsentChar(AttendancePath, "/card/detail", 'r');
    AbsentChar(AttendancePath, "/wiki/", 'k');
    AbsentChar(AttendancePath, "/enums", 's');
    AbsentChar(AttendancePath, "/v2/", '2');
    SignVersionV1(AttendancePath);
  }
}
