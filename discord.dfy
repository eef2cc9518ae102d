/** platform/discord.ts: the Discord platform. Notifications go to a
    webhook, whose URL is checked before every send; the payload gets the
    bot's name and avatar. Slash-command interactions are answered with
    ephemeral replies. discord.js and the HTTP calls are outside the model:
    a send is the payload it would post, a reply the options it would
    pass. */
module Discord {
  import opened Wrappers
  import opened Strings
  import opened Records
  import opened Embeds
  import opened Commands

  const BotName: string := "Endfield Auto"

  /** `MessageFlags.Ephemeral`. */
  const EphemeralFlag: int := 64

  // ---------------------------------------------------------------------
  // The webhook check

  /** The characters `String.prototype.trim` removes: the ECMAScript
      WhiteSpace and LineTerminator code points of the Basic Multilingual
      Plane. */
  predicate IsJsWhitespace(c: char) {
    || c == ' ' || c == '\t' || c == '\n' || c == '\r' || c == '\U{000B}' || c == '\U{000C}'
    || c == '\U{00A0}' || c == '\U{1680}' || ('\U{2000}' <= c <= '\U{200A}') || c == '\U{2028}' || c == '\U{2029}'
    || c == '\U{202F}' || c == '\U{205F}' || c == '\U{3000}' || c == '\U{FEFF}'
  }

  predicate AllWhitespace(s: string) {
    forall i :: 0 <= i < |s| ==> IsJsWhitespace(s[i])
  }

  function TrimStart(s: string): (r: string)
    ensures r == [] <==> AllWhitespace(s)
    ensures r != [] ==> !IsJsWhitespace(r[0])
    decreases |s|
  {
    if s != [] && IsJsWhitespace(s[0]) then
      var r := TrimStart(s[1..]);
      assert AllWhitespace(s[1..]) ==> AllWhitespace(s) by {
        if AllWhitespace(s[1..]) {
          forall i | 0 <= i < |s| ensures IsJsWhitespace(s[i]) {
            if i > 0 {
              assert s[i] == s[1..][i - 1];
            }
          }
        }
      }
      r
    else s
  }

  function TrimEnd(s: string): (r: string)
    ensures r == [] <==> AllWhitespace(s)
    ensures r != [] ==> r[0] == s[0]
    decreases |s|
  {
    if s != [] && IsJsWhitespace(s[|s| - 1]) then
      var r := TrimEnd(s[..|s| - 1]);
      assert AllWhitespace(s[..|s| - 1]) ==> AllWhitespace(s) by {
        if AllWhitespace(s[..|s| - 1]) {
          forall i | 0 <= i < |s| ensures IsJsWhitespace(s[i]) {
            if i < |s| - 1 {
              assert s[i] == s[..|s| - 1][i];
            }
          }
        }
      }
      r
    else s
  }

  /** `s.trim()`. */
  function Trim(s: string): string {
    TrimEnd(TrimStart(s))
  }

  /** Trimming leaves nothing exactly when the text is all whitespace. */
  lemma TrimEmptyIff(s: string)
    ensures Trim(s) == "" <==> AllWhitespace(s)
  {
    var t := TrimStart(s);
    if t != [] {
      assert !AllWhitespace(t) by {
        assert !IsJsWhitespace(t[0]);
      }
    }
  }

  /** `#isValidWebhook`: set, not blank, and starting with `http`. */
  predicate IsValidWebhook(url: Option<string>) {
    && url.Some? && url.value != ""
    && Trim(url.value) != ""
    && StartsWith(url.value, "http")
  }

  /** The blank check is subsumed by the prefix check: a URL is valid
      exactly when it is set and starts with `http`. */
  lemma ValidWebhookIff(url: Option<string>)
    ensures IsValidWebhook(url) <==> url.Some? && StartsWith(url.value, "http")
  {
    if url.Some? && StartsWith(url.value, "http") {
      var s := url.value;
      assert s[0] == 'h' && !IsJsWhitespace(s[0]);
      assert !AllWhitespace(s);
      TrimEmptyIff(s);
    }
  }

  // ---------------------------------------------------------------------
  // Payloads

  /** The name and avatar every webhook payload starts from. */
  function Defaults(): map<string, Json> {
    map["username" := JStr(BotName), "avatar_url" := JStr(EndfieldIcon)]
  }

  /** `content.embeds`, read as a truthy value. */
  predicate HasEmbeds(m: map<string, Json>) {
    "embeds" in m && Truthy(m["embeds"])
  }

  /** The payload `send` posts for string or object content: a string goes
      in `content`; an object with embeds is spread over the defaults; an
      array becomes the embeds; any other object is the single embed. */
  function Payload(content: Json): (p: map<string, Json>)
    requires content.JStr? || content.JObj? || content.JArr?
    ensures "username" in p && "avatar_url" in p
  {
    match content
    case JStr(s) => Defaults()["content" := JStr(s)]
    case JObj(m) =>
      if HasEmbeds(m) then Defaults() + m
      else Defaults()["embeds" := JArr([content])]
    case JArr(items) => Defaults()["embeds" := JArr(items)]
  }

  /** Whose keys win: an object carrying embeds keeps all its own keys (its
      own username or avatar replaces the bot's); every other payload
      carries the bot's name and avatar, and its embeds are the array
      given, or the object wrapped as the one embed. */
  lemma PayloadShape(content: Json)
    requires content.JStr? || content.JObj? || content.JArr?
    ensures var p := Payload(content);
            && (content.JObj? && HasEmbeds(content.fields) ==>
                  (forall k :: k in content.fields ==> k in p && p[k] == content.fields[k])
                  && (forall k :: k in p && k !in content.fields ==> k in Defaults() && p[k] == Defaults()[k]))
            && (!(content.JObj? && HasEmbeds(content.fields)) ==>
                  p["username"] == JStr(BotName) && p["avatar_url"] == JStr(EndfieldIcon))
            && (content.JArr? ==> p["embeds"] == content)
            && (content.JObj? && !HasEmbeds(content.fields) ==> p["embeds"] == JArr([content]))
            && (content.JStr? ==> p["content"] == content && "embeds" !in p)
  {
  }

  /** The stamina alert's `{embeds: [embed]}` is posted as it is, under the
      bot's name and avatar. */
  lemma EmbedAlertPayload(e: Embed)
    ensures var p := Payload(JObj(map["embeds" := JArr([EmbedJson(e)])]));
            && p["embeds"] == JArr([EmbedJson(e)])
            && p["username"] == JStr(BotName) && p["avatar_url"] == JStr(EndfieldIcon)
  {
    var m := map["embeds" := JArr([EmbedJson(e)])];
    assert HasEmbeds(m);
    assert "username" !in m && "avatar_url" !in m by {
      assert "username"[0] != "embeds"[0] && "avatar_url"[0] != "embeds"[0];
    }
    assert Payload(JObj(m)) == Defaults() + m;
  }

  // ---------------------------------------------------------------------
  // Interactions

  /** An option value of a slash-command interaction. */
  datatype OptionValue = StrValue(s: string) | IntValue(n: int) | BoolValue(b: bool)

  /** `opt.value?.toString() || ""`. */
  function ValueString(v: Option<OptionValue>): string {
    match v
    case None => ""
    case Some(StrValue(s)) => s
    case Some(IntValue(n)) => IntToString(n)
    case Some(BoolValue(b)) => if b then "true" else "false"
  }

  /** The command's arguments: the option values as strings, empty ones
      dropped (`filter(Boolean)`), in order. */
  function InteractionArgs(values: seq<Option<OptionValue>>): (args: seq<string>)
    ensures |args| <= |values|
    ensures forall i :: 0 <= i < |args| ==> args[i] != ""
    decreases |values|
  {
    if values == [] then []
    else
      var s := ValueString(values[0]);
      (if s != "" then [s] else []) + InteractionArgs(values[1..])
  }

  /** Only the dropped values are lost: when every value renders non-empty,
      there is one argument per value, in order. */
  lemma {:induction false} InteractionArgsKeepAll(values: seq<Option<OptionValue>>)
    requires forall i :: 0 <= i < |values| ==> ValueString(values[i]) != ""
    ensures |InteractionArgs(values)| == |values|
    ensures forall i :: 0 <= i < |values| ==> InteractionArgs(values)[i] == ValueString(values[i])
    decreases |values|
  {
    if values != [] {
      InteractionArgsKeepAll(values[1..]);
      var rest := InteractionArgs(values[1..]);
      assert InteractionArgs(values) == [ValueString(values[0])] + rest;
      forall i | 0 <= i < |values| ensures InteractionArgs(values)[i] == ValueString(values[i]) {
        if i > 0 {
          assert values[1..][i - 1] == values[i];
        }
      }
    }
  }

  /** What a command hands to `ephemeral`: a string, or an object. */
  datatype ReplyContent = TextReply(text: string) | ObjectReply(fields: map<string, Json>)

  /** How the reply is delivered: the first answer is a reply, any later one
      (or one after deferring) a follow-up. */
  datatype Answer = Reply(options: map<string, Json>) | FollowUp(options: map<string, Json>)

  /** The payload before the flags: a string that looks like a JSON object
      and parses is used as that object; any other string becomes
      `{content}`. `parse` is `JSON.parse` restricted to objects, None when
      it throws. */
  function EphemeralPayload(content: ReplyContent, parse: string -> Option<map<string, Json>>): map<string, Json> {
    match content
    case ObjectReply(m) => m
    case TextReply(s) =>
      if StartsWith(s, "{") && EndsWith(s, "}") && parse(s).Some? then parse(s).value
      else map["content" := JStr(s)]
  }

  /** `ephemeral`: the payload with the ephemeral flag, sent as a follow-up
      once the interaction was answered or deferred. */
  function Ephemeral(content: ReplyContent, parse: string -> Option<map<string, Json>>, answered: bool): (a: Answer)
    ensures a.options.Keys == EphemeralPayload(content, parse).Keys + {"flags"}
    ensures a.options["flags"] == JArr([JNum(EphemeralFlag)])
    ensures forall k :: k in EphemeralPayload(content, parse) && k != "flags" ==>
              a.options[k] == EphemeralPayload(content, parse)[k]
    ensures a.FollowUp? <==> answered
  {
    var options := EphemeralPayload(content, parse)["flags" := JArr([JNum(EphemeralFlag)])];
    if answered then FollowUp(options) else Reply(options)
  }

  /** Plain text is never parsed: a string that does not look like a JSON
      object, or does not parse, is sent as `content`. */
  lemma EphemeralText(s: string, parse: string -> Option<map<string, Json>>, answered: bool)
    requires !(StartsWith(s, "{") && EndsWith(s, "}")) || parse(s).None?
    ensures Ephemeral(TextReply(s), parse, answered).options == map["content" := JStr(s), "flags" := JArr([JNum(EphemeralFlag)])]
  {
  }

  /** A string that looks like a JSON object and parses is sent as the
      parsed object, its own `flags` replaced by the ephemeral flag. */
  lemma EphemeralParsed(s: string, parse: string -> Option<map<string, Json>>, answered: bool)
    requires StartsWith(s, "{") && EndsWith(s, "}") && parse(s).Some?
    ensures Ephemeral(TextReply(s), parse, answered).options == parse(s).value["flags" := JArr([JNum(EphemeralFlag)])]
  {
  }

  class DiscordPlatform {
    /** `#webhookUrl`, `#token` and `#botId`; "" stands for an unset token
        or id. */
    const webhookUrl: Option<string>
    const token: string
    const botId: string
    /** Whether `#client` holds a logged-in client. */
    var clientActive: bool

    constructor (webhookUrl: Option<string>, token: string, botId: string)
      ensures this.webhookUrl == webhookUrl && this.token == token && this.botId == botId && !clientActive
    {
      this.webhookUrl := webhookUrl;
      this.token := token;
      this.botId := botId;
      clientActive := false;
    }

    predicate IsConfigured() {
      IsValidWebhook(webhookUrl)
    }

    predicate IsBotConfigured() {
      token != "" && botId != ""
    }

    /** `send`: nothing is posted to an invalid webhook; otherwise the
        shaped payload is. */
    method Send(content: Json) returns (posted: Option<map<string, Json>>)
      requires content.JStr? || content.JObj? || content.JArr?
      ensures posted.None? <==> !(webhookUrl.Some? && StartsWith(webhookUrl.value, "http"))
      ensures posted.Some? ==> posted.value == Payload(content)
    {
      ValidWebhookIff(webhookUrl);
      if !IsValidWebhook(webhookUrl) {
        return None;
      }
      return Some(Payload(content));
    }

    /** The `interactionCreate` handler for a slash command: the option
        values become the arguments, the command table runs the command,
        and its reply, if any, is answered ephemerally. `answered` says
        whether the interaction was already replied to or deferred. */
    method HandleInteraction(commands: Commands, commandName: string, values: seq<Option<OptionValue>>,
                             parse: string -> Option<map<string, Json>>, answered: bool)
      returns (answer: Option<Answer>)
      ensures var args := InteractionArgs(values);
              var found := commands.Get(commandName);
              var text := if found.None? then Some(MissingMessage(commandName))
                          else if found.value.run(args) == Threw then Some(RunFailedMessage)
                          else None;
              answer == if text.Some? then Some(Ephemeral(TextReply(text.value), parse, answered)) else None
    {
      var args := InteractionArgs(values);
      var ran, reply := commands.CheckAndRun(commandName, args);
      if reply.None? {
        return None;
      }
      return Some(Ephemeral(TextReply(reply.value), parse, answered));
    }

    /** `startBot`: without a token and a bot id nothing starts. */
    method StartBot()
      modifies this
      ensures clientActive == (old(clientActive) || IsBotConfigured())
    {
      if token == "" || botId == "" {
        return;
      }
      clientActive := true;
    }

    /** `stopBot`: the client, if any, is destroyed and cleared. */
    method StopBot()
      modifies this
      ensures !clientActive
    {
      if clientActive {
        clientActive := false;
      }
    }
  }
}
