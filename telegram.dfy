/** platform/telegram.ts: the Telegram platform. It renders embeds as HTML
    text, escapes user text for Telegram's HTML mode, parses bot commands
    and keeps the polling offset. The Bot API calls themselves are outside
    the model: a send is the message it would post, a poll is given the
    updates the API would return. */
module Telegram {
  import opened Wrappers
  import opened Strings
  import opened Embeds
  import opened Commands

  // ---------------------------------------------------------------------
  // HTML escaping

  /** `s.replace(/c/g, r)` for a one-character pattern. */
  function ReplaceChar(s: string, c: char, r: string): string
    decreases |s|
  {
    if s == [] then [] else (if s[0] == c then r else [s[0]]) + ReplaceChar(s[1..], c, r)
  }

  lemma {:induction false} ReplaceCharAppend(a: string, b: string, c: char, r: string)
    ensures ReplaceChar(a + b, c, r) == ReplaceChar(a, c, r) + ReplaceChar(b, c, r)
    decreases |a|
  {
    if a != [] {
      assert (a + b)[1..] == a[1..] + b;
      ReplaceCharAppend(a[1..], b, c, r);
    } else {
      assert a + b == b;
    }
  }

  lemma {:induction false} ReplaceCharAbsent(s: string, c: char, r: string)
    requires c !in s
    ensures ReplaceChar(s, c, r) == s
    decreases |s|
  {
    if s != [] {
      ReplaceCharAbsent(s[1..], c, r);
      assert [s[0]] + s[1..] == s;
    }
  }

  function AmpPass(t: string): string { ReplaceChar(t, '&', "&amp;") }
  function LtPass(t: string): string { ReplaceChar(t, '<', "&lt;") }
  function GtPass(t: string): string { ReplaceChar(t, '>', "&gt;") }
  function QuotPass(t: string): string { ReplaceChar(t, '"', "&quot;") }
  function AposPass(t: string): string { ReplaceChar(t, '\'', "&#039;") }

  /** `#escapeHtml`: five global replacements, `&` first. */
  function EscapeHtml(text: string): string {
    AposPass(QuotPass(GtPass(LtPass(AmpPass(text)))))
  }

  /** The entity each character stands for in HTML text. */
  function EscapeChar(c: char): string {
    if c == '&' then "&amp;"
    else if c == '<' then "&lt;"
    else if c == '>' then "&gt;"
    else if c == '"' then "&quot;"
    else if c == '\'' then "&#039;"
    else [c]
  }

  /** Escaping character by character. */
  function EscapeEach(text: string): string
    decreases |text|
  {
    if text == [] then [] else EscapeChar(text[0]) + EscapeEach(text[1..])
  }

  lemma EscapeHtmlAppend(a: string, b: string)
    ensures EscapeHtml(a + b) == EscapeHtml(a) + EscapeHtml(b)
  {
    ReplaceCharAppend(a, b, '&', "&amp;");
    var a1, b1 := ReplaceChar(a, '&', "&amp;"), ReplaceChar(b, '&', "&amp;");
    ReplaceCharAppend(a1, b1, '<', "&lt;");
    var a2, b2 := ReplaceChar(a1, '<', "&lt;"), ReplaceChar(b1, '<', "&lt;");
    ReplaceCharAppend(a2, b2, '>', "&gt;");
    var a3, b3 := ReplaceChar(a2, '>', "&gt;"), ReplaceChar(b2, '>', "&gt;");
    ReplaceCharAppend(a3, b3, '"', "&quot;");
    var a4, b4 := ReplaceChar(a3, '"', "&quot;"), ReplaceChar(b3, '"', "&quot;");
    ReplaceCharAppend(a4, b4, '\'', "&#039;");
  }

  lemma ReplaceCharSingle(x: char, c: char, r: string)
    ensures ReplaceChar([x], c, r) == if x == c then r else [x]
  {
    assert [x][1..] == [];
  }

  /** A text free of `<`, `>`, `"` and `'` passes the last four passes
      unchanged. */
  lemma LaterPassesKeep(r: string)
    requires '<' !in r && '>' !in r && '"' !in r && '\'' !in r
    ensures AposPass(QuotPass(GtPass(LtPass(r)))) == r
  {
    ReplaceCharAbsent(r, '<', "&lt;");
    ReplaceCharAbsent(r, '>', "&gt;");
    ReplaceCharAbsent(r, '"', "&quot;");
    ReplaceCharAbsent(r, '\'', "&#039;");
  }

  /** An entity holds none of the characters the passes after its own
      replace. */
  lemma EntityPlain(r: string)
    requires r == "&amp;" || r == "&lt;" || r == "&gt;" || r == "&quot;" || r == "&#039;"
    ensures '<' !in r && '>' !in r && '"' !in r && '\'' !in r
  {
  }

  /** `&` becomes `&amp;`, which no later pass touches. */
  lemma EscapeAmp(c: char)
    requires c == '&'
    ensures EscapeHtml([c]) == "&amp;"
  {
    ReplaceCharSingle(c, '&', "&amp;");
    var r := AmpPass([c]);
    EntityPlain(r);
    LaterPassesKeep(r);
  }

  lemma EscapeLt(c: char)
    requires c == '<'
    ensures EscapeHtml([c]) == "&lt;"
  {
    ReplaceCharAbsent([c], '&', "&amp;");
    ReplaceCharSingle(c, '<', "&lt;");
    var r := LtPass([c]);
    EntityPlain(r);
    ReplaceCharAbsent(r, '>', "&gt;");
    ReplaceCharAbsent(r, '"', "&quot;");
    ReplaceCharAbsent(r, '\'', "&#039;");
  }

  lemma EscapeGt(c: char)
    requires c == '>'
    ensures EscapeHtml([c]) == "&gt;"
  {
    ReplaceCharAbsent([c], '&', "&amp;");
    ReplaceCharAbsent([c], '<', "&lt;");
    ReplaceCharSingle(c, '>', "&gt;");
    var r := GtPass([c]);
    EntityPlain(r);
    ReplaceCharAbsent(r, '"', "&quot;");
    ReplaceCharAbsent(r, '\'', "&#039;");
  }

  lemma EscapeQuot(c: char)
    requires c == '"'
    ensures EscapeHtml([c]) == "&quot;"
  {
    ReplaceCharAbsent([c], '&', "&amp;");
    ReplaceCharAbsent([c], '<', "&lt;");
    ReplaceCharAbsent([c], '>', "&gt;");
    ReplaceCharSingle(c, '"', "&quot;");
    var r := QuotPass([c]);
    EntityPlain(r);
    ReplaceCharAbsent(r, '\'', "&#039;");
  }

  lemma EscapeApos(c: char)
    requires c == '\''
    ensures EscapeHtml([c]) == "&#039;"
  {
    ReplaceCharAbsent([c], '&', "&amp;");
    ReplaceCharAbsent([c], '<', "&lt;");
    ReplaceCharAbsent([c], '>', "&gt;");
    ReplaceCharAbsent([c], '"', "&quot;");
    ReplaceCharSingle(c, '\'', "&#039;");
  }

  lemma EscapeOther(c: char)
    requires c != '&' && c != '<' && c != '>' && c != '"' && c != '\''
    ensures EscapeHtml([c]) == [c]
  {
    ReplaceCharAbsent([c], '&', "&amp;");
    ReplaceCharAbsent([c], '<', "&lt;");
    ReplaceCharAbsent([c], '>', "&gt;");
    ReplaceCharAbsent([c], '"', "&quot;");
    ReplaceCharAbsent([c], '\'', "&#039;");
  }

  /** Each special character becomes its entity, and the later passes
      leave the entity alone. */
  lemma EscapeHtmlChar(c: char)
    ensures EscapeHtml([c]) == EscapeChar(c)
  {
    if c == '&' {
      EscapeAmp(c);
    } else if c == '<' {
      EscapeLt(c);
    } else if c == '>' {
      EscapeGt(c);
    } else if c == '"' {
      EscapeQuot(c);
    } else if c == '\'' {
      EscapeApos(c);
    } else {
      EscapeOther(c);
    }
  }

  /** The five passes amount to replacing each character by its entity:
      since `&` goes first, no entity is escaped twice. */
  lemma {:induction false} EscapeHtmlPerChar(text: string)
    ensures EscapeHtml(text) == EscapeEach(text)
    decreases |text|
  {
    if text != [] {
      assert text == [text[0]] + text[1..];
      EscapeHtmlAppend([text[0]], text[1..]);
      EscapeHtmlChar(text[0]);
      EscapeHtmlPerChar(text[1..]);
    }
  }

  predicate HtmlSafe(s: string) {
    forall i :: 0 <= i < |s| ==> s[i] != '<' && s[i] != '>' && s[i] != '"' && s[i] != '\''
  }

  lemma {:induction false} EscapeEachSafe(text: string)
    ensures HtmlSafe(EscapeEach(text))
    decreases |text|
  {
    if text != [] {
      EscapeEachSafe(text[1..]);
      var head := EscapeChar(text[0]);
      var tail := EscapeEach(text[1..]);
      assert HtmlSafe(head);
      forall i | 0 <= i < |head + tail|
        ensures (head + tail)[i] != '<' && (head + tail)[i] != '>' && (head + tail)[i] != '"' && (head + tail)[i] != '\''
      {
        if i >= |head| {
          assert (head + tail)[i] == tail[i - |head|];
        }
      }
    }
  }

  /** Escaped text contains none of `< > " '`: whatever it holds, it cannot
      open or close a tag or an attribute. */
  lemma EscapedIsSafe(text: string)
    ensures HtmlSafe(EscapeHtml(text))
  {
    EscapeHtmlPerChar(text);
    EscapeEachSafe(text);
  }

  /** Text that needs no escaping is left as it is. */
  lemma {:induction false} EscapeKeepsPlainText(text: string)
    requires forall i :: 0 <= i < |text| ==> text[i] != '&' && text[i] != '<' && text[i] != '>' && text[i] != '"' && text[i] != '\''
    ensures EscapeHtml(text) == text
    decreases |text|
  {
    EscapeHtmlPerChar(text);
    if text != [] {
      EscapeKeepsPlainText(text[1..]);
      EscapeHtmlPerChar(text[1..]);
      assert [text[0]] + text[1..] == text;
    }
  }

  // ---------------------------------------------------------------------
  // Rendering an embed

  function ThumbnailLine(url: string): string {
    "<a href=\"" + url + "\">&#8205;</a>"
  }

  function FieldLine(f: EmbedField): string {
    "<b>" + EscapeHtml(f.name) + "</b>: " + EscapeHtml(f.value)
  }

  function FieldLines(fs: seq<EmbedField>): (r: seq<string>)
    ensures |r| == |fs| && forall i :: 0 <= i < |fs| ==> r[i] == FieldLine(fs[i])
  {
    seq(|fs|, i requires 0 <= i < |fs| => FieldLine(fs[i]))
  }

  /** `thumbnail?.url || footer?.icon_url`, "" when neither is truthy. */
  function Thumbnail(e: Embed): string {
    if e.thumbnailUrl.Some? && e.thumbnailUrl.value != "" then e.thumbnailUrl.value
    else if e.footerIcon.Some? then e.footerIcon.value
    else ""
  }

  predicate Present(v: Option<string>) {
    v.Some? && v.value != ""
  }

  function HeadLines(e: Embed): seq<string> {
    (if Thumbnail(e) != "" then [ThumbnailLine(Thumbnail(e))] else [])
    + (if Present(e.title) then ["<b>" + EscapeHtml(e.title.value) + "</b>"] else [])
    + (if Present(e.description) then [EscapeHtml(e.description.value)] else [])
  }

  function FieldBlock(e: Embed): seq<string> {
    if e.fields.Some? then [""] + FieldLines(e.fields.value) else []
  }

  function FooterLines(e: Embed): seq<string> {
    if Present(e.footerText) then ["", "<i>" + EscapeHtml(e.footerText.value) + "</i>"] else []
  }

  /** The lines of a rendered embed, in the order the platform emits them. */
  function EmbedLines(e: Embed): seq<string> {
    HeadLines(e) + FieldBlock(e) + FooterLines(e)
  }

  /** A rendered embed has at most three head lines (thumbnail, bold
      title, description), a blank line and one line per field when it has
      a field list, and a blank line and the footer when it has footer
      text. */
  lemma EmbedLineCount(e: Embed)
    ensures |HeadLines(e)| <= 3
    ensures |EmbedLines(e)| == |HeadLines(e)| + (if e.fields.Some? then 1 + |e.fields.value| else 0)
                               + (if Present(e.footerText) then 2 else 0)
  {
  }

  /** The fields follow the head lines and a blank line, one line each, in
      order. */
  lemma EmbedFieldsInOrder(e: Embed, k: nat)
    requires e.fields.Some? && k < |e.fields.value|
    ensures |HeadLines(e)| + 1 + k < |EmbedLines(e)|
    ensures EmbedLines(e)[|HeadLines(e)|] == ""
    ensures EmbedLines(e)[|HeadLines(e)| + 1 + k] == FieldLine(e.fields.value[k])
  {
    var h := HeadLines(e);
    var fl := FieldBlock(e);
    var t := FooterLines(e);
    assert fl[1 + k] == FieldLines(e.fields.value)[k];
    assert (h + fl + t)[|h| + 1 + k] == fl[1 + k];
    assert (h + fl + t)[|h|] == fl[0];
  }

  /** Footer text, when present, is the last line. */
  lemma EmbedFooterLast(e: Embed)
    requires Present(e.footerText)
    ensures var lines := EmbedLines(e);
            |lines| >= 2 && lines[|lines| - 1] == "<i>" + EscapeHtml(e.footerText.value) + "</i>" && lines[|lines| - 2] == ""
  {
  }

  /** The message an embed becomes. */
  function RenderedEmbed(e: Embed): string {
    Join(EmbedLines(e), "\n")
  }

  /** The head of the `lines` array: thumbnail link, bold title,
      description, each pushed when present. */
  method PushHead(e: Embed) returns (lines: seq<string>)
    ensures lines == HeadLines(e)
  {
    lines := [];
    var thumbnail := if e.thumbnailUrl.Some? && e.thumbnailUrl.value != "" then e.thumbnailUrl.value
                     else if e.footerIcon.Some? then e.footerIcon.value else "";
    if thumbnail != "" {
      lines := lines + [ThumbnailLine(thumbnail)];
    }
    if e.title.Some? && e.title.value != "" {
      lines := lines + ["<b>" + EscapeHtml(e.title.value) + "</b>"];
    }
    if e.description.Some? && e.description.value != "" {
      lines := lines + [EscapeHtml(e.description.value)];
    }
  }

  /** The field loop: a blank line, then one pushed line per field. */
  method PushFields(lines0: seq<string>, fs: seq<EmbedField>) returns (lines: seq<string>)
    ensures lines == lines0 + [""] + FieldLines(fs)
  {
    lines := lines0 + [""];
    for i := 0 to |fs|
      invariant lines == lines0 + [""] + FieldLines(fs[..i])
    {
      lines := lines + ["<b>" + EscapeHtml(fs[i].name) + "</b>: " + EscapeHtml(fs[i].value)];
      assert FieldLines(fs[..i + 1]) == FieldLines(fs[..i]) + [FieldLine(fs[i])];
    }
    assert fs[..|fs|] == fs;
  }

  /** The footer pushes: a blank line and the italic footer text, when
      the footer text is present. */
  method PushFooter(lines0: seq<string>, e: Embed) returns (lines: seq<string>)
    ensures lines == lines0 + FooterLines(e)
  {
    lines := lines0;
    if e.footerText.Some? && e.footerText.value != "" {
      lines := lines + [""];
      lines := lines + ["<i>" + EscapeHtml(e.footerText.value) + "</i>"];
    }
  }

  /** The `lines` array of `send`, built by pushes and joined by newlines. */
  method RenderEmbed(e: Embed) returns (text: string)
    ensures text == RenderedEmbed(e)
  {
    var lines := PushHead(e);
    if e.fields.Some? {
      lines := PushFields(lines, e.fields.value);
    } else {
      assert lines == HeadLines(e) + [];
    }
    assert lines == HeadLines(e) + FieldBlock(e);
    lines := PushFooter(lines, e);
    assert lines == EmbedLines(e);
    text := Join(lines, "\n");
  }

  // ---------------------------------------------------------------------
  // Commands

  /** What `send` accepts: text sent verbatim, or an embed to render. */
  datatype Content = Text(text: string) | Rich(embed: Embed)

  /** The `sendMessage` call a send makes. */
  datatype Outgoing = Outgoing(chatId: string, text: string, parseMode: string)

  function TextOf(content: Content): string {
    match content
    case Text(s) => s
    case Rich(e) => RenderedEmbed(e)
  }

  datatype ParsedCommand = ParsedCommand(name: string, args: seq<string>)

  /** `#handleCommand`'s parsing: the first space-separated token without
      its first character, cut at `@` and lowercased, is the command; the
      other tokens are the arguments. */
  function ParseCommand(text: string): (p: ParsedCommand)
    ensures IsLower(p.name)
  {
    var parts := Split(text, ' ');
    var rawCmd := parts[0];
    var bare := if |rawCmd| >= 1 then rawCmd[1..] else "";
    LowerIsLower(Split(bare, '@')[0]);
    ParsedCommand(Lower(Split(bare, '@')[0]), parts[1..])
  }

  /** The command token: `/cmd` or `/cmd@bot` gives `cmd` lowercased. */
  lemma CommandToken(cmd: string, bot: Option<string>)
    requires '@' !in cmd
    ensures var head := "/" + cmd + (if bot.Some? then "@" + bot.value else "");
            Split(head[1..], '@')[0] == cmd
  {
    var head := "/" + cmd + (if bot.Some? then "@" + bot.value else "");
    if bot.Some? {
      assert head[1..] == cmd + ['@'] + bot.value;
      SplitAtFirst(cmd, '@', bot.value);
    } else {
      assert head[1..] == cmd;
      SplitNoSeparator(cmd, '@');
    }
  }

  /** `/cmd`, `/cmd@bot`, each optionally followed by a space and
      arguments: the command is `cmd` lowercased, and the arguments are the
      space-separated pieces after the first space, which join back to the
      text after it. */
  lemma ParseCommandShape(cmd: string, bot: Option<string>, tail: Option<string>)
    requires ' ' !in cmd && '@' !in cmd
    requires bot.Some? ==> ' ' !in bot.value
    ensures var text := "/" + cmd + (if bot.Some? then "@" + bot.value else "") + (if tail.Some? then " " + tail.value else "");
            var p := ParseCommand(text);
            && p.name == Lower(cmd)
            && (tail.None? ==> p.args == [])
            && (tail.Some? ==> p.args == Split(tail.value, ' ') && Join(p.args, " ") == tail.value)
  {
    var head := "/" + cmd + (if bot.Some? then "@" + bot.value else "");
    var text := head + (if tail.Some? then " " + tail.value else "");
    assert ' ' !in head;
    CommandToken(cmd, bot);
    var parts := Split(text, ' ');
    if tail.Some? {
      assert text == head + [' '] + tail.value;
      SplitAtFirst(head, ' ', tail.value);
      SplitJoin(tail.value, ' ');
      assert parts == [head] + Split(tail.value, ' ');
    } else {
      assert text == head;
      SplitNoSeparator(head, ' ');
      assert parts == [head];
    }
    assert parts[0] == head && |head| >= 1;
  }

  datatype Message = Message(text: Option<string>, chat: int)

  datatype Update = Update(updateId: int, message: Option<Message>)

  /** `update.message?.text?.startsWith("/")`. */
  predicate IsCommand(u: Update) {
    u.message.Some? && u.message.value.text.Some? && StartsWith(u.message.value.text.value, "/")
  }

  /** The messages of the updates that are handed to `#handleCommand`, in
      order. */
  function CommandMessages(updates: seq<Update>): (r: seq<Message>)
    ensures |r| <= |updates|
    ensures (forall i :: 0 <= i < |updates| ==> !IsCommand(updates[i])) ==> r == []
    decreases |updates|
  {
    if updates == [] then []
    else
      var front := updates[..|updates| - 1];
      var last := updates[|updates| - 1];
      assert forall i :: 0 <= i < |front| ==> front[i] == updates[i];
      CommandMessages(front) + (if IsCommand(last) then [last.message.value] else [])
  }

  /** One more update adds its message exactly when it is a command. */
  lemma CommandMessagesSnoc(updates: seq<Update>, i: nat)
    requires i < |updates|
    ensures CommandMessages(updates[..i + 1])
            == CommandMessages(updates[..i]) + (if IsCommand(updates[i]) then [updates[i].message.value] else [])
  {
    assert updates[..i + 1][..i] == updates[..i];
  }

  /** Every handled message is the text of a command update. */
  lemma {:induction false} CommandMessagesAreCommands(updates: seq<Update>, k: nat)
    requires k < |CommandMessages(updates)|
    ensures exists i :: 0 <= i < |updates| && IsCommand(updates[i]) && CommandMessages(updates)[k] == updates[i].message.value
    decreases |updates|
  {
    var front := updates[..|updates| - 1];
    if k < |CommandMessages(front)| {
      CommandMessagesAreCommands(front, k);
      var i :| 0 <= i < |front| && IsCommand(front[i]) && CommandMessages(front)[k] == front[i].message.value;
      assert updates[i] == front[i];
    } else {
      assert IsCommand(updates[|updates| - 1]);
    }
  }

  class TelegramPlatform {
    /** `#token` and `#chatId`; "" stands for an unset value. */
    const token: string
    const chatId: string
    /** The id of the last update seen by the poller. */
    var lastUpdateId: int

    constructor (token: string, chatId: string)
      ensures this.token == token && this.chatId == chatId && lastUpdateId == 0
    {
      this.token := token;
      this.chatId := chatId;
      lastUpdateId := 0;
    }

    predicate IsConfigured() {
      token != "" && chatId != ""
    }

    /** `options?.chatId || this.#chatId`. */
    function Destination(chatOverride: string): string {
      if chatOverride != "" then chatOverride else chatId
    }

    /** `send`: nothing is posted without a token or a destination chat;
        otherwise the text (verbatim, or the rendered embed) goes to the
        override chat when one is given and to the configured chat
        otherwise, in HTML parse mode. */
    method Send(content: Content, chatOverride: string) returns (sent: Option<Outgoing>)
      ensures sent.None? <==> token == "" || (chatOverride == "" && chatId == "")
      ensures IsConfigured() ==> sent.Some?
      ensures sent.Some? ==>
                && sent.value.chatId == (if chatOverride != "" then chatOverride else chatId)
                && sent.value.text == TextOf(content)
                && sent.value.parseMode == "HTML"
    {
      var destChatId := Destination(chatOverride);
      if token == "" || destChatId == "" {
        return None;
      }
      var text := "";
      match content {
        case Text(s) =>
          text := s;
        case Rich(e) =>
          text := RenderEmbed(e);
      }
      return Some(Outgoing(destChatId, text, "HTML"));
    }

    /** What `#handleCommand` sends for a command message: an unknown
        command gets the "does not exist" reply and a command that throws
        the generic error reply, both to the chat the message came from;
        a command that completes sends nothing of its own here, and
        nothing is sent without a token. */
    function CommandReply(commands: Commands, message: Message): Option<Outgoing>
      reads commands
    {
      var p := ParseCommand(message.text.GetOr(""));
      var found := commands.Get(p.name);
      var answer := if found.None? then Some(MissingMessage(p.name))
                    else if found.value.run(p.args) == Threw then Some(RunFailedMessage)
                    else None;
      if answer.Some? && token != "" then Some(Outgoing(IntToString(message.chat), answer.value, "HTML"))
      else None
    }

    /** The replies to the handled messages, in order. */
    function CommandReplies(commands: Commands, messages: seq<Message>): (r: seq<Outgoing>)
      reads commands
      decreases |messages|
    {
      if messages == [] then []
      else
        var front := CommandReplies(commands, messages[..|messages| - 1]);
        var reply := CommandReply(commands, messages[|messages| - 1]);
        if reply.Some? then front + [reply.value] else front
    }

    /** One more handled message adds its reply, if it has one. */
    lemma CommandRepliesSnoc(commands: Commands, messages: seq<Message>, m: Message)
      ensures CommandReplies(commands, messages + [m])
              == CommandReplies(commands, messages)
                 + (if CommandReply(commands, m).Some? then [CommandReply(commands, m).value] else [])
    {
      assert (messages + [m])[..|messages|] == messages;
    }

    /** At most one reply per handled message, none without a token, and
        every reply goes to the chat of a handled message. */
    lemma {:induction false} CommandRepliesBound(commands: Commands, messages: seq<Message>)
      ensures |CommandReplies(commands, messages)| <= |messages|
      ensures token == "" ==> CommandReplies(commands, messages) == []
      ensures forall k :: 0 <= k < |CommandReplies(commands, messages)| ==>
                exists i :: 0 <= i < |messages| && CommandReplies(commands, messages)[k].chatId == IntToString(messages[i].chat)
      decreases |messages|
    {
      if messages != [] {
        var front := messages[..|messages| - 1];
        CommandRepliesBound(commands, front);
        var r := CommandReplies(commands, messages);
        var rf := CommandReplies(commands, front);
        forall k | 0 <= k < |r|
          ensures exists i :: 0 <= i < |messages| && r[k].chatId == IntToString(messages[i].chat)
        {
          if k < |rf| {
            var i :| 0 <= i < |front| && rf[k].chatId == IntToString(front[i].chat);
            assert r[k] == rf[k] && messages[i] == front[i];
          } else {
            assert r[k].chatId == IntToString(messages[|messages| - 1].chat);
          }
        }
      }
    }

    /** `#handleCommand`: the parsed command is run through the command
        table; its ephemeral reply, if any, is sent to the chat the command
        came from. */
    method HandleCommand(commands: Commands, message: Message) returns (reply: Option<Outgoing>)
      ensures reply == CommandReply(commands, message)
    {
      var text := message.text.GetOr("");
      var chat := IntToString(message.chat);
      assert chat != "";
      var p := ParseCommand(text);
      var ran, answer := commands.CheckAndRun(p.name, p.args);
      reply := None;
      if answer.Some? {
        reply := Send(Text(answer.value), chat);
      }
    }

    /** One round of `poll`: the updates are requested from one past the
        last seen id; each update's id becomes the last seen id, and the
        command messages are handled in order. `getUpdates` is the Bot API:
        None for a failed request. */
    method Poll(commands: Commands, getUpdates: int -> Option<seq<Update>>)
      returns (offset: int, handled: seq<Message>, replies: seq<Outgoing>)
      modifies this
      ensures offset == old(lastUpdateId) + 1
      ensures var r := getUpdates(offset);
              && (r.None? || r.value == [] ==> lastUpdateId == old(lastUpdateId) && handled == [])
              && (r.Some? && r.value != [] ==>
                    lastUpdateId == r.value[|r.value| - 1].updateId && handled == CommandMessages(r.value))
      ensures replies == CommandReplies(commands, handled)
    {
      offset := lastUpdateId + 1;
      handled := [];
      replies := [];
      var response := getUpdates(offset);
      if response.None? {
        return;
      }
      var updates := response.value;
      for i := 0 to |updates|
        invariant handled == CommandMessages(updates[..i])
        invariant replies == CommandReplies(commands, handled)
        invariant lastUpdateId == if i == 0 then old(lastUpdateId) else updates[i - 1].updateId
      {
        var update := updates[i];
        lastUpdateId := update.updateId;
        CommandMessagesSnoc(updates, i);
        if update.message.Some? && update.message.value.text.Some? && StartsWith(update.message.value.text.value, "/") {
          var reply := HandleCommand(commands, update.message.value);
          CommandRepliesSnoc(commands, handled, update.message.value);
          handled := handled + [update.message.value];
          if reply.Some? {
            replies := replies + [reply.value];
          }
        }
      }
      assert updates[..|updates|] == updates;
    }
  }
}
