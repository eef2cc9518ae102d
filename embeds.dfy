/** The message shapes the notification layer passes around: the Discord
    style embed that crons and commands build (and that the Telegram
    platform renders as text), and JSON values for the payloads handed to
    Discord. */
module Embeds {
  import opened Wrappers

  datatype EmbedField = EmbedField(name: string, value: string, inline: bool)

  /** A Discord embed; every part is optional, as in the source's object
      literals. */
  datatype Embed = Embed(
    title: Option<string>,
    description: Option<string>,
    color: Option<int>,
    thumbnailUrl: Option<string>,
    fields: Option<seq<EmbedField>>,
    footerText: Option<string>,
    footerIcon: Option<string>,
    timestamp: Option<string>)

  const EmptyEmbed: Embed := Embed(None, None, None, None, None, None, None, None)

  /** A JSON value. Object key order is not part of the model. */
  datatype Json =
    | JNull
    | JBool(b: bool)
    | JNum(n: int)
    | JStr(s: string)
    | JArr(items: seq<Json>)
    | JObj(fields: map<string, Json>)

  /** JavaScript truthiness of a JSON value. */
  predicate Truthy(j: Json) {
    match j
    case JNull => false
    case JBool(b) => b
    case JNum(n) => n != 0
    case JStr(s) => s != ""
    case _ => true
  }

  function OptStr(key: string, v: Option<string>): map<string, Json> {
    if v.Some? then map[key := JStr(v.value)] else map[]
  }

  function FieldJson(f: EmbedField): Json {
    JObj(map["name" := JStr(f.name), "value" := JStr(f.value), "inline" := JBool(f.inline)])
  }

  function FieldsJson(fs: seq<EmbedField>): (r: seq<Json>)
    ensures |r| == |fs| && forall i :: 0 <= i < |fs| ==> r[i] == FieldJson(fs[i])
  {
    seq(|fs|, i requires 0 <= i < |fs| => FieldJson(fs[i]))
  }

  /** The object an embed literal denotes: only the parts that are set. */
  function EmbedJson(e: Embed): Json {
    JObj(OptStr("title", e.title) + OptStr("description", e.description)
         + (if e.color.Some? then map["color" := JNum(e.color.value)] else map[])
         + (if e.thumbnailUrl.Some? then map["thumbnail" := JObj(map["url" := JStr(e.thumbnailUrl.value)])] else map[])
         + (if e.fields.Some? then map["fields" := JArr(FieldsJson(e.fields.value))] else map[])
         + (if e.footerText.Some? || e.footerIcon.Some?
            then map["footer" := JObj(OptStr("text", e.footerText) + OptStr("icon_url", e.footerIcon))] else map[])
         + OptStr("timestamp", e.timestamp))
  }
}
