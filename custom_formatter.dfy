/** The log formatter of logger.py: it renders a log record as
    `LEVEL:chat_id:name:msg`, or `LEVEL:name:msg` when no chat id is known,
    working on a shallow copy so that the caller's record is left as it was. */
module CustomFormatter {
  import opened Optional
  import PyStr
  import ChatIdPlugin

  /** The request context: `None` when no request is in flight
      (`context.exists()` is false), otherwise the values the plugins stored,
      which may themselves be `None`. */
  type Context = Option<map<string, Option<string>>>

  /** Python truthiness of a value that is `None` or a string. */
  predicate Truthy(v: Option<string>)
  {
    v.Some? && v.value != ""
  }

  /** The chat id the context offers: `context.get("chat_id")` when a context exists. */
  function ContextChatId(ctx: Context): Option<string>
  {
    if ctx.Some? && ChatIdPlugin.Key in ctx.value then ctx.value[ChatIdPlugin.Key] else None
  }

  /** The chat id the formatter settles on: the context's value when it is truthy,
      otherwise the record's own `chat_id` attribute, whatever that is. */
  function ResolveChatId(ctx: Context, attr: Option<string>): (chatId: Option<string>)
    ensures ctx.Some? && ChatIdPlugin.Key in ctx.value && Truthy(ctx.value[ChatIdPlugin.Key]) ==>
              chatId == ctx.value[ChatIdPlugin.Key]
    ensures !(ctx.Some? && ChatIdPlugin.Key in ctx.value && Truthy(ctx.value[ChatIdPlugin.Key])) ==>
              chatId == attr
    ensures Truthy(chatId) <==> Truthy(ContextChatId(ctx)) || Truthy(attr)
  {
    var fromContext := ContextChatId(ctx);
    if Truthy(fromContext) then fromContext else attr
  }

  /** The message the formatter composes from the record's level name, logger name
      and message, with the chat id as a second segment only when it is truthy. */
  function LogLine(levelname: string, name: string, msg: string, chatId: Option<string>): (line: string)
    ensures |line| > |levelname| && line[..|levelname| + 1] == levelname + ":"
    ensures |line| > |name| + |msg| + 1 && line[|line| - |name| - |msg| - 2..] == ":" + name + ":" + msg
  {
    if Truthy(chatId) then levelname + ":" + chatId.value + ":" + name + ":" + msg
    else levelname + ":" + name + ":" + msg
  }

  /** Splitting `a:b:c:msg` (or `a:b:msg`) at `:` gives back the leading fields,
      followed by the pieces of the message. */
  lemma FieldsThenMessage(fields: seq<string>, msg: string)
    requires forall i :: 0 <= i < |fields| ==> ':' !in fields[i]
    ensures PyStr.Split(JoinFields(fields, msg), ':') == fields + PyStr.Split(msg, ':')
    decreases |fields|
  {
    if fields != [] {
      FieldsThenMessage(fields[1..], msg);
      PyStr.LeadingField(fields[0], JoinFields(fields[1..], msg), ':');
      assert fields == [fields[0]] + fields[1..];
    }
  }

  /** Each field followed by `:`, then the message. */
  function JoinFields(fields: seq<string>, msg: string): string
  {
    if fields == [] then msg else fields[0] + [':'] + JoinFields(fields[1..], msg)
  }

  /** The log line splits at `:` into its fields, the message keeping its own
      `:`s, as long as level name, chat id and logger name hold no `:`. With no
      chat id there is no empty field between level name and logger name. */
  lemma LogLineFields(levelname: string, name: string, msg: string, chatId: Option<string>)
    requires ':' !in levelname && ':' !in name
    requires Truthy(chatId) ==> ':' !in chatId.value
    ensures var parts := PyStr.Split(LogLine(levelname, name, msg, chatId), ':');
            if Truthy(chatId) then
              |parts| >= 4 && parts[..3] == [levelname, chatId.value, name] && PyStr.Join(parts[3..], ':') == msg
            else
              |parts| >= 3 && parts[..2] == [levelname, name] && PyStr.Join(parts[2..], ':') == msg
  {
    var fields := if Truthy(chatId) then [levelname, chatId.value, name] else [levelname, name];
    var tail := name + [':'] + msg;
    assert JoinFields([name], msg) == tail by {
      assert JoinFields([name][1..], msg) == msg;
    }
    if Truthy(chatId) {
      assert fields[1..][1..] == [name];
      assert JoinFields(fields, msg) == levelname + [':'] + (chatId.value + [':'] + tail);
    } else {
      assert fields[1..] == [name];
    }
    assert JoinFields(fields, msg) == LogLine(levelname, name, msg, chatId);
    FieldsThenMessage(fields, msg);
    PyStr.JoinSplit(msg, ':');
    var parts := fields + PyStr.Split(msg, ':');
    assert parts[..|fields|] == fields && parts[|fields|..] == PyStr.Split(msg, ':');
  }

  /** A field of the base formatter's template: `%(message)s`, `%(levelname)s`,
      `%(name)s` or literal text. */
  datatype Placeholder = Message | LevelName | Name | Text(text: string)

  /** The template logging is configured with: `"%(message)s"`. */
  const MessageOnly: seq<Placeholder> := [Message]

  /** `logging.Formatter.format` for a record without arguments or exception:
      each placeholder replaced by the record's field. */
  function Render(fmt: seq<Placeholder>, levelname: string, name: string, message: string): (out: string)
  {
    if fmt == [] then ""
    else
      var head := match fmt[0]
        case Message => message
        case LevelName => levelname
        case Name => name
        case Text(t) => t;
      head + Render(fmt[1..], levelname, name, message)
  }

  /** A log record; `chatId` is its optional `chat_id` attribute. */
  class LogRecord {
    var levelname: string
    var name: string
    var msg: string
    var chatId: Option<string>

    constructor (levelname: string, name: string, msg: string, chatId: Option<string>)
      ensures this.levelname == levelname && this.name == name
      ensures this.msg == msg && this.chatId == chatId
    {
      this.levelname := levelname;
      this.name := name;
      this.msg := msg;
      this.chatId := chatId;
    }

    /** `copy.copy(record)`: a new record with the same attribute values. */
    constructor Copy(other: LogRecord)
      ensures levelname == other.levelname && name == other.name
      ensures msg == other.msg && chatId == other.chatId
    {
      levelname := other.levelname;
      name := other.name;
      msg := other.msg;
      chatId := other.chatId;
    }
  }

  class Formatter {
    /** The template the base formatter renders. */
    const fmt: seq<Placeholder>

    constructor (fmt: seq<Placeholder>)
      ensures this.fmt == fmt
    {
      this.fmt := fmt;
    }

    /** The base formatter applied to the record as it currently stands. */
    function BaseFormat(record: LogRecord): string
      reads record
    {
      Render(fmt, record.levelname, record.name, record.msg)
    }

    /** `CustomFormatter.format`: the base formatter sees the composed log line as
        the message and an empty level name; the caller's record is not changed. */
    method Format(record: LogRecord, ctx: Context) returns (formatted: string)
      ensures unchanged(record)
      ensures formatted ==
        Render(fmt, "", record.name, LogLine(record.levelname, record.name, record.msg, ResolveChatId(ctx, record.chatId)))
      ensures fmt == MessageOnly ==>
        formatted == LogLine(record.levelname, record.name, record.msg, ResolveChatId(ctx, record.chatId))
    {
      var copy := new LogRecord.Copy(record);

      var chatId: Option<string> := None;
      if ctx.Some? {
        chatId := if ChatIdPlugin.Key in ctx.value then ctx.value[ChatIdPlugin.Key] else None;
      }
      if !Truthy(chatId) {
        chatId := copy.chatId;
      }

      var originalMsg := copy.msg;
      if Truthy(chatId) {
        copy.msg := copy.levelname + ":" + chatId.value + ":" + copy.name + ":" + originalMsg;
      } else {
        copy.msg := copy.levelname + ":" + copy.name + ":" + originalMsg;
      }

      var originalLevelname := copy.levelname;
      copy.levelname := "";

      formatted := BaseFormat(copy);

      copy.levelname := originalLevelname;
      copy.msg := originalMsg;
      assert copy.levelname == record.levelname && copy.msg == record.msg;
    }

    /** Formatting the same record in the same context twice gives the same line. */
    method FormatTwice(record: LogRecord, ctx: Context) returns (first: string, second: string)
      ensures first == second
      ensures first ==
        Render(fmt, "", record.name, LogLine(record.levelname, record.name, record.msg, ResolveChatId(ctx, record.chatId)))
    {
      first := Format(record, ctx);
      second := Format(record, ctx);
    }
  }

  /** During a request to `/chat/{id}` the log line carries that id, whatever
      chat id the record itself has. */
  lemma ChatRouteLogLine(id: string, levelname: string, name: string, msg: string, attr: Option<string>)
    requires id != "" && '/' !in id
    ensures var ctx := Some(map[ChatIdPlugin.Key := ChatIdPlugin.ExtractChatId("/chat/" + id)]);
            LogLine(levelname, name, msg, ResolveChatId(ctx, attr)) == levelname + ":" + id + ":" + name + ":" + msg
  {
    ChatIdPlugin.ChatRouteGivesId(id);
  }

  /** A request whose path gives no id, or the empty id, falls back to the
      record's own chat id. */
  lemma EmptyIdFallsBack(path: string, attr: Option<string>)
    requires path == "" || path[|path| - 1] == '/'
    ensures ResolveChatId(Some(map[ChatIdPlugin.Key := ChatIdPlugin.ExtractChatId(path)]), attr) == attr
  {
    if path != "" {
      ChatIdPlugin.TrailingSlashGivesEmptyId(path);
    }
  }

  /** The configured template renders exactly the composed message. */
  lemma MessageOnlyRendersMessage(levelname: string, name: string, message: string)
    ensures Render(MessageOnly, levelname, name, message) == message
  {
    assert MessageOnly[1..] == [];
  }
}
