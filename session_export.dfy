/**
 * `ChatSessionService.export_session` (chat_session/services.py): a session and its messages,
 * in position order, as a JSON document, as Markdown or as plain text. The display names of
 * the models and the clock formatting (`isoformat`, `strftime`) are inputs; the JSON branch
 * returns the document `json.dumps` would serialise.
 */
module SessionExport {
  import opened Wrappers
  import opened Entities
  import Text

  /** `get_mode_display`: the label of a mode choice, or the stored value itself. */
  function ModeDisplay(mode: string): string
  {
    if mode == MODE_DIRECT then "Direct Chat"
    else if mode == MODE_COMPARE then "Compare Models"
    else if mode == MODE_RANDOM then "Random Models"
    else mode
  }

  /** `session.title or 'Chat Session'`. */
  function TitleOr(title: string): string
  {
    if title != "" then title else "Chat Session"
  }

  /** `"=" * 50`. */
  function Rule(): (r: string)
    ensures |r| == 50 && forall i :: 0 <= i < 50 ==> r[i] == '='
  {
    seq(50, _ => '=')
  }

  /** `sep.join(lines)`. */
  function Join(lines: seq<string>, sep: string): string
  {
    if |lines| == 0 then ""
    else if |lines| == 1 then lines[0]
    else Join(lines[..|lines| - 1], sep) + sep + lines[|lines| - 1]
  }

  /** Every line occurs in the joined text. */
  lemma {:induction false} JoinOccurs(lines: seq<string>, sep: string, i: nat)
    requires i < |lines|
    ensures exists k :: Text.OccursAt(Join(lines, sep), lines[i], k)
  {
    var j := Join(lines, sep);
    if |lines| == 1 {
      assert j == lines[0];
      assert Text.OccursAt(j, lines[i], 0);
    } else {
      var init := lines[..|lines| - 1];
      var head := Join(init, sep);
      assert j == head + sep + lines[|lines| - 1];
      if i == |lines| - 1 {
        assert j[|head| + |sep|..] == lines[i];
        assert Text.OccursAt(j, lines[i], |head| + |sep|);
      } else {
        JoinOccurs(init, sep, i);
        var k :| Text.OccursAt(head, init[i], k);
        assert j[..|head|] == head;
        assert j[k..k + |lines[i]|] == head[k..k + |lines[i]|];
        assert Text.OccursAt(j, lines[i], k);
      }
    }
  }

  /** A message has a participant label when it has a non-empty one. */
  predicate HasParticipant(m: Message)
  {
    m.participant.Some? && m.participant.value != ""
  }

  /** The name a message is exported under: its model's display name, else `fallback`. */
  function BaseName(m: Message, name: Id -> string, fallback: string): string
  {
    if m.model.Some? then name(m.model.value) else fallback
  }

  /** The base name, with the upper-cased participant in parentheses for compare sessions. */
  function Speaker(s: ChatSession, m: Message, name: Id -> string, fallback: string): string
  {
    var base := BaseName(m, name, fallback);
    if s.mode == MODE_COMPARE && HasParticipant(m) then base + " (" + Text.Upper(m.participant.value) + ")" else base
  }

  /** The `(A)`/`(B)` suffix is added exactly in compare sessions, to messages with a participant. */
  lemma SpeakerSuffix(s: ChatSession, m: Message, name: Id -> string, fallback: string)
    ensures Speaker(s, m, name, fallback) == BaseName(m, name, fallback) <==> !(s.mode == MODE_COMPARE && HasParticipant(m))
    ensures s.mode == MODE_COMPARE && HasParticipant(m) ==>
      Text.StartsWith(Speaker(s, m, name, fallback), BaseName(m, name, fallback) + " (")
  {
    var base := BaseName(m, name, fallback);
    if s.mode == MODE_COMPARE && HasParticipant(m) {
      assert |Speaker(s, m, name, fallback)| == |base| + 3 + |m.participant.value|;
      assert Speaker(s, m, name, fallback)[..|base| + 2] == base + " (";
    }
  }

  // ---------------------------------------------------------------- plain text

  function TxtHeader(s: ChatSession): seq<string>
  {
    [TitleOr(s.title), "Mode: " + ModeDisplay(s.mode), Rule(), ""]
  }

  /** A message in the text export: its line, its bracketed time when asked for, and a blank line. */
  function TxtEntry(s: ChatSession, m: Message, name: Id -> string, stamp: int -> string, timestamps: bool): seq<string>
  {
    [if m.role == ROLE_USER then "USER: " + m.content else Speaker(s, m, name, "ASSISTANT") + ": " + m.content]
    + (if timestamps then ["[" + stamp(m.createdAt) + "]"] else [])
    + [""]
  }

  /** The lines of the messages, in order. */
  function TxtBody(s: ChatSession, ms: seq<Message>, name: Id -> string, stamp: int -> string, timestamps: bool): seq<string>
  {
    if ms == [] then []
    else TxtBody(s, ms[..|ms| - 1], name, stamp, timestamps) + TxtEntry(s, ms[|ms| - 1], name, stamp, timestamps)
  }

  /** Each message's first line is among the body's lines. */
  lemma {:induction false} TxtBodyHas(s: ChatSession, ms: seq<Message>, name: Id -> string, stamp: int -> string, timestamps: bool, i: nat)
    requires i < |ms|
    ensures TxtEntry(s, ms[i], name, stamp, timestamps)[0] in TxtBody(s, ms, name, stamp, timestamps)
  {
    var init := ms[..|ms| - 1];
    if i < |ms| - 1 {
      assert ms[i] == init[i];
      TxtBodyHas(s, init, name, stamp, timestamps, i);
    }
  }

  function TxtLines(s: ChatSession, ms: seq<Message>, name: Id -> string, stamp: int -> string, timestamps: bool): seq<string>
  {
    TxtHeader(s) + TxtBody(s, ms, name, stamp, timestamps)
  }

  /** The `txt` branch: the header, then each message's lines, joined by newlines. */
  method ExportTxt(s: ChatSession, ms: seq<Message>, name: Id -> string, stamp: int -> string, timestamps: bool)
    returns (text: string)
    ensures text == Join(TxtLines(s, ms, name, stamp, timestamps), "\n")
  {
    var lines := TxtHeader(s);
    for i := 0 to |ms|
      invariant lines == TxtHeader(s) + TxtBody(s, ms[..i], name, stamp, timestamps)
    {
      var m := ms[i];
      var line := if m.role == ROLE_USER then "USER: " + m.content else Speaker(s, m, name, "ASSISTANT") + ": " + m.content;
      var time := if timestamps then ["[" + stamp(m.createdAt) + "]"] else [];
      lines := lines + ([line] + time + [""]);
      assert ms[..i + 1][..i] == ms[..i];
    }
    assert ms[..|ms|] == ms;
    text := Join(lines, "\n");
  }

  /** The text export has a `USER: <content>` line for every user message. */
  lemma TxtHasUserLines(s: ChatSession, ms: seq<Message>, name: Id -> string, stamp: int -> string, timestamps: bool, i: nat)
    requires i < |ms| && ms[i].role == ROLE_USER
    ensures Text.Contains(Join(TxtLines(s, ms, name, stamp, timestamps), "\n"), "USER: " + ms[i].content)
  {
    TxtBodyHas(s, ms, name, stamp, timestamps, i);
    var lines := TxtLines(s, ms, name, stamp, timestamps);
    var body := TxtBody(s, ms, name, stamp, timestamps);
    var k :| 0 <= k < |body| && body[k] == "USER: " + ms[i].content;
    assert lines[4 + k] == "USER: " + ms[i].content;
    JoinOccurs(lines, "\n", 4 + k);
    Text.ContainsAt(Join(lines, "\n"), "USER: " + ms[i].content);
  }

  // ---------------------------------------------------------------- markdown

  function MarkdownHeader(s: ChatSession, name: Id -> string, dateTime: int -> string, timestamps: bool): seq<string>
  {
    ["# " + TitleOr(s.title), "\n**Mode**: " + ModeDisplay(s.mode)]
    + (if s.modelA.Some? then ["**Model A**: " + name(s.modelA.value)] else [])
    + (if s.modelB.Some? then ["**Model B**: " + name(s.modelB.value)] else [])
    + (if timestamps then ["**Created**: " + dateTime(s.createdAt)] else [])
    + ["\n---\n"]
  }

  /** A message in the Markdown export: a heading with its text, its time in italics when asked for, a blank line. */
  function MarkdownEntry(s: ChatSession, m: Message, name: Id -> string, clock: int -> string, timestamps: bool): seq<string>
  {
    [if m.role == ROLE_USER then "### User\n" + m.content + "\n"
     else "### " + Speaker(s, m, name, "Assistant") + "\n" + m.content + "\n"]
    + (if timestamps then ["*" + clock(m.createdAt) + "*\n"] else [])
    + [""]
  }

  /** The lines of the messages, in order. */
  function MarkdownBody(s: ChatSession, ms: seq<Message>, name: Id -> string, clock: int -> string, timestamps: bool): seq<string>
  {
    if ms == [] then []
    else MarkdownBody(s, ms[..|ms| - 1], name, clock, timestamps) + MarkdownEntry(s, ms[|ms| - 1], name, clock, timestamps)
  }

  /** Each message's heading line is among the body's lines. */
  lemma {:induction false} MarkdownBodyHas(s: ChatSession, ms: seq<Message>, name: Id -> string, clock: int -> string, timestamps: bool, i: nat)
    requires i < |ms|
    ensures MarkdownEntry(s, ms[i], name, clock, timestamps)[0] in MarkdownBody(s, ms, name, clock, timestamps)
  {
    var init := ms[..|ms| - 1];
    if i < |ms| - 1 {
      assert ms[i] == init[i];
      MarkdownBodyHas(s, init, name, clock, timestamps, i);
    }
  }

  function MarkdownLines(s: ChatSession, ms: seq<Message>, name: Id -> string, dateTime: int -> string,
                         clock: int -> string, timestamps: bool): seq<string>
  {
    MarkdownHeader(s, name, dateTime, timestamps) + MarkdownBody(s, ms, name, clock, timestamps)
  }

  /** The `markdown` branch: the header, then each message's lines, joined by newlines. */
  method ExportMarkdown(s: ChatSession, ms: seq<Message>, name: Id -> string, dateTime: int -> string,
                        clock: int -> string, timestamps: bool) returns (text: string)
    ensures text == Join(MarkdownLines(s, ms, name, dateTime, clock, timestamps), "\n")
  {
    var lines := MarkdownHeader(s, name, dateTime, timestamps);
    for i := 0 to |ms|
      invariant lines == MarkdownHeader(s, name, dateTime, timestamps) + MarkdownBody(s, ms[..i], name, clock, timestamps)
    {
      var m := ms[i];
      var heading := if m.role == ROLE_USER then "### User\n" + m.content + "\n"
                     else "### " + Speaker(s, m, name, "Assistant") + "\n" + m.content + "\n";
      var time := if timestamps then ["*" + clock(m.createdAt) + "*\n"] else [];
      lines := lines + ([heading] + time + [""]);
      assert ms[..i + 1][..i] == ms[..i];
    }
    assert ms[..|ms|] == ms;
    text := Join(lines, "\n");
  }

  /**
   * The Markdown export holds every message's heading with its content: `### User` for a user
   * message, and the speaker's name for a reply.
   */
  lemma MarkdownHasHeadings(s: ChatSession, ms: seq<Message>, name: Id -> string, dateTime: int -> string,
                            clock: int -> string, timestamps: bool, i: nat)
    requires i < |ms|
    ensures var text := Join(MarkdownLines(s, ms, name, dateTime, clock, timestamps), "\n");
      && (ms[i].role == ROLE_USER ==> Text.Contains(text, "### User\n" + ms[i].content + "\n"))
      && (ms[i].role != ROLE_USER ==> Text.Contains(text, "### " + Speaker(s, ms[i], name, "Assistant") + "\n" + ms[i].content + "\n"))
  {
    MarkdownBodyHas(s, ms, name, clock, timestamps, i);
    var header := MarkdownHeader(s, name, dateTime, timestamps);
    var lines := MarkdownLines(s, ms, name, dateTime, clock, timestamps);
    var body := MarkdownBody(s, ms, name, clock, timestamps);
    var heading := MarkdownEntry(s, ms[i], name, clock, timestamps)[0];
    var k :| 0 <= k < |body| && body[k] == heading;
    assert lines[|header| + k] == heading;
    JoinOccurs(lines, "\n", |header| + k);
    Text.ContainsAt(Join(lines, "\n"), heading);
  }

  // ---------------------------------------------------------------- JSON

  datatype JsonMessage = JsonMessage(role: string, content: string, model: Option<string>, participant: Option<string>,
                                     createdAt: Option<int>, metadata: Option<map<string, MetaValue>>)

  datatype JsonSession = JsonSession(id: Id, mode: string, title: string, createdAt: Option<int>,
                                     modelA: Option<string>, modelB: Option<string>, metadata: Option<map<string, string>>)

  /** What an export produces: the JSON document, or a text with its content type. */
  datatype Exported = Document(session: JsonSession, messages: seq<JsonMessage>)
                    | Text(content: string, contentType: string)

  function JsonMessageOf(m: Message, name: Id -> string, withMetadata: bool, timestamps: bool): JsonMessage
  {
    JsonMessage(m.role, m.content, if m.model.Some? then Some(name(m.model.value)) else None, m.participant,
                if timestamps then Some(m.createdAt) else None, if withMetadata then Some(m.metadata) else None)
  }

  function JsonSessionOf(s: ChatSession, name: Id -> string, withMetadata: bool, timestamps: bool): JsonSession
  {
    JsonSession(s.id, s.mode, s.title, if timestamps then Some(s.createdAt) else None,
                if s.modelA.Some? then Some(name(s.modelA.value)) else None,
                if s.modelB.Some? then Some(name(s.modelB.value)) else None,
                if withMetadata then Some(s.metadata) else None)
  }

  /** The `json` branch: one entry per message, in order, keeping its role, content and participant. */
  method ExportJson(s: ChatSession, ms: seq<Message>, name: Id -> string, withMetadata: bool, timestamps: bool)
    returns (doc: Exported)
    ensures doc.Document? && doc.session == JsonSessionOf(s, name, withMetadata, timestamps)
    ensures |doc.messages| == |ms|
    ensures forall i :: 0 <= i < |ms| ==> doc.messages[i] == JsonMessageOf(ms[i], name, withMetadata, timestamps)
    ensures forall i :: 0 <= i < |ms| ==>
      doc.messages[i].role == ms[i].role && doc.messages[i].content == ms[i].content
      && doc.messages[i].participant == ms[i].participant
  {
    var out: seq<JsonMessage> := [];
    for i := 0 to |ms|
      invariant |out| == i
      invariant forall j :: 0 <= j < i ==> out[j] == JsonMessageOf(ms[j], name, withMetadata, timestamps)
    {
      out := out + [JsonMessageOf(ms[i], name, withMetadata, timestamps)];
    }
    doc := Document(JsonSessionOf(s, name, withMetadata, timestamps), out);
  }

  // ---------------------------------------------------------------- dispatch

  /**
   * `export_session`: json, markdown and txt are served by their branches with their content
   * types; any other format is an error naming it. `dateTime` and `clock` stand for the two
   * `strftime` formats.
   */
  method ExportSession(s: ChatSession, ms: seq<Message>, format: string, withMetadata: bool, timestamps: bool,
                       name: Id -> string, dateTime: int -> string, clock: int -> string) returns (r: Result<Exported>)
    ensures r.Err? <==> format !in {"json", "markdown", "txt"}
    ensures r.Err? ==> r.error == "Unsupported format: " + format
    ensures format == "json" ==> r.Ok? && r.value.Document? && |r.value.messages| == |ms|
    ensures format == "markdown" ==>
      r == Ok(Text(Join(MarkdownLines(s, ms, name, dateTime, clock, timestamps), "\n"), "text/markdown"))
    ensures format == "txt" ==> r == Ok(Text(Join(TxtLines(s, ms, name, dateTime, timestamps), "\n"), "text/plain"))
  {
    if format == "json" {
      var doc := ExportJson(s, ms, name, withMetadata, timestamps);
      r := Ok(doc);
    } else if format == "markdown" {
      var text := ExportMarkdown(s, ms, name, dateTime, clock, timestamps);
      r := Ok(Text(text, "text/markdown"));
    } else if format == "txt" {
      var text := ExportTxt(s, ms, name, dateTime, timestamps);
      r := Ok(Text(text, "text/plain"));
    } else {
      r := Err("Unsupported format: " + format);
    }
  }
}
