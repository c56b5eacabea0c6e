/**
 * The periodic tasks of the chat_session app (chat_session/tasks.py): naming recent untitled
 * sessions after their first user message, and exporting a batch of sessions into files. The
 * session table is a sequence in the order the query returns it; the zip archive and the
 * e-mail are left out.
 */
module SessionTasks {
  import opened Wrappers
  import opened Entities
  import Text
  import Ordering
  import SessionRules
  import SessionExport

  // ---------------------------------------------------------------- generate_session_titles

  /** A session's messages in position order; none when it has none. */
  function MessagesOf(messages: map<Id, seq<Message>>, s: ChatSession): seq<Message>
  {
    if s.id in messages then messages[s.id] else []
  }

  /** The stored value of the `title` column: a CharField without `null=True` never holds NULL. */
  function StoredTitle(s: ChatSession): Option<string>
  {
    Some(s.title)
  }

  /** The job's filter as written: a NULL title, created within the last day. */
  predicate SelectedAsWritten(s: ChatSession, now: int)
  {
    StoredTitle(s).None? && s.createdAt >= now - SECONDS_PER_DAY
  }

  /** The filter the job evidently means: an empty title, created within the last day. */
  predicate Selected(s: ChatSession, now: int)
  {
    s.title == "" && s.createdAt >= now - SECONDS_PER_DAY
  }

  /** One session after the job: a selected session with a user message is titled after it and saved. */
  function Titled(s: ChatSession, messages: map<Id, seq<Message>>, owner: User, now: int, selected: bool): ChatSession
  {
    var first := SessionRules.FirstUserContent(MessagesOf(messages, s));
    if selected && first.Some? then SessionRules.Saved(s.(title := Text.Abbreviate(first.value)), first, owner)
    else s
  }

  /**
   * The loop of `generate_session_titles`, with the filter as a parameter: `asWritten` uses
   * the NULL-title filter of the source, otherwise the empty-title one. The report counts the
   * selected sessions, titled or not.
   */
  method TitleSessions(sessions: seq<ChatSession>, messages: map<Id, seq<Message>>, users: map<Id, User>, now: int,
                       asWritten: bool) returns (out: seq<ChatSession>, report: string)
    requires forall i :: 0 <= i < |sessions| ==> sessions[i].user in users
    ensures |out| == |sessions|
    ensures forall i :: 0 <= i < |sessions| ==>
      out[i] == Titled(sessions[i], messages, users[sessions[i].user], now,
                       if asWritten then SelectedAsWritten(sessions[i], now) else Selected(sessions[i], now))
    ensures report == "Generated titles for " + Text.NatToString(SelectedCount(sessions, now, asWritten)) + " sessions"
  {
    out := sessions;
    var count := 0;
    for i := 0 to |sessions|
      invariant TitleScanned(sessions, messages, users, now, asWritten, i, out, count)
    {
      var s := sessions[i];
      var next := s;
      var selected := if asWritten then SelectedAsWritten(s, now) else Selected(s, now);
      if selected {
        count := count + 1;
        var first := SessionRules.FirstUserContent(MessagesOf(messages, s));
        if first.Some? {
          next := SessionRules.Saved(s.(title := Text.Abbreviate(first.value)), first, users[s.user]);
        }
      }
      TitleAdvance(sessions, messages, users, now, asWritten, i, out, if selected then count - 1 else count, next);
      out := out[i := next];
    }
    TitleDone(sessions, messages, users, now, asWritten, out, count);
    report := "Generated titles for " + Text.NatToString(count) + " sessions";
  }

  /** A session as the job leaves it, with the filter `asWritten` chooses. */
  predicate TitledRow(s: ChatSession, messages: map<Id, seq<Message>>, users: map<Id, User>, now: int, asWritten: bool,
                      o: ChatSession)
  {
    s.user in users
    && o == Titled(s, messages, users[s.user], now, if asWritten then SelectedAsWritten(s, now) else Selected(s, now))
  }

  /** The first `i` sessions are handled, the others untouched, and `count` counts the selected ones so far. */
  ghost predicate TitleScanned(sessions: seq<ChatSession>, messages: map<Id, seq<Message>>, users: map<Id, User>, now: int,
                               asWritten: bool, i: nat, out: seq<ChatSession>, count: int)
  {
    i <= |sessions| && |out| == |sessions|
    && (forall j :: 0 <= j < i ==> TitledRow(sessions[j], messages, users, now, asWritten, out[j]))
    && (forall j :: i <= j < |sessions| ==> out[j] == sessions[j])
    && count == SelectedCount(sessions[..i], now, asWritten)
  }

  lemma TitleAdvance(sessions: seq<ChatSession>, messages: map<Id, seq<Message>>, users: map<Id, User>, now: int,
                     asWritten: bool, i: nat, out: seq<ChatSession>, count: int, next: ChatSession)
    requires i < |sessions| && TitleScanned(sessions, messages, users, now, asWritten, i, out, count)
    requires TitledRow(sessions[i], messages, users, now, asWritten, next)
    ensures var s := sessions[i];
      var selected := if asWritten then SelectedAsWritten(s, now) else Selected(s, now);
      TitleScanned(sessions, messages, users, now, asWritten, i + 1, out[i := next], if selected then count + 1 else count)
  {
    assert sessions[..i + 1][..i] == sessions[..i];
  }

  lemma TitleDone(sessions: seq<ChatSession>, messages: map<Id, seq<Message>>, users: map<Id, User>, now: int,
                  asWritten: bool, out: seq<ChatSession>, count: int)
    requires TitleScanned(sessions, messages, users, now, asWritten, |sessions|, out, count)
    ensures |out| == |sessions|
    ensures forall i :: 0 <= i < |sessions| ==>
      out[i] == Titled(sessions[i], messages, users[sessions[i].user], now,
                       if asWritten then SelectedAsWritten(sessions[i], now) else Selected(sessions[i], now))
    ensures count == SelectedCount(sessions, now, asWritten)
  {
    assert sessions[..|sessions|] == sessions;
  }

  /** The number of sessions the filter selects. */
  function SelectedCount(sessions: seq<ChatSession>, now: int, asWritten: bool): nat
  {
    if sessions == [] then 0
    else
      var s := sessions[|sessions| - 1];
      SelectedCount(sessions[..|sessions| - 1], now, asWritten)
      + (if (if asWritten then SelectedAsWritten(s, now) else Selected(s, now)) then 1 else 0)
  }

  /** As written, the filter selects nothing: the job never changes a session and always reports 0. */
  lemma {:induction false} AsWrittenSelectsNothing(sessions: seq<ChatSession>, now: int)
    ensures SelectedCount(sessions, now, true) == 0
  {
    if sessions != [] {
      AsWrittenSelectsNothing(sessions[..|sessions| - 1], now);
    }
  }

  /**
   * A recent untitled session whose first user message says "Hello": the job as written
   * leaves it untitled, the corrected filter names it "Hello".
   */
  lemma AsWrittenMissesUntitledSession()
    ensures var s := ChatSession("s1", "u1", MODE_DIRECT, "", None, None, false, None, 1000, None, map[]);
            var m := NewMessage("m1", "s1", ROLE_USER, "Hello", 0, 1000);
            var owner := User("u1", None, "User", "google", None, false, None, true);
            Titled(s, map["s1" := [m]], owner, 1000, SelectedAsWritten(s, 1000)).title == ""
            && Titled(s, map["s1" := [m]], owner, 1000, Selected(s, 1000)).title == "Hello"
  {
    var m := NewMessage("m1", "s1", ROLE_USER, "Hello", 0, 1000);
    assert SessionRules.FirstUserContent([m]) == Some("Hello");
  }

  /**
   * With the corrected filter: a non-empty title is never replaced, a session without a user
   * message keeps its title, an older session is untouched, and a selected session with a
   * user message gets the first 50 characters of that message (plus "..." when longer).
   */
  lemma TitledRules(s: ChatSession, messages: map<Id, seq<Message>>, owner: User, now: int)
    ensures var t := Titled(s, messages, owner, now, Selected(s, now));
            (s.title != "" ==> t == s)
            && (s.createdAt < now - SECONDS_PER_DAY ==> t == s)
            && (SessionRules.FirstUserContent(MessagesOf(messages, s)).None? ==> t == s)
            && (Selected(s, now) && SessionRules.FirstUserContent(MessagesOf(messages, s)).Some? ==>
                  t.title == Text.Abbreviate(SessionRules.FirstUserContent(MessagesOf(messages, s)).value))
  {
  }

  // ---------------------------------------------------------------- export_session_batch

  /** `f"{title or 'untitled'}_{id}.{format}"`. */
  function FileName(s: ChatSession, format: string): string
  {
    (if s.title != "" then s.title else "untitled") + "_" + s.id + "." + format
  }

  /** Sessions whose ids have the same length (uuids) get different file names for different ids. */
  lemma FileNamesDistinct(s1: ChatSession, s2: ChatSession, format: string)
    requires |s1.id| == |s2.id| && s1.id != s2.id
    ensures FileName(s1, format) != FileName(s2, format)
  {
    var n1, n2 := FileName(s1, format), FileName(s2, format);
    var k := |s1.id| + 1 + |format|;
    assert n1[|n1| - k..] == s1.id + "." + format;
    assert n2[|n2| - k..] == s2.id + "." + format;
    assert (s1.id + "." + format)[..|s1.id|] == s1.id;
    assert (s2.id + "." + format)[..|s2.id|] == s2.id;
  }

  /** The sessions of the table whose ids were asked for, in table order. */
  function Chosen(ids: seq<Id>): ChatSession -> bool
  {
    (s: ChatSession) => s.id in ids
  }

  /**
   * The export loop of `export_session_batch` over the chosen sessions: each one is exported
   * with metadata and timestamps into a file named after it; an unsupported format fails on
   * the first session.
   */
  method ExportFiles(chosen: seq<ChatSession>, messages: map<Id, seq<Message>>, format: string,
                     name: Id -> string, dateTime: int -> string, clock: int -> string)
    returns (r: Result<seq<(string, SessionExport.Exported)>>)
    ensures chosen != [] ==> (r.Err? <==> format !in {"json", "markdown", "txt"})
    ensures r.Err? ==> r.error == "Unsupported format: " + format
    ensures r.Ok? ==> |r.value| == |chosen| && forall i :: 0 <= i < |chosen| ==> r.value[i].0 == FileName(chosen[i], format)
    ensures r.Ok? && format == "txt" ==> forall i :: 0 <= i < |chosen| ==>
      r.value[i].1 == SessionExport.Text(SessionExport.Join(SessionExport.TxtLines(chosen[i], MessagesOf(messages, chosen[i]),
        name, dateTime, true), "\n"), "text/plain")
  {
    var files: seq<(string, SessionExport.Exported)> := [];
    for i := 0 to |chosen|
      invariant |files| == i
      invariant format !in {"json", "markdown", "txt"} ==> i == 0
      invariant forall j :: 0 <= j < i ==> ExportedFile(chosen[j], messages, format, name, dateTime, files[j])
    {
      var s := chosen[i];
      var content := SessionExport.ExportSession(s, MessagesOf(messages, s), format, true, true, name, dateTime, clock);
      if content.Err? {
        return Err(content.error);
      }
      files := files + [(FileName(s, format), content.value)];
    }
    r := Ok(files);
  }

  /** A file of the batch: named after its session and, for the txt format, holding the session's text export. */
  predicate ExportedFile(s: ChatSession, messages: map<Id, seq<Message>>, format: string,
                         name: Id -> string, dateTime: int -> string, file: (string, SessionExport.Exported))
  {
    file.0 == FileName(s, format)
    && (format == "txt" ==>
          file.1 == SessionExport.Text(SessionExport.Join(SessionExport.TxtLines(s, MessagesOf(messages, s),
            name, dateTime, true), "\n"), "text/plain"))
  }

  /**
   * `export_session_batch`: no matching session reports "No sessions found"; an unsupported
   * format fails the job; otherwise every chosen session is exported and the report counts
   * them and names the recipient.
   */
  method ExportSessionBatch(ids: seq<Id>, table: seq<ChatSession>, messages: map<Id, seq<Message>>, format: string,
                            email: string, name: Id -> string, dateTime: int -> string, clock: int -> string)
    returns (r: Result<string>, files: seq<(string, SessionExport.Exported)>)
    ensures Ordering.Filter(table, Chosen(ids)) == [] ==> r == Ok("No sessions found") && files == []
    ensures Ordering.Filter(table, Chosen(ids)) != [] && format !in {"json", "markdown", "txt"} ==>
      r == Err("Unsupported format: " + format)
    ensures Ordering.Filter(table, Chosen(ids)) != [] && format in {"json", "markdown", "txt"} ==>
      r == Ok("Exported " + Text.NatToString(|Ordering.Filter(table, Chosen(ids))|) + " sessions and sent to " + email)
      && |files| == |Ordering.Filter(table, Chosen(ids))|
      && forall i :: 0 <= i < |files| ==> files[i].0 == FileName(Ordering.Filter(table, Chosen(ids))[i], format)
  {
    var chosen := Ordering.Filter(table, Chosen(ids));
    files := [];
    if chosen == [] {
      return Ok("No sessions found"), files;
    }
    var exported := ExportFiles(chosen, messages, format, name, dateTime, clock);
    if exported.Err? {
      return Err(exported.error), files;
    }
    files := exported.value;
    r := Ok("Exported " + Text.NatToString(|chosen|) + " sessions and sent to " + email);
  }
}
