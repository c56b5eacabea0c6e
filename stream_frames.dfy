/**
 * The text protocol of the message app's `stream` action: each non-empty provider chunk is
 * escaped and framed as `a0:"…"` (model A, or the only model in direct mode) or `b0:"…"`
 * (model B), and each branch ends with an `ad:`/`bd:` frame carrying the finish reason.
 * Escaping doubles backslashes, writes a line feed as `\n` and drops carriage returns; a
 * double quote is left as it is, unlike in a JSON string (section 7 of RFC 8259).
 */
module StreamFrames {
  import opened Wrappers
  import opened Entities
  import opened Ordering
  import Text
  import MessageRules

  // ---------------------------------------------------------------- escaping

  /** `chunk.replace('\\', '\\\\').replace('\n', '\\n').replace('\r', '')`, three passes as written. */
  function Escape(chunk: string): string
  {
    Text.ReplaceChar(Text.ReplaceChar(Text.ReplaceChar(chunk, '\\', "\\\\"), '\n', "\\n"), '\r', "")
  }

  /** What the three passes do to one character. */
  function EscapeChar(c: char): string
  {
    if c == '\\' then "\\\\" else if c == '\n' then "\\n" else if c == '\r' then "" else [c]
  }

  /** The three passes as one pass over the characters. */
  function EscapeEach(s: string): string
  {
    if s == [] then [] else EscapeChar(s[0]) + EscapeEach(s[1..])
  }

  /** Replacing a character distributes over concatenation. */
  lemma {:induction false} ReplaceAppend(a: string, b: string, c: char, r: string)
    ensures Text.ReplaceChar(a + b, c, r) == Text.ReplaceChar(a, c, r) + Text.ReplaceChar(b, c, r)
  {
    if a != [] {
      assert (a + b)[0] == a[0] && (a + b)[1..] == a[1..] + b;
      ReplaceAppend(a[1..], b, c, r);
      var h := if a[0] == c then r else [a[0]];
      assert Text.ReplaceChar(a + b, c, r) == h + Text.ReplaceChar(a[1..] + b, c, r);
      assert Text.ReplaceChar(a, c, r) == h + Text.ReplaceChar(a[1..], c, r);
    } else {
      assert a + b == b;
    }
  }

  /** The three passes never interfere: escaping is the character-wise map. */
  lemma {:induction false} EscapeIsEach(s: string)
    ensures Escape(s) == EscapeEach(s)
  {
    if s != [] {
      var c, rest := s[0], s[1..];
      assert s == [c] + rest;
      ReplaceAppend([c], rest, '\\', "\\\\");
      var p1 := Text.ReplaceChar([c], '\\', "\\\\");
      var q1 := Text.ReplaceChar(rest, '\\', "\\\\");
      ReplaceAppend(p1, q1, '\n', "\\n");
      var p2 := Text.ReplaceChar(p1, '\n', "\\n");
      var q2 := Text.ReplaceChar(q1, '\n', "\\n");
      ReplaceAppend(p2, q2, '\r', "");
      assert Text.ReplaceChar(Text.ReplaceChar(p1, '\n', "\\n"), '\r', "") == EscapeChar(c);
      EscapeIsEach(rest);
    }
  }

  /** The client's decoding of a frame payload: `\\` is a backslash, `\n` a line feed. */
  function Unescape(t: string): string
    decreases |t|
  {
    if t == [] then []
    else if t[0] == '\\' && |t| >= 2 && t[1] == '\\' then "\\" + Unescape(t[2..])
    else if t[0] == '\\' && |t| >= 2 && t[1] == 'n' then "\n" + Unescape(t[2..])
    else [t[0]] + Unescape(t[1..])
  }

  /** The chunk without its carriage returns. */
  function DropCR(s: string): string
  {
    Text.ReplaceChar(s, '\r', "")
  }

  /** Decoding an escaped chunk gives back the chunk, less its carriage returns. */
  lemma {:induction false} UnescapeEscape(s: string)
    ensures Unescape(Escape(s)) == DropCR(s)
  {
    EscapeIsEach(s);
    UnescapeEach(s);
  }

  lemma {:induction false} UnescapeEach(s: string)
    ensures Unescape(EscapeEach(s)) == DropCR(s)
  {
    if s != [] {
      var c, rest := s[0], s[1..];
      UnescapeEach(rest);
      assert s == [c] + rest;
      ReplaceAppend([c], rest, '\r', "");
      var e := EscapeEach(rest);
      if c == '\\' {
        assert EscapeEach(s) == "\\\\" + e;
        assert ("\\\\" + e)[2..] == e;
      } else if c == '\n' {
        assert EscapeEach(s) == "\\n" + e;
        assert ("\\n" + e)[2..] == e;
      } else if c == '\r' {
        assert EscapeEach(s) == e;
      } else {
        assert EscapeEach(s) == [c] + e;
        assert ([c] + e)[1..] == e;
      }
    }
  }

  /** An escaped chunk holds no raw line break, so a frame stays on one line; a double quote passes through unescaped. */
  lemma EscapeShape(s: string)
    ensures '\n' !in Escape(s) && '\r' !in Escape(s)
    ensures '"' in s ==> '"' in Escape(s)
  {
    EscapeIsEach(s);
    if '"' in s {
      QuoteKept(s);
    }
  }

  lemma {:induction false} QuoteKept(s: string)
    requires '"' in s
    ensures '"' in EscapeEach(s)
  {
    if s[0] != '"' {
      QuoteKept(s[1..]);
    }
  }

  // ---------------------------------------------------------------- frames

  /** A content frame: `a0:"<escaped>"` or `b0:"<escaped>"`, then a line feed. */
  function ChunkFrame(side: char, chunk: string): string
  {
    [side] + "0:\"" + Escape(chunk) + "\"\n"
  }

  /** The closing frame: finish reason `stop`, or `error` with the error text. */
  function DoneFrame(side: char, failure: Option<string>): string
  {
    if failure.None? then [side] + "d:{\"finishReason\":\"stop\"}\n"
    else [side] + "d:{\"finishReason\":\"error\",\"error\":\"" + failure.value + "\"}\n"
  }

  /** The chunks a branch emits and accumulates: the non-empty ones. */
  function NonEmpty(chunks: seq<string>): (r: seq<string>)
    ensures forall c :: c in r <==> c in chunks && c != ""
  {
    Filter(chunks, Emitted)
  }

  /** Whether a branch emits and keeps a chunk. */
  predicate Emitted(chunk: string) { chunk != "" }

  /** The content frames of some chunks, in order. */
  function ChunkFrames(side: char, chunks: seq<string>): (fs: seq<string>)
    ensures |fs| == |chunks|
    ensures forall i :: 0 <= i < |chunks| ==> fs[i] == ChunkFrame(side, chunks[i])
  {
    seq(|chunks|, i requires 0 <= i < |chunks| => ChunkFrame(side, chunks[i]))
  }

  /** The status the stream action writes when a provider raises; it is none of the four statuses a message declares. */
  const STATUS_ERROR: string := "error"

  lemma ErrorStatusUndeclared()
    ensures !IsStatus(STATUS_ERROR)
  {
  }

  /** What one branch of the `stream` action produced. */
  datatype BranchRun = BranchRun(frames: seq<string>, content: string, stored: Message)

  /** One more chunk: a non-empty one adds one frame and its text, an empty one nothing. */
  lemma BranchStep(side: char, chunks: seq<string>, i: nat)
    requires i < |chunks|
    ensures ChunkFrames(side, NonEmpty(chunks[..i + 1]))
            == ChunkFrames(side, NonEmpty(chunks[..i])) + (if chunks[i] != "" then [ChunkFrame(side, chunks[i])] else [])
    ensures Flatten(NonEmpty(chunks[..i + 1])) == Flatten(NonEmpty(chunks[..i])) + (if chunks[i] != "" then chunks[i] else "")
  {
    FilterPrefix(chunks, i, Emitted);
    var prev := NonEmpty(chunks[..i]);
    if chunks[i] != "" {
      var next := prev + [chunks[i]];
      assert next[..|next| - 1] == prev;
    } else {
      assert prev + [] == prev;
      assert NonEmpty(chunks[..i + 1]) == prev;
      assert Flatten(prev) + "" == Flatten(prev);
    }
  }

  /**
   * One branch of the `stream` action (the direct-mode generator, or a compare-mode worker)
   * for a provider that delivers `chunks` and then ends, or raises `failure`: each non-empty
   * chunk is accumulated and framed; then the message is saved as a success with the whole
   * content, or only its status is set to `error`, and the closing frame follows.
   */
  method RunBranch(side: char, reply: Message, chunks: seq<string>, failure: Option<string>) returns (run: BranchRun)
    ensures run.frames == ChunkFrames(side, NonEmpty(chunks)) + [DoneFrame(side, failure)]
    ensures run.content == Flatten(NonEmpty(chunks))
    ensures failure.None? ==> run.stored == reply.(content := run.content, status := STATUS_SUCCESS)
    ensures failure.Some? ==> run.stored == reply.(status := STATUS_ERROR)
  {
    var frames: seq<string> := [];
    var content := "";
    for i := 0 to |chunks|
      invariant frames == ChunkFrames(side, NonEmpty(chunks[..i]))
      invariant content == Flatten(NonEmpty(chunks[..i]))
    {
      BranchStep(side, chunks, i);
      if chunks[i] != "" {
        content := content + chunks[i];
        frames := frames + [ChunkFrame(side, chunks[i])];
      }
    }
    assert chunks[..|chunks|] == chunks;
    var stored: Message;
    if failure.None? {
      stored := reply.(content := content, status := STATUS_SUCCESS);
    } else {
      stored := reply.(status := STATUS_ERROR);
    }
    run := BranchRun(frames + [DoneFrame(side, failure)], content, stored);
  }

  /** The payload of a content frame, between `<side>0:"` and the closing `"` and line feed. */
  function Payload(frame: string): string
  {
    if |frame| >= 6 then frame[4..|frame| - 2] else ""
  }

  /** A client that strips the framing and decodes each payload rebuilds the content, less its carriage returns. */
  lemma {:induction false} FramesRebuildContent(side: char, chunks: seq<string>)
    ensures Flatten(seq(|chunks|, i requires 0 <= i < |chunks| => Unescape(Payload(ChunkFrame(side, chunks[i])))))
            == DropCR(Flatten(chunks))
  {
    var decoded := seq(|chunks|, i requires 0 <= i < |chunks| => Unescape(Payload(ChunkFrame(side, chunks[i]))));
    if chunks != [] {
      var n := |chunks| - 1;
      var init := chunks[..n];
      FramesRebuildContent(side, init);
      var f := ChunkFrame(side, chunks[n]);
      assert Payload(f) == Escape(chunks[n]);
      UnescapeEscape(chunks[n]);
      assert decoded[..n] == seq(|init|, i requires 0 <= i < |init| => Unescape(Payload(ChunkFrame(side, init[i]))));
      ReplaceAppend(Flatten(init), chunks[n], '\r', "");
    }
  }

  // ---------------------------------------------------------------- request routing

  /** The requests of one `stream` call, sorted by where they go. */
  datatype Routed = Routed(
    user: Option<MessageRules.StreamSettings>,
    direct: Option<MessageRules.StreamSettings>,
    branchA: Option<MessageRules.StreamSettings>,
    branchB: Option<MessageRules.StreamSettings>)

  /** The last request satisfying `p`, if any. */
  function LastWhere(items: seq<MessageRules.StreamSettings>, p: MessageRules.StreamSettings -> bool)
    : (r: Option<MessageRules.StreamSettings>)
    ensures r.Some? <==> exists i :: 0 <= i < |items| && p(items[i])
    ensures r.Some? ==> r.value in items && p(r.value)
  {
    if items == [] then None
    else if p(items[|items| - 1]) then Some(items[|items| - 1])
    else
      var r := LastWhere(items[..|items| - 1], p);
      assert forall i :: 0 <= i < |items| - 1 ==> items[..|items| - 1][i] == items[i];
      r
  }

  /** Extending a prefix by one request moves the last match to it exactly when it matches. */
  lemma LastWhereStep(items: seq<MessageRules.StreamSettings>, i: nat, p: MessageRules.StreamSettings -> bool)
    requires i < |items|
    ensures LastWhere(items[..i + 1], p) == if p(items[i]) then Some(items[i]) else LastWhere(items[..i], p)
  {
    assert items[..i + 1][..i] == items[..i];
  }

  function IsUserItem(x: MessageRules.StreamSettings): bool { x.role == ROLE_USER }
  function IsAssistantItem(x: MessageRules.StreamSettings): bool { x.role == ROLE_ASSISTANT }
  function IsBranchA(x: MessageRules.StreamSettings): bool { x.role == ROLE_ASSISTANT && x.participant == Some(PARTICIPANT_A) }
  function IsBranchB(x: MessageRules.StreamSettings): bool { x.role == ROLE_ASSISTANT && x.participant != Some(PARTICIPANT_A) }

  /**
   * The routing loop of `stream`: the last user request is the prompt; in direct mode the
   * last assistant request is the reply; otherwise an assistant request with participant a
   * goes to branch A and any other participant to branch B (a later request replaces an
   * earlier one). An assistant request without a participant outside direct mode raises.
   */
  method Route(mode: string, items: seq<MessageRules.StreamSettings>) returns (r: Result<Routed>)
    ensures r.Err? <==> mode != MODE_DIRECT && exists i :: 0 <= i < |items| && items[i].role == ROLE_ASSISTANT && items[i].participant.None?
    ensures r.Ok? ==> r.value.user == LastWhere(items, IsUserItem)
    ensures r.Ok? && mode == MODE_DIRECT ==> r.value.direct == LastWhere(items, IsAssistantItem)
                                             && r.value.branchA.None? && r.value.branchB.None?
    ensures r.Ok? && mode != MODE_DIRECT ==> r.value.direct.None? && r.value.branchA == LastWhere(items, IsBranchA)
                                             && r.value.branchB == LastWhere(items, IsBranchB)
  {
    var routed := Routed(None, None, None, None);
    for i := 0 to |items|
      invariant forall j :: 0 <= j < i ==> !(mode != MODE_DIRECT && items[j].role == ROLE_ASSISTANT && items[j].participant.None?)
      invariant routed == RoutedPrefix(mode, items[..i])
    {
      var x := items[i];
      RoutedStep(mode, items, i);
      if x.role == ROLE_USER {
        routed := routed.(user := Some(x));
      } else if x.role == ROLE_ASSISTANT {
        if mode == MODE_DIRECT {
          routed := routed.(direct := Some(x));
        } else if x.participant.None? {
          return Err("KeyError: 'participant'");
        } else if x.participant == Some(PARTICIPANT_A) {
          routed := routed.(branchA := Some(x));
        } else {
          routed := routed.(branchB := Some(x));
        }
      }
    }
    assert items[..|items|] == items;
    r := Ok(routed);
  }

  /** Where the requests `items` go when none of them raises: the last match of each kind. */
  ghost function RoutedPrefix(mode: string, items: seq<MessageRules.StreamSettings>): Routed
  {
    if mode == MODE_DIRECT then Routed(LastWhere(items, IsUserItem), LastWhere(items, IsAssistantItem), None, None)
    else Routed(LastWhere(items, IsUserItem), None, LastWhere(items, IsBranchA), LastWhere(items, IsBranchB))
  }

  /** One more request replaces exactly the slot it routes to. */
  lemma RoutedStep(mode: string, items: seq<MessageRules.StreamSettings>, i: nat)
    requires i < |items|
    ensures var before, x := RoutedPrefix(mode, items[..i]), items[i];
            RoutedPrefix(mode, items[..i + 1]) ==
              if x.role == ROLE_USER then before.(user := Some(x))
              else if x.role != ROLE_ASSISTANT then before
              else if mode == MODE_DIRECT then before.(direct := Some(x))
              else if x.participant == Some(PARTICIPANT_A) then before.(branchA := Some(x))
              else before.(branchB := Some(x))
  {
    LastWhereStep(items, i, IsUserItem);
    LastWhereStep(items, i, IsAssistantItem);
    LastWhereStep(items, i, IsBranchA);
    LastWhereStep(items, i, IsBranchB);
  }

  /**
   * The checks `stream` makes before writing anything: the requests must validate, a
   * session id must be given (400 otherwise), and it must name a session of the requester
   * (404 otherwise).
   */
  function StreamSession(validated: bool, sessionId: Option<Id>, sessions: map<Id, ChatSession>, requester: Id)
    : (r: Result<ChatSession>)
    ensures r.Ok? <==> validated && sessionId.Some? && sessionId.value != "" && sessionId.value in sessions
                       && sessions[sessionId.value].user == requester
    ensures r.Ok? ==> r.value == sessions[sessionId.value]
    ensures validated && (sessionId.None? || sessionId.value == "") ==> r == Err("session_id is required")
  {
    if !validated then Err("invalid request")
    else if sessionId.None? || sessionId.value == "" then Err("session_id is required")
    else if sessionId.value !in sessions || sessions[sessionId.value].user != requester then Err("Not found.")
    else Ok(sessions[sessionId.value])
  }
}
