/**
 * The three vendor providers of the AI model app: how each builds its request body from the
 * conversation and the optional settings, how each filters the lines of a streamed response
 * into text chunks, and the model tables behind `validate_model` and `get_model_info`. The
 * HTTP exchange is not modelled; JSON decoding of a line is an oracle `parse` that tells an
 * undecodable line from the fields the provider reads.
 */
module Providers {
  import opened Wrappers
  import opened Entities
  import Text
  import Ordering
  import MessageStore

  type ChatTurn = MessageStore.ChatTurn

  // ---------------------------------------------------------------- model tables

  /** What a provider knows about one of its models. */
  datatype ModelInfo = ModelInfo(maxTokens: int, supportsVision: bool)

  const OPENAI_MODELS: map<string, ModelInfo> := map[
    "gpt-4-turbo" := ModelInfo(128000, true),
    "gpt-4" := ModelInfo(8192, false),
    "gpt-3.5-turbo" := ModelInfo(16385, false),
    "gpt-4o" := ModelInfo(128000, true),
    "gpt-4o-mini" := ModelInfo(128000, true)]

  const ANTHROPIC_MODELS: map<string, ModelInfo> := map[
    "claude-3-opus" := ModelInfo(200000, true),
    "claude-3-sonnet" := ModelInfo(200000, true),
    "claude-3-haiku" := ModelInfo(200000, true),
    "claude-2.1" := ModelInfo(200000, false)]

  const GOOGLE_MODELS: map<string, ModelInfo> := map[
    "gemini-pro" := ModelInfo(32768, false),
    "gemini-pro-vision" := ModelInfo(32768, true),
    "gemini-1.5-pro" := ModelInfo(1048576, true),
    "gemini-1.5-flash" := ModelInfo(1048576, true)]

  /** `validate_model`: the code is one of the provider's models. */
  predicate ValidateModel(models: map<string, ModelInfo>, code: string)
  {
    code in models
  }

  /** `get_model_info`: the model's entry, or nothing (`{}`) for an unknown code. */
  function GetModelInfo(models: map<string, ModelInfo>, code: string): (r: Option<ModelInfo>)
    ensures r.Some? <==> ValidateModel(models, code)
    ensures r.Some? ==> r.value == models[code]
  {
    if code in models then Some(models[code]) else None
  }

  /** A model is looked up in its own provider's table only. */
  lemma ModelTables()
    ensures GetModelInfo(OPENAI_MODELS, "gpt-4o") == Some(ModelInfo(128000, true))
    ensures GetModelInfo(ANTHROPIC_MODELS, "claude-2.1") == Some(ModelInfo(200000, false))
    ensures GetModelInfo(GOOGLE_MODELS, "gemini-1.5-pro") == Some(ModelInfo(1048576, true))
    ensures !ValidateModel(GOOGLE_MODELS, "gpt-4")
  {
    assert forall k :: k in GOOGLE_MODELS ==> |k| >= 10;
  }

  // ---------------------------------------------------------------- settings

  const DEFAULT_TEMPERATURE: real := 0.7
  const DEFAULT_MAX_TOKENS: int := 2000

  /** The optional keyword settings a caller may pass. */
  datatype Settings = Settings(temperature: Option<real>, maxTokens: Option<int>)

  // ---------------------------------------------------------------- lines

  const DATA_PREFIX: string := "data: "
  const DONE_LINE: string := "data: [DONE]"

  // ---------------------------------------------------------------- OpenAI

  /** The OpenAI request body. */
  datatype OpenAIRequest = OpenAIRequest(model: string, messages: seq<ChatTurn>, stream: bool, temperature: real, maxTokens: int)

  /** The streaming body: the conversation as given, `stream` on, and the settings or their defaults. */
  function OpenAIBody(model: string, messages: seq<ChatTurn>, settings: Settings): (b: OpenAIRequest)
    ensures b.model == model && b.messages == messages && b.stream
    ensures b.temperature == settings.temperature.GetOr(DEFAULT_TEMPERATURE)
    ensures b.maxTokens == settings.maxTokens.GetOr(DEFAULT_MAX_TOKENS)
    ensures settings == Settings(None, None) ==> b.temperature == 0.7 && b.maxTokens == 2000
  {
    OpenAIRequest(model, messages, true, settings.temperature.GetOr(DEFAULT_TEMPERATURE), settings.maxTokens.GetOr(DEFAULT_MAX_TOKENS))
  }

  /** An OpenAI stream line after JSON decoding: undecodable, or the delta's content if it has one. */
  datatype OpenAILine = OpenAIUndecodable | OpenAIDelta(content: Option<string>)

  /** What one `data:` line other than `[DONE]` contributes: non-empty delta content. */
  function OpenAIText(payload: OpenAILine): seq<string>
  {
    if payload.OpenAIDelta? && payload.content.Some? && payload.content.value != "" then [payload.content.value] else []
  }

  /** The chunks of an OpenAI stream: `data:` lines in order, up to the first `data: [DONE]`. */
  function OpenAIChunks(lines: seq<string>, parse: string -> OpenAILine): (cs: seq<string>)
    ensures forall c :: c in cs ==> c != ""
    decreases |lines|
  {
    if lines == [] then []
    else if !Text.StartsWith(lines[0], DATA_PREFIX) then OpenAIChunks(lines[1..], parse)
    else if Text.Strip(lines[0]) == DONE_LINE then []
    else OpenAIText(parse(lines[0][6..])) + OpenAIChunks(lines[1..], parse)
  }

  /** The line loop of the OpenAI `stream_completion`. */
  method OpenAIStream(lines: seq<string>, parse: string -> OpenAILine) returns (chunks: seq<string>)
    ensures chunks == OpenAIChunks(lines, parse)
  {
    chunks := [];
    var i := 0;
    while i < |lines|
      invariant i <= |lines|
      invariant chunks + OpenAIChunks(lines[i..], parse) == OpenAIChunks(lines, parse)
    {
      var line := lines[i];
      assert lines[i..][0] == line && lines[i..][1..] == lines[i + 1..];
      if Text.StartsWith(line, DATA_PREFIX) {
        if Text.Strip(line) == DONE_LINE {
          assert chunks + [] == chunks;
          return;
        }
        var more := OpenAIText(parse(line[6..]));
        assert chunks + (more + OpenAIChunks(lines[i + 1..], parse)) == (chunks + more) + OpenAIChunks(lines[i + 1..], parse);
        chunks := chunks + more;
      }
      i := i + 1;
    }
    assert chunks + [] == chunks;
  }

  /** Nothing after the first `data: [DONE]` line reaches the caller. */
  lemma {:induction false} OpenAIStopsAtDone(lines: seq<string>, rest: seq<string>, parse: string -> OpenAILine)
    requires lines != [] && Text.StartsWith(lines[|lines| - 1], DATA_PREFIX) && Text.Strip(lines[|lines| - 1]) == DONE_LINE
    ensures OpenAIChunks(lines + rest, parse) == OpenAIChunks(lines, parse)
    decreases |lines|
  {
    var all := lines + rest;
    assert all[0] == lines[0];
    if |lines| > 1 {
      assert all[1..] == lines[1..] + rest;
      OpenAIStopsAtDone(lines[1..], rest, parse);
    }
  }

  /** Lines that are not `data:` lines are ignored wherever they appear. */
  lemma {:induction false} OpenAIIgnoresOtherLines(lines: seq<string>, parse: string -> OpenAILine)
    requires forall i :: 0 <= i < |lines| ==> !Text.StartsWith(lines[i], DATA_PREFIX)
    ensures OpenAIChunks(lines, parse) == []
    decreases |lines|
  {
    if lines != [] {
      OpenAIIgnoresOtherLines(lines[1..], parse);
    }
  }

  // ---------------------------------------------------------------- Anthropic

  /** The Anthropic request body; `system` is present only with a non-empty system text. */
  datatype AnthropicRequest = AnthropicRequest(model: string, messages: seq<ChatTurn>, stream: bool,
                                               maxTokens: int, temperature: real, system: Option<string>)

  predicate IsSystem(m: ChatTurn) { m.role == ROLE_SYSTEM }

  predicate NotSystem(m: ChatTurn) { m.role != ROLE_SYSTEM }

  /** The content of the last system message, if any. */
  function LastSystem(messages: seq<ChatTurn>): (r: Option<string>)
    ensures r.None? <==> forall i :: 0 <= i < |messages| ==> !IsSystem(messages[i])
    ensures r.Some? ==> exists i :: 0 <= i < |messages| && IsSystem(messages[i]) && r.value == messages[i].content
                                   && forall j :: i < j < |messages| ==> !IsSystem(messages[j])
  {
    if messages == [] then None
    else if IsSystem(messages[|messages| - 1]) then Some(messages[|messages| - 1].content)
    else
      var init := messages[..|messages| - 1];
      var r := LastSystem(init);
      assert forall i :: 0 <= i < |init| ==> init[i] == messages[i];
      r
  }

  /** The loop that takes the system messages out of the conversation. */
  method SplitSystem(messages: seq<ChatTurn>) returns (system: Option<string>, filtered: seq<ChatTurn>)
    ensures system == LastSystem(messages)
    ensures filtered == Ordering.Filter(messages, NotSystem)
  {
    system, filtered := None, [];
    for i := 0 to |messages|
      invariant system == LastSystem(messages[..i])
      invariant filtered == Ordering.Filter(messages[..i], NotSystem)
    {
      Ordering.FilterPrefix(messages, i, NotSystem);
      assert messages[..i + 1][..i] == messages[..i];
      if messages[i].role == ROLE_SYSTEM {
        system := Some(messages[i].content);
      } else {
        filtered := filtered + [messages[i]];
      }
    }
    assert messages[..|messages|] == messages;
  }

  /** The Anthropic streaming body. */
  method AnthropicBody(model: string, messages: seq<ChatTurn>, settings: Settings) returns (b: AnthropicRequest)
    ensures forall m :: m in b.messages <==> m in messages && m.role != ROLE_SYSTEM
    ensures b.messages == Ordering.Filter(messages, NotSystem)
    ensures b.system.Some? <==> LastSystem(messages).Some? && LastSystem(messages).value != ""
    ensures b.system.Some? ==> b.system == LastSystem(messages)
    ensures b.stream && b.model == model
    ensures b.maxTokens == settings.maxTokens.GetOr(DEFAULT_MAX_TOKENS)
    ensures b.temperature == settings.temperature.GetOr(DEFAULT_TEMPERATURE)
  {
    var system, filtered := SplitSystem(messages);
    b := AnthropicRequest(model, filtered, true, settings.maxTokens.GetOr(DEFAULT_MAX_TOKENS),
                          settings.temperature.GetOr(DEFAULT_TEMPERATURE), None);
    if system.Some? && system.value != "" {
      b := b.(system := system);
    }
  }

  /** An Anthropic stream line after JSON decoding: undecodable, or an event with its type and delta text. */
  datatype AnthropicLine = AnthropicUndecodable | AnthropicEvent(eventType: string, text: string)

  const CONTENT_BLOCK_DELTA: string := "content_block_delta"

  function AnthropicText(payload: AnthropicLine): seq<string>
  {
    if payload.AnthropicEvent? && payload.eventType == CONTENT_BLOCK_DELTA then [payload.text] else []
  }

  /** The chunks of an Anthropic stream: the delta text of each `content_block_delta` event, in line order. */
  function AnthropicChunks(lines: seq<string>, parse: string -> AnthropicLine): seq<string>
    decreases |lines|
  {
    if lines == [] then []
    else (if Text.StartsWith(lines[0], DATA_PREFIX) then AnthropicText(parse(lines[0][6..])) else [])
         + AnthropicChunks(lines[1..], parse)
  }

  /** The line loop of the Anthropic `stream_completion`. */
  method AnthropicStream(lines: seq<string>, parse: string -> AnthropicLine) returns (chunks: seq<string>)
    ensures chunks == AnthropicChunks(lines, parse)
  {
    chunks := [];
    for i := 0 to |lines|
      invariant chunks + AnthropicChunks(lines[i..], parse) == AnthropicChunks(lines, parse)
    {
      var line := lines[i];
      assert lines[i..][0] == line && lines[i..][1..] == lines[i + 1..];
      var more := if Text.StartsWith(line, DATA_PREFIX) then AnthropicText(parse(line[6..])) else [];
      assert chunks + (more + AnthropicChunks(lines[i + 1..], parse)) == (chunks + more) + AnthropicChunks(lines[i + 1..], parse);
      chunks := chunks + more;
    }
    assert lines[|lines|..] == [];
    assert chunks + [] == chunks;
  }

  /** Every Anthropic chunk is the text of some decoded `content_block_delta` line. */
  lemma {:induction false} AnthropicChunksFromDeltas(lines: seq<string>, parse: string -> AnthropicLine, c: string)
    requires c in AnthropicChunks(lines, parse)
    ensures exists i :: 0 <= i < |lines| && Text.StartsWith(lines[i], DATA_PREFIX)
                        && parse(lines[i][6..]) == AnthropicEvent(CONTENT_BLOCK_DELTA, c)
    decreases |lines|
  {
    var head := if Text.StartsWith(lines[0], DATA_PREFIX) then AnthropicText(parse(lines[0][6..])) else [];
    if c in head {
      assert Text.StartsWith(lines[0], DATA_PREFIX) && parse(lines[0][6..]) == AnthropicEvent(CONTENT_BLOCK_DELTA, c);
    } else {
      AnthropicChunksFromDeltas(lines[1..], parse, c);
      var i :| 0 <= i < |lines[1..]| && Text.StartsWith(lines[1..][i], DATA_PREFIX)
               && parse(lines[1..][i][6..]) == AnthropicEvent(CONTENT_BLOCK_DELTA, c);
      assert lines[1..][i] == lines[i + 1];
    }
  }

  // ---------------------------------------------------------------- Google

  /** One entry of a Gemini conversation: a role and a single text part. */
  datatype Content = Content(role: string, parts: seq<string>)

  /** A Gemini request body. */
  datatype GoogleRequest = GoogleRequest(contents: seq<Content>, temperature: real, maxOutputTokens: int)

  /** The Gemini role of a message: `user` stays `user`, every other role becomes `model`. */
  function GeminiRole(role: string): string
  {
    if role == ROLE_USER then "user" else "model"
  }

  /** The conversion loop of the Google `stream_completion`, and the generation settings. */
  method GoogleBody(messages: seq<ChatTurn>, settings: Settings) returns (b: GoogleRequest)
    ensures |b.contents| == |messages|
    ensures forall i :: 0 <= i < |messages| ==>
              b.contents[i].parts == [messages[i].content]
              && (b.contents[i].role == "user" <==> messages[i].role == ROLE_USER)
              && (b.contents[i].role != "user" ==> b.contents[i].role == "model")
    ensures b.temperature == settings.temperature.GetOr(DEFAULT_TEMPERATURE)
    ensures b.maxOutputTokens == settings.maxTokens.GetOr(DEFAULT_MAX_TOKENS)
  {
    var contents: seq<Content> := [];
    for i := 0 to |messages|
      invariant |contents| == i
      invariant forall j :: 0 <= j < i ==> contents[j] == Content(GeminiRole(messages[j].role), [messages[j].content])
    {
      contents := contents + [Content(GeminiRole(messages[i].role), [messages[i].content])];
    }
    b := GoogleRequest(contents, settings.temperature.GetOr(DEFAULT_TEMPERATURE), settings.maxTokens.GetOr(DEFAULT_MAX_TOKENS));
  }

  /** A Gemini stream line after JSON decoding: undecodable, or whether it has candidates and the first part's text. */
  datatype GoogleLine = GoogleUndecodable | GoogleChunk(hasCandidates: bool, text: string)

  /** What one Gemini line contributes: nothing when it is empty, undecodable or without candidates. */
  function GoogleText(line: string, parse: string -> GoogleLine): seq<string>
  {
    if line != "" && parse(line).GoogleChunk? && parse(line).hasCandidates then [parse(line).text] else []
  }

  /** The chunks of a Gemini stream: non-empty lines that decode to a chunk with candidates, in line order. */
  function GoogleChunks(lines: seq<string>, parse: string -> GoogleLine): seq<string>
    decreases |lines|
  {
    if lines == [] then []
    else GoogleText(lines[0], parse) + GoogleChunks(lines[1..], parse)
  }

  /** The line loop of the Google `stream_completion`. */
  method GoogleStream(lines: seq<string>, parse: string -> GoogleLine) returns (chunks: seq<string>)
    ensures chunks == GoogleChunks(lines, parse)
  {
    chunks := [];
    for i := 0 to |lines|
      invariant chunks + GoogleChunks(lines[i..], parse) == GoogleChunks(lines, parse)
    {
      var line := lines[i];
      assert lines[i..][0] == line && lines[i..][1..] == lines[i + 1..];
      var more := GoogleText(line, parse);
      assert chunks + (more + GoogleChunks(lines[i + 1..], parse)) == (chunks + more) + GoogleChunks(lines[i + 1..], parse);
      chunks := chunks + more;
    }
    assert lines[|lines|..] == [];
    assert chunks + [] == chunks;
  }

  /** Empty and undecodable lines, and lines without candidates, add nothing: the stream is the same without them. */
  lemma {:induction false} GoogleSkipsLine(before: seq<string>, line: string, after: seq<string>, parse: string -> GoogleLine)
    requires line == "" || parse(line).GoogleUndecodable? || !parse(line).hasCandidates
    ensures GoogleChunks(before + [line] + after, parse) == GoogleChunks(before + after, parse)
    decreases |before|
  {
    if before == [] {
      assert before + [line] + after == [line] + after;
      assert ([line] + after)[1..] == after;
      assert before + after == after;
    } else {
      var x := before + [line] + after;
      var y := before + after;
      assert x[0] == y[0] == before[0];
      assert x[1..] == before[1..] + [line] + after;
      assert y[1..] == before[1..] + after;
      GoogleSkipsLine(before[1..], line, after, parse);
    }
  }
}
