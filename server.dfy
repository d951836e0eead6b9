/**
 * The chat endpoint's event stream and the CORS origin setting (agent/server.py).
 *
 * `generate_events` reads the agent SDK's messages one by one and turns them into server-sent
 * events; at the final result it also saves the session transcript. Here the SDK's messages are
 * a sequence of `Arrival`s, each a message or the exception raised at that point, and the save
 * is returned as a `Save` request for the session storage. `json.dumps` of a transcript entry is
 * the parameter `encode`, `str(list)` of a tool result's content is the parameter `show`, and the
 * two `datetime.utcnow().isoformat()` timestamps are the strings `queryTime` and `resultTime`.
 */
module Server {
  import opened Wrappers
  import opened Text
  import Json
  import Config
  import Transcript

  /* ---------------- CORS origins ---------------- */

  const DefaultCorsOrigins: string := "http://localhost:5173"
  const CloudFrontOrigins: string := "https://*.cloudfront.net"

  /** `[o.strip() for o in parts if o.strip()]`. */
  function NonBlankStripped(parts: seq<string>): (r: seq<string>)
    ensures |r| <= |parts|
    ensures forall i :: 0 <= i < |r| ==> r[i] != [] && Trimmed(r[i])
  {
    if parts == [] then []
    else if Strip(parts[0]) != [] then [Strip(parts[0])] + NonBlankStripped(parts[1..])
    else NonBlankStripped(parts[1..])
  }

  /** Stripping only removes characters. */
  lemma StripKeepsOut(s: string, c: char)
    requires c !in s
    ensures c !in Strip(s)
  {
    var l := TrimLeft(s);
    var r := TrimRight(l);
    TrimLeftSuffix(s);
    TrimRightPrefix(l);
    forall i | 0 <= i < |r|
      ensures r[i] != c
    {
      assert r[i] == l[i] == s[|s| - |l| + i];
    }
  }

  lemma {:induction false} NonBlankStrippedKeepsOut(parts: seq<string>, c: char)
    requires forall i :: 0 <= i < |parts| ==> c !in parts[i]
    ensures forall i :: 0 <= i < |NonBlankStripped(parts)| ==> c !in NonBlankStripped(parts)[i]
  {
    if parts != [] {
      NonBlankStrippedKeepsOut(parts[1..], c);
      StripKeepsOut(parts[0], c);
    }
  }

  /** The origins listed in a comma-separated setting: each entry trimmed, blank entries dropped. */
  function ParseOrigins(setting: string): (origins: seq<string>)
    ensures forall i :: 0 <= i < |origins| ==> origins[i] != [] && Trimmed(origins[i]) && ',' !in origins[i]
  {
    var parts := Split(setting, ',');
    NonBlankStrippedKeepsOut(parts, ',');
    NonBlankStripped(parts)
  }

  lemma NonBlankStrippedCons(x: string, rest: seq<string>)
    requires x != [] && Trimmed(x)
    ensures NonBlankStripped([x] + rest) == [x] + NonBlankStripped(rest)
  {
    StripTrimmed(x);
    assert ([x] + rest)[0] == x && ([x] + rest)[1..] == rest;
  }

  lemma {:induction false} NonBlankStrippedOfClean(xs: seq<string>)
    requires forall i :: 0 <= i < |xs| ==> xs[i] != [] && Trimmed(xs[i])
    ensures NonBlankStripped(xs) == xs
  {
    if xs != [] {
      var rest := xs[1..];
      assert forall i :: 0 <= i < |rest| ==> rest[i] == xs[i + 1];
      NonBlankStrippedOfClean(rest);
      NonBlankStrippedCons(xs[0], rest);
      assert [xs[0]] + rest == xs;
    }
  }

  /** Any list of clean origins written as a comma-separated setting is read back unchanged. */
  lemma ParseOriginsJoin(origins: seq<string>)
    requires forall i :: 0 <= i < |origins| ==> origins[i] != [] && Trimmed(origins[i]) && ',' !in origins[i]
    ensures ParseOrigins(Join(origins, ',')) == origins
  {
    if origins == [] {
      assert Split("", ',') == [""];
      assert Strip("") == [];
    } else {
      SplitJoin(origins, ',');
      NonBlankStrippedOfClean(origins);
    }
  }

  /** ENV_NAME names a deployed stage. */
  predicate IsDeployed(env: Config.Env) {
    Config.Get(env, "ENV_NAME") == Some("prod") || Config.Get(env, "ENV_NAME") == Some("staging")
  }

  /** The allowed origins: CORS_ORIGINS (or the local default) plus, when deployed, CloudFront. */
  function CorsOrigins(env: Config.Env): (origins: seq<string>)
    ensures IsDeployed(env) ==>
      origins == ParseOrigins(Config.GetOr(env, "CORS_ORIGINS", DefaultCorsOrigins)) + [CloudFrontOrigins]
    ensures !IsDeployed(env) ==> origins == ParseOrigins(Config.GetOr(env, "CORS_ORIGINS", DefaultCorsOrigins))
  {
    var listed := ParseOrigins(Config.GetOr(env, "CORS_ORIGINS", DefaultCorsOrigins));
    if IsDeployed(env) then listed + [CloudFrontOrigins] else listed
  }

  /** Every allowed origin is non-empty and carries no surrounding whitespace. */
  lemma CorsOriginsClean(env: Config.Env)
    ensures forall i :: 0 <= i < |CorsOrigins(env)| ==> CorsOrigins(env)[i] != [] && Trimmed(CorsOrigins(env)[i])
  {
    var listed := ParseOrigins(Config.GetOr(env, "CORS_ORIGINS", DefaultCorsOrigins));
    if IsDeployed(env) {
      OriginsAppend(listed, CloudFrontOrigins);
    }
  }

  lemma OriginsAppend(listed: seq<string>, origin: string)
    requires forall i :: 0 <= i < |listed| ==> listed[i] != [] && Trimmed(listed[i])
    requires origin != [] && Trimmed(origin)
    ensures forall i :: 0 <= i < |listed + [origin]| ==> (listed + [origin])[i] != [] && Trimmed((listed + [origin])[i])
  {
  }

  /** Without CORS_ORIGINS and ENV_NAME only the local development server is allowed. */
  lemma CorsDefault(env: Config.Env)
    requires "CORS_ORIGINS" !in env && "ENV_NAME" !in env
    ensures CorsOrigins(env) == [DefaultCorsOrigins]
  {
    assert ',' !in DefaultCorsOrigins;
    assert Trimmed(DefaultCorsOrigins);
    ParseOriginsJoin([DefaultCorsOrigins]);
  }

  /* ---------------- the agent SDK's messages ---------------- */

  /** A tool result block's `content`: None, a string, or a list of content dicts. */
  datatype ToolContent = NoContent | TextContent(text: string) | ListContent(items: seq<Json.Value>)

  datatype ContentBlock =
    | ToolResultBlock(toolUseId: string, content: ToolContent, isError: Option<bool>)
    | OtherBlock

  /** A `content_block_delta`'s delta; a missing `text` is the empty text. */
  datatype Delta = TextDelta(text: string) | InputJsonDelta | OtherDelta

  /** A `content_block_start`'s block; `id` and `name` are None when the key is missing. */
  datatype StartBlock = ToolUseBlock(id: Option<string>, name: Option<string>) | OtherStartBlock

  /** The raw API event of a StreamEvent, by its `type`. */
  datatype ApiEvent = ContentBlockDelta(delta: Delta) | ContentBlockStart(block: StartBlock) | OtherApiEvent

  datatype SdkMessage =
    | SystemMessage(subtype: string, data: map<string, string>)
    | StreamEvent(event: ApiEvent)
    | UserMessage(blocks: seq<ContentBlock>)
    | ResultMessage(result: Option<string>, cost: Json.Value, durationMs: Json.Value, numTurns: Json.Value)
    | OtherMessage

  /** What the SDK hands over next: a message, or the exception it raised. */
  datatype Arrival = Received(msg: SdkMessage) | Raised(error: string)

  /** An arrival after which the stream ends. */
  predicate Stops(a: Arrival) {
    a.Raised? || a.msg.ResultMessage?
  }

  /* ---------------- the server-sent events ---------------- */

  const ToolResultLimit: nat := 500

  datatype SseEvent =
    | SessionInitEvent(sessionId: string)
    | TextDeltaEvent(content: string)
    | ToolUseEvent(toolId: Option<string>, toolName: string)
    | ToolResultEvent(toolUseId: string, content: string, isError: Option<bool>)
    | ResultEvent(result: Option<string>, cost: Json.Value, durationMs: Json.Value, numTurns: Json.Value)
    | ErrorEvent(content: string)

  function OptionalStr(o: Option<string>): Json.Value {
    match o
    case Some(s) => Json.Str(s)
    case None => Json.Null
  }

  function OptionalBool(o: Option<bool>): Json.Value {
    match o
    case Some(b) => Json.Bool(b)
    case None => Json.Null
  }

  /** The dict serialised into an event's `data`. */
  function Payload(e: SseEvent): (v: Json.Value)
    ensures v.Obj? && "type" in v.fields && v.fields["type"].Str?
  {
    match e
    case SessionInitEvent(id) =>
      Json.Obj(map["type" := Json.Str("session_init"), "session_id" := Json.Str(id)])
    case TextDeltaEvent(text) =>
      Json.Obj(map["type" := Json.Str("text_delta"), "content" := Json.Str(text)])
    case ToolUseEvent(id, name) =>
      Json.Obj(map["type" := Json.Str("tool_use"), "tool_id" := OptionalStr(id),
                   "tool_name" := Json.Str(name), "tool_input" := Json.Obj(map[])])
    case ToolResultEvent(id, content, isError) =>
      Json.Obj(map["type" := Json.Str("tool_result"), "tool_id" := Json.Str(id),
                   "content" := Json.Str(content), "is_error" := OptionalBool(isError)])
    case ResultEvent(result, cost, duration, turns) =>
      Json.Obj(map["type" := Json.Str("result"), "result" := OptionalStr(result), "cost" := cost,
                   "duration_ms" := duration, "num_turns" := turns])
    case ErrorEvent(message) =>
      Json.Obj(map["type" := Json.Str("error"), "content" := Json.Str(message)])
  }

  function StrField(f: map<string, Json.Value>, key: string): Option<string> {
    if key in f && f[key].Str? then Some(f[key].s) else None
  }

  /** A string-or-null field: Some(None) for null. */
  function OptionalStrField(f: map<string, Json.Value>, key: string): Option<Option<string>> {
    if key !in f then None
    else if f[key].Str? then Some(Some(f[key].s))
    else if f[key].Null? then Some(None)
    else None
  }

  /** How a client reads an event's `data` back. */
  function EventOf(v: Json.Value): Option<SseEvent> {
    if !v.Obj? || StrField(v.fields, "type").None? then None
    else
      var f := v.fields;
      var kind := f["type"].s;
      if kind == "session_init" && StrField(f, "session_id").Some? then
        Some(SessionInitEvent(f["session_id"].s))
      else if kind == "text_delta" && StrField(f, "content").Some? then
        Some(TextDeltaEvent(f["content"].s))
      else if kind == "tool_use" && OptionalStrField(f, "tool_id").Some? && StrField(f, "tool_name").Some? then
        Some(ToolUseEvent(OptionalStrField(f, "tool_id").value, f["tool_name"].s))
      else if kind == "tool_result" && StrField(f, "tool_id").Some? && StrField(f, "content").Some?
              && "is_error" in f && (f["is_error"].Bool? || f["is_error"].Null?) then
        Some(ToolResultEvent(f["tool_id"].s, f["content"].s,
                             if f["is_error"].Bool? then Some(f["is_error"].b) else None))
      else if kind == "result" && OptionalStrField(f, "result").Some?
              && "cost" in f && "duration_ms" in f && "num_turns" in f then
        Some(ResultEvent(OptionalStrField(f, "result").value, f["cost"], f["duration_ms"], f["num_turns"]))
      else if kind == "error" && StrField(f, "content").Some? then
        Some(ErrorEvent(f["content"].s))
      else None
  }

  /** Every event can be read back from its data, so no two events share a payload. */
  lemma EventOfPayload(e: SseEvent)
    ensures EventOf(Payload(e)) == Some(e)
  {
    match e {
      case ToolUseEvent(id, name) =>
        assert OptionalStrField(Payload(e).fields, "tool_id") == Some(id);
      case ResultEvent(result, _, _, _) =>
        assert OptionalStrField(Payload(e).fields, "result") == Some(result);
      case _ =>
    }
  }

  /* ---------------- translating the messages ---------------- */

  /** A tool result's content as text: nothing for None, `str(content)` for a list. */
  function ToolOutput(c: ToolContent, show: seq<Json.Value> -> string): string {
    match c
    case NoContent => ""
    case TextContent(t) => t
    case ListContent(items) => show(items)
  }

  /** `content[:500] if content else ""`: the output cut to the limit, whole when it is shorter. */
  function ToolResultText(c: ToolContent, show: seq<Json.Value> -> string): (r: string)
    ensures |r| <= ToolResultLimit && |r| <= |ToolOutput(c, show)|
    ensures r == ToolOutput(c, show)[..|r|]
    ensures |r| < ToolResultLimit ==> r == ToolOutput(c, show)
  {
    var out := ToolOutput(c, show);
    if out != "" then Take(out, ToolResultLimit) else ""
  }

  function BlockEvents(b: ContentBlock, show: seq<Json.Value> -> string): seq<SseEvent> {
    match b
    case ToolResultBlock(id, content, isError) => [ToolResultEvent(id, ToolResultText(content, show), isError)]
    case OtherBlock => []
  }

  /** One `tool_result` event per tool result block of a user message, in block order. */
  function ToolResults(blocks: seq<ContentBlock>, show: seq<Json.Value> -> string): (r: seq<SseEvent>)
    ensures |r| <= |blocks|
    ensures forall i :: 0 <= i < |r| ==> r[i].ToolResultEvent? && |r[i].content| <= ToolResultLimit
  {
    if blocks == [] then []
    else ToolResults(blocks[..|blocks| - 1], show) + BlockEvents(blocks[|blocks| - 1], show)
  }

  /** The tool result blocks among a user message's blocks, in block order. */
  function ResultBlocks(blocks: seq<ContentBlock>): (r: seq<ContentBlock>)
    ensures |r| <= |blocks|
    ensures forall i :: 0 <= i < |r| ==> r[i].ToolResultBlock?
  {
    if blocks == [] then []
    else
      var last := blocks[|blocks| - 1];
      ResultBlocks(blocks[..|blocks| - 1]) + (if last.ToolResultBlock? then [last] else [])
  }

  /** The i-th `tool_result` event carries the i-th tool result block's id, shown content and error flag. */
  lemma {:induction false} ToolResultsPerBlock(blocks: seq<ContentBlock>, show: seq<Json.Value> -> string)
    ensures |ToolResults(blocks, show)| == |ResultBlocks(blocks)|
    ensures forall i :: 0 <= i < |ResultBlocks(blocks)| ==>
      var b := ResultBlocks(blocks)[i];
      ToolResults(blocks, show)[i] == ToolResultEvent(b.toolUseId, ToolResultText(b.content, show), b.isError)
  {
    if blocks != [] {
      ToolResultsPerBlock(blocks[..|blocks| - 1], show);
    }
  }

  /** The loop variables of `generate_events` other than the transcript being collected. */
  datatype Progress = Progress(
    events: seq<SseEvent>,
    sessionId: Option<string>,   // current_session_id
    sessionSent: bool,           // session_sent
    assistantText: seq<string>)  // assistant_text

  const Start: Progress := Progress([], None, false, [])

  /** One message other than the result. */
  function Step(s: Progress, m: SdkMessage, show: seq<Json.Value> -> string): Progress {
    match m
    case SystemMessage(subtype, data) =>
      if subtype == "init" && data != map[] then
        var current := if "session_id" in data then Some(data["session_id"]) else None;
        if current.Some? && current.value != "" && !s.sessionSent then
          s.(sessionId := current, sessionSent := true, events := s.events + [SessionInitEvent(current.value)])
        else s.(sessionId := current)
      else s
    case StreamEvent(ContentBlockDelta(delta)) =>
      if delta.TextDelta? && delta.text != "" then
        s.(events := s.events + [TextDeltaEvent(delta.text)], assistantText := s.assistantText + [delta.text])
      else s
    case StreamEvent(ContentBlockStart(block)) =>
      if block.ToolUseBlock? then s.(events := s.events + [ToolUseEvent(block.id, block.name.GetOr("unknown"))])
      else s
    case StreamEvent(OtherApiEvent) => s
    case UserMessage(blocks) => s.(events := s.events + ToolResults(blocks, show))
    case ResultMessage(_, _, _, _) => s
    case OtherMessage => s
  }

  /** The request and the effects the model takes as given. */
  datatype Call = Call(
    message: string,
    sessionId: Option<string>,   // the request's session_id: resume and update when truthy
    queryTime: string,
    resultTime: string,
    encode: Json.Value -> string,
    show: seq<Json.Value> -> string)

  datatype SaveKind = Create | Update

  /** `create_session` or `update_session` with the transcript. */
  datatype Save = Save(kind: SaveKind, sessionId: string, content: string)

  datatype Outcome = Outcome(events: seq<SseEvent>, save: Option<Save>)

  /** `"".join(parts)`. */
  function Concat(parts: seq<string>): string {
    if parts == [] then "" else parts[0] + Concat(parts[1..])
  }

  function ChatMessage(role: string, content: string): Json.Value {
    Json.Obj(map["role" := Json.Str(role), "content" := Json.Str(content)])
  }

  /** One transcript line's dict. */
  function Entry(role: string, content: string, timestamp: string): Json.Value {
    Json.Obj(map["type" := Json.Str(role), "message" := ChatMessage(role, content), "timestamp" := Json.Str(timestamp)])
  }

  /** `collected_content` at the result: the user's message, then the reply if any text streamed. */
  function Collected(call: Call, texts: seq<string>): (entries: seq<Json.Value>)
    ensures entries != []
  {
    [Entry("user", call.message, call.queryTime)]
      + if texts != [] then [Entry("assistant", Concat(texts), call.resultTime)] else []
  }

  function EncodeAll(entries: seq<Json.Value>, encode: Json.Value -> string): (lines: seq<string>)
    ensures |lines| == |entries|
    ensures forall i :: 0 <= i < |entries| ==> lines[i] == encode(entries[i])
  {
    seq(|entries|, i requires 0 <= i < |entries| => encode(entries[i]))
  }

  /** The session file written at the result: one JSON line per collected entry. */
  function SavedContent(call: Call, texts: seq<string>): string {
    Join(EncodeAll(Collected(call, texts), call.encode), '\n')
  }

  /** The save at the result: only with a captured session id; an update exactly when resuming. */
  function SaveOf(call: Call, s: Progress): (r: Option<Save>)
    ensures r.Some? <==> s.sessionId.Some? && s.sessionId.value != ""
    ensures r.Some? ==> r.value.sessionId == s.sessionId.value
    ensures r.Some? ==> (r.value.kind == Update <==> call.sessionId.Some? && call.sessionId.value != "")
    ensures r.Some? ==> r.value.content == SavedContent(call, s.assistantText)
  {
    if s.sessionId.Some? && s.sessionId.value != "" then
      var kind := if call.sessionId.Some? && call.sessionId.value != "" then Update else Create;
      Some(Save(kind, s.sessionId.value, SavedContent(call, s.assistantText)))
    else None
  }

  /** The events and the save produced from the arrivals, from loop state `s` on. */
  function Run(arrivals: seq<Arrival>, s: Progress, call: Call): Outcome
    decreases |arrivals|
  {
    if arrivals == [] then Outcome(s.events, None)
    else match arrivals[0]
      case Raised(e) => Outcome(s.events + [ErrorEvent(e)], None)
      case Received(m) =>
        if m.ResultMessage? then
          Outcome(s.events + [ResultEvent(m.result, m.cost, m.durationMs, m.numTurns)], SaveOf(call, s))
        else Run(arrivals[1..], Step(s, m, call.show), call)
  }

  /** The inner loop over a user message's blocks. */
  method AppendToolResults(events: seq<SseEvent>, blocks: seq<ContentBlock>, show: seq<Json.Value> -> string)
    returns (r: seq<SseEvent>)
    ensures r == events + ToolResults(blocks, show)
  {
    r := events;
    var j := 0;
    while j < |blocks|
      invariant 0 <= j <= |blocks|
      invariant r == events + ToolResults(blocks[..j], show)
    {
      assert blocks[..j + 1][..j] == blocks[..j];
      match blocks[j] {
        case ToolResultBlock(id, content, isError) =>
          r := r + [ToolResultEvent(id, ToolResultText(content, show), isError)];
        case OtherBlock =>
      }
      j := j + 1;
    }
    assert blocks[..j] == blocks;
  }

  /** `generate_events`: the events streamed for one chat request and the session save it makes. */
  method GenerateEvents(call: Call, arrivals: seq<Arrival>) returns (events: seq<SseEvent>, save: Option<Save>)
    ensures Outcome(events, save) == Run(arrivals, Start, call)
  {
    var currentSessionId: Option<string> := None;
    var sessionSent := false;
    var collected := [Entry("user", call.message, call.queryTime)];
    var assistantText: seq<string> := [];
    events := [];
    save := None;
    var i := 0;
    while i < |arrivals|
      invariant 0 <= i <= |arrivals|
      invariant save == None && collected == [Entry("user", call.message, call.queryTime)]
      invariant Run(arrivals[i..], Progress(events, currentSessionId, sessionSent, assistantText), call)
        == Run(arrivals, Start, call)
    {
      assert arrivals[i..][0] == arrivals[i] && arrivals[i..][1..] == arrivals[i + 1..];
      match arrivals[i] {
        case Raised(e) =>
          events := events + [ErrorEvent(e)];
          return;
        case Received(msg) =>
          match msg {
            case ResultMessage(result, cost, durationMs, numTurns) =>
              if assistantText != [] {
                collected := collected + [Entry("assistant", Concat(assistantText), call.resultTime)];
              }
              if currentSessionId.Some? && currentSessionId.value != "" && collected != [] {
                var content := Join(EncodeAll(collected, call.encode), '\n');
                var kind := if call.sessionId.Some? && call.sessionId.value != "" then Update else Create;
                save := Some(Save(kind, currentSessionId.value, content));
              }
              events := events + [ResultEvent(result, cost, durationMs, numTurns)];
              return;
            case SystemMessage(subtype, data) =>
              if subtype == "init" && data != map[] {
                currentSessionId := if "session_id" in data then Some(data["session_id"]) else None;
                if currentSessionId.Some? && currentSessionId.value != "" && !sessionSent {
                  events := events + [SessionInitEvent(currentSessionId.value)];
                  sessionSent := true;
                }
              }
            case StreamEvent(event) =>
              match event {
                case ContentBlockDelta(delta) =>
                  if delta.TextDelta? && delta.text != "" {
                    assistantText := assistantText + [delta.text];
                    events := events + [TextDeltaEvent(delta.text)];
                  }
                case ContentBlockStart(block) =>
                  if block.ToolUseBlock? {
                    events := events + [ToolUseEvent(block.id, block.name.GetOr("unknown"))];
                  }
                case OtherApiEvent =>
              }
            case UserMessage(blocks) =>
              events := AppendToolResults(events, blocks, call.show);
            case OtherMessage =>
          }
      }
      i := i + 1;
    }
  }

  /* ---------------- properties of the stream ---------------- */

  /** The texts of the `text_delta` events, in order. */
  function DeltaTexts(events: seq<SseEvent>): seq<string> {
    if events == [] then []
    else (if events[0].TextDeltaEvent? then [events[0].content] else []) + DeltaTexts(events[1..])
  }

  /** The number of `session_init` events. */
  function InitCount(events: seq<SseEvent>): nat {
    if events == [] then 0
    else (if events[0].SessionInitEvent? then 1 else 0) + InitCount(events[1..])
  }

  lemma {:induction false} CountsAppend(a: seq<SseEvent>, b: seq<SseEvent>)
    ensures DeltaTexts(a + b) == DeltaTexts(a) + DeltaTexts(b)
    ensures InitCount(a + b) == InitCount(a) + InitCount(b)
  {
    if a != [] {
      assert (a + b)[1..] == a[1..] + b;
      CountsAppend(a[1..], b);
    } else {
      assert a + b == b;
    }
  }

  lemma {:induction false} ToolResultsCountNothing(events: seq<SseEvent>)
    requires forall i :: 0 <= i < |events| ==> events[i].ToolResultEvent?
    ensures DeltaTexts(events) == [] && InitCount(events) == 0
  {
    if events != [] {
      ToolResultsCountNothing(events[1..]);
    }
  }

  /** A streamed event as the client may rely on it: ids and texts non-empty, tool output capped. */
  predicate WellFormed(e: SseEvent) {
    match e
    case SessionInitEvent(id) => id != ""
    case TextDeltaEvent(text) => text != ""
    case ToolResultEvent(_, content, _) => |content| <= ToolResultLimit
    case _ => true
  }

  predicate Terminal(e: SseEvent) {
    e.ResultEvent? || e.ErrorEvent?
  }

  /** What holds of the loop state between two messages. */
  predicate Consistent(s: Progress) {
    && (forall i :: 0 <= i < |s.events| ==> WellFormed(s.events[i]) && !Terminal(s.events[i]))
    && DeltaTexts(s.events) == s.assistantText
    && InitCount(s.events) == (if s.sessionSent then 1 else 0)
  }

  /** Appending well-formed, non-terminal events keeps the loop state consistent when the texts and the flag follow them. */
  lemma ConsistentAppend(s: Progress, added: seq<SseEvent>, t: Progress)
    requires Consistent(s) && t.events == s.events + added
    requires forall i :: 0 <= i < |added| ==> WellFormed(added[i]) && !Terminal(added[i])
    requires t.assistantText == s.assistantText + DeltaTexts(added)
    requires InitCount(added) + (if s.sessionSent then 1 else 0) == (if t.sessionSent then 1 else 0)
    ensures Consistent(t)
  {
    CountsAppend(s.events, added);
    forall i | 0 <= i < |t.events|
      ensures WellFormed(t.events[i]) && !Terminal(t.events[i])
    {
      if i >= |s.events| {
        assert t.events[i] == added[i - |s.events|];
      }
    }
  }

  lemma CountsOne(e: SseEvent)
    ensures DeltaTexts([e]) == (if e.TextDeltaEvent? then [e.content] else [])
    ensures InitCount([e]) == (if e.SessionInitEvent? then 1 else 0)
  {
    assert [e][1..] == [];
  }

  lemma StepConsistent(s: Progress, m: SdkMessage, show: seq<Json.Value> -> string)
    requires Consistent(s) && !m.ResultMessage?
    ensures Consistent(Step(s, m, show))
  {
    match m
    case SystemMessage(subtype, data) =>
      if subtype == "init" && data != map[] && "session_id" in data && data["session_id"] != "" && !s.sessionSent {
        var e := SessionInitEvent(data["session_id"]);
        CountsOne(e);
        ConsistentAppend(s, [e], Step(s, m, show));
      }
    case StreamEvent(ContentBlockDelta(delta)) =>
      if delta.TextDelta? && delta.text != "" {
        var e := TextDeltaEvent(delta.text);
        CountsOne(e);
        ConsistentAppend(s, [e], Step(s, m, show));
      }
    case StreamEvent(ContentBlockStart(block)) =>
      if block.ToolUseBlock? {
        var e := ToolUseEvent(block.id, block.name.GetOr("unknown"));
        CountsOne(e);
        ConsistentAppend(s, [e], Step(s, m, show));
      }
    case StreamEvent(OtherApiEvent) =>
    case UserMessage(blocks) =>
      var added := ToolResults(blocks, show);
      ToolResultsCountNothing(added);
      ConsistentAppend(s, added, Step(s, m, show));
    case OtherMessage =>
  }

  /**
   * The shape of every stream: at most one `session_init`, every event well formed, a `result`
   * or `error` only as the last event, and a save only after a result, holding the user's message
   * and exactly the streamed text.
   */
  lemma {:induction false} RunShape(arrivals: seq<Arrival>, s: Progress, call: Call)
    requires Consistent(s)
    ensures var o := Run(arrivals, s, call);
      && InitCount(o.events) <= 1
      && (forall i :: 0 <= i < |o.events| ==> WellFormed(o.events[i]))
      && (forall i :: 0 <= i < |o.events| - 1 ==> !Terminal(o.events[i]))
      && (o.save.Some? ==>
            && o.events != [] && o.events[|o.events| - 1].ResultEvent?
            && o.save.value.content == SavedContent(call, DeltaTexts(o.events)))
    decreases |arrivals|
  {
    if arrivals != [] {
      match arrivals[0] {
        case Raised(e) =>
          CountsAppend(s.events, [ErrorEvent(e)]);
        case Received(m) =>
          if m.ResultMessage? {
            var last := ResultEvent(m.result, m.cost, m.durationMs, m.numTurns);
            CountsAppend(s.events, [last]);
            assert [last][1..] == [];
            assert DeltaTexts([last]) == [];
            assert DeltaTexts(s.events + [last]) == s.assistantText;
          } else {
            StepConsistent(s, m, call.show);
            RunShape(arrivals[1..], Step(s, m, call.show), call);
          }
      }
    }
  }

  /** The stream of a whole request has that shape. */
  lemma StreamShape(arrivals: seq<Arrival>, call: Call)
    ensures var o := Run(arrivals, Start, call);
      && InitCount(o.events) <= 1
      && (forall i :: 0 <= i < |o.events| ==> WellFormed(o.events[i]))
      && (forall i :: 0 <= i < |o.events| - 1 ==> !Terminal(o.events[i]))
      && (o.save.Some? ==> o.save.value.content == SavedContent(call, DeltaTexts(o.events)))
  {
    RunShape(arrivals, Start, call);
  }

  /** Nothing the SDK sends after the first result or exception reaches the client. */
  lemma {:induction false} NothingAfterStop(before: seq<Arrival>, last: Arrival, rest: seq<Arrival>, s: Progress, call: Call)
    requires Stops(last)
    ensures Run(before + [last] + rest, s, call) == Run(before + [last], s, call)
    decreases |before|
  {
    if before == [] {
      assert (before + [last] + rest)[0] == last && (before + [last])[0] == last;
    } else {
      var a := before + [last] + rest;
      var b := before + [last];
      assert a[0] == b[0] == before[0];
      assert a[1..] == before[1..] + [last] + rest && b[1..] == before[1..] + [last];
      match before[0] {
        case Raised(_) =>
        case Received(m) =>
          if !m.ResultMessage? {
            NothingAfterStop(before[1..], last, rest, Step(s, m, call.show), call);
          }
      }
    }
  }

  /** An exception ends the stream with exactly that error as its last event, and nothing is saved. */
  lemma {:induction false} ErrorEndsStream(before: seq<Arrival>, error: string, s: Progress, call: Call)
    requires forall j :: 0 <= j < |before| ==> !Stops(before[j])
    ensures var o := Run(before + [Raised(error)], s, call);
      o.save == None && o.events != [] && o.events[|o.events| - 1] == ErrorEvent(error)
    decreases |before|
  {
    var a := before + [Raised(error)];
    if before == [] {
      assert a[0] == Raised(error);
    } else {
      assert a[0] == before[0] && a[1..] == before[1..] + [Raised(error)];
      ErrorEndsStream(before[1..], error, Step(s, before[0].msg, call.show), call);
    }
  }

  /* ---------------- the saved transcript read back ---------------- */

  /** The dict of a transcript line, as a line decodes back to it. */
  lemma EntryDecodes(role: string, content: string, timestamp: string, decode: Transcript.Decoder, encode: Json.Value -> string)
    requires Json.IsCodec(encode, decode)
    ensures var line := encode(Entry(role, content, timestamp));
      Strip(line) == line != [] && decode(line) == Some(Entry(role, content, timestamp))
  {
    var line := encode(Entry(role, content, timestamp));
    StripTrimmed(line);
  }

  lemma EntryMessageStep(role: string, content: string, timestamp: string, decode: Transcript.Decoder, encode: Json.Value -> string)
    requires Json.IsCodec(encode, decode) && (role == "user" || role == "assistant")
    ensures Transcript.MessageStepOf(encode(Entry(role, content, timestamp)), decode)
      == Transcript.Message(ChatMessage(role, content))
  {
    EntryDecodes(role, content, timestamp, decode, encode);
    var f := Entry(role, content, timestamp).fields;
    assert Transcript.IsEntryOfType(f, role) && "message" in f;
  }

  lemma EntryTitleStep(role: string, content: string, timestamp: string, decode: Transcript.Decoder, encode: Json.Value -> string)
    requires Json.IsCodec(encode, decode) && (role == "user" || role == "assistant")
    ensures Transcript.TitleStepOf(encode(Entry(role, content, timestamp)), Transcript.DefaultTitleLength, decode)
      == if role == "user" && content != "" then Transcript.FoundTitle(Transcript.MakeTitle(content, Transcript.DefaultTitleLength))
         else Transcript.SkipLine
  {
    EntryDecodes(role, content, timestamp, decode, encode);
    var f := Entry(role, content, timestamp).fields;
    assert Transcript.IsEntryOfType(f, "user") <==> role == "user";
    assert Transcript.MessageContent(ChatMessage(role, content).fields) == Json.Str(content);
  }

  /** The saved transcript's lines are the encoded user entry, then the encoded reply if any. */
  lemma SavedLines(call: Call, texts: seq<string>, decode: Transcript.Decoder)
    requires Json.IsCodec(call.encode, decode)
    ensures Split(SavedContent(call, texts), '\n')
      == [call.encode(Entry("user", call.message, call.queryTime))]
         + if texts != [] then [call.encode(Entry("assistant", Concat(texts), call.resultTime))] else []
  {
    var lines := EncodeAll(Collected(call, texts), call.encode);
    SplitJoin(lines, '\n');
  }

  lemma MessagesCons(line: string, rest: seq<string>, m: Json.Value, decode: Transcript.Decoder)
    requires Transcript.MessageStepOf(line, decode) == Transcript.Message(m)
    ensures Transcript.MessagesFromLines([line] + rest, decode)
      == Transcript.PrependMessages([m], Transcript.MessagesFromLines(rest, decode))
  {
    assert ([line] + rest)[0] == line && ([line] + rest)[1..] == rest;
  }

  lemma MessagesOfOneLine(line: string, m: Json.Value, decode: Transcript.Decoder)
    requires Transcript.MessageStepOf(line, decode) == Transcript.Message(m)
    ensures Transcript.MessagesFromLines([line], decode) == Success([m])
  {
    MessagesCons(line, [], m, decode);
    assert [line] + [] == [line];
    assert Transcript.MessagesFromLines([], decode) == Success([]);
    assert [m] + [] == [m];
  }

  lemma MessagesOfTwoLines(l0: string, l1: string, m0: Json.Value, m1: Json.Value, decode: Transcript.Decoder)
    requires Transcript.MessageStepOf(l0, decode) == Transcript.Message(m0)
    requires Transcript.MessageStepOf(l1, decode) == Transcript.Message(m1)
    ensures Transcript.MessagesFromLines([l0, l1], decode) == Success([m0, m1])
  {
    MessagesOfOneLine(l1, m1, decode);
    MessagesCons(l0, [l1], m0, decode);
    assert [l0] + [l1] == [l0, l1];
    assert [m0] + [m1] == [m0, m1];
  }

  /**
   * A transcript saved at the end of a stream reads back as the user's message followed by the
   * assistant's streamed reply.
   */
  lemma SavedTranscriptReadsBack(call: Call, texts: seq<string>, decode: Transcript.Decoder)
    requires Json.IsCodec(call.encode, decode)
    ensures Transcript.MessagesOf(SavedContent(call, texts), decode)
      == Success([ChatMessage("user", call.message)] + if texts != [] then [ChatMessage("assistant", Concat(texts))] else [])
  {
    SavedLines(call, texts, decode);
    var lines := Split(SavedContent(call, texts), '\n');
    var user := call.encode(Entry("user", call.message, call.queryTime));
    var mu := ChatMessage("user", call.message);
    EntryMessageStep("user", call.message, call.queryTime, decode, call.encode);
    assert Transcript.MessagesOf(SavedContent(call, texts), decode) == Transcript.MessagesFromLines(lines, decode);
    if texts != [] {
      var reply := call.encode(Entry("assistant", Concat(texts), call.resultTime));
      var ma := ChatMessage("assistant", Concat(texts));
      EntryMessageStep("assistant", Concat(texts), call.resultTime, decode, call.encode);
      MessagesOfTwoLines(user, reply, mu, ma, decode);
      assert lines == [user, reply];
      assert [mu] + [ma] == [mu, ma];
    } else {
      MessagesOfOneLine(user, mu, decode);
      assert lines == [user];
      assert [mu] + [] == [mu];
    }
  }

  /** The saved transcript lists under the user's message as its title. */
  lemma SavedTranscriptTitle(call: Call, texts: seq<string>, decode: Transcript.Decoder)
    requires Json.IsCodec(call.encode, decode)
    ensures Transcript.TitleOf(SavedContent(call, texts), Transcript.DefaultTitleLength, decode)
      == if call.message != "" then Some(Transcript.MakeTitle(call.message, Transcript.DefaultTitleLength)) else None
  {
    SavedLines(call, texts, decode);
    var lines := Split(SavedContent(call, texts), '\n');
    EntryTitleStep("user", call.message, call.queryTime, decode, call.encode);
    if texts != [] {
      EntryTitleStep("assistant", Concat(texts), call.resultTime, decode, call.encode);
    }
    if call.message != "" {
      Transcript.FirstUserMessageIsTitle(lines, 0, Transcript.DefaultTitleLength, decode);
    } else {
      Transcript.NoUserMessageNoTitle(lines, Transcript.DefaultTitleLength, decode);
    }
  }
}
