# Agent backend of claude-e-mart, modelled in Dafny

This project models the Python agent backend of claude-e-mart. The backend is a web service.
It streams an agent's replies to a chat client as server-sent events (SSE). It keeps each
chat session as a JSONL transcript (one JSON document per line) in an S3 bucket or a local
directory. It also tracks the background agent that runs for each session. The model covers
five parts of the backend:

- **Session storage** (`session_storage.dfy`, `transcript.dfy`):
  - reading a transcript: its title is the first user message, and its message list holds the
    user and assistant entries;
  - the S3 object key of a session, and recovering the session id from a key during a listing;
  - the S3 and local backends, as classes whose bucket or directory is a map updated in place
    (create, get, update, delete and list);
  - the listing's title fallback and its newest-first stable sort;
  - the choice of backend, and the singleton that holds it.
- **Agent manager** (`agent_manager.dfy`):
  - `BackgroundAgent`, with the wait for a user's response split into the transitions
    `BeginWait` and `EndWait`, the response gate and cancellation;
  - `AgentManager`, a table of agents keyed by session id. The table is capped at 10 agents and
    keeps the dict's insertion order. Idle agents are evicted after 30 minutes.
- **State serialisation** (`models.dfy`): `AgentState.to_dict` and `from_dict`, and the proof
  that they form a round trip.
- **Provider configuration** (`config.dfy`): pure functions of the environment, which is a
  `map<string, string>`.
- **The chat stream** (`server.dfy`):
  - `generate_events`, as a loop method proved equal to a reducer `Run` over the SDK's messages;
  - the stream's shape, in these lemmas:
    - at most one `session_init` event;
    - `text_delta` events only with non-empty text;
    - tool output capped at 500 characters;
    - nothing after the first result or exception;
    - an exception ends the stream with exactly one error event;
  - the saved transcript, which reads back as the user's message and the streamed reply;
  - the CORS origin list.

Shared modules:

- `wrappers.dfy`: `Option` and `Result`.
- `text.dfy`: the Python `str` operations the backend uses.
- `json.dfy`: JSON values. It also holds `IsCodec`, the property of `json.dumps` and
  `json.loads` that the model assumes: decoding a dumped value gives it back, and a dumped value
  is one non-empty line with no surrounding whitespace.

Time is an integer parameter `now`. The JSON parser and printer, the agent SDK's messages, and
the listing pages returned by S3 are parameters too.

## Model

| member | source | states |
|---|---|---|
| Text.Strip | agent/session_storage.py:113 | `strip()` never lengthens the text, and its result neither begins nor ends with whitespace |
| Text.TrimRightChar | agent/session_storage.py:304 | `rstrip("/")` removes exactly the trailing run of the character: the rest is a prefix that does not end in it |
| Text.BeforeLastOfSuffix | agent/session_storage.py:407 | `(x + ".jsonl").rsplit(".jsonl", 1)[0] == x` for every x, even when x contains ".jsonl" |
| Text.JoinSplit | agent/session_storage.py:112 | joining the parts of `content.split("\n")` with "\n" gives back the content |
| Text.SplitJoin | agent/server.py:332-334 | splitting a "\n"-joined list of lines that contain no "\n" gives back the lines |
| Transcript.MakeTitle | agent/session_storage.py:121-123 | the title is the stripped text with newlines turned into spaces, cut to `max_length` characters plus "..." only when longer; at most `max_length + 3` characters and free of newlines |
| Transcript.ExtractTitleFromContent | agent/session_storage.py:109-129 | the line loop returns exactly `TitleOf`, the title of the first usable user entry; no title when none exists or when a dict lookup on a non-dict raises (the outer handler swallows that) |
| Transcript.TitleBounded | agent/session_storage.py:122-123 | every extracted title has at most `max_length + 3` characters and no newline |
| Transcript.FirstUserMessageIsTitle | agent/session_storage.py:112-124 | when every line before line i is skipped, the title is decided by line i |
| Transcript.NoUserMessageNoTitle | agent/session_storage.py:112-129 | content without a usable user message has no title |
| Transcript.SkippedLineIrrelevantForTitle | agent/session_storage.py:113-126 | deleting a skipped line (blank, not JSON, not a user entry) anywhere does not change the title |
| Transcript.BlankOrMalformedLinesSkipped | agent/session_storage.py:137-143 | blank lines and lines that are not JSON are skipped by both the title search and the message parse |
| Transcript.ParseMessagesFromContent | agent/session_storage.py:132-144 | the loop returns exactly `MessagesOf`: the `message` of each user or assistant entry that has one, in line order, or the error raised by a JSON line that is not a dict |
| Transcript.MessagesOfConcat | agent/session_storage.py:135-144 | the messages of two blocks of lines are those of the first block followed by those of the second, and the first block's error wins |
| Transcript.MessagesAtMostLines | agent/session_storage.py:135-144 | a parse yields at most one message per line |
| Transcript.MessagesFailOnlyOnNonDict | agent/session_storage.py:138-143 | the parse fails if and only if some line decodes to JSON that is not a dict |
| SessionStorage.NormalizePrefix | agent/session_storage.py:304 | an empty prefix stays empty; otherwise its trailing slashes become exactly one "/" and the rest of the prefix is kept |
| SessionStorage.NormalizePrefixIdempotent | agent/session_storage.py:304 | normalising a normalised prefix changes nothing |
| SessionStorage.GetKey | agent/session_storage.py:317-319 | the key starts with the prefix and ends with ".jsonl" |
| SessionStorage.KeyRoundTrip | agent/session_storage.py:406-407 | the id that a listing reads off `prefix + id + ".jsonl"` is `id`, for every prefix and id |
| SessionStorage.GetKeyInjective | agent/session_storage.py:317-319 | two sessions with different ids never share a key |
| SessionStorage.ListingTitle | agent/session_storage.py:427 | a non-empty title is shown as it is; otherwise the title is the first 8 characters of the id (all of it if shorter) followed by "..."; it is never empty |
| SessionStorage.ReadSessionData | agent/session_storage.py:365-375 | the result succeeds exactly when the message parse does, and then carries the parsed messages, the extracted title, the raw content and the given times |
| SessionStorage.SessionObjects | agent/session_storage.py:400-403 | a listing keeps exactly the entries whose key ends in ".jsonl" |
| SessionStorage.SortNewestFirst | agent/session_storage.py:443 | the sorted list has exactly as many sessions as the list before sorting (its contents, order and stability are the three lemmas below) |
| SessionStorage.SortPermutation | agent/session_storage.py:443 | sorting by modification time neither drops nor duplicates a session |
| SessionStorage.SortSorted | agent/session_storage.py:443 | after sorting, the most recently modified session comes first and undated sessions come last |
| SessionStorage.SortStable | agent/session_storage.py:443 | the sort is stable: for every time, the sessions modified at that time appear in the sorted listing in their listing order |
| SessionStorage.Put | agent/session_storage.py:327-335 | `put_object` stores the body, `created_at` and the modification time under the key and leaves every other object alone |
| SessionStorage.PreservedCreation | agent/session_storage.py:453-466 | an update keeps the stored `created_at` and falls back to `now` only when there is none |
| SessionStorage.S3SessionStorage.constructor | agent/session_storage.py:294-315 | the backend keeps the bucket name and normalises the prefix |
| SessionStorage.S3SessionStorage.CreateSession | agent/session_storage.py:321-347 | the object is written with `created_at = now`, and a later `get_session` returns the same data |
| SessionStorage.S3SessionStorage.GetSession | agent/session_storage.py:349-380 | a missing key gives None; otherwise the data of the stored body, with `created_at` taken from the metadata or else from LastModified; a transcript whose parse raises is an error |
| SessionStorage.S3SessionStorage.UpdateSession | agent/session_storage.py:446-489 | the object is overwritten and keeps its `created_at`; a later `get_session` returns the same data |
| SessionStorage.S3SessionStorage.DeleteSession | agent/session_storage.py:491-514 | the result is true exactly when the key existed; the object is gone afterwards and `get_session` then gives None |
| SessionStorage.S3SessionStorage.InfoOf | agent/session_storage.py:410-432 | a listed session's id is read off its key and its modification time is the entry's LastModified |
| SessionStorage.S3SessionStorage.ListingShape | agent/session_storage.py:400-432 | the unsorted listing has exactly one entry per session key, in listing order |
| SessionStorage.S3SessionStorage.ReadListedObject | agent/session_storage.py:410-432 | one listed object is read into the `SessionInfo` of `InfoOf`: when the object cannot be read, the title falls back to the id's first eight characters and "...", and `created_at` to LastModified |
| SessionStorage.S3SessionStorage.ListSessions | agent/session_storage.py:382-444 | the loop over the pages builds the listing of all pages in order, which is then sorted newest first |
| SessionStorage.S3SessionStorage.ListPage | agent/session_storage.py:400-432 | the loop over one page's objects appends one entry per session object, in listing order, skipping other keys |
| SessionStorage.ListingHasEverySession | agent/session_storage.py:400-432 | every session object in a page appears in the listing under its own id |
| SessionStorage.LocalSessionStorage.CreateSession | agent/session_storage.py:157-176 | the file for the id holds the content afterwards, and the result is the data parsed from it |
| SessionStorage.LocalSessionStorage.GetSession | agent/session_storage.py:178-209 | a missing file gives None, and so does a transcript whose parse raises; otherwise the parsed data of the file |
| SessionStorage.LocalSessionStorage.UpdateSession | agent/session_storage.py:245-270 | an existing file is rewritten and a missing one is created, with the same state and result either way |
| SessionStorage.LocalSessionStorage.DeleteSession | agent/session_storage.py:272-285 | the result is true exactly when a file for the id existed; the file is gone afterwards |
| SessionStorage.LocalSessionStorage.InfoOf | agent/session_storage.py:220-235 | a listed file's entry carries its id and mtime and a non-empty title |
| SessionStorage.LocalSessionStorage.Listing | agent/session_storage.py:218-239 | the walk lists at most one entry per file found, each the `InfoOf` of an existing file |
| SessionStorage.LocalSessionStorage.ReadableMembers | agent/session_storage.py:218-239 | the ids the listing covers are exactly the found ids whose file can be read |
| SessionStorage.LocalSessionStorage.LocalListingShape | agent/session_storage.py:218-239 | the listing has one entry per found id with a readable file, in walk order, each its `InfoOf` |
| SessionStorage.LocalSessionStorage.LocalListingHasEverySession | agent/session_storage.py:211-239 | every session file the walk finds appears in the listing under its own id |
| SessionStorage.LocalSessionStorage.ListSessions | agent/session_storage.py:211-243 | the loop builds the listing of the files in walk order, which is then sorted newest first |
| SessionStorage.SelectBackend | agent/session_storage.py:535-559 | S3 exactly when SESSION_BUCKET_NAME is non-empty and the client can be set up; the prefix defaults to "sessions/"; the region is a non-empty AWS_REGION, else AWS_DEFAULT_REGION as set (even when empty), else none |
| SessionStorage.StorageRegistry.GetSessionStorage | agent/session_storage.py:521-561 | the first call selects the backend and keeps it; later calls return it unchanged |
| SessionStorage.StorageRegistry.ResetStorageInstance | agent/session_storage.py:564-567 | the singleton is cleared |
| Models.StatusFromValue | agent/models.py:14-21 | `AgentStatus(v)` gives the member whose value is v, for exactly the five defined values |
| Models.NewPendingAction | agent/models.py:25-32 | a new pending action has no options |
| Models.NewAgentState | agent/models.py:36-43 | a new state has no pending action and no progress message |
| Models.ToDict | agent/models.py:45-61 | the dict has exactly the five keys and holds the status value; `pending_action` is None exactly when the state has none, and otherwise is a dict of id, type, title, description and options |
| Models.PendingActionFromDict | agent/models.py:70 | `PendingAction(**pending)` accepts only a dict with the four required keys and no key other than `options` |
| Models.FromDict | agent/models.py:64-73 | a non-dict, a missing `session_id`, `status` or `last_activity`, and an unknown status are rejected; a missing or null `pending_action` and a missing `progress_message` become None |
| Models.PendingActionRoundTrip | agent/models.py:50-56 | a serialised pending action is rebuilt unchanged |
| Models.FromDictToDict | agent/models.py:45-73 | `from_dict(to_dict(s)) == s` for every state s |
| Models.ToDictInjective | agent/models.py:45-61 | two states with the same dict are equal |
| Config.GetProvider | agent/config.py:69-81 | Bedrock exactly when its switch is "1", even if Vertex's switch is also set; Vertex exactly when only its switch is "1"; Anthropic otherwise |
| Config.GetBedrockConfig | agent/config.py:84-107 | the region is AWS_REGION, else AWS_DEFAULT_REGION, else us-east-1; the other fields are read as they are; the function never fails |
| Config.DefaultRegionSupported | agent/config.py:94-100 | with no region set, the default region is a supported one and no warning is logged |
| Config.GetVertexConfig | agent/config.py:110-129 | fails with the documented message exactly when GOOGLE_CLOUD_PROJECT is missing or empty; the region defaults to us-central1 |
| Config.ValidateBedrockCredentials | agent/config.py:132-165 | the answer is true on every path; the branch taken follows the order explicit keys, profile, AWS runtime, default chain |
| Config.CredentialsSource | agent/config.py:238-249 | the source follows the order access key, profile, Lambda, execution environment, default chain |
| Config.CredentialViewsAgree | agent/config.py:238-249 | when an access key never comes without its secret, the validation and the health report name the same kind of credentials |
| Config.AccessKeyAloneDiverges | agent/config.py:240-241 | for every environment with an access key but no secret, the report says "environment_variables" while the validation does not count explicit keys and goes on to the profile when one is set |
| Config.LoadConfig | agent/config.py:168-201 | only the matching sub-configuration is filled in, and it is the one `get_bedrock_config` or `get_vertex_config` gives; the call fails exactly for Vertex without a project and for the direct API without a key, each with its own message |
| Config.ModelIdOrDefault | agent/config.py:220 | a missing or empty model id gives the default model id; any other id is kept |
| Config.GetProviderInfo | agent/config.py:204-235 | the report never fails; its keys are the ones for the provider; a Vertex configuration error is reported under "error"; the Bedrock model id falls back to the default |
| Config.EmptyModelIdDefaults | agent/config.py:220 | an empty BEDROCK_MODEL_ID is reported as the default model |
| AgentManagement.CancelTask | agent/agent_manager.py:58-59 | only a live task is cancelled |
| AgentManagement.BackgroundAgent.constructor | agent/agent_manager.py:24-29 | a new agent is idle, with no task, an empty queue and no cancel request |
| AgentManagement.BackgroundAgent.BeginWait | agent/agent_manager.py:33-35 | the agent waits: status WAITING_USER, the action pending, activity refreshed |
| AgentManagement.BackgroundAgent.EndWait | agent/agent_manager.py:37-46 | a queued response is taken and gives RUNNING with activity refreshed; an empty queue at the deadline gives ERROR without touching activity; either way the pending action is cleared |
| AgentManagement.BackgroundAgent.SubmitResponse | agent/agent_manager.py:48-53 | the response is queued and accepted exactly when the pending action's id matches; otherwise the queue is unchanged |
| AgentManagement.BackgroundAgent.Cancel | agent/agent_manager.py:55-59 | the cancel request is recorded and a live task is cancelled |
| AgentManagement.ListsAppend | agent/agent_manager.py:115 | inserting a new key appends it to the dict's order |
| AgentManagement.ListsRestrict | agent/agent_manager.py:104 | deleting keys removes them from the dict's order and keeps the other keys in place |
| AgentManagement.Evict | agent/agent_manager.py:96-104 | the states that survive a cleanup pass are exactly those whose last activity is not older than the timeout |
| AgentManagement.UnknownNamesIgnored | agent/agent_manager.py:134-136 | keyword names the state lacks have no effect |
| AgentManagement.UnnamedFieldsKept | agent/agent_manager.py:134-136 | each of the five state fields keeps its value when no keyword names it |
| AgentManagement.AgentManager.constructor | agent/agent_manager.py:67-69 | the table starts empty and no cleanup loop runs |
| AgentManagement.AgentManager.Start | agent/agent_manager.py:78-81 | the cleanup loop runs afterwards |
| AgentManagement.AgentManager.GetAgent | agent/agent_manager.py:106-108 | the agent filed under the id, or none |
| AgentManagement.AgentManager.GetOrCreateAgent | agent/agent_manager.py:110-116 | an existing agent is returned unchanged; a new idle agent is added at the end of the order only while fewer than 10 exist; otherwise an error and no change; the table never exceeds 10 |
| AgentManagement.AgentManager.StartAgentTask | agent/agent_manager.py:118-128 | the agent from `get_or_create_agent` runs a new task, and its state is the old one (or a new agent's) with status RUNNING and activity `now`. Its queue and cancel flag are kept. The table and order change only by a newly created agent, and not at all on failure. Every other agent is unchanged |
| AgentManagement.BackgroundAgent.RunTask | agent/agent_manager.py:124-126 | the agent is RUNNING with activity `now` and an active task; its other state fields are kept |
| AgentManagement.AgentManager.UpdateAgentState | agent/agent_manager.py:130-137 | the named fields are set in order and then the activity is refreshed. Only the session's agent state may change; an unknown session and every other agent are unchanged |
| AgentManagement.AgentManager.CancelAgent | agent/agent_manager.py:139-146 | a known agent is cancelled and marked COMPLETED, with true. Its queue is untouched; an unknown session gives false |
| AgentManagement.AgentManager.SubmitUserResponse | agent/agent_manager.py:148-153 | the response is accepted exactly when, before the call, the session's agent awaited that action id. Only its queue changes, by that response; an unknown session gives false |
| AgentManagement.AgentManager.GetAllStates | agent/agent_manager.py:155-157 | the loop returns one state per agent, in insertion order |
| AgentManagement.AgentManager.StatesFor | agent/agent_manager.py:159-161 | the states of the requested ids that exist, in request order; unknown ids are skipped |
| AgentManagement.AgentManager.StatesForConcat | agent/agent_manager.py:159-161 | asking for two lists of ids gives the states for the first list followed by those for the second |
| AgentManagement.AgentManager.Stop | agent/agent_manager.py:83-91 | the cleanup loop stops, every agent is cancelled and the table is empty |
| AgentManagement.AgentManager.EvictIfExpired | agent/agent_manager.py:100-104 | evicts exactly when the id has an agent idle past the timeout; the evicted agent is cancelled (flag set, task cancelled) and deleted from the table and the order; otherwise the table, the order and that agent's flag and task are unchanged, and no other agent can change |
| AgentManagement.AgentManager.Cleanup | agent/agent_manager.py:93-104 | after one pass, the states left are `Evict` of the states before; every expired agent is cancelled (flag set, task cancelled); every survivor keeps its agent object, its place in the order, its cancel flag and its task |
| AgentManagement.EvictExact | agent/agent_manager.py:100-104 | a sweep over every key that drops exactly the expired ones leaves `Evict`'s result |
| Server.NonBlankStripped | agent/server.py:154 | every origin kept is non-empty and trimmed |
| Server.ParseOrigins | agent/server.py:153-154 | each listed origin is non-empty, trimmed and free of commas |
| Server.ParseOriginsJoin | agent/server.py:154 | any list of clean origins, written comma-separated, is read back unchanged |
| Server.CorsOrigins | agent/server.py:153-158 | the origins are those parsed from CORS_ORIGINS or its default; the CloudFront wildcard is appended exactly for prod and staging |
| Server.CorsOriginsClean | agent/server.py:153-158 | every allowed origin is non-empty and has no surrounding whitespace |
| Server.CorsDefault | agent/server.py:153 | without CORS_ORIGINS and ENV_NAME only the local development origin is allowed |
| Server.Payload | agent/server.py:252-368 | every event's data is a dict with a string "type" |
| Server.EventOfPayload | agent/server.py:252-368 | each event can be read back from its data, so no two events share a payload |
| Server.ToolResultText | agent/server.py:296-310 | a tool result's text is a prefix of its output, at most 500 characters long, and whole when shorter; list content is stringified first |
| Server.ToolResults | agent/server.py:294-312 | a user message gives at most one event per block, each a `tool_result` with content of at most 500 characters |
| Server.ToolResultsPerBlock | agent/server.py:294-312 | the events are exactly one `tool_result` per tool result block, in block order, each with the block's `tool_use_id`, its shown content and its `is_error` flag |
| Server.AppendToolResults | agent/server.py:294-312 | the block loop appends exactly `ToolResults` |
| Server.SaveOf | agent/server.py:329-347 | a save happens exactly when a non-empty session id was captured; it is an update exactly when the request named a session; it holds the saved transcript |
| Server.GenerateEvents | agent/server.py:193-370 | the loop's events and save are those of the reducer `Run` over the arrivals |
| Server.StepConsistent | agent/server.py:243-312 | a message other than the result keeps the loop state consistent: no terminal event yet, the collected text equals the streamed deltas, `session_sent` counts the `session_init` events |
| Server.RunShape | agent/server.py:239-356 | from a consistent state, the stream has at most one `session_init`, only well-formed events, and a result or error only as its last event; a save follows a result and holds exactly the streamed text |
| Server.StreamShape | agent/server.py:239-368 | the stream of a whole request has that shape |
| Server.NothingAfterStop | agent/server.py:349-356 | nothing after the first result or exception changes the outcome |
| Server.ErrorEndsStream | agent/server.py:362-368 | an exception ends the stream with exactly that error as its last event, and nothing is saved |
| Server.SavedLines | agent/server.py:332-334 | the saved content splits into the encoded user entry, followed by the encoded reply when text streamed |
| Server.SavedTranscriptReadsBack | agent/server.py:330-344 | reading a saved transcript back gives the user's message, then the assistant's concatenated reply when there was any |
| Server.SavedTranscriptTitle | agent/server.py:330-344 | a saved transcript is listed under the user's message as its title, and has none for an empty message |

## Left out

- Filesystem and S3 I/O are not modelled.
  - The bucket and the directory tree are maps, and S3's listing pages are a parameter.
  - The continuation token, retries, UTF-8 encoding of bodies and boto3 set-up are left out.
  - S3 ClientErrors other than a missing key are not modelled. Python re-raises them.
  - I/O failures while deleting a local file are not modelled. Python returns False.
- The local directory tree is a map keyed by session id.
  - The order of the recursive walk is the parameter `found`.
  - Two files with the same name in different subdirectories are not modelled.
  - Python finds a session's file with `rglob(f"{session_id}.jsonl")`, so `*`, `?` and `[` in an id act as glob wildcards. For example, `get_session("*")` reads the first transcript found, and `delete_session("*")` deletes it. The map is keyed by the literal id, so the model does not match such patterns.
  - A missing base directory is an empty map.
  - The storage path is `id + ".jsonl"` rather than the full file path.
  - Writing a file sets both its ctime and its mtime to `now`.
- `SessionData.to_dict` and `SessionInfo.to_dict` are plain dict builders and are not modelled.
- SessionStorage.SortNewestFirst: times are integers, not the ISO strings (S3) or the float key (local) that Python compares. A missing time sorts last. An S3 entry without LastModified would show the text "None" in Python, and that text sorts before every date.
- Timestamps are integers throughout. `datetime.utcnow`, `isoformat` and `fromisoformat` are not modelled, and `to_dict` writes the time as a JSON number.
- Models.FromDict: a field holding a JSON value of the wrong type is rejected. Python would store the value as it is.
- Models.PendingActionFromDict: non-string fields and non-string options are rejected. Python accepts any value.
- Models.NewPendingAction: the `type` field is annotated `Literal["approval_required", "question", "error"]`, but nothing enforces that at run time. So any string is accepted as `kind`, here and in Models.PendingActionFromDict, just as Python accepts it.
- `json.loads` and `json.dumps` are function parameters. Their round-trip property is the assumption `Json.IsCodec`. Floats are not modelled: numbers are integers, and the result message's cost is passed through as an opaque JSON value.
- Python strings are sequences of code points. `strip` uses Python's `isspace` set. No Unicode normalisation is modelled.
- The asyncio runtime is reduced to transitions.
  - A task is `TaskState`, and the response queue is a sequence.
  - `wait_for` times out when the queue is still empty at `EndWait`.
  - A `CancelledError` raised inside the wait is not modelled.
  - The coroutine that `start_agent_task` runs is not modelled.
  - As in Python, `start_agent_task` does not cancel an earlier task.
- `_cleanup_loop` is one pass `Cleanup(now)`; its one-minute sleep and its endless repetition are not modelled.
- `AgentManager.get_instance` (a class-level singleton) is not modelled.
- AgentManagement.AgentManager.Stop: agents are cancelled in an arbitrary order rather than the dict's order. Each cancel touches only its own agent, so the end state is the same.
- `update_agent_state` keyword arguments are typed `StateUpdate`s. Python's `setattr` would also store values of another type.
- Logging is left out everywhere. The warning about an unsupported Bedrock region is exposed as the predicate `RegionUnsupported`.
- The SDK's messages are datatypes.
  - A system message's `data` maps strings to strings, so a non-string `session_id` is not modelled.
  - Raw stream events are typed. A missing `text` is "". A field of an unexpected JSON type, which makes Python raise inside the loop, is not modelled.
  - A `name` that is present but null is not modelled.
  - A user message whose content is a string has an empty block list. It yields no events in Python either.
- `str(list)` of a tool result is the parameter `show`. The transcript timestamps are string parameters.
- The session save is returned as a `Save` request instead of calling the storage backend. A failing save is caught in Python and does not change the events.
- The following server parts are not modelled:
  - OpenTelemetry tracing;
  - the FastAPI app, its routes (`chat`, `health`, `list_sessions`, `get_session`), the pydantic models, `EventSourceResponse` and the CORS middleware wiring;
  - `LoggingStderr`;
  - the SDK client options.
- `agent/basic_agent.py`, `agent/main.py` and `agent/lambda_handler.py` are not part of this model.
