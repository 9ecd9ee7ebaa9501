# OWUI-ReAct pipe: tool-event loop model

This project models the core of the Open WebUI "ReAct with Langfuse" pipe in Dafny. The
pipe hands one chat turn to a tool-using LangGraph agent. It streams the agent's text back
to the host and reports each tool's progress as status and citation notifications.

The heart of the model is the loop in `Pipe.pipe` that consumes the agent's events. Here it
is a pure fold over a sequence of classified events (`ToolEvents.Scan`) with two pieces of
state: the number of finished tool calls and the set of tools started but not finished.
The fold produces an ordered trace of actions:
- a text fragment (`Yield`);
- a status notice (`Status`: running, returned or failed, with its done flag);
- a citation (`Citation`).

When the stream ends, every tool still in the set is reported as failed (`ToolLoop`). The
method `ToolEvents.StreamTools` does the same work the way the pipe does, with mutable
state and loops, and is proved to compute the fold.

Around the loop, the model also covers:
- `Pipe.setup`, which derives the backend and tracing configuration from the settings (`Settings`);
- model-id stripping (`ModelId`);
- backend selection and turn routing (`Turn`);
- the host-visible payloads: status messages and `Tool call N` citation urls (`HostPayload`).

The trace is kept in a structured form and rendered to strings separately.
`HostPayload.RenderedStatusesAmbiguous` shows why. A tool that returns `B' failed.` renders
to the same message as the failure of a tool named `A' returned B`. So counting claims about
"failed" statuses are stated on the structured trace.

Inputs that the real pipe gets from I/O are parameters here:
- the agent's event sequence, the backend's chunks and completion, and whether the backend call raises (`Turn.BackendOutput`);
- the model-to-backend map that the model listing fills in (`sources`);
- the order in which Python iterates the set of leftover tools (`order`, required to list the set exactly once). `StreamTools` instead picks that order freely.

Three behaviours of the code that the model keeps:
- **A failing event stream skips the "failed" statuses.** An exception from
  `astream_events` leaves `Pipe.pipe` before the reconciliation loop. Tools that were
  running are then never reported (`InterruptedToolLoop`, `InterruptedStreamLeavesToolsOpen`).
- **A tool end for an inactive tool aborts the turn.** `started_tools.remove(name)` raises
  for a name that is not in the set. That happens after the status and the citation for
  that end have been sent, and it ends the turn without reconciliation. This includes two
  concurrent calls of the same tool (`ParallelSameToolRaises`).
- **"Exactly one terminal status per started tool" needs an assumption.** It holds only if
  the engine never restarts a tool that is still running (`OneClosingPerStart`). Without
  that, two starts of one name collapse into one entry of the set. The general guarantee is
  at least one terminal status per started tool (`EveryStartedToolIsClosed`).

## Model

| member | source | states |
|---|---|---|
| ToolEvents.Classify | react_langfuse_pipe.py:228-238 | an event is a chat chunk, a tool start or a tool end exactly when its kind is "on_chat_model_stream", "on_tool_start" or "on_tool_end", carrying its chunk, name, input and output; every other kind is kept as is; the kind string can always be read back from the event |
| ToolEvents.Dispatch | react_langfuse_pipe.py:230-247 | a non-empty chunk is yielded verbatim and an empty or missing one yields nothing; a tool start yields the newline before its "running" status and activates the tool; a tool end counts exactly one more call, sends "returned" before the citation numbered with the new count, and deactivates the tool, failing with its name exactly when it was not active; other events do nothing |
| ToolEvents.Scan | react_langfuse_pipe.py:223-247 | the event loop never counts more calls than it saw events, sends at least two actions per counted call (the status and citation themselves are `CitationsNumberToolEnds`), and the name `remove` raised for is not in the active set |
| ToolEvents.ToolLoop | react_langfuse_pipe.py:221-249 | the loop completes exactly when no tool end was unmatched, and raises with the unmatched name otherwise; the events' trace is kept as a prefix and everything after it is a done "failed" status of a tool left active |
| ToolEvents.FailureStatuses | react_langfuse_pipe.py:248-249 | one done "failed" status per leftover tool, in the given iteration order |
| ToolEvents.InterruptedToolLoop | react_langfuse_pipe.py:223-249 | when the event stream raises, the trace is what the events produced and no reconciliation follows |
| ToolEvents.ErrorIsFinal | react_langfuse_pipe.py:238-247 | once `remove` has raised, later events change nothing |
| ToolEvents.HandleEvent | react_langfuse_pipe.py:228-247 | the pipe's loop body, updating trace, counter and set in place, has exactly the effect of one dispatch step, including the counter advanced before `remove` raises |
| ToolEvents.ConsumeEvents | react_langfuse_pipe.py:221-247 | the pipe's imperative event loop ends with the same trace, counter, active set and error as the fold, stopping at the first unmatched tool end |
| ToolEvents.ReportLeftovers | react_langfuse_pipe.py:248-249 | the reconciliation loop reports each tool of the set exactly once, in some order of the set, as a done "failed" status |
| ToolEvents.StreamTools | react_langfuse_pipe.py:221-249 | the whole imperative loop gives the fold's trace and error; without an error it then reports every leftover active tool as failed exactly once |
| ToolEventProofs.OutputOnlyGrows | react_langfuse_pipe.py:223-247 | output is streamed: later events only append to the trace, never retract or reorder it |
| ToolEventProofs.ActiveIsPending | react_langfuse_pipe.py:222-247 | after any prefix that has not raised, the active set holds exactly the tools with a start not followed by an end of the same name (repeated starts collapse) |
| ToolEventProofs.CompletesIffEndsMatched | react_langfuse_pipe.py:238-247 | the loop completes iff every tool end comes while a start of that tool is pending |
| ToolEventProofs.EveryStartedToolIsClosed | react_langfuse_pipe.py:233-249 | on a completed loop every started tool has a done status in the trace: "returned" or "failed" |
| ToolEventProofs.ExactlyOneFailurePerLeftover | react_langfuse_pipe.py:248-249 | the trace holds exactly one "failed" status for each tool left active and none for any other tool |
| ToolEventProofs.FailuresComeLast | react_langfuse_pipe.py:223-249 | the completed trace begins with everything the events produced, and every "failed" status comes after it |
| ToolEventProofs.RaisedReportsNoFailure | react_langfuse_pipe.py:238-249 | a loop that raised at an unmatched tool end reports that tool's name and sends no "failed" status |
| ToolEventProofs.InterruptedStreamLeavesToolsOpen | react_langfuse_pipe.py:223-249 | when the stream breaks, a tool that is still running is pending and gets no "failed" status |
| ToolEventProofs.OneClosingPerStart | react_langfuse_pipe.py:233-249 | if no tool is restarted while running, each tool gets exactly as many done statuses as it had starts |
| ToolEventProofs.TextsInOrder | react_langfuse_pipe.py:230-235 | when no tool end is unmatched, the yielded text is the non-empty chunks verbatim and in order, with one newline per tool start: nothing dropped, duplicated or reordered |
| ToolEventProofs.CitationsNumberToolEnds | react_langfuse_pipe.py:221-246 | citations are numbered 1, 2, ... in finishing order, their count is the call counter, and on completion the k-th citation carries the k-th tool end's name, input and output |
| ToolEventProofs.DoneIffTerminal | react_langfuse_pipe.py:236-241 | a status is marked done exactly when it is not a "running" status |
| ToolEventProofs.OneToolCall | react_langfuse_pipe.py:233-247 | one start and one end of "calculator" give newline, running, returned, then citation "Tool call 1" |
| ToolEventProofs.AbandonedTool | react_langfuse_pipe.py:233-249 | a tool that starts and never ends is reported failed after the stream |
| ToolEventProofs.ParallelSameToolRaises | react_langfuse_pipe.py:233-247 | two concurrent calls of one tool: the second end raises after its status and citation have been sent |
| ToolEventProofs.BrokenStreamAfterStart | react_langfuse_pipe.py:223-249 | a stream that breaks after a tool start leaves that tool with only its "running" status |
| HostPayload.StatusText | react_langfuse_pipe.py:236-249 | the messages are exactly "Running tool " + tool, "Tool '" + tool + "' returned " + output and "Tool '" + tool + "' failed.", stated piece by piece; only "running" messages start with "R" |
| HostPayload.CitationUrl | react_langfuse_pipe.py:243 | the url is "Tool call " followed by the call number in decimal without leading zeros, whose digits read back as the number |
| HostPayload.CitationContent | react_langfuse_pipe.py:245 | the content is exactly "Tool '", the tool, "' with inputs ", the input, " returned " and the output, stated piece by piece |
| HostPayload.Render | react_langfuse_pipe.py:47-76 | each trace step reaches the host as the matching kind of payload: text as is, a status with its message and done flag, a citation with its "Tool call N" url, the tool as title and the call's content |
| HostPayload.RenderedOneToolCall | react_langfuse_pipe.py:233-247 | one "calculator" call reaches the host as "\n", "Running tool calculator", "Tool 'calculator' returned 4", then source "Tool call 1" with content "Tool 'calculator' with inputs {a:2,b:2} returned 4" |
| HostPayload.Deliver | react_langfuse_pipe.py:47-76 | with an emitter every step is delivered rendered; without one only text fragments reach the host |
| HostPayload.TextIndependentOfEmitter | react_langfuse_pipe.py:47-76 | the text the host receives is the same with or without an emitter |
| HostPayload.CitationUrlInjective | react_langfuse_pipe.py:243 | distinct call numbers give distinct "Tool call N" urls |
| HostPayload.CitationUrlsCountCalls | react_langfuse_pipe.py:239-246 | the citation urls of a run are "Tool call 1", "Tool call 2", ... in order, pairwise distinct |
| HostPayload.FailedTextInjective | react_langfuse_pipe.py:249 | a "failed" message determines the tool it names |
| HostPayload.RenderedStatusesAmbiguous | react_langfuse_pipe.py:241-249 | a "returned" message can equal a "failed" message of another tool name |
| Decimal.Format | react_langfuse_pipe.py:243 | the call number is written in decimal digits without leading zeros |
| Decimal.ValueOfFormat | react_langfuse_pipe.py:243 | reading the written call number back gives the number |
| Decimal.FormatInjective | react_langfuse_pipe.py:243 | distinct numbers are written differently |
| ModelId.Split | react_langfuse_pipe.py:174 | splitting on "." gives at least one piece, and no piece contains a dot |
| ModelId.JoinSplit | react_langfuse_pipe.py:174 | joining the pieces with "." restores the string |
| ModelId.StripProvider | react_langfuse_pipe.py:174 | for an id with a dot, the backend model id is exactly the text after the first dot, and the id is its first segment, a dot and the result; an id without a dot yields the empty model id |
| Settings.Setup | react_langfuse_pipe.py:135-159 | OpenAI is configured iff key and URL are set; Ollama iff its URL is set; setup fails iff neither is; Langfuse iff all three of its settings are set; each config carries its settings |
| Settings.DefaultsHaveNoBackend | react_langfuse_pipe.py:81-149 | with the default settings, setup raises "No API keys provided" |
| Settings.TraceHandlers | react_langfuse_pipe.py:181-186 | one Langfuse handler with the configured keys and the caller's id when tracing is configured, none otherwise |
| Turn.SelectModel | react_langfuse_pipe.py:174-186 | the call succeeds exactly when the stripped model id was listed and its backend is configured; it then uses that backend's URL and key and carries the trace handlers; otherwise it fails as unknown model or unconfigured backend |
| Turn.RunTurn | react_langfuse_pipe.py:169-249 | the probe task yields nothing before setup; setup and model-selection errors end the turn with that error and no output; a backend call is made exactly with the selected invocation; title generation yields the single completion; without tools each chunk is yielded unchanged; otherwise the tool loop's trace; an unmatched tool end fails the turn naming the tool, and a broken backend call or stream fails it as a backend failure |
| Turn.NotificationsOnlyFromToolLoop | react_langfuse_pipe.py:170-206 | only turns that run the tool loop send status or citation notifications |

## Left out

- Reading the caller's chat and message ids out of the emitter's closure (`extract_event_info`, react_langfuse_pipe.py:28-36). It has no counterpart outside Python, so the run id passed to the backend is not modelled.
- Listing models from OpenAI and Ollama (`Pipe.pipes`, react_langfuse_pipe.py:105-133). This is network I/O. Its result, the map from model id to backend, is a parameter. A `model_sources` missing because `pipes` never ran is not modelled.
- Loading the settings from environment variables and printing them (react_langfuse_pipe.py:98-103). This is I/O; the settings are a parameter.
- Building `ChatOpenAI`, `ChatOllama`, `StructuredTool`, `create_react_agent` and the Langfuse `CallbackHandler`. These are foreign library calls. The agent is an abstract producer of the event sequence, and the model records only which backend, model id, settings and handlers each call would use.
- The async machinery and the dict payloads the emitter receives (react_langfuse_pipe.py:47-76). Notifications are abstract host events.
- An exception from the host's event emitter (`send_status` and `send_citation` await it without a `try`, react_langfuse_pipe.py:51, 69) or a cancellation of the generator at a `yield`. Either would end the turn in the middle of an event and skip the reconciliation loop, like a broken stream (`InterruptedToolLoop`). The host is modelled as accepting every payload and consuming the whole stream.
- The order in which the leftover tools are reported. A Python set has no specified iteration order, so only set-level facts are stated about the "failed" statuses.
- Non-string message contents. LangChain allows a message's `content` to be a list as well as a string. The pipe asserts it is a string for the title reply and the plain stream (react_langfuse_pipe.py:191, 201), but yields an agent chunk's content unchecked (react_langfuse_pipe.py:231), so a non-empty list would be passed to the host as is. The model assumes every content is a string.
- A `__user__` dict without an `"id"` key. The caller is modelled as an optional id.
- Event payloads whose `input` or `output` is missing (Python prints `None`). Inputs and outputs are opaque strings as printed.
