/**
 * The tool-event loop of a turn that has tools: the agent's events are folded into an
 * ordered trace of text fragments, status notices and citations, keeping a count of
 * finished tool calls and the set of tools started but not yet finished. When the event
 * stream ends, every tool still in that set is reported as failed.
 */
module ToolEvents {
  import opened Wrappers

  /** An agent event, already classified by its kind (see `Classify`). */
  datatype Event =
    | ChatStream(chunk: Option<string>)                     // None: the event carries no chunk
    | ToolStart(name: string)
    | ToolEnd(name: string, input: string, output: string)  // input and output as the host prints them
    | Other(kind: string)                                   // tool errors, chain events, ...

  const ChatModelStreamKind := "on_chat_model_stream"
  const ToolStartKind := "on_tool_start"
  const ToolEndKind := "on_tool_end"

  /** The kind string an event was classified from. */
  function KindOf(e: Event): string
  {
    match e
    case ChatStream(_) => ChatModelStreamKind
    case ToolStart(_) => ToolStartKind
    case ToolEnd(_, _, _) => ToolEndKind
    case Other(kind) => kind
  }

  /**
   * Dispatch on the event's kind string; every other kind is kept as `Other`. The event
   * remembers its kind, so classification loses nothing the loop dispatches on.
   */
  function Classify(kind: string, name: string, chunk: Option<string>, input: string, output: string): (e: Event)
    ensures e.ChatStream? <==> kind == ChatModelStreamKind
    ensures e.ToolStart? <==> kind == ToolStartKind
    ensures e.ToolEnd? <==> kind == ToolEndKind
    ensures e.Other? <==> kind != ChatModelStreamKind && kind != ToolStartKind && kind != ToolEndKind
    ensures KindOf(e) == kind
    ensures e.Other? ==> e.kind == kind
    ensures e.ChatStream? ==> e.chunk == chunk
    ensures (e.ToolStart? || e.ToolEnd?) ==> e.name == name
    ensures e.ToolEnd? ==> e.input == input && e.output == output
  {
    if kind == ChatModelStreamKind then ChatStream(chunk)
    else if kind == ToolStartKind then ToolStart(name)
    else if kind == ToolEndKind then ToolEnd(name, input, output)
    else Other(kind)
  }

  /** What a status notification says about a tool (its text is rendered by `HostPayload`). */
  datatype Notice =
    | Running(tool: string)
    | Returned(tool: string, output: string)
    | Failed(tool: string)

  /** One step of the trace the host observes, in order. */
  datatype Action =
    | Yield(text: string)                                            // a fragment of the response
    | Status(notice: Notice, done: bool)                             // a status notification
    | Citation(call: nat, tool: string, input: string, output: string)  // a citation for tool call number `call`

  /** The loop's state: finished tool calls so far, and tools started but not finished. */
  datatype LoopState = LoopState(calls: nat, active: set<string>)

  const Initial := LoopState(0, {})

  /**
   * Where the loop stands after some events: the trace so far, the state, and, when
   * a tool end named a tool that was not active, that name (`set.remove` raised).
   */
  datatype Run = Run(out: seq<Action>, state: LoopState, error: Option<string>)

  /**
   * The effect of one event on the loop. A chunk is yielded verbatim when it is non-empty.
   * A tool start yields the separator before its "running" status and activates the tool.
   * A tool end counts one more call, sends the "returned" status before the citation for
   * that call number, and deactivates the tool, failing when it was not active. Every
   * other event does nothing.
   */
  function Dispatch(st: LoopState, e: Event): (r: Run)
    ensures r.state.calls == st.calls + (if e.ToolEnd? then 1 else 0)
    ensures r.error.Some? <==> e.ToolEnd? && e.name !in st.active
    ensures r.error.Some? ==> r.error.value == e.name
    ensures !e.ToolStart? && !e.ToolEnd? ==> r.state == st
    ensures e.ChatStream? ==>
      r.out == if e.chunk.Some? && e.chunk.value != "" then [Yield(e.chunk.value)] else []
    ensures e.ToolStart? ==>
      r.out == [Yield("\n"), Status(Running(e.name), false)] && r.state.active == st.active + {e.name}
    ensures e.ToolEnd? ==>
      && r.out == [Status(Returned(e.name, e.output), true), Citation(st.calls + 1, e.name, e.input, e.output)]
      && r.state.active == st.active - {e.name}
    ensures e.Other? ==> r.out == []
  {
    match e
    case ChatStream(chunk) =>
      Run(if chunk.Some? && chunk.value != "" then [Yield(chunk.value)] else [], st, None)
    case ToolStart(name) =>
      Run([Yield("\n"), Status(Running(name), false)], st.(active := st.active + {name}), None)
    case ToolEnd(name, input, output) =>
      var k := st.calls + 1;
      Run([Status(Returned(name, output), true), Citation(k, name, input, output)],
          LoopState(k, st.active - {name}),
          if name in st.active then None else Some(name))
    case Other(_) =>
      Run([], st, None)
  }

  /**
   * The loop after the given events; after an error, later events are never read. Only
   * tools that were started are ever active, and each event finishes at most one call.
   */
  function Scan(events: seq<Event>): (r: Run)
    ensures r.state.calls <= |events|
    ensures |r.out| >= 2 * r.state.calls
    ensures r.error.Some? ==> r.error.value !in r.state.active
    decreases |events|
  {
    if |events| == 0 then Run([], Initial, None)
    else
      var prev := Scan(events[..|events| - 1]);
      if prev.error.Some? then prev
      else
        var step := Dispatch(prev.state, events[|events| - 1]);
        Run(prev.out + step.out, step.state, step.error)
  }

  /** No name occurs twice in `order`. */
  predicate Distinct(order: seq<string>) {
    forall i, j :: 0 <= i < j < |order| ==> order[i] != order[j]
  }

  /** `order` lists every element of `s` exactly once (Python's set iteration order). */
  predicate Enumerates(order: seq<string>, s: set<string>) {
    && Distinct(order)
    && (forall k :: 0 <= k < |order| ==> order[k] in s)
    && (forall x :: x in s ==> x in order)
  }

  /** The statuses of the final reconciliation, one per name, in the given order. */
  function FailureStatuses(order: seq<string>): (r: seq<Action>)
    ensures |r| == |order|
    ensures forall k :: 0 <= k < |r| ==> r[k] == Status(Failed(order[k]), true)
  {
    seq(|order|, k requires 0 <= k < |order| => Status(Failed(order[k]), true))
  }

  /**
   * How the loop ends: normally, by the exception that an unknown tool end raises, or by an
   * exception from the event stream itself.
   */
  datatype Outcome =
    | Completed(out: seq<Action>)
    | Raised(out: seq<Action>, missing: string)
    | Interrupted(out: seq<Action>)

  /**
   * The whole loop: fold the events, then, unless it raised, report every tool still
   * active as failed, in the order the set is iterated.
   */
  function ToolLoop(events: seq<Event>, order: seq<string>): (r: Outcome)
    requires Scan(events).error.None? ==> Enumerates(order, Scan(events).state.active)
    ensures r.Completed? <==> Scan(events).error.None?
    ensures r.Raised? ==> Scan(events).error == Some(r.missing)
    ensures !r.Interrupted?
    ensures Scan(events).out <= r.out
    ensures forall k :: |Scan(events).out| <= k < |r.out| ==>
      r.out[k].Status? && r.out[k].done && r.out[k].notice.Failed?
      && r.out[k].notice.tool in Scan(events).state.active
  {
    var run := Scan(events);
    match run.error
    case Some(name) => Raised(run.out, name)
    case None => Completed(run.out + FailureStatuses(order))
  }

  /**
   * The loop over a stream that fails after the given events: the exception leaves the
   * loop before the reconciliation, so the tools still active are never reported.
   */
  function InterruptedToolLoop(events: seq<Event>): (r: Outcome)
    ensures r.out == Scan(events).out
    ensures !r.Completed?
    ensures r.Raised? <==> Scan(events).error.Some?
  {
    var run := Scan(events);
    match run.error
    case Some(name) => Raised(run.out, name)
    case None => Interrupted(run.out)
  }

  /** One more event appends its effect to the trace, unless the loop has already raised. */
  lemma ScanSnoc(events: seq<Event>, e: Event)
    ensures Scan(events).error.Some? ==> Scan(events + [e]) == Scan(events)
    ensures Scan(events).error.None? ==>
      var d := Dispatch(Scan(events).state, e);
      Scan(events + [e]) == Run(Scan(events).out + d.out, d.state, d.error)
  {
    assert (events + [e])[..|events|] == events;
  }

  /** Once the loop has raised, more events change nothing. */
  lemma {:induction false} ErrorIsFinal(events: seq<Event>, k: nat)
    requires k <= |events| && Scan(events[..k]).error.Some?
    ensures Scan(events) == Scan(events[..k])
    decreases |events| - k
  {
    if k < |events| {
      assert events[..k + 1][..k] == events[..k];
      ErrorIsFinal(events, k + 1);
    } else {
      assert events[..k] == events;
    }
  }

  /** One pass of the pipe's loop body, updating the trace, the counter and the active set in place. */
  method HandleEvent(out0: seq<Action>, calls0: nat, active0: set<string>, e: Event)
    returns (out: seq<Action>, calls: nat, active: set<string>, missing: Option<string>)
    ensures out == out0 + Dispatch(LoopState(calls0, active0), e).out
    ensures missing == Dispatch(LoopState(calls0, active0), e).error
    ensures LoopState(calls, active) == Dispatch(LoopState(calls0, active0), e).state
  {
    out, calls, active, missing := out0, calls0, active0, None;
    match e {
      case ChatStream(chunk) =>
        if chunk.Some? && chunk.value != "" {
          out := out + [Yield(chunk.value)];
        }
      case ToolStart(name) =>
        out := out + [Yield("\n")];
        out := out + [Status(Running(name), false)];
        active := active + {name};
      case ToolEnd(name, input, output) =>
        calls := calls + 1;
        out := out + [Status(Returned(name, output), true)];
        out := out + [Citation(calls, name, input, output)];
        if name !in active {
          missing := Some(name);
          return;
        }
        active := active - {name};
      case Other(_) =>
    }
  }

  /**
   * The event loop as the pipe runs it, one event at a time with mutable state; it stops
   * at the first tool end whose tool is not active, as `set.remove` raises there.
   */
  method ConsumeEvents(events: seq<Event>) returns (out: seq<Action>, calls: nat, active: set<string>, missing: Option<string>)
    ensures Scan(events) == Run(out, LoopState(calls, active), missing)
  {
    calls, active, out, missing := 0, {}, [], None;
    var i := 0;
    while i < |events|
      invariant 0 <= i <= |events|
      invariant Scan(events[..i]) == Run(out, LoopState(calls, active), None)
      invariant missing == None
    {
      assert events[..i + 1] == events[..i] + [events[i]];
      ScanSnoc(events[..i], events[i]);
      out, calls, active, missing := HandleEvent(out, calls, active, events[i]);
      if missing.Some? {
        ErrorIsFinal(events, i + 1);
        return;
      }
      i := i + 1;
    }
    assert events[..i] == events;
  }

  /** The final loop of the pipe: one "failed" status per tool left, in whatever order the set yields. */
  method ReportLeftovers(active: set<string>) returns (statuses: seq<Action>, order: seq<string>)
    ensures Enumerates(order, active)
    ensures statuses == FailureStatuses(order)
  {
    statuses, order := [], [];
    var left := active;
    while left != {}
      invariant left <= active
      invariant Enumerates(order, active - left)
      invariant statuses == FailureStatuses(order)
      decreases |left|
    {
      var name :| name in left;
      order := order + [name];
      statuses := statuses + [Status(Failed(name), true)];
      left := left - {name};
    }
  }

  /**
   * The whole loop as the pipe runs it: consume the events, then, unless that raised,
   * report the tools still active.
   */
  method StreamTools(events: seq<Event>) returns (out: seq<Action>, missing: Option<string>, reconciled: seq<string>)
    ensures missing == Scan(events).error
    ensures missing.Some? ==> out == Scan(events).out && reconciled == []
    ensures missing.None? ==> Enumerates(reconciled, Scan(events).state.active)
    ensures missing.None? ==> out == Scan(events).out + FailureStatuses(reconciled)
  {
    var calls, active;
    out, calls, active, missing := ConsumeEvents(events);
    reconciled := [];
    if missing.None? {
      var statuses;
      statuses, reconciled := ReportLeftovers(active);
      out := out + statuses;
    }
  }
}
