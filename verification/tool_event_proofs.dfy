/**
 * Properties of the tool-event loop, stated against definitions that do not carry the
 * loop's state: which tools are pending is read off the events, and what the host sees
 * is read off the trace.
 */
module ToolEventProofs {
  import opened Wrappers
  import opened ToolEvents

  // ---------------------------------------------------------------------------
  // Reading the events and the trace

  /** The elements of `s` that satisfy `p`, in order. */
  function Filter<T>(s: seq<T>, p: T -> bool): (r: seq<T>)
    ensures |r| <= |s|
    ensures forall k :: 0 <= k < |r| ==> p(r[k])
    decreases |s|
  {
    if |s| == 0 then []
    else Filter(s[..|s| - 1], p) + (if p(s[|s| - 1]) then [s[|s| - 1]] else [])
  }

  lemma {:induction false} FilterAppend<T>(a: seq<T>, b: seq<T>, p: T -> bool)
    ensures Filter(a + b, p) == Filter(a, p) + Filter(b, p)
    decreases |b|
  {
    if |b| == 0 {
      assert a + b == a;
    } else {
      var b' := b[..|b| - 1];
      assert (a + b)[..|a + b| - 1] == a + b';
      FilterAppend(a, b', p);
    }
  }

  lemma {:induction false} FilterNone<T>(s: seq<T>, p: T -> bool)
    requires forall k :: 0 <= k < |s| ==> !p(s[k])
    ensures Filter(s, p) == []
    decreases |s|
  {
    if |s| > 0 {
      FilterNone(s[..|s| - 1], p);
    }
  }

  predicate IsYield(a: Action) { a.Yield? }
  predicate IsCitation(a: Action) { a.Citation? }
  predicate IsToolEnd(e: Event) { e.ToolEnd? }

  /** `a` is a terminal (done) status about tool `n`: it returned, or it failed. */
  predicate Closes(a: Action, n: string) {
    a.Status? && a.done && !a.notice.Running? && a.notice.tool == n
  }

  predicate EndsTool(e: Event, n: string) {
    e.ToolEnd? && e.name == n
  }

  /** No event after position `i` ends tool `n`. */
  predicate UnendedAfter(events: seq<Event>, i: nat, n: string) {
    forall j :: i < j < |events| ==> !EndsTool(events[j], n)
  }

  ghost predicate Started(events: seq<Event>, n: string) {
    exists i :: 0 <= i < |events| && events[i] == ToolStart(n)
  }

  /** Some start of `n` has not been followed by an end of `n`. */
  ghost predicate Pending(events: seq<Event>, n: string) {
    exists i :: 0 <= i < |events| && events[i] == ToolStart(n) && UnendedAfter(events, i, n)
  }

  /** Some terminal status about `n` appears in the trace. */
  ghost predicate Answered(out: seq<Action>, n: string) {
    exists k :: 0 <= k < |out| && Closes(out[k], n)
  }

  function CountStarts(events: seq<Event>, n: string): nat
    decreases |events|
  {
    if |events| == 0 then 0
    else CountStarts(events[..|events| - 1], n) + (if events[|events| - 1] == ToolStart(n) then 1 else 0)
  }

  function CountClosing(out: seq<Action>, n: string): nat
    decreases |out|
  {
    if |out| == 0 then 0
    else CountClosing(out[..|out| - 1], n) + (if Closes(out[|out| - 1], n) then 1 else 0)
  }

  lemma {:induction false} CountClosingAppend(a: seq<Action>, b: seq<Action>, n: string)
    ensures CountClosing(a + b, n) == CountClosing(a, n) + CountClosing(b, n)
    decreases |b|
  {
    if |b| == 0 {
      assert a + b == a;
    } else {
      var b' := b[..|b| - 1];
      assert (a + b)[..|a + b| - 1] == a + b';
      CountClosingAppend(a, b', n);
    }
  }

  /** How often `x` occurs in `s`. */
  function Count<T(==)>(s: seq<T>, x: T): nat
    decreases |s|
  {
    if |s| == 0 then 0
    else Count(s[..|s| - 1], x) + (if s[|s| - 1] == x then 1 else 0)
  }

  lemma {:induction false} CountAppend<T>(a: seq<T>, b: seq<T>, x: T)
    ensures Count(a + b, x) == Count(a, x) + Count(b, x)
    decreases |b|
  {
    if |b| == 0 {
      assert a + b == a;
    } else {
      var b' := b[..|b| - 1];
      assert (a + b)[..|a + b| - 1] == a + b';
      CountAppend(a, b', x);
    }
  }

  lemma {:induction false} CountAbsent<T>(s: seq<T>, x: T)
    requires x !in s
    ensures Count(s, x) == 0
    decreases |s|
  {
    if |s| > 0 {
      assert s[..|s| - 1] <= s;
      CountAbsent(s[..|s| - 1], x);
    }
  }

  /** The text fragments the events call for: each non-empty chunk, and a newline per tool start. */
  function ExpectedText(e: Event): seq<Action>
  {
    match e
    case ChatStream(Some(c)) => if c == "" then [] else [Yield(c)]
    case ToolStart(_) => [Yield("\n")]
    case _ => []
  }

  function ExpectedTexts(events: seq<Event>): seq<Action>
    decreases |events|
  {
    if |events| == 0 then []
    else ExpectedTexts(events[..|events| - 1]) + ExpectedText(events[|events| - 1])
  }

  // ---------------------------------------------------------------------------
  // Streaming

  /** The trace is emitted as the events arrive: later events only append to it. */
  lemma {:induction false} OutputOnlyGrows(events: seq<Event>, more: seq<Event>)
    ensures Scan(events).out <= Scan(events + more).out
    decreases |more|
  {
    if |more| == 0 {
      assert events + more == events;
    } else {
      var m' := more[..|more| - 1];
      assert events + more == (events + m') + [more[|more| - 1]];
      OutputOnlyGrows(events, m');
      ScanSnoc(events + m', more[|more| - 1]);
    }
  }

  // ---------------------------------------------------------------------------
  // The active set

  lemma PendingSnoc(events: seq<Event>, e: Event, n: string)
    ensures e == ToolStart(n) ==> Pending(events + [e], n)
    ensures EndsTool(e, n) ==> !Pending(events + [e], n)
    ensures e != ToolStart(n) && !EndsTool(e, n) ==> (Pending(events + [e], n) <==> Pending(events, n))
  {
    var s := events + [e];
    if e == ToolStart(n) {
      assert s[|events|] == ToolStart(n) && UnendedAfter(s, |events|, n);
    } else if EndsTool(e, n) {
      forall i | 0 <= i < |s| && s[i] == ToolStart(n)
        ensures !UnendedAfter(s, i, n)
      {
        assert EndsTool(s[|events|], n);
      }
    } else {
      if Pending(s, n) {
        var i :| 0 <= i < |s| && s[i] == ToolStart(n) && UnendedAfter(s, i, n);
        assert events[i] == ToolStart(n);
        assert UnendedAfter(events, i, n) by {
          forall j | i < j < |events| ensures !EndsTool(events[j], n) {
            assert events[j] == s[j];
          }
        }
      }
      if Pending(events, n) {
        var i :| 0 <= i < |events| && events[i] == ToolStart(n) && UnendedAfter(events, i, n);
        assert s[i] == ToolStart(n);
        assert UnendedAfter(s, i, n) by {
          forall j | i < j < |s| ensures !EndsTool(s[j], n) {
            if j < |events| {
              assert s[j] == events[j];
            }
          }
        }
      }
    }
  }

  /**
   * While the loop has not raised, the active set holds exactly the tools that have a
   * start not followed by an end of the same name; two starts of one name make one entry.
   */
  lemma {:induction false} ActiveIsPending(events: seq<Event>, n: string)
    requires Scan(events).error.None?
    ensures n in Scan(events).state.active <==> Pending(events, n)
    decreases |events|
  {
    if |events| > 0 {
      var pre, e := events[..|events| - 1], events[|events| - 1];
      assert events == pre + [e];
      ScanSnoc(pre, e);
      ActiveIsPending(pre, n);
      PendingSnoc(pre, e, n);
    }
  }

  ghost predicate EndsMatched(events: seq<Event>) {
    forall i :: 0 <= i < |events| && events[i].ToolEnd? ==> Pending(events[..i], events[i].name)
  }

  /** The loop completes iff every tool end follows a pending start of the same tool. */
  lemma {:induction false} CompletesIffEndsMatched(events: seq<Event>)
    ensures Scan(events).error.None? <==> EndsMatched(events)
    decreases |events|
  {
    if |events| > 0 {
      var pre, e := events[..|events| - 1], events[|events| - 1];
      assert events == pre + [e];
      ScanSnoc(pre, e);
      CompletesIffEndsMatched(pre);
      assert forall i :: 0 <= i < |pre| ==> events[..i] == pre[..i];
      assert events[..|pre|] == pre;
      if Scan(pre).error.None? && e.ToolEnd? {
        ActiveIsPending(pre, e.name);
      }
      if EndsMatched(events) {
        assert EndsMatched(pre) by {
          forall i | 0 <= i < |pre| && pre[i].ToolEnd? ensures Pending(pre[..i], pre[i].name) {
            assert events[i] == pre[i];
          }
        }
      }
      if Scan(events).error.None? {
        forall i | 0 <= i < |events| && events[i].ToolEnd? ensures Pending(events[..i], events[i].name) {
          if i < |pre| {
            assert events[i] == pre[i];
          }
        }
      }
    }
  }

  // ---------------------------------------------------------------------------
  // Every started tool gets a terminal status

  lemma {:induction false} StartedIsActiveOrAnswered(events: seq<Event>, n: string)
    requires Scan(events).error.None? && Started(events, n)
    ensures n in Scan(events).state.active || Answered(Scan(events).out, n)
    decreases |events|
  {
    var pre, e := events[..|events| - 1], events[|events| - 1];
    assert events == pre + [e];
    ScanSnoc(pre, e);
    var before := Scan(pre);
    var out := Scan(events).out;
    if e.ToolEnd? && e.name == n {
      assert Closes(out[|before.out|], n);
    } else if Started(pre, n) {
      StartedIsActiveOrAnswered(pre, n);
      if Answered(before.out, n) {
        var k :| 0 <= k < |before.out| && Closes(before.out[k], n);
        assert out[k] == before.out[k];
      }
    } else {
      var i :| 0 <= i < |events| && events[i] == ToolStart(n);
      assert i == |pre|;
    }
  }

  /**
   * When the loop completes, every tool that was started has a terminal status in the
   * trace: the one it returned with, or the failure reported at the end of the stream.
   */
  lemma EveryStartedToolIsClosed(events: seq<Event>, order: seq<string>, n: string)
    requires Scan(events).error.None? && Enumerates(order, Scan(events).state.active)
    requires Started(events, n)
    ensures Answered(ToolLoop(events, order).out, n)
  {
    var run := Scan(events);
    var out := ToolLoop(events, order).out;
    StartedIsActiveOrAnswered(events, n);
    if Answered(run.out, n) {
      var k :| 0 <= k < |run.out| && Closes(run.out[k], n);
      assert out[k] == run.out[k];
    } else {
      var j :| 0 <= j < |order| && order[j] == n;
      assert out[|run.out| + j] == Status(Failed(n), true);
    }
  }

  // ---------------------------------------------------------------------------
  // Failure statuses come only from the reconciliation, once per left-over tool

  lemma {:induction false} NoFailureDuringLoop(events: seq<Event>)
    ensures forall k :: 0 <= k < |Scan(events).out| ==> !(Scan(events).out[k].Status? && Scan(events).out[k].notice.Failed?)
    decreases |events|
  {
    if |events| > 0 {
      var pre, e := events[..|events| - 1], events[|events| - 1];
      assert events == pre + [e];
      ScanSnoc(pre, e);
      NoFailureDuringLoop(pre);
    }
  }

  lemma {:induction false} FailureStatusCount(order: seq<string>, n: string)
    requires Distinct(order)
    ensures Count(FailureStatuses(order), Status(Failed(n), true)) == if n in order then 1 else 0
    decreases |order|
  {
    if |order| > 0 {
      var pre, last := order[..|order| - 1], order[|order| - 1];
      assert order == pre + [last];
      assert FailureStatuses(order)[..|order| - 1] == FailureStatuses(pre);
      FailureStatusCount(pre, n);
      assert last !in pre;
    }
  }

  /**
   * When the loop completes, the trace holds exactly one "failed" status for each tool
   * still active at the end of the stream, and none for any other tool.
   */
  lemma ExactlyOneFailurePerLeftover(events: seq<Event>, order: seq<string>, n: string)
    requires Scan(events).error.None? && Enumerates(order, Scan(events).state.active)
    ensures Count(ToolLoop(events, order).out, Status(Failed(n), true))
      == if n in Scan(events).state.active then 1 else 0
  {
    NoFailureDuringLoop(events);
    CountAbsent(Scan(events).out, Status(Failed(n), true));
    CountAppend(Scan(events).out, FailureStatuses(order), Status(Failed(n), true));
    FailureStatusCount(order, n);
  }

  /** The "failed" statuses all come after everything the events produced. */
  lemma FailuresComeLast(events: seq<Event>, order: seq<string>)
    requires Scan(events).error.None? && Enumerates(order, Scan(events).state.active)
    ensures ToolLoop(events, order).out[..|Scan(events).out|] == Scan(events).out
    ensures forall k ::
      (0 <= k < |ToolLoop(events, order).out| && ToolLoop(events, order).out[k].Status?
       && ToolLoop(events, order).out[k].notice.Failed?) ==> k >= |Scan(events).out|
  {
    NoFailureDuringLoop(events);
  }

  /** A loop that raises reports no failures: the reconciliation never runs. */
  lemma RaisedReportsNoFailure(events: seq<Event>, order: seq<string>)
    requires Scan(events).error.Some?
    ensures ToolLoop(events, order).Raised?
    ensures ToolLoop(events, order).missing == Scan(events).error.value
    ensures forall k :: 0 <= k < |ToolLoop(events, order).out| ==>
      !(ToolLoop(events, order).out[k].Status? && ToolLoop(events, order).out[k].notice.Failed?)
  {
    NoFailureDuringLoop(events);
  }

  /**
   * When the event stream breaks, no tool is reported failed, so a tool that was running
   * is left without any terminal status.
   */
  lemma InterruptedStreamLeavesToolsOpen(events: seq<Event>, n: string)
    requires Scan(events).error.None?
    requires n in Scan(events).state.active
    ensures forall k :: 0 <= k < |InterruptedToolLoop(events).out| ==>
      InterruptedToolLoop(events).out[k] != Status(Failed(n), true)
    ensures Pending(events, n)
  {
    NoFailureDuringLoop(events);
    ActiveIsPending(events, n);
  }

  // ---------------------------------------------------------------------------
  // Exactly one terminal status per start, when the engine never restarts a running tool

  /** No tool is started again while a previous start of it is still pending. */
  ghost predicate NoRestartWhileRunning(events: seq<Event>) {
    forall i :: 0 <= i < |events| && events[i].ToolStart? ==> !Pending(events[..i], events[i].name)
  }

  lemma DispatchClosing(st: LoopState, e: Event, n: string)
    ensures CountClosing(Dispatch(st, e).out, n) == if EndsTool(e, n) then 1 else 0
  {
    var out := Dispatch(st, e).out;
    if |out| == 2 {
      assert out[..1] == [out[0]];
      assert out[..1][..0] == [];
      assert CountClosing(out, n) == CountClosing([out[0]], n) + (if Closes(out[1], n) then 1 else 0);
      assert CountClosing([out[0]], n) == if Closes(out[0], n) then 1 else 0;
    } else if |out| == 1 {
      assert out[..0] == [];
    }
  }

  lemma {:induction false} ClosingsTrackStarts(events: seq<Event>, n: string)
    requires Scan(events).error.None? && NoRestartWhileRunning(events)
    ensures CountClosing(Scan(events).out, n) + (if n in Scan(events).state.active then 1 else 0)
      == CountStarts(events, n)
    decreases |events|
  {
    if |events| > 0 {
      var pre, e := events[..|events| - 1], events[|events| - 1];
      assert events == pre + [e];
      ScanSnoc(pre, e);
      assert NoRestartWhileRunning(pre) by {
        forall i | 0 <= i < |pre| && pre[i].ToolStart? ensures !Pending(pre[..i], pre[i].name) {
          assert events[..i] == pre[..i];
          assert events[i] == pre[i];
        }
      }
      ClosingsTrackStarts(pre, n);
      CountClosingAppend(Scan(pre).out, Dispatch(Scan(pre).state, e).out, n);
      DispatchClosing(Scan(pre).state, e, n);
      if e == ToolStart(n) {
        assert events[..|pre|] == pre;
        ActiveIsPending(pre, n);
      }
    }
  }

  lemma {:induction false} FailureStatusClosing(order: seq<string>, n: string)
    requires Distinct(order)
    ensures CountClosing(FailureStatuses(order), n) == if n in order then 1 else 0
    decreases |order|
  {
    if |order| > 0 {
      var pre, last := order[..|order| - 1], order[|order| - 1];
      assert order == pre + [last];
      assert FailureStatuses(order)[..|order| - 1] == FailureStatuses(pre);
      FailureStatusClosing(pre, n);
      assert last !in pre;
    }
  }

  /**
   * If the engine never starts a tool that is already running, each tool receives exactly
   * as many terminal statuses as it had starts: every start is closed once, never twice.
   */
  lemma OneClosingPerStart(events: seq<Event>, order: seq<string>, n: string)
    requires Scan(events).error.None? && Enumerates(order, Scan(events).state.active)
    requires NoRestartWhileRunning(events)
    ensures CountClosing(ToolLoop(events, order).out, n) == CountStarts(events, n)
  {
    ClosingsTrackStarts(events, n);
    CountClosingAppend(Scan(events).out, FailureStatuses(order), n);
    FailureStatusClosing(order, n);
  }

  // ---------------------------------------------------------------------------
  // Text fragments and citations

  lemma DispatchYields(st: LoopState, e: Event)
    ensures Filter(Dispatch(st, e).out, IsYield) == ExpectedText(e)
  {
  }

  lemma DispatchCitations(st: LoopState, e: Event)
    ensures Filter(Dispatch(st, e).out, IsCitation)
      == if e.ToolEnd? then [Citation(st.calls + 1, e.name, e.input, e.output)] else []
  {
  }

  lemma {:induction false} ScanTexts(events: seq<Event>)
    requires Scan(events).error.None?
    ensures Filter(Scan(events).out, IsYield) == ExpectedTexts(events)
    decreases |events|
  {
    if |events| > 0 {
      var pre, e := events[..|events| - 1], events[|events| - 1];
      assert events == pre + [e];
      ScanSnoc(pre, e);
      ScanTexts(pre);
      FilterAppend(Scan(pre).out, Dispatch(Scan(pre).state, e).out, IsYield);
      DispatchYields(Scan(pre).state, e);
    }
  }

  /**
   * The response text is the non-empty chunks, verbatim and in arrival order, with one
   * newline in place of each tool start: nothing dropped, duplicated or reordered.
   */
  lemma TextsInOrder(events: seq<Event>, order: seq<string>)
    requires Scan(events).error.None? && Enumerates(order, Scan(events).state.active)
    ensures Filter(ToolLoop(events, order).out, IsYield) == ExpectedTexts(events)
  {
    ScanTexts(events);
    FilterAppend(Scan(events).out, FailureStatuses(order), IsYield);
    FilterNone(FailureStatuses(order), IsYield);
  }

  lemma {:induction false} ScanCitationNumbers(events: seq<Event>)
    ensures var c := Filter(Scan(events).out, IsCitation);
      && |c| == Scan(events).state.calls
      && forall k :: 0 <= k < |c| ==> c[k].call == k + 1
    decreases |events|
  {
    if |events| > 0 {
      var pre, e := events[..|events| - 1], events[|events| - 1];
      assert events == pre + [e];
      ScanSnoc(pre, e);
      ScanCitationNumbers(pre);
      if Scan(pre).error.None? {
        var d := Dispatch(Scan(pre).state, e);
        FilterAppend(Scan(pre).out, d.out, IsCitation);
        DispatchCitations(Scan(pre).state, e);
      }
    }
  }

  lemma {:induction false} ScanCitationsFollowEnds(events: seq<Event>)
    requires Scan(events).error.None?
    ensures var c, ends := Filter(Scan(events).out, IsCitation), Filter(events, IsToolEnd);
      && |c| == |ends|
      && forall k :: 0 <= k < |c| ==> c[k] == Citation(k + 1, ends[k].name, ends[k].input, ends[k].output)
    decreases |events|
  {
    if |events| > 0 {
      var pre, e := events[..|events| - 1], events[|events| - 1];
      assert events == pre + [e];
      ScanSnoc(pre, e);
      ScanCitationsFollowEnds(pre);
      ScanCitationNumbers(pre);
      var d := Dispatch(Scan(pre).state, e);
      FilterAppend(Scan(pre).out, d.out, IsCitation);
      DispatchCitations(Scan(pre).state, e);
    }
  }

  /**
   * Citations are numbered 1, 2, ... in the order tools finish, whatever their names, and
   * the count of finished calls equals the number of citations. When the loop completes,
   * the k-th citation belongs to the k-th tool end, with its name, input and output.
   */
  lemma CitationsNumberToolEnds(events: seq<Event>, order: seq<string>)
    requires Scan(events).error.None? ==> Enumerates(order, Scan(events).state.active)
    ensures var c := Filter(ToolLoop(events, order).out, IsCitation);
      && |c| == Scan(events).state.calls
      && forall k :: 0 <= k < |c| ==> c[k].call == k + 1
    ensures ToolLoop(events, order).Completed? ==>
      var c, ends := Filter(ToolLoop(events, order).out, IsCitation), Filter(events, IsToolEnd);
      && |c| == |ends|
      && forall k :: 0 <= k < |c| ==> c[k] == Citation(k + 1, ends[k].name, ends[k].input, ends[k].output)
  {
    ScanCitationNumbers(events);
    if Scan(events).error.None? {
      ScanCitationsFollowEnds(events);
      FilterAppend(Scan(events).out, FailureStatuses(order), IsCitation);
      FilterNone(FailureStatuses(order), IsCitation);
    }
  }

  /** Only "running" statuses are in progress; every other status is terminal. */
  lemma {:induction false} DoneIffTerminal(events: seq<Event>)
    ensures forall k :: 0 <= k < |Scan(events).out| && Scan(events).out[k].Status? ==>
      (Scan(events).out[k].done <==> !Scan(events).out[k].notice.Running?)
    decreases |events|
  {
    if |events| > 0 {
      var pre, e := events[..|events| - 1], events[|events| - 1];
      assert events == pre + [e];
      ScanSnoc(pre, e);
      DoneIffTerminal(pre);
    }
  }

  // ---------------------------------------------------------------------------
  // Scenarios

  /** One tool that starts and finishes: separator, running, returned, then citation 1. */
  lemma OneToolCall()
    ensures ToolLoop([ToolStart("calculator"), ToolEnd("calculator", "{a:2,b:2}", "4")], [])
      == Completed([
           Yield("\n"),
           Status(Running("calculator"), false),
           Status(Returned("calculator", "4"), true),
           Citation(1, "calculator", "{a:2,b:2}", "4")])
  {
    var e0, e1 := ToolStart("calculator"), ToolEnd("calculator", "{a:2,b:2}", "4");
    ScanSnoc([], e0);
    assert [] + [e0] == [e0];
    ScanSnoc([e0], e1);
    assert [e0] + [e1] == [e0, e1];
  }

  /** A tool that starts and is never heard of again is reported failed after the stream. */
  lemma AbandonedTool()
    ensures ToolLoop([ToolStart("search")], ["search"])
      == Completed([Yield("\n"), Status(Running("search"), false), Status(Failed("search"), true)])
  {
    ScanSnoc([], ToolStart("search"));
    assert [] + [ToolStart("search")] == [ToolStart("search")];
  }

  /**
   * Two concurrent calls of one tool: the second end finds the name already removed, so
   * the loop raises after reporting it, and no tool is reported failed.
   */
  lemma ParallelSameToolRaises()
    ensures ToolLoop([ToolStart("calc"), ToolStart("calc"), ToolEnd("calc", "a", "1"), ToolEnd("calc", "b", "2")], [])
      == Raised([
           Yield("\n"), Status(Running("calc"), false),
           Yield("\n"), Status(Running("calc"), false),
           Status(Returned("calc", "1"), true), Citation(1, "calc", "a", "1"),
           Status(Returned("calc", "2"), true), Citation(2, "calc", "b", "2")], "calc")
  {
    var s, e, e' := ToolStart("calc"), ToolEnd("calc", "a", "1"), ToolEnd("calc", "b", "2");
    var started := [Yield("\n"), Status(Running("calc"), false)];
    ScanSnoc([], s);
    assert [] + [s] == [s];
    assert Scan([s]) == Run(started, LoopState(0, {"calc"}), None);
    ScanSnoc([s], s);
    assert [s] + [s] == [s, s];
    assert Scan([s, s]) == Run(started + started, LoopState(0, {"calc"}), None);
    ScanSnoc([s, s], e);
    assert [s, s] + [e] == [s, s, e];
    var ended := [Status(Returned("calc", "1"), true), Citation(1, "calc", "a", "1")];
    assert Scan([s, s, e]) == Run(started + started + ended, LoopState(1, {}), None);
    ScanSnoc([s, s, e], e');
    assert [s, s, e] + [e'] == [s, s, e, e'];
  }

  /** A tool running when the stream breaks gets a "running" status and nothing after it. */
  lemma BrokenStreamAfterStart()
    ensures InterruptedToolLoop([ToolStart("search")])
      == Interrupted([Yield("\n"), Status(Running("search"), false)])
  {
    ScanSnoc([], ToolStart("search"));
    assert [] + [ToolStart("search")] == [ToolStart("search")];
  }
}
