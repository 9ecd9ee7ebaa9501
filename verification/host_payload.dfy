/**
 * What the host receives for each trace step: text fragments as they are, and status and
 * citation notifications with their messages rendered as the pipe formats them. Without an
 * event emitter the notifications are silently dropped and only the text is delivered.
 */
module HostPayload {
  import opened ToolEvents
  import opened ToolEventProofs
  import Decimal

  datatype HostEvent =
    | Text(fragment: string)
    | StatusEvent(description: string, done: bool)
    | SourceEvent(url: string, title: string, content: string)

  /**
   * The status message of a notice, piece by piece: "Running tool <t>", "Tool '<t>' returned
   * <output>" or "Tool '<t>' failed.". Only "running" messages start with 'R'.
   */
  function StatusText(n: Notice): (s: string)
    ensures |s| > 0 && (n.Running? <==> s[0] == 'R')
    ensures n.Running? ==> |s| == 13 + |n.tool| && s[..13] == "Running tool " && s[13..] == n.tool
    ensures !n.Running? ==> |s| > 6 + |n.tool| && s[..6] == "Tool '" && s[6..6 + |n.tool|] == n.tool
    ensures n.Returned? ==>
      && |s| == 17 + |n.tool| + |n.output|
      && s[6 + |n.tool|..17 + |n.tool|] == "' returned "
      && s[17 + |n.tool|..] == n.output
    ensures n.Failed? ==> |s| == 15 + |n.tool| && s[6 + |n.tool|..] == "' failed."
  {
    match n
    case Running(tool) => "Running tool " + tool
    case Returned(tool, output) => "Tool '" + tool + "' returned " + output
    case Failed(tool) => "Tool '" + tool + "' failed."
  }

  const CitationUrlPrefix := "Tool call "

  /**
   * Tools have no URL of their own, so a citation is identified by its call number, written
   * in decimal without leading zeros.
   */
  function CitationUrl(call: nat): (u: string)
    ensures |u| > |CitationUrlPrefix| && u[..|CitationUrlPrefix|] == CitationUrlPrefix
    ensures u[|CitationUrlPrefix|..] == Decimal.Format(call)
    ensures Decimal.AllDigits(u[|CitationUrlPrefix|..]) && Decimal.Value(u[|CitationUrlPrefix|..]) == call
  {
    Decimal.ValueOfFormat(call);
    assert (CitationUrlPrefix + Decimal.Format(call))[|CitationUrlPrefix|..] == Decimal.Format(call);
    CitationUrlPrefix + Decimal.Format(call)
  }

  /** The citation text, piece by piece: "Tool '<tool>' with inputs <input> returned <output>". */
  function CitationContent(tool: string, input: string, output: string): (c: string)
    ensures |c| == 30 + |tool| + |input| + |output|
    ensures c[..6] == "Tool '"
    ensures c[6..6 + |tool|] == tool
    ensures c[6 + |tool|..20 + |tool|] == "' with inputs "
    ensures c[20 + |tool|..20 + |tool| + |input|] == input
    ensures c[20 + |tool| + |input|..30 + |tool| + |input|] == " returned "
    ensures c[30 + |tool| + |input|..] == output
  {
    "Tool '" + tool + "' with inputs " + input + " returned " + output
  }

  /** The notification or fragment the host receives for one trace step. */
  function Render(a: Action): (h: HostEvent)
    ensures a.Yield? <==> h.Text?
    ensures a.Status? <==> h.StatusEvent?
    ensures a.Citation? <==> h.SourceEvent?
    ensures a.Yield? ==> h.fragment == a.text
    ensures a.Status? ==> h.done == a.done
    ensures a.Citation? ==> h.title == a.tool
    ensures a.Status? ==> h.description == StatusText(a.notice)
    ensures a.Citation? ==> h.url == CitationUrl(a.call)
    ensures a.Citation? ==> h.content == CitationContent(a.tool, a.input, a.output)
  {
    match a
    case Yield(text) => Text(text)
    case Status(notice, done) => StatusEvent(StatusText(notice), done)
    case Citation(call, tool, input, output) =>
      SourceEvent(CitationUrl(call), tool, CitationContent(tool, input, output))
  }

  /** The host's view of a trace, with or without an event emitter attached. */
  function Deliver(out: seq<Action>, hasEmitter: bool): (r: seq<HostEvent>)
    ensures hasEmitter ==> |r| == |out| && forall k :: 0 <= k < |r| ==> r[k] == Render(out[k])
    ensures !hasEmitter ==> forall k :: 0 <= k < |r| ==> r[k].Text?
    decreases |out|
  {
    if |out| == 0 then []
    else
      var last := out[|out| - 1];
      Deliver(out[..|out| - 1], hasEmitter)
        + (if hasEmitter || last.Yield? then [Render(last)] else [])
  }

  /** The text the host receives does not depend on whether an emitter is attached. */
  lemma {:induction false} TextIndependentOfEmitter(out: seq<Action>)
    ensures Deliver(out, false) == TextsOf(Deliver(out, true))
    decreases |out|
  {
    if |out| > 0 {
      var pre := out[..|out| - 1];
      TextIndependentOfEmitter(pre);
      var d := Deliver(out, true);
      assert d[..|d| - 1] == Deliver(pre, true);
    }
  }

  function TextsOf(hs: seq<HostEvent>): seq<HostEvent>
    decreases |hs|
  {
    if |hs| == 0 then []
    else TextsOf(hs[..|hs| - 1]) + (if hs[|hs| - 1].Text? then [hs[|hs| - 1]] else [])
  }

  /** Distinct call numbers give distinct citation urls. */
  lemma CitationUrlInjective(a: nat, b: nat)
    ensures CitationUrl(a) == CitationUrl(b) ==> a == b
  {
    // Both urls read back to their call numbers.
  }

  /** The "failed" message names its tool unambiguously. */
  lemma FailedTextInjective(a: string, b: string)
    ensures StatusText(Failed(a)) == StatusText(Failed(b)) ==> a == b
  {
    var s, t := StatusText(Failed(a)), StatusText(Failed(b));
    if s == t {
      assert |a| == |b|;
      assert a == s[6..6 + |a|];
      assert b == t[6..6 + |b|];
    }
  }

  /**
   * The rendered messages alone cannot tell a return from a failure: a tool whose output
   * ends in "' failed." reads like the failure of a differently named tool. The trace is
   * therefore reasoned about in its structured form.
   */
  lemma RenderedStatusesAmbiguous()
    ensures StatusText(Returned("A", "B' failed.")) == StatusText(Failed("A' returned B"))
  {
    assert "Tool '" + "A" + "' returned " + "B' failed." == "Tool 'A' returned B' failed.";
    assert "Tool '" + "A' returned B" + "' failed." == "Tool 'A' returned B' failed.";
  }

  /** Citations numbered 1, 2, ... render to distinct "Tool call N" urls. */
  lemma NumberedCitationUrls(c: seq<Action>)
    requires forall k :: 0 <= k < |c| ==> c[k].Citation? && c[k].call == k + 1
    ensures forall k :: 0 <= k < |c| ==> Render(c[k]).url == CitationUrlPrefix + Decimal.Format(k + 1)
    ensures forall i, j :: 0 <= i < j < |c| ==> Render(c[i]).url != Render(c[j]).url
  {
    forall i, j | 0 <= i < j < |c| ensures Render(c[i]).url != Render(c[j]).url {
      CitationUrlInjective(i + 1, j + 1);
    }
  }

  /**
   * The citations of a run carry the urls "Tool call 1", "Tool call 2", ... in the order
   * tools finish, so no two of them share a url.
   */
  lemma CitationUrlsCountCalls(events: seq<Event>, order: seq<string>)
    requires Scan(events).error.None? ==> Enumerates(order, Scan(events).state.active)
    ensures var c := Filter(ToolLoop(events, order).out, IsCitation);
      forall k :: 0 <= k < |c| ==> Render(c[k]).url == CitationUrlPrefix + Decimal.Format(k + 1)
    ensures var c := Filter(ToolLoop(events, order).out, IsCitation);
      forall i, j :: 0 <= i < j < |c| ==> Render(c[i]).url != Render(c[j]).url
  {
    CitationsNumberToolEnds(events, order);
    var c := Filter(ToolLoop(events, order).out, IsCitation);
    assert forall k :: 0 <= k < |c| ==> c[k].Citation? && c[k].call == k + 1;
    NumberedCitationUrls(c);
  }

  /** The host strings of the calculator call: its two statuses and its citation. */
  lemma CalculatorRunning()
    ensures StatusText(Running("calculator")) == "Running tool calculator"
  {
  }

  lemma CalculatorReturned()
    ensures StatusText(Returned("calculator", "4")) == "Tool 'calculator' returned 4"
  {
  }

  lemma CalculatorCitationUrl()
    ensures CitationUrl(1) == "Tool call 1"
  {
    assert Decimal.Format(1) == "1";
  }

  lemma CalculatorCitationContent()
    ensures CitationContent("calculator", "{a:2,b:2}", "4") == "Tool 'calculator' with inputs {a:2,b:2} returned 4"
  {
    var named := "Tool '" + "calculator";
    assert named == "Tool 'calculator";
    var withInputs := named + "' with inputs " + "{a:2,b:2}";
    assert withInputs == "Tool 'calculator' with inputs {a:2,b:2}";
    assert withInputs + " returned " + "4" == "Tool 'calculator' with inputs {a:2,b:2} returned 4";
  }

  /** The calculator call's trace, rendered step by step. */
  lemma DeliveredCalculatorTrace()
    ensures Deliver([
        Yield("\n"),
        Status(Running("calculator"), false),
        Status(Returned("calculator", "4"), true),
        Citation(1, "calculator", "{a:2,b:2}", "4")], true)
      == [
           Text("\n"),
           StatusEvent("Running tool calculator", false),
           StatusEvent("Tool 'calculator' returned 4", true),
           SourceEvent("Tool call 1", "calculator", "Tool 'calculator' with inputs {a:2,b:2} returned 4")]
  {
    CalculatorRunning();
    CalculatorReturned();
    CalculatorCitationUrl();
    CalculatorCitationContent();
    var out := [
      Yield("\n"),
      Status(Running("calculator"), false),
      Status(Returned("calculator", "4"), true),
      Citation(1, "calculator", "{a:2,b:2}", "4")];
    var d := Deliver(out, true);
    assert |d| == 4;
    assert d[0] == Text("\n");
    assert d[1] == Render(Status(Running("calculator"), false));
    assert d[2] == Render(Status(Returned("calculator", "4"), true));
    assert d[3] == Render(Citation(1, "calculator", "{a:2,b:2}", "4"));
  }

  /** The one-call trace of a calculator tool, as the host sees it with an emitter attached. */
  lemma RenderedOneToolCall()
    ensures Deliver(ToolLoop([ToolStart("calculator"), ToolEnd("calculator", "{a:2,b:2}", "4")], []).out, true)
      == [
           Text("\n"),
           StatusEvent("Running tool calculator", false),
           StatusEvent("Tool 'calculator' returned 4", true),
           SourceEvent("Tool call 1", "calculator", "Tool 'calculator' with inputs {a:2,b:2} returned 4")]
  {
    OneToolCall();
    DeliveredCalculatorTrace();
  }
}
