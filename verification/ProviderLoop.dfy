/**
 * The loop of provider calls and tool calls (apps/agent-runtime/src/runtime.ts, runProviderLoop).  The provider and
 * the tools are arbitrary: every call may behave differently, and the timer may fire at any point of a stream.
 */
module ProviderLoop {
  import opened Collections
  import opened Streaming

  datatype ToolCall = ToolCall(id: string, name: string, arguments: string)

  datatype Final = Final(content: Text, calls: seq<ToolCall>, stopReason: string)

  /** What happens while one stream is open. */
  datatype Input = Text(text: seq<Unit>) | TimerFires | Finish(final: Final)

  /** One provider call: what happens, and whether the stream then breaks with an error. */
  datatype Turn = Turn(inputs: seq<Input>, error: Option<string>)

  datatype ChatMessage = Prompt(content: string) | Assistant(text: Streaming.Text, calls: seq<ToolCall>) | ToolResult(id: string, output: string)

  datatype Outcome = Answer(content: Streaming.Text) | Error(code: string)

  // ---------- one provider call ----------

  function TextOf(inputs: seq<Input>): Streaming.Text {
    if inputs == [] then []
    else TextOf(inputs[..|inputs| - 1]) + if inputs[|inputs| - 1].Text? then inputs[|inputs| - 1].text else []
  }

  function Finished(inputs: seq<Input>): Option<Final> {
    if inputs == [] then None
    else if inputs[|inputs| - 1].Finish? then Some(inputs[|inputs| - 1].final)
    else Finished(inputs[..|inputs| - 1])
  }

  lemma Snoc(inputs: seq<Input>, event: Input)
    ensures TextOf(inputs + [event]) == TextOf(inputs) + if event.Text? then event.text else []
    ensures Finished(inputs + [event]) == if event.Finish? then Some(event.final) else Finished(inputs)
  {
    assert (inputs + [event])[..|inputs|] == inputs;
  }

  /** What has been shown, on top of `before`, and the last finish event. */
  ghost predicate Absorbed(before: seq<Streaming.Text>, inputs: seq<Input>, shown: seq<Streaming.Text>, finished: Option<Final>) {
    shown == Extend(before, TextOf(inputs)) && finished == Finished(inputs)
  }

  lemma AbsorbedSnoc(before: seq<Streaming.Text>, inputs: seq<Input>, event: Input, shown: seq<Streaming.Text>, finished: Option<Final>)
    requires Absorbed(before, inputs, shown, finished)
    ensures event.Text? ==> Absorbed(before, inputs + [event], Extend(shown, event.text), finished)
    ensures event.TimerFires? ==> Absorbed(before, inputs + [event], shown, finished)
    ensures event.Finish? ==> Absorbed(before, inputs + [event], shown, Some(event.final))
  {
    Snoc(inputs, event);
    if event.Text? {
      ExtendTwice(before, TextOf(inputs), event.text);
    } else {
      assert TextOf(inputs) + [] == TextOf(inputs);
    }
  }

  /** One event of a stream. */
  method Absorb(stream: AgentStream, event: Input, finished: Option<Final>, ghost before: seq<Streaming.Text>, ghost inputs: seq<Input>)
    returns (latest: Option<Final>)
    requires stream.Valid() && Pieces(stream.out) != [] && Absorbed(before, inputs, stream.Shown(), finished)
    modifies stream
    ensures stream.Valid() && Pieces(stream.out) != [] && Absorbed(before, inputs + [event], stream.Shown(), latest)
  {
    AbsorbedSnoc(before, inputs, event, stream.Shown(), finished);
    latest := finished;
    match event
    case Text(text) => stream.Push(text);
    case TimerFires => stream.Fire();
    case Finish(final) => latest := Some(final);
  }

  /** The stream of one call: everything the provider sends is shown, whenever the timer fires, and nothing is left in
      the buffer, even when the stream breaks. */
  method RunStream(stream: AgentStream, turn: Turn) returns (finished: Option<Final>)
    requires stream.Valid() && stream.pending == [] && Pieces(stream.out) != []
    modifies stream
    ensures stream.Valid() && stream.pending == [] && Pieces(stream.out) == Extend(old(Pieces(stream.out)), TextOf(turn.inputs))
    ensures finished == Finished(turn.inputs)
  {
    finished := None;
    ghost var before, seen := Pieces(stream.out), [];
    NothingAbsorbed(before);
    for i := 0 to |turn.inputs|
      invariant stream.Valid() && Pieces(stream.out) != []
      invariant |seen| == i && seen <= turn.inputs && Absorbed(before, seen, stream.Shown(), finished)
    {
      finished := Absorb(stream, turn.inputs[i], finished, before, seen);
      PrefixSnoc(seen, turn.inputs);
      seen := seen + [turn.inputs[i]];
    }
    assert seen == turn.inputs;
    stream.Flush();
  }

  lemma NothingAbsorbed(before: seq<Streaming.Text>)
    requires before != []
    ensures Absorbed(before, [], before, None)
  {
    ExtendTwice(before, [], []);
  }

  lemma PrefixSnoc(seen: seq<Input>, inputs: seq<Input>)
    requires seen < inputs
    ensures seen + [inputs[|seen|]] <= inputs
  {
  }

  // ---------- the loop ----------

  /** What a call decides; `None` means that its tool calls are run and the loop goes on. */
  function Decide(turn: Turn, iteration: nat, maxIterations: nat): Option<Outcome> {
    if turn.error.Some? then Some(Error(turn.error.value))
    else
      match Finished(turn.inputs)
      case None => Some(Error("provider_incomplete_stream"))
      case Some(final) =>
        if final.stopReason == "length" || final.stopReason == "max_tokens" then Some(Error("provider_output_truncated"))
        else if final.calls == [] then Some(Answer(final.content))
        else if iteration >= maxIterations then Some(Error("tool_iteration_limit"))
        else None
  }

  /** The messages that one round of tool calls adds. */
  function Round(final: Final, output: nat -> string): seq<ChatMessage> {
    [Assistant(final.content, final.calls)] + Results(final.calls, |final.calls|, output)
  }

  function Results(calls: seq<ToolCall>, n: nat, output: nat -> string): seq<ChatMessage>
    requires n <= |calls|
  {
    if n == 0 then [] else Results(calls, n - 1, output) + [ToolResult(calls[n - 1].id, output(n - 1))]
  }

  type Turns = nat -> Turn
  type Outputs = nat -> nat -> string

  /** The first `n` calls all asked for tools and were allowed to. */
  ghost predicate WentOn(turns: Turns, n: nat, maxIterations: nat) {
    forall i: nat :: i < n ==> Decide(turns(i), i, maxIterations).None? && Finished(turns(i).inputs).Some?
  }

  function FinalOf(turn: Turn): Final {
    if Finished(turn.inputs).Some? then Finished(turn.inputs).value else Final([], [], "")
  }

  // The messages, the shown texts and the tool calls after the first `n` calls, when all of them went on.

  function Rounds(turns: Turns, outputs: Outputs, n: nat): seq<ChatMessage>
  {
    if n == 0 then [] else Rounds(turns, outputs, n - 1) + Round(FinalOf(turns(n - 1)), outputs(n - 1))
  }

  function ShownTexts(turns: Turns, n: nat): seq<Streaming.Text> {
    if n == 0 then [] else ShownTexts(turns, n - 1) + [TextOf(turns(n - 1).inputs), []]
  }

  function CallCount(turns: Turns, n: nat): nat {
    if n == 0 then 0 else CallCount(turns, n - 1) + |FinalOf(turns(n - 1)).calls|
  }

  method RunTools(final: Final, output: nat -> string, messages: seq<ChatMessage>) returns (extended: seq<ChatMessage>)
    ensures extended == messages + Round(final, output)
  {
    extended := messages + [Assistant(final.content, final.calls)];
    for i := 0 to |final.calls|
      invariant extended == messages + ([Assistant(final.content, final.calls)] + Results(final.calls, i, output))
    {
      extended := extended + [ToolResult(final.calls[i].id, output(i))];
    }
  }

  lemma NewPiece(pieces: seq<Streaming.Text>, text: Streaming.Text)
    ensures Extend(pieces + [[]], text) == pieces + [text]
  {
    assert (pieces + [[]])[..|pieces|] == pieces && [] + text == text;
  }

  /** What the receivers were shown before the call `n`, on top of what they had. */
  ghost predicate ShownIs(before: seq<Streaming.Text>, turns: Turns, n: nat, pieces: seq<Streaming.Text>) {
    pieces == before + ShownTexts(turns, n)
  }

  lemma ShownGrows(before: seq<Streaming.Text>, turns: Turns, n: nat, pieces: seq<Streaming.Text>)
    requires ShownIs(before, turns, n, pieces)
    ensures ShownIs(before, turns, n + 1, Extend(pieces + [[]], TextOf(turns(n).inputs)) + [[]])
    ensures Extend(pieces + [[]], TextOf(turns(n).inputs)) == before + ShownTexts(turns, n) + [TextOf(turns(n).inputs)]
  {
    var text := TextOf(turns(n).inputs);
    NewPiece(pieces, text);
    RegroupPieces(before, ShownTexts(turns, n), text);
  }

  lemma RegroupPieces(a: seq<Streaming.Text>, b: seq<Streaming.Text>, text: Streaming.Text)
    ensures ((a + b) + [text]) + [[]] == a + (b + [text, []])
  {
  }

  /** One round of the loop up to the decision. */
  method CallProvider(stream: AgentStream, turn: Turn, iteration: nat, maxIterations: nat) returns (decision: Option<Outcome>, final: Final)
    requires stream.Valid() && stream.pending == []
    modifies stream
    ensures stream.Valid() && stream.pending == []
    ensures Pieces(stream.out) == Extend(old(Pieces(stream.out)) + [[]], TextOf(turn.inputs))
    ensures decision == Decide(turn, iteration, maxIterations) && final == FinalOf(turn)
    ensures decision.None? ==> Finished(turn.inputs).Some? && iteration < maxIterations
  {
    stream.EmitReset();
    var finished := RunStream(stream, turn);
    final := if finished.Some? then finished.value else Final([], [], "");
    if turn.error.Some? {
      return Some(Error(turn.error.value)), final;
    }
    if finished.None? {
      return Some(Error("provider_incomplete_stream")), final;
    }
    if final.stopReason == "length" || final.stopReason == "max_tokens" {
      return Some(Error("provider_output_truncated")), final;
    }
    if |final.calls| == 0 {
      return Some(Answer(final.content)), final;
    }
    if iteration >= maxIterations {
      return Some(Error("tool_iteration_limit")), final;
    }
    decision := None;
  }

  lemma OneRoundMore(turns: Turns, outputs: Outputs, n: nat, maxIterations: nat, prompt: seq<ChatMessage>, final: Final)
    requires WentOn(turns, n, maxIterations) && Decide(turns(n), n, maxIterations).None? && Finished(turns(n).inputs).Some?
    requires final == FinalOf(turns(n))
    ensures WentOn(turns, n + 1, maxIterations)
    ensures prompt + Rounds(turns, outputs, n + 1) == prompt + Rounds(turns, outputs, n) + Round(final, outputs(n))
    ensures CallCount(turns, n + 1) == CallCount(turns, n) + |final.calls|
  {
  }

  /** Everything the loop shows and sends.  At most `maxIterations + 1` provider calls are made; all but the last asked
      for tools, and the last decides the outcome. */
  method RunProviderLoop(stream: AgentStream, maxIterations: nat, turns: Turns, outputs: Outputs, prompt: seq<ChatMessage>)
    returns (messages: seq<ChatMessage>, outcome: Outcome, providerCalls: nat, totalToolCalls: nat)
    requires stream.Valid() && stream.pending == []
    modifies stream
    ensures stream.Valid() && stream.pending == []
    ensures 1 <= providerCalls <= maxIterations + 1 && WentOn(turns, providerCalls - 1, maxIterations)
    ensures Some(outcome) == Decide(turns(providerCalls - 1), providerCalls - 1, maxIterations)
    ensures Pieces(stream.out) == old(Pieces(stream.out)) + ShownTexts(turns, providerCalls - 1) + [TextOf(turns(providerCalls - 1).inputs)]
    ensures messages == prompt + Rounds(turns, outputs, providerCalls - 1)
    ensures totalToolCalls == CallCount(turns, providerCalls - 1)
  {
    messages, totalToolCalls := prompt, 0;
    ghost var before := Pieces(stream.out);
    var iteration := 0;
    while iteration <= maxIterations
      invariant stream.Valid() && stream.pending == [] && ShownIs(before, turns, iteration, Pieces(stream.out))
      invariant WentOn(turns, iteration, maxIterations) && iteration <= maxIterations
      invariant messages == prompt + Rounds(turns, outputs, iteration) && totalToolCalls == CallCount(turns, iteration)
    {
      ShownGrows(before, turns, iteration, Pieces(stream.out));
      var decision, final := CallProvider(stream, turns(iteration), iteration, maxIterations);
      if decision.Some? {
        return messages, decision.value, iteration + 1, totalToolCalls;
      }
      stream.EmitReset();
      OneRoundMore(turns, outputs, iteration, maxIterations, prompt, final);
      messages := RunTools(final, outputs(iteration), messages);
      totalToolCalls := totalToolCalls + |final.calls|;
      iteration := iteration + 1;
    }
    assert false;
  }

  // ---------- one run ----------

  /** What happens around the loop: an error before it, what counts as blank, errors of publishing and completing, and, if
      the signal is aborted by the time an error is reported, whether that was a cancellation. */
  datatype Around = Around(before: Option<string>, blank: Streaming.Text -> bool, publish: Option<string>, complete: Option<string>,
                           canceled: Option<bool>)

  datatype RunEnd = Completed(content: Streaming.Text) | Failed(code: string)

  /** The code that is reported for an error: an aborted signal replaces every other one. */
  function ErrorCode(code: string, around: Around): string {
    match around.canceled
    case None => code
    case Some(canceled) => if canceled then "run_canceled" else "runtime_aborted"
  }

  /** How a run ends whose last provider call decided `outcome`. */
  function EndOf(outcome: Outcome, around: Around): RunEnd {
    match outcome
    case Error(code) => Failed(ErrorCode(code, around))
    case Answer(content) =>
      if around.blank(content) then Failed(ErrorCode("empty_provider_output", around))
      else if around.publish.Some? then Failed(ErrorCode(around.publish.value, around))
      else if around.complete.Some? then Failed(ErrorCode(around.complete.value, around))
      else Completed(content)
  }

  /** The stream was ended after `shown`: twice when the run was published and could not be completed, otherwise once. */
  ghost predicate Ended(shown: seq<Message>, out: seq<Message>, twice: bool) {
    && Ongoing(shown)
    && out == shown + if twice then [Done(|shown| + 1), Done(|shown| + 2)] else [Done(|shown| + 1)]
  }

  /** One run of an agent: whatever fails, its stream is numbered without gaps, shows exactly the texts of the provider
      calls that were made, and is ended; the run completes exactly when every part of it succeeds. */
  method Execute(stream: AgentStream, around: Around, maxIterations: nat, turns: Turns, outputs: Outputs, prompt: seq<ChatMessage>)
    returns (end: RunEnd, providerCalls: nat, ghost shown: seq<Message>)
    requires stream.Valid() && stream.pending == [] && stream.out == []
    modifies stream
    ensures WellFormed(stream.out)
    ensures around.before.Some? ==> end == Failed(ErrorCode(around.before.value, around)) && providerCalls == 0 && stream.out == [Done(1)]
    ensures around.before.None? ==>
              && 1 <= providerCalls <= maxIterations + 1 && WentOn(turns, providerCalls - 1, maxIterations)
              && Pieces(stream.out) == ShownTexts(turns, providerCalls - 1) + [TextOf(turns(providerCalls - 1).inputs)]
              && var decision := Decide(turns(providerCalls - 1), providerCalls - 1, maxIterations);
                 && decision.Some? && end == EndOf(decision.value, around)
                 && Ended(shown, stream.out, decision.value.Answer? && !around.blank(decision.value.content)
                                             && around.publish.None? && around.complete.Some?)
  {
    shown := [];
    if around.before.Some? {
      stream.EmitDone();
      return Failed(ErrorCode(around.before.value, around)), 0, shown;
    }
    var messages, outcome, calls, toolCalls := RunProviderLoop(stream, maxIterations, turns, outputs, prompt);
    shown, providerCalls := stream.out, calls;
    assert [] + ShownTexts(turns, calls - 1) == ShownTexts(turns, calls - 1);
    end := Conclude(stream, around, outcome);
  }

  /** What follows the loop: the answer is published, the stream is ended, and the run is completed or failed. */
  method Conclude(stream: AgentStream, around: Around, outcome: Outcome) returns (end: RunEnd)
    requires stream.Valid() && stream.pending == []
    modifies stream
    ensures end == EndOf(outcome, around) && WellFormed(stream.out) && Pieces(stream.out) == old(Pieces(stream.out))
    ensures Ended(old(stream.out), stream.out, outcome.Answer? && !around.blank(outcome.content) && around.publish.None? && around.complete.Some?)
  {
    var code := "";
    match outcome {
      case Error(cause) => code := cause;
      case Answer(content) =>
        if around.blank(content) {
          code := "empty_provider_output";
        } else if around.publish.Some? {
          code := around.publish.value;
        } else {
          stream.EmitDone();
          if around.complete.None? {
            return Completed(content);
          }
          code := around.complete.value;
        }
    }
    end := Failed(ErrorCode(code, around));
    stream.EmitDone();
  }

  // ---------- tool calls are answered in order ----------

  ghost predicate Answers(calls: seq<ToolCall>, messages: seq<ChatMessage>) {
    && |calls| <= |messages|
    && forall k :: 0 <= k < |calls| ==> messages[k].ToolResult? && messages[k].id == calls[k].id
  }

  /** Every assistant message with tool calls is followed by exactly one result for each call, in order, and by nothing
      else before the next assistant message. */
  ghost predicate Paired(messages: seq<ChatMessage>)
    decreases |messages|
  {
    messages != [] ==>
      && messages[0].Assistant? && Answers(messages[0].calls, messages[1..])
      && Paired(messages[1..][|messages[0].calls|..])
  }

  lemma {:induction false} ResultsAnswer(calls: seq<ToolCall>, n: nat, output: nat -> string)
    requires n <= |calls|
    ensures |Results(calls, n, output)| == n
    ensures forall k :: 0 <= k < n ==> Results(calls, n, output)[k] == ToolResult(calls[k].id, output(k))
  {
    if n > 0 { ResultsAnswer(calls, n - 1, output); }
  }

  lemma AnswersStay(calls: seq<ToolCall>, messages: seq<ChatMessage>, more: seq<ChatMessage>)
    requires Answers(calls, messages)
    ensures Answers(calls, messages + more)
    ensures (messages + more)[|calls|..] == messages[|calls|..] + more
  {
  }

  lemma RoundIsPaired(final: Final, output: nat -> string)
    ensures Paired(Round(final, output))
  {
    var results := Results(final.calls, |final.calls|, output);
    ResultsAnswer(final.calls, |final.calls|, output);
    assert Round(final, output)[1..] == results;
    assert results[|final.calls|..] == [];
  }

  lemma {:induction false} PairedConcat(messages: seq<ChatMessage>, more: seq<ChatMessage>)
    requires Paired(messages) && Paired(more)
    ensures Paired(messages + more)
    decreases |messages|
  {
    if messages == [] {
      assert messages + more == more;
    } else {
      var calls, tail := messages[0].calls, messages[1..];
      assert (messages + more)[1..] == tail + more;
      AnswersStay(calls, tail, more);
      PairedConcat(tail[|calls|..], more);
    }
  }

  /** What the loop appends to the conversation pairs every call with its result. */
  lemma {:induction false} RoundsArePaired(turns: Turns, outputs: Outputs, n: nat)
    ensures Paired(Rounds(turns, outputs, n))
  {
    if n > 0 {
      RoundsArePaired(turns, outputs, n - 1);
      RoundIsPaired(FinalOf(turns(n - 1)), outputs(n - 1));
      PairedConcat(Rounds(turns, outputs, n - 1), Round(FinalOf(turns(n - 1)), outputs(n - 1)));
    }
  }
}
