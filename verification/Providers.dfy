/**
 * Assembling a provider's answer from its stream (apps/agent-runtime/src/providers.ts): text deltas, usage and tool
 * calls.  Payloads are decoded JSON with the fields the streams read; parsing of arguments is a parameter.
 */
module Providers {
  import opened Collections
  import opened Sse

  datatype Call = Call(id: string, name: string, arguments: string)

  datatype ToolCall<A> = ToolCall(id: string, name: string, arguments: A)

  datatype Usage = Usage(input: int, output: int)

  datatype Final<A> = Final(content: string, toolCalls: seq<ToolCall<A>>, usage: Usage, stopReason: string)

  datatype ProviderEvent<A> = Delta(text: string) | Finish(final: Final<A>)

  /** How a stream ends: `None` is a thrown `provider_invalid_tool_call`. */
  datatype Outcome<A> = Outcome(events: seq<ProviderEvent<A>>, end: Option<End>)

  // ---------- finishing ----------

  /** The tool calls in index order; `None` when some arguments do not parse. */
  function ToolCalls<A>(indexes: seq<int>, calls: map<int, Call>, parse: string -> Option<A>): Option<seq<ToolCall<A>>>
    requires forall k :: 0 <= k < |indexes| ==> indexes[k] in calls
  {
    if indexes == [] then Some([])
    else
      var call := calls[indexes[0]];
      match (parse(call.arguments), ToolCalls(indexes[1..], calls, parse))
      case (Some(arguments), Some(rest)) => Some([ToolCall(call.id, call.name, arguments)] + rest)
      case _ => None
  }

  /** What the tool calls are: one for each index, in ascending order, with the call assembled for that index. */
  lemma {:induction false} ToolCallsAre<A>(indexes: seq<int>, calls: map<int, Call>, parse: string -> Option<A>)
    requires forall k :: 0 <= k < |indexes| ==> indexes[k] in calls
    ensures ToolCalls(indexes, calls, parse).None? <==> exists k :: 0 <= k < |indexes| && parse(calls[indexes[k]].arguments).None?
    ensures var list := ToolCalls(indexes, calls, parse);
            list.Some? ==> |list.value| == |indexes| && forall k :: 0 <= k < |indexes| ==>
              && list.value[k].id == calls[indexes[k]].id && list.value[k].name == calls[indexes[k]].name
              && Some(list.value[k].arguments) == parse(calls[indexes[k]].arguments)
  {
    if indexes != [] {
      var tail := indexes[1..];
      ToolCallsAre(tail, calls, parse);
      assert forall k :: 0 <= k < |tail| ==> tail[k] == indexes[k + 1];
      if j :| 0 <= j < |indexes| && parse(calls[indexes[j]].arguments).None? {
        assert j > 0 ==> tail[j - 1] == indexes[j];
      }
    }
  }

  lemma IsKey(indexes: seq<int>, calls: map<int, Call>, k: nat)
    requires k < |indexes| && forall i :: i in calls <==> i in indexes
    ensures indexes[k] in calls
  {
    var i := indexes[k];
    assert i in indexes;
  }

  function Concat(parts: seq<string>): string {
    if parts == [] then "" else parts[0] + Concat(parts[1..])
  }

  lemma {:induction false} ConcatSnoc(parts: seq<string>, part: string)
    ensures Concat(parts + [part]) == Concat(parts) + part
  {
    if parts == [] {
      assert [part][1..] == [] && part + "" == part;
    } else {
      assert (parts + [part])[1..] == parts[1..] + [part];
      ConcatSnoc(parts[1..], part);
    }
  }

  function TextOf<A>(e: ProviderEvent<A>): string { if e.Delta? then e.text else "" }

  /** The text of the deltas that reached the caller. */
  function Texts<A>(events: seq<ProviderEvent<A>>): string {
    if events == [] then "" else TextOf(events[0]) + Texts(events[1..])
  }

  lemma {:induction false} TextsSnoc<A>(events: seq<ProviderEvent<A>>, e: ProviderEvent<A>)
    ensures Texts(events + [e]) == Texts(events) + TextOf(e)
  {
    if events == [] {
      assert [e][1..] == [] && TextOf(e) + "" == TextOf(e);
    } else {
      assert (events + [e])[1..] == events[1..] + [e];
      TextsSnoc(events[1..], e);
      assert TextOf(events[0]) + (Texts(events[1..]) + TextOf(e)) == (TextOf(events[0]) + Texts(events[1..])) + TextOf(e);
    }
  }

  predicate AreDeltas<A>(events: seq<ProviderEvent<A>>) { forall i :: 0 <= i < |events| ==> events[i].Delta? && events[i].text != "" }

  // ---------- OpenAI ----------

  datatype Fragment = Fragment(index: int, id: string, name: string, arguments: string)

  datatype OpenAIPayload = OpenAIPayload(usage: Option<Usage>, finishReason: string, text: string, fragments: seq<Fragment>)

  function Indexes(fragments: seq<Fragment>): seq<int> {
    if fragments == [] then []
    else InsertSorted(Indexes(fragments[..|fragments| - 1]), fragments[|fragments| - 1].index)
  }

  lemma {:induction false} IndexesAre(fragments: seq<Fragment>)
    ensures Strict(Indexes(fragments))
    ensures forall i :: i in Indexes(fragments) <==> exists k :: 0 <= k < |fragments| && fragments[k].index == i
  {
    if fragments != [] {
      var init, last := fragments[..|fragments| - 1], fragments[|fragments| - 1];
      IndexesAre(init);
      InsertStrict(Indexes(init), last.index);
      InsertMembers(Indexes(init), last.index);
      forall i | i in Indexes(init) ensures exists k :: 0 <= k < |fragments| && fragments[k].index == i {
        var k :| 0 <= k < |init| && init[k].index == i;
        assert fragments[k].index == i;
      }
      forall i, k | 0 <= k < |fragments| && fragments[k].index == i && i != last.index ensures i in Indexes(init) {
        assert init[k].index == i;
      }
    }
  }

  /** The pieces of one field that belong to one index, in arrival order. */
  function Pieces(fragments: seq<Fragment>, index: int, field: Fragment -> string): seq<string> {
    if fragments == [] then []
    else Pieces(fragments[..|fragments| - 1], index, field)
         + if fragments[|fragments| - 1].index == index then [field(fragments[|fragments| - 1])] else []
  }

  /** The call at an index: every field is the concatenation of its pieces. */
  function CallAt(fragments: seq<Fragment>, index: int): Call {
    Call(Concat(Pieces(fragments, index, (f: Fragment) => f.id)),
         Concat(Pieces(fragments, index, (f: Fragment) => f.name)),
         Concat(Pieces(fragments, index, (f: Fragment) => f.arguments)))
  }

  lemma CallGrows(fragments: seq<Fragment>, f: Fragment, index: int)
    ensures var call := CallAt(fragments, index);
            CallAt(fragments + [f], index) ==
              if f.index == index then Call(call.id + f.id, call.name + f.name, call.arguments + f.arguments) else call
  {
    FieldGrows(fragments, f, index, (f: Fragment) => f.id);
    FieldGrows(fragments, f, index, (f: Fragment) => f.name);
    FieldGrows(fragments, f, index, (f: Fragment) => f.arguments);
  }

  lemma FieldGrows(fragments: seq<Fragment>, f: Fragment, index: int, field: Fragment -> string)
    ensures Concat(Pieces(fragments + [f], index, field)) ==
              if f.index == index then Concat(Pieces(fragments, index, field)) + field(f) else Concat(Pieces(fragments, index, field))
  {
    assert (fragments + [f])[..|fragments|] == fragments;
    var pieces := Pieces(fragments, index, field);
    assert pieces + [] == pieces;
    ConcatSnoc(pieces, field(f));
  }

  /** The Map that the loop keeps. */
  ghost predicate Assembled(fragments: seq<Fragment>, indexes: seq<int>, calls: map<int, Call>) {
    && indexes == Indexes(fragments)
    && (forall i :: i in calls <==> i in indexes)
    && forall i :: i in calls ==> calls[i] == CallAt(fragments, i)
  }

  /** An index without fragments has an empty call. */
  lemma {:induction false} NoPieces(fragments: seq<Fragment>, index: int, field: Fragment -> string)
    requires forall k :: 0 <= k < |fragments| ==> fragments[k].index != index
    ensures Pieces(fragments, index, field) == []
  {
    if fragments != [] { NoPieces(fragments[..|fragments| - 1], index, field); }
  }

  lemma UnseenIsEmpty(fragments: seq<Fragment>, index: int)
    requires index !in Indexes(fragments)
    ensures CallAt(fragments, index) == Call("", "", "")
  {
    IndexesAre(fragments);
    NoPieces(fragments, index, (f: Fragment) => f.id);
    NoPieces(fragments, index, (f: Fragment) => f.name);
    NoPieces(fragments, index, (f: Fragment) => f.arguments);
  }

  method AddFragment(before: seq<Fragment>, raw: Fragment, oldIndexes: seq<int>, oldCalls: map<int, Call>)
    returns (indexes: seq<int>, calls: map<int, Call>)
    requires Assembled(before, oldIndexes, oldCalls)
    ensures Assembled(before + [raw], indexes, calls)
  {
    var current := if raw.index in oldCalls then oldCalls[raw.index] else Call("", "", "");
    IndexesAre(before);
    InsertStrict(oldIndexes, raw.index);
    InsertMembers(oldIndexes, raw.index);
    if raw.index !in oldCalls { UnseenIsEmpty(before, raw.index); }
    indexes := if raw.index in oldCalls then oldIndexes else InsertSorted(oldIndexes, raw.index);
    calls := oldCalls[raw.index := Call(current.id + raw.id, current.name + raw.name, current.arguments + raw.arguments)];
    assert (before + [raw])[..|before|] == before;
    forall i | i in calls ensures calls[i] == CallAt(before + [raw], i) { CallGrows(before, raw, i); }
  }

  method AddFragments(before: seq<Fragment>, fragments: seq<Fragment>, oldIndexes: seq<int>, oldCalls: map<int, Call>)
    returns (indexes: seq<int>, calls: map<int, Call>)
    requires Assembled(before, oldIndexes, oldCalls)
    ensures Assembled(before + fragments, indexes, calls)
  {
    indexes, calls := oldIndexes, oldCalls;
    assert before + fragments[..0] == before;
    for i := 0 to |fragments|
      invariant Assembled(before + fragments[..i], indexes, calls)
    {
      assert before + fragments[..i + 1] == (before + fragments[..i]) + [fragments[i]];
      indexes, calls := AddFragment(before + fragments[..i], fragments[i], indexes, calls);
    }
    assert fragments[..|fragments|] == fragments;
  }

  // What the first `n` payloads say.

  function LastUsage(payloads: seq<OpenAIPayload>, n: nat): Usage
    requires n <= |payloads|
  {
    if n == 0 then Usage(0, 0)
    else if payloads[n - 1].usage.Some? then payloads[n - 1].usage.value
    else LastUsage(payloads, n - 1)
  }

  function LastReason(payloads: seq<OpenAIPayload>, n: nat): string
    requires n <= |payloads|
  {
    if n == 0 then ""
    else if payloads[n - 1].finishReason != "" then payloads[n - 1].finishReason
    else LastReason(payloads, n - 1)
  }

  function PayloadTexts(payloads: seq<OpenAIPayload>, n: nat): string
    requires n <= |payloads|
  {
    if n == 0 then "" else PayloadTexts(payloads, n - 1) + payloads[n - 1].text
  }

  function Fragments(payloads: seq<OpenAIPayload>, n: nat): seq<Fragment>
    requires n <= |payloads|
  {
    if n == 0 then [] else Fragments(payloads, n - 1) + payloads[n - 1].fragments
  }

  function AllFragments(payloads: seq<OpenAIPayload>): seq<Fragment> { Fragments(payloads, |payloads|) }

  /** The answer that a list of payloads spells out. */
  ghost predicate OpenAIAnswer<A>(payloads: seq<OpenAIPayload>, final: Final<A>, parse: string -> Option<A>) {
    var indexes := Indexes(AllFragments(payloads));
    && final.content == PayloadTexts(payloads, |payloads|) && final.usage == LastUsage(payloads, |payloads|)
    && final.stopReason == LastReason(payloads, |payloads|)
    && |final.toolCalls| == |indexes|
    && forall k :: 0 <= k < |indexes| ==>
         var call := CallAt(AllFragments(payloads), indexes[k]);
         && final.toolCalls[k].id == call.id && final.toolCalls[k].name == call.name
         && Some(final.toolCalls[k].arguments) == parse(call.arguments)
  }

  /** A delta is passed on only when it has text. */
  function EmitText<A>(events: seq<ProviderEvent<A>>, text: string): (r: seq<ProviderEvent<A>>)
    ensures Texts(r) == Texts(events) + text
    ensures AreDeltas(events) ==> AreDeltas(r)
  {
    TextsSnoc(events, Delta(text));
    assert Texts(events) + "" == Texts(events);
    if text != "" then events + [Delta(text)] else events
  }

  /** The loop's variables. */
  datatype Accumulator<A> = Accumulator(events: seq<ProviderEvent<A>>, content: string, usage: Usage, stopReason: string,
                                        indexes: seq<int>, calls: map<int, Call>)

  ghost predicate Accumulated<A>(payloads: seq<OpenAIPayload>, n: nat, acc: Accumulator<A>)
    requires n <= |payloads|
  {
    && acc.content == PayloadTexts(payloads, n) == Texts(acc.events) && AreDeltas(acc.events)
    && acc.usage == LastUsage(payloads, n) && acc.stopReason == LastReason(payloads, n)
    && Assembled(Fragments(payloads, n), acc.indexes, acc.calls)
  }

  /** One turn of the loop. */
  method Absorb<A>(payloads: seq<OpenAIPayload>, n: nat, acc: Accumulator<A>) returns (next: Accumulator<A>)
    requires n < |payloads| && Accumulated(payloads, n, acc)
    ensures Accumulated(payloads, n + 1, next)
  {
    var payload := payloads[n];
    var indexes, calls := AddFragments(Fragments(payloads, n), payload.fragments, acc.indexes, acc.calls);
    next := Accumulator(EmitText(acc.events, payload.text), acc.content + payload.text,
                        if payload.usage.Some? then payload.usage.value else acc.usage,
                        if payload.finishReason != "" then payload.finishReason else acc.stopReason,
                        indexes, calls);
  }

  method Accumulate<A>(payloads: seq<OpenAIPayload>) returns (acc: Accumulator<A>)
    ensures Accumulated(payloads, |payloads|, acc)
  {
    acc := Accumulator([], "", Usage(0, 0), "", [], map[]);
    for n := 0 to |payloads|
      invariant Accumulated(payloads, n, acc)
    {
      acc := Absorb(payloads, n, acc);
    }
  }

  /** What a stream of one answer shows its caller, given what the parser read. */
  ghost predicate Streamed<A>(read: Result<OpenAIPayload>, out: Outcome<A>, parse: string -> Option<A>) {
    && Texts(out.events) == PayloadTexts(read.yielded, |read.yielded|)
    && out.end == (if read.end == Finished && BadArguments(read.yielded, parse) then None else Some(read.end))
    && (out.end != Some(Finished) ==> AreDeltas(out.events))
    && (out.end == Some(Finished) ==>
          && out.events != [] && AreDeltas(out.events[..|out.events| - 1]) && out.events[|out.events| - 1].Finish?
          && OpenAIAnswer(read.yielded, out.events[|out.events| - 1].final, parse))
  }

  ghost predicate BadArguments<A>(payloads: seq<OpenAIPayload>, parse: string -> Option<A>) {
    var indexes := Indexes(AllFragments(payloads));
    exists k :: 0 <= k < |indexes| && parse(CallAt(AllFragments(payloads), indexes[k]).arguments).None?
  }

  lemma FinishIsLast<A>(events: seq<ProviderEvent<A>>, final: Final<A>)
    ensures var out := events + [Finish(final)];
            Texts(out) == Texts(events) && out[..|out| - 1] == events && out[|out| - 1] == Finish(final)
  {
    TextsSnoc(events, Finish(final));
    assert Texts(events) + "" == Texts(events);
  }

  lemma ToolCallsMatch<A>(payloads: seq<OpenAIPayload>, indexes: seq<int>, calls: map<int, Call>, parse: string -> Option<A>)
    requires Assembled(AllFragments(payloads), indexes, calls)
    ensures forall k :: 0 <= k < |indexes| ==> indexes[k] in calls
    ensures ToolCalls(indexes, calls, parse).None? <==> BadArguments(payloads, parse)
    ensures var list := ToolCalls(indexes, calls, parse);
            list.Some? ==> |list.value| == |indexes| && forall k :: 0 <= k < |indexes| ==>
              var call := CallAt(AllFragments(payloads), indexes[k]);
              && list.value[k].id == call.id && list.value[k].name == call.name
              && Some(list.value[k].arguments) == parse(call.arguments)
  {
    forall k | 0 <= k < |indexes| ensures indexes[k] in calls { IsKey(indexes, calls, k); }
    ToolCallsAre(indexes, calls, parse);
  }

  method Conclude<A>(read: Result<OpenAIPayload>, parse: string -> Option<A>) returns (out: Outcome<A>)
    ensures Streamed(read, out, parse)
  {
    var acc := Accumulate<A>(read.yielded);
    if read.end != Finished {
      return Outcome(acc.events, Some(read.end));
    }
    ToolCallsMatch(read.yielded, acc.indexes, acc.calls, parse);
    var toolCalls := ToolCalls(acc.indexes, acc.calls, parse);
    if toolCalls.None? {
      return Outcome(acc.events, None);
    }
    var final := Final(acc.content, toolCalls.value, acc.usage, acc.stopReason);
    assert OpenAIAnswer(read.yielded, final, parse);
    FinishIsLast(acc.events, final);
    out := Outcome(acc.events + [Finish(final)], Some(Finished));
  }

  /** The stream of one answer.  Under the size limit its text, usage and tool calls are those of the byte stream
      as a whole, however the bytes arrive; over the limit there is never an answer. */
  method OpenAIStream<S, A>(chunks: seq<seq<byte>>, d: Decoder<S>, parse: string -> Parsed<OpenAIPayload>,
                            parseArguments: string -> Option<A>)
    returns (out: Outcome<A>)
    ensures |Flatten(chunks)| <= LIMIT ==> Streamed(Delivered(d, Flatten(chunks), parse), out, parseArguments)
    ensures |Flatten(chunks)| > LIMIT ==> out.end.Some? && out.end != Some(Finished) && AreDeltas(out.events)
  {
    var payloads, stop := ReadProviderSSE(chunks, d, parse);
    out := Conclude(Result(payloads, stop), parseArguments);
  }

  // ---------- Anthropic ----------

  datatype AnthropicPayload =
    | MessageStart(input: int)
    | ToolStart(index: int, id: string, name: string)
    | TextDelta(text: string)
    | JsonDelta(index: int, partial: string)
    | MessageDelta(reason: string, output: int)
    | Other

  /** The call that is open at an index: the last start for the index and every piece of JSON after it, read from
      the end of the stream. */
  function LatestCall(payloads: seq<AnthropicPayload>, n: nat, index: int, after: string): Option<Call>
    requires n <= |payloads|
    decreases n
  {
    if n == 0 then None
    else
      var last := payloads[n - 1];
      if last.ToolStart? && last.index == index then Some(Call(last.id, last.name, after))
      else if last.JsonDelta? && last.index == index then LatestCall(payloads, n - 1, index, last.partial + after)
      else LatestCall(payloads, n - 1, index, after)
  }

  lemma {:induction false} LatestCallExtends(payloads: seq<AnthropicPayload>, n: nat, index: int, after: string, more: string)
    requires n <= |payloads|
    ensures var call := LatestCall(payloads, n, index, after);
            LatestCall(payloads, n, index, after + more)
              == if call.Some? then Some(call.value.(arguments := call.value.arguments + more)) else None
    decreases n
  {
    if n > 0 {
      var last := payloads[n - 1];
      if last.JsonDelta? && last.index == index {
        LatestCallExtends(payloads, n - 1, index, last.partial + after, more);
        assert (last.partial + after) + more == last.partial + (after + more);
      } else {
        LatestCallExtends(payloads, n - 1, index, after, more);
      }
    }
  }

  function Started(payloads: seq<AnthropicPayload>, n: nat): seq<int>
    requires n <= |payloads|
  {
    if n == 0 then []
    else if payloads[n - 1].ToolStart? then InsertSorted(Started(payloads, n - 1), payloads[n - 1].index)
    else Started(payloads, n - 1)
  }

  /** Each started index is listed once, in ascending order. */
  lemma {:induction false} StartedAre(payloads: seq<AnthropicPayload>, n: nat)
    requires n <= |payloads|
    ensures Strict(Started(payloads, n))
    ensures forall i :: i in Started(payloads, n) <==> exists k :: 0 <= k < n && payloads[k].ToolStart? && payloads[k].index == i
  {
    if n > 0 {
      StartedAre(payloads, n - 1);
      if payloads[n - 1].ToolStart? {
        InsertStrict(Started(payloads, n - 1), payloads[n - 1].index);
        InsertMembers(Started(payloads, n - 1), payloads[n - 1].index);
      }
    }
  }

  function TextSoFar(payloads: seq<AnthropicPayload>, n: nat): string
    requires n <= |payloads|
  {
    if n == 0 then "" else TextSoFar(payloads, n - 1) + if payloads[n - 1].TextDelta? then payloads[n - 1].text else ""
  }

  function LastInput(payloads: seq<AnthropicPayload>, n: nat): int
    requires n <= |payloads|
  {
    if n == 0 then 0 else if payloads[n - 1].MessageStart? then payloads[n - 1].input else LastInput(payloads, n - 1)
  }

  function LastOutput(payloads: seq<AnthropicPayload>, n: nat): int
    requires n <= |payloads|
  {
    if n == 0 then 0 else if payloads[n - 1].MessageDelta? then payloads[n - 1].output else LastOutput(payloads, n - 1)
  }

  function LastStop(payloads: seq<AnthropicPayload>, n: nat): string
    requires n <= |payloads|
  {
    if n == 0 then ""
    else if payloads[n - 1].MessageDelta? && payloads[n - 1].reason != "" then payloads[n - 1].reason
    else LastStop(payloads, n - 1)
  }

  /** The Map that the loop keeps: a started index and nothing else has a call. */
  ghost predicate Opened(payloads: seq<AnthropicPayload>, n: nat, indexes: seq<int>, calls: map<int, Call>)
    requires n <= |payloads|
  {
    && indexes == Started(payloads, n)
    && (forall i :: i in calls <==> i in indexes)
    && forall i :: LatestCall(payloads, n, i, "") == if i in calls then Some(calls[i]) else None
  }

  lemma OtherIndex(payloads: seq<AnthropicPayload>, n: nat, i: int)
    requires n < |payloads|
    requires (payloads[n].ToolStart? || payloads[n].JsonDelta?) ==> payloads[n].index != i
    ensures LatestCall(payloads, n + 1, i, "") == LatestCall(payloads, n, i, "")
  {
  }

  method StartCall(payloads: seq<AnthropicPayload>, n: nat, oldIndexes: seq<int>, oldCalls: map<int, Call>)
    returns (indexes: seq<int>, calls: map<int, Call>)
    requires n < |payloads| && Opened(payloads, n, oldIndexes, oldCalls) && payloads[n].ToolStart?
    ensures Opened(payloads, n + 1, indexes, calls)
  {
    var p := payloads[n];
    indexes := InsertSorted(oldIndexes, p.index);
    calls := oldCalls[p.index := Call(p.id, p.name, "")];
    InsertMembers(oldIndexes, p.index);
    forall i | i != p.index ensures LatestCall(payloads, n + 1, i, "") == LatestCall(payloads, n, i, "") { OtherIndex(payloads, n, i); }
  }

  method AppendJson(payloads: seq<AnthropicPayload>, n: nat, indexes: seq<int>, oldCalls: map<int, Call>)
    returns (calls: map<int, Call>)
    requires n < |payloads| && Opened(payloads, n, indexes, oldCalls) && payloads[n].JsonDelta?
    ensures Opened(payloads, n + 1, indexes, calls)
  {
    var p := payloads[n];
    calls := oldCalls;
    LatestCallExtends(payloads, n, p.index, "", p.partial);
    assert "" + p.partial == p.partial == p.partial + "";
    if p.index in calls {
      var call := calls[p.index];
      calls := calls[p.index := Call(call.id, call.name, call.arguments + p.partial)];
    }
    forall i | i != p.index ensures LatestCall(payloads, n + 1, i, "") == LatestCall(payloads, n, i, "") { OtherIndex(payloads, n, i); }
  }

  method Apply(payloads: seq<AnthropicPayload>, n: nat, oldIndexes: seq<int>, oldCalls: map<int, Call>)
    returns (indexes: seq<int>, calls: map<int, Call>)
    requires n < |payloads| && Opened(payloads, n, oldIndexes, oldCalls)
    ensures Opened(payloads, n + 1, indexes, calls)
  {
    indexes, calls := oldIndexes, oldCalls;
    if payloads[n].ToolStart? {
      indexes, calls := StartCall(payloads, n, indexes, calls);
    } else if payloads[n].JsonDelta? {
      calls := AppendJson(payloads, n, indexes, calls);
    } else {
      forall i ensures LatestCall(payloads, n + 1, i, "") == LatestCall(payloads, n, i, "") { OtherIndex(payloads, n, i); }
    }
  }

  /** `call.arguments || "{}"`. */
  function OrEmptyObject(arguments: string): string { if arguments == "" then "{}" else arguments }

  /** The call at a started index of the whole stream. */
  ghost predicate CallIs<A>(payloads: seq<AnthropicPayload>, index: int, call: ToolCall<A>, parse: string -> Option<A>) {
    var found := LatestCall(payloads, |payloads|, index, "");
    found.Some? && call.id == found.value.id && call.name == found.value.name
    && Some(call.arguments) == parse(OrEmptyObject(found.value.arguments))
  }

  ghost predicate BadArgumentsAt<A>(payloads: seq<AnthropicPayload>, index: int, parse: string -> Option<A>) {
    var found := LatestCall(payloads, |payloads|, index, "");
    found.Some? && parse(OrEmptyObject(found.value.arguments)).None?
  }

  ghost predicate AnthropicStreamed<A>(read: Result<AnthropicPayload>, out: Outcome<A>, parse: string -> Option<A>) {
    var payloads, n := read.yielded, |read.yielded|;
    var indexes := Started(payloads, n);
    && Texts(out.events) == TextSoFar(payloads, n)
    && out.end == (if read.end == Finished && (exists k :: 0 <= k < |indexes| && BadArgumentsAt(payloads, indexes[k], parse)) then None
                   else Some(read.end))
    && (out.end != Some(Finished) ==> AreDeltas(out.events))
    && (out.end == Some(Finished) ==>
          && out.events != [] && AreDeltas(out.events[..|out.events| - 1]) && out.events[|out.events| - 1].Finish?
          && var final := out.events[|out.events| - 1].final;
          && final.content == TextSoFar(payloads, n) && final.stopReason == LastStop(payloads, n)
          && final.usage == Usage(LastInput(payloads, n), LastOutput(payloads, n))
          && |final.toolCalls| == |indexes|
          && forall k :: 0 <= k < |indexes| ==> CallIs(payloads, indexes[k], final.toolCalls[k], parse))
  }

  ghost predicate AccumulatedAnthropic<A>(payloads: seq<AnthropicPayload>, n: nat, acc: Accumulator<A>)
    requires n <= |payloads|
  {
    && acc.content == TextSoFar(payloads, n) == Texts(acc.events) && AreDeltas(acc.events)
    && acc.usage == Usage(LastInput(payloads, n), LastOutput(payloads, n)) && acc.stopReason == LastStop(payloads, n)
    && Opened(payloads, n, acc.indexes, acc.calls)
  }

  method AbsorbAnthropic<A>(payloads: seq<AnthropicPayload>, n: nat, acc: Accumulator<A>) returns (next: Accumulator<A>)
    requires n < |payloads| && AccumulatedAnthropic(payloads, n, acc)
    ensures AccumulatedAnthropic(payloads, n + 1, next)
  {
    var p := payloads[n];
    var indexes, calls := Apply(payloads, n, acc.indexes, acc.calls);
    var text := if p.TextDelta? then p.text else "";
    next := acc.(content := acc.content + text, events := EmitText(acc.events, text), indexes := indexes, calls := calls);
    if p.MessageStart? {
      next := next.(usage := acc.usage.(input := p.input));
    }
    if p.MessageDelta? {
      next := next.(stopReason := if p.reason != "" then p.reason else acc.stopReason, usage := acc.usage.(output := p.output));
    }
  }

  method AccumulateAnthropic<A>(payloads: seq<AnthropicPayload>) returns (acc: Accumulator<A>)
    ensures AccumulatedAnthropic(payloads, |payloads|, acc)
  {
    acc := Accumulator([], "", Usage(0, 0), "", [], map[]);
    for n := 0 to |payloads|
      invariant AccumulatedAnthropic(payloads, n, acc)
    {
      acc := AbsorbAnthropic(payloads, n, acc);
    }
  }

  method ConcludeAnthropic<A>(read: Result<AnthropicPayload>, parse: string -> Option<A>) returns (out: Outcome<A>)
    ensures AnthropicStreamed(read, out, parse)
  {
    var acc := AccumulateAnthropic<A>(read.yielded);
    if read.end != Finished {
      return Outcome(acc.events, Some(read.end));
    }
    forall k | 0 <= k < |acc.indexes|
      ensures acc.indexes[k] in acc.calls && LatestCall(read.yielded, |read.yielded|, acc.indexes[k], "") == Some(acc.calls[acc.indexes[k]])
    {
      IsKey(acc.indexes, acc.calls, k);
    }
    var parseOr := (arguments: string) => parse(OrEmptyObject(arguments));
    ToolCallsAre(acc.indexes, acc.calls, parseOr);
    var toolCalls := ToolCalls(acc.indexes, acc.calls, parseOr);
    if toolCalls.None? {
      ghost var k :| 0 <= k < |acc.indexes| && parseOr(acc.calls[acc.indexes[k]].arguments).None?;
      assert BadArgumentsAt(read.yielded, acc.indexes[k], parse);
      return Outcome(acc.events, None);
    }
    var final := Final(acc.content, toolCalls.value, acc.usage, acc.stopReason);
    FinishIsLast(acc.events, final);
    out := Outcome(acc.events + [Finish(final)], Some(Finished));
  }

  /** As for the other provider: the answer depends on the bytes and not on how they arrive. */
  method AnthropicStream<S, A>(chunks: seq<seq<byte>>, d: Decoder<S>, parse: string -> Parsed<AnthropicPayload>,
                               parseArguments: string -> Option<A>)
    returns (out: Outcome<A>)
    ensures |Flatten(chunks)| <= LIMIT ==> AnthropicStreamed(Delivered(d, Flatten(chunks), parse), out, parseArguments)
    ensures |Flatten(chunks)| > LIMIT ==> out.end.Some? && out.end != Some(Finished) && AreDeltas(out.events)
  {
    var payloads, stop := ReadProviderSSE(chunks, d, parse);
    out := ConcludeAnthropic(Result(payloads, stop), parseArguments);
  }
}
