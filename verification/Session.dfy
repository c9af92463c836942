/**
 * Token refresh across browser tabs (apps/web/src/session.ts): a lock granted in the order it was asked for, a broadcast
 * channel that delivers in order, and a revision counter in every tab.  A server request answers with tokens or rejects;
 * tokens are numbered by the request that issued them.
 */
module Session {
  import opened Collections

  /** A tab as a value: what it has received, in number, and the token messages on their way to it. */
  datatype Tab = Tab(revision: nat, latest: Option<nat>, inbox: seq<nat>)

  /** A refresh call: the revision it observed, how many tokens had been issued when it began, and which calls were ahead
      of it that had observed the newest revision.  Calls are numbered in the order in which they begin. */
  datatype Call = Call(id: nat, tab: nat, observed: nat, startedAt: nat, ahead: set<nat>)

  /** The tabs, the number of tokens issued, the number of calls begun, the calls that hold or await the lock, and whether
      the holder is waiting for the server; and of the past, the calls that made a request, those whose request was
      answered, those whose request was rejected, and what calls returned. */
  datatype State = State(tabs: seq<Tab>, issued: nat, begun: nat, queue: seq<Call>, requesting: bool,
                         attempts: seq<Call>, requests: seq<Call>, rejected: seq<Call>, returned: seq<(Call, nat)>)

  datatype Step = Begin(tab: nat) | Deliver(tab: nat) | Check | Respond | Reject

  function Received(t: Tab, token: nat): Tab { t.(revision := t.revision + 1, latest := Some(token)) }

  /** The publishing tab receives at once; the message goes on its way to the others. */
  function Published(tabs: seq<Tab>, from: nat, token: nat): seq<Tab> {
    seq(|tabs|, i requires 0 <= i < |tabs| => if i == from then Received(tabs[i], token) else tabs[i].(inbox := tabs[i].inbox + [token]))
  }

  /** What makes a request unnecessary: tokens that arrived since the call began. */
  function Newer(t: Tab, observed: nat): Option<nat> { if t.revision > observed then t.latest else None }

  /** The waiting calls that observed the newest revision. */
  function UpToDate(queue: seq<Call>, issued: nat): set<nat> {
    set k | 0 <= k < |queue| && queue[k].observed == issued :: queue[k].id
  }

  /** The schedules considered: the holder checks only when everything posted to its tab has been delivered. */
  function Next(s: State, step: Step): State {
    match step
    case Begin(tab) =>
      if tab < |s.tabs| then
        s.(begun := s.begun + 1,
           queue := s.queue + [Call(s.begun, tab, s.tabs[tab].revision, s.issued, UpToDate(s.queue, s.issued))])
      else s
    case Deliver(tab) =>
      if tab < |s.tabs| && s.tabs[tab].inbox != [] then
        s.(tabs := s.tabs[tab := Received(s.tabs[tab], s.tabs[tab].inbox[0]).(inbox := s.tabs[tab].inbox[1..])])
      else s
    case Check =>
      if s.queue == [] || s.requesting || s.queue[0].tab >= |s.tabs| || s.tabs[s.queue[0].tab].inbox != [] then s
      else
        var tokens := Newer(s.tabs[s.queue[0].tab], s.queue[0].observed);
        if tokens.Some? then s.(queue := s.queue[1..], returned := s.returned + [(s.queue[0], tokens.value)])
        else s.(requesting := true, attempts := s.attempts + [s.queue[0]])
    case Respond =>
      if s.queue == [] || !s.requesting then s
      else
        s.(issued := s.issued + 1, tabs := Published(s.tabs, s.queue[0].tab, s.issued + 1), requesting := false,
           queue := s.queue[1..], requests := s.requests + [s.queue[0]], returned := s.returned + [(s.queue[0], s.issued + 1)])
    case Reject =>
      if s.queue == [] || !s.requesting then s
      else s.(requesting := false, queue := s.queue[1..], rejected := s.rejected + [s.queue[0]])
  }

  function Exec(s: State, steps: seq<Step>): State
    decreases |steps|
  {
    if steps == [] then s else Exec(Next(s, steps[0]), steps[1..])
  }

  function Opened(tabs: nat): State { State(seq(tabs, i => Tab(0, None, [])), 0, 0, [], false, [], [], [], []) }

  // ---------- invariants ----------

  /** A tab has received the tokens in order, and the missing ones are on their way. */
  ghost predicate TabIsInOrder(t: Tab, issued: nat) {
    && t.revision + |t.inbox| == issued
    && t.latest == (if t.revision == 0 then None else Some(t.revision))
    && forall i :: 0 <= i < |t.inbox| ==> t.inbox[i] == t.revision + i + 1
  }

  ghost predicate TabsAreInOrder(s: State) { forall i :: 0 <= i < |s.tabs| ==> TabIsInOrder(s.tabs[i], s.issued) }

  /** A call ahead that had observed the newest revision obtained tokens. */
  ghost predicate Overtaken(call: Call, requests: seq<Call>) {
    exists k :: 0 <= k < |requests| && requests[k].id in call.ahead
  }

  /** Calls wait in the order in which they began, at most one token was issued since any of them began, and it was issued
      to a call ahead. */
  ghost predicate QueueIsInOrder(s: State) {
    && (forall i :: 0 <= i < |s.queue| ==> s.queue[i].tab < |s.tabs| && s.queue[i].id < s.begun && WaitsInOrder(s, s.queue[i]))
    && (forall i, j :: 0 <= i < j < |s.queue| ==> s.queue[i].id < s.queue[j].id && s.queue[i].startedAt <= s.queue[j].startedAt)
    && (forall i, j :: 0 <= i < j < |s.queue| && s.queue[i].observed == s.issued == s.queue[j].startedAt ==> s.queue[i].id in s.queue[j].ahead)
    && (s.requesting ==> s.queue != [] && s.queue[0].observed == s.issued && s.tabs[s.queue[0].tab].inbox == [])
  }

  ghost predicate WaitsInOrder(s: State, c: Call) {
    && c.observed <= c.startedAt <= s.issued <= c.startedAt + 1
    && (forall x :: x in c.ahead ==> x < c.id)
    && (s.issued > c.startedAt <==> Overtaken(c, s.requests))
  }

  /** The n-th answered request was made by a call that had observed the revision before it, and by none that still waits. */
  ghost predicate RequestsAreInOrder(s: State) {
    && |s.requests| == s.issued && (forall i :: 0 <= i < |s.requests| ==> s.requests[i].observed == i && s.requests[i].id < s.begun)
    && forall i, j :: 0 <= i < |s.requests| && 0 <= j < |s.queue| ==> s.requests[i].id < s.queue[j].id
  }

  /** The tokens that are due to a call. */
  ghost function Due(call: Call, requests: seq<Call>): nat {
    if call.observed == call.startedAt || Overtaken(call, requests) then call.startedAt + 1 else call.startedAt
  }

  ghost predicate ReturnIsDue(s: State, call: Call, token: nat) {
    && call.observed < token <= s.issued && call.observed <= call.startedAt && token == Due(call, s.requests)
    && (forall x :: x in call.ahead ==> x < call.id) && (forall j :: 0 <= j < |s.queue| ==> call.id < s.queue[j].id) && call.id < s.begun
  }

  ghost predicate ReturnsAreDue(s: State) {
    forall i :: 0 <= i < |s.returned| ==> ReturnIsDue(s, s.returned[i].0, s.returned[i].1)
  }

  ghost predicate Inv(s: State) {
    TabsAreInOrder(s) && QueueIsInOrder(s) && RequestsAreInOrder(s) && ReturnsAreDue(s) && AttemptsAreCounted(s)
  }

  /** How many of the calls observed a revision. */
  function CountOf(calls: seq<Call>, observed: nat): nat {
    if calls == [] then 0 else CountOf(calls[..|calls| - 1], observed) + if calls[|calls| - 1].observed == observed then 1 else 0
  }

  /** The holder's open request, if it is for this revision. */
  function OpenFor(s: State, n: nat): nat { if s.requesting && s.queue != [] && s.queue[0].observed == n then 1 else 0 }

  /** Every request was answered, was rejected, or is open. */
  ghost predicate AttemptsAreCounted(s: State) {
    forall n: nat :: CountedFor(s, n)
  }

  ghost predicate CountedFor(s: State, n: nat) {
    CountOf(s.attempts, n) == CountOf(s.requests, n) + CountOf(s.rejected, n) + OpenFor(s, n)
  }

  lemma CountSnoc(calls: seq<Call>, c: Call, n: nat)
    ensures CountOf(calls + [c], n) == CountOf(calls, n) + if c.observed == n then 1 else 0
  {
    assert (calls + [c])[..|calls|] == calls;
  }

  lemma StepKeepsCountFor(s: State, step: Step, n: nat)
    requires CountedFor(s, n) && (s.requesting ==> s.queue != [])
    ensures CountedFor(Next(s, step), n)
  {
    match step
    case Check => if s.queue != [] { CountSnoc(s.attempts, s.queue[0], n); }
    case Respond => if s.requesting { CountSnoc(s.requests, s.queue[0], n); }
    case Reject => if s.requesting { CountSnoc(s.rejected, s.queue[0], n); }
    case _ =>
  }

  lemma StepKeepsCount(s: State, step: Step)
    requires AttemptsAreCounted(s) && (s.requesting ==> s.queue != [])
    ensures AttemptsAreCounted(Next(s, step))
  {
    forall n: nat ensures CountedFor(Next(s, step), n) { StepKeepsCountFor(s, step, n); }
  }

  /** What was returned stays what was due while no call behind it is answered. */
  lemma ReturnStays(s: State, t: State, call: Call, token: nat)
    requires ReturnIsDue(s, call, token) && s.issued <= t.issued && s.begun <= t.begun
    requires s.requests <= t.requests && forall k :: |s.requests| <= k < |t.requests| ==> call.id < t.requests[k].id
    requires forall j :: 0 <= j < |t.queue| ==> call.id < t.queue[j].id
    ensures ReturnIsDue(t, call, token)
  {
    assert Overtaken(call, t.requests) <==> Overtaken(call, s.requests) by {
      if Overtaken(call, s.requests) {
        var k :| 0 <= k < |s.requests| && s.requests[k].id in call.ahead;
        assert t.requests[k] == s.requests[k];
      }
    }
  }

  lemma ReturnsStay(s: State, t: State)
    requires ReturnsAreDue(s) && s.issued == t.issued && s.begun <= t.begun && s.requests == t.requests
    requires forall j :: 0 <= j < |t.queue| ==> t.queue[j] in s.queue || t.queue[j].id >= s.begun
    ensures forall i :: 0 <= i < |s.returned| ==> ReturnIsDue(t, s.returned[i].0, s.returned[i].1)
  {
    forall i | 0 <= i < |s.returned| ensures ReturnIsDue(t, s.returned[i].0, s.returned[i].1) {
      ReturnStays(s, t, s.returned[i].0, s.returned[i].1);
    }
  }

  lemma BeginKeepsQueue(s: State, tab: nat)
    requires TabsAreInOrder(s) && QueueIsInOrder(s) && RequestsAreInOrder(s) && tab < |s.tabs|
    ensures QueueIsInOrder(Next(s, Begin(tab)))
  {
    assert TabIsInOrder(s.tabs[tab], s.issued);
    var t := Next(s, Begin(tab));
    var c := t.queue[|s.queue|];
    forall i | 0 <= i < |s.queue| ensures WaitsInOrder(t, s.queue[i]) && s.queue[i].startedAt <= c.startedAt { assert WaitsInOrder(s, s.queue[i]); }
    assert WaitsInOrder(t, c);
  }

  lemma BeginKeepsInv(s: State, tab: nat)
    requires Inv(s)
    ensures Inv(Next(s, Begin(tab)))
  {
    StepKeepsCount(s, Begin(tab));
    if tab < |s.tabs| {
      BeginKeepsQueue(s, tab);
      ReturnsStay(s, Next(s, Begin(tab)));
    }
  }

  lemma DeliverKeepsInv(s: State, tab: nat)
    requires Inv(s)
    ensures Inv(Next(s, Deliver(tab)))
  {
    StepKeepsCount(s, Deliver(tab));
    if tab < |s.tabs| {
      assert TabIsInOrder(s.tabs[tab], s.issued);
      var t := Next(s, Deliver(tab));
      forall i | 0 <= i < |t.queue| ensures WaitsInOrder(t, t.queue[i]) { assert WaitsInOrder(s, s.queue[i]); }
      ReturnsStay(s, t);
    }
  }

  /** The call at the head leaves the queue. */
  lemma HeadLeaves(s: State, t: State)
    requires QueueIsInOrder(s) && s.queue != [] && t.queue == s.queue[1..] && !t.requesting
    requires t.tabs == s.tabs && t.issued == s.issued && t.begun == s.begun && t.requests == s.requests
    ensures QueueIsInOrder(t)
  {
    forall i | 0 <= i < |t.queue| ensures WaitsInOrder(t, t.queue[i]) { assert WaitsInOrder(s, s.queue[i + 1]); }
  }

  lemma CheckKeepsInv(s: State)
    requires Inv(s)
    ensures Inv(Next(s, Check))
  {
    StepKeepsCount(s, Check);
    var t := Next(s, Check);
    if t != s {
      var head := s.queue[0];
      assert WaitsInOrder(s, head) && TabIsInOrder(s.tabs[head.tab], s.issued);
      ReturnsStay(s, t);
      if t.requesting {
        forall i | 0 <= i < |t.queue| ensures WaitsInOrder(t, t.queue[i]) { assert WaitsInOrder(s, s.queue[i]); }
      } else {
        HeadLeaves(s, t);
        assert ReturnIsDue(t, head, s.issued);
      }
    }
  }

  lemma RejectKeepsInv(s: State)
    requires Inv(s)
    ensures Inv(Next(s, Reject))
  {
    StepKeepsCount(s, Reject);
    if s.requesting {
      HeadLeaves(s, Next(s, Reject));
      ReturnsStay(s, Next(s, Reject));
    }
  }

  lemma PublishedInOrder(t: Tab, issued: nat)
    requires TabIsInOrder(t, issued)
    ensures TabIsInOrder(t.(inbox := t.inbox + [issued + 1]), issued + 1)
    ensures t.inbox == [] ==> TabIsInOrder(Received(t, issued + 1), issued + 1)
  {
  }

  lemma RespondKeepsTabs(s: State)
    requires Inv(s) && s.requesting
    ensures TabsAreInOrder(Next(s, Respond))
  {
    forall i | 0 <= i < |s.tabs| ensures TabIsInOrder(Next(s, Respond).tabs[i], s.issued + 1) { PublishedInOrder(s.tabs[i], s.issued); }
  }

  /** An answer overtakes every call that waits, and no call that returned. */
  lemma RespondKeepsQueue(s: State)
    requires Inv(s) && s.requesting
    ensures QueueIsInOrder(Next(s, Respond)) && s.queue[0].startedAt == s.issued && !Overtaken(s.queue[0], s.requests)
  {
    var t := Next(s, Respond);
    assert WaitsInOrder(s, s.queue[0]);
    forall i | 0 <= i < |t.queue| ensures WaitsInOrder(t, t.queue[i]) && t.queue[i].startedAt == s.issued {
      assert WaitsInOrder(s, s.queue[i + 1]) && t.queue[i] == s.queue[i + 1];
      assert t.requests[|s.requests|].id == s.queue[0].id && s.queue[0].id in s.queue[i + 1].ahead;
    }
  }

  lemma RespondKeepsReturns(s: State)
    requires Inv(s) && s.requesting
    ensures ReturnsAreDue(Next(s, Respond))
  {
    var t := Next(s, Respond);
    RespondKeepsQueue(s);
    forall i | 0 <= i < |s.returned| ensures ReturnIsDue(t, t.returned[i].0, t.returned[i].1) {
      assert t.returned[i] == s.returned[i] && ReturnIsDue(s, s.returned[i].0, s.returned[i].1);
      ReturnStays(s, t, s.returned[i].0, s.returned[i].1);
    }
    assert WaitsInOrder(s, s.queue[0]);
    assert ReturnIsDue(t, s.queue[0], s.issued + 1);
  }

  lemma RespondKeepsInv(s: State)
    requires Inv(s)
    ensures Inv(Next(s, Respond))
  {
    StepKeepsCount(s, Respond);
    if s.requesting {
      RespondKeepsTabs(s);
      RespondKeepsQueue(s);
      RespondKeepsReturns(s);
    }
  }

  lemma {:induction false} ExecKeepsInv(s: State, steps: seq<Step>)
    requires Inv(s)
    ensures Inv(Exec(s, steps))
    decreases |steps|
  {
    if steps != [] {
      match steps[0] {
        case Begin(tab) => BeginKeepsInv(s, tab);
        case Deliver(tab) => DeliverKeepsInv(s, tab);
        case Check => CheckKeepsInv(s);
        case Respond => RespondKeepsInv(s);
        case Reject => RejectKeepsInv(s);
      }
      ExecKeepsInv(Next(s, steps[0]), steps[1..]);
    }
  }

  // ---------- the main results ----------

  /** Answered requests are in the order of the revisions they were made for. */
  lemma {:induction false} CountOfAnswered(requests: seq<Call>, n: nat)
    requires forall i :: 0 <= i < |requests| ==> requests[i].observed == i
    ensures CountOf(requests, n) == if n < |requests| then 1 else 0
  {
    if requests != [] { CountOfAnswered(requests[..|requests| - 1], n); }
  }

  /** All calls that observed the same revision cause at most one answered server request between them, and every other
      request for it was rejected or is still open; none is open or made once one has been answered. */
  lemma OneRequestPerRevision(tabs: nat, steps: seq<Step>, n: nat)
    ensures var t := Exec(Opened(tabs), steps);
            && CountOf(t.requests, n) == (if n < t.issued then 1 else 0)
            && CountOf(t.attempts, n) == CountOf(t.requests, n) + CountOf(t.rejected, n) + OpenFor(t, n)
            && (OpenFor(t, n) == 1 ==> n == t.issued)
  {
    ExecKeepsInv(Opened(tabs), steps);
    assert CountedFor(Exec(Opened(tabs), steps), n);
    CountOfAnswered(Exec(Opened(tabs), steps).requests, n);
  }

  /** As soon as a call has returned, there was one request for its revision if and only if none was rejected; in general,
      there was one more than were rejected. */
  lemma ReturnedMeansRequested(tabs: nat, steps: seq<Step>, k: nat)
    requires k < |Exec(Opened(tabs), steps).returned|
    ensures var t := Exec(Opened(tabs), steps);
            var n := t.returned[k].0.observed;
            && CountOf(t.requests, n) == 1 && CountOf(t.attempts, n) == 1 + CountOf(t.rejected, n)
            && (CountOf(t.attempts, n) == 1 <==> CountOf(t.rejected, n) == 0)
  {
    ExecKeepsInv(Opened(tabs), steps);
    var t := Exec(Opened(tabs), steps);
    assert ReturnIsDue(t, t.returned[k].0, t.returned[k].1);
    OneRequestPerRevision(tabs, steps, t.returned[k].0.observed);
  }

  /** A call returns the tokens of the request for the revision it observed if and only if that revision was the newest
      when it began, or one newer was out and no call ahead of it that had observed that one obtained tokens. */
  lemma ReturnsItsRequestExactlyWhen(tabs: nat, steps: seq<Step>, k: nat)
    requires k < |Exec(Opened(tabs), steps).returned|
    ensures var t := Exec(Opened(tabs), steps);
            var (call, token) := t.returned[k];
            && token == call.observed + 1 <==>
                 call.observed == call.startedAt || (call.startedAt == call.observed + 1 && !Overtaken(call, t.requests))
  {
    ExecKeepsInv(Opened(tabs), steps);
    var t := Exec(Opened(tabs), steps);
    assert ReturnIsDue(t, t.returned[k].0, t.returned[k].1);
  }

  /** Calls that observed the same revision return the same tokens if and only if the same were due to them: the ones after
      those that were out when a call began, if it had observed the newest revision or a call ahead that had obtained
      tokens, and otherwise those that were out.  To all that observed it while it was the newest, the same were due. */
  lemma SameRevisionSameTokens(tabs: nat, steps: seq<Step>, i: nat, j: nat)
    requires var t := Exec(Opened(tabs), steps);
             i < |t.returned| && j < |t.returned| && t.returned[i].0.observed == t.returned[j].0.observed
    ensures var t := Exec(Opened(tabs), steps);
            var (a, b) := (t.returned[i].0, t.returned[j].0);
            && (t.returned[i].1 == t.returned[j].1 <==> Due(a, t.requests) == Due(b, t.requests))
            && (a.observed == a.startedAt && b.observed == b.startedAt ==> t.returned[i].1 == t.returned[j].1)
  {
    ExecKeepsInv(Opened(tabs), steps);
    var t := Exec(Opened(tabs), steps);
    assert ReturnIsDue(t, t.returned[i].0, t.returned[i].1) && ReturnIsDue(t, t.returned[j].0, t.returned[j].1);
  }

  // ---------- runs as examples ----------

  /** A run with all its states. */
  ghost predicate Trace(states: seq<State>, steps: seq<Step>) {
    |states| == |steps| + 1 && forall i :: 0 <= i < |steps| ==> Next(states[i], steps[i]) == states[i + 1]
  }

  /** At every check, everything that was posted has been delivered, in all tabs. */
  ghost predicate DeliveredBeforeChecks(states: seq<State>, steps: seq<Step>)
    requires |states| == |steps| + 1
  {
    forall i, tab :: 0 <= i < |steps| && steps[i].Check? && 0 <= tab < |states[i].tabs| ==> states[i].tabs[tab].inbox == []
  }

  lemma {:induction false} TraceIsExec(states: seq<State>, steps: seq<Step>)
    requires Trace(states, steps)
    ensures Exec(states[0], steps) == states[|steps|]
    decreases |steps|
  {
    if steps != [] {
      assert Trace(states[1..], steps[1..]) by {
        forall i | 0 <= i < |steps| - 1 ensures Next(states[1..][i], steps[1..][i]) == states[1..][i + 1] {
          assert Next(states[i + 1], steps[i + 1]) == states[i + 2];
        }
      }
      TraceIsExec(states[1..], steps[1..]);
    }
  }

  // ---------- a request that is rejected ----------

  function FirstCall(): Call { Call(0, 0, 0, 0, {}) }
  function NextInLine(): Call { Call(1, 1, 0, 0, {0}) }

  function RepeatedSteps(): seq<Step> { [Begin(0), Begin(1), Check, Reject, Check] }

  function TwoWait(): State { Opened(2).(begun := 2, queue := [FirstCall(), NextInLine()]) }

  function OneRejected(): State {
    Opened(2).(begun := 2, queue := [NextInLine()], attempts := [FirstCall()], rejected := [FirstCall()])
  }

  function RepeatedStates(): seq<State> {
    [Opened(2),
     Opened(2).(begun := 1, queue := [FirstCall()]),
     TwoWait(),
     TwoWait().(requesting := true, attempts := [FirstCall()]),
     OneRejected(),
     OneRejected().(requesting := true, attempts := [FirstCall(), NextInLine()])]
  }

  lemma RepeatedTrace()
    ensures Trace(RepeatedStates(), RepeatedSteps())
  {
    var states, steps := RepeatedStates(), RepeatedSteps();
    UpToDateIs();
    assert [] + [FirstCall()] == [FirstCall()] && [FirstCall()] + [NextInLine()] == [FirstCall(), NextInLine()];
    assert [FirstCall(), NextInLine()][1..] == [NextInLine()];
    assert Next(states[0], steps[0]) == states[1] && Next(states[1], steps[1]) == states[2];
    assert Next(states[2], steps[2]) == states[3] && Next(states[3], steps[3]) == states[4];
    assert Next(states[4], steps[4]) == states[5];
  }

  /** One request per revision is not to be had when a request is rejected: the next call in line repeats it. */
  lemma RejectedRequestIsRepeated()
    ensures Trace(RepeatedStates(), RepeatedSteps())
    ensures var t := Exec(Opened(2), RepeatedSteps());
            CountOf(t.attempts, 0) == 2 && CountOf(t.rejected, 0) == 1 && t.issued == 0
  {
    RepeatedTrace();
    TraceIsExec(RepeatedStates(), RepeatedSteps());
    CountSnoc([FirstCall()], NextInLine(), 0);
    CountSnoc([], FirstCall(), 0);
    assert [FirstCall()] + [NextInLine()] == [FirstCall(), NextInLine()] && [] + [FirstCall()] == [FirstCall()];
  }

  // ---------- a call that begins with an old revision ----------

  // Two tabs: the first one refreshes and begins again; the second one begins before the news reaches it.

  function StaleSteps(): seq<Step> {
    [Begin(0), Check, Respond, Begin(0), Begin(1), Deliver(1), Check, Respond, Deliver(1), Check]
  }

  function SecondCall(): Call { Call(1, 0, 1, 1, {}) }
  function StaleCall(): Call { Call(2, 1, 0, 1, {1}) }

  function Asking(): State { Opened(2).(begun := 1, queue := [FirstCall()], requesting := true, attempts := [FirstCall()]) }

  function Refreshed(): State {
    State([Tab(1, Some(1), []), Tab(0, None, [1])], 1, 1, [], false, [FirstCall()], [FirstCall()], [], [(FirstCall(), 1)])
  }

  function Both(): State { Refreshed().(begun := 3, queue := [SecondCall(), StaleCall()]) }

  function Waiting(): State { Both().(tabs := [Tab(1, Some(1), []), Tab(1, Some(1), [])]) }

  function AskingAgain(): State { Waiting().(requesting := true, attempts := [FirstCall(), SecondCall()]) }

  function Again(second: Tab): State {
    State([Tab(2, Some(2), []), second], 2, 3, [StaleCall()], false, [FirstCall(), SecondCall()], [FirstCall(), SecondCall()], [],
          [(FirstCall(), 1), (SecondCall(), 2)])
  }

  function StaleStates(): seq<State> {
    [Opened(2),
     Opened(2).(begun := 1, queue := [FirstCall()]),
     Asking(),
     Refreshed(),
     Refreshed().(begun := 2, queue := [SecondCall()]),
     Both(),
     Waiting(),
     AskingAgain(),
     Again(Tab(1, Some(1), [2])),
     Again(Tab(2, Some(2), [])),
     Again(Tab(2, Some(2), [])).(queue := [], returned := [(FirstCall(), 1), (SecondCall(), 2), (StaleCall(), 2)])]
  }

  lemma FirstRefresh()
    ensures Next(Asking(), Respond) == Refreshed()
  {
    var r := Next(Asking(), Respond);
    assert [] + [1] == [1];
    assert r.tabs[0] == Refreshed().tabs[0] && r.tabs[1] == Refreshed().tabs[1];
    assert r.tabs == Refreshed().tabs && r.queue == [] && r.requests == Refreshed().requests && r.returned == Refreshed().returned;
  }

  lemma SecondRefresh()
    ensures Next(AskingAgain(), Respond) == Again(Tab(1, Some(1), [2]))
  {
    var r := Next(AskingAgain(), Respond);
    assert [] + [2] == [2];
    assert r.tabs[0] == Tab(2, Some(2), []) && r.tabs[1] == Tab(1, Some(1), [2]);
    assert r.tabs == Again(Tab(1, Some(1), [2])).tabs && r.queue == [StaleCall()];
  }

  lemma News()
    ensures Next(Both(), Deliver(1)) == Waiting()
    ensures Next(Again(Tab(1, Some(1), [2])), Deliver(1)) == Again(Tab(2, Some(2), []))
  {
    assert [1][1..] == [] && [2][1..] == [];
  }

  lemma UpToDateIs()
    ensures forall n: nat :: UpToDate([], n) == {}
    ensures UpToDate([SecondCall()], 1) == {1} && UpToDate([FirstCall()], 0) == {0}
  {
    assert [SecondCall()][0].observed == 1 && [FirstCall()][0].observed == 0;
  }

  lemma Begins()
    ensures Next(Opened(2), Begin(0)) == Opened(2).(begun := 1, queue := [FirstCall()])
    ensures Next(Refreshed(), Begin(0)) == Refreshed().(begun := 2, queue := [SecondCall()])
    ensures Next(Refreshed().(begun := 2, queue := [SecondCall()]), Begin(1)) == Both()
  {
    UpToDateIs();
    assert [] + [FirstCall()] == [FirstCall()] && [] + [SecondCall()] == [SecondCall()];
    assert [SecondCall()] + [StaleCall()] == [SecondCall(), StaleCall()];
  }

  lemma Checks()
    ensures Next(Opened(2).(begun := 1, queue := [FirstCall()]), Check) == Asking()
    ensures Next(Waiting(), Check) == AskingAgain()
    ensures Next(Again(Tab(2, Some(2), [])), Check) == StaleStates()[10]
  {
    assert [StaleCall()][1..] == [];
  }

  lemma StaleTrace()
    ensures Trace(StaleStates(), StaleSteps())
  {
    FirstRefresh();
    SecondRefresh();
    News();
    Begins();
    Checks();
    var states, steps := StaleStates(), StaleSteps();
    assert Next(states[0], steps[0]) == states[1] && Next(states[1], steps[1]) == states[2] && Next(states[2], steps[2]) == states[3];
    assert Next(states[3], steps[3]) == states[4] && Next(states[4], steps[4]) == states[5] && Next(states[5], steps[5]) == states[6];
    assert Next(states[6], steps[6]) == states[7] && Next(states[7], steps[7]) == states[8];
    assert Next(states[8], steps[8]) == states[9] && Next(states[9], steps[9]) == states[10];
  }

  lemma StaleChecksAreQuiet()
    ensures DeliveredBeforeChecks(StaleStates(), StaleSteps())
  {
    var states, steps := StaleStates(), StaleSteps();
    assert states[1].tabs == [Tab(0, None, []), Tab(0, None, [])];
    assert states[6].tabs == [Tab(1, Some(1), []), Tab(1, Some(1), [])];
    assert states[9].tabs == [Tab(2, Some(2), []), Tab(2, Some(2), [])];
    forall i | 0 <= i < |steps| && steps[i].Check? ensures forall tab :: 0 <= tab < |states[i].tabs| ==> states[i].tabs[tab].inbox == [] {
      assert i == 1 || i == 6 || i == 9;
    }
  }

  /** Observing the same revision is not enough, even when everything posted is delivered before every check: a call that
      begins in a second tab before the first refresh reaches it, behind another call of the first tab, returns the
      tokens of that one. */
  lemma StaleCallGetsLaterTokens()
    ensures Trace(StaleStates(), StaleSteps()) && DeliveredBeforeChecks(StaleStates(), StaleSteps())
    ensures var t := Exec(Opened(2), StaleSteps());
            && |t.returned| == 3 && t.returned[0].0.observed == 0 == t.returned[2].0.observed
            && t.returned[0].1 == 1 && t.returned[2].1 == 2
  {
    StaleTrace();
    StaleChecksAreQuiet();
    StaleEnd();
    TraceIsExec(StaleStates(), StaleSteps());
  }

  lemma StaleEnd()
    ensures StaleStates()[0] == Opened(2) && |StaleStates()| == 11 && |StaleSteps()| == 10
    ensures StaleStates()[10].returned == [(FirstCall(), 1), (SecondCall(), 2), (StaleCall(), 2)]
  {
  }

  // ---------- one tab's coordinator ----------

  /** One tab's coordinator. */
  class Coordinator {
    var latestTokens: Option<nat>
    var revision: nat

    /** The tab of the machine, with the messages on their way to it. */
    function AsTab(inbox: seq<nat>): Tab reads this { Tab(revision, latestTokens, inbox) }

    /** The tab's call is the next to hold the lock, and everything posted to the tab has arrived. */
    ghost predicate Holds(s: State) reads this {
      && s.queue != [] && !s.requesting && s.queue[0].tab < |s.tabs| && s.tabs[s.queue[0].tab] == AsTab([])
    }

    constructor ()
      ensures AsTab([]) == Opened(1).tabs[0]
    {
      latestTokens, revision := None, 0;
    }

    /** `Some(tokens)` is a token message, `None` a logout, which leaves the revision as it is. */
    method Receive(message: Option<nat>)
      modifies this
      ensures AsTab([]) == if message.Some? then Received(old(AsTab([])), message.value) else old(AsTab([])).(latest := None)
    {
      latestTokens := message;
      if message.Some? {
        revision := revision + 1;
      }
    }

    /** The decision under the lock is the machine's check; in a reachable state it reuses tokens exactly when newer ones
        than the call observed have been issued, and then the newest. */
    method Reuse(ghost s: State, observed: nat) returns (tokens: Option<nat>)
      requires Holds(s) && s.queue[0].observed == observed
      ensures Next(s, Check) == if tokens.Some? then s.(queue := s.queue[1..], returned := s.returned + [(s.queue[0], tokens.value)])
                                else s.(requesting := true, attempts := s.attempts + [s.queue[0]])
      ensures Inv(s) ==> tokens == if observed < s.issued then Some(s.issued) else None
    {
      assert Inv(s) ==> WaitsInOrder(s, s.queue[0]) && TabIsInOrder(s.tabs[s.queue[0].tab], s.issued);
      if revision > observed && latestTokens.Some? {
        return latestTokens;
      }
      tokens := None;
    }

    /** The guarded section: the check, and when one is needed the request with its publication or its rejection, do to this
        tab and to its call what the machine's steps do.  A rejected request publishes nothing, and its call fails. */
    method GuardedRefresh(ghost s: State, observed: nat, response: Option<nat>) returns (tokens: Option<nat>, requested: bool)
      requires Holds(s) && s.queue[0].observed == observed && (response.Some? ==> response.value == s.issued + 1)
      modifies this
      ensures var t := if !requested then Next(s, Check) else Next(Next(s, Check), if response.Some? then Respond else Reject);
              && t.tabs[s.queue[0].tab] == AsTab([]) && t.queue == s.queue[1..] && !t.requesting
              && t.attempts == s.attempts + (if requested then [s.queue[0]] else [])
              && t.rejected == s.rejected + (if tokens.None? then [s.queue[0]] else [])
              && t.returned == s.returned + if tokens.Some? then [(s.queue[0], tokens.value)] else []
      ensures tokens.None? <==> requested && response.None?
      ensures Inv(s) ==> (requested <==> observed == s.issued)
    {
      assert Inv(s) ==> WaitsInOrder(s, s.queue[0]);
      var reused := Reuse(s, observed);
      if reused.Some? {
        return reused, false;
      }
      if response.Some? {
        Receive(response);
      }
      tokens, requested := response, true;
    }
  }
}
