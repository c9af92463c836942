/**
 * Event-triggered runs of one agent (core/internal/agenttrigger/service.go): matching, batched dispatch
 * behind a checkpoint, and the depth of the cascades that runs cause.  Case folding and regular expressions
 * are parameters; a trigger's JSON configuration is already decoded.
 */
module TriggerDispatch {
  import opened Collections
  import Pricing

  type Id = nat

  datatype Event = Event(seqNo: nat, kind: string, actor: Option<Id>, byAgent: bool, chat: Option<Id>,
                         threadRoot: Option<Id>, body: string, mentioned: seq<Id>, sourceDepth: Option<nat>)

  datatype Rule =
    | Manual
    | Mention
    | Command(word: string)
    | Keyword(pattern: string, caseSensitive: bool)
    | EveryMessage
    | OnEvent(kinds: seq<string>, chat: Option<Id>)

  datatype Trigger = Trigger(id: Id, rule: Rule, includeAgentMessages: bool)

  datatype RunRow = RunRow(trigger: Id, seqNo: nat, chat: Option<Id>, threadRoot: Option<Id>, requestedBy: Option<Id>, depth: nat)

  datatype Text = Text(equalFold: (string, string) -> bool, regexMatches: (string, string) -> bool)

  /** One agent with its enabled triggers, and the chats it is a member of. */
  datatype Agent = Agent(id: Id, maxDepth: nat, triggers: seq<Trigger>, chats: set<Id>, text: Text)

  // ---------- matching ----------

  predicate Separator(c: char) { c == ' ' || c == '\t' || c == '\r' || c == '\n' }

  function FirstWord(s: string): string {
    if s == "" || Separator(s[0]) then "" else [s[0]] + FirstWord(s[1..])
  }

  /** Whether the trigger matches, and whether it listens to agents. */
  function Matches(a: Agent, t: Trigger, e: Event): (bool, bool) {
    match t.rule
    case Manual => (false, false)
    case Mention => (e.kind == "message.created" && a.id in e.mentioned, t.includeAgentMessages)
    case Command(word) =>
      (e.kind == "message.created" && a.text.equalFold(FirstWord(Pricing.TrimSpace(e.body)), "/" + word), t.includeAgentMessages)
    case Keyword(pattern, caseSensitive) =>
      (e.kind == "message.created" && a.text.regexMatches(if caseSensitive then pattern else "(?i)" + pattern, e.body), t.includeAgentMessages)
    case EveryMessage => (e.kind == "message.created", t.includeAgentMessages)
    case OnEvent(kinds, _) => (e.kind in kinds, t.includeAgentMessages)
  }

  function NextDepth(e: Event): nat {
    if e.sourceDepth.Some? then e.sourceDepth.value + 1 else 0
  }

  predicate Eligible(a: Agent, t: Trigger, e: Event) {
    var (matched, includeAgents) := Matches(a, t, e);
    matched && e.actor != Some(a.id) && (!e.byAgent || includeAgents) && NextDepth(e) <= a.maxDepth
  }

  function RowFor(t: Trigger, e: Event): RunRow {
    var moved := t.rule.OnEvent? && t.rule.chat.Some?;
    RunRow(t.id, e.seqNo,
           if moved then t.rule.chat else e.chat,
           if moved && e.chat != t.rule.chat then None else e.threadRoot,
           e.actor, NextDepth(e))
  }

  /** The word of a command is the longest start of the text without a separator. */
  lemma {:induction false} FirstWordIsLongest(s: string)
    ensures var word := FirstWord(s);
            && word <= s && (forall i :: 0 <= i < |word| ==> !Separator(word[i]))
            && (|word| < |s| ==> Separator(s[|word|]))
  {
    if s != "" && !Separator(s[0]) {
      FirstWordIsLongest(s[1..]);
      assert s == [s[0]] + s[1..];
    }
  }

  /** Only event triggers listen to anything but new messages, and no agent hears itself. */
  lemma OnlyMessagesTrigger(a: Agent, t: Trigger, e: Event)
    ensures Eligible(a, t, e) ==>
              && e.actor != Some(a.id) && (e.kind == "message.created" || (t.rule.OnEvent? && e.kind in t.rule.kinds))
              && (e.byAgent ==> t.includeAgentMessages) && !t.rule.Manual?
  {
  }

  /** A run is in a thread only in the chat of the event, and in another chat only when its trigger names that chat. */
  lemma ThreadStaysInItsChat(t: Trigger, e: Event)
    ensures var r := RowFor(t, e);
            && (r.threadRoot.Some? ==> r.chat == e.chat && r.threadRoot == e.threadRoot)
            && (r.chat != e.chat ==> t.rule.OnEvent? && r.chat == t.rule.chat)
            && (r.chat == e.chat ==> r.threadRoot == e.threadRoot)
  {
  }

  // ---------- one pass without batches ----------

  function EventRows(a: Agent, triggers: seq<Trigger>, e: Event): seq<RunRow> {
    if triggers == [] then []
    else (if Eligible(a, triggers[0], e) then [RowFor(triggers[0], e)] else []) + EventRows(a, triggers[1..], e)
  }

  /** The rows of every eligible (event, trigger) pair, in log order. */
  function Pass(a: Agent, events: seq<Event>): seq<RunRow> {
    if events == [] then [] else EventRows(a, a.triggers, events[0]) + Pass(a, events[1..])
  }

  predicate Visible(a: Agent, e: Event) { e.chat.None? || e.chat.value in a.chats }

  // ---------- dispatch ----------

  /** The log with its high watermark, the agent's checkpoint, and the table of triggered runs. */
  datatype State = State(log: seq<Event>, high: nat, checkpoint: Option<nat>, rows: seq<RunRow>)

  predicate Conflicts(rows: seq<RunRow>, r: RunRow) {
    exists i :: 0 <= i < |rows| && rows[i].trigger == r.trigger && rows[i].seqNo == r.seqNo
  }

  /** `INSERT ... ON CONFLICT DO NOTHING`. */
  function Insert(rows: seq<RunRow>, r: RunRow): seq<RunRow> {
    if Conflicts(rows, r) then rows else rows + [r]
  }

  function InsertAll(rows: seq<RunRow>, more: seq<RunRow>): seq<RunRow>
    decreases |more|
  {
    if more == [] then rows else InsertAll(Insert(rows, more[0]), more[1..])
  }

  function Pending(a: Agent, log: seq<Event>, checkpoint: nat): seq<Event> {
    Filter(log, (e: Event) => e.seqNo > checkpoint && Visible(a, e))
  }

  function Batch(a: Agent, s: State, limit: nat): seq<Event>
    requires s.checkpoint.Some?
  {
    Take(Pending(a, s.log, s.checkpoint.value), limit)
  }

  /** A committed dispatch transaction.  When the agent's connection is not available, nothing is inserted. */
  function Dispatch(a: Agent, s: State, limit: nat, connected: bool): State {
    if s.checkpoint.None? then s.(checkpoint := Some(s.high))
    else
      var batch := Batch(a, s, limit);
      if batch == [] then s
      else
        s.(rows := if connected then InsertAll(s.rows, Pass(a, batch)) else s.rows,
           checkpoint := Some(batch[|batch| - 1].seqNo))
  }

  datatype Step = Append(e: Event) | Run(limit: nat, connected: bool) | Aborted

  function Next(a: Agent, s: State, step: Step): State {
    match step
    case Append(e) => if e.seqNo == s.high + 1 then s.(log := s.log + [e], high := s.high + 1) else s
    case Run(limit, connected) => Dispatch(a, s, limit, connected)
    case Aborted => s
  }

  function Exec(a: Agent, s: State, steps: seq<Step>): State
    decreases |steps|
  {
    if steps == [] then s else Exec(a, Next(a, s, steps[0]), steps[1..])
  }

  // ---------- invariants ----------

  function SeqOf(e: Event): int { e.seqNo }

  predicate DistinctIds(triggers: seq<Trigger>) { forall i, j :: 0 <= i < j < |triggers| ==> triggers[i].id != triggers[j].id }

  ghost predicate Inv(s: State) {
    && Ascending(s.log, SeqOf) && s.checkpoint.Some? && s.checkpoint.value <= s.high
    && (forall i :: 0 <= i < |s.log| ==> s.log[i].seqNo <= s.high)
    && (forall i :: 0 <= i < |s.rows| ==> s.rows[i].seqNo <= s.checkpoint.value)
  }

  function Seen(a: Agent, log: seq<Event>): seq<Event> { Filter(log, (e: Event) => Visible(a, e)) }

  /** The visible events after `low` and up to `high`. */
  function Between(a: Agent, log: seq<Event>, low: nat, high: nat): seq<Event> {
    Filter(log, (e: Event) => low < e.seqNo <= high && Visible(a, e))
  }

  /** A batch is what lies between the checkpoint and the batch's last event. */
  lemma BatchIsBetween(a: Agent, s: State, limit: nat)
    requires Inv(s)
    ensures var batch := Batch(a, s, limit);
            batch != [] ==>
              var last := batch[|batch| - 1].seqNo;
              && s.checkpoint.value < last <= s.high
              && batch == Between(a, s.log, s.checkpoint.value, last)
  {
    var cp := s.checkpoint.value;
    var batch := Batch(a, s, limit);
    if batch != [] {
      var last := batch[|batch| - 1].seqNo;
      var more := (e: Event) => e.seqNo > cp && Visible(a, e);
      var pending := Filter(s.log, more);
      assert pending == Pending(a, s.log, cp);
      FilterMembers(s.log, more);
      assert batch[|batch| - 1] == pending[|batch| - 1] && pending[|batch| - 1] in pending;
      FirstKept(s.log, SeqOf, more, |batch|, (e: Event) => cp < e.seqNo <= last && Visible(a, e));
    }
  }

  /** What lies between two bounds ascends, and lies between them. */
  lemma BetweenIsAscending(a: Agent, log: seq<Event>, low: nat, high: nat)
    requires Ascending(log, SeqOf)
    ensures Ascending(Between(a, log, low, high), SeqOf)
    ensures forall e :: e in Between(a, log, low, high) <==> e in log && low < e.seqNo <= high && Visible(a, e)
  {
    var p := (e: Event) => low < e.seqNo <= high && Visible(a, e);
    FilterAscending(log, SeqOf, p);
    FilterMembers(log, p);
  }

  lemma NothingBetween(a: Agent, log: seq<Event>, bound: nat)
    ensures Between(a, log, bound, bound) == []
  {
    FilterNone(log, (e: Event) => bound < e.seqNo <= bound && Visible(a, e));
  }

  // ---------- rows of a pass ----------

  lemma {:induction false} EventRowsAre(a: Agent, triggers: seq<Trigger>, e: Event)
    requires DistinctIds(triggers)
    ensures forall r :: r in EventRows(a, triggers, e) ==> r.seqNo == e.seqNo && exists t :: t in triggers && t.id == r.trigger
    ensures forall i, j :: 0 <= i < j < |EventRows(a, triggers, e)| ==> EventRows(a, triggers, e)[i].trigger != EventRows(a, triggers, e)[j].trigger
  {
    if triggers != [] {
      EventRowsAre(a, triggers[1..], e);
      var rest := EventRows(a, triggers[1..], e);
      forall r | r in rest ensures r.trigger != triggers[0].id && exists t :: t in triggers && t.id == r.trigger {
        var t :| t in triggers[1..] && t.id == r.trigger;
        var i :| 0 <= i < |triggers[1..]| && triggers[1..][i] == t;
        assert t == triggers[i + 1];
      }
      assert triggers[0] in triggers;
    }
  }

  predicate NoConflicts(rows: seq<RunRow>) {
    forall i, j :: 0 <= i < j < |rows| ==> rows[i].trigger != rows[j].trigger || rows[i].seqNo != rows[j].seqNo
  }

  lemma {:induction false} PassRows(a: Agent, events: seq<Event>)
    requires Ascending(events, SeqOf) && DistinctIds(a.triggers)
    ensures NoConflicts(Pass(a, events))
    ensures forall r :: r in Pass(a, events) ==> exists e :: e in events && e.seqNo == r.seqNo
  {
    if events != [] {
      PassRows(a, events[1..]);
      EventRowsAre(a, a.triggers, events[0]);
      var first, rest := EventRows(a, a.triggers, events[0]), Pass(a, events[1..]);
      forall r | r in rest ensures r.seqNo > events[0].seqNo && exists e :: e in events && e.seqNo == r.seqNo {
        var e :| e in events[1..] && e.seqNo == r.seqNo;
        var i :| 0 <= i < |events[1..]| && events[1..][i] == e;
        assert e == events[i + 1];
      }
      assert events[0] in events;
      var all := first + rest;
      forall i, j | 0 <= i < j < |all| ensures all[i].trigger != all[j].trigger || all[i].seqNo != all[j].seqNo {
        if i < |first| { assert all[i] in first; }
        if j >= |first| { assert all[j] in rest; }
      }
    }
  }

  lemma {:induction false} PassConcat(a: Agent, x: seq<Event>, y: seq<Event>)
    ensures Pass(a, x + y) == Pass(a, x) + Pass(a, y)
  {
    if x == [] {
      assert x + y == y;
    } else {
      assert (x + y)[1..] == x[1..] + y;
      PassConcat(a, x[1..], y);
    }
  }

  /** Rows without conflicts are all inserted. */
  lemma {:induction false} InsertAllAppends(rows: seq<RunRow>, more: seq<RunRow>)
    requires NoConflicts(more)
    requires forall r :: r in more ==> !Conflicts(rows, r)
    ensures InsertAll(rows, more) == rows + more
    decreases |more|
  {
    if more != [] {
      var next := rows + [more[0]];
      assert more[0] in more;
      forall r | r in more[1..] ensures !Conflicts(next, r) {
        var j :| 0 <= j < |more[1..]| && more[1..][j] == r;
        assert r == more[j + 1] && r in more;
        forall i | 0 <= i < |next| ensures next[i].trigger != r.trigger || next[i].seqNo != r.seqNo {
          if i < |rows| { assert next[i] == rows[i]; }
        }
      }
      InsertAllAppends(next, more[1..]);
      assert rows + more == next + more[1..];
    }
  }

  // ---------- dispatching is exactly once ----------

  lemma DispatchIsExact(a: Agent, s: State, limit: nat)
    requires Inv(s) && DistinctIds(a.triggers)
    ensures var t := Dispatch(a, s, limit, true);
            && Inv(t) && s.checkpoint.value <= t.checkpoint.value
            && t.rows == s.rows + Pass(a, Between(a, s.log, s.checkpoint.value, t.checkpoint.value))
            && (1 <= limit && Pending(a, s.log, s.checkpoint.value) != [] ==> s.checkpoint.value < t.checkpoint.value)
  {
    var batch := Batch(a, s, limit);
    if batch == [] {
      NothingBetween(a, s.log, s.checkpoint.value);
    } else {
      BatchIsBetween(a, s, limit);
      BetweenIsAscending(a, s.log, s.checkpoint.value, batch[|batch| - 1].seqNo);
      PassRows(a, batch);
      forall r | r in Pass(a, batch) ensures !Conflicts(s.rows, r) && r.seqNo <= batch[|batch| - 1].seqNo {
        var e :| e in batch && e.seqNo == r.seqNo;
      }
      InsertAllAppends(s.rows, Pass(a, batch));
      var t := Dispatch(a, s, limit, true);
      forall i | 0 <= i < |t.rows| ensures t.rows[i].seqNo <= t.checkpoint.value {
        if i >= |s.rows| { assert t.rows[i] in Pass(a, batch); }
      }
    }
  }

  /** Later logs only add events above the earlier high watermark. */
  ghost predicate Extends(s: State, t: State) {
    && s.log <= t.log && s.high <= t.high
    && forall i :: |s.log| <= i < |t.log| ==> t.log[i].seqNo > s.high
  }

  /** Appended events do not change what lies below the high watermark. */
  lemma SettledBelowHigh(a: Agent, s: State, t: State, low: nat, high: nat)
    requires Extends(s, t) && high <= s.high
    ensures Between(a, t.log, low, high) == Between(a, s.log, low, high)
  {
    var p := (x: Event) => low < x.seqNo <= high && Visible(a, x);
    assert t.log == s.log + t.log[|s.log|..];
    FilterConcat(s.log, t.log[|s.log|..], p);
    FilterNone(t.log[|s.log|..], p);
  }

  lemma NextIsExact(a: Agent, s: State, step: Step)
    requires Inv(s) && DistinctIds(a.triggers)
    ensures var n := Next(a, s, step);
            && Inv(n) && Extends(s, n) && s.checkpoint.value <= n.checkpoint.value
            && n.rows == s.rows + (if step.Run? && !step.connected then []
                                   else Pass(a, Between(a, n.log, s.checkpoint.value, n.checkpoint.value)))
  {
    match step
    case Append(e) => NothingBetween(a, Next(a, s, step).log, s.checkpoint.value);
    case Run(limit, connected) =>
      DispatchIsExact(a, s, limit);
      BatchIsBetween(a, s, limit);
    case Aborted => NothingBetween(a, s.log, s.checkpoint.value);
  }

  lemma BetweenSplits(a: Agent, log: seq<Event>, low: nat, mid: nat, high: nat)
    requires Ascending(log, SeqOf) && low <= mid <= high
    ensures Between(a, log, low, high) == Between(a, log, low, mid) + Between(a, log, mid, high)
  {
    FilterSplits(log, SeqOf, (e: Event) => low < e.seqNo <= mid && Visible(a, e), (e: Event) => mid < e.seqNo <= high && Visible(a, e),
                 (e: Event) => low < e.seqNo <= high && Visible(a, e), mid);
  }

  lemma PassesJoin(a: Agent, s: State, n: State, t: State)
    requires Inv(s) && Inv(n) && Inv(t) && Extends(s, n) && Extends(n, t)
    requires s.checkpoint.value <= n.checkpoint.value <= t.checkpoint.value
    ensures Extends(s, t)
    ensures Pass(a, Between(a, t.log, s.checkpoint.value, t.checkpoint.value))
            == Pass(a, Between(a, n.log, s.checkpoint.value, n.checkpoint.value)) + Pass(a, Between(a, t.log, n.checkpoint.value, t.checkpoint.value))
  {
    var x, y, z := s.checkpoint.value, n.checkpoint.value, t.checkpoint.value;
    SettledBelowHigh(a, n, t, x, y);
    BetweenSplits(a, t.log, x, y, z);
    PassConcat(a, Between(a, t.log, x, y), Between(a, t.log, y, z));
    forall i | |s.log| <= i < |t.log| ensures t.log[i].seqNo > s.high {
      if i < |n.log| { assert t.log[i] == n.log[i]; }
    }
  }

  // ---------- outages ----------

  /** The rows that an outage of the connection withholds in one step, and along an execution. */
  function Withheld(a: Agent, s: State, step: Step): seq<RunRow> {
    if step.Run? && !step.connected && s.checkpoint.Some? then Pass(a, Batch(a, s, step.limit)) else []
  }

  function Lost(a: Agent, s: State, steps: seq<Step>): seq<RunRow>
    decreases |steps|
  {
    if steps == [] then [] else Withheld(a, s, steps[0]) + Lost(a, Next(a, s, steps[0]), steps[1..])
  }

  /** No batch that was dispatched during an outage had an eligible event. */
  predicate OutagesAreIdle(a: Agent, s: State, steps: seq<Step>)
    decreases |steps|
  {
    steps == [] || (Withheld(a, s, steps[0]) == [] && OutagesAreIdle(a, Next(a, s, steps[0]), steps[1..]))
  }

  lemma {:induction false} IdleLosesNothing(a: Agent, s: State, steps: seq<Step>)
    ensures OutagesAreIdle(a, s, steps) <==> Lost(a, s, steps) == []
    decreases |steps|
  {
    if steps != [] { IdleLosesNothing(a, Next(a, s, steps[0]), steps[1..]); }
  }

  lemma {:induction false} ConnectedIsIdle(a: Agent, s: State, steps: seq<Step>)
    requires forall i :: 0 <= i < |steps| ==> steps[i].Run? ==> steps[i].connected
    ensures OutagesAreIdle(a, s, steps)
    decreases |steps|
  {
    if steps != [] {
      assert Withheld(a, s, steps[0]) == [];
      ConnectedIsIdle(a, Next(a, s, steps[0]), steps[1..]);
    }
  }

  /** One step inserts or withholds exactly the rows of what its checkpoint passes. */
  lemma NextConserves(a: Agent, s: State, step: Step)
    requires Inv(s) && DistinctIds(a.triggers)
    ensures var n := Next(a, s, step);
            var passed := Pass(a, Between(a, n.log, s.checkpoint.value, n.checkpoint.value));
            && Inv(n) && Extends(s, n) && s.checkpoint.value <= n.checkpoint.value && s.rows <= n.rows
            && n.rows[|s.rows|..] + Withheld(a, s, step) == passed
  {
    NextIsExact(a, s, step);
    if step.Run? && !step.connected {
      BatchIsBetween(a, s, step.limit);
      NothingBetween(a, s.log, s.checkpoint.value);
    }
  }

  // ---------- any execution is one pass, up to what outages withhold ----------

  /** The table went from `s` to `t`: the new rows with the lost ones are, as a collection, the rows of a pass, and in
      its order when none is lost. */
  ghost predicate Accounts(s: seq<RunRow>, t: seq<RunRow>, lost: seq<RunRow>, pass: seq<RunRow>) {
    s <= t && multiset(t) + multiset(lost) == multiset(s) + multiset(pass) && (lost == [] ==> t == s + pass)
  }

  /** Checkpoint and log only advance, and the table accounts for one unbatched pass over what lies between the two
      checkpoints. */
  ghost predicate OnePassBut(a: Agent, s: State, t: State, lost: seq<RunRow>) {
    && Inv(s) && Inv(t) && Extends(s, t) && s.checkpoint.value <= t.checkpoint.value
    && Accounts(s.rows, t.rows, lost, Pass(a, Between(a, t.log, s.checkpoint.value, t.checkpoint.value)))
  }

  lemma NextIsOnePass(a: Agent, s: State, step: Step)
    requires Inv(s) && DistinctIds(a.triggers)
    ensures OnePassBut(a, s, Next(a, s, step), Withheld(a, s, step))
  {
    NextConserves(a, s, step);
    var n := Next(a, s, step);
    NewRowsAccount(s.rows, n.rows, Withheld(a, s, step), Pass(a, Between(a, n.log, s.checkpoint.value, n.checkpoint.value)));
  }

  lemma NewRowsAccount(s: seq<RunRow>, t: seq<RunRow>, lost: seq<RunRow>, pass: seq<RunRow>)
    requires s <= t && t[|s|..] + lost == pass
    ensures Accounts(s, t, lost, pass)
  {
    var more := t[|s|..];
    assert t == s + more && more + [] == more;
    assert multiset(s + more) == multiset(s) + multiset(more) && multiset(more + lost) == multiset(more) + multiset(lost);
  }

  lemma BagsJoin(s: multiset<RunRow>, n: multiset<RunRow>, t: multiset<RunRow>,
                 first: multiset<RunRow>, second: multiset<RunRow>, x: multiset<RunRow>, y: multiset<RunRow>)
    requires n + first == s + x && t + second == n + y
    ensures t + (first + second) == s + (x + y)
  {
    forall r ensures (t + (first + second))[r] == (s + (x + y))[r] {
      assert (n + first)[r] == (s + x)[r] && (t + second)[r] == (n + y)[r];
    }
  }

  lemma AccountsJoin(s: seq<RunRow>, n: seq<RunRow>, t: seq<RunRow>, first: seq<RunRow>, second: seq<RunRow>, x: seq<RunRow>, y: seq<RunRow>)
    requires Accounts(s, n, first, x) && Accounts(n, t, second, y)
    ensures Accounts(s, t, first + second, x + y)
  {
    BagsJoin(multiset(s), multiset(n), multiset(t), multiset(first), multiset(second), multiset(x), multiset(y));
    assert multiset(first + second) == multiset(first) + multiset(second) && multiset(x + y) == multiset(x) + multiset(y);
    if first + second == [] { assert first == [] && second == [] && (s + x) + y == s + (x + y); }
  }

  lemma OnePassJoins(a: Agent, s: State, n: State, t: State, first: seq<RunRow>, second: seq<RunRow>)
    requires OnePassBut(a, s, n, first) && OnePassBut(a, n, t, second)
    ensures OnePassBut(a, s, t, first + second)
  {
    PassesJoin(a, s, n, t);
    AccountsJoin(s.rows, n.rows, t.rows, first, second, Pass(a, Between(a, n.log, s.checkpoint.value, n.checkpoint.value)),
                 Pass(a, Between(a, t.log, n.checkpoint.value, t.checkpoint.value)));
  }

  /** Any interleaving of appended events, dispatches with any batch sizes, outages and aborted dispatches is one pass,
      except for exactly what the outages withheld. */
  lemma {:induction false} DispatchesAreOnePass(a: Agent, s: State, steps: seq<Step>)
    requires Inv(s) && DistinctIds(a.triggers)
    ensures OnePassBut(a, s, Exec(a, s, steps), Lost(a, s, steps))
    decreases |steps|
  {
    if steps == [] {
      NothingBetween(a, s.log, s.checkpoint.value);
    } else {
      var n := Next(a, s, steps[0]);
      NextIsOnePass(a, s, steps[0]);
      DispatchesAreOnePass(a, n, steps[1..]);
      OnePassJoins(a, s, n, Exec(a, n, steps[1..]), Withheld(a, s, steps[0]), Lost(a, n, steps[1..]));
    }
  }

  /** A drained log gives the table that one pass over all visible events after the first checkpoint gives, if and only
      if no outage met an eligible event; otherwise exactly the withheld rows are missing. */
  lemma DrainedLogIsOnePass(a: Agent, s: State, steps: seq<Step>)
    requires Inv(s) && DistinctIds(a.triggers)
    ensures var t := Exec(a, s, steps);
            && Inv(t)
            && (Pending(a, t.log, t.checkpoint.value) == [] ==>
                  && multiset(t.rows) + multiset(Lost(a, s, steps)) == multiset(s.rows) + multiset(Pass(a, Pending(a, t.log, s.checkpoint.value)))
                  && (t.rows == s.rows + Pass(a, Pending(a, t.log, s.checkpoint.value)) <==> OutagesAreIdle(a, s, steps)))
  {
    DispatchesAreOnePass(a, s, steps);
    IdleLosesNothing(a, s, steps);
    var t := Exec(a, s, steps);
    if Pending(a, t.log, t.checkpoint.value) == [] {
      PendingSplits(a, t.log, s.checkpoint.value, t.checkpoint.value);
      var passed := Between(a, t.log, s.checkpoint.value, t.checkpoint.value);
      assert passed + [] == passed;
      var rows := s.rows + Pass(a, passed);
      if t.rows == rows { SameSize(t.rows, Lost(a, s, steps), rows); }
    }
  }

  lemma SameSize(rows: seq<RunRow>, lost: seq<RunRow>, all: seq<RunRow>)
    requires rows == all && multiset(rows) + multiset(lost) == multiset(all)
    ensures lost == []
  {
    assert |multiset(rows) + multiset(lost)| == |rows| + |lost|;
  }

  lemma PendingSplits(a: Agent, log: seq<Event>, low: nat, mid: nat)
    requires Ascending(log, SeqOf) && low <= mid
    ensures Pending(a, log, low) == Between(a, log, low, mid) + Pending(a, log, mid)
  {
    FilterSplits(log, SeqOf, (e: Event) => low < e.seqNo <= mid && Visible(a, e),
                 (e: Event) => e.seqNo > mid && Visible(a, e), (e: Event) => e.seqNo > low && Visible(a, e), mid);
  }

  // ---------- exactly one row per pair ----------

  function Count(rows: seq<RunRow>, trigger: Id, seqNo: nat): nat {
    if rows == [] then 0
    else (if rows[0].trigger == trigger && rows[0].seqNo == seqNo then 1 else 0) + Count(rows[1..], trigger, seqNo)
  }

  lemma {:induction false} CountConcat(x: seq<RunRow>, y: seq<RunRow>, trigger: Id, seqNo: nat)
    ensures Count(x + y, trigger, seqNo) == Count(x, trigger, seqNo) + Count(y, trigger, seqNo)
  {
    if x == [] {
      assert x + y == y;
    } else {
      assert (x + y)[1..] == x[1..] + y;
      CountConcat(x[1..], y, trigger, seqNo);
    }
  }

  lemma {:induction false} CountNone(rows: seq<RunRow>, trigger: Id, seqNo: nat)
    requires forall r :: r in rows ==> r.trigger != trigger || r.seqNo != seqNo
    ensures Count(rows, trigger, seqNo) == 0
  {
    if rows != [] {
      assert rows[0] in rows;
      CountNone(rows[1..], trigger, seqNo);
    }
  }

  /** The rows of the later triggers are not of the first one. */
  lemma OtherTriggers(a: Agent, triggers: seq<Trigger>, e: Event)
    requires DistinctIds(triggers) && triggers != []
    ensures forall r :: r in EventRows(a, triggers[1..], e) ==> r.trigger != triggers[0].id
  {
    EventRowsAre(a, triggers[1..], e);
    forall r | r in EventRows(a, triggers[1..], e) ensures r.trigger != triggers[0].id {
      var u :| u in triggers[1..] && u.id == r.trigger;
      var i :| 0 <= i < |triggers[1..]| && triggers[1..][i] == u;
      assert u == triggers[i + 1];
    }
  }

  lemma {:induction false} CountEventRows(a: Agent, triggers: seq<Trigger>, e: Event, t: Trigger)
    requires DistinctIds(triggers) && t in triggers
    ensures Count(EventRows(a, triggers, e), t.id, e.seqNo) == if Eligible(a, t, e) then 1 else 0
  {
    var first := if Eligible(a, triggers[0], e) then [RowFor(triggers[0], e)] else [];
    var rest := EventRows(a, triggers[1..], e);
    CountConcat(first, rest, t.id, e.seqNo);
    if t == triggers[0] {
      OtherTriggers(a, triggers, e);
      CountNone(rest, t.id, e.seqNo);
      if first != [] { assert first[1..] == []; }
    } else {
      assert t in triggers[1..];
      var i :| 0 <= i < |triggers| && triggers[i] == t;
      assert triggers[0].id != t.id;
      CountNone(first, t.id, e.seqNo);
      CountEventRows(a, triggers[1..], e, t);
    }
  }

  /** The later events give no row for the first one. */
  lemma LaterRows(a: Agent, events: seq<Event>, trigger: Id)
    requires events != [] && Ascending(events, SeqOf) && DistinctIds(a.triggers)
    ensures Count(Pass(a, events[1..]), trigger, events[0].seqNo) == 0
  {
    var rest := Pass(a, events[1..]);
    PassRows(a, events[1..]);
    forall r | r in rest ensures r.seqNo != events[0].seqNo {
      var x :| x in events[1..] && x.seqNo == r.seqNo;
      var i :| 0 <= i < |events[1..]| && events[1..][i] == x;
      assert x == events[i + 1];
    }
    CountNone(rest, trigger, events[0].seqNo);
  }

  lemma {:induction false} CountPass(a: Agent, events: seq<Event>, t: Trigger, e: Event)
    requires Ascending(events, SeqOf) && DistinctIds(a.triggers) && t in a.triggers && e in events
    ensures Count(Pass(a, events), t.id, e.seqNo) == if Eligible(a, t, e) then 1 else 0
  {
    var first, rest := EventRows(a, a.triggers, events[0]), Pass(a, events[1..]);
    CountConcat(first, rest, t.id, e.seqNo);
    if e == events[0] {
      LaterRows(a, events, t.id);
      CountEventRows(a, a.triggers, e, t);
    } else {
      var i :| 0 <= i < |events| && events[i] == e;
      assert events[1..][i - 1] == e && events[0].seqNo < e.seqNo;
      EventRowsAre(a, a.triggers, events[0]);
      CountNone(first, t.id, e.seqNo);
      CountPass(a, events[1..], t, e);
    }
  }

  /** Taking one row out. */
  function Without(rows: seq<RunRow>, i: nat): (r: seq<RunRow>)
    requires i < |rows|
    ensures multiset(r) == multiset(rows) - multiset{rows[i]}
  {
    assert rows == rows[..i] + ([rows[i]] + rows[i + 1..]);
    rows[..i] + rows[i + 1..]
  }

  lemma CountWithout(rows: seq<RunRow>, i: nat, trigger: Id, seqNo: nat)
    requires i < |rows|
    ensures Count(rows, trigger, seqNo) == Count([rows[i]], trigger, seqNo) + Count(Without(rows, i), trigger, seqNo)
  {
    assert rows == rows[..i] + ([rows[i]] + rows[i + 1..]);
    CountConcat(rows[..i], rows[i + 1..], trigger, seqNo);
    CountConcat(rows[..i], [rows[i]] + rows[i + 1..], trigger, seqNo);
    CountConcat([rows[i]], rows[i + 1..], trigger, seqNo);
  }

  lemma {:induction false} CountIgnoresOrder(x: seq<RunRow>, y: seq<RunRow>, trigger: Id, seqNo: nat)
    requires multiset(x) == multiset(y)
    ensures Count(x, trigger, seqNo) == Count(y, trigger, seqNo)
    decreases |x|
  {
    if x == [] {
      assert |multiset(y)| == 0;
    } else {
      assert x[0] in multiset(x);
      var i :| 0 <= i < |y| && y[i] == x[0];
      CountWithout(x, 0, trigger, seqNo);
      CountWithout(y, i, trigger, seqNo);
      CountIgnoresOrder(Without(x, 0), Without(y, i), trigger, seqNo);
    }
  }

  /** The pairs of a drained log. */
  lemma CountDrained(a: Agent, s: State, log: seq<Event>, t: Trigger, e: Event)
    requires Inv(s) && DistinctIds(a.triggers) && t in a.triggers
    requires Ascending(log, SeqOf) && e in log && e.seqNo > s.checkpoint.value && Visible(a, e)
    ensures Count(s.rows + Pass(a, Pending(a, log, s.checkpoint.value)), t.id, e.seqNo) == if Eligible(a, t, e) then 1 else 0
  {
    var p := (x: Event) => x.seqNo > s.checkpoint.value && Visible(a, x);
    var pending := Pending(a, log, s.checkpoint.value);
    FilterAscending(log, SeqOf, p);
    FilterMembers(log, p);
    CountConcat(s.rows, Pass(a, pending), t.id, e.seqNo);
    CountNone(s.rows, t.id, e.seqNo);
    CountPass(a, pending, t, e);
  }

  /** Exactly once: when the log is drained, every visible event after the first checkpoint has one run for each
      trigger it is eligible for and none for the others, but for the pairs that an outage withheld. */
  lemma EveryPairExactlyOnce(a: Agent, s: State, steps: seq<Step>, t: Trigger, e: Event)
    requires Inv(s) && DistinctIds(a.triggers) && t in a.triggers
    ensures var u := Exec(a, s, steps);
            Inv(u) &&
            (Pending(a, u.log, u.checkpoint.value) == [] && e in u.log && e.seqNo > s.checkpoint.value && Visible(a, e) ==>
              Count(u.rows, t.id, e.seqNo) + Count(Lost(a, s, steps), t.id, e.seqNo) == if Eligible(a, t, e) then 1 else 0)
  {
    DrainedLogIsOnePass(a, s, steps);
    var u, lost := Exec(a, s, steps), Lost(a, s, steps);
    if Pending(a, u.log, u.checkpoint.value) == [] && e in u.log && e.seqNo > s.checkpoint.value && Visible(a, e) {
      var passed := Pass(a, Pending(a, u.log, s.checkpoint.value));
      CountDrained(a, s, u.log, t, e);
      CountConcat(u.rows, lost, t.id, e.seqNo);
      assert multiset(u.rows + lost) == multiset(u.rows) + multiset(lost) && multiset(s.rows + passed) == multiset(s.rows) + multiset(passed);
      CountIgnoresOrder(u.rows + lost, s.rows + passed, t.id, e.seqNo);
    }
  }

  /** No later dispatch inserts a run for an event that the checkpoint has passed. */
  lemma {:induction false} PassedEventsAreNeverRevisited(a: Agent, s: State, steps: seq<Step>, trigger: Id, seqNo: nat)
    requires Inv(s) && DistinctIds(a.triggers) && seqNo <= s.checkpoint.value
    ensures Count(Exec(a, s, steps).rows, trigger, seqNo) == Count(s.rows, trigger, seqNo)
    decreases |steps|
  {
    if steps != [] {
      var n := Next(a, s, steps[0]);
      NextIsExact(a, s, steps[0]);
      if !(steps[0].Run? && !steps[0].connected) {
        var batch := Between(a, n.log, s.checkpoint.value, n.checkpoint.value);
        BetweenIsAscending(a, n.log, s.checkpoint.value, n.checkpoint.value);
        PassRows(a, batch);
        CountConcat(s.rows, Pass(a, batch), trigger, seqNo);
        forall r | r in Pass(a, batch) ensures r.seqNo != seqNo { var e :| e in batch && e.seqNo == r.seqNo; }
        CountNone(Pass(a, batch), trigger, seqNo);
      } else {
        assert n.rows == s.rows;
      }
      PassedEventsAreNeverRevisited(a, n, steps[1..], trigger, seqNo);
    }
  }

  // An agent that answers every message, and a message that arrives while its connection is unavailable.

  function Listener(text: Text): Agent { Agent(1, 3, [Trigger(5, EveryMessage, false)], {7}, text) }

  function Question(): Event { Event(1, "message.created", Some(2), false, Some(7), None, "hello", [], None) }

  function Unread(): State { State([Question()], 1, Some(0), []) }

  /** The message is eligible, the outage passes it, and no continuation ever starts its run. */
  lemma OutageLosesRun(text: Text, limit: nat, steps: seq<Step>)
    requires limit >= 1
    ensures var a := Listener(text);
            var t := Exec(a, Unread(), [Run(limit, false)]);
            && Inv(Unread()) && Visible(a, Question()) && Eligible(a, a.triggers[0], Question())
            && Pending(a, Unread().log, 0) == [Question()] && t.checkpoint == Some(1) && Pending(a, t.log, 1) == []
            && Count(Exec(a, t, steps).rows, 5, 1) == 0
  {
    var a, s := Listener(text), Unread();
    assert [Question()][1..] == [] && [Run(limit, false)][1..] == [];
    assert Pending(a, s.log, 0) == [Question()];
    assert Take([Question()], limit) == [Question()];
    var t := Next(a, s, Run(limit, false));
    assert t == s.(checkpoint := Some(1));
    PassedEventsAreNeverRevisited(a, t, steps, 5, 1);
  }
}
