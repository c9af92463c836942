/** The dispatch transaction as the service runs it: one batch, event by event and trigger by trigger. */
module TriggerService {
  import opened Collections
  import opened TriggerDispatch

  const BATCH: nat := 100

  lemma {:induction false} InsertAllConcat(rows: seq<RunRow>, x: seq<RunRow>, y: seq<RunRow>)
    ensures InsertAll(rows, x + y) == InsertAll(InsertAll(rows, x), y)
    decreases |x|
  {
    if x == [] {
      assert x + y == y;
    } else {
      assert (x + y)[1..] == x[1..] + y;
      InsertAllConcat(Insert(rows, x[0]), x[1..], y);
    }
  }

  lemma {:induction false} EventRowsSnoc(a: Agent, triggers: seq<Trigger>, t: Trigger, e: Event)
    ensures EventRows(a, triggers + [t], e) == EventRows(a, triggers, e) + (if Eligible(a, t, e) then [RowFor(t, e)] else [])
  {
    if triggers == [] {
      assert triggers + [t] == [t] && [t][1..] == [];
    } else {
      assert (triggers + [t])[1..] == triggers[1..] + [t];
      EventRowsSnoc(a, triggers[1..], t, e);
    }
  }

  lemma PassSnoc(a: Agent, events: seq<Event>, e: Event)
    ensures Pass(a, events + [e]) == Pass(a, events) + EventRows(a, a.triggers, e)
  {
    PassConcat(a, events, [e]);
    assert [e][1..] == [];
    assert EventRows(a, a.triggers, e) + [] == EventRows(a, a.triggers, e);
  }

  class Dispatcher {
    var log: seq<Event>
    var high: nat
    var checkpoint: Option<nat>
    var rows: seq<RunRow>

    ghost function Table(): State reads this { State(log, high, checkpoint, rows) }

    constructor (high: nat)
      ensures Table() == State([], high, None, [])
    {
      this.high := high;
      log, rows, checkpoint := [], [], None;
    }

    /** The organization's log: sequence numbers are handed out one by one under the organization's row lock. */
    method Append(e: Event)
      requires e.seqNo == high + 1
      modifies this`log, this`high
      ensures forall a: Agent :: Table() == Next(a, old(Table()), Step.Append(e))
    {
      log := log + [e];
      high := high + 1;
    }

    /** Inserts the runs of one event, trigger by trigger. */
    method InsertRuns(a: Agent, e: Event, connected: bool)
      modifies this`rows
      ensures rows == if connected then InsertAll(old(rows), EventRows(a, a.triggers, e)) else old(rows)
    {
      for i := 0 to |a.triggers|
        invariant rows == if connected then InsertAll(old(rows), EventRows(a, a.triggers[..i], e)) else old(rows)
      {
        var t := a.triggers[i];
        assert a.triggers[..i + 1] == a.triggers[..i] + [t];
        EventRowsSnoc(a, a.triggers[..i], t, e);
        ghost var before := EventRows(a, a.triggers[..i], e);
        var (matched, includeAgents) := Matches(a, t, e);
        if !matched || e.actor == Some(a.id) || (e.byAgent && !includeAgents) {
          assert before + [] == before;
          continue;
        }
        var depth := if e.sourceDepth.Some? then e.sourceDepth.value + 1 else 0;
        if depth > a.maxDepth {
          assert before + [] == before;
          continue;
        }
        if connected {
          InsertAllConcat(old(rows), before, [RowFor(t, e)]);
          var row := RowFor(t, e);
          if !Conflicts(rows, row) {
            rows := rows + [row];
          }
        }
      }
      assert a.triggers[..|a.triggers|] == a.triggers;
    }

    method DispatchAgent(a: Agent, connected: bool)
      requires checkpoint.Some? ==> Inv(Table())
      requires forall i :: 0 <= i < |log| ==> log[i].seqNo <= high
      modifies this`checkpoint, this`rows
      ensures Table() == Dispatch(a, old(Table()), BATCH, connected)
    {
      if checkpoint.None? {
        checkpoint := Some(high);
      }
      var last := checkpoint.value;
      var events := Take(Pending(a, log, last), BATCH);
      if old(checkpoint).None? {
        FilterNone(log, (e: Event) => e.seqNo > last && Visible(a, e));
      }
      for i := 0 to |events|
        invariant rows == if connected then InsertAll(old(rows), Pass(a, events[..i])) else old(rows)
        invariant checkpoint.Some? && last == if i == 0 then checkpoint.value else events[i - 1].seqNo
        invariant unchanged(`checkpoint) || (old(checkpoint).None? && checkpoint == Some(high))
      {
        assert events[..i + 1] == events[..i] + [events[i]];
        PassSnoc(a, events[..i], events[i]);
        InsertAllConcat(old(rows), Pass(a, events[..i]), EventRows(a, a.triggers, events[i]));
        InsertRuns(a, events[i], connected);
        last := events[i].seqNo;
      }
      assert events[..|events|] == events;
      if |events| > 0 {
        checkpoint := Some(last);
      }
    }
  }
}
