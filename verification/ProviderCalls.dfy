/** The provider-call methods of the run service, over its tables. */
module ProviderCallService {
  import opened Collections
  import opened AgentRuns
  import opened Budget
  import Pricing

  lemma SpendSplits(w: World, agent: Id, window: Instant, weight: Id -> int)
    requires forall k :: k in w.calls ==> weight(k) == CallWeight(w, agent, window, k)
    ensures Spend(w, agent, window) == UsageSpend(w.usage, agent, window) + Sum(w.calls.Keys, weight)
  {
    SumExt(w.calls.Keys, weight, k => CallWeight(w, agent, window, k));
  }

  class ProviderCalls {
    var runs: map<Id, Run>
    ghost var issued: set<Id>
    var calls: map<Id, Call>
    var usage: seq<Usage>
    const policies: map<Id, Policy>

    ghost function Tables(): World reads this { World(State(runs, issued), calls, usage) }

    constructor (policies: map<Id, Policy>)
      ensures this.policies == policies && Tables() == World(State(map[], {}), map[], []) && WorldInv(Tables())
    {
      this.policies := policies;
      runs, calls, usage, issued := map[], map[], [], {};
    }

    /** `NOT EXISTS (SELECT 1 FROM agent_usage accounted ...)`, negated. */
    method IsAccounted(call: Id) returns (found: bool)
      requires call in calls
      ensures found == Accounted(Tables(), call)
    {
      for i := 0 to |usage|
        invariant forall j :: 0 <= j < i ==> !(usage[j].call == Some(call) || (usage[j].call.None? && usage[j].run == calls[call].run))
      {
        if usage[i].call == Some(call) || (usage[i].call.None? && usage[i].run == calls[call].run) {
          return true;
        }
      }
      return false;
    }

    /** The two aggregates of the budget query, added up row by row. */
    method SpendOf(agent: Id, window: Instant) returns (total: int)
      ensures total == Spend(Tables(), agent, window)
    {
      total := 0;
      for i := 0 to |usage|
        invariant total == UsageSpend(usage[..i], agent, window)
      {
        assert usage[..i + 1][..i] == usage[..i];
        total := total + UsageWeight(usage[i], agent, window);
      }
      assert usage[..|usage|] == usage;
      var rest := calls.Keys;
      ghost var w := Tables();
      ghost var weight: Id -> int := (k: Id) => CallWeight(w, agent, window, k);
      while rest != {}
        invariant rest <= calls.Keys
        invariant total == UsageSpend(usage, agent, window) + Sum(calls.Keys, weight) - Sum(rest, weight)
        decreases rest
      {
        var k :| k in rest;
        SumRemove(rest, weight, k);
        var accounted := IsAccounted(k);
        if calls[k].agent == agent && calls[k].createdAt >= window && !accounted {
          total := total + Charge(calls[k]);
        }
        rest := rest - {k};
      }
      SpendSplits(w, agent, window, weight);
    }

    method StartProviderCall(call: Id, run: Id, token: Id, reserved: string, now: Instant, day: Instant, month: Instant)
      returns (r: CallOutcome)
      requires WorldInv(Tables()) && day <= now && month <= now
      modifies this`calls
      ensures WorldInv(Tables())
      ensures (Tables(), r) == StartCall(old(Tables()), policies, call, run, token, reserved, now, day, month)
    {
      ghost var before := Tables();
      if !Pricing.CostPattern(reserved) { return ErrInvalid; }
      if !Admitted(State(runs, {}), run, token, now) { return ErrConflict; }
      var row := runs[run];
      if row.agent !in policies || !policies[row.agent].sharingApproved { return ErrConflict; }
      var policy := policies[row.agent];
      var units := Pricing.CostUnits(reserved);
      var daySpend := SpendOf(row.agent, day);
      var monthSpend := SpendOf(row.agent, month);
      var dailyAllowed := policy.daily.None? || daySpend + units <= policy.daily.value;
      var monthlyAllowed := policy.monthly.None? || monthSpend + units <= policy.monthly.value;
      if !dailyAllowed || !monthlyAllowed { return ErrBudget; }
      var recent := set k | k in calls && calls[k].agent == row.agent && calls[k].createdAt >= now - 60;
      assert recent == RecentCalls(before, row.agent, now);
      if |recent| >= policy.callsPerMinute { return ErrRateLimited; }
      if row.provider == "" || row.model == "" { return ErrRow; }
      r := InsertCall(call, Call(row.agent, run, Started, units, 0, now));
    }

    /** `INSERT ... ON CONFLICT DO NOTHING`, and the row that is there afterwards if it is the agent's own. */
    method InsertCall(call: Id, c: Call) returns (r: CallOutcome)
      requires WorldInv(Tables()) && CallInv(Tables(), c) && runs[c.run].status.Running?
      modifies this`calls
      ensures WorldInv(Tables())
      ensures r == if call in old(calls) && old(calls)[call].agent != c.agent then ErrNotFound else Done
      ensures Tables() == if call in old(calls) then old(Tables()) else WithCall(old(Tables()), call, c)
    {
      if call in calls {
        r := if calls[call].agent == c.agent then Done else ErrNotFound;
        return;
      }
      NewCallKeepsInv(Tables(), call, c);
      calls := calls[call := c];
      return Done;
    }

    method FinishProviderCall(call: Id, run: Id, token: Id, completed: bool, trusted: bool,
                              cost: string, input: int, output: int, now: Instant) returns (r: CallOutcome)
      requires WorldInv(Tables())
      modifies this`calls, this`usage
      ensures WorldInv(Tables())
      ensures (Tables(), r) == FinishCall(old(Tables()), call, run, token, completed, trusted, cost, input, output, now)
    {
      FinishSettlesExactly(Tables(), call, run, token, completed, trusted, cost, input, output, now, 0, now);
      if !Pricing.CostPattern(cost) || input < 0 || output < 0 { return ErrInvalid; }
      if !Admitted(State(runs, {}), run, token, now) { return ErrConflict; }
      if call !in calls || !calls[call].status.Started? || calls[call].run != run || calls[call].agent != runs[run].agent {
        return ErrConflict;
      }
      var c := calls[call];
      var actual := if trusted then Pricing.CostUnits(cost) else if completed then c.reserved else 0;
      calls := calls[call := c.(status := if completed then CallCompleted else CallFailed, actual := actual)];
      if trusted && (input > 0 || output > 0 || (cost != "0" && cost != "0.00000000")) {
        usage := usage + [Usage(c.agent, run, Some(call), actual, now)];
      }
      return Done;
    }

    /** `providerUsage`: refuses while a call of the run is open, otherwise adds up the completed ones. */
    method ProviderUsage(run: Id, token: Id) returns (cost: Option<int>)
      ensures cost.None? <==> !(run in runs && Holds(runs[run], token)) || HasOpenCall(Tables(), run)
      ensures cost.Some? ==> cost.value == RunCost(Tables(), run)
    {
      if run !in runs || !Holds(runs[run], token) { return None; }
      if exists k :: k in calls && calls[k].run == run && calls[k].status.Started? { return None; }
      var total := 0;
      var rest := calls.Keys;
      ghost var w := Tables();
      ghost var part := k => CostIn(w, run, k);
      while rest != {}
        invariant rest <= calls.Keys
        invariant total == Sum(calls.Keys, part) - Sum(rest, part)
        decreases rest
      {
        var k :| k in rest;
        SumRemove(rest, part, k);
        if calls[k].run == run && calls[k].status.CallCompleted? {
          total := total + calls[k].actual;
        }
        rest := rest - {k};
      }
      return Some(total);
    }

    method CompleteForAgent(run: Id, token: Id, now: Instant) returns (r: CallOutcome)
      requires WorldInv(Tables())
      modifies this`runs, this`usage
      ensures WorldInv(Tables())
      ensures Tables() == Budget.CompleteForAgent(old(Tables()), run, token, now)
      ensures r.Done? <==> Admitted(old(Tables()).queue, run, token, now) && !HasOpenCall(old(Tables()), run)
    {
      if !Admitted(State(runs, {}), run, token, now) { return ErrConflict; }
      var cost := ProviderUsage(run, token);
      if cost.None? { return ErrConflict; }
      Complete(run, token, cost.value, now);
      return Done;
    }

    /** The completing transaction, with the cost that was read before it. */
    method Complete(run: Id, token: Id, cost: int, now: Instant)
      requires WorldInv(Tables()) && run in runs && Holds(runs[run], token)
      modifies this`runs, this`usage
      ensures WorldInv(Tables()) && Tables() == CompleteWith(old(Tables()), run, token, cost, now)
    {
      CompletingKeepsInv(Tables(), run, token, cost, now);
      var row := runs[run];
      var canceled := row.cancelRequestedAt.Some?;
      var recorded := exists i :: 0 <= i < |usage| && usage[i].run == run;
      runs := runs[run := CompleteRow(row, now)];
      if !canceled && row.provider != "" && row.model != "" && !recorded {
        usage := usage + [Usage(row.agent, run, None, cost, now)];
      }
    }
  }
}
