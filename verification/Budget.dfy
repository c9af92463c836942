/**
 * The provider-call budget: reservations, actual costs and usage rows over the run table
 * (core/internal/agentrun/service.go).  Costs are whole units of 1e-8 USD; a window is the instant
 * at which the accounting day or month began.
 */
module Budget {
  import opened Collections
  import opened AgentRuns
  import Pricing

  datatype CallStatus = Started | CallCompleted | CallFailed

  datatype Call = Call(agent: Id, run: Id, status: CallStatus, reserved: nat, actual: nat, createdAt: Instant)

  /** A row of agent_usage.  Without a call it accounts for a whole run. */
  datatype Usage = Usage(agent: Id, run: Id, call: Option<Id>, cost: int, createdAt: Instant)

  datatype Policy = Policy(daily: Option<nat>, monthly: Option<nat>, callsPerMinute: nat, sharingApproved: bool)

  datatype World = World(queue: State, calls: map<Id, Call>, usage: seq<Usage>)

  datatype CallOutcome = Done | ErrInvalid | ErrConflict | ErrBudget | ErrRateLimited | ErrRow | ErrNotFound

  // ---------- what has been spent ----------

  /** A usage row already stands for this call, by itself or through its run. */
  predicate Accounted(w: World, call: Id)
    requires call in w.calls
  {
    exists i :: 0 <= i < |w.usage| &&
                (w.usage[i].call == Some(call) || (w.usage[i].call.None? && w.usage[i].run == w.calls[call].run))
  }

  function Charge(c: Call): int {
    match c.status
    case Started => c.reserved
    case CallCompleted => c.actual
    case CallFailed => 0
  }

  /** The contribution of one call row to the spend of an agent in a window. */
  function CallWeight(w: World, agent: Id, window: Instant, call: Id): int {
    if call in w.calls && w.calls[call].agent == agent && w.calls[call].createdAt >= window && !Accounted(w, call)
    then Charge(w.calls[call]) else 0
  }

  function UsageWeight(u: Usage, agent: Id, window: Instant): int {
    if u.agent == agent && u.createdAt >= window then u.cost else 0
  }

  function UsageSpend(usage: seq<Usage>, agent: Id, window: Instant): int {
    if usage == [] then 0
    else UsageSpend(usage[..|usage| - 1], agent, window) + UsageWeight(usage[|usage| - 1], agent, window)
  }

  ghost function CallSpend(w: World, agent: Id, window: Instant): int {
    Sum(w.calls.Keys, k => CallWeight(w, agent, window, k))
  }

  ghost function Spend(w: World, agent: Id, window: Instant): int {
    UsageSpend(w.usage, agent, window) + CallSpend(w, agent, window)
  }

  // ---------- the transactions ----------

  /** The admission check of worker-side calls: a live lease on a run of a chat. */
  predicate Admitted(s: State, run: Id, token: Id, now: Instant) {
    && run in s.runs && Holds(s.runs[run], token)
    && s.runs[run].leaseExpiresAt.Some? && s.runs[run].leaseExpiresAt.value > now
    && s.runs[run].chat.Some?
  }

  ghost predicate WithinLimit(w: World, agent: Id, window: Instant, extra: int, limit: Option<nat>) {
    limit.None? || Spend(w, agent, window) + extra <= limit.value
  }

  function RecentCalls(w: World, agent: Id, now: Instant): set<Id> {
    set k | k in w.calls && w.calls[k].agent == agent && w.calls[k].createdAt >= now - 60
  }

  ghost function StartCall(w: World, policies: map<Id, Policy>, call: Id, run: Id, token: Id, reserved: string,
                           now: Instant, day: Instant, month: Instant): (World, CallOutcome)
  {
    if !Pricing.CostPattern(reserved) then (w, ErrInvalid)
    else if !Admitted(w.queue, run, token, now) then (w, ErrConflict)
    else
      var row := w.queue.runs[run];
      if row.agent !in policies || !policies[row.agent].sharingApproved then (w, ErrConflict)
      else
        var policy := policies[row.agent];
        var units := Pricing.CostUnits(reserved);
        if !WithinLimit(w, row.agent, day, units, policy.daily) || !WithinLimit(w, row.agent, month, units, policy.monthly)
        then (w, ErrBudget)
        else if |RecentCalls(w, row.agent, now)| >= policy.callsPerMinute then (w, ErrRateLimited)
        else if row.provider == "" || row.model == "" then (w, ErrRow) // the row constraints refuse it
        else if call in w.calls then (w, if w.calls[call].agent == row.agent then Done else ErrNotFound)
        else (w.(calls := w.calls[call := Call(row.agent, run, Started, units, 0, now)]), Done)
  }

  /** The actual cost that a finish records: trusted usage as reported, otherwise the reservation or nothing. */
  function ActualCost(c: Call, completed: bool, trusted: bool, cost: nat): nat {
    if trusted then cost else if completed then c.reserved else 0
  }

  predicate CanFinish(w: World, call: Id, run: Id, token: Id, now: Instant) {
    && Admitted(w.queue, run, token, now)
    && call in w.calls && w.calls[call].status.Started?
    && w.calls[call].run == run && w.calls[call].agent == w.queue.runs[run].agent
  }

  function FinishCall(w: World, call: Id, run: Id, token: Id, completed: bool, trusted: bool,
                      cost: string, input: int, output: int, now: Instant): (World, CallOutcome)
  {
    if !Pricing.CostPattern(cost) || input < 0 || output < 0 then (w, ErrInvalid)
    else if !CanFinish(w, call, run, token, now) then (w, ErrConflict)
    else
      var c := w.calls[call];
      var actual := ActualCost(c, completed, trusted, Pricing.CostUnits(cost));
      var calls := w.calls[call := c.(status := if completed then CallCompleted else CallFailed, actual := actual)];
      var usage :=
        if trusted && (input > 0 || output > 0 || (cost != "0" && cost != "0.00000000"))
        then w.usage + [Usage(c.agent, run, Some(call), actual, now)] else w.usage;
      (w.(calls := calls, usage := usage), Done)
  }

  /** The completed calls of a run at their actual cost, as `providerUsage` sums them. */
  function CostIn(w: World, run: Id, call: Id): int {
    if call in w.calls && w.calls[call].run == run && w.calls[call].status.CallCompleted? then w.calls[call].actual else 0
  }

  ghost function RunCost(w: World, run: Id): int {
    Sum(w.calls.Keys, k => CostIn(w, run, k))
  }

  predicate HasOpenCall(w: World, run: Id) {
    exists k :: k in w.calls && w.calls[k].run == run && w.calls[k].status.Started?
  }

  /** The run gets its own usage row: not canceled, a provider and model known, and no usage row yet. */
  predicate RecordsUsage(w: World, run: Id)
    requires run in w.queue.runs
  {
    && w.queue.runs[run].cancelRequestedAt.None?
    && w.queue.runs[run].provider != "" && w.queue.runs[run].model != ""
    && forall i :: 0 <= i < |w.usage| ==> w.usage[i].run != run
  }

  /** The completing transaction, with whatever cost was read before it. */
  function CompleteWith(w: World, run: Id, token: Id, cost: int, now: Instant): World {
    if run !in w.queue.runs || !Holds(w.queue.runs[run], token) then w
    else
      World(Apply(w.queue, Step.Complete(run, token, now)), w.calls,
            if RecordsUsage(w, run) then w.usage + [Usage(w.queue.runs[run].agent, run, None, cost, now)] else w.usage)
  }

  /** Completion by a worker: refused while a call is open, otherwise with the cost of the completed calls. */
  ghost function CompleteForAgent(w: World, run: Id, token: Id, now: Instant): World {
    if !Admitted(w.queue, run, token, now) || HasOpenCall(w, run) then w
    else CompleteWith(w, run, token, RunCost(w, run), now)
  }

  // ---------- invariant ----------

  predicate CallInv(w: World, c: Call) {
    && c.run in w.queue.runs && w.queue.runs[c.run].agent == c.agent
    && w.queue.runs[c.run].provider != "" && w.queue.runs[c.run].model != ""
  }

  predicate UsageInv(w: World, u: Usage) {
    && u.run in w.queue.runs
    && (match u.call
        case Some(c) => c in w.calls && w.calls[c].run == u.run && !w.calls[c].status.Started?
        case None => w.queue.runs[u.run].status.Completed?)
  }

  ghost predicate WorldInv(w: World) {
    && Inv(w.queue)
    && (forall k :: k in w.calls ==> CallInv(w, w.calls[k]))
    && (forall i :: 0 <= i < |w.usage| ==> UsageInv(w, w.usage[i]))
  }

  // ---------- exact effect of each transaction on the spend ----------

  lemma UsageSpendSnoc(usage: seq<Usage>, u: Usage, agent: Id, window: Instant)
    ensures UsageSpend(usage + [u], agent, window) == UsageSpend(usage, agent, window) + UsageWeight(u, agent, window)
  {
    assert (usage + [u])[..|usage|] == usage;
  }

  /** Calls whose row and accounting did not change weigh the same. */
  lemma OpenCallIsUnaccounted(w: World, call: Id)
    requires WorldInv(w) && call in w.calls && w.calls[call].status.Started?
    requires w.queue.runs[w.calls[call].run].status.Running?
    ensures !Accounted(w, call)
  {
    forall i | 0 <= i < |w.usage|
      ensures !(w.usage[i].call == Some(call) || (w.usage[i].call.None? && w.usage[i].run == w.calls[call].run))
    {
      assert UsageInv(w, w.usage[i]);
    }
  }

  function WithCall(w: World, call: Id, c: Call): World { w.(calls := w.calls[call := c]) }

  lemma NewCallKeepsInv(w: World, call: Id, c: Call)
    requires WorldInv(w) && call !in w.calls && CallInv(w, c) && w.queue.runs[c.run].status.Running?
    ensures var t := WithCall(w, call, c);
            && WorldInv(t) && !Accounted(t, call)
            && forall k :: k in w.calls ==> t.calls[k] == w.calls[k] && Accounted(t, k) == Accounted(w, k)
  {
    var t := WithCall(w, call, c);
    forall i | 0 <= i < |t.usage|
      ensures UsageInv(t, t.usage[i])
      ensures !(t.usage[i].call == Some(call) || (t.usage[i].call.None? && t.usage[i].run == c.run))
    {
      assert UsageInv(w, w.usage[i]);
    }
    forall k | k in t.calls ensures CallInv(t, t.calls[k]) { if k != call { assert CallInv(w, w.calls[k]); } }
    forall k | k in w.calls ensures Accounted(t, k) == Accounted(w, k) {
      assert t.calls[k] == w.calls[k];
    }
  }

  lemma NewCallWeight(w: World, call: Id, c: Call, agent: Id, window: Instant)
    requires WorldInv(w) && call !in w.calls && CallInv(w, c) && w.queue.runs[c.run].status.Running?
    ensures var t := WithCall(w, call, c);
            && CallWeight(t, agent, window, call) == (if c.agent == agent && c.createdAt >= window then Charge(c) else 0)
            && forall k :: k in w.calls ==> CallWeight(t, agent, window, k) == CallWeight(w, agent, window, k)
  {
    NewCallKeepsInv(w, call, c);
  }

  lemma NewCallAddsItsCharge(w: World, call: Id, c: Call, agent: Id, window: Instant)
    requires WorldInv(w) && call !in w.calls && CallInv(w, c) && w.queue.runs[c.run].status.Running?
    ensures Spend(WithCall(w, call, c), agent, window)
            == Spend(w, agent, window) + (if c.agent == agent && c.createdAt >= window then Charge(c) else 0)
  {
    NewCallWeight(w, call, c, agent, window);
    var t := WithCall(w, call, c);
    var before, after := k => CallWeight(w, agent, window, k), k => CallWeight(t, agent, window, k);
    SumInsert(w.calls.Keys, after, call);
    assert t.calls.Keys == w.calls.Keys + {call};
    SumExt(w.calls.Keys, before, after);
  }

  /** A start adds exactly its reservation; every other outcome leaves the ledger alone. */
  lemma StartAddsItsReservation(w: World, policies: map<Id, Policy>, call: Id, run: Id, token: Id, reserved: string,
                                now: Instant, day: Instant, month: Instant, agent: Id, window: Instant)
    requires WorldInv(w) && window <= now
    ensures var (t, r) := StartCall(w, policies, call, run, token, reserved, now, day, month);
            && WorldInv(t)
            && (t != w ==> r.Done? && run in w.queue.runs && Pricing.CostPattern(reserved))
            && Spend(t, agent, window) == Spend(w, agent, window)
               + (if t != w && w.queue.runs[run].agent == agent then Pricing.CostUnits(reserved) else 0)
  {
    var (t, r) := StartCall(w, policies, call, run, token, reserved, now, day, month);
    if t != w {
      var c := Call(w.queue.runs[run].agent, run, Started, Pricing.CostUnits(reserved), 0, now);
      assert t == WithCall(w, call, c);
      NewCallKeepsInv(w, call, c);
      NewCallAddsItsCharge(w, call, c, agent, window);
    }
  }

  /** A successful start leaves the agent within both of its limits, whatever was spent before. */
  lemma StartStaysWithinLimits(w: World, policies: map<Id, Policy>, call: Id, run: Id, token: Id, reserved: string,
                               now: Instant, day: Instant, month: Instant)
    requires WorldInv(w) && day <= now && month <= now
    ensures var (t, r) := StartCall(w, policies, call, run, token, reserved, now, day, month);
            r.Done? ==>
              && run in w.queue.runs && w.queue.runs[run].agent in policies
              && var agent := w.queue.runs[run].agent;
                 WithinLimit(t, agent, day, 0, policies[agent].daily) && WithinLimit(t, agent, month, 0, policies[agent].monthly)
  {
    if run in w.queue.runs {
      var agent := w.queue.runs[run].agent;
      StartAddsItsReservation(w, policies, call, run, token, reserved, now, day, month, agent, day);
      StartAddsItsReservation(w, policies, call, run, token, reserved, now, day, month, agent, month);
    }
  }

  /** A start keeps the agent within its calls per minute: counting the new one, no minute holds more than allowed. */
  lemma StartRespectsRate(w: World, policies: map<Id, Policy>, call: Id, run: Id, token: Id, reserved: string,
                          now: Instant, day: Instant, month: Instant)
    ensures var (t, r) := StartCall(w, policies, call, run, token, reserved, now, day, month);
            t != w ==>
              && run in w.queue.runs && w.queue.runs[run].agent in policies
              && var agent := w.queue.runs[run].agent;
                 RecentCalls(t, agent, now) == RecentCalls(w, agent, now) + {call} && |RecentCalls(t, agent, now)| <= policies[agent].callsPerMinute
  {
    var (t, r) := StartCall(w, policies, call, run, token, reserved, now, day, month);
    if t != w {
      var agent := w.queue.runs[run].agent;
      assert call !in w.calls && t.calls == w.calls[call := t.calls[call]] && t.calls[call].agent == agent && t.calls[call].createdAt == now;
      assert RecentCalls(t, agent, now) == RecentCalls(w, agent, now) + {call};
    }
  }

  /** Replacing an open call by a closed one, with or without its own usage row. */
  function Closed(w: World, call: Id, c: Call, row: Option<Usage>): World {
    World(w.queue, w.calls[call := c], if row.Some? then w.usage + [row.value] else w.usage)
  }

  predicate ClosesCall(w: World, call: Id, c: Call, row: Option<Usage>) {
    && call in w.calls && w.calls[call].status.Started? && !c.status.Started?
    && c.run == w.calls[call].run && c.agent == w.calls[call].agent && c.createdAt == w.calls[call].createdAt
    && c.run in w.queue.runs && w.queue.runs[c.run].status.Running?
    && (row.Some? ==> row.value.call == Some(call) && row.value.run == c.run && row.value.agent == c.agent)
  }

  lemma ClosingKeepsInv(w: World, call: Id, c: Call, row: Option<Usage>)
    requires WorldInv(w) && ClosesCall(w, call, c, row)
    ensures var t := Closed(w, call, c, row);
            && WorldInv(t) && !Accounted(w, call) && (Accounted(t, call) <==> row.Some?)
            && forall k :: k in w.calls && k != call ==> t.calls[k] == w.calls[k] && Accounted(t, k) == Accounted(w, k)
  {
    var t := Closed(w, call, c, row);
    OpenCallIsUnaccounted(w, call);
    forall i | 0 <= i < |t.usage| ensures UsageInv(t, t.usage[i]) {
      if i < |w.usage| { assert UsageInv(w, w.usage[i]); }
    }
    forall k | k in t.calls ensures CallInv(t, t.calls[k]) { assert CallInv(w, w.calls[k]); }
    forall k | k in w.calls && k != call ensures Accounted(t, k) == Accounted(w, k) {
      SameAccounting(w, t, k);
    }
    if row.Some? {
      assert t.usage[|w.usage|].call == Some(call);
    } else {
      assert t.usage == w.usage;
    }
  }

  /** A usage row of another call does not account for call `k`. */
  lemma SameAccounting(w: World, t: World, k: Id)
    requires k in w.calls && k in t.calls && t.calls[k].run == w.calls[k].run
    requires w.usage <= t.usage
    requires forall i :: |w.usage| <= i < |t.usage| ==> t.usage[i].call.Some? && t.usage[i].call != Some(k)
    ensures Accounted(t, k) == Accounted(w, k)
  {
    if Accounted(w, k) {
      var i :| 0 <= i < |w.usage| && (w.usage[i].call == Some(k) || (w.usage[i].call.None? && w.usage[i].run == w.calls[k].run));
      assert t.usage[i] == w.usage[i];
    }
  }

  lemma ClosedWeights(w: World, call: Id, c: Call, row: Option<Usage>, agent: Id, window: Instant)
    requires WorldInv(w) && ClosesCall(w, call, c, row)
    ensures var t := Closed(w, call, c, row);
            && (forall k :: k in w.calls && k != call ==> CallWeight(t, agent, window, k) == CallWeight(w, agent, window, k))
            && CallWeight(w, agent, window, call) == (if c.agent == agent && c.createdAt >= window then w.calls[call].reserved else 0)
            && CallWeight(t, agent, window, call) == (if row.None? && c.agent == agent && c.createdAt >= window then Charge(c) else 0)
  {
    ClosingKeepsInv(w, call, c, row);
  }

  lemma ClosingChangesSpend(w: World, call: Id, c: Call, row: Option<Usage>, agent: Id, window: Instant)
    requires WorldInv(w) && ClosesCall(w, call, c, row)
    ensures Spend(Closed(w, call, c, row), agent, window)
            == Spend(w, agent, window)
               - (if c.agent == agent && c.createdAt >= window then w.calls[call].reserved else 0)
               + (if row.Some? then UsageWeight(row.value, agent, window)
                  else if c.agent == agent && c.createdAt >= window then Charge(c) else 0)
  {
    ClosedWeights(w, call, c, row, agent, window);
    var t := Closed(w, call, c, row);
    var before, after := k => CallWeight(w, agent, window, k), k => CallWeight(t, agent, window, k);
    assert t.calls.Keys == w.calls.Keys;
    SumChange(w.calls.Keys, before, after, call);
    if row.Some? { UsageSpendSnoc(w.usage, row.value, agent, window); }
  }

  lemma ZeroCostReads(cost: string)
    requires cost == "0" || cost == "0.00000000"
    ensures Pricing.CostPattern(cost) && Pricing.CostUnits(cost) == 0
  {
    Pricing.DefaultCostReads();
    if cost == "0" {
      Pricing.ValueStep(cost, 0);
      assert cost[..0] == "" && cost[..1] == cost;
      assert Pricing.PointIndex(cost[1..]) == 0;
    }
  }

  /** The world after a finish that was accepted. */
  function FinishedCall(w: World, call: Id, completed: bool, trusted: bool, cost: string): Call
    requires call in w.calls && Pricing.CostPattern(cost)
  {
    w.calls[call].(status := if completed then CallCompleted else CallFailed,
                   actual := ActualCost(w.calls[call], completed, trusted, Pricing.CostUnits(cost)))
  }

  /** Every accepted finish, trusted or not, completed or failed, changes the spend by exactly actual minus
      reserved when the call was made in the window; a call of an earlier window adds its usage row only. */
  lemma FinishSettlesExactly(w: World, call: Id, run: Id, token: Id, completed: bool, trusted: bool,
                             cost: string, input: int, output: int, now: Instant, agent: Id, window: Instant)
    requires WorldInv(w) && window <= now
    ensures var (t, r) := FinishCall(w, call, run, token, completed, trusted, cost, input, output, now);
            && WorldInv(t) && (!r.Done? ==> t == w)
            && (r.Done? ==>
                  && call in w.calls && Pricing.CostPattern(cost)
                  && var c := w.calls[call];
                     var actual := ActualCost(c, completed, trusted, Pricing.CostUnits(cost));
                     && t.calls[call].actual == actual
                     && Spend(t, agent, window) == Spend(w, agent, window)
                        + (if c.agent != agent then 0
                           else if c.createdAt >= window then actual - c.reserved
                           else if t.usage != w.usage then actual else 0))
  {
    var (t, r) := FinishCall(w, call, run, token, completed, trusted, cost, input, output, now);
    if r.Done? {
      var c := FinishedCall(w, call, completed, trusted, cost);
      var row := if trusted && (input > 0 || output > 0 || (cost != "0" && cost != "0.00000000"))
                 then Some(Usage(c.agent, run, Some(call), c.actual, now)) else None;
      assert t == Closed(w, call, c, row);
      ClosingKeepsInv(w, call, c, row);
      ClosingChangesSpend(w, call, c, row, agent, window);
      if row.None? && trusted { ZeroCostReads(cost); }
      assert t.usage != w.usage <==> row.Some? by {
        assert |t.usage| == |w.usage| + (if row.Some? then 1 else 0);
      }
    }
  }

  // ---------- completing a run ----------

  /** What the calls of one run contribute to the spend before the run is completed. */
  function WeightIn(w: World, run: Id, agent: Id, window: Instant, call: Id): int {
    if call in w.calls && w.calls[call].run == run then CallWeight(w, agent, window, call) else 0
  }

  ghost function RunWeight(w: World, run: Id, agent: Id, window: Instant): int {
    Sum(w.calls.Keys, k => WeightIn(w, run, agent, window, k))
  }

  /** The completed calls of the run that were made before the window. */
  function EarlierCostIn(w: World, run: Id, window: Instant, call: Id): int {
    if call in w.calls && w.calls[call].createdAt < window then CostIn(w, run, call) else 0
  }

  ghost function EarlierCost(w: World, run: Id, window: Instant): int {
    Sum(w.calls.Keys, k => EarlierCostIn(w, run, window, k))
  }

  lemma CompletingKeepsInv(w: World, run: Id, token: Id, cost: int, now: Instant)
    requires WorldInv(w)
    ensures WorldInv(CompleteWith(w, run, token, cost, now))
  {
    var t := CompleteWith(w, run, token, cost, now);
    StepKeepsInv(w.queue, Step.Complete(run, token, now));
    forall i | 0 <= i < |t.usage| ensures UsageInv(t, t.usage[i]) {
      if i < |w.usage| { assert UsageInv(w, w.usage[i]); }
    }
    forall k | k in t.calls ensures CallInv(t, t.calls[k]) { assert CallInv(w, w.calls[k]); }
  }

  lemma CompletingAccounts(w: World, run: Id, token: Id, cost: int, now: Instant, k: Id)
    requires WorldInv(w) && k in w.calls && run in w.queue.runs && Holds(w.queue.runs[run], token)
    ensures var t := CompleteWith(w, run, token, cost, now);
            && k in t.calls && t.calls[k] == w.calls[k]
            && (Accounted(t, k) <==> Accounted(w, k) || (RecordsUsage(w, run) && w.calls[k].run == run))
  {
    var t := CompleteWith(w, run, token, cost, now);
    if RecordsUsage(w, run) && w.calls[k].run == run {
      assert t.usage[|w.usage|].call.None? && t.usage[|w.usage|].run == run;
    }
    if Accounted(w, k) {
      var i :| 0 <= i < |w.usage| && (w.usage[i].call == Some(k) || (w.usage[i].call.None? && w.usage[i].run == w.calls[k].run));
      assert t.usage[i] == w.usage[i];
    }
  }

  lemma RecordedRunReplacesCalls(w: World, run: Id, token: Id, cost: int, now: Instant, agent: Id, window: Instant)
    requires WorldInv(w) && window <= now && run in w.queue.runs && Holds(w.queue.runs[run], token) && RecordsUsage(w, run)
    ensures Spend(CompleteWith(w, run, token, cost, now), agent, window) == Spend(w, agent, window)
            + (if w.queue.runs[run].agent == agent then cost else 0) - RunWeight(w, run, agent, window)
  {
    var t := CompleteWith(w, run, token, cost, now);
    var before, after := k => CallWeight(w, agent, window, k), k => CallWeight(t, agent, window, k);
    var gone := k => WeightIn(w, run, agent, window, k);
    forall k | k in w.calls ensures after(k) == before(k) - gone(k) { CompletingAccounts(w, run, token, cost, now, k); }
    SumDifference(w.calls.Keys, before, gone, after);
    UsageSpendSnoc(w.usage, Usage(w.queue.runs[run].agent, run, None, cost, now), agent, window);
  }

  lemma OthersWeighNothing(w: World, run: Id, agent: Id, window: Instant)
    requires WorldInv(w) && run in w.queue.runs && w.queue.runs[run].agent != agent
    ensures RunWeight(w, run, agent, window) == 0
  {
    var gone := k => WeightIn(w, run, agent, window, k);
    forall k | k in w.calls ensures gone(k) == 0 { assert CallInv(w, w.calls[k]); }
    ZeroSum(w.calls.Keys, gone);
  }

  /** Completing a run with any reported cost replaces exactly the weight of its calls by that cost, and
      only when the run gets a usage row of its own. */
  lemma CompletionReplacesCalls(w: World, run: Id, token: Id, cost: int, now: Instant, agent: Id, window: Instant)
    requires WorldInv(w) && window <= now && run in w.queue.runs && Holds(w.queue.runs[run], token)
    ensures var t := CompleteWith(w, run, token, cost, now);
            Spend(t, agent, window) == Spend(w, agent, window)
            + (if RecordsUsage(w, run) && w.queue.runs[run].agent == agent then cost - RunWeight(w, run, agent, window) else 0)
  {
    if RecordsUsage(w, run) {
      RecordedRunReplacesCalls(w, run, token, cost, now, agent, window);
      if w.queue.runs[run].agent != agent { OthersWeighNothing(w, run, agent, window); }
    } else {
      var t := CompleteWith(w, run, token, cost, now);
      var before, after := k => CallWeight(w, agent, window, k), k => CallWeight(t, agent, window, k);
      forall k | k in w.calls ensures before(k) == after(k) { CompletingAccounts(w, run, token, cost, now, k); }
      SumExt(w.calls.Keys, before, after);
    }
  }

  lemma {:induction false} ZeroSum<K>(s: set<K>, f: K -> int)
    requires forall k :: k in s ==> f(k) == 0
    ensures Sum(s, f) == 0
    decreases |s|
  {
    if s != {} {
      var k :| k in s && Sum(s, f) == f(k) + Sum(s - {k}, f);
      ZeroSum(s - {k}, f);
    }
  }

  /** Before a run without usage rows and without open calls is completed, its calls of the window weigh
      their actual costs. */
  lemma RunWeightIsRunCost(w: World, run: Id, window: Instant)
    requires WorldInv(w) && run in w.queue.runs && !HasOpenCall(w, run) && RecordsUsage(w, run)
    ensures RunWeight(w, run, w.queue.runs[run].agent, window) == RunCost(w, run) - EarlierCost(w, run, window)
  {
    var agent := w.queue.runs[run].agent;
    var cost, earlier := k => CostIn(w, run, k), k => EarlierCostIn(w, run, window, k);
    var weight := k => WeightIn(w, run, agent, window, k);
    forall k | k in w.calls ensures weight(k) == cost(k) - earlier(k) {
      assert CallInv(w, w.calls[k]);
      if w.calls[k].run == run {
        assert !w.calls[k].status.Started?;
        forall i | 0 <= i < |w.usage|
          ensures !(w.usage[i].call == Some(k) || (w.usage[i].call.None? && w.usage[i].run == run))
        {
          assert UsageInv(w, w.usage[i]) && w.usage[i].run != run;
        }
        assert !Accounted(w, k);
      }
    }
    SumDifference(w.calls.Keys, cost, earlier, weight);
  }

  /** Completing a run by its worker leaves the spend of the window unchanged, up to the completed calls the
      run had made before the window began. */
  lemma CompletionConservesSpend(w: World, run: Id, token: Id, now: Instant, agent: Id, window: Instant)
    requires WorldInv(w) && window <= now
    ensures var t := CompleteForAgent(w, run, token, now);
            && WorldInv(t)
            && Spend(t, agent, window) == Spend(w, agent, window)
               + (if t != w && run in w.queue.runs && RecordsUsage(w, run) && w.queue.runs[run].agent == agent
                  then EarlierCost(w, run, window) else 0)
            && ((forall k :: k in w.calls ==> w.calls[k].createdAt >= window) ==>
                  Spend(t, agent, window) == Spend(w, agent, window))
  {
    var t := CompleteForAgent(w, run, token, now);
    if Admitted(w.queue, run, token, now) && !HasOpenCall(w, run) {
      CompletingKeepsInv(w, run, token, RunCost(w, run), now);
      CompletionReplacesCalls(w, run, token, RunCost(w, run), now, agent, window);
      if RecordsUsage(w, run) { RunWeightIsRunCost(w, run, window); }
      if forall k :: k in w.calls ==> w.calls[k].createdAt >= window { NoEarlierCost(w, run, window); }
    }
  }

  /** What the guard between reading the usage and committing is worth: when a call of the run starts in
      between, completing drops exactly its reservation from the spend. */
  lemma StartDuringCompletionLosesReservation(w: World, policies: map<Id, Policy>, call: Id, run: Id, token: Id, reserved: string,
                                              now: Instant, day: Instant, month: Instant, window: Instant)
    requires WorldInv(w) && run in w.queue.runs && window <= now && AllCallsIn(w, window)
    requires !HasOpenCall(w, run) && RecordsUsage(w, run)
    requires StartCall(w, policies, call, run, token, reserved, now, day, month).0 != w
    ensures var started := StartCall(w, policies, call, run, token, reserved, now, day, month).0;
            var agent := w.queue.runs[run].agent;
            Pricing.CostPattern(reserved) &&
            Spend(CompleteWith(started, run, token, RunCost(w, run), now), agent, window)
            == Spend(started, agent, window) - Pricing.CostUnits(reserved)
  {
    var c := Call(w.queue.runs[run].agent, run, Started, Pricing.CostUnits(reserved), 0, now);
    var started := WithCall(w, call, c);
    NewCallKeepsInv(w, call, c);
    CompletionReplacesCalls(started, run, token, RunCost(w, run), now, c.agent, window);
    RunWeightIsRunCost(w, run, window);
    NoEarlierCost(w, run, window);
    NewCallWeighs(w, call, c, window);
  }

  lemma NoEarlierCost(w: World, run: Id, window: Instant)
    requires forall k :: k in w.calls ==> w.calls[k].createdAt >= window
    ensures EarlierCost(w, run, window) == 0
  {
    ZeroSum(w.calls.Keys, k => EarlierCostIn(w, run, window, k));
  }

  lemma NewCallWeighs(w: World, call: Id, c: Call, window: Instant)
    requires WorldInv(w) && call !in w.calls && CallInv(w, c) && w.queue.runs[c.run].status.Running?
    requires c.status.Started? && c.createdAt >= window
    ensures RunWeight(WithCall(w, call, c), c.run, c.agent, window) == RunWeight(w, c.run, c.agent, window) + c.reserved
  {
    var started := WithCall(w, call, c);
    NewCallWeight(w, call, c, c.agent, window);
    var before, after := k => WeightIn(w, c.run, c.agent, window, k), k => WeightIn(started, c.run, c.agent, window, k);
    assert started.calls.Keys == w.calls.Keys + {call};
    SumInsert(w.calls.Keys, after, call);
    SumExt(w.calls.Keys, before, after);
  }

  // ---------- whole runs ----------

  /** The tables, and what usage checks have read for a completion that is still to commit: a run and a cost. */
  datatype Ledger = Ledger(world: World, checked: set<(Id, int)>)

  /** Any transaction of the service; a completion by a worker is its usage check and, at any later time, its commit. */
  datatype LedgerStep =
    | QueueStep(step: Step)
    | StartStep(call: Id, run: Id, token: Id, reserved: string, now: Instant, day: Instant, month: Instant)
    | FinishStep(call: Id, run: Id, token: Id, completed: bool, trusted: bool, cost: string, input: int, output: int, now: Instant)
    | CheckStep(run: Id, token: Id, now: Instant)
    | CommitStep(run: Id, token: Id, read: int, now: Instant)

  ghost function Effect(l: Ledger, policies: map<Id, Policy>, step: LedgerStep): Ledger {
    match step
    case QueueStep(q) => if q.Complete? then l else l.(world := l.world.(queue := Apply(l.world.queue, q)))
    case StartStep(call, run, token, reserved, now, day, month) =>
      l.(world := StartCall(l.world, policies, call, run, token, reserved, now, day, month).0)
    case FinishStep(call, run, token, completed, trusted, cost, input, output, now) =>
      l.(world := FinishCall(l.world, call, run, token, completed, trusted, cost, input, output, now).0)
    case CheckStep(run, token, now) =>
      if !Admitted(l.world.queue, run, token, now) || HasOpenCall(l.world, run) then l
      else l.(checked := l.checked + {(run, RunCost(l.world, run))})
    case CommitStep(run, token, cost, now) =>
      if (run, cost) in l.checked then l.(world := CompleteWith(l.world, run, token, cost, now)) else l
  }

  ghost function ExecLedger(l: Ledger, policies: map<Id, Policy>, steps: seq<LedgerStep>): Ledger
    decreases |steps|
  {
    if steps == [] then l else ExecLedger(Effect(l, policies, steps[0]), policies, steps[1..])
  }

  /** A check with its commit right after it is the worker's completion. */
  lemma CheckThenCommit(l: Ledger, policies: map<Id, Policy>, run: Id, token: Id, now: Instant)
    requires l.checked == {}
    ensures Effect(Effect(l, policies, CheckStep(run, token, now)), policies, CommitStep(run, token, RunCost(l.world, run), now)).world
            == CompleteForAgent(l.world, run, token, now)
  {
  }

  /** What was read for a run has been spent by it, and still is. */
  ghost predicate LedgerInv(l: Ledger) {
    WorldInv(l.world) && forall r :: r in l.checked ==> r.1 <= RunCost(l.world, r.0)
  }

  /** Completed calls keep their cost. */
  lemma CostsStay(w: World, t: World, run: Id)
    requires w.calls.Keys <= t.calls.Keys
    requires forall k :: k in w.calls && w.calls[k].status.CallCompleted? ==> t.calls[k] == w.calls[k]
    ensures RunCost(w, run) <= RunCost(t, run)
  {
    SumGrows(w.calls.Keys, t.calls.Keys, k => CostIn(w, run, k), k => CostIn(t, run, k));
  }

  lemma CompletedCallsStay(l: Ledger, policies: map<Id, Policy>, step: LedgerStep)
    ensures var w, t := l.world, Effect(l, policies, step).world;
            && w.calls.Keys <= t.calls.Keys
            && forall k :: k in w.calls && w.calls[k].status.CallCompleted? ==> t.calls[k] == w.calls[k]
  {
  }

  lemma ChecksStay(l: Ledger, policies: map<Id, Policy>, step: LedgerStep)
    requires LedgerInv(l)
    ensures forall r :: r in Effect(l, policies, step).checked ==> r.1 <= RunCost(Effect(l, policies, step).world, r.0)
  {
    var m := Effect(l, policies, step);
    CompletedCallsStay(l, policies, step);
    forall r | r in m.checked ensures r.1 <= RunCost(m.world, r.0) {
      CostsStay(l.world, m.world, r.0);
      assert r in l.checked || r.1 == RunCost(l.world, r.0);
    }
  }

  /** By how much the calls that finished above their reservation overran it. */
  ghost function Overrun(w: World, step: LedgerStep): nat {
    if step.FinishStep? && step.call in w.calls && Pricing.CostPattern(step.cost)
       && FinishCall(w, step.call, step.run, step.token, step.completed, step.trusted, step.cost, step.input, step.output, step.now).1.Done?
    then
      var actual := ActualCost(w.calls[step.call], step.completed, step.trusted, Pricing.CostUnits(step.cost));
      if actual > w.calls[step.call].reserved then actual - w.calls[step.call].reserved else 0
    else 0
  }

  ghost function TotalOverrun(l: Ledger, policies: map<Id, Policy>, steps: seq<LedgerStep>): nat
    decreases |steps|
  {
    if steps == [] then 0 else Overrun(l.world, steps[0]) + TotalOverrun(Effect(l, policies, steps[0]), policies, steps[1..])
  }

  datatype Period = Daily | Monthly

  function LimitOf(policy: Policy, period: Period): Option<nat> {
    if period.Daily? then policy.daily else policy.monthly
  }

  /** The step happens in the accounting window of the period that began at `window`. */
  predicate InWindow(step: LedgerStep, period: Period, window: Instant) {
    match step
    case QueueStep(_) => true
    case StartStep(_, _, _, _, now, day, month) => window <= now && day <= now && month <= now && window == (if period.Daily? then day else month)
    case FinishStep(_, _, _, _, _, _, _, _, now) => window <= now
    case CheckStep(_, _, _) => true
    case CommitStep(_, _, _, now) => window <= now
  }

  lemma QueueStepKeepsWorld(w: World, step: Step)
    requires WorldInv(w)
    ensures WorldInv(w.(queue := Apply(w.queue, step)))
  {
    var t := w.(queue := Apply(w.queue, step));
    StepKeepsInv(w.queue, step);
    forall k | k in t.calls ensures CallInv(t, t.calls[k]) {
      assert CallInv(w, w.calls[k]);
      StepMovesRow(w.queue, step, w.calls[k].run);
    }
    forall i | 0 <= i < |t.usage| ensures UsageInv(t, t.usage[i]) {
      assert UsageInv(w, w.usage[i]);
      StepMovesRow(w.queue, step, w.usage[i].run);
    }
  }

  ghost predicate AllCallsIn(w: World, window: Instant) {
    forall k :: k in w.calls ==> w.calls[k].createdAt >= window
  }

  lemma QueueStepKeepsSpend(w: World, step: Step, agent: Id, window: Instant)
    ensures Spend(w.(queue := Apply(w.queue, step)), agent, window) == Spend(w, agent, window)
  {
    var t := w.(queue := Apply(w.queue, step));
    forall k | k in w.calls ensures Accounted(t, k) == Accounted(w, k) { }
    SumExt(w.calls.Keys, k => CallWeight(w, agent, window, k), k => CallWeight(t, agent, window, k));
  }

  lemma StartKeepsWithin(l: Ledger, policies: map<Id, Policy>, step: LedgerStep, agent: Id, period: Period, window: Instant, bound: int)
    requires step.StartStep?
    requires WorldInv(l.world) && AllCallsIn(l.world, window) && InWindow(step, period, window)
    requires agent in policies && LimitOf(policies[agent], period).Some? && LimitOf(policies[agent], period).value <= bound
    requires Spend(l.world, agent, window) <= bound
    ensures var t := Effect(l, policies, step).world;
            && WorldInv(t) && AllCallsIn(t, window) && Spend(t, agent, window) <= bound
  {
    var StartStep(call, run, token, reserved, now, day, month) := step;
    var w, t := l.world, Effect(l, policies, step).world;
    StartAddsItsReservation(w, policies, call, run, token, reserved, now, day, month, agent, window);
    if t != w && w.queue.runs[run].agent == agent {
      StartStaysWithinLimits(w, policies, call, run, token, reserved, now, day, month);
    }
  }

  /** By how much one finish may raise the spend. */
  lemma FinishOverruns(w: World, step: LedgerStep, agent: Id, window: Instant)
    requires step.FinishStep? && window <= step.now && WorldInv(w) && AllCallsIn(w, window)
    ensures var t := FinishCall(w, step.call, step.run, step.token, step.completed, step.trusted, step.cost, step.input, step.output, step.now).0;
            && WorldInv(t) && Spend(t, agent, window) <= Spend(w, agent, window) + Overrun(w, step)
  {
    FinishSettlesExactly(w, step.call, step.run, step.token, step.completed, step.trusted, step.cost, step.input, step.output, step.now, agent, window);
  }

  lemma FinishKeepsTimes(w: World, step: LedgerStep, window: Instant)
    requires step.FinishStep? && AllCallsIn(w, window)
    ensures AllCallsIn(FinishCall(w, step.call, step.run, step.token, step.completed, step.trusted, step.cost, step.input, step.output, step.now).0, window)
  {
  }

  lemma FinishKeepsWithin(l: Ledger, policies: map<Id, Policy>, step: LedgerStep, agent: Id, window: Instant, bound: int)
    requires step.FinishStep? && window <= step.now
    requires WorldInv(l.world) && AllCallsIn(l.world, window) && Spend(l.world, agent, window) <= bound
    ensures var t := Effect(l, policies, step).world;
            && WorldInv(t) && AllCallsIn(t, window) && Spend(t, agent, window) <= bound + Overrun(l.world, step)
  {
    FinishOverruns(l.world, step, agent, window);
    FinishKeepsTimes(l.world, step, window);
  }

  /** The calls of a run without usage rows weigh at least what its completed calls cost. */
  lemma RunWeighsItsCost(w: World, run: Id, window: Instant)
    requires WorldInv(w) && run in w.queue.runs && RecordsUsage(w, run) && AllCallsIn(w, window)
    ensures RunCost(w, run) <= RunWeight(w, run, w.queue.runs[run].agent, window)
  {
    var agent := w.queue.runs[run].agent;
    var cost, weight := k => CostIn(w, run, k), k => WeightIn(w, run, agent, window, k);
    forall k | k in w.calls ensures cost(k) <= weight(k) && 0 <= weight(k) {
      assert CallInv(w, w.calls[k]);
      if w.calls[k].run == run { NoRowOfRun(w, run, k); }
    }
    SumGrows(w.calls.Keys, w.calls.Keys, cost, weight);
  }

  lemma NoRowOfRun(w: World, run: Id, k: Id)
    requires WorldInv(w) && run in w.queue.runs && RecordsUsage(w, run) && k in w.calls && w.calls[k].run == run
    ensures !Accounted(w, k)
  {
    forall i | 0 <= i < |w.usage|
      ensures !(w.usage[i].call == Some(k) || (w.usage[i].call.None? && w.usage[i].run == run))
    {
      assert UsageInv(w, w.usage[i]) && w.usage[i].run != run;
    }
  }

  /** A commit never adds to the spend, whatever happened since its usage check. */
  lemma CommitKeepsWithin(l: Ledger, policies: map<Id, Policy>, step: LedgerStep, agent: Id, window: Instant)
    requires step.CommitStep? && window <= step.now && LedgerInv(l) && AllCallsIn(l.world, window)
    ensures var t := Effect(l, policies, step).world;
            && WorldInv(t) && AllCallsIn(t, window) && Spend(t, agent, window) <= Spend(l.world, agent, window)
  {
    var CommitStep(run, token, cost, now) := step;
    var w := l.world;
    CompletingKeepsInv(w, run, token, cost, now);
    if (run, cost) in l.checked && run in w.queue.runs && Holds(w.queue.runs[run], token) {
      CompletionReplacesCalls(w, run, token, cost, now, agent, window);
      if RecordsUsage(w, run) { RunWeighsItsCost(w, run, window); }
    }
  }

  /** One step of a window: no more spent than the limit, what had already been overrun, and its own overrun. */
  lemma StepKeepsWithin(l: Ledger, policies: map<Id, Policy>, step: LedgerStep, agent: Id, period: Period, window: Instant, bound: int)
    requires LedgerInv(l) && AllCallsIn(l.world, window) && InWindow(step, period, window)
    requires agent in policies && LimitOf(policies[agent], period).Some? && LimitOf(policies[agent], period).value <= bound
    requires Spend(l.world, agent, window) <= bound
    ensures var m := Effect(l, policies, step);
            && LedgerInv(m) && AllCallsIn(m.world, window)
            && Spend(m.world, agent, window) <= bound + Overrun(l.world, step)
  {
    ChecksStay(l, policies, step);
    match step
    case QueueStep(q) =>
      if !q.Complete? {
        QueueStepKeepsWorld(l.world, q);
        QueueStepKeepsSpend(l.world, q, agent, window);
      }
    case StartStep(_, _, _, _, _, _, _) =>
      StartKeepsWithin(l, policies, step, agent, period, window, bound);
    case FinishStep(_, _, _, _, _, _, _, _, _) =>
      FinishKeepsWithin(l, policies, step, agent, window, bound);
    case CheckStep(_, _, _) =>
    case CommitStep(_, _, _, _) =>
      CommitKeepsWithin(l, policies, step, agent, window);
  }

  /** Over every run of the service within one accounting window, the spend of an agent with a limit never
      exceeds that limit by more than the total by which its calls overran their reservations, however usage
      checks and their commits are interleaved with calls. */
  lemma {:induction false} SpendStaysWithin(l: Ledger, policies: map<Id, Policy>, steps: seq<LedgerStep>,
                                            agent: Id, period: Period, window: Instant, bound: int)
    requires LedgerInv(l) && AllCallsIn(l.world, window)
    requires forall i :: 0 <= i < |steps| ==> InWindow(steps[i], period, window)
    requires agent in policies && LimitOf(policies[agent], period).Some? && LimitOf(policies[agent], period).value <= bound
    requires Spend(l.world, agent, window) <= bound
    ensures LedgerInv(ExecLedger(l, policies, steps))
    ensures Spend(ExecLedger(l, policies, steps).world, agent, window) <= bound + TotalOverrun(l, policies, steps)
    decreases |steps|
  {
    if steps != [] {
      StepKeepsWithin(l, policies, steps[0], agent, period, window, bound);
      SpendStaysWithin(Effect(l, policies, steps[0]), policies, steps[1..], agent, period, window, bound + Overrun(l.world, steps[0]));
    }
  }

  // ---------- the gateway never overruns ----------

  /** How many input and output tokens the gateway estimates for a call before it starts it. */
  type Plan = Id -> (nat, nat)

  function Estimate(plan: Plan, call: Id, row: Run): string {
    Pricing.EstimateCost(row.provider, row.model, plan(call).0, plan(call).1).0
  }

  /** The gateway starts every call with its own estimate as the reservation, below the 64-bit limit. */
  ghost predicate GatewayStart(w: World, step: LedgerStep, plan: Plan) {
    step.StartStep? && step.run in w.queue.runs ==>
      var row := w.queue.runs[step.run];
      && step.reserved == Estimate(plan, step.call, row)
      && (Pricing.PriceOf(row.provider, row.model).Some? ==>
            Pricing.Exact(Pricing.PriceOf(row.provider, row.model).value, plan(step.call).0, plan(step.call).1) < Pricing.TWO63)
  }

  /** It finishes every call priced from what it observed; for a priced model the observed tokens stay within the estimate. */
  ghost predicate GatewayFinish(w: World, step: LedgerStep, plan: Plan) {
    step.FinishStep? && step.call in w.calls && w.calls[step.call].run in w.queue.runs ==>
      var row := w.queue.runs[w.calls[step.call].run];
      && step.trusted && 0 <= step.input && 0 <= step.output
      && step.cost == Pricing.FinishCost(row.provider, row.model, step.completed, step.input, step.output).0
      && (Pricing.PriceOf(row.provider, row.model).Some? ==> step.input <= plan(step.call).0 && step.output <= plan(step.call).1)
  }

  ghost predicate GatewayRun(l: Ledger, policies: map<Id, Policy>, plan: Plan, steps: seq<LedgerStep>)
    decreases |steps|
  {
    steps == [] || (GatewayStart(l.world, steps[0], plan) && GatewayFinish(l.world, steps[0], plan)
                    && GatewayRun(Effect(l, policies, steps[0]), policies, plan, steps[1..]))
  }

  /** Every call reserves its estimate. */
  ghost predicate CallsArePlanned(w: World, plan: Plan) {
    forall k :: k in w.calls ==> w.calls[k].run in w.queue.runs && PlannedCall(plan, k, w.calls[k], w.queue.runs[w.calls[k].run])
  }

  ghost predicate PlannedCall(plan: Plan, k: Id, c: Call, row: Run) {
    && Pricing.CostPattern(Estimate(plan, k, row)) && c.reserved == Pricing.CostUnits(Estimate(plan, k, row))
    && (Pricing.PriceOf(row.provider, row.model).Some? ==>
          Pricing.Exact(Pricing.PriceOf(row.provider, row.model).value, plan(k).0, plan(k).1) < Pricing.TWO63)
  }

  /** No transaction changes the model of a run. */
  lemma ModelsStay(l: Ledger, policies: map<Id, Policy>, step: LedgerStep, run: Id)
    requires Inv(l.world.queue) && run in l.world.queue.runs
    ensures var q := Effect(l, policies, step).world.queue;
            && Inv(q) && run in q.runs && q.runs[run].provider == l.world.queue.runs[run].provider && q.runs[run].model == l.world.queue.runs[run].model
  {
    match step
    case QueueStep(q) =>
      StepMovesRow(l.world.queue, q, run);
      StepKeepsInv(l.world.queue, q);
    case CommitStep(other, token, _, now) =>
      StepMovesRow(l.world.queue, Step.Complete(other, token, now), run);
      StepKeepsInv(l.world.queue, Step.Complete(other, token, now));
    case _ =>
  }

  lemma QueueStaysInv(l: Ledger, policies: map<Id, Policy>, step: LedgerStep)
    requires Inv(l.world.queue)
    ensures Inv(Effect(l, policies, step).world.queue)
  {
    match step
    case QueueStep(q) => StepKeepsInv(l.world.queue, q);
    case CommitStep(run, token, _, now) => StepKeepsInv(l.world.queue, Step.Complete(run, token, now));
    case _ =>
  }

  /** A transaction leaves the reservation of a call as it is, and a new call is the one that a start makes. */
  lemma ReservationsStay(l: Ledger, policies: map<Id, Policy>, step: LedgerStep, k: Id)
    requires k in Effect(l, policies, step).world.calls
    ensures var w, c := l.world, Effect(l, policies, step).world.calls[k];
            if k in w.calls then c.run == w.calls[k].run && c.reserved == w.calls[k].reserved
            else
              && step.StartStep? && step.call == k && c.run == step.run && step.run in w.queue.runs
              && Pricing.CostPattern(step.reserved) && c.reserved == Pricing.CostUnits(step.reserved)
  {
  }

  lemma EffectKeepsPlan(l: Ledger, policies: map<Id, Policy>, plan: Plan, step: LedgerStep)
    requires Inv(l.world.queue) && CallsArePlanned(l.world, plan) && GatewayStart(l.world, step, plan)
    ensures CallsArePlanned(Effect(l, policies, step).world, plan)
  {
    var w, t := l.world, Effect(l, policies, step).world;
    forall k | k in t.calls ensures t.calls[k].run in t.queue.runs && PlannedCall(plan, k, t.calls[k], t.queue.runs[t.calls[k].run]) {
      ReservationsStay(l, policies, step, k);
      var run := t.calls[k].run;
      assert run in w.queue.runs;
      ModelsStay(l, policies, step, run);
      PlanIsOfModel(plan, k, t.calls[k], w.queue.runs[run], t.queue.runs[run]);
    }
  }

  lemma PlanIsOfModel(plan: Plan, k: Id, c: Call, row: Run, other: Run)
    requires row.provider == other.provider && row.model == other.model
    ensures PlannedCall(plan, k, c, row) == PlannedCall(plan, k, c, other)
  {
  }

  lemma PlannedFinish(w: World, plan: Plan, step: LedgerStep)
    requires CallsArePlanned(w, plan) && GatewayFinish(w, step, plan)
    ensures Overrun(w, step) == 0
  {
    if step.FinishStep? && step.call in w.calls {
      var row := w.queue.runs[w.calls[step.call].run];
      assert PlannedCall(plan, step.call, w.calls[step.call], row);
      Pricing.GatewayStaysWithinReservation(row.provider, row.model, plan(step.call).0, plan(step.call).1, step.completed, step.input, step.output);
    }
  }

  /** When every call was reserved by the gateway's own estimate and its observed tokens stay within it, no call
      overruns its reservation. */
  lemma {:induction false} GatewayNeverOverruns(l: Ledger, policies: map<Id, Policy>, plan: Plan, steps: seq<LedgerStep>)
    requires Inv(l.world.queue) && CallsArePlanned(l.world, plan) && GatewayRun(l, policies, plan, steps)
    ensures TotalOverrun(l, policies, steps) == 0
    decreases |steps|
  {
    if steps != [] {
      PlannedFinish(l.world, plan, steps[0]);
      EffectKeepsPlan(l, policies, plan, steps[0]);
      QueueStaysInv(l, policies, steps[0]);
      GatewayNeverOverruns(Effect(l, policies, steps[0]), policies, plan, steps[1..]);
    }
  }

  lemma NothingSpent(w: World, agent: Id, window: Instant)
    requires w.calls == map[] && w.usage == []
    ensures Spend(w, agent, window) == 0
  {
    assert w.calls.Keys == {};
  }

  function EmptyLedger(queue: State): Ledger { Ledger(World(queue, map[], []), {}) }

  /** On the gateway path the limit itself is never exceeded: for unpriced models always, for priced ones as long
      as the observed tokens stay within the estimated ones. */
  lemma GatewaySpendStaysWithinLimit(policies: map<Id, Policy>, queue: State, plan: Plan, steps: seq<LedgerStep>,
                                     agent: Id, period: Period, window: Instant)
    requires Inv(queue) && agent in policies && LimitOf(policies[agent], period).Some?
    requires forall i :: 0 <= i < |steps| ==> InWindow(steps[i], period, window)
    requires GatewayRun(EmptyLedger(queue), policies, plan, steps)
    ensures Spend(ExecLedger(EmptyLedger(queue), policies, steps).world, agent, window) <= LimitOf(policies[agent], period).value
  {
    var l := EmptyLedger(queue);
    NothingSpent(l.world, agent, window);
    GatewayNeverOverruns(l, policies, plan, steps);
    SpendStaysWithin(l, policies, steps, agent, period, window, LimitOf(policies[agent], period).value);
  }

  // ---------- what happens between the usage check and the commit ----------

  /** Calls stay with their runs, and those of one run, with none of them open, stay as they are. */
  ghost predicate SettledStay(w: World, t: World, run: Id) {
    forall k :: k in w.calls ==>
      && k in t.calls && t.calls[k].run == w.calls[k].run
      && (w.calls[k].run == run ==> !w.calls[k].status.Started? && t.calls[k] == w.calls[k])
  }

  lemma SettledStepStays(w: World, l: Ledger, policies: map<Id, Policy>, step: LedgerStep, run: Id)
    requires SettledStay(w, l.world, run)
    ensures SettledStay(w, Effect(l, policies, step).world, run)
  {
  }

  lemma {:induction false} SettledCallsStay(w: World, l: Ledger, policies: map<Id, Policy>, steps: seq<LedgerStep>, run: Id)
    requires SettledStay(w, l.world, run)
    ensures SettledStay(w, ExecLedger(l, policies, steps).world, run)
    decreases |steps|
  {
    if steps != [] {
      SettledStepStays(w, l, policies, steps[0], run);
      SettledCallsStay(w, Effect(l, policies, steps[0]), policies, steps[1..], run);
    }
  }

  /** A call of the run that is charged and was not there at the check. */
  ghost predicate ChargedSince(w: World, t: World, run: Id, k: Id) {
    k in t.calls && t.calls[k].run == run && k !in w.calls && Charge(t.calls[k]) > 0
  }

  function ChargeSince(w: World, t: World, run: Id, k: Id): int {
    if k in t.calls && t.calls[k].run == run && k !in w.calls then Charge(t.calls[k]) else 0
  }

  lemma OneSinceCheck(w: World, t: World, run: Id, window: Instant, k: Id)
    requires SettledStay(w, t, run) && WorldInv(t) && AllCallsIn(t, window)
    requires run in t.queue.runs && RecordsUsage(t, run) && k in t.calls
    ensures WeightIn(t, run, t.queue.runs[run].agent, window, k) == CostIn(w, run, k) + ChargeSince(w, t, run, k)
  {
    assert CallInv(t, t.calls[k]);
    if t.calls[k].run == run { NoRowOfRun(t, run, k); }
  }

  /** At the commit, the calls of the run weigh what the check read and what has been charged since. */
  lemma WeightSinceCheck(w: World, t: World, run: Id, window: Instant)
    requires SettledStay(w, t, run) && WorldInv(t) && AllCallsIn(t, window)
    requires run in t.queue.runs && RecordsUsage(t, run)
    ensures RunWeight(t, run, t.queue.runs[run].agent, window) == RunCost(w, run) + Sum(t.calls.Keys, k => ChargeSince(w, t, run, k))
  {
    var agent := t.queue.runs[run].agent;
    var weight, read, since := k => WeightIn(t, run, agent, window, k), k => CostIn(w, run, k), k => ChargeSince(w, t, run, k);
    forall k | k in t.calls ensures since(k) == weight(k) - read(k) { OneSinceCheck(w, t, run, window, k); }
    SumDifference(t.calls.Keys, weight, read, since);
    ReadIsCost(w, t, run);
  }

  lemma ReadIsCost(w: World, t: World, run: Id)
    requires w.calls.Keys <= t.calls.Keys
    ensures Sum(t.calls.Keys, k => CostIn(w, run, k)) == RunCost(w, run)
  {
    SumOfPart(w.calls.Keys, t.calls.Keys, k => CostIn(w, run, k));
  }

  lemma NothingSince(w: World, t: World, run: Id)
    ensures Sum(t.calls.Keys, k => ChargeSince(w, t, run, k)) == 0 <==> forall k :: !ChargedSince(w, t, run, k)
  {
    var since := k => ChargeSince(w, t, run, k);
    SumNonNegative(t.calls.Keys, since);
    if forall k :: !ChargedSince(w, t, run, k) {
      forall k | k in t.calls.Keys ensures since(k) == 0 { assert !ChargedSince(w, t, run, k); }
      ZeroSum(t.calls.Keys, since);
    } else {
      var k :| ChargedSince(w, t, run, k);
      assert since(k) <= Sum(t.calls.Keys, since);
    }
  }

  /** After any transactions between a usage check and its commit, the commit conserves the spend if and only if the run
      gets no usage row or no call of it has been charged since the check. */
  lemma CommitConservesExactlyWhen(l: Ledger, policies: map<Id, Policy>, steps: seq<LedgerStep>, run: Id, token: Id, now: Instant, window: Instant)
    requires !HasOpenCall(l.world, run)
    requires var t := ExecLedger(l, policies, steps).world;
             WorldInv(t) && AllCallsIn(t, window) && window <= now && run in t.queue.runs && Holds(t.queue.runs[run], token)
    ensures var t := ExecLedger(l, policies, steps).world;
            var agent := t.queue.runs[run].agent;
            Spend(CompleteWith(t, run, token, RunCost(l.world, run), now), agent, window) == Spend(t, agent, window)
            <==> !RecordsUsage(t, run) || forall k :: !ChargedSince(l.world, t, run, k)
  {
    var t := ExecLedger(l, policies, steps).world;
    SettledCallsStay(l.world, l, policies, steps, run);
    CompletionReplacesCalls(t, run, token, RunCost(l.world, run), now, t.queue.runs[run].agent, window);
    if RecordsUsage(t, run) {
      WeightSinceCheck(l.world, t, run, window);
      NothingSince(l.world, t, run);
    }
  }

  // ---------- a call that starts during a completion ----------

  /** One run of one agent, claimed with token 9. */
  function Claimed(): Run {
    NewRow(1, Some(1), false, "openai", "model", 3, 600, 0).(status := Running, leaseToken := Some(9), leaseExpiresAt := Some(300), startedAt := Some(0))
  }

  function OneRun(): World { World(State(map[5 := Claimed()], {9}), map[], []) }

  function OnePolicy(): map<Id, Policy> { map[1 := Policy(None, None, 10, true)] }

  function LateStart(): LedgerStep { StartStep(7, 5, 9, Pricing.DEFAULT_COST, 20, 0, 0) }

  function LateCall(): World { OneRun().(calls := map[7 := Call(1, 5, Started, 1_000_000, 0, 20)]) }

  lemma LateStartIsAdmitted()
    ensures WorldInv(OneRun()) && AllCallsIn(OneRun(), 0) && !HasOpenCall(OneRun(), 5) && RecordsUsage(OneRun(), 5)
    ensures StartCall(OneRun(), OnePolicy(), 7, 5, 9, Pricing.DEFAULT_COST, 20, 0, 0) == (LateCall(), Done)
    ensures RunCost(OneRun(), 5) == 0
  {
    Pricing.DefaultCostReads();
    assert RecentCalls(OneRun(), 1, 20) == {};
    assert OneRun().calls.Keys == {};
  }

  lemma LateCallWeighs()
    ensures Spend(LateCall(), 1, 0) == 1_000_000
  {
    LateStartIsAdmitted();
    NothingSpent(OneRun(), 1, 0);
    NewCallAddsItsCharge(OneRun(), 7, Call(1, 5, Started, 1_000_000, 0, 20), 1, 0);
  }

  lemma LateCommit()
    ensures Spend(CompleteWith(LateCall(), 5, 9, 0, 30), 1, 0) == 0
  {
    LateStartIsAdmitted();
    LateCallWeighs();
    var c := Call(1, 5, Started, 1_000_000, 0, 20);
    assert LateCall() == WithCall(OneRun(), 7, c);
    NewCallKeepsInv(OneRun(), 7, c);
    CompletionReplacesCalls(LateCall(), 5, 9, 0, 30, 1, 0);
    RunWeightIsRunCost(OneRun(), 5, 0);
    NoEarlierCost(OneRun(), 5, 0);
    NewCallWeighs(OneRun(), 7, c, 0);
  }

  lemma LateCheck()
    ensures Effect(Ledger(OneRun(), {}), OnePolicy(), CheckStep(5, 9, 10)) == Ledger(OneRun(), {(5, 0)})
  {
    LateStartIsAdmitted();
  }

  lemma LateStarted()
    ensures Effect(Ledger(OneRun(), {(5, 0)}), OnePolicy(), LateStart()) == Ledger(LateCall(), {(5, 0)})
  {
    LateStartIsAdmitted();
  }

  lemma CommitIs(l: Ledger, policies: map<Id, Policy>, run: Id, token: Id, read: int, now: Instant)
    requires (run, read) in l.checked
    ensures var t := Effect(l, policies, CommitStep(run, token, read, now)).world;
            t == CompleteWith(l.world, run, token, read, now) && t.calls == l.world.calls
  {
  }

  lemma ThreeEffects(l: Ledger, policies: map<Id, Policy>, a: LedgerStep, b: LedgerStep, c: LedgerStep, first: Ledger, second: Ledger)
    requires Effect(l, policies, a) == first && Effect(first, policies, b) == second
    ensures ExecLedger(l, policies, [a, b]) == second && ExecLedger(l, policies, [a, b, c]) == Effect(second, policies, c)
  {
    assert [a, b][1..] == [b] && [b][1..] == [] && [a, b, c][1..] == [b, c] && [b, c][1..] == [c] && [c][1..] == [];
    assert ExecLedger(first, policies, [b]) == second;
    assert ExecLedger(first, policies, [b, c]) == ExecLedger(second, policies, [c]) == Effect(second, policies, c);
  }

  function LateSteps(): seq<LedgerStep> { [CheckStep(5, 9, 10), LateStart(), CommitStep(5, 9, 0, 30)] }

  lemma LateRun()
    ensures ExecLedger(Ledger(OneRun(), {}), OnePolicy(), LateSteps()[..2]) == Ledger(LateCall(), {(5, 0)})
    ensures ExecLedger(Ledger(OneRun(), {}), OnePolicy(), LateSteps()).world == CompleteWith(LateCall(), 5, 9, 0, 30)
  {
    LateCheck();
    LateStarted();
    ThreeEffects(Ledger(OneRun(), {}), OnePolicy(), CheckStep(5, 9, 10), LateStart(), CommitStep(5, 9, 0, 30),
                 Ledger(OneRun(), {(5, 0)}), Ledger(LateCall(), {(5, 0)}));
    CommitIs(Ledger(LateCall(), {(5, 0)}), OnePolicy(), 5, 9, 0, 30);
    assert LateSteps()[..2] == [CheckStep(5, 9, 10), LateStart()];
  }

  lemma LateCallStaysOpen()
    ensures var t := CompleteWith(LateCall(), 5, 9, 0, 30); 7 in t.calls && t.calls[7].status.Started?
  {
  }

  /** The usage check reads nothing, a call starts with a reservation of one cent, and the commit makes it disappear: the
      call is open, and nothing is spent. */
  lemma LateStartLosesReservation()
    ensures WorldInv(OneRun())
    ensures Spend(ExecLedger(Ledger(OneRun(), {}), OnePolicy(), LateSteps()[..2]).world, 1, 0) == 1_000_000
    ensures var t := ExecLedger(Ledger(OneRun(), {}), OnePolicy(), LateSteps()).world;
            Spend(t, 1, 0) == 0 && 7 in t.calls && t.calls[7].status.Started?
  {
    LateStartIsAdmitted();
    LateRun();
    LateCallWeighs();
    LateCommit();
    LateCallStaysOpen();
  }

  // ---------- fencing of provider calls ----------

  ghost predicate Stale(w: World, run: Id, token: Id) {
    Inv(w.queue) && run in w.queue.runs && token in w.queue.issued && w.queue.runs[run].leaseToken != Some(token)
  }

  lemma EffectKeepsStale(l: Ledger, policies: map<Id, Policy>, step: LedgerStep, run: Id, token: Id)
    requires Stale(l.world, run, token)
    ensures Stale(Effect(l, policies, step).world, run, token)
  {
    var w, t := l.world, Effect(l, policies, step).world;
    if step.QueueStep? && !step.step.Complete? {
      StepKeepsInv(w.queue, step.step);
      StepMovesRow(w.queue, step.step, run);
    } else if step.CommitStep? && t != w {
      var q := Step.Complete(step.run, step.token, step.now);
      assert t.queue == Apply(w.queue, q);
      StepKeepsInv(w.queue, q);
      StepMovesRow(w.queue, q, run);
    }
  }

  /** After any run of the service, a lost lease can neither open nor close a call, nor check or complete the run. */
  lemma {:induction false} StaleTokenTouchesNoCall(l: Ledger, policies: map<Id, Policy>, steps: seq<LedgerStep>,
                                                   run: Id, token: Id, late: LedgerStep)
    requires Stale(l.world, run, token)
    requires (late.StartStep? || late.FinishStep? || late.CheckStep? || late.CommitStep?) && late.run == run && late.token == token
    ensures var t := ExecLedger(l, policies, steps); Effect(t, policies, late) == t
    decreases |steps|
  {
    if steps != [] {
      EffectKeepsStale(l, policies, steps[0], run, token);
      StaleTokenTouchesNoCall(Effect(l, policies, steps[0]), policies, steps[1..], run, token, late);
    }
  }
}
