/** The service object over the run table: each method is one transaction of the service. */
module RunQueueService {
  import opened Collections
  import opened AgentRuns

  datatype Agent = Agent(enabled: bool, perChatConcurrency: nat)

  /** The committed running rows of an agent in a chat. */
  function Active(runs: map<Id, Run>, agent: Id, chat: Id): set<Id> {
    set id | id in runs && runs[id].agent == agent && runs[id].chat == Some(chat) && runs[id].status.Running?
  }

  predicate HasCapacity(runs: map<Id, Run>, agents: map<Id, Agent>, id: Id)
    requires id in runs && runs[id].agent in agents
  {
    runs[id].chat.None? || |Active(runs, runs[id].agent, runs[id].chat.value)| < agents[runs[id].agent].perChatConcurrency
  }

  /** Reaping in two statements is reaping each row once. */
  lemma ReapStatements(s: State, first: map<Id, Run>, second: map<Id, Run>, now: Instant)
    requires first == map id | id in s.runs :: ReapQueuedRow(s.runs[id], now)
    requires second == map id | id in first :: ReapRunningRow(first[id], now)
    ensures State(second, s.issued) == Apply(s, Step.Reap(now))
  {
    var all := Apply(s, Step.Reap(now)).runs;
    assert second.Keys == all.Keys;
    forall id | id in second ensures second[id] == all[id] {
      assert first[id] == ReapQueuedRow(s.runs[id], now);
    }
    assert second == all;
  }

  /** The two deletion statements touch disjoint rows. */
  lemma DeleteStatements(s: State, first: map<Id, Run>, second: map<Id, Run>, agent: Id, now: Instant)
    requires first == map id | id in s.runs ::
                        if s.runs[id].agent == agent && s.runs[id].status.Queued? then AgentDeletedRow(s.runs[id], now) else s.runs[id]
    requires second == map id | id in first ::
                         if first[id].agent == agent && first[id].status.Running? then AgentDeletedRow(first[id], now) else first[id]
    ensures State(second, s.issued) == Apply(s, Step.DeleteAgent(agent, now))
  {
    var all := Apply(s, Step.DeleteAgent(agent, now)).runs;
    assert second.Keys == all.Keys;
    forall id | id in second ensures second[id] == all[id] {
      assert id in first;
    }
    assert second == all;
  }

  class RunQueue {
    var runs: map<Id, Run>
    var agents: map<Id, Agent>
    ghost var issued: set<Id>

    ghost function Table(): State reads this { State(runs, issued) }

    constructor ()
      ensures Table() == State(map[], {}) && Inv(Table()) && agents == map[]
    {
      runs := map[];
      agents := map[];
      issued := {};
    }

    method Invoke(id: Id, agent: Id, chat: Option<Id>, dryRun: bool, provider: string, model: string,
                  timeoutSeconds: int, maxAttempts: int, now: Instant) returns (r: Outcome)
      requires Inv(Table()) && id !in runs
      modifies this`runs
      ensures Inv(Table())
      ensures r.Ok? <==> (timeoutSeconds == 0 || 5 <= timeoutSeconds <= 3600) && 0 <= maxAttempts <= 20
      ensures r.Ok? ==>
                runs == old(runs)[id := NewRow(agent, chat, dryRun, provider, model,
                                               if maxAttempts == 0 then 3 else maxAttempts,
                                               now + (if timeoutSeconds == 0 then 120 else timeoutSeconds), now)]
      ensures !r.Ok? ==> r == Invalid && runs == old(runs)
      ensures r.Ok? ==> Table() == Apply(old(Table()), Enqueue(id, runs[id]))
    {
      var timeout := if timeoutSeconds == 0 then 120 else timeoutSeconds;
      var attempts := if maxAttempts == 0 then 3 else maxAttempts;
      if timeout < 5 || timeout > 3600 || attempts < 1 || attempts > 20 {
        return Invalid;
      }
      ghost var before := Table();
      runs := runs[id := NewRow(agent, chat, dryRun, provider, model, attempts, now + timeout, now)];
      StepKeepsInv(before, Enqueue(id, runs[id]));
      return Ok;
    }

    method RequestCancel(id: Id, now: Instant) returns (r: Outcome)
      requires Inv(Table())
      modifies this`runs
      ensures Inv(Table()) && Table() == Apply(old(Table()), Step.RequestCancel(id, now))
      ensures r == if id in old(runs) && !Terminal(old(runs)[id].status) then Ok else Conflict
    {
      StepKeepsInv(Table(), Step.RequestCancel(id, now));
      if id !in runs || (runs[id].status != Queued && runs[id].status != Running) {
        return Conflict;
      }
      runs := runs[id := CancelRow(runs[id], now)];
      return Ok;
    }

    /** Two statements: overdue queued rows first, then running rows without a live lease. */
    method Reap(now: Instant)
      requires Inv(Table())
      modifies this`runs
      ensures Inv(Table()) && Table() == Apply(old(Table()), Step.Reap(now))
    {
      ghost var before := Table();
      runs := map id | id in runs :: ReapQueuedRow(runs[id], now);
      ghost var first := runs;
      runs := map id | id in runs :: ReapRunningRow(runs[id], now);
      ReapStatements(before, first, runs, now);
      StepKeepsInv(before, Step.Reap(now));
    }

    /** One claim transaction over the rows its query returned and locked, in the query's order.
        The first row whose chat still has capacity is claimed, and only that one. */
    method ClaimFrom(candidates: seq<Id>, token: Id, lease: nat, now: Instant) returns (claimed: Option<Id>)
      requires Inv(Table()) && token !in issued
      requires forall id :: id in candidates ==> id in runs && Claimable(runs[id], now) && runs[id].agent in agents
      modifies this`runs, this`issued
      ensures Inv(Table())
      ensures claimed.None? ==>
                && Table() == old(Table())
                && forall id :: id in candidates ==> !HasCapacity(old(runs), agents, id)
      ensures claimed.Some? ==>
                && Table() == Apply(old(Table()), Step.Claim(claimed.value, token, now + lease, now))
                && claimed.value in runs && runs[claimed.value].leaseToken == Some(token)
                && exists k :: 0 <= k < |candidates| && candidates[k] == claimed.value && HasCapacity(old(runs), agents, candidates[k])
                               && forall j :: 0 <= j < k ==> !HasCapacity(old(runs), agents, candidates[j])
    {
      for i := 0 to |candidates|
        invariant Table() == old(Table())
        invariant forall j :: 0 <= j < i ==> !HasCapacity(runs, agents, candidates[j])
      {
        var id := candidates[i];
        var row := runs[id];
        if row.chat.Some? {
          var active := |Active(runs, row.agent, row.chat.value)|;
          if active >= agents[row.agent].perChatConcurrency {
            continue;
          }
        }
        StepKeepsInv(Table(), Step.Claim(id, token, now + lease, now));
        runs := runs[id := ClaimRow(row, token, now + lease, now)];
        issued := issued + {token};
        return Some(id);
      }
      return None;
    }

    /** The shared admission check of every worker-side call. */
    predicate RuntimeTarget(id: Id, token: Id, organizationWorker: bool, actor: Id, now: Instant)
      reads this`runs
    {
      && id in runs && Holds(runs[id], token)
      && runs[id].leaseExpiresAt.Some? && runs[id].leaseExpiresAt.value > now
      && runs[id].chat.Some?
      && (organizationWorker || runs[id].agent == actor)
    }

    method HeartbeatForAgent(id: Id, token: Id, leaseSeconds: int, organizationWorker: bool, actor: Id, now: Instant)
      returns (r: Outcome)
      requires Inv(Table())
      modifies this`runs
      ensures Inv(Table())
      ensures var lease := if leaseSeconds == 0 then 60 else leaseSeconds;
              && (r.Invalid? <==> lease < 5 || lease > 300)
              && (r.Ok? <==> 5 <= lease <= 300 && old(RuntimeTarget(id, token, organizationWorker, actor, now)))
              && (r.Ok? ==> Table() == Apply(old(Table()), Step.Heartbeat(id, token, now + lease))
                            && runs[id].leaseExpiresAt == Some(now + lease))
      ensures !r.Ok? ==> Table() == old(Table())
    {
      var lease := if leaseSeconds == 0 then 60 else leaseSeconds;
      if lease < 5 || lease > 300 {
        return Invalid;
      }
      if !RuntimeTarget(id, token, organizationWorker, actor, now) {
        return Conflict;
      }
      StepKeepsInv(Table(), Step.Heartbeat(id, token, now + lease));
      runs := runs[id := HeartbeatRow(runs[id], now + lease)];
      return Ok;
    }

    method Complete(id: Id, token: Id, now: Instant) returns (r: Outcome)
      requires Inv(Table())
      modifies this`runs
      ensures Inv(Table()) && Table() == Apply(old(Table()), Step.Complete(id, token, now))
      ensures r == if id in old(runs) && Holds(old(runs)[id], token) then Ok else Conflict
    {
      StepKeepsInv(Table(), Step.Complete(id, token, now));
      if id !in runs || !Holds(runs[id], token) {
        return Conflict;
      }
      runs := runs[id := CompleteRow(runs[id], now)];
      return Ok;
    }

    method Fail(id: Id, token: Id, code: string, now: Instant) returns (r: Outcome)
      requires Inv(Table())
      modifies this`runs
      ensures Inv(Table())
      ensures r.Invalid? <==> |code| < 1 || |code| > 120
      ensures r.Invalid? ==> Table() == old(Table())
      ensures !r.Invalid? ==>
                && Table() == Apply(old(Table()), Step.Fail(id, token, code, now))
                && r == if id in old(runs) && Holds(old(runs)[id], token) then Ok else Conflict
    {
      if |code| < 1 || |code| > 120 {
        return Invalid;
      }
      StepKeepsInv(Table(), Step.Fail(id, token, code, now));
      if id !in runs || !Holds(runs[id], token) {
        return Conflict;
      }
      runs := runs[id := FailRow(runs[id], code, now)];
      return Ok;
    }

    /** The run statements of an agent deletion: cancel the queued runs, then flag the running ones. */
    method DeleteAgent(agent: Id, now: Instant)
      requires Inv(Table())
      modifies this`runs
      ensures Inv(Table()) && Table() == Apply(old(Table()), Step.DeleteAgent(agent, now))
    {
      ghost var before := Table();
      runs := map id | id in runs ::
        if runs[id].agent == agent && runs[id].status.Queued? then AgentDeletedRow(runs[id], now) else runs[id];
      ghost var first := runs;
      runs := map id | id in runs ::
        if runs[id].agent == agent && runs[id].status.Running? then AgentDeletedRow(runs[id], now) else runs[id];
      DeleteStatements(before, first, runs, agent, now);
      StepKeepsInv(before, Step.DeleteAgent(agent, now));
    }
  }
}
