/**
 * The agent run queue: leases with fencing tokens, retries, reaping and cancellation
 * (core/internal/agentrun/service.go).  Each guarded UPDATE of the service is a function on one
 * row; a transaction is one step on the table.  Instants are whole seconds.
 */
module AgentRuns {
  import opened Collections

  type Id = nat
  type Instant = int

  datatype Status = Queued | Running | Completed | Failed | Canceled | TimedOut

  predicate Terminal(status: Status) {
    status != Queued && status != Running
  }

  datatype Run = Run(
    agent: Id, chat: Option<Id>, dryRun: bool, provider: string, model: string,
    status: Status, attempt: nat, maxAttempts: nat,
    leaseToken: Option<Id>, leaseExpiresAt: Option<Instant>,
    startedAt: Option<Instant>, finishedAt: Option<Instant>, cancelRequestedAt: Option<Instant>,
    timeoutAt: Instant, nextAttemptAt: Instant, errorCode: string)

  datatype Outcome = Ok | Invalid | Conflict | NotFound

  // ---------- row transitions: one CASE expression each ----------

  /** The row that an invocation or a trigger inserts; every other column takes its default. */
  function NewRow(agent: Id, chat: Option<Id>, dryRun: bool, provider: string, model: string,
                  maxAttempts: nat, timeoutAt: Instant, now: Instant): Run
  {
    Run(agent, chat, dryRun, provider, model, Queued, 1, maxAttempts,
        None, None, None, None, None, timeoutAt, now, "")
  }

  predicate Claimable(r: Run, now: Instant) {
    r.status.Queued? && r.nextAttemptAt <= now && r.timeoutAt > now && r.cancelRequestedAt.None?
  }

  function ClaimRow(r: Run, token: Id, expires: Instant, now: Instant): Run {
    r.(status := Running, leaseToken := Some(token), leaseExpiresAt := Some(expires),
       startedAt := if r.startedAt.None? then Some(now) else r.startedAt)
  }

  /** `lease_token=$2 AND status='running'`, the fence of every worker-side update. */
  predicate Holds(r: Run, token: Id) {
    r.leaseToken == Some(token) && r.status.Running?
  }

  function HeartbeatRow(r: Run, expires: Instant): Run {
    r.(leaseExpiresAt := Some(expires))
  }

  function CompleteRow(r: Run, now: Instant): Run {
    r.(status := if r.cancelRequestedAt.None? then Completed else Canceled,
       finishedAt := Some(now), leaseToken := None, leaseExpiresAt := None)
  }

  const BUDGET_EXCEEDED := "budget_exceeded"

  function FailRow(r: Run, code: string, now: Instant): Run {
    var requeue := r.cancelRequestedAt.None? && r.timeoutAt > now && code != BUDGET_EXCEEDED && r.attempt < r.maxAttempts;
    var square := r.attempt * r.attempt;
    r.(status :=
         if r.cancelRequestedAt.Some? then Canceled
         else if r.timeoutAt <= now then TimedOut
         else if code == BUDGET_EXCEEDED then Failed
         else if r.attempt < r.maxAttempts then Queued
         else Failed,
       errorCode := code,
       attempt := if requeue then r.attempt + 1 else r.attempt,
       nextAttemptAt := if requeue then now + (if square < 60 then square else 60) else r.nextAttemptAt,
       finishedAt :=
         if r.cancelRequestedAt.Some? || r.timeoutAt <= now || code == BUDGET_EXCEEDED || r.attempt >= r.maxAttempts
         then Some(now) else None,
       leaseToken := None, leaseExpiresAt := None)
  }

  /** The first statement of `reap`. */
  function ReapQueuedRow(r: Run, now: Instant): Run {
    if r.status.Queued? && r.timeoutAt <= now
    then r.(status := TimedOut, errorCode := "run_timeout", finishedAt := Some(now))
    else r
  }

  /** The second statement of `reap`. */
  function ReapRunningRow(r: Run, now: Instant): Run {
    var leaseOver := r.leaseExpiresAt.Some? && r.leaseExpiresAt.value <= now;
    if r.status.Running? && (leaseOver || r.timeoutAt <= now)
    then
      r.(status :=
           if r.cancelRequestedAt.Some? then Canceled
           else if r.attempt < r.maxAttempts && r.timeoutAt > now then Queued
           else TimedOut,
         errorCode := "lease_expired",
         attempt :=
           if r.cancelRequestedAt.None? && r.attempt < r.maxAttempts && r.timeoutAt > now
           then r.attempt + 1 else r.attempt,
         nextAttemptAt := now,
         finishedAt :=
           if r.cancelRequestedAt.Some? || r.attempt >= r.maxAttempts || r.timeoutAt <= now
           then Some(now) else None,
         leaseToken := None, leaseExpiresAt := None)
    else r
  }

  function ReapRow(r: Run, now: Instant): Run {
    ReapRunningRow(ReapQueuedRow(r, now), now)
  }

  function CancelRow(r: Run, now: Instant): Run {
    r.(status := if r.status.Queued? then Canceled else r.status,
       cancelRequestedAt := Some(now),
       finishedAt := if r.status.Queued? then Some(now) else r.finishedAt)
  }

  /** What deleting an agent does to one of its runs. */
  function AgentDeletedRow(r: Run, now: Instant): Run {
    if r.status.Queued? then
      r.(status := Canceled, errorCode := "agent_deleted", cancelRequestedAt := Some(now), finishedAt := Some(now))
    else if r.status.Running? then
      r.(cancelRequestedAt := if r.cancelRequestedAt.None? then Some(now) else r.cancelRequestedAt,
         errorCode := "agent_deleted")
    else r
  }

  // ---------- the table and its steps ----------

  /** `issued` records every lease token ever generated, so that a generated token is a fresh one. */
  datatype State = State(runs: map<Id, Run>, issued: set<Id>)

  datatype Step =
    | Enqueue(id: Id, row: Run)
    | Claim(id: Id, token: Id, expires: Instant, now: Instant)
    | Heartbeat(id: Id, token: Id, expires: Instant)
    | Complete(id: Id, token: Id, now: Instant)
    | Fail(id: Id, token: Id, code: string, now: Instant)
    | Reap(now: Instant)
    | RequestCancel(id: Id, now: Instant)
    | DeleteAgent(agent: Id, now: Instant)

  predicate Fresh(row: Run) {
    row == NewRow(row.agent, row.chat, row.dryRun, row.provider, row.model, row.maxAttempts, row.timeoutAt, row.nextAttemptAt)
    && 1 <= row.maxAttempts <= 20
  }

  function Apply(s: State, step: Step): State {
    match step
    case Enqueue(id, row) =>
      if id !in s.runs && Fresh(row) then s.(runs := s.runs[id := row]) else s
    case Claim(id, token, expires, now) =>
      if id in s.runs && Claimable(s.runs[id], now) && token !in s.issued
      then State(s.runs[id := ClaimRow(s.runs[id], token, expires, now)], s.issued + {token}) else s
    case Heartbeat(id, token, expires) =>
      if id in s.runs && Holds(s.runs[id], token) then s.(runs := s.runs[id := HeartbeatRow(s.runs[id], expires)]) else s
    case Complete(id, token, now) =>
      if id in s.runs && Holds(s.runs[id], token) then s.(runs := s.runs[id := CompleteRow(s.runs[id], now)]) else s
    case Fail(id, token, code, now) =>
      if id in s.runs && Holds(s.runs[id], token) then s.(runs := s.runs[id := FailRow(s.runs[id], code, now)]) else s
    case Reap(now) =>
      s.(runs := map id | id in s.runs :: ReapRow(s.runs[id], now))
    case RequestCancel(id, now) =>
      if id in s.runs && !Terminal(s.runs[id].status) then s.(runs := s.runs[id := CancelRow(s.runs[id], now)]) else s
    case DeleteAgent(agent, now) =>
      s.(runs := map id | id in s.runs ::
           if s.runs[id].agent == agent then AgentDeletedRow(s.runs[id], now) else s.runs[id])
  }

  /** A whole run of the system: any steps, by any workers and users, in any order. */
  function Exec(s: State, steps: seq<Step>): State
    decreases |steps|
  {
    if steps == [] then s else Exec(Apply(s, steps[0]), steps[1..])
  }

  // ---------- invariant ----------

  predicate RowInv(r: Run) {
    && (r.leaseToken.Some? <==> r.status.Running?)
    && (r.leaseExpiresAt.Some? <==> r.status.Running?)
    && (r.finishedAt.Some? <==> Terminal(r.status))
    && (r.status.Running? ==> r.startedAt.Some?)
    && (r.status.Queued? ==> r.cancelRequestedAt.None?)
    && 1 <= r.attempt <= r.maxAttempts
  }

  ghost predicate Inv(s: State) {
    && (forall id :: id in s.runs ==> RowInv(s.runs[id]))
    && (forall id :: id in s.runs && s.runs[id].leaseToken.Some? ==> s.runs[id].leaseToken.value in s.issued)
    && (forall i, j :: i in s.runs && j in s.runs && i != j && s.runs[i].leaseToken.Some?
                       ==> s.runs[i].leaseToken != s.runs[j].leaseToken)
  }

  /** What one step may do to one row: keep its invariant, freeze it when terminal, hand it a token
      only by claiming it with a new one, and otherwise only move it down. */
  predicate Moves(before: Run, after: Run, issuedBefore: set<Id>, issuedAfter: set<Id>) {
    && RowInv(after)
    && (Terminal(before.status) ==> after == before)
    && (after.leaseToken.Some? && after.leaseToken != before.leaseToken ==>
          && before.status.Queued?
          && after.leaseToken.value !in issuedBefore && after.leaseToken.value in issuedAfter)
    && after.maxAttempts == before.maxAttempts && after.agent == before.agent && after.chat == before.chat
    && after.provider == before.provider && after.model == before.model
    && (if after.status != before.status then Smaller(after, before) else after.attempt == before.attempt)
    && (before.cancelRequestedAt.Some? ==>
          && after.cancelRequestedAt.Some? && after.attempt == before.attempt
          && (after.status == before.status || after.status.Canceled?))
  }

  lemma StepMovesRow(s: State, step: Step, id: Id)
    requires id in s.runs && RowInv(s.runs[id])
    ensures var t := Apply(s, step);
            && s.issued <= t.issued && s.runs.Keys <= t.runs.Keys
            && Moves(s.runs[id], t.runs[id], s.issued, t.issued)
  {
    if step.Reap? {
      assert Moves(s.runs[id], ReapRow(s.runs[id], step.now), s.issued, s.issued);
    }
  }

  /** A step that issues a token gives it to the one run it claims. */
  lemma OneClaimPerStep(s: State, step: Step, i: Id, j: Id)
    requires Inv(s) && i in Apply(s, step).runs && j in Apply(s, step).runs && i != j
    requires Apply(s, step).runs[i].leaseToken.Some?
    ensures Apply(s, step).runs[i].leaseToken != Apply(s, step).runs[j].leaseToken
  {
    var t := Apply(s, step);
    if i in s.runs { StepMovesRow(s, step, i); }
    if j in s.runs { StepMovesRow(s, step, j); }
    if i in s.runs && j in s.runs && t.runs[i].leaseToken != s.runs[i].leaseToken && t.runs[j].leaseToken != s.runs[j].leaseToken {
      assert t.runs[j].leaseToken.Some? ==> step.Claim?;
    }
  }

  lemma StepKeepsInv(s: State, step: Step)
    requires Inv(s)
    ensures Inv(Apply(s, step))
    ensures s.issued <= Apply(s, step).issued && s.runs.Keys <= Apply(s, step).runs.Keys
  {
    var t := Apply(s, step);
    forall id | id in s.runs
      ensures Moves(s.runs[id], t.runs[id], s.issued, t.issued)
    {
      StepMovesRow(s, step, id);
    }
    forall id | id in t.runs
      ensures RowInv(t.runs[id]) && (t.runs[id].leaseToken.Some? ==> t.runs[id].leaseToken.value in t.issued)
    {
      if id in s.runs { StepMovesRow(s, step, id); }
    }
    forall i, j | i in t.runs && j in t.runs && i != j && t.runs[i].leaseToken.Some?
      ensures t.runs[i].leaseToken != t.runs[j].leaseToken
    {
      OneClaimPerStep(s, step, i, j);
    }
  }

  /** At every moment of every run: a lease token exactly while running and never shared by two runs,
      `finished_at` exactly when terminal, no cancel request while queued, attempt within its maximum. */
  lemma {:induction false} ExecKeepsInv(s: State, steps: seq<Step>)
    requires Inv(s)
    ensures Inv(Exec(s, steps))
    decreases |steps|
  {
    if steps != [] {
      StepKeepsInv(s, steps[0]);
      ExecKeepsInv(Apply(s, steps[0]), steps[1..]);
    }
  }

  /** Terminal states are absorbing: nothing about a finished run ever changes again. */
  lemma {:induction false} TerminalRunsAreFrozen(s: State, steps: seq<Step>, id: Id)
    requires Inv(s) && id in s.runs && Terminal(s.runs[id].status)
    ensures id in Exec(s, steps).runs && Exec(s, steps).runs[id] == s.runs[id]
    decreases |steps|
  {
    if steps != [] {
      StepKeepsInv(s, steps[0]);
      StepMovesRow(s, steps[0], id);
      TerminalRunsAreFrozen(Apply(s, steps[0]), steps[1..], id);
    }
  }

  // ---------- fencing ----------

  /** A worker-side step that presents `token` as its lease on `id`. */
  predicate Presents(step: Step, id: Id, token: Id) {
    || (step.Heartbeat? && step.id == id && step.token == token)
    || (step.Complete? && step.id == id && step.token == token)
    || (step.Fail? && step.id == id && step.token == token)
  }

  /** Once a token has been issued and is not the run's current lease, it never is again. */
  lemma {:induction false} StaleTokenStaysStale(s: State, steps: seq<Step>, id: Id, token: Id)
    requires Inv(s) && id in s.runs && token in s.issued && s.runs[id].leaseToken != Some(token)
    ensures id in Exec(s, steps).runs && Exec(s, steps).runs[id].leaseToken != Some(token)
    decreases |steps|
  {
    if steps != [] {
      StepKeepsInv(s, steps[0]);
      StepMovesRow(s, steps[0], id);
      StaleTokenStaysStale(Apply(s, steps[0]), steps[1..], id, token);
    }
  }

  /** Fencing: whatever happens after a lease is lost, a step that still presents it changes nothing. */
  lemma StaleTokenNeverSucceeds(s: State, steps: seq<Step>, id: Id, token: Id, late: Step)
    requires Inv(s) && id in s.runs && token in s.issued && s.runs[id].leaseToken != Some(token)
    requires Presents(late, id, token)
    ensures Apply(Exec(s, steps), late) == Exec(s, steps)
  {
    StaleTokenStaysStale(s, steps, id, token);
  }

  // ---------- termination ----------

  function Rank(status: Status): nat {
    match status
    case Queued => 2
    case Running => 1
    case _ => 0
  }

  /** Lexicographic order on (max_attempts - attempt, rank of the status). */
  predicate Smaller(after: Run, before: Run) {
    || after.maxAttempts - after.attempt < before.maxAttempts - before.attempt
    || (after.maxAttempts - after.attempt == before.maxAttempts - before.attempt && Rank(after.status) < Rank(before.status))
  }

  /** Every status change makes the pair strictly smaller; without one the pair is unchanged. */
  lemma StatusChangesDecrease(s: State, step: Step, id: Id)
    requires Inv(s) && id in s.runs
    ensures var t := Apply(s, step);
            id in t.runs && t.runs[id].maxAttempts == s.runs[id].maxAttempts &&
            if t.runs[id].status != s.runs[id].status then Smaller(t.runs[id], s.runs[id])
            else t.runs[id].attempt == s.runs[id].attempt
  {
    StepMovesRow(s, step, id);
  }

  /** The number of status changes of a run along an execution. */
  function StatusChanges(s: State, steps: seq<Step>, id: Id): nat
    decreases |steps|
  {
    if steps == [] || id !in s.runs || id !in Apply(s, steps[0]).runs then 0
    else
      (if Apply(s, steps[0]).runs[id].status != s.runs[id].status then 1 else 0)
      + StatusChanges(Apply(s, steps[0]), steps[1..], id)
  }

  /** The number of times a run is claimed along an execution. */
  function Claims(s: State, steps: seq<Step>, id: Id): nat
    decreases |steps|
  {
    if steps == [] || id !in s.runs || id !in Apply(s, steps[0]).runs then 0
    else
      (if !s.runs[id].status.Running? && Apply(s, steps[0]).runs[id].status.Running? then 1 else 0)
      + Claims(Apply(s, steps[0]), steps[1..], id)
  }

  function ChangesLeft(r: Run): int {
    if Terminal(r.status) then 0 else 2 * (r.maxAttempts - r.attempt) + Rank(r.status)
  }

  function ClaimsLeft(r: Run): int {
    match r.status
    case Queued => r.maxAttempts - r.attempt + 1
    case Running => r.maxAttempts - r.attempt
    case _ => 0
  }

  lemma {:induction false} ChangesAreBounded(s: State, steps: seq<Step>, id: Id)
    requires Inv(s) && id in s.runs
    ensures id in Exec(s, steps).runs && 0 <= ChangesLeft(Exec(s, steps).runs[id])
    ensures StatusChanges(s, steps, id) + ChangesLeft(Exec(s, steps).runs[id]) <= ChangesLeft(s.runs[id])
    decreases |steps|
  {
    if steps != [] {
      StepKeepsInv(s, steps[0]);
      StepMovesRow(s, steps[0], id);
      ChangesAreBounded(Apply(s, steps[0]), steps[1..], id);
    }
  }

  lemma {:induction false} ClaimsAreBounded(s: State, steps: seq<Step>, id: Id)
    requires Inv(s) && id in s.runs
    ensures id in Exec(s, steps).runs && 0 <= ClaimsLeft(Exec(s, steps).runs[id])
    ensures Claims(s, steps, id) + ClaimsLeft(Exec(s, steps).runs[id]) <= ClaimsLeft(s.runs[id])
    decreases |steps|
  {
    if steps != [] {
      StepKeepsInv(s, steps[0]);
      StepMovesRow(s, steps[0], id);
      ClaimsAreBounded(Apply(s, steps[0]), steps[1..], id);
    }
  }

  /** A queued run at attempt `a` is claimed at most `max_attempts - a + 1` times and changes status
      at most twice that often, over every continuation. */
  lemma QueuedRunIsClaimedBoundedlyOften(s: State, steps: seq<Step>, id: Id)
    requires Inv(s) && id in s.runs && s.runs[id].status.Queued?
    ensures Claims(s, steps, id) <= s.runs[id].maxAttempts - s.runs[id].attempt + 1
    ensures StatusChanges(s, steps, id) <= 2 * (s.runs[id].maxAttempts - s.runs[id].attempt + 1)
  {
    ChangesAreBounded(s, steps, id);
    ClaimsAreBounded(s, steps, id);
  }

  // ---------- retrying and reaping ----------

  function Backoff(attempt: nat): nat { if attempt * attempt < 60 then attempt * attempt else 60 }

  /** A failure is retried exactly when nobody canceled the run, its deadline lies ahead, the budget was not the reason and
      an attempt is left; and then the run can be claimed from the end of its backoff until its deadline and at no other
      time. */
  lemma FailureIsRetriedExactlyWhen(r: Run, code: string, now: Instant, t: Instant)
    requires RowInv(r) && r.status.Running?
    ensures var f := FailRow(r, code, now);
            && (f.status.Queued? <==> r.cancelRequestedAt.None? && now < r.timeoutAt && code != BUDGET_EXCEEDED && r.attempt < r.maxAttempts)
            && (Claimable(f, t) <==> f.status.Queued? && now + Backoff(r.attempt) <= t < r.timeoutAt)
            && (f.status.Canceled? <==> r.cancelRequestedAt.Some?)
            && (f.status.TimedOut? <==> r.cancelRequestedAt.None? && r.timeoutAt <= now)
  {
  }

  predicate Overdue(r: Run, now: Instant) {
    || (r.status.Queued? && r.timeoutAt <= now)
    || (r.status.Running? && (r.timeoutAt <= now || (r.leaseExpiresAt.Some? && r.leaseExpiresAt.value <= now)))
  }

  lemma ReapRowIs(r: Run, now: Instant)
    requires RowInv(r)
    ensures var t := ReapRow(r, now);
            && !Overdue(t, now) && ReapRow(t, now) == t
            && (!Overdue(r, now) ==> t == r)
            && (Overdue(r, now) && t.status.Queued? ==> Claimable(t, now) && t.attempt == r.attempt + 1)
            && (Overdue(r, now) && !t.status.Queued? ==> Terminal(t.status) && t.finishedAt == Some(now))
  {
  }

  /** Reaping ends what is overdue and touches nothing else: afterwards no run is overdue, a run that was requeued can be
      claimed at once, and reaping again at the same time changes nothing. */
  lemma ReapLeavesNothingOverdue(s: State, now: Instant, id: Id)
    requires Inv(s) && id in s.runs
    ensures var t := Apply(s, Step.Reap(now));
            && id in t.runs && !Overdue(t.runs[id], now)
            && (!Overdue(s.runs[id], now) ==> t.runs[id] == s.runs[id])
            && (Overdue(s.runs[id], now) && t.runs[id].status.Queued? ==> Claimable(t.runs[id], now) && t.runs[id].attempt == s.runs[id].attempt + 1)
            && (Overdue(s.runs[id], now) && !t.runs[id].status.Queued? ==> Terminal(t.runs[id].status) && t.runs[id].finishedAt == Some(now))
            && Apply(t, Step.Reap(now)) == t
  {
    ReapRowIs(s.runs[id], now);
    forall k | k in s.runs ensures ReapRow(ReapRow(s.runs[k], now), now) == ReapRow(s.runs[k], now) { ReapRowIs(s.runs[k], now); }
    var t := Apply(s, Step.Reap(now));
    assert Apply(t, Step.Reap(now)).runs == t.runs;
  }

  // ---------- cancellation ----------

  /** Once cancellation is requested the run is never claimed or requeued again, keeps its attempt,
      and the only terminal status it can reach is `canceled`. */
  lemma {:induction false} CancellationIsFinal(s: State, steps: seq<Step>, id: Id)
    requires Inv(s) && id in s.runs && s.runs[id].cancelRequestedAt.Some? && !Terminal(s.runs[id].status)
    ensures var t := Exec(s, steps);
            && id in t.runs && t.runs[id].cancelRequestedAt.Some?
            && (t.runs[id].status.Running? || t.runs[id].status.Canceled?)
            && t.runs[id].attempt == s.runs[id].attempt
            && (t.runs[id].status.Running? ==> t.runs[id].leaseToken == s.runs[id].leaseToken)
    ensures Claims(s, steps, id) == 0
    decreases |steps|
  {
    if steps != [] {
      var t := Apply(s, steps[0]);
      StepKeepsInv(s, steps[0]);
      StepMovesRow(s, steps[0], id);
      assert s.runs[id].status.Running?;
      if t.runs[id].status.Canceled? {
        TerminalRunsAreFrozen(t, steps[1..], id);
        TerminalRunsAreNeverClaimed(t, steps[1..], id);
      } else {
        CancellationIsFinal(t, steps[1..], id);
      }
    }
  }

  lemma {:induction false} TerminalRunsAreNeverClaimed(s: State, steps: seq<Step>, id: Id)
    requires Inv(s) && id in s.runs && Terminal(s.runs[id].status)
    ensures Claims(s, steps, id) == 0
  {
    ClaimsAreBounded(s, steps, id);
  }
}
