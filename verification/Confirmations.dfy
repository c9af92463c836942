/**
 * Human confirmation of write tools (core/internal/agenttool/executor.go), when confirmation is required.  The decision
 * is one transaction; running the tool and recording its outcome come after it, in the process that approved.
 */
module Confirmations {
  import opened Collections

  type Id = nat

  datatype Status = Pending | Approved | Denied | Completed | Failed | Expired

  /** What a confirmation is about; it is fixed when the row is inserted. */
  datatype Subject = Subject(agent: Id, run: Id, toolCall: Id, correlation: Id, tool: string, scope: string, arguments: string)

  datatype Row = Row(subject: Subject, status: Status, expiresAt: int, decidedBy: Option<Id>)

  /** What the approving process still has to do: run the tool, or record how that ended. */
  datatype Work = ToRun(subject: Subject, scopes: set<string>) | ToRecord(succeeded: bool)

  /** The rows, the live agents with their scopes, the work in progress, and every handler run so far. */
  datatype State = State(rows: map<Id, Row>, agents: map<Id, set<string>>, work: map<Id, Work>, handled: seq<(Id, Subject)>)

  const LIFETIME: int := 86_400

  /** The registered write tools with the scope each requires, and the argument check. */
  datatype Registry = Registry(scopeOf: map<string, string>, accepts: (string, string) -> bool)

  datatype Step =
    | Request(subject: Subject, newId: Id, now: int)
    | ExpireDue(now: int)
    | Decide(id: Id, approve: bool, admin: Id, now: int)
    | RunTool(id: Id, started: bool, succeeded: bool)
    | Record(id: Id)
    | Crash(id: Id)
    | DeleteAgent(agent: Id)

  // ---------- the steps ----------

  predicate SameCall(a: Subject, b: Subject) { a.run == b.run && a.toolCall == b.toolCall }

  predicate Unused(rows: map<Id, Row>, s: Subject) { forall id :: id in rows ==> !SameCall(rows[id].subject, s) }

  /** `INSERT ... ON CONFLICT DO NOTHING`; every later check that fails rolls the transaction back. */
  function RequestRow(s: State, subject: Subject, newId: Id, now: int): State {
    if newId !in s.rows && Unused(s.rows, subject) then s.(rows := s.rows[newId := Row(subject, Pending, now + LIFETIME, None)])
    else s
  }

  function Lapsed(row: Row, now: int): Row {
    if row.status == Pending && row.expiresAt <= now then row.(status := Expired) else row
  }

  function Expire(s: State, now: int): State {
    s.(rows := map id | id in s.rows :: Lapsed(s.rows[id], now))
  }

  /** The decision transaction. */
  function DecideRow(s: State, id: Id, approve: bool, admin: Id, now: int): State {
    if id !in s.rows || s.rows[id].subject.agent !in s.agents then s
    else
      var row := s.rows[id];
      if row.status != Pending || row.expiresAt <= now then s.(rows := s.rows[id := Lapsed(row, now)])
      else if approve then
        s.(rows := s.rows[id := row.(status := Approved, decidedBy := Some(admin))],
           work := s.work[id := ToRun(row.subject, s.agents[row.subject.agent])])
      else s.(rows := s.rows[id := row.(status := Denied, decidedBy := Some(admin))])
  }

  predicate MayRun(r: Registry, subject: Subject, scopes: set<string>) {
    && subject.tool in r.scopeOf && r.scopeOf[subject.tool] in scopes && r.scopeOf[subject.tool] == subject.scope
    && r.accepts(subject.tool, subject.arguments)
  }

  /** The approving process runs the tool, unless the tool is gone, not allowed any more or cannot be started. */
  function Run(r: Registry, s: State, id: Id, started: bool, succeeded: bool): State {
    if id !in s.work || !s.work[id].ToRun? then s
    else
      var ToRun(subject, scopes) := s.work[id];
      if !MayRun(r, subject, scopes) || !started then s.(work := s.work[id := ToRecord(false)])
      else s.(work := s.work[id := ToRecord(succeeded)], handled := s.handled + [(id, subject)])
  }

  function RecordOutcome(s: State, id: Id): State {
    if id !in s.work || !s.work[id].ToRecord? then s
    else
      var succeeded := s.work[id].succeeded;
      var rest := s.(work := s.work - {id});
      if id in s.rows && s.rows[id].status == Approved
      then rest.(rows := s.rows[id := s.rows[id].(status := if succeeded then Completed else Failed)])
      else rest
  }

  function Denial(row: Row, agent: Id): Row {
    if row.subject.agent == agent && row.status == Pending then row.(status := Denied) else row
  }

  function Delete(s: State, agent: Id): State {
    s.(rows := map id | id in s.rows :: Denial(s.rows[id], agent), agents := s.agents - {agent})
  }

  function Next(r: Registry, s: State, step: Step): State {
    match step
    case Request(subject, newId, now) => RequestRow(s, subject, newId, now)
    case ExpireDue(now) => Expire(s, now)
    case Decide(id, approve, admin, now) => DecideRow(s, id, approve, admin, now)
    case RunTool(id, started, succeeded) => Run(r, s, id, started, succeeded)
    case Record(id) => RecordOutcome(s, id)
    case Crash(id) => s.(work := s.work - {id})
    case DeleteAgent(agent) => Delete(s, agent)
  }

  function Exec(r: Registry, s: State, steps: seq<Step>): State
    decreases |steps|
  {
    if steps == [] then s else Exec(r, Next(r, s, steps[0]), steps[1..])
  }

  // ---------- invariants ----------

  predicate OneRowPerCall(rows: map<Id, Row>) {
    forall i, j :: i in rows && j in rows && SameCall(rows[i].subject, rows[j].subject) ==> i == j
  }

  /** Work is only done for approved rows, with the subject of the row. */
  predicate WorkIsApproved(s: State) {
    forall id :: id in s.work ==>
      id in s.rows && s.rows[id].status == Approved && (s.work[id].ToRun? ==> s.work[id].subject == s.rows[id].subject)
  }

  /** Every handler run was approved, by someone, with exactly the tool and the arguments it got. */
  predicate HandledIsApproved(s: State) {
    forall i :: 0 <= i < |s.handled| ==>
      var (id, subject) := s.handled[i];
      && id in s.rows && s.rows[id].subject == subject && s.rows[id].decidedBy.Some?
      && Decided(s.rows[id].status)
      && (id in s.work ==> s.work[id].ToRecord?)
  }

  predicate HandledOnce(s: State) {
    forall i, j :: 0 <= i < j < |s.handled| ==> s.handled[i].0 != s.handled[j].0
  }

  predicate Decided(status: Status) { status == Approved || status == Completed || status == Failed }

  predicate DecidedBySomeone(s: State) {
    forall id :: id in s.rows ==>
      && (Decided(s.rows[id].status) ==> s.rows[id].decidedBy.Some?)
      && (s.rows[id].status == Pending ==> s.rows[id].decidedBy.None?)
  }

  predicate Inv(s: State) {
    OneRowPerCall(s.rows) && WorkIsApproved(s) && HandledIsApproved(s) && HandledOnce(s) && DecidedBySomeone(s)
  }

  // ---------- how rows move ----------

  predicate Allowed(a: Status, b: Status) {
    || (a == Pending && (b == Approved || b == Denied || b == Expired))
    || (a == Approved && (b == Completed || b == Failed))
  }

  /** How one row may change in one step: what it is about never does. */
  predicate Moves(a: Row, b: Row) {
    && a.subject == b.subject && a.expiresAt == b.expiresAt
    && (a.status == b.status ==> a == b)
    && (a.status != b.status ==> Allowed(a.status, b.status))
    && (a.decidedBy.Some? ==> b.decidedBy == a.decidedBy)
    && (b.status == Approved ==> a.status == Approved || b.decidedBy.Some?)
  }

  lemma StepMovesRow(r: Registry, s: State, step: Step, id: Id)
    requires DecidedBySomeone(s) && id in s.rows
    ensures id in Next(r, s, step).rows && Moves(s.rows[id], Next(r, s, step).rows[id])
  {
  }

  /** Only a decision approves, only while the row is pending and not expired, and only for an agent that exists. */
  lemma OnlyDecisionApproves(r: Registry, s: State, step: Step, id: Id)
    requires DecidedBySomeone(s) && id in s.rows && s.rows[id].status != Approved
    ensures Next(r, s, step).rows[id].status == Approved <==>
              && step.Decide? && step.id == id && step.approve && step.now < s.rows[id].expiresAt
              && s.rows[id].status == Pending && s.rows[id].subject.agent in s.agents
  {
  }

  /** New rows are pending and are about calls that have no row. */
  lemma NewRowsArePending(r: Registry, s: State, step: Step, id: Id)
    requires id !in s.rows && id in Next(r, s, step).rows
    ensures var row := Next(r, s, step).rows[id];
            row.status == Pending && row.decidedBy.None? && Unused(s.rows, row.subject)
  {
  }

  /** Work goes from running the tool to recording its outcome, and starts only with an approval. */
  lemma StepMovesWork(r: Registry, s: State, step: Step, id: Id)
    requires id in Next(r, s, step).work
    ensures var w := Next(r, s, step).work[id];
            || (id in s.work && s.work[id] == w)
            || (id in s.work && s.work[id].ToRun? && w.ToRecord? && step.RunTool? && step.id == id)
            || (w.ToRun? && id in s.rows && s.rows[id].status == Pending && Next(r, s, step).rows[id].status == Approved
                && w.subject == s.rows[id].subject)
  {
  }

  /** An approved row stays approved while its work is going on. */
  lemma WorkKeepsRow(r: Registry, s: State, step: Step, id: Id)
    requires WorkIsApproved(s) && DecidedBySomeone(s) && id in s.work && id in Next(r, s, step).work
    ensures Next(r, s, step).rows[id].status == Approved && Next(r, s, step).rows[id].subject == s.rows[id].subject
  {
  }

  lemma StepKeepsDecided(r: Registry, s: State, step: Step)
    requires DecidedBySomeone(s)
    ensures DecidedBySomeone(Next(r, s, step))
  {
    var t := Next(r, s, step);
    forall id | id in t.rows
      ensures (Decided(t.rows[id].status) ==> t.rows[id].decidedBy.Some?) && (t.rows[id].status == Pending ==> t.rows[id].decidedBy.None?)
    {
      if id in s.rows { StepMovesRow(r, s, step, id); } else { NewRowsArePending(r, s, step, id); }
    }
  }

  /** Two rows about one call: at most one of them can be new, and a new one is about a call without a row. */
  lemma NoSecondRow(r: Registry, s: State, step: Step, i: Id, j: Id)
    requires OneRowPerCall(s.rows) && DecidedBySomeone(s)
    requires i in Next(r, s, step).rows && j in Next(r, s, step).rows
    requires SameCall(Next(r, s, step).rows[i].subject, Next(r, s, step).rows[j].subject)
    ensures i == j || (i !in s.rows && j !in s.rows)
  {
    if i in s.rows { StepMovesRow(r, s, step, i); } else { NewRowsArePending(r, s, step, i); }
    if j in s.rows { StepMovesRow(r, s, step, j); } else { NewRowsArePending(r, s, step, j); }
  }

  lemma OneNewRow(r: Registry, s: State, step: Step, i: Id, j: Id)
    requires i in Next(r, s, step).rows && j in Next(r, s, step).rows && i !in s.rows && j !in s.rows
    ensures i == j
  {
  }

  lemma StepKeepsRows(r: Registry, s: State, step: Step)
    requires OneRowPerCall(s.rows) && DecidedBySomeone(s)
    ensures OneRowPerCall(Next(r, s, step).rows)
  {
    var rows := Next(r, s, step).rows;
    forall i, j | i in rows && j in rows && SameCall(rows[i].subject, rows[j].subject) ensures i == j {
      NoSecondRow(r, s, step, i, j);
      if i !in s.rows && j !in s.rows { OneNewRow(r, s, step, i, j); }
    }
  }

  lemma StepKeepsWork(r: Registry, s: State, step: Step)
    requires Inv(s)
    ensures WorkIsApproved(Next(r, s, step))
  {
    var t := Next(r, s, step);
    forall id | id in t.work
      ensures id in t.rows && t.rows[id].status == Approved && (t.work[id].ToRun? ==> t.work[id].subject == t.rows[id].subject)
    {
      StepMovesWork(r, s, step, id);
      StepMovesRow(r, s, step, id);
      if id in s.work { WorkKeepsRow(r, s, step, id); }
    }
  }

  /** A step runs at most one handler, the one that was waiting to be run. */
  lemma StepHandles(r: Registry, s: State, step: Step)
    ensures var t := Next(r, s, step);
            || t.handled == s.handled
            || (step.RunTool? && step.id in s.work && s.work[step.id].ToRun? && MayRun(r, s.work[step.id].subject, s.work[step.id].scopes)
                && t.handled == s.handled + [(step.id, s.work[step.id].subject)] && step.id in t.work && t.work[step.id].ToRecord?)
  {
  }

  lemma OldEntryStays(r: Registry, s: State, step: Step, i: nat)
    requires Inv(s) && i < |s.handled|
    ensures var t := Next(r, s, step);
            var (id, subject) := s.handled[i];
            && id in t.rows && t.rows[id].subject == subject && t.rows[id].decidedBy.Some? && Decided(t.rows[id].status)
            && (id in t.work ==> t.work[id].ToRecord?)
  {
    var id := s.handled[i].0;
    StepMovesRow(r, s, step, id);
    if id in Next(r, s, step).work { StepMovesWork(r, s, step, id); }
  }

  lemma StepKeepsHandled(r: Registry, s: State, step: Step)
    requires Inv(s)
    ensures HandledIsApproved(Next(r, s, step)) && HandledOnce(Next(r, s, step))
  {
    var t := Next(r, s, step);
    StepHandles(r, s, step);
    forall i: nat | i < |s.handled|
      ensures var (id, subject) := s.handled[i];
              && id in t.rows && t.rows[id].subject == subject && t.rows[id].decidedBy.Some? && Decided(t.rows[id].status)
              && (id in t.work ==> t.work[id].ToRecord?)
    {
      OldEntryStays(r, s, step, i);
    }
    if t.handled != s.handled { StepMovesRow(r, s, step, step.id); }
  }

  lemma StepKeepsInv(r: Registry, s: State, step: Step)
    requires Inv(s)
    ensures Inv(Next(r, s, step))
  {
    StepKeepsRows(r, s, step);
    StepKeepsDecided(r, s, step);
    StepKeepsWork(r, s, step);
    StepKeepsHandled(r, s, step);
  }

  lemma {:induction false} ExecKeepsInv(r: Registry, s: State, steps: seq<Step>)
    requires Inv(s)
    ensures Inv(Exec(r, s, steps))
    decreases |steps|
  {
    if steps != [] {
      StepKeepsInv(r, s, steps[0]);
      ExecKeepsInv(r, Next(r, s, steps[0]), steps[1..]);
    }
  }

  // ---------- the main results ----------

  function Initial(agents: map<Id, set<string>>): State { State(map[], agents, map[], []) }

  /** Over every interleaving of requests, decisions, expiry, tool runs, records, crashes and agent deletions: at most
      one handler run for each run and tool call. */
  lemma HandlerRunsAtMostOnce(r: Registry, agents: map<Id, set<string>>, steps: seq<Step>, i: nat, j: nat)
    requires i < j < |Exec(r, Initial(agents), steps).handled|
    ensures var t := Exec(r, Initial(agents), steps);
            !SameCall(t.handled[i].1, t.handled[j].1)
  {
    ExecKeepsInv(r, Initial(agents), steps);
  }

  /** And each was approved by someone, for exactly the tool and the arguments that ran. */
  lemma HandlerRunsWhatWasApproved(r: Registry, agents: map<Id, set<string>>, steps: seq<Step>, i: nat)
    requires i < |Exec(r, Initial(agents), steps).handled|
    ensures var t := Exec(r, Initial(agents), steps);
            var (id, subject) := t.handled[i];
            && id in t.rows && t.rows[id].subject.tool == subject.tool && t.rows[id].subject.arguments == subject.arguments
            && t.rows[id].decidedBy.Some? && Decided(t.rows[id].status)
  {
    ExecKeepsInv(r, Initial(agents), steps);
  }

  ghost predicate Permitted(r: Registry, subject: Subject) {
    subject.tool in r.scopeOf && r.scopeOf[subject.tool] == subject.scope && r.accepts(subject.tool, subject.arguments)
  }

  /** And each is registered, with the scope that the request named and arguments that its schema accepts. */
  lemma {:induction false} HandlersArePermitted(r: Registry, s: State, steps: seq<Step>)
    requires forall i :: 0 <= i < |s.handled| ==> Permitted(r, s.handled[i].1)
    ensures var t := Exec(r, s, steps);
            s.handled <= t.handled && forall i :: 0 <= i < |t.handled| ==> Permitted(r, t.handled[i].1)
    decreases |steps|
  {
    if steps != [] {
      StepHandles(r, s, steps[0]);
      HandlersArePermitted(r, Next(r, s, steps[0]), steps[1..]);
    }
  }

  function Rank(status: Status): nat {
    if status == Pending then 0 else if status == Approved then 1 else 2
  }

  ghost predicate Forward(a: Row, b: Row) {
    && a.subject == b.subject && Rank(a.status) <= Rank(b.status)
    && (Rank(a.status) == Rank(b.status) ==> a == b)
    && (a.status == Denied || a.status == Expired ==> a == b)
  }

  lemma ForwardJoins(a: Row, b: Row, c: Row)
    requires Moves(a, b) && Forward(b, c)
    ensures Forward(a, c)
  {
  }

  /** What a row is about never changes, its status only moves forward, and final statuses are final. */
  lemma {:induction false} RowsOnlyMoveForward(r: Registry, s: State, steps: seq<Step>, id: Id)
    requires DecidedBySomeone(s) && id in s.rows
    ensures id in Exec(r, s, steps).rows && Forward(s.rows[id], Exec(r, s, steps).rows[id])
    decreases |steps|
  {
    if steps != [] {
      var n := Next(r, s, steps[0]);
      StepMovesRow(r, s, steps[0], id);
      StepKeepsDecided(r, s, steps[0]);
      RowsOnlyMoveForward(r, n, steps[1..], id);
      ForwardJoins(s.rows[id], n.rows[id], Exec(r, n, steps[1..]).rows[id]);
    }
  }

  /** An approval whose process died before recording the outcome stays approved for ever: nothing resumes it, expires
      it or denies it, not even the deletion of its agent. */
  lemma {:induction false} AbandonedApprovalStays(r: Registry, s: State, steps: seq<Step>, id: Id)
    requires id in s.rows && s.rows[id].status == Approved && id !in s.work
    ensures id in Exec(r, s, steps).rows && Exec(r, s, steps).rows[id] == s.rows[id] && id !in Exec(r, s, steps).work
    decreases |steps|
  {
    if steps != [] { AbandonedApprovalStays(r, Next(r, s, steps[0]), steps[1..], id); }
  }

  ghost predicate EndsIn(r: Registry, s: State, steps: seq<Step>, id: Id) {
    var t := Exec(r, s, steps);
    id in t.rows && (t.rows[id].status == Completed || t.rows[id].status == Failed)
  }

  lemma WorkCanEnd(r: Registry, s: State, id: Id)
    requires id in s.rows && s.rows[id].status == Approved && id in s.work
    ensures EndsIn(r, s, [RunTool(id, true, true), Record(id)], id)
  {
    var steps := [RunTool(id, true, true), Record(id)];
    var ran := Next(r, s, RunTool(id, true, true));
    assert ran.work[id].ToRecord? && ran.rows == s.rows;
    assert steps[1..] == [Record(id)] && [Record(id)][1..] == [];
    assert Exec(r, s, steps) == Exec(r, ran, [Record(id)]) == Next(r, ran, Record(id));
  }

  /** An approved row can still end completed or failed if and only if a process is still at work on it. */
  lemma ApprovalCanEndExactlyWhen(r: Registry, s: State, id: Id)
    requires id in s.rows && s.rows[id].status == Approved
    ensures (exists steps :: EndsIn(r, s, steps, id)) <==> id in s.work
  {
    if id in s.work {
      WorkCanEnd(r, s, id);
    } else {
      forall steps ensures !EndsIn(r, s, steps, id) { AbandonedApprovalStays(r, s, steps, id); }
    }
  }

  /** A process that dies right after it approved leaves such a row: requested, approved, and without an end whatever
      happens next. */
  lemma CrashAbandonsApproval(r: Registry, agents: map<Id, set<string>>, subject: Subject, newId: Id, admin: Id, now: int, steps: seq<Step>)
    requires subject.agent in agents
    ensures var t := Exec(r, Initial(agents), [Request(subject, newId, now), Decide(newId, true, admin, now), Crash(newId)]);
            && newId in t.rows && t.rows[newId] == Row(subject, Approved, now + LIFETIME, Some(admin)) && newId !in t.work
            && newId in Exec(r, t, steps).rows && Exec(r, t, steps).rows[newId].status == Approved
  {
    var request, decide, crash := Request(subject, newId, now), Decide(newId, true, admin, now), Crash(newId);
    var a := Next(r, Initial(agents), request);
    assert a.rows[newId] == Row(subject, Pending, now + LIFETIME, None);
    var b := Next(r, a, decide);
    var c := Next(r, b, crash);
    assert [request, decide, crash][1..] == [decide, crash] && [decide, crash][1..] == [crash] && [crash][1..] == [];
    assert Exec(r, b, [crash]) == c && Exec(r, a, [decide, crash]) == c && Exec(r, Initial(agents), [request, decide, crash]) == c;
    AbandonedApprovalStays(r, c, steps, newId);
  }
}
