/** The executor's confirmation operations on the rows they update (core/internal/agenttool/executor.go). */
module ConfirmationService {
  import opened Collections
  import opened Confirmations

  datatype Answer = Waiting(id: Id) | Conflict | NotFound | Refused | Finished(status: Status)

  const PAGE: nat := 200

  function OfStatus(rows: map<Id, Row>, status: Option<Status>): set<Id> {
    set id | id in rows && (status.None? || rows[id].status == status.value)
  }

  /** Different rows of a set, none later than the one before it, and what is left out is not later than any of them. */
  ghost predicate IsLatestFirst(rows: map<Id, Row>, listed: seq<Id>, all: set<Id>)
    requires all <= rows.Keys
  {
    && (forall i :: 0 <= i < |listed| ==> listed[i] in all)
    && (forall i, j :: 0 <= i < j < |listed| ==> listed[i] != listed[j] && rows[listed[j]].expiresAt <= rows[listed[i]].expiresAt)
    && (forall i, id :: 0 <= i < |listed| && id in all && id !in listed ==> rows[id].expiresAt <= rows[listed[i]].expiresAt)
  }

  lemma {:induction false} LatestExists(rows: map<Id, Row>, ids: set<Id>)
    requires ids != {} && ids <= rows.Keys
    ensures exists id :: id in ids && forall j :: j in ids ==> rows[j].expiresAt <= rows[id].expiresAt
    decreases |ids|
  {
    var id :| id in ids;
    if ids != {id} {
      LatestExists(rows, ids - {id});
      var other :| other in ids - {id} && forall j :: j in ids - {id} ==> rows[j].expiresAt <= rows[other].expiresAt;
      var latest := if rows[id].expiresAt <= rows[other].expiresAt then other else id;
      assert forall j :: j in ids ==> j == id || j in ids - {id};
      assert latest in ids && forall j :: j in ids ==> rows[j].expiresAt <= rows[latest].expiresAt;
    }
  }

  /** The two parts of a set. */
  ghost predicate Parts(listed: seq<Id>, rest: set<Id>, all: set<Id>) {
    forall k :: (k in all <==> k in listed || k in rest) && !(k in listed && k in rest)
  }

  lemma LatestFirstSnoc(rows: map<Id, Row>, listed: seq<Id>, all: set<Id>, rest: set<Id>, id: Id)
    requires all <= rows.Keys && IsLatestFirst(rows, listed, all) && Parts(listed, rest, all)
    requires id in rest && forall j :: j in rest ==> rows[j].expiresAt <= rows[id].expiresAt
    ensures IsLatestFirst(rows, listed + [id], all) && Parts(listed + [id], rest - {id}, all)
  {
    var more := listed + [id];
    forall k ensures k in more <==> k in listed || k == id {
      if k in listed { var n :| 0 <= n < |listed| && listed[n] == k; assert more[n] == k; }
      assert more[|listed|] == id;
    }
  }

  /** A row that is about the same call in everything, and can still be decided. */
  predicate Awaits(row: Row, subject: Subject, now: int) {
    && SameCall(row.subject, subject) && row.subject.tool == subject.tool && row.subject.correlation == subject.correlation
    && row.subject.arguments == subject.arguments && row.status == Pending && now < row.expiresAt
  }

  /** A pending, unexpired row of an agent that exists. */
  predicate Decidable(s: State, id: Id, now: int) {
    id in s.rows && s.rows[id].status == Pending && now < s.rows[id].expiresAt && s.rows[id].subject.agent in s.agents
  }

  /** The tool of a row is registered, allowed to its agent now, and accepts the arguments. */
  predicate Runnable(r: Registry, s: State, id: Id) {
    id in s.rows && s.rows[id].subject.agent in s.agents && MayRun(r, s.rows[id].subject, s.agents[s.rows[id].subject.agent])
  }

  lemma DecisionKeepsInv(r: Registry, s: State, id: Id, approve: bool, admin: Id, now: int, started: bool, succeeded: bool)
    requires Inv(s)
    ensures var d := Next(r, s, Decide(id, approve, admin, now));
            Inv(d) && Inv(Next(r, Next(r, d, RunTool(id, started, succeeded)), Record(id)))
  {
    StepKeepsInv(r, s, Decide(id, approve, admin, now));
    var d := Next(r, s, Decide(id, approve, admin, now));
    StepKeepsInv(r, d, RunTool(id, started, succeeded));
    StepKeepsInv(r, Next(r, d, RunTool(id, started, succeeded)), Record(id));
  }

  class ToolExecutor {
    const registry: Registry
    var rows: map<Id, Row>
    var agents: map<Id, set<string>>
    var work: map<Id, Work>
    var handled: seq<(Id, Subject)>

    ghost function Table(): State reads this { State(rows, agents, work, handled) }

    constructor (registry: Registry, agents: map<Id, set<string>>)
      ensures this.registry == registry && Table() == Initial(agents) && Inv(Table())
    {
      this.registry := registry;
      this.agents := agents;
      rows, work, handled := map[], map[], [];
    }

    /** The row for a call, if it has one. */
    method Find(subject: Subject) returns (found: Option<Id>)
      ensures found.Some? ==> found.value in rows && SameCall(rows[found.value].subject, subject)
      ensures found.None? ==> Unused(rows, subject)
    {
      var ids := rows.Keys;
      found := None;
      while ids != {}
        invariant ids <= rows.Keys && forall id :: id in rows && id !in ids ==> !SameCall(rows[id].subject, subject)
      {
        var id :| id in ids;
        if SameCall(rows[id].subject, subject) {
          return Some(id);
        }
        ids := ids - {id};
      }
    }

    /** Asking for a confirmation succeeds exactly for a call without a row, or with one that is about the same and still
        pending: a repeated request gets that row, and every other one is refused without a trace. */
    method RequestConfirmation(subject: Subject, newId: Id, now: int) returns (answer: Answer)
      requires Inv(Table()) && newId !in rows
      modifies this`rows
      ensures Inv(Table()) && Table() == Next(registry, old(Table()), Request(subject, newId, now))
      ensures answer.Waiting? <==> Unused(old(rows), subject) || exists id :: id in old(rows) && Awaits(old(rows)[id], subject, now)
      ensures answer.Waiting? ==> answer.id in rows && Awaits(rows[answer.id], subject, now)
      ensures answer.Waiting? || (answer == Conflict && rows == old(rows))
    {
      StepKeepsInv(registry, Table(), Request(subject, newId, now));
      var found := Find(subject);
      if found.None? {
        rows := rows[newId := Row(subject, Pending, now + LIFETIME, None)];
        return Waiting(newId);
      }
      var row := rows[found.value];
      assert forall id :: id in rows && Awaits(rows[id], subject, now) ==> id == found.value;
      if row.subject.tool != subject.tool || row.subject.correlation != subject.correlation || row.subject.arguments != subject.arguments {
        return Conflict;
      }
      if row.status != Pending || row.expiresAt <= now {
        return Conflict;
      }
      answer := Waiting(found.value);
    }

    /** Listing expires what is due first, and then gives at most 200 rows of a status, the latest requests first.  All rows
        live equally long, so they expire in the order in which they were requested. */
    method ListConfirmations(status: Option<Status>, now: int) returns (listed: seq<Id>)
      modifies this`rows
      ensures Table() == Next(registry, old(Table()), ExpireDue(now))
      ensures forall id :: id in rows && rows[id].status == Pending ==> now < rows[id].expiresAt
      ensures |listed| == if |OfStatus(rows, status)| < PAGE then |OfStatus(rows, status)| else PAGE
      ensures IsLatestFirst(rows, listed, OfStatus(rows, status))
    {
      rows := map id | id in rows :: Lapsed(rows[id], now);
      var rest := OfStatus(rows, status);
      ghost var all := rest;
      listed := [];
      while rest != {} && |listed| < PAGE
        invariant Table() == Next(registry, old(Table()), ExpireDue(now)) && all == OfStatus(rows, status)
        invariant rest <= all <= rows.Keys && |listed| + |rest| == |all| && |listed| <= PAGE
        invariant IsLatestFirst(rows, listed, all) && Parts(listed, rest, all)
        decreases rest
      {
        LatestExists(rows, rest);
        var id :| id in rest && forall j :: j in rest ==> rows[j].expiresAt <= rows[id].expiresAt;
        LatestFirstSnoc(rows, listed, all, rest, id);
        listed, rest := listed + [id], rest - {id};
      }
    }

    /** The decision transaction. */
    method Resolve(id: Id, approve: bool, admin: Id, now: int) returns (answer: Answer)
      modifies this`rows, this`work
      ensures Table() == Next(registry, old(Table()), Step.Decide(id, approve, admin, now))
      ensures answer.Waiting? <==> approve && Decidable(old(Table()), id, now)
      ensures answer == Refused <==> !approve && Decidable(old(Table()), id, now)
      ensures answer.Waiting? ==> answer == Waiting(id) && id in rows && rows[id].status == Approved && id in work && work[id].ToRun?
      ensures answer == NotFound <==> id !in old(rows) || old(rows[id]).subject.agent !in agents
      ensures answer == Refused ==> id in rows && rows[id].status == Denied
      ensures !answer.Finished?
    {
      if id !in rows || rows[id].subject.agent !in agents {
        return NotFound;
      }
      var row := rows[id];
      if row.status != Pending || row.expiresAt <= now {
        if row.status == Pending {
          rows := rows[id := row.(status := Expired)];
        }
        return Conflict;
      }
      rows := rows[id := row.(status := if approve then Approved else Denied, decidedBy := Some(admin))];
      if !approve {
        return Refused;
      }
      work := work[id := ToRun(row.subject, agents[row.subject.agent])];
      answer := Waiting(id);
    }

    method Execute(id: Id, started: bool, succeeded: bool)
      requires id in work && work[id].ToRun?
      modifies this`work, this`handled
      ensures Table() == Next(registry, old(Table()), RunTool(id, started, succeeded))
      ensures id in work && work[id].ToRecord?
    {
      var ToRun(subject, scopes) := work[id];
      if subject.tool !in registry.scopeOf || registry.scopeOf[subject.tool] !in scopes || registry.scopeOf[subject.tool] != subject.scope {
        work := work[id := ToRecord(false)];
        return;
      }
      if !registry.accepts(subject.tool, subject.arguments) || !started {
        work := work[id := ToRecord(false)];
        return;
      }
      handled := handled + [(id, subject)];
      work := work[id := ToRecord(succeeded)];
    }

    method FinishConfirmation(id: Id)
      requires id in work && work[id].ToRecord?
      modifies this`rows, this`work
      ensures Table() == Next(registry, old(Table()), Record(id))
    {
      var succeeded := work[id].succeeded;
      work := work - {id};
      if id in rows && rows[id].status == Approved {
        rows := rows[id := rows[id].(status := if succeeded then Completed else Failed)];
      }
    }

    /** Deciding when nothing comes in between: an approval of a row that can be decided always ends, completed exactly if the
        tool may run, is started and succeeds; the handler runs exactly when it may and is started. */
    method DecideConfirmation(id: Id, approve: bool, admin: Id, now: int, started: bool, succeeded: bool) returns (answer: Answer)
      requires Inv(Table())
      modifies this`rows, this`work, this`handled
      ensures Inv(Table())
      ensures Table() == if approve && Decidable(old(Table()), id, now)
                         then Next(registry, Next(registry, Next(registry, old(Table()), Step.Decide(id, approve, admin, now)),
                                                  RunTool(id, started, succeeded)), Record(id))
                         else Next(registry, old(Table()), Step.Decide(id, approve, admin, now))
      ensures answer.Finished? <==> approve && Decidable(old(Table()), id, now)
      ensures answer == Refused <==> !approve && Decidable(old(Table()), id, now)
      ensures answer == NotFound <==> id !in old(rows) || old(rows[id]).subject.agent !in agents
      ensures answer == Finished(Completed) <==>
                approve && Decidable(old(Table()), id, now) && Runnable(registry, old(Table()), id) && started && succeeded
      ensures answer.Finished? ==> id in rows && rows[id].status == answer.status && (answer.status == Completed || answer.status == Failed)
      ensures handled == old(handled) + if approve && Decidable(old(Table()), id, now) && Runnable(registry, old(Table()), id) && started
                                        then [(id, old(rows[id]).subject)] else []
      ensures !answer.Waiting?
    {
      DecisionKeepsInv(registry, Table(), id, approve, admin, now, started, succeeded);
      answer := Resolve(id, approve, admin, now);
      if !answer.Waiting? {
        return;
      }
      Execute(id, started, succeeded);
      FinishConfirmation(id);
      answer := Finished(rows[id].status);
    }

    method DeleteAgent(agent: Id)
      modifies this`rows, this`agents
      ensures Table() == Next(registry, old(Table()), Step.DeleteAgent(agent))
    {
      rows := map id | id in rows :: Denial(rows[id], agent);
      agents := agents - {agent};
    }
  }
}
