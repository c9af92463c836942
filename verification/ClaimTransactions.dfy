/**
 * Claiming by many workers at once (core/internal/agentrun/service.go, `claim`): every statement of a
 * claim transaction is a step of its own, and any number of transactions interleave with each other and
 * with every other transaction of the service.  Row locks taken with SKIP LOCKED and advisory locks are
 * held until the transaction ends; each statement sees what was committed before it.
 */
module ClaimTransactions {
  import opened Collections
  import opened AgentRuns
  import opened RunQueueService

  /** The advisory lock of an agent and chat (any hash, colliding or not), and the fixed limits. */
  datatype Config = Config(key: (Id, Option<Id>) -> int, limit: Id -> nat)

  /** A claim transaction: the rows its query locked, the candidate it is at, and whether that candidate
      passed the capacity check.  `now()` is fixed when the transaction begins. */
  datatype Tx = Tx(items: seq<Id>, next: nat, admitted: bool, now: Instant)

  datatype Sys = Sys(table: State, txs: map<Id, Tx>, rowLocks: map<Id, Id>, keyLocks: map<int, Id>)

  datatype Action =
    | Select(tx: Id, items: seq<Id>, now: Instant)
    | TakeKey(tx: Id)
    | Check(tx: Id)
    | Commit(tx: Id, token: Id, expires: Instant)
    | End(tx: Id)
    | Other(step: Step)

  predicate Distinct(s: seq<Id>) { forall i, j :: 0 <= i < j < |s| ==> s[i] != s[j] }

  function Chat(s: Sys, tx: Id): (Id, Option<Id>)
    requires tx in s.txs && s.txs[tx].next < |s.txs[tx].items| && s.txs[tx].items[s.txs[tx].next] in s.table.runs
  {
    var row := s.table.runs[s.txs[tx].items[s.txs[tx].next]];
    (row.agent, row.chat)
  }

  predicate AtCandidate(s: Sys, tx: Id) {
    tx in s.txs && s.txs[tx].next < |s.txs[tx].items| && s.txs[tx].items[s.txs[tx].next] in s.table.runs
  }

  predicate Full(c: Config, runs: map<Id, Run>, agent: Id, chat: Option<Id>) {
    chat.Some? && |Active(runs, agent, chat.value)| >= c.limit(agent)
  }

  function Released(s: Sys, tx: Id): Sys {
    s.(txs := s.txs - {tx},
       rowLocks := map r | r in s.rowLocks && s.rowLocks[r] != tx :: s.rowLocks[r],
       keyLocks := map k | k in s.keyLocks && s.keyLocks[k] != tx :: s.keyLocks[k])
  }

  predicate Selectable(s: Sys, items: seq<Id>, now: Instant) {
    && |items| <= 20 && Distinct(items)
    && forall r :: r in items ==> r in s.table.runs && r !in s.rowLocks && Claimable(s.table.runs[r], now)
  }

  /** The step would change a row that a claim transaction has locked. */
  predicate Touches(s: Sys, step: Step) {
    exists r :: r in s.rowLocks && r in s.table.runs && r in Apply(s.table, step).runs && Apply(s.table, step).runs[r] != s.table.runs[r]
  }

  /** A step that would have to wait for a lock does nothing until the lock is free. */
  function Next(c: Config, s: Sys, a: Action): Sys {
    match a
    case Select(tx, items, now) =>
      if tx in s.txs || !Selectable(s, items, now) then s
      else
        s.(txs := s.txs[tx := Tx(items, 0, false, now)],
           rowLocks := map r | r in s.rowLocks.Keys + (set i | i in items) :: if r in items then tx else s.rowLocks[r])
    case TakeKey(tx) =>
      if !AtCandidate(s, tx) then s
      else
        var k := c.key(Chat(s, tx).0, Chat(s, tx).1);
        if k in s.keyLocks then s else s.(keyLocks := s.keyLocks[k := tx])
    case Check(tx) =>
      if !AtCandidate(s, tx) || s.txs[tx].admitted then s
      else
        var (agent, chat) := Chat(s, tx);
        var k := c.key(agent, chat);
        if k !in s.keyLocks || s.keyLocks[k] != tx then s
        else if Full(c, s.table.runs, agent, chat) then s.(txs := s.txs[tx := s.txs[tx].(next := s.txs[tx].next + 1)])
        else s.(txs := s.txs[tx := s.txs[tx].(admitted := true)])
    case Commit(tx, token, expires) =>
      if !AtCandidate(s, tx) || !s.txs[tx].admitted || token in s.table.issued then s
      else
        var t := s.txs[tx];
        Released(s.(table := Apply(s.table, Claim(t.items[t.next], token, expires, t.now))), tx)
    case End(tx) => Released(s, tx)
    case Other(step) =>
      if step.Claim? || Touches(s, step) then s else s.(table := Apply(s.table, step))
  }

  function ExecActions(c: Config, s: Sys, actions: seq<Action>): Sys
    decreases |actions|
  {
    if actions == [] then s else ExecActions(c, Next(c, s, actions[0]), actions[1..])
  }

  // ---------- invariant ----------

  /** Every candidate of an open transaction is locked by it and still as the query saw it. */
  ghost predicate RowsLocked(s: Sys) {
    && (forall tx, r :: tx in s.txs && r in s.txs[tx].items ==>
          r in s.rowLocks && s.rowLocks[r] == tx && r in s.table.runs && Claimable(s.table.runs[r], s.txs[tx].now))
    && (forall r :: r in s.rowLocks ==> s.rowLocks[r] in s.txs && r in s.txs[s.rowLocks[r]].items)
  }

  ghost predicate KeysLocked(s: Sys) {
    forall k :: k in s.keyLocks ==> s.keyLocks[k] in s.txs
  }

  /** A transaction past the capacity check holds the lock of its chat, and the chat still has room. */
  predicate AdmissionHolds(c: Config, s: Sys, tx: Id)
    requires tx in s.txs
  {
    s.txs[tx].admitted ==>
      && AtCandidate(s, tx)
      && c.key(Chat(s, tx).0, Chat(s, tx).1) in s.keyLocks
      && s.keyLocks[c.key(Chat(s, tx).0, Chat(s, tx).1)] == tx
      && !Full(c, s.table.runs, Chat(s, tx).0, Chat(s, tx).1)
  }

  /** The number of running runs of an agent in a chat never exceeds its limit. */
  ghost predicate WithinConcurrency(c: Config, runs: map<Id, Run>) {
    forall agent, chat :: |Active(runs, agent, chat)| <= c.limit(agent)
  }

  ghost predicate SysInv(c: Config, s: Sys) {
    && Inv(s.table) && RowsLocked(s) && KeysLocked(s)
    && (forall tx :: tx in s.txs ==> AdmissionHolds(c, s, tx))
    && WithinConcurrency(c, s.table.runs)
  }

  // ---------- preservation ----------

  lemma SubsetSize(a: set<Id>, b: set<Id>)
    requires a <= b
    ensures |a| <= |b|
  {
    assert b == a + (b - a);
  }

  /** Only a claim starts a run. */
  lemma OthersStartNothing(s: State, step: Step, agent: Id, chat: Id)
    requires Inv(s) && !step.Claim?
    ensures |Active(Apply(s, step).runs, agent, chat)| <= |Active(s.runs, agent, chat)|
  {
    var t := Apply(s, step);
    forall id | id in Active(t.runs, agent, chat) ensures id in Active(s.runs, agent, chat) {
      if id in s.runs { StepMovesRow(s, step, id); }
    }
    SubsetSize(Active(t.runs, agent, chat), Active(s.runs, agent, chat));
  }

  /** A claim adds its run to its own chat and to no other. */
  lemma ClaimStartsOne(s: State, id: Id, token: Id, expires: Instant, now: Instant, agent: Id, chat: Id)
    requires Inv(s) && id in s.runs && Claimable(s.runs[id], now) && token !in s.issued
    ensures |Active(Apply(s, Claim(id, token, expires, now)).runs, agent, chat)|
            == |Active(s.runs, agent, chat)| + (if s.runs[id].agent == agent && s.runs[id].chat == Some(chat) then 1 else 0)
  {
    var t := Apply(s, Claim(id, token, expires, now));
    if s.runs[id].agent == agent && s.runs[id].chat == Some(chat) {
      assert Active(t.runs, agent, chat) == Active(s.runs, agent, chat) + {id};
    } else {
      assert Active(t.runs, agent, chat) == Active(s.runs, agent, chat);
    }
  }

  lemma ReleaseKeepsInv(c: Config, s: Sys, tx: Id)
    requires SysInv(c, s)
    ensures SysInv(c, Released(s, tx))
  {
    var t := Released(s, tx);
    forall u | u in t.txs ensures AdmissionHolds(c, t, u) {
      assert AdmissionHolds(c, s, u);
    }
  }

  /** The table after a commit, with its locks not yet released. */
  function Claimed(s: Sys, tx: Id, token: Id, expires: Instant): State
    requires AtCandidate(s, tx)
  {
    Apply(s.table, Claim(s.txs[tx].items[s.txs[tx].next], token, expires, s.txs[tx].now))
  }

  lemma CommitKeepsConcurrency(c: Config, s: Sys, tx: Id, token: Id, expires: Instant)
    requires SysInv(c, s) && AtCandidate(s, tx) && s.txs[tx].admitted && token !in s.table.issued
    ensures WithinConcurrency(c, Claimed(s, tx, token, expires).runs)
  {
    assert AdmissionHolds(c, s, tx);
    var item := s.txs[tx].items[s.txs[tx].next];
    assert item in s.txs[tx].items;
    forall agent, chat ensures |Active(Claimed(s, tx, token, expires).runs, agent, chat)| <= c.limit(agent) {
      ClaimStartsOne(s.table, item, token, expires, s.txs[tx].now, agent, chat);
    }
  }

  lemma CommitKeepsRows(c: Config, s: Sys, tx: Id, token: Id, expires: Instant)
    requires SysInv(c, s) && AtCandidate(s, tx) && s.txs[tx].admitted && token !in s.table.issued
    ensures RowsLocked(Next(c, s, Commit(tx, token, expires))) && KeysLocked(Next(c, s, Commit(tx, token, expires)))
  {
    var t := Next(c, s, Commit(tx, token, expires));
    var item := s.txs[tx].items[s.txs[tx].next];
    assert item in s.txs[tx].items;
    forall u, r | u in t.txs && r in t.txs[u].items
      ensures r in t.rowLocks && t.rowLocks[r] == u && r in t.table.runs && Claimable(t.table.runs[r], t.txs[u].now)
    {
      assert s.rowLocks[r] == u && s.rowLocks[item] == tx;
      assert t.table.runs[r] == s.table.runs[r];
    }
  }

  lemma CommitKeepsInv(c: Config, s: Sys, tx: Id, token: Id, expires: Instant)
    requires SysInv(c, s)
    ensures SysInv(c, Next(c, s, Commit(tx, token, expires)))
  {
    if AtCandidate(s, tx) && s.txs[tx].admitted && token !in s.table.issued {
      var t := Next(c, s, Commit(tx, token, expires));
      CommitKeepsConcurrency(c, s, tx, token, expires);
      CommitKeepsRows(c, s, tx, token, expires);
      StepKeepsInv(s.table, Claim(s.txs[tx].items[s.txs[tx].next], token, expires, s.txs[tx].now));
      forall u | u in t.txs ensures AdmissionHolds(c, t, u) {
        CommitKeepsOthers(c, s, tx, token, expires, u);
      }
    }
  }

  /** Another admitted transaction holds another lock, so its chat is another chat and keeps its room. */
  lemma CommitKeepsOthers(c: Config, s: Sys, tx: Id, token: Id, expires: Instant, u: Id)
    requires SysInv(c, s) && AtCandidate(s, tx) && s.txs[tx].admitted && token !in s.table.issued
    requires u in s.txs && u != tx
    ensures AdmissionHolds(c, Next(c, s, Commit(tx, token, expires)), u)
  {
    assert AdmissionHolds(c, s, tx) && AdmissionHolds(c, s, u);
    if s.txs[u].admitted {
      var item := s.txs[tx].items[s.txs[tx].next];
      var mine := s.txs[u].items[s.txs[u].next];
      assert item in s.txs[tx].items && mine in s.txs[u].items;
      var (agent, chat) := Chat(s, u);
      if chat.Some? {
        ClaimStartsOne(s.table, item, token, expires, s.txs[tx].now, agent, chat.value);
        assert Chat(s, tx) != Chat(s, u);
      }
      var t := Next(c, s, Commit(tx, token, expires));
      assert t.txs[u] == s.txs[u] && mine != item && t.table.runs[mine] == s.table.runs[mine];
    }
  }

  lemma OtherKeepsConcurrency(c: Config, s: Sys, step: Step)
    requires SysInv(c, s) && !step.Claim?
    ensures Inv(Apply(s.table, step)) && WithinConcurrency(c, Apply(s.table, step).runs)
  {
    StepKeepsInv(s.table, step);
    forall agent, chat ensures |Active(Apply(s.table, step).runs, agent, chat)| <= c.limit(agent) {
      OthersStartNothing(s.table, step, agent, chat);
    }
  }

  /** A step that leaves the locked rows alone leaves every candidate as it was. */
  lemma OtherKeepsCandidates(c: Config, s: Sys, step: Step, u: Id)
    requires SysInv(c, s) && !step.Claim? && !Touches(s, step) && u in s.txs
    ensures forall r :: r in s.txs[u].items ==>
              r in s.table.runs && r in Apply(s.table, step).runs && Apply(s.table, step).runs[r] == s.table.runs[r]
  {
    StepKeepsInv(s.table, step);
    forall r | r in s.txs[u].items
      ensures r in s.table.runs && r in Apply(s.table, step).runs && Apply(s.table, step).runs[r] == s.table.runs[r]
    {
      assert r in s.rowLocks;
    }
  }

  lemma OtherKeepsAdmission(c: Config, s: Sys, step: Step, u: Id)
    requires SysInv(c, s) && !step.Claim? && !Touches(s, step) && u in s.txs
    ensures AdmissionHolds(c, s.(table := Apply(s.table, step)), u)
  {
    assert AdmissionHolds(c, s, u);
    if s.txs[u].admitted {
      OtherKeepsCandidates(c, s, step, u);
      assert s.txs[u].items[s.txs[u].next] in s.txs[u].items;
      var (agent, chat) := Chat(s, u);
      if chat.Some? { OthersStartNothing(s.table, step, agent, chat.value); }
    }
  }

  lemma OtherKeepsRows(c: Config, s: Sys, step: Step)
    requires SysInv(c, s) && !step.Claim? && !Touches(s, step)
    ensures RowsLocked(s.(table := Apply(s.table, step)))
  {
    forall u | u in s.txs
      ensures forall r :: r in s.txs[u].items ==> r in Apply(s.table, step).runs && Apply(s.table, step).runs[r] == s.table.runs[r]
    {
      OtherKeepsCandidates(c, s, step, u);
    }
  }

  lemma OtherKeepsInv(c: Config, s: Sys, step: Step)
    requires SysInv(c, s)
    ensures SysInv(c, Next(c, s, Other(step)))
  {
    if !step.Claim? && !Touches(s, step) {
      OtherKeepsConcurrency(c, s, step);
      OtherKeepsRows(c, s, step);
      forall u | u in s.txs ensures AdmissionHolds(c, s.(table := Apply(s.table, step)), u) { OtherKeepsAdmission(c, s, step, u); }
    }
  }

  lemma SelectKeepsRows(c: Config, s: Sys, tx: Id, items: seq<Id>, now: Instant)
    requires RowsLocked(s) && KeysLocked(s)
    ensures RowsLocked(Next(c, s, Select(tx, items, now))) && KeysLocked(Next(c, s, Select(tx, items, now)))
  {
  }

  lemma TakeKeyKeepsRows(c: Config, s: Sys, tx: Id)
    requires RowsLocked(s) && KeysLocked(s)
    ensures RowsLocked(Next(c, s, TakeKey(tx))) && KeysLocked(Next(c, s, TakeKey(tx)))
  {
  }

  lemma SelectKeepsInv(c: Config, s: Sys, tx: Id, items: seq<Id>, now: Instant)
    requires SysInv(c, s)
    ensures SysInv(c, Next(c, s, Select(tx, items, now)))
  {
    var t := Next(c, s, Select(tx, items, now));
    SelectKeepsRows(c, s, tx, items, now);
    if t != s {
      forall u | u in t.txs ensures AdmissionHolds(c, t, u) {
        if u != tx { assert AdmissionHolds(c, s, u); }
      }
    }
  }

  lemma TakeKeyKeepsInv(c: Config, s: Sys, tx: Id)
    requires SysInv(c, s)
    ensures SysInv(c, Next(c, s, TakeKey(tx)))
  {
    var t := Next(c, s, TakeKey(tx));
    TakeKeyKeepsRows(c, s, tx);
    forall u | u in t.txs ensures AdmissionHolds(c, t, u) {
      assert AdmissionHolds(c, s, u);
    }
  }

  lemma CheckKeepsAdmission(c: Config, s: Sys, tx: Id, u: Id)
    requires SysInv(c, s) && u in s.txs
    ensures AdmissionHolds(c, Next(c, s, Check(tx)), u)
  {
    assert AdmissionHolds(c, s, u);
    var t := Next(c, s, Check(tx));
    if u != tx { assert t.txs[u] == s.txs[u]; }
  }

  lemma CheckKeepsItems(c: Config, s: Sys, tx: Id)
    ensures var t := Next(c, s, Check(tx));
            && t.txs.Keys == s.txs.Keys && t.rowLocks == s.rowLocks && t.keyLocks == s.keyLocks && t.table == s.table
            && forall u :: u in s.txs ==> t.txs[u].items == s.txs[u].items && t.txs[u].now == s.txs[u].now
  {
  }

  lemma SameItemsKeepRows(s: Sys, t: Sys)
    requires RowsLocked(s) && KeysLocked(s)
    requires t.txs.Keys == s.txs.Keys && t.rowLocks == s.rowLocks && t.keyLocks == s.keyLocks && t.table == s.table
    requires forall u :: u in s.txs ==> t.txs[u].items == s.txs[u].items && t.txs[u].now == s.txs[u].now
    ensures RowsLocked(t) && KeysLocked(t)
  {
  }

  lemma CheckKeepsRows(c: Config, s: Sys, tx: Id)
    requires RowsLocked(s) && KeysLocked(s)
    ensures RowsLocked(Next(c, s, Check(tx))) && KeysLocked(Next(c, s, Check(tx)))
  {
    CheckKeepsItems(c, s, tx);
    SameItemsKeepRows(s, Next(c, s, Check(tx)));
  }

  lemma CheckKeepsInv(c: Config, s: Sys, tx: Id)
    requires SysInv(c, s)
    ensures SysInv(c, Next(c, s, Check(tx)))
  {
    var t := Next(c, s, Check(tx));
    CheckKeepsRows(c, s, tx);
    CheckKeepsItems(c, s, tx);
    forall u | u in t.txs ensures AdmissionHolds(c, t, u) {
      CheckKeepsAdmission(c, s, tx, u);
    }
  }

  lemma ActionKeepsInv(c: Config, s: Sys, a: Action)
    requires SysInv(c, s)
    ensures SysInv(c, Next(c, s, a))
  {
    match a
    case Select(tx, items, now) => SelectKeepsInv(c, s, tx, items, now);
    case TakeKey(tx) => TakeKeyKeepsInv(c, s, tx);
    case Check(tx) => CheckKeepsInv(c, s, tx);
    case Commit(tx, token, expires) => CommitKeepsInv(c, s, tx, token, expires);
    case End(tx) => ReleaseKeepsInv(c, s, tx);
    case Other(step) => OtherKeepsInv(c, s, step);
  }

  // ---------- main results ----------

  lemma {:induction false} ExecKeepsSysInv(c: Config, s: Sys, actions: seq<Action>)
    requires SysInv(c, s)
    ensures SysInv(c, ExecActions(c, s, actions))
    decreases |actions|
  {
    if actions != [] {
      ActionKeepsInv(c, s, actions[0]);
      ExecKeepsSysInv(c, Next(c, s, actions[0]), actions[1..]);
    }
  }

  /** However claim transactions interleave, from an empty table on, no agent ever has more running runs in a
      chat than its concurrency limit. */
  lemma ConcurrencyIsNeverExceeded(c: Config, actions: seq<Action>, agent: Id, chat: Id)
    ensures var s := ExecActions(c, Sys(State(map[], {}), map[], map[], map[]), actions);
            |Active(s.table.runs, agent, chat)| <= c.limit(agent)
  {
    var s := Sys(State(map[], {}), map[], map[], map[]);
    forall a, b ensures |Active(s.table.runs, a, b)| <= c.limit(a) {
      assert Active(s.table.runs, a, b) == {};
    }
    ExecKeepsSysInv(c, s, actions);
  }

  /** No run is being claimed by two workers at once, and a run that is running is being claimed by none. */
  lemma NoRunIsClaimedTwice(c: Config, actions: seq<Action>, id: Id, tx: Id, other: Id)
    requires var s := ExecActions(c, Sys(State(map[], {}), map[], map[], map[]), actions);
             tx in s.txs && id in s.txs[tx].items
    ensures var s := ExecActions(c, Sys(State(map[], {}), map[], map[], map[]), actions);
            && id in s.table.runs && s.table.runs[id].status.Queued?
            && (other in s.txs && id in s.txs[other].items ==> other == tx)
  {
    var start := Sys(State(map[], {}), map[], map[], map[]);
    forall a, b ensures |Active(start.table.runs, a, b)| <= c.limit(a) {
      assert Active(start.table.runs, a, b) == {};
    }
    ExecKeepsSysInv(c, start, actions);
    var s := ExecActions(c, start, actions);
    assert RowsLocked(s);
  }

  /** A commit always succeeds: its run is still queued and becomes running with the token it was given. */
  lemma CommitClaimsItsCandidate(c: Config, s: Sys, tx: Id, token: Id, expires: Instant)
    requires SysInv(c, s) && AtCandidate(s, tx) && s.txs[tx].admitted && token !in s.table.issued
    ensures var id := s.txs[tx].items[s.txs[tx].next];
            var t := Next(c, s, Commit(tx, token, expires));
            && s.table.runs[id].status.Queued?
            && t.table.runs == s.table.runs[id := ClaimRow(s.table.runs[id], token, expires, s.txs[tx].now)]
            && tx !in t.txs && id !in t.rowLocks
  {
    var id := s.txs[tx].items[s.txs[tx].next];
    assert id in s.txs[tx].items;
  }
}
