/**
 * Runs that cause runs (core/internal/agenttrigger/service.go): a run posts messages that carry its own chain
 * depth, and each message may trigger further runs of any agent, one level deeper.
 */
module Cascades {
  import opened Collections
  import opened TriggerDispatch

  /** What every run posts: any finite list of events, as long as each records the depth of its run. */
  datatype World = World(agents: seq<Agent>, posts: (Id, RunRow) -> seq<Event>)

  ghost predicate RecordsDepth(w: World) {
    forall agent, row, e :: e in w.posts(agent, row) ==> e.sourceDepth == Some(row.depth)
  }

  function Max(a: nat, b: nat): nat { if a < b then b else a }

  function LargestDepth(agents: seq<Agent>): nat {
    if agents == [] then 0 else Max(agents[0].maxDepth, LargestDepth(agents[1..]))
  }

  lemma {:induction false} LargestDepthBounds(agents: seq<Agent>, a: Agent)
    requires a in agents
    ensures a.maxDepth <= LargestDepth(agents)
  {
    if a != agents[0] {
      assert a in agents[1..];
      LargestDepthBounds(agents[1..], a);
    }
  }

  /** A triggered run of an agent, with everything it causes. */
  datatype Tree = Node(agent: Id, row: RunRow, caused: seq<Tree>)

  /** Every run that an event triggers, agent by agent. */
  function Triggered(agents: seq<Agent>, e: Event): seq<(Agent, RunRow)> {
    if agents == [] then []
    else
      var rows := EventRows(agents[0], agents[0].triggers, e);
      seq(|rows|, i requires 0 <= i < |rows| => (agents[0], rows[i])) + Triggered(agents[1..], e)
  }

  lemma {:induction false} EventRowsDepth(a: Agent, triggers: seq<Trigger>, e: Event)
    ensures forall r :: r in EventRows(a, triggers, e) ==> r.depth == NextDepth(e) && r.depth <= a.maxDepth
  {
    if triggers != [] { EventRowsDepth(a, triggers[1..], e); }
  }

  /** Every event-triggered run is one level deeper than its source message and within its agent's maximum. */
  lemma {:induction false} TriggeredDepth(agents: seq<Agent>, e: Event)
    ensures forall p :: p in Triggered(agents, e) ==> p.0 in agents && p.1.depth == NextDepth(e) && p.1.depth <= p.0.maxDepth
  {
    if agents != [] {
      EventRowsDepth(agents[0], agents[0].triggers, e);
      TriggeredDepth(agents[1..], e);
    }
  }

  /** How many levels a cascade can still go below a depth: the measure of the whole cascade. */
  function Levels(w: World, depth: nat): nat {
    if depth > LargestDepth(w.agents) then 0 else LargestDepth(w.agents) + 1 - depth
  }

  /** The complete tree of runs that one event causes.  That this function terminates is the finiteness of
      the cascade: each message lies one level deeper than the run that posted it. */
  ghost function Caused(w: World, e: Event): seq<Tree>
    requires RecordsDepth(w)
    decreases Levels(w, NextDepth(e)), 2, 0
  {
    TriggeredDepth(w.agents, e);
    CausedRuns(w, Triggered(w.agents, e), NextDepth(e))
  }

  ghost function CausedRuns(w: World, runs: seq<(Agent, RunRow)>, depth: nat): seq<Tree>
    requires RecordsDepth(w)
    requires forall p :: p in runs ==> p.0 in w.agents && p.1.depth == depth && depth <= p.0.maxDepth
    decreases Levels(w, depth), 1, |runs|
  {
    if runs == [] then []
    else
      var (agent, row) := runs[0];
      LargestDepthBounds(w.agents, agent);
      [Node(agent.id, row, CausedMessages(w, w.posts(agent.id, row), depth))] + CausedRuns(w, runs[1..], depth)
  }

  ghost function CausedMessages(w: World, messages: seq<Event>, depth: nat): seq<Tree>
    requires RecordsDepth(w) && depth <= LargestDepth(w.agents)
    requires forall m :: m in messages ==> m.sourceDepth == Some(depth)
    decreases Levels(w, depth), 0, |messages|
  {
    if messages == [] then []
    else
      assert NextDepth(messages[0]) == depth + 1;
      Caused(w, messages[0]) + CausedMessages(w, messages[1..], depth)
  }

  function Height(t: Tree): nat { 1 + HeightOf(t.caused) }

  function HeightOf(ts: seq<Tree>): nat {
    if ts == [] then 0 else Max(Height(ts[0]), HeightOf(ts[1..]))
  }

  lemma {:induction false} HeightOfConcat(x: seq<Tree>, y: seq<Tree>)
    ensures HeightOf(x + y) == Max(HeightOf(x), HeightOf(y))
  {
    if x == [] {
      assert x + y == y;
    } else {
      assert (x + y)[1..] == x[1..] + y;
      HeightOfConcat(x[1..], y);
    }
  }

  lemma {:induction false} CausedIsShallow(w: World, e: Event)
    requires RecordsDepth(w)
    ensures HeightOf(Caused(w, e)) <= Levels(w, NextDepth(e))
    decreases Levels(w, NextDepth(e)), 2, 0
  {
    TriggeredDepth(w.agents, e);
    RunsAreShallow(w, Triggered(w.agents, e), NextDepth(e));
  }

  lemma {:induction false} RunsAreShallow(w: World, runs: seq<(Agent, RunRow)>, depth: nat)
    requires RecordsDepth(w)
    requires forall p :: p in runs ==> p.0 in w.agents && p.1.depth == depth && depth <= p.0.maxDepth
    ensures HeightOf(CausedRuns(w, runs, depth)) <= Levels(w, depth)
    decreases Levels(w, depth), 1, |runs|
  {
    if runs != [] {
      var (agent, row) := runs[0];
      LargestDepthBounds(w.agents, agent);
      MessagesAreShallow(w, w.posts(agent.id, row), depth);
      RunsAreShallow(w, runs[1..], depth);
      var node := Node(agent.id, row, CausedMessages(w, w.posts(agent.id, row), depth));
      var rest := CausedRuns(w, runs[1..], depth);
      assert ([node] + rest)[1..] == rest;
    }
  }

  lemma {:induction false} MessagesAreShallow(w: World, messages: seq<Event>, depth: nat)
    requires RecordsDepth(w) && depth <= LargestDepth(w.agents)
    requires forall m :: m in messages ==> m.sourceDepth == Some(depth)
    ensures HeightOf(CausedMessages(w, messages, depth)) <= Levels(w, depth + 1)
    decreases Levels(w, depth), 0, |messages|
  {
    if messages != [] {
      CausedIsShallow(w, messages[0]);
      MessagesAreShallow(w, messages[1..], depth);
      HeightOfConcat(Caused(w, messages[0]), CausedMessages(w, messages[1..], depth));
    }
  }

  /** The tree of runs caused by one event from outside is at most one level higher than the largest
      `max_chain_depth` of any agent. */
  lemma CascadeHeight(w: World, e: Event)
    requires RecordsDepth(w) && e.sourceDepth.None?
    ensures HeightOf(Caused(w, e)) <= LargestDepth(w.agents) + 1
  {
    CausedIsShallow(w, e);
  }

  // ---------- the number of runs ----------

  function Size(t: Tree): nat { 1 + SizeOf(t.caused) }

  function SizeOf(ts: seq<Tree>): nat {
    if ts == [] then 0 else Size(ts[0]) + SizeOf(ts[1..])
  }

  lemma {:induction false} SizeOfConcat(x: seq<Tree>, y: seq<Tree>)
    ensures SizeOf(x + y) == SizeOf(x) + SizeOf(y)
  {
    if x == [] {
      assert x + y == y;
    } else {
      assert (x + y)[1..] == x[1..] + y;
      SizeOfConcat(x[1..], y);
    }
  }

  /** The most runs that can lie below one event, when an event triggers at most `runs` runs and a run posts at
      most `posts` messages. */
  function Most(runs: nat, posts: nat, levels: nat): nat
    decreases levels, 1
  {
    if levels == 0 then 0 else runs * BelowRun(runs, posts, levels)
  }

  /** One run and the most that can lie below it. */
  function BelowRun(runs: nat, posts: nat, levels: nat): nat
    requires levels > 0
    decreases levels, 0
  {
    1 + posts * Most(runs, posts, levels - 1)
  }

  ghost predicate Bounded(w: World, runs: nat, posts: nat) {
    && RecordsDepth(w)
    && (forall e :: |Triggered(w.agents, e)| <= runs)
    && (forall agent, row :: |w.posts(agent, row)| <= posts)
  }

  lemma FewerTimes(a: nat, b: nat, c: nat)
    requires a <= b
    ensures a * c <= b * c
  {
  }

  lemma OneMore(a: nat, c: nat)
    ensures (a + 1) * c == c + a * c
  {
  }

  lemma {:induction false} CausedIsSmall(w: World, e: Event, runs: nat, posts: nat)
    requires Bounded(w, runs, posts)
    ensures SizeOf(Caused(w, e)) <= Most(runs, posts, Levels(w, NextDepth(e)))
    decreases Levels(w, NextDepth(e)), 2, 0
  {
    var all, levels := Triggered(w.agents, e), Levels(w, NextDepth(e));
    TriggeredDepth(w.agents, e);
    if all != [] {
      LargestDepthBounds(w.agents, all[0].0);
      RunsAreSmall(w, all, NextDepth(e), runs, posts);
      FewerTimes(|all|, runs, BelowRun(runs, posts, levels));
    }
  }

  lemma {:induction false} RunsAreSmall(w: World, all: seq<(Agent, RunRow)>, depth: nat, runs: nat, posts: nat)
    requires Bounded(w, runs, posts) && depth <= LargestDepth(w.agents)
    requires forall p :: p in all ==> p.0 in w.agents && p.1.depth == depth && depth <= p.0.maxDepth
    ensures SizeOf(CausedRuns(w, all, depth)) <= |all| * BelowRun(runs, posts, Levels(w, depth))
    decreases Levels(w, depth), 1, |all|
  {
    if all != [] {
      var (agent, row) := all[0];
      var messages := w.posts(agent.id, row);
      MessagesAreSmall(w, messages, depth, runs, posts);
      RunsAreSmall(w, all[1..], depth, runs, posts);
      var node, rest := Node(agent.id, row, CausedMessages(w, messages, depth)), CausedRuns(w, all[1..], depth);
      assert ([node] + rest)[1..] == rest;
      FewerTimes(|messages|, posts, Most(runs, posts, Levels(w, depth) - 1));
      OneMore(|all[1..]|, BelowRun(runs, posts, Levels(w, depth)));
    }
  }

  lemma {:induction false} MessagesAreSmall(w: World, messages: seq<Event>, depth: nat, runs: nat, posts: nat)
    requires Bounded(w, runs, posts) && depth <= LargestDepth(w.agents)
    requires forall m :: m in messages ==> m.sourceDepth == Some(depth)
    ensures SizeOf(CausedMessages(w, messages, depth)) <= |messages| * Most(runs, posts, Levels(w, depth) - 1)
    decreases Levels(w, depth), 0, |messages|
  {
    if messages != [] {
      CausedIsSmall(w, messages[0], runs, posts);
      MessagesAreSmall(w, messages[1..], depth, runs, posts);
      SizeOfConcat(Caused(w, messages[0]), CausedMessages(w, messages[1..], depth));
      OneMore(|messages[1..]|, Most(runs, posts, Levels(w, depth) - 1));
    }
  }

  /** One event from outside causes finitely many runs, by an explicit bound. */
  lemma CascadeSize(w: World, e: Event, runs: nat, posts: nat)
    requires Bounded(w, runs, posts) && e.sourceDepth.None?
    ensures SizeOf(Caused(w, e)) <= Most(runs, posts, LargestDepth(w.agents) + 1)
  {
    CausedIsSmall(w, e, runs, posts);
  }
}
