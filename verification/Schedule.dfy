/**
 * Scheduled triggers (core/internal/agenttrigger/service.go): the search for the next occurrence and the
 * dispatch of due ones.  Instants are nanoseconds since 1970-01-01 UTC; a zone is a fixed offset.
 */
module Schedule {
  import opened Collections

  const SECOND: int := 1_000_000_000
  const MINUTE: int := 60 * SECOND
  const HOUR: int := 60 * MINUTE
  const DAY: int := 24 * HOUR

  /** Sunday is day 0. */
  datatype Config = Config(hour: int, minute: int, days: seq<int>)

  predicate ValidConfig(c: Config) {
    0 <= c.hour <= 23 && 0 <= c.minute <= 59 && |c.days| <= 7 && forall i :: 0 <= i < |c.days| ==> 0 <= c.days[i] <= 6
  }

  /** 1970-01-01 was a Thursday. */
  function Weekday(day: int): int { (day + 4) % 7 }

  predicate Allowed(c: Config, day: int) { c.days == [] || Weekday(day) in c.days }

  function TimeOfDay(c: Config): int { c.hour * HOUR + c.minute * MINUTE }

  /** What an occurrence is: the right wall-clock time on an allowed weekday. */
  predicate Occurs(c: Config, zone: int, t: int) {
    (t + zone) % DAY == TimeOfDay(c) && Allowed(c, (t + zone) / DAY)
  }

  // ---------- the next occurrence ----------

  function Candidate(c: Config, zone: int, after: int, k: int): int {
    ((after + zone) / DAY + k) * DAY + TimeOfDay(c) - zone
  }

  predicate Accepts(c: Config, zone: int, after: int, k: int) {
    Allowed(c, (after + zone) / DAY + k) && Candidate(c, zone, after, k) > after
  }

  /** The search from day offset `k` on. */
  function Search(c: Config, zone: int, after: int, k: nat): Option<int>
    decreases 9 - k
  {
    if k > 8 then None
    else if Accepts(c, zone, after, k) then Some(Candidate(c, zone, after, k))
    else Search(c, zone, after, k + 1)
  }

  method NextSchedule(c: Config, zone: int, after: int) returns (next: Option<int>)
    requires ValidConfig(c)
    ensures next == Search(c, zone, after, 0)
    ensures next.Some? && next.value > after && Occurs(c, zone, next.value)
    ensures forall t :: after < t < next.value ==> !Occurs(c, zone, t)
  {
    SearchIsLeast(c, zone, after);
    for offset := 0 to 9
      invariant Search(c, zone, after, 0) == Search(c, zone, after, offset)
    {
      var day := (after + zone) / DAY + offset;
      if |c.days| > 0 && Weekday(day) !in c.days {
        continue;
      }
      var candidate := day * DAY + c.hour * HOUR + c.minute * MINUTE;
      if candidate > after + zone {
        return Some(candidate - zone);
      }
    }
    next := None;
  }

  /** An instant occurs exactly when it is the candidate of its day, and that day is allowed. */
  lemma OccursOnItsDay(c: Config, zone: int, after: int, t: int)
    requires ValidConfig(c)
    ensures var k := (t + zone) / DAY - (after + zone) / DAY;
            Occurs(c, zone, t) <==> t == Candidate(c, zone, after, k) && Allowed(c, (after + zone) / DAY + k)
  {
  }

  lemma CandidateOccurs(c: Config, zone: int, after: int, k: int)
    requires ValidConfig(c) && Allowed(c, (after + zone) / DAY + k)
    ensures Occurs(c, zone, Candidate(c, zone, after, k))
    ensures k >= 1 ==> Candidate(c, zone, after, k) > after
  {
    DayOf((after + zone) / DAY + k, TimeOfDay(c));
  }

  lemma DayOf(day: int, rest: int)
    requires 0 <= rest < DAY
    ensures (day * DAY + rest) / DAY == day && (day * DAY + rest) % DAY == rest
  {
  }

  /** Some day among the next seven is allowed. */
  lemma AllowedDay(c: Config, day: int) returns (k: int)
    requires ValidConfig(c)
    ensures 1 <= k <= 7 && Allowed(c, day + k)
  {
    if c.days == [] {
      k := 1;
    } else {
      var first := c.days[0];
      k := 1 + (first - Weekday(day + 1)) % 7;
      assert Weekday(day + k) == first;
    }
  }

  lemma {:induction false} SearchFrom(c: Config, zone: int, after: int, k: nat, last: nat)
    requires k <= last <= 8 && Accepts(c, zone, after, last)
    ensures var found := Search(c, zone, after, k);
            found.Some? && exists j :: k <= j <= last && Accepts(c, zone, after, j) && found.value == Candidate(c, zone, after, j)
                                       && forall i :: k <= i < j ==> !Accepts(c, zone, after, i)
    decreases last - k
  {
    if !Accepts(c, zone, after, k) {
      SearchFrom(c, zone, after, k + 1, last);
      var j :| k + 1 <= j <= last && Accepts(c, zone, after, j) && Search(c, zone, after, k + 1) == Some(Candidate(c, zone, after, j))
               && forall i :: k + 1 <= i < j ==> !Accepts(c, zone, after, i);
      assert forall i :: k <= i < j ==> !Accepts(c, zone, after, i);
    }
  }

  /** What lies before the first accepted candidate does not occur. */
  lemma NothingBefore(c: Config, zone: int, after: int, j: int, t: int)
    requires ValidConfig(c) && after < t < Candidate(c, zone, after, j)
    requires forall i :: 0 <= i < j ==> !Accepts(c, zone, after, i)
    ensures !Occurs(c, zone, t)
  {
    var k := (t + zone) / DAY - (after + zone) / DAY;
    OccursOnItsDay(c, zone, after, t);
    EarlierDay(after + zone, t + zone);
    assert !Accepts(c, zone, after, k) || k >= j;
  }

  lemma EarlierDay(x: int, y: int)
    requires x < y
    ensures x / DAY <= y / DAY
  {
  }

  /** The search always succeeds and finds the least occurrence strictly after its argument. */
  lemma SearchIsLeast(c: Config, zone: int, after: int)
    requires ValidConfig(c)
    ensures var next := Search(c, zone, after, 0);
            && next.Some? && next.value > after && Occurs(c, zone, next.value)
            && forall t :: after < t < next.value ==> !Occurs(c, zone, t)
  {
    var day := (after + zone) / DAY;
    var last := AllowedDay(c, day);
    CandidateOccurs(c, zone, after, last);
    SearchFrom(c, zone, after, 0, last);
    var next := Search(c, zone, after, 0).value;
    var j :| 0 <= j <= last && Accepts(c, zone, after, j) && next == Candidate(c, zone, after, j)
             && forall i :: 0 <= i < j ==> !Accepts(c, zone, after, i);
    CandidateOccurs(c, zone, after, j);
    forall t | after < t < next ensures !Occurs(c, zone, t) {
      NothingBefore(c, zone, after, j, t);
    }
  }

  /** The least occurrence after `after`. */
  function NextAfter(c: Config, zone: int, after: int): (next: int)
    requires ValidConfig(c)
    ensures next > after && Occurs(c, zone, next)
    ensures forall t :: after < t < next ==> !Occurs(c, zone, t)
  {
    SearchIsLeast(c, zone, after);
    Search(c, zone, after, 0).value
  }

  // ---------- dispatching ----------

  datatype Policy = Latest | Skip

  /** A schedule trigger with the `scheduled_for` values of the runs it has created, oldest first. */
  datatype State = State(config: Config, zone: int, policy: Policy, enabled: bool, next: int, runs: seq<int>)

  predicate ShouldRun(s: State, now: int) { s.policy == Latest || now - s.next <= 2 * MINUTE }

  /** One dispatch transaction at clock reading `now`; `eligible` says whether the agent, its connection and its
      chat membership let the run be inserted. */
  function Dispatch(s: State, now: int, eligible: bool): State
    requires ValidConfig(s.config)
  {
    if !s.enabled || s.next > now then s
    else
      s.(runs := if ShouldRun(s, now) && eligible && s.next !in s.runs then s.runs + [s.next] else s.runs,
         next := NextAfter(s.config, s.zone, now))
  }

  /** Editing the trigger restarts the schedule from the clock; an invalid schedule is refused, and so is one whose chat the
      agent is not a member of. */
  function Edit(s: State, config: Config, zone: int, policy: Policy, enabled: bool, member: bool, now: int): State {
    if !ValidConfig(config) || !member then s
    else State(config, zone, policy, enabled, NextAfter(config, zone, now), s.runs)
  }

  class ScheduleTrigger {
    var config: Config
    var zone: int
    var policy: Policy
    var enabled: bool
    var next: int
    var runs: seq<int>

    ghost function Row(): State reads this { State(config, zone, policy, enabled, next, runs) }

    constructor (config: Config, zone: int, policy: Policy, now: int)
      requires ValidConfig(config)
      ensures Row() == State(config, zone, policy, true, NextAfter(config, zone, now), [])
    {
      var first := NextSchedule(config, zone, now);
      this.config, this.zone, this.policy, enabled, next, runs := config, zone, policy, true, first.value, [];
    }

    method DispatchSchedule(now: int, eligible: bool)
      requires ValidConfig(config)
      modifies this`next, this`runs
      ensures Row() == Dispatch(old(Row()), now, eligible)
    {
      if !enabled || next > now {
        return;
      }
      var scheduled := next;
      var shouldRun := policy == Latest || now - scheduled <= 2 * MINUTE;
      if shouldRun && eligible && scheduled !in runs {
        runs := runs + [scheduled];
      }
      var following := NextSchedule(config, zone, now);
      next := following.value;
    }

    method Update(config: Config, zone: int, policy: Policy, enabled: bool, member: bool, now: int) returns (ok: bool)
      modifies this
      ensures ok <==> ValidConfig(config) && member
      ensures Row() == Edit(old(Row()), config, zone, policy, enabled, member, now)
    {
      ok := ValidConfig(config) && member;
      if ok {
        var first := NextSchedule(config, zone, now);
        this.config, this.zone, this.policy, this.enabled, next := config, zone, policy, enabled, first.value;
      }
    }
  }

  datatype Step = At(now: int, eligible: bool) | Change(config: Config, zone: int, policy: Policy, enabled: bool, member: bool, now: int)

  function Next(s: State, step: Step): State
    requires ValidConfig(s.config)
  {
    match step
    case At(now, eligible) => Dispatch(s, now, eligible)
    case Change(config, zone, policy, enabled, member, now) => Edit(s, config, zone, policy, enabled, member, now)
  }

  function Exec(s: State, steps: seq<Step>): State
    requires ValidConfig(s.config)
    decreases |steps|
  {
    if steps == [] then s else Exec(Next(s, steps[0]), steps[1..])
  }

  ghost predicate Distinct(runs: seq<int>) { forall i, j :: 0 <= i < j < |runs| ==> runs[i] != runs[j] }

  /** At most one run for each scheduled time, whatever is edited and however the clocks of the dispatchers differ. */
  lemma {:induction false} OneRunPerScheduledTime(s: State, steps: seq<Step>)
    requires ValidConfig(s.config) && Distinct(s.runs)
    ensures Distinct(Exec(s, steps).runs) && s.runs <= Exec(s, steps).runs
    decreases |steps|
  {
    if steps != [] { OneRunPerScheduledTime(Next(s, steps[0]), steps[1..]); }
  }

  /** A due trigger moves strictly past the clock, and the occurrences it missed give at most one run, the oldest of
      them; until the next occurrence every further dispatch changes nothing. */
  lemma MissedOccurrencesCollapse(s: State, now: int, eligible: bool, later: int, again: bool)
    requires ValidConfig(s.config) && s.enabled && s.next <= now
    ensures var t := Dispatch(s, now, eligible);
            && s.next <= now < t.next
            && (t.runs == s.runs || t.runs == s.runs + [s.next])
            && (later < t.next ==> Dispatch(t, later, again) == t)
            && forall i :: s.next < i <= now ==> i in t.runs ==> i in s.runs
  {
  }

  ghost predicate Increasing(runs: seq<int>) { forall i, j :: 0 <= i < j < |runs| ==> runs[i] < runs[j] }

  ghost predicate OnlyDispatches(steps: seq<Step>) { forall i :: 0 <= i < |steps| ==> steps[i].At? }

  /** Between edits the schedule only moves forward, and every run is for an occurrence the schedule has passed. */
  lemma {:induction false} RunsAreOccurrences(s: State, steps: seq<Step>)
    requires ValidConfig(s.config) && OnlyDispatches(steps) && Occurs(s.config, s.zone, s.next)
    requires Increasing(s.runs) && forall i :: 0 <= i < |s.runs| ==> s.runs[i] < s.next
    ensures var t := Exec(s, steps);
            && t.config == s.config && t.zone == s.zone && s.next <= t.next && Occurs(t.config, t.zone, t.next)
            && s.runs <= t.runs && Increasing(t.runs)
            && forall i :: |s.runs| <= i < |t.runs| ==> s.next <= t.runs[i] < t.next && Occurs(t.config, t.zone, t.runs[i])
    decreases |steps|
  {
    if steps != [] { RunsAreOccurrences(Next(s, steps[0]), steps[1..]); }
  }

  /** Dispatching each occurrence before the one after it comes. */
  ghost predicate Timely(s: State, steps: seq<Step>)
    requires ValidConfig(s.config) && OnlyDispatches(steps)
    decreases |steps|
  {
    steps != [] ==>
      && steps[0].eligible && steps[0].now < NextAfter(s.config, s.zone, s.next) && ShouldRun(s, steps[0].now)
      && Timely(Dispatch(s, steps[0].now, true), steps[1..])
  }

  /** Timely dispatching misses nothing: the new runs are exactly the occurrences that the schedule has passed. */
  lemma {:induction false} TimelyDispatchIsExact(s: State, steps: seq<Step>)
    requires ValidConfig(s.config) && s.enabled && Occurs(s.config, s.zone, s.next) && OnlyDispatches(steps) && Timely(s, steps)
    requires Increasing(s.runs) && forall i :: 0 <= i < |s.runs| ==> s.runs[i] < s.next
    ensures var t := Exec(s, steps);
            forall x :: s.next <= x < t.next ==> (x in t.runs <==> Occurs(s.config, s.zone, x))
    decreases |steps|
  {
    if steps != [] {
      var n := Next(s, steps[0]);
      TimelyDispatchIsExact(n, steps[1..]);
      RunsAreOccurrences(n, steps[1..]);
      if s.next <= steps[0].now {
        Joined(s, n, Exec(s, steps), steps[0].now);
      }
    }
  }

  /** One timely dispatch followed by more of them. */
  lemma Joined(s: State, n: State, t: State, now: int)
    requires ValidConfig(s.config) && Occurs(s.config, s.zone, s.next)
    requires s.next <= now < NextAfter(s.config, s.zone, s.next) && n.next == NextAfter(s.config, s.zone, now)
    requires n.runs == s.runs + [s.next] && Increasing(n.runs) && n.runs <= t.runs
    requires forall i :: |n.runs| <= i < |t.runs| ==> n.next <= t.runs[i]
    requires forall x :: n.next <= x < t.next ==> (x in t.runs <==> Occurs(s.config, s.zone, x))
    ensures forall x :: s.next <= x < t.next ==> (x in t.runs <==> Occurs(s.config, s.zone, x))
  {
    assert n.runs[|s.runs|] == s.next && t.runs[|s.runs|] == s.next;
    forall x | s.next < x < n.next ensures x !in t.runs && !Occurs(s.config, s.zone, x) {
      NotBetween(n, t, s.next, x);
    }
  }

  lemma NotBetween(n: State, t: State, last: int, x: int)
    requires n.runs <= t.runs && n.runs != [] && Increasing(n.runs) && n.runs[|n.runs| - 1] == last < x < n.next
    requires forall i :: |n.runs| <= i < |t.runs| ==> n.next <= t.runs[i]
    ensures x !in t.runs
  {
    forall i | 0 <= i < |t.runs| ensures t.runs[i] != x {
      if i < |n.runs| { assert t.runs[i] == n.runs[i]; }
    }
  }
}
