/** Retention of the event log (core/internal/eventlog/retention.go), and what a pruned log still tells its readers. */
module Retention {
  import opened Collections
  import opened EventLog

  // ---------- pruning ----------

  predicate Old(current: nat, minCount: nat, cutoff: int, e: Event) {
    e.seqNo <= current - minCount && e.occurredAt < cutoff
  }

  function Recent(current: nat, minCount: nat, cutoff: int): Event -> bool { (e: Event) => !Old(current, minCount, cutoff, e) }

  /** The rows one DELETE picks: the first ones in order that are old and not locked by another transaction. */
  function Victims(log: seq<Event>, current: nat, minCount: nat, cutoff: int, batch: nat, locked: set<nat>): seq<Event> {
    Take(Filter(log, Candidate(current, minCount, cutoff, locked)), batch)
  }

  function Candidate(current: nat, minCount: nat, cutoff: int, locked: set<nat>): Event -> bool {
    (e: Event) => Old(current, minCount, cutoff, e) && e.seqNo !in locked
  }

  function Numbers(events: seq<Event>): set<nat> { set i | 0 <= i < |events| :: events[i].seqNo }

  function Outside(gone: set<nat>): Event -> bool { (e: Event) => e.seqNo !in gone }

  function Inside(gone: set<nat>): Event -> bool { (e: Event) => e.seqNo in gone }

  /** One DELETE removes exactly as many rows as it picked, and all of them are old. */
  lemma OneDelete(log: seq<Event>, current: nat, minCount: nat, cutoff: int, batch: nat, locked: set<nat>)
    requires ValidLog(log) && batch >= 1
    ensures var victims := Victims(log, current, minCount, cutoff, batch, locked);
            var left := Filter(log, Outside(Numbers(victims)));
            && |left| == |log| - |victims|
            && (forall e :: e in log && e.seqNo in Numbers(victims) ==> Old(current, minCount, cutoff, e))
            && (|victims| < batch ==> forall e :: e in log && Old(current, minCount, cutoff, e) && e.seqNo !in locked ==> e.seqNo in Numbers(victims))
  {
    var p := Candidate(current, minCount, cutoff, locked);
    var kept := Filter(log, p);
    var victims := Victims(log, current, minCount, cutoff, batch, locked);
    FilterMembers(log, p);
    if victims == [] {
      FilterAll(log, Outside(Numbers(victims)));
    } else {
      var upTo := (e: Event) => p(e) && e.seqNo <= victims[|victims| - 1].seqNo;
      assert victims == kept[..|victims|];
      FirstKept(log, SeqOf, p, |victims|, upTo);
      FilterMembers(log, upTo);
      forall e | e in log ensures e.seqNo in Numbers(victims) <==> upTo(e) {
        if e.seqNo in Numbers(victims) {
          var i :| 0 <= i < |victims| && victims[i].seqNo == e.seqNo;
          assert victims[i] in victims;
          SameNumber(log, e, victims[i]);
        }
        if upTo(e) {
          var i :| 0 <= i < |victims| && victims[i] == e;
        }
      }
      FilterExt(log, Inside(Numbers(victims)), upTo);
      FilterCount(log, Inside(Numbers(victims)), Outside(Numbers(victims)));
    }
  }

  ghost predicate GoneAre(before: seq<Event>, after: seq<Event>, current: nat, minCount: nat, cutoff: int, gone: set<nat>) {
    && after == Filter(before, Outside(gone))
    && forall e :: e in before && e.seqNo in gone ==> Old(current, minCount, cutoff, e)
  }

  ghost predicate PrunedBy(before: seq<Event>, after: seq<Event>, current: nat, minCount: nat, cutoff: int, held: set<nat>, gone: set<nat>) {
    && GoneAre(before, after, current, minCount, cutoff, gone)
    && forall e :: e in after && Old(current, minCount, cutoff, e) ==> e.seqNo in held
  }

  /** What pruning does to one log: only old events go, and the old ones that stay were all locked in one batch. */
  ghost predicate Pruned(before: seq<Event>, after: seq<Event>, current: nat, minCount: nat, cutoff: int, locked: nat -> set<nat>) {
    exists n: nat, gone :: PrunedBy(before, after, current, minCount, cutoff, locked(n), gone)
  }

  /** One batch more. */
  lemma BatchGoes(start: seq<Event>, log: seq<Event>, current: nat, minCount: nat, cutoff: int, batch: nat, locked: set<nat>, gone: set<nat>)
    requires ValidLog(log) && batch >= 1 && GoneAre(start, log, current, minCount, cutoff, gone)
    ensures var victims := Victims(log, current, minCount, cutoff, batch, locked);
            var left, more := Filter(log, Outside(Numbers(victims))), gone + Numbers(victims);
            && ValidLog(left) && |left| == |log| - |victims| && |victims| <= batch
            && GoneAre(start, left, current, minCount, cutoff, more)
            && (|victims| < batch ==> PrunedBy(start, left, current, minCount, cutoff, locked, more))
  {
    var victims := Victims(log, current, minCount, cutoff, batch, locked);
    var left, more := Filter(log, Outside(Numbers(victims))), gone + Numbers(victims);
    OneDelete(log, current, minCount, cutoff, batch, locked);
    FilterAscending(log, SeqOf, Outside(Numbers(victims)));
    FilterTwice(start, Outside(gone), Outside(Numbers(victims)), Outside(more));
    FilterMembers(start, Outside(gone));
    FilterMembers(log, Outside(Numbers(victims)));
    forall e | e in start && e.seqNo in more ensures Old(current, minCount, cutoff, e) {
      if e.seqNo !in gone { assert Outside(gone)(e) && e in log; }
    }
  }

  lemma SameNumber(log: seq<Event>, a: Event, b: Event)
    requires ValidLog(log) && a in log && b in log && a.seqNo == b.seqNo
    ensures a == b
  {
    var i :| 0 <= i < |log| && log[i] == a;
    var j :| 0 <= j < |log| && log[j] == b;
    forall x, y | 0 <= x < y < |log| ensures log[x].seqNo < log[y].seqNo { assert SeqOf(log[x]) < SeqOf(log[y]); }
  }

  class EventStore {
    var organizations: seq<Id>
    var current: map<Id, nat>
    var logs: map<Id, seq<Event>>

    ghost predicate Valid() reads this {
      && (forall i, j :: 0 <= i < j < |organizations| ==> organizations[i] != organizations[j])
      && (forall i :: 0 <= i < |organizations| ==> organizations[i] in current && organizations[i] in logs)
      && (forall o :: o in logs ==> ValidLog(logs[o]))
    }

    constructor (organizations: seq<Id>, current: map<Id, nat>, logs: map<Id, seq<Event>>)
      requires forall i, j :: 0 <= i < j < |organizations| ==> organizations[i] != organizations[j]
      requires forall i :: 0 <= i < |organizations| ==> organizations[i] in current && organizations[i] in logs
      requires forall o :: o in logs ==> ValidLog(logs[o])
      ensures Valid() && this.organizations == organizations && this.current == current && this.logs == logs
    {
      this.organizations, this.current, this.logs := organizations, current, logs;
    }

    /** The batches of one organization; `locked(n)` are the rows that other transactions hold during batch `n`. */
    method PruneOne(o: Id, current: nat, minCount: nat, cutoff: int, batch: nat, locked: nat -> set<nat>) returns (total: nat)
      requires o in logs && ValidLog(logs[o]) && batch >= 1
      modifies this`logs
      ensures logs.Keys == old(logs.Keys) && forall p :: p in logs && p != o ==> logs[p] == old(logs[p])
      ensures ValidLog(logs[o]) && total == |old(logs[o])| - |logs[o]|
      ensures Pruned(old(logs[o]), logs[o], current, minCount, cutoff, locked)
    {
      ghost var start := logs[o];
      ghost var gone: set<nat>, last: nat := {}, 0;
      var n, deleted := 0, batch;
      total := 0;
      FilterAll(start, Outside(gone));
      while deleted >= batch
        invariant logs.Keys == old(logs.Keys) && forall p :: p in logs && p != o ==> logs[p] == old(logs[p])
        invariant o in logs && ValidLog(logs[o]) && total == |start| - |logs[o]|
        invariant if deleted >= batch then GoneAre(start, logs[o], current, minCount, cutoff, gone)
                  else PrunedBy(start, logs[o], current, minCount, cutoff, locked(last), gone)
        decreases |logs[o]|, if deleted >= batch then 1 else 0
      {
        var log := logs[o];
        var victims := Victims(log, current, minCount, cutoff, batch, locked(n));
        BatchGoes(start, log, current, minCount, cutoff, batch, locked(n), gone);
        logs := logs[o := Filter(log, Outside(Numbers(victims)))];
        gone, last := gone + Numbers(victims), n;
        deleted := |victims|;
        total := total + deleted;
        n := n + 1;
      }
    }

    /** The sweep over every organization, with the watermarks read at its start. */
    method Prune(cutoff: int, minCount: int, batch: int, locked: Id -> nat -> set<nat>) returns (total: nat, ok: bool)
      requires Valid()
      modifies this`logs
      ensures Valid() && ok == (minCount >= 1 && batch >= 1) && logs.Keys == old(logs.Keys)
      ensures !ok ==> total == 0 && logs == old(logs)
      ensures ok ==> PrunedAll(organizations, old(logs), logs, current, minCount, cutoff, locked)
      ensures forall o :: o in logs && o !in organizations ==> logs[o] == old(logs[o])
      ensures total == Dropped(organizations, old(logs), logs)
    {
      total := 0;
      if minCount < 1 || batch < 1 {
        NothingDropped(organizations, logs);
        return 0, false;
      }
      ok := true;
      ghost var start := logs;
      for i := 0 to |organizations|
        invariant Valid() && Swept(organizations, i, start, logs, current, total, minCount, cutoff, locked)
      {
        var deleted := PruneNext(i, start, total, minCount, cutoff, batch, locked);
        total := total + deleted;
      }
      assert organizations[..|organizations|] == organizations;
    }

    method PruneNext(i: nat, ghost start: map<Id, seq<Event>>, ghost total: int, minCount: nat, cutoff: int, batch: nat, locked: Id -> nat -> set<nat>)
      returns (deleted: nat)
      requires Valid() && i < |organizations| && batch >= 1
      requires Swept(organizations, i, start, logs, current, total, minCount, cutoff, locked)
      modifies this`logs
      ensures Valid()
      ensures Swept(organizations, i + 1, start, logs, current, total + deleted, minCount, cutoff, locked)
    {
      var o := organizations[i];
      ghost var before := logs;
      deleted := PruneOne(o, current[o], minCount, cutoff, batch, locked(o));
      SweptSnoc(organizations, i, start, before, logs, current, total, deleted, minCount, cutoff, locked);
    }
  }

  /** The first `i` organizations are done and the others untouched. */
  ghost predicate Swept(organizations: seq<Id>, i: nat, start: map<Id, seq<Event>>, logs: map<Id, seq<Event>>, current: map<Id, nat>,
                        total: int, minCount: nat, cutoff: int, locked: Id -> nat -> set<nat>)
  {
    && i <= |organizations|
    && var done := organizations[..i];
    && start.Keys == logs.Keys && (forall i :: 0 <= i < |done| ==> done[i] in logs)
    && (forall o :: o in logs && o !in done ==> logs[o] == start[o])
    && PrunedAll(done, start, logs, current, minCount, cutoff, locked)
    && total == Dropped(done, start, logs)
  }

  /** One organization more. */
  lemma SweptSnoc(organizations: seq<Id>, i: nat, start: map<Id, seq<Event>>, before: map<Id, seq<Event>>, after: map<Id, seq<Event>>,
                  current: map<Id, nat>, total: int, deleted: int, minCount: nat, cutoff: int, locked: Id -> nat -> set<nat>)
    requires i < |organizations| && forall j, k :: 0 <= j < k < |organizations| ==> organizations[j] != organizations[k]
    requires Swept(organizations, i, start, before, current, total, minCount, cutoff, locked)
    requires organizations[i] in before && organizations[i] in current && after.Keys == before.Keys
    requires forall p :: p in after && p != organizations[i] ==> after[p] == before[p]
    requires var o := organizations[i];
             Pruned(before[o], after[o], current[o], minCount, cutoff, locked(o)) && deleted == |before[o]| - |after[o]|
    ensures Swept(organizations, i + 1, start, after, current, total + deleted, minCount, cutoff, locked)
  {
    var done, o := organizations[..i], organizations[i];
    NotBefore(organizations, i);
    DroppedSnoc(done, o, start, before, after);
    PrunedSnoc(done, o, start, before, after, current, minCount, cutoff, locked);
  }

  lemma NotBefore(organizations: seq<Id>, i: nat)
    requires i < |organizations| && forall j, k :: 0 <= j < k < |organizations| ==> organizations[j] != organizations[k]
    ensures organizations[i] !in organizations[..i]
    ensures organizations[..i + 1] == organizations[..i] + [organizations[i]]
  {
  }

  ghost predicate PrunedAll(organizations: seq<Id>, before: map<Id, seq<Event>>, after: map<Id, seq<Event>>, current: map<Id, nat>,
                            minCount: nat, cutoff: int, locked: Id -> nat -> set<nat>)
  {
    forall o :: o in organizations && o in before && o in after && o in current ==>
      Pruned(before[o], after[o], current[o], minCount, cutoff, locked(o))
  }

  lemma PrunedSnoc(organizations: seq<Id>, o: Id, start: map<Id, seq<Event>>, before: map<Id, seq<Event>>, after: map<Id, seq<Event>>,
                   current: map<Id, nat>, minCount: nat, cutoff: int, locked: Id -> nat -> set<nat>)
    requires PrunedAll(organizations, start, before, current, minCount, cutoff, locked)
    requires start.Keys == before.Keys == after.Keys && o in start && o in current
    requires forall p :: p in after && p != o ==> after[p] == before[p]
    requires Pruned(start[o], after[o], current[o], minCount, cutoff, locked(o))
    ensures PrunedAll(organizations + [o], start, after, current, minCount, cutoff, locked)
  {
  }

  ghost function Dropped(organizations: seq<Id>, before: map<Id, seq<Event>>, after: map<Id, seq<Event>>): int
    requires forall i :: 0 <= i < |organizations| ==> organizations[i] in before && organizations[i] in after
  {
    if organizations == [] then 0
    else
      var o := organizations[|organizations| - 1];
      Dropped(organizations[..|organizations| - 1], before, after) + |before[o]| - |after[o]|
  }

  lemma {:induction false} NothingDropped(organizations: seq<Id>, logs: map<Id, seq<Event>>)
    requires forall i :: 0 <= i < |organizations| ==> organizations[i] in logs
    ensures Dropped(organizations, logs, logs) == 0
  {
    if organizations != [] { NothingDropped(organizations[..|organizations| - 1], logs); }
  }

  lemma {:induction false} DroppedSame(organizations: seq<Id>, start: map<Id, seq<Event>>, before: map<Id, seq<Event>>, after: map<Id, seq<Event>>)
    requires forall i :: 0 <= i < |organizations| ==>
               organizations[i] in start && organizations[i] in before && organizations[i] in after && after[organizations[i]] == before[organizations[i]]
    ensures Dropped(organizations, start, after) == Dropped(organizations, start, before)
  {
    if organizations != [] { DroppedSame(organizations[..|organizations| - 1], start, before, after); }
  }

  lemma DroppedSnoc(organizations: seq<Id>, o: Id, start: map<Id, seq<Event>>, before: map<Id, seq<Event>>, after: map<Id, seq<Event>>)
    requires o !in organizations && o in start && o in before && o in after && before[o] == start[o]
    requires forall i :: 0 <= i < |organizations| ==>
               organizations[i] in start && organizations[i] in before && organizations[i] in after && after[organizations[i]] == before[organizations[i]]
    ensures Dropped(organizations + [o], start, after) == Dropped(organizations, start, before) + |start[o]| - |after[o]|
  {
    DroppedSame(organizations, start, before, after);
    assert (organizations + [o])[..|organizations|] == organizations;
  }

  /** When no row is locked, exactly the old events go, whatever the batch size. */
  lemma UnlockedPruneIsExact(before: seq<Event>, after: seq<Event>, current: nat, minCount: nat, cutoff: int, locked: nat -> set<nat>)
    requires Pruned(before, after, current, minCount, cutoff, locked) && forall n :: locked(n) == {}
    ensures after == Filter(before, Recent(current, minCount, cutoff))
  {
    var n: nat, gone :| PrunedBy(before, after, current, minCount, cutoff, locked(n), gone);
    FilterMembers(before, Outside(gone));
    FilterExt(before, Outside(gone), Recent(current, minCount, cutoff));
  }

  // ---------- what is left is the end of the log ----------

  /** Everything after some point, and nothing before it. */
  ghost predicate IsEnd(full: seq<Event>, kept: seq<Event>) {
    forall e, f :: e in kept && f in full && e.seqNo <= f.seqNo ==> f in kept
  }

  /** Exactly when pruning leaves the end of the log: no event that is kept only for its age precedes an old one. */
  lemma PruneLeavesEndExactlyWhen(full: seq<Event>, current: nat, minCount: nat, cutoff: int)
    requires ValidLog(full)
    ensures IsEnd(full, Filter(full, Recent(current, minCount, cutoff)))
            <==> forall e, f :: e in full && f in full && e.seqNo <= f.seqNo && Old(current, minCount, cutoff, f) ==> Old(current, minCount, cutoff, e)
  {
    FilterMembers(full, Recent(current, minCount, cutoff));
  }

  ghost predicate NumberedByTime(full: seq<Event>) {
    forall e, f :: e in full && f in full && e.seqNo <= f.seqNo ==> e.occurredAt <= f.occurredAt
  }

  lemma OrderedTimesLeaveEnd(full: seq<Event>, current: nat, minCount: nat, cutoff: int)
    requires ValidLog(full) && NumberedByTime(full)
    ensures IsEnd(full, Filter(full, Recent(current, minCount, cutoff)))
  {
    PruneLeavesEndExactlyWhen(full, current, minCount, cutoff);
  }

  // ---------- catching up on a pruned log ----------

  /** The full log up to the watermark, and a part of it that is still stored. */
  ghost predicate Stored(full: seq<Event>, kept: seq<Event>, current: nat) {
    && ValidLog(full) && ValidLog(kept)
    && (forall e :: e in kept ==> e in full)
    && (forall e :: e in full ==> 1 <= e.seqNo <= current)
  }

  /** A reader at `cursor` sees the same stored events as in the log before any pruning. */
  ghost predicate CompleteFrom(full: seq<Event>, kept: seq<Event>, cursor: nat) {
    forall e :: e in full && e.seqNo > cursor ==> e in kept
  }

  /** The exact condition for the retention bound to be honest: every cursor at or above it is complete if and only if
      what is stored is the end of the log. */
  lemma BoundIsHonestExactlyWhen(full: seq<Event>, kept: seq<Event>, current: nat)
    requires Stored(full, kept, current)
    ensures (forall cursor: nat :: MinRetained(kept, current) <= cursor ==> CompleteFrom(full, kept, cursor)) <==> IsEnd(full, kept)
  {
    var bound := MinRetained(kept, current);
    if kept != [] {
      assert kept[0] in kept && kept[0] in full;
      forall e | e in kept ensures kept[0].seqNo <= e.seqNo {
        var i :| 0 <= i < |kept| && kept[i] == e;
        if i > 0 { assert SeqOf(kept[0]) < SeqOf(kept[i]); }
      }
    }
    if IsEnd(full, kept) {
      forall cursor: nat | bound <= cursor ensures CompleteFrom(full, kept, cursor) { }
    } else {
      var e, f :| e in kept && f in full && e.seqNo <= f.seqNo && f !in kept;
      assert bound < f.seqNo;
      assert !CompleteFrom(full, kept, bound);
    }
  }

  /** Two ascending lists with the same members are the same list. */
  lemma {:induction false} SameMembers(a: seq<Event>, b: seq<Event>)
    requires ValidLog(a) && ValidLog(b) && forall e :: e in a <==> e in b
    ensures a == b
  {
    if b != [] { assert b[0] in b && b[0] in a; }
    if a != [] {
      assert a[0] in a && a[0] in b;
      FirstIsLeast(a, b[0]);
      FirstIsLeast(b, a[0]);
      SameNumber(a, a[0], b[0]);
      TailMembers(a);
      TailMembers(b);
      SameMembers(a[1..], b[1..]);
    }
  }

  lemma FirstIsLeast(a: seq<Event>, e: Event)
    requires ValidLog(a) && e in a
    ensures a[0].seqNo <= e.seqNo
  {
    var i :| 0 <= i < |a| && a[i] == e;
    if i > 0 { assert SeqOf(a[0]) < SeqOf(a[i]); }
  }

  lemma TailMembers(a: seq<Event>)
    requires ValidLog(a) && a != []
    ensures ValidLog(a[1..]) && forall e :: e in a[1..] <==> e in a && e != a[0]
  {
    forall e | e in a[1..] ensures e != a[0] {
      var i :| 0 <= i < |a[1..]| && a[1..][i] == e;
      assert SeqOf(a[0]) < SeqOf(a[i + 1]);
    }
    assert a == [a[0]] + a[1..];
  }

  /** A reader whose cursor is at least the retention bound catches up exactly: paging through the pruned log, with any
      page sizes, yields every visible event of the unpruned log after its cursor, once and in order. */
  lemma CatchUpMissesNothing(w: World, full: seq<Event>, kept: seq<Event>, current: nat, actor: Id, session: Option<Id>, cursor: nat, through: nat)
    requires Stored(full, kept, current) && IsEnd(full, kept) && MinRetained(kept, current) <= cursor
    ensures Filter(kept, Wanted(VisibleTo(w, actor, session), cursor, through)) == Filter(full, Wanted(VisibleTo(w, actor, session), cursor, through))
  {
    BoundIsHonestExactlyWhen(full, kept, current);
    assert CompleteFrom(full, kept, cursor);
    var p := Wanted(VisibleTo(w, actor, session), cursor, through);
    FilterMembers(kept, p);
    FilterMembers(full, p);
    FilterAscending(kept, SeqOf, p);
    FilterAscending(full, SeqOf, p);
    SameMembers(Filter(kept, p), Filter(full, p));
  }

  /** From the sweep to the reader: pruning without locked rows, when events were numbered in the order of their times,
      loses nothing for a reader at or above the new bound. */
  lemma PrunedLogIsComplete(w: World, full: seq<Event>, after: seq<Event>, current: nat, minCount: nat, cutoff: int, locked: nat -> set<nat>,
                            actor: Id, session: Option<Id>, cursor: nat, through: nat)
    requires ValidLog(full) && NumberedByTime(full) && forall e :: e in full ==> 1 <= e.seqNo <= current
    requires Pruned(full, after, current, minCount, cutoff, locked) && forall n :: locked(n) == {}
    requires MinRetained(after, current) <= cursor
    ensures Filter(after, Wanted(VisibleTo(w, actor, session), cursor, through)) == Filter(full, Wanted(VisibleTo(w, actor, session), cursor, through))
  {
    var recent := Recent(current, minCount, cutoff);
    UnlockedPruneIsExact(full, after, current, minCount, cutoff, locked);
    OrderedTimesLeaveEnd(full, current, minCount, cutoff);
    FilterMembers(full, recent);
    FilterAscending(full, SeqOf, recent);
    CatchUpMissesNothing(w, full, after, current, actor, session, cursor, through);
  }

  // ---------- appends and sweeps, again and again ----------

  /** Every event there ever was, those that are stored, and the watermark. */
  datatype Log = Log(full: seq<Event>, kept: seq<Event>, current: nat)

  /** An event comes with any time: it is the start of its transaction, which takes its number later.  A sweep deletes some
      of what is old at its start, in general not what other transactions hold. */
  datatype Change = Append(e: Event) | Sweep(minCount: nat, cutoff: int, gone: set<nat>)

  function Changed(l: Log, change: Change): Log {
    match change
    case Append(e) => if e.seqNo == l.current + 1 then Log(l.full + [e], l.kept + [e], l.current + 1) else l
    case Sweep(minCount, cutoff, gone) => if OnlyOld(l, minCount, cutoff, gone) then l.(kept := Filter(l.kept, Outside(gone))) else l
  }

  predicate OnlyOld(l: Log, minCount: nat, cutoff: int, gone: set<nat>) {
    forall i :: 0 <= i < |l.kept| && l.kept[i].seqNo in gone ==> Old(l.current, minCount, cutoff, l.kept[i])
  }

  function History(l: Log, changes: seq<Change>): Log
    decreases |changes|
  {
    if changes == [] then l else History(Changed(l, changes[0]), changes[1..])
  }

  ghost predicate Consistent(l: Log) { Stored(l.full, l.kept, l.current) }

  lemma AppendedIsValid(log: seq<Event>, e: Event)
    requires ValidLog(log) && forall x :: x in log ==> x.seqNo < e.seqNo
    ensures ValidLog(log + [e])
  {
    var more := log + [e];
    forall i, j | 0 <= i < j < |more| ensures SeqOf(more[i]) < SeqOf(more[j]) {
      if j < |log| { assert SeqOf(log[i]) < SeqOf(log[j]); } else { assert log[i] in log; }
    }
  }

  /** Appending keeps an end of the log one, and what is not one stays so. */
  lemma AppendKeeps(l: Log, e: Event)
    requires Consistent(l)
    ensures var t := Changed(l, Append(e)); Consistent(t) && (IsEnd(t.full, t.kept) <==> IsEnd(l.full, l.kept))
  {
    var t := Changed(l, Append(e));
    if t != l {
      AppendedIsValid(l.full, e);
      AppendedIsValid(l.kept, e);
      assert forall x :: x in t.full <==> x in l.full || x == e;
      assert forall x :: x in t.kept <==> x in l.kept || x == e;
      if IsEnd(t.full, t.kept) {
        forall x, f | x in l.kept && f in l.full && x.seqNo <= f.seqNo ensures f in l.kept {
          assert x in t.kept && f in t.full;
          assert f.seqNo < e.seqNo;
        }
      }
    }
  }

  /** No event that a sweep leaves, because it is younger or held by another transaction, precedes one that it deletes. */
  ghost predicate SweepIsClean(l: Log, gone: set<nat>) {
    forall e, f :: e in l.kept && f in l.kept && e.seqNo < f.seqNo && f.seqNo in gone ==> e.seqNo in gone
  }

  /** From an end of the log, a sweep leaves an end of the log if and only if it is clean. */
  lemma SweepLeavesEndExactlyWhen(l: Log, minCount: nat, cutoff: int, gone: set<nat>)
    requires Consistent(l) && IsEnd(l.full, l.kept) && OnlyOld(l, minCount, cutoff, gone)
    ensures var t := Changed(l, Sweep(minCount, cutoff, gone));
            Consistent(t) && (IsEnd(t.full, t.kept) <==> SweepIsClean(l, gone))
  {
    var t := Changed(l, Sweep(minCount, cutoff, gone));
    FilterMembers(l.kept, Outside(gone));
    FilterAscending(l.kept, SeqOf, Outside(gone));
    if IsEnd(t.full, t.kept) {
      forall e, f | e in l.kept && f in l.kept && e.seqNo < f.seqNo && f.seqNo in gone ensures e.seqNo in gone {
        assert f in t.full && f !in t.kept;
        assert e.seqNo !in gone ==> e in t.kept;
      }
    }
    if SweepIsClean(l, gone) {
      forall e, f | e in t.kept && f in t.full && e.seqNo <= f.seqNo ensures f in t.kept {
        assert e in l.kept && f in l.kept && e.seqNo !in gone;
        if e.seqNo == f.seqNo { SameNumber(l.kept, e, f); }
      }
    }
  }

  /** After every change, what is stored is the end of the log. */
  ghost predicate StaysEnd(l: Log, changes: seq<Change>)
    decreases |changes|
  {
    IsEnd(l.full, l.kept) && (changes != [] ==> StaysEnd(Changed(l, changes[0]), changes[1..]))
  }

  ghost predicate SweepsAreClean(l: Log, changes: seq<Change>)
    decreases |changes|
  {
    changes != [] ==>
      && (changes[0].Sweep? && OnlyOld(l, changes[0].minCount, changes[0].cutoff, changes[0].gone) ==> SweepIsClean(l, changes[0].gone))
      && SweepsAreClean(Changed(l, changes[0]), changes[1..])
  }

  lemma ChangeKeeps(l: Log, change: Change)
    requires Consistent(l) && IsEnd(l.full, l.kept)
    ensures var t := Changed(l, change);
            && Consistent(t)
            && (IsEnd(t.full, t.kept) <==>
                  (change.Sweep? && OnlyOld(l, change.minCount, change.cutoff, change.gone) ==> SweepIsClean(l, change.gone)))
  {
    match change
    case Append(e) => AppendKeeps(l, e);
    case Sweep(minCount, cutoff, gone) => if OnlyOld(l, minCount, cutoff, gone) { SweepLeavesEndExactlyWhen(l, minCount, cutoff, gone); }
  }

  /** Over any appends and sweeps, in any order, with any times and any rows held: what is stored stays the end of the log
      all along if and only if every sweep is clean. */
  lemma {:induction false} HistoryStaysEndExactlyWhen(l: Log, changes: seq<Change>)
    requires Consistent(l) && IsEnd(l.full, l.kept)
    ensures StaysEnd(l, changes) <==> SweepsAreClean(l, changes)
    ensures SweepsAreClean(l, changes) ==> Consistent(History(l, changes)) && IsEnd(History(l, changes).full, History(l, changes).kept)
    decreases |changes|
  {
    if changes != [] {
      ChangeKeeps(l, changes[0]);
      var t := Changed(l, changes[0]);
      if IsEnd(t.full, t.kept) {
        HistoryStaysEndExactlyWhen(t, changes[1..]);
      } else {
        assert !StaysEnd(t, changes[1..]);
      }
    }
  }

  /** A pruning of the stored rows is such a sweep. */
  lemma PruneIsSweep(l: Log, after: seq<Event>, minCount: nat, cutoff: int, locked: nat -> set<nat>)
    requires Pruned(l.kept, after, l.current, minCount, cutoff, locked)
    ensures exists gone :: OnlyOld(l, minCount, cutoff, gone) && Changed(l, Sweep(minCount, cutoff, gone)) == l.(kept := after)
  {
    var n: nat, gone :| PrunedBy(l.kept, after, l.current, minCount, cutoff, locked(n), gone);
    assert OnlyOld(l, minCount, cutoff, gone) by {
      forall i | 0 <= i < |l.kept| && l.kept[i].seqNo in gone ensures Old(l.current, minCount, cutoff, l.kept[i]) { assert l.kept[i] in l.kept; }
    }
    assert Changed(l, Sweep(minCount, cutoff, gone)) == l.(kept := after);
  }

  /** When events were numbered in the order of their times, a sweep that leaves no old event is clean. */
  lemma OrderedSweepIsClean(l: Log, minCount: nat, cutoff: int, gone: set<nat>)
    requires Consistent(l) && NumberedByTime(l.full) && OnlyOld(l, minCount, cutoff, gone)
    requires forall e :: e in l.kept && Old(l.current, minCount, cutoff, e) ==> e.seqNo in gone
    ensures SweepIsClean(l, gone)
  {
    forall e, f | e in l.kept && f in l.kept && e.seqNo < f.seqNo && f.seqNo in gone ensures e.seqNo in gone {
      var i :| 0 <= i < |l.kept| && l.kept[i] == f;
      assert e.occurredAt <= f.occurredAt;
    }
  }

  /** From an empty log on, whatever was appended and cleanly swept: a reader whose cursor is at least the retention bound
      sees every visible event there ever was after its cursor, once and in order. */
  lemma SweptLogIsComplete(w: World, changes: seq<Change>, actor: Id, session: Option<Id>, cursor: nat, through: nat)
    requires SweepsAreClean(Log([], [], 0), changes)
    ensures var l := History(Log([], [], 0), changes);
            MinRetained(l.kept, l.current) <= cursor ==>
              Filter(l.kept, Wanted(VisibleTo(w, actor, session), cursor, through)) == Filter(l.full, Wanted(VisibleTo(w, actor, session), cursor, through))
  {
    HistoryStaysEndExactlyWhen(Log([], [], 0), changes);
    var l := History(Log([], [], 0), changes);
    if MinRetained(l.kept, l.current) <= cursor {
      CatchUpMissesNothing(w, l.full, l.kept, l.current, actor, session, cursor, through);
    }
  }

  /** Two transactions, the first event and the second: each starts before it takes its number, and the second number is
      taken later than the first. */
  ghost predicate Overlap(firstStart: int, firstNumber: int, secondStart: int, secondNumber: int) {
    firstStart <= firstNumber < secondNumber && secondStart <= secondNumber
  }

  /** Either assumption is needed.  Of two overlapping transactions, the one that starts first can take the later number,
      and its event is then the older one: under a clock that never goes back, a sweep between the two times leaves a hole
      above the bound. */
  lemma OverlappingTransactionsLeaveHole(a: Event, b: Event, current: nat, cutoff: int)
    requires a.seqNo == 1 && b.seqNo == 2 && current >= 3 && b.occurredAt < cutoff <= a.occurredAt
    ensures Overlap(a.occurredAt, a.occurredAt, b.occurredAt, a.occurredAt + 1)
    ensures var kept := Filter([a, b], Recent(current, 1, cutoff));
            MinRetained(kept, current) == 0 && !CompleteFrom([a, b], kept, 0)
  {
    var full := [a, b];
    var recent := Recent(current, 1, cutoff);
    FilterMembers(full, recent);
    assert Filter(full, recent)[0] == a;
    assert b in full && b !in Filter(full, recent);
  }

  lemma FourChanges(l: Log, a: Change, b: Change, c: Change, d: Change)
    ensures History(l, [a, b, c, d]) == Changed(Changed(Changed(Changed(l, a), b), c), d)
  {
    assert [a, b, c, d][1..] == [b, c, d] && [b, c, d][1..] == [c, d] && [c, d][1..] == [d] && [d][1..] == [];
    var second := Changed(Changed(l, a), b);
    assert History(Changed(second, c), [d]) == Changed(Changed(second, c), d);
    assert History(second, [c, d]) == Changed(Changed(second, c), d);
    assert History(Changed(l, a), [b, c, d]) == Changed(Changed(second, c), d);
  }

  /** Such a history: two overlapping transactions, one more event, and a sweep of all that is old without locked rows. */
  lemma OverlapIsReachable(a: Event, b: Event, c: Event, cutoff: int)
    requires a.seqNo == 1 && b.seqNo == 2 && c.seqNo == 3 && b.occurredAt < cutoff <= a.occurredAt
    ensures var t := History(Log([], [], 0), [Append(a), Append(b), Append(c), Sweep(1, cutoff, {2})]);
            && t.full == [a, b, c] && t.kept == [a, c] && t.current == 3
            && (forall e :: e in t.full && Old(3, 1, cutoff, e) ==> e == b)
            && MinRetained(t.kept, t.current) == 0 && !CompleteFrom(t.full, t.kept, 0)
  {
    FourChanges(Log([], [], 0), Append(a), Append(b), Append(c), Sweep(1, cutoff, {2}));
    var l := Log([a, b, c], [a, b, c], 3);
    assert [] + [a] == [a] && [a] + [b] == [a, b] && [a, b] + [c] == [a, b, c];
    assert OnlyOld(l, 1, cutoff, {2});
    FilterPair(a, b, Outside({2}));
    FilterConcat([a, b], [c], Outside({2}));
    assert [c][1..] == [];
    assert Filter([a, b, c], Outside({2})) == [a] + [c];
    assert b in l.full;
  }

  lemma FilterPair(a: Event, b: Event, p: Event -> bool)
    ensures Filter([a, b], p) == (if p(a) then [a] else []) + (if p(b) then [b] else [])
  {
    assert [a, b] == [a] + [b] && [b][1..] == [] && [a][1..] == [];
    FilterConcat([a], [b], p);
  }

  /** And a row that another transaction holds stays behind while later rows go. */
  lemma LockedRowLeavesHole(a: Event, b: Event, current: nat, cutoff: int, batch: nat)
    requires a.seqNo == 1 && b.seqNo == 2 && current >= 3 && a.occurredAt <= b.occurredAt < cutoff && batch >= 1
    ensures var kept := Filter([a, b], Outside(Numbers(Victims([a, b], current, 1, cutoff, batch, {1}))));
            kept == [a] && MinRetained(kept, current) == 0 && !CompleteFrom([a, b], kept, 0)
  {
    var full, p := [a, b], Candidate(current, 1, cutoff, {1});
    FilterPair(a, b, p);
    FilterPair(a, b, Outside({2}));
    var victims := Victims(full, current, 1, cutoff, batch, {1});
    assert victims == [b];
    assert Numbers(victims) == {2} by { assert victims[0].seqNo == 2; }
    assert b in full;
  }
}
