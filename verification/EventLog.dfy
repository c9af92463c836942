/**
 * One organization's event log (core/internal/eventlog/store.go): bounds, catch-up pages and live pages, with the
 * loops of the realtime package that page through them.  A log is listed in sequence order.
 */
module EventLog {
  import opened Collections

  type Id = nat

  datatype Event = Event(seqNo: nat, kind: string, occurredAt: int, actor: Id, chat: Option<Id>, subject: Id,
                         audience: Option<Id>, excludedSession: Option<Id>, data: string)

  /** What the readers join with: the messages as they are now, the active actors, the memberships, the archived chats. */
  datatype World = World(messages: map<Id, string>, active: set<Id>, members: set<(Id, Id)>, archived: set<Id>)

  datatype Frame = Frame(seqNo: nat, kind: string, occurredAt: int, actor: Id, chat: Option<Id>, subject: Id, data: string)

  datatype LiveEvent = LiveEvent(frame: Frame, recipients: set<Id>, excludedSession: Option<Id>)

  function SeqOf(e: Event): int { e.seqNo }

  ghost predicate ValidLog(log: seq<Event>) { Ascending(log, SeqOf) }

  // ---------- the readers ----------

  predicate IsMessage(kind: string) { kind == "message.created" || kind == "message.updated" || kind == "message.deleted" }

  function FrameOf(w: World, e: Event): Frame {
    Frame(e.seqNo, e.kind, e.occurredAt, e.actor, e.chat, e.subject,
          if IsMessage(e.kind) && e.subject in w.messages then w.messages[e.subject] else e.data)
  }

  function Frames(w: World, events: seq<Event>): seq<Frame> { seq(|events|, i requires 0 <= i < |events| => FrameOf(w, events[i])) }

  predicate ChatIsOpen(w: World, e: Event)
    requires e.chat.Some?
  {
    e.chat.value !in w.archived || e.kind == "chat.archived"
  }

  predicate Excluded(e: Event, session: Option<Id>) { e.excludedSession.Some? && session.Some? && e.excludedSession == session }

  /** The WHERE clause of the catch-up query. */
  predicate Visible(w: World, actor: Id, session: Option<Id>, e: Event) {
    && (e.audience.None? || e.audience.value == actor)
    && !Excluded(e, session)
    && (e.chat.None? || ((e.chat.value, actor) in w.members && actor in w.active && ChatIsOpen(w, e)))
  }

  predicate InRange(e: Event, after: int, through: int) { after < e.seqNo <= through }

  /** The events of a range that pass a test. */
  function Wanted(test: Event -> bool, after: int, through: int): Event -> bool {
    (e: Event) => InRange(e, after, through) && test(e)
  }

  function VisibleTo(w: World, actor: Id, session: Option<Id>): Event -> bool { (e: Event) => Visible(w, actor, session, e) }

  function Every(): Event -> bool { (e: Event) => true }

  function Replay(w: World, log: seq<Event>, actor: Id, session: Option<Id>, after: int, through: int, limit: int): seq<Frame> {
    if through <= after || limit < 1 then []
    else Frames(w, Take(Filter(log, Wanted(VisibleTo(w, actor, session), after, through)), limit))
  }

  /** The recipients that the live query aggregates. */
  function Recipients(w: World, e: Event): set<Id> {
    set a | a in w.active
      && (e.audience.None? || a == e.audience.value)
      && (e.chat.None? || ((e.chat.value, a) in w.members && ChatIsOpen(w, e)))
  }

  function LiveOf(w: World, e: Event): LiveEvent { LiveEvent(FrameOf(w, e), Recipients(w, e), e.excludedSession) }

  function LiveEvents(w: World, events: seq<Event>): seq<LiveEvent> { seq(|events|, i requires 0 <= i < |events| => LiveOf(w, events[i])) }

  function Live(w: World, log: seq<Event>, after: int, through: int, limit: int): seq<LiveEvent> {
    if through <= after || limit < 1 then []
    else LiveEvents(w, Take(Filter(log, Wanted(Every(), after, through)), limit))
  }

  /** The high watermark and the lowest cursor from which the log is complete. */
  function MinRetained(log: seq<Event>, current: nat): nat {
    if log == [] then current else if log[0].seqNo == 0 then 0 else log[0].seqNo - 1
  }

  // ---------- paging ----------

  lemma NothingWanted(log: seq<Event>, test: Event -> bool, after: int, through: int)
    requires through <= after
    ensures Filter(log, Wanted(test, after, through)) == []
  {
    FilterNone(log, Wanted(test, after, through));
  }

  lemma LastOfPage(log: seq<Event>, test: Event -> bool, from: int, through: int, limit: nat)
    requires limit >= 1 && Filter(log, Wanted(test, from, through)) != []
    ensures var page := Take(Filter(log, Wanted(test, from, through)), limit);
            page != [] && from < page[|page| - 1].seqNo <= through
  {
    var kept := Filter(log, Wanted(test, from, through));
    FilterMembers(log, Wanted(test, from, through));
    var page := Take(kept, limit);
    assert page[|page| - 1] == kept[|page| - 1] && kept[|page| - 1] in kept;
  }

  /** A page is the wanted part of the log up to the page's last event; a short page is all of it. */
  lemma PageSplits(log: seq<Event>, test: Event -> bool, from: int, through: int, limit: nat)
    requires ValidLog(log) && limit >= 1 && Filter(log, Wanted(test, from, through)) != []
    ensures var all := Filter(log, Wanted(test, from, through));
            var page := Take(all, limit);
            && page != [] && from < page[|page| - 1].seqNo <= through
            && all == page + Filter(log, Wanted(test, page[|page| - 1].seqNo, through))
            && (|page| < limit ==> Filter(log, Wanted(test, page[|page| - 1].seqNo, through)) == [])
  {
    LastOfPage(log, test, from, through, limit);
    PageIsRange(log, test, from, through, limit);
    var page := Take(Filter(log, Wanted(test, from, through)), limit);
    RangeSplits(log, test, from, page[|page| - 1].seqNo, through);
  }

  lemma PageIsRange(log: seq<Event>, test: Event -> bool, from: int, through: int, limit: nat)
    requires ValidLog(log) && limit >= 1 && Filter(log, Wanted(test, from, through)) != []
    ensures var page := Take(Filter(log, Wanted(test, from, through)), limit);
            page != [] && page == Filter(log, Wanted(test, from, page[|page| - 1].seqNo))
  {
    LastOfPage(log, test, from, through, limit);
    var all := Filter(log, Wanted(test, from, through));
    var page := Take(all, limit);
    assert page == all[..|page|] && all[|page| - 1] == page[|page| - 1];
    FirstKept(log, SeqOf, Wanted(test, from, through), |page|, Wanted(test, from, page[|page| - 1].seqNo));
  }

  lemma RangeSplits(log: seq<Event>, test: Event -> bool, from: int, mid: int, through: int)
    requires ValidLog(log) && from < mid <= through
    ensures Filter(log, Wanted(test, from, through)) == Filter(log, Wanted(test, from, mid)) + Filter(log, Wanted(test, mid, through))
  {
    FilterSplits(log, SeqOf, Wanted(test, from, mid), Wanted(test, mid, through), Wanted(test, from, through), mid);
  }

  lemma FramesConcat(w: World, a: seq<Event>, b: seq<Event>)
    ensures Frames(w, a + b) == Frames(w, a) + Frames(w, b)
    ensures LiveEvents(w, a + b) == LiveEvents(w, a) + LiveEvents(w, b)
  {
  }

  /** What is already sent and what is still wanted make up the whole. */
  ghost predicate Progress(log: seq<Event>, test: Event -> bool, after: int, through: int, sent: seq<Event>, cursor: int) {
    Filter(log, Wanted(test, after, through)) == sent + Filter(log, Wanted(test, cursor, through))
  }

  /** One page more. */
  lemma NextPage(log: seq<Event>, test: Event -> bool, after: int, through: int, sent: seq<Event>, cursor: int, limit: nat)
    requires ValidLog(log) && limit >= 1 && Progress(log, test, after, through, sent, cursor)
    requires Filter(log, Wanted(test, cursor, through)) != []
    ensures var page := Take(Filter(log, Wanted(test, cursor, through)), limit);
            && page != [] && cursor < page[|page| - 1].seqNo <= through
            && Progress(log, test, after, through, sent + page, page[|page| - 1].seqNo)
            && (|page| < limit ==> Progress(log, test, after, through, sent + page, through))
  {
    PageSplits(log, test, cursor, through, limit);
    var page := Take(Filter(log, Wanted(test, cursor, through)), limit);
    var rest := Filter(log, Wanted(test, page[|page| - 1].seqNo, through));
    assert sent + (page + rest) == (sent + page) + rest;
    NothingWanted(log, test, through, through);
  }

  lemma LastPage(log: seq<Event>, test: Event -> bool, after: int, through: int, sent: seq<Event>, cursor: int)
    requires Progress(log, test, after, through, sent, cursor)
    requires through <= cursor || Filter(log, Wanted(test, cursor, through)) == []
    ensures Filter(log, Wanted(test, after, through)) == sent && Progress(log, test, after, through, sent, through)
  {
    if through <= cursor { NothingWanted(log, test, cursor, through); }
    NothingWanted(log, test, through, through);
    assert sent + [] == sent;
  }

  /** The events of the next catch-up page. */
  lemma ReplayStep(w: World, log: seq<Event>, actor: Id, session: Option<Id>, after: nat, through: nat, sent: seq<Event>, cursor: nat, limit: nat)
    returns (page: seq<Event>)
    requires ValidLog(log) && limit >= 1 && cursor < through && Progress(log, VisibleTo(w, actor, session), after, through, sent, cursor)
    ensures Replay(w, log, actor, session, cursor, through, limit) == Frames(w, page) && Frames(w, sent + page) == Frames(w, sent) + Frames(w, page)
    ensures |page| < limit ==> Progress(log, VisibleTo(w, actor, session), after, through, sent + page, through)
    ensures page != [] ==> cursor < page[|page| - 1].seqNo <= through
                           && Progress(log, VisibleTo(w, actor, session), after, through, sent + page, page[|page| - 1].seqNo)
  {
    var test := VisibleTo(w, actor, session);
    page := Take(Filter(log, Wanted(test, cursor, through)), limit);
    FramesConcat(w, sent, page);
    if Filter(log, Wanted(test, cursor, through)) == [] {
      LastPage(log, test, after, through, sent, cursor);
      assert sent + page == sent;
    } else {
      NextPage(log, test, after, through, sent, cursor, limit);
    }
  }

  /** The events of the next live page. */
  lemma LiveStep(w: World, log: seq<Event>, after: nat, through: nat, sent: seq<Event>, cursor: nat, limit: nat) returns (page: seq<Event>)
    requires ValidLog(log) && limit >= 1 && cursor < through && Progress(log, Every(), after, through, sent, cursor)
    ensures Live(w, log, cursor, through, limit) == LiveEvents(w, page) && LiveEvents(w, sent + page) == LiveEvents(w, sent) + LiveEvents(w, page)
    ensures page == [] ==> Progress(log, Every(), after, through, sent, through)
    ensures page != [] ==> cursor < page[|page| - 1].seqNo <= through && Progress(log, Every(), after, through, sent + page, page[|page| - 1].seqNo)
  {
    page := Take(Filter(log, Wanted(Every(), cursor, through)), limit);
    FramesConcat(w, sent, page);
    if Filter(log, Wanted(Every(), cursor, through)) == [] {
      LastPage(log, Every(), after, through, sent, cursor);
    } else {
      NextPage(log, Every(), after, through, sent, cursor, limit);
    }
  }

  lemma NothingSent(log: seq<Event>, test: Event -> bool, after: int, through: int)
    ensures Progress(log, test, after, through, [], after)
  {
    var all := Filter(log, Wanted(test, after, through));
    assert [] + all == all;
  }

  /** Catching up: pages of any sizes deliver every wanted event once and in order. */
  method CatchUp(w: World, log: seq<Event>, actor: Id, session: Option<Id>, after: nat, through: nat, limits: nat -> nat)
    returns (delivered: seq<Frame>)
    requires ValidLog(log) && forall n :: limits(n) >= 1
    ensures delivered == Frames(w, Filter(log, Wanted(VisibleTo(w, actor, session), after, through)))
  {
    ghost var test := VisibleTo(w, actor, session);
    ghost var sent: seq<Event> := [];
    NothingSent(log, test, after, through);
    var deliveredThrough, pages := after, 0;
    delivered := [];
    while deliveredThrough < through
      invariant delivered == Frames(w, sent) && Progress(log, test, after, through, sent, deliveredThrough)
      decreases through - deliveredThrough
    {
      var queryLimit := limits(pages);
      var frames := Replay(w, log, actor, session, deliveredThrough, through, queryLimit);
      ghost var page := ReplayStep(w, log, actor, session, after, through, sent, deliveredThrough, queryLimit);
      pages := pages + 1;
      sent := sent + page;
      if |frames| == 0 {
        deliveredThrough := through;
      } else {
        delivered := delivered + frames;
        deliveredThrough := if |frames| < queryLimit then through else frames[|frames| - 1].seqNo;
      }
    }
    LastPage(log, test, after, through, sent, deliveredThrough);
  }

  /** The dispatcher's loop: live pages, whose limit counts events and not visible events. */
  method Poll(w: World, log: seq<Event>, watermark: nat, current: nat, limit: nat) returns (published: seq<LiveEvent>, from: nat)
    requires ValidLog(log) && limit >= 1
    ensures published == LiveEvents(w, Filter(log, Wanted(Every(), watermark, current)))
    ensures from == if watermark < current then current else watermark
  {
    ghost var sent: seq<Event> := [];
    NothingSent(log, Every(), watermark, current);
    from := watermark;
    published := [];
    while from < current
      invariant published == LiveEvents(w, sent) && Progress(log, Every(), watermark, current, sent, from)
      invariant from <= current || from == watermark
      decreases current - from
    {
      var items := Live(w, log, from, current, limit);
      ghost var page := LiveStep(w, log, watermark, current, sent, from, limit);
      if |items| == 0 {
        from := current;
        break;
      }
      published, sent := published + items, sent + page;
      from := items[|items| - 1].frame.seqNo;
    }
    LastPage(log, Every(), watermark, current, sent, from);
  }

  // ---------- the two readers agree ----------

  /** What a session sees of the live events: those that list its actor and do not exclude it. */
  function Received(events: seq<LiveEvent>, actor: Id, session: Option<Id>): seq<Frame> {
    if events == [] then []
    else
      (if actor in events[0].recipients && !(events[0].excludedSession.Some? && session.Some? && events[0].excludedSession == session)
       then [events[0].frame] else [])
      + Received(events[1..], actor, session)
  }

  lemma RecipientIsVisible(w: World, actor: Id, session: Option<Id>, e: Event)
    ensures actor in w.active ==> (Visible(w, actor, session, e) <==> actor in Recipients(w, e) && !Excluded(e, session))
    ensures actor !in w.active ==> actor !in Recipients(w, e)
                                   && (Visible(w, actor, session, e) <==> e.chat.None? && (e.audience.None? || e.audience.value == actor) && !Excluded(e, session))
  {
  }

  lemma {:induction false} ReceivedIsFiltered(w: World, events: seq<Event>, actor: Id, session: Option<Id>)
    requires actor in w.active
    ensures Received(LiveEvents(w, events), actor, session) == Frames(w, Filter(events, VisibleTo(w, actor, session)))
  {
    if events != [] {
      var e := events[0];
      RecipientIsVisible(w, actor, session, e);
      assert LiveEvents(w, events)[1..] == LiveEvents(w, events[1..]);
      ReceivedIsFiltered(w, events[1..], actor, session);
      FramesConcat(w, if Visible(w, actor, session, e) then [e] else [], Filter(events[1..], VisibleTo(w, actor, session)));
    }
  }

  lemma {:induction false} NothingReceived(w: World, events: seq<Event>, actor: Id, session: Option<Id>)
    requires actor !in w.active
    ensures Received(LiveEvents(w, events), actor, session) == []
  {
    if events != [] {
      RecipientIsVisible(w, actor, session, events[0]);
      assert LiveEvents(w, events)[1..] == LiveEvents(w, events[1..]);
      NothingReceived(w, events[1..], actor, session);
    }
  }

  /** Both readers over one range, page by page or not: they agree, frame by frame, for an active actor, and for an
      inactive one exactly when the range has no event outside chats that the catch-up query still shows it. */
  lemma ReadersAgreeExactlyWhen(w: World, log: seq<Event>, actor: Id, session: Option<Id>, after: nat, through: nat)
    ensures var live := LiveEvents(w, Filter(log, Wanted(Every(), after, through)));
            var replayed := Frames(w, Filter(log, Wanted(VisibleTo(w, actor, session), after, through)));
            Received(live, actor, session) == replayed <==>
              actor in w.active
              || forall e :: e in log && InRange(e, after, through) && e.chat.None? && (e.audience.None? || e.audience.value == actor) ==> Excluded(e, session)
  {
    var ranged, wanted := Filter(log, Wanted(Every(), after, through)), Wanted(VisibleTo(w, actor, session), after, through);
    if actor in w.active {
      ReceivedIsFiltered(w, ranged, actor, session);
      FilterTwice(log, Wanted(Every(), after, through), VisibleTo(w, actor, session), wanted);
    } else {
      NothingReceived(w, ranged, actor, session);
      FilterMembers(log, wanted);
      forall e | e in log ensures wanted(e) <==>
        InRange(e, after, through) && e.chat.None? && (e.audience.None? || e.audience.value == actor) && !Excluded(e, session)
      {
        RecipientIsVisible(w, actor, session, e);
      }
      var kept := Filter(log, wanted);
      if kept != [] {
        assert kept[0] in kept;
      }
    }
  }

  /** An event outside chats, and an actor who has been deactivated: the live query lists nobody, the catch-up query still
      shows the event. */
  lemma DeactivatedActorSeesMore(w: World, actor: Id)
    requires actor !in w.active
    ensures var log := [Event(1, "agent.updated", 0, actor, None, 0, None, None, "")];
            && Received(Live(w, log, 0, 1, 10), actor, None) == []
            && Replay(w, log, actor, None, 0, 1, 10) == [FrameOf(w, log[0])]
  {
    var log := [Event(1, "agent.updated", 0, actor, None, 0, None, None, "")];
    assert log[1..] == [];
    var wanted := Wanted(VisibleTo(w, actor, None), 0, 1);
    assert InRange(log[0], 0, 1);
    assert Visible(w, actor, None, log[0]);
    assert VisibleTo(w, actor, None)(log[0]);
    assert wanted(log[0]);
    assert Filter(log, wanted) == [log[0]] + Filter(log[1..], wanted) == log;
    assert Take(log, 10) == log;
    assert Frames(w, log) == [FrameOf(w, log[0])];
    NothingReceived(w, Take(Filter(log, Wanted(Every(), 0, 1)), 10), actor, None);
  }
}
