/** The membership operations on the rows they change (core/internal/chat/chat.go), when nothing else runs in between. */
module ChatService {
  import opened Collections
  import opened Membership

  datatype Outcome = Done | ErrInvalid | ErrForbidden | ErrNotFound | ErrConflict

  /** Anyone may join an open public group or channel. */
  predicate Joinable(chat: Chat) { chat.isPublic && chat.kind != Direct && !chat.archived }

  class Chats {
    var chats: map<Id, Chat>
    var pairs: map<(Id, Id), Id>
    var active: set<Id>
    var events: seq<Event>
    var eventSeq: nat

    function Table(): State reads this { State(chats, pairs, active, events, eventSeq, {}) }

    ghost predicate Valid() reads this { Inv(Table()) && AllHaveOwners(Table()) }

    constructor (active: set<Id>)
      ensures Valid() && Table() == Empty(active)
    {
      this.active := active;
      chats, pairs, events, eventSeq := map[], map[], [], 0;
    }

    method AppendDurableEvent(chat: Option<Id>, audience: Option<Id>, change: Change) returns (seqNo: nat)
      modifies this`events, this`eventSeq
      ensures Table() == Append(old(Table()), chat, audience, change) && seqNo == eventSeq
    {
      eventSeq := eventSeq + 1;
      events := events + [Event(eventSeq, chat, audience, change)];
      seqNo := eventSeq;
    }

    /** The members of a new chat: the creator owns it, every other active actor that is named is a member once, and an
        inactive one makes the creation fail. */
    method CollectMembers(creator: Id, members: seq<Id>) returns (roles: Option<Roles>)
      ensures roles == if exists m :: m in members && m != creator && m !in active then None else Some(Everyone(members)[creator := Owner])
    {
      var seen: set<Id>, rows: Roles := {creator}, map[creator := Owner];
      for i := 0 to |members|
        invariant rows == Everyone(members[..i])[creator := Owner] && seen == rows.Keys
        invariant forall k :: 0 <= k < i ==> members[k] == creator || members[k] in active
      {
        var actor := members[i];
        assert members[..i + 1] == members[..i] + [actor];
        if actor in seen {
          continue;
        }
        seen := seen + {actor};
        if actor !in active {
          assert members[i] in members;
          return None;
        }
        rows := rows[actor := Member];
      }
      assert members[..|members|] == members;
      roles := Some(rows);
    }

    method Create(id: Id, kind: Kind, isPublic: bool, creator: Id, members: seq<Id>) returns (outcome: Outcome)
      requires Valid() && id !in chats
      modifies this
      ensures Valid() && Table() == Next(old(Table()), Step.Create(id, kind, isPublic, creator, members))
      ensures outcome == Done <==> kind != Direct && forall m :: m in members ==> m == creator || m in active
      ensures outcome == Done <==> id in chats
      ensures outcome == Done ==> Owners(chats[id]) == {creator} && eventSeq == old(eventSeq) + 1
      ensures outcome != Done ==> Table() == old(Table())
    {
      StepKeepsAll(Table(), Step.Create(id, kind, isPublic, creator, members));
      if kind == Direct {
        return ErrInvalid;
      }
      var roles := CollectMembers(creator, members);
      if roles.None? {
        return ErrInvalid;
      }
      chats := chats[id := Chat(kind, isPublic, false, roles.value, roles.value)];
      var seqNo := AppendDurableEvent(Some(id), None, Other);
      outcome := Done;
    }

    method Join(id: Id, actor: Id) returns (outcome: Outcome)
      requires Valid()
      modifies this
      ensures Valid() && Table() == Next(old(Table()), Step.Join(id, actor))
      ensures outcome == Done <==> id in chats && actor in chats[id].roles
      ensures outcome == Done <==> old(id in chats && (actor in chats[id].roles || Joinable(chats[id])))
      ensures old(id in chats && actor in chats[id].roles) || outcome != Done ==> Table() == old(Table())
    {
      StepKeepsAll(Table(), Step.Join(id, actor));
      if id !in chats {
        return ErrNotFound;
      }
      var chat := chats[id];
      if Joinable(chat) && actor !in chat.roles {
        chats := chats[id := chat.(roles := chat.roles[actor := Member])];
        var seqNo := AppendDurableEvent(Some(id), None, Joined(actor, Member));
        return Done;
      }
      outcome := if actor in chat.roles then Done else ErrNotFound;
    }

    /** A managing operation: the check, then the guarded statement and its events. */
    method Manage(op: Op) returns (outcome: Outcome)
      requires Valid()
      modifies this
      ensures Valid() && Table() == TakeTurn(old(Table()), Managed(op))
      ensures outcome == Done <==> old(CheckPasses(Table(), op)) && old(Guard(Table(), op))
      ensures outcome != Done ==> Table() == old(Table())
    {
      ghost var before := Table();
      ManagedKeepsAll(before, op);
      if !CheckPasses(Table(), op) {
        return ErrForbidden;
      }
      ManagedIsPerform(before, op);
      if !Guard(Table(), op) {
        return ErrConflict;
      }
      var chat := chats[op.chat];
      match op {
        case AddMember(id, _, _, target, role) =>
          chats := chats[id := chat.(roles := chat.roles[target := role])];
          var seqNo := AppendDurableEvent(Some(id), None, Joined(target, role));
        case UpdateMember(id, _, _, target, role) =>
          chats := chats[id := chat.(roles := chat.roles[target := role])];
          var seqNo := AppendDurableEvent(Some(id), None, Updated(target, role));
        case RemoveMember(id, _, _, target) =>
          chats := chats[id := chat.(roles := chat.roles - {target})];
          var seqNo := AppendDurableEvent(Some(id), None, Removed(target));
          seqNo := AppendDurableEvent(None, Some(target), Removed(target));
      }
      outcome := Done;
    }
  }

  lemma StepKeepsAll(s: State, step: Step)
    requires Inv(s) && AllHaveOwners(s) && s.checked == {} && !step.Check? && !step.Commit?
    ensures Inv(Next(s, step)) && AllHaveOwners(Next(s, step))
  {
    StepAgrees(s, step);
    StepKeepsDirects(s, step);
    PlainStepKeepsOwners(s, step);
  }

  lemma ManagedKeepsAll(s: State, op: Op)
    requires Inv(s) && AllHaveOwners(s) && s.checked == {}
    ensures Inv(TakeTurn(s, Managed(op))) && AllHaveOwners(TakeTurn(s, Managed(op)))
  {
    ManagedTurnKeepsOwners(s, op);
    StepAgrees(s, Check(op));
    StepKeepsDirects(s, Check(op));
    StepAgrees(Next(s, Check(op)), Commit(op));
    StepKeepsDirects(Next(s, Check(op)), Commit(op));
  }

  lemma ManagedIsPerform(s: State, op: Op)
    requires s.checked == {} && CheckPasses(s, op)
    ensures TakeTurn(s, Managed(op)) == Perform(s, op)
  {
    var c := s.(checked := {op});
    assert Next(s, Check(op)) == c;
    assert c.(checked := c.checked - {op}) == s;
  }
}
