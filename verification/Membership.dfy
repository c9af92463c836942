/**
 * Chat membership and the events that report it (core/internal/chat/chat.go).  Managing operations first check the
 * manager's role and the owner count, and then change the rows in a transaction under the organization's lock; the
 * check and the transaction are separate steps here.
 */
module Membership {
  import opened Collections

  type Id = nat

  datatype Role = Owner | Admin | Member

  datatype Kind = Direct | Group | Channel

  type Roles = map<Id, Role>

  /** A chat with its members and, for reference, the members it was created with. */
  datatype Chat = Chat(kind: Kind, isPublic: bool, archived: bool, roles: Roles, created: Roles)

  datatype Change = Joined(actor: Id, role: Role) | Updated(actor: Id, role: Role) | Removed(actor: Id) | Other

  /** An event in the log; only the events of a chat itself carry the chat. */
  datatype Event = Event(seqNo: nat, chat: Option<Id>, audience: Option<Id>, change: Change)

  datatype Op =
    | AddMember(chat: Id, manager: Id, moderator: bool, target: Id, role: Role)
    | UpdateMember(chat: Id, manager: Id, moderator: bool, target: Id, role: Role)
    | RemoveMember(chat: Id, manager: Id, moderator: bool, target: Id)

  datatype State = State(chats: map<Id, Chat>, pairs: map<(Id, Id), Id>, active: set<Id>, events: seq<Event>, eventSeq: nat, checked: set<Op>)

  datatype Step =
    | Create(chat: Id, kind: Kind, isPublic: bool, creator: Id, members: seq<Id>)
    | CreateDirect(chat: Id, actor: Id, other: Id)
    | Join(chat: Id, actor: Id)
    | Check(op: Op)
    | Commit(op: Op)
    | Archive(chat: Id)
    | SetActive(actor: Id, active: bool)

  // ---------- the log ----------

  /** `event_seq` is advanced and used in one statement. */
  function Append(s: State, chat: Option<Id>, audience: Option<Id>, change: Change): State {
    s.(eventSeq := s.eventSeq + 1, events := s.events + [Event(s.eventSeq + 1, chat, audience, change)])
  }

  function Apply(roles: Roles, change: Change): Roles {
    match change
    case Joined(actor, role) => roles[actor := role]
    case Updated(actor, role) => roles[actor := role]
    case Removed(actor) => roles - {actor}
    case Other => roles
  }

  /** A membership followed through the events of its chat. */
  function Fold(roles: Roles, events: seq<Event>, chat: Id): Roles {
    if events == [] then roles
    else
      var before := Fold(roles, events[..|events| - 1], chat);
      if events[|events| - 1].chat == Some(chat) then Apply(before, events[|events| - 1].change) else before
  }

  // ---------- creating and joining ----------

  function Everyone(members: seq<Id>): Roles {
    map i: Id | i in members :: Member
  }

  function CreateChat(s: State, id: Id, kind: Kind, isPublic: bool, creator: Id, members: seq<Id>): State {
    if id in s.chats || kind == Direct || (exists m :: m in members && m != creator && m !in s.active) then s
    else
      var roles := Everyone(members)[creator := Owner];
      Append(s.(chats := s.chats[id := Chat(kind, isPublic, false, roles, roles)]), Some(id), None, Other)
  }

  function Pair(a: Id, b: Id): (Id, Id) { if a <= b then (a, b) else (b, a) }

  /** The upsert on the pair key; the two members are inserted where they are missing. */
  function DirectChat(s: State, id: Id, actor: Id, other: Id): State {
    if actor == other || other !in s.active then s
    else if Pair(actor, other) in s.pairs then
      var existing := s.pairs[Pair(actor, other)];
      if existing in s.chats then
        var chat := s.chats[existing];
        s.(chats := s.chats[existing := chat.(roles := map[actor := Member, other := Member] + chat.roles)])
      else s
    else if id in s.chats then s
    else
      var roles := map[actor := Member, other := Member];
      Append(s.(chats := s.chats[id := Chat(Direct, false, false, roles, roles)], pairs := s.pairs[Pair(actor, other) := id]), Some(id), None, Other)
  }

  function WithRoles(s: State, id: Id, roles: Roles): State
    requires id in s.chats
  {
    s.(chats := s.chats[id := s.chats[id].(roles := roles)])
  }

  function JoinChat(s: State, id: Id, actor: Id): State {
    if id !in s.chats || !s.chats[id].isPublic || s.chats[id].kind == Direct || s.chats[id].archived || actor in s.chats[id].roles then s
    else Append(WithRoles(s, id, s.chats[id].roles[actor := Member]), Some(id), None, Joined(actor, Member))
  }

  // ---------- the checks before a managing operation ----------

  function RoleIn(chat: Chat, actor: Id): Option<Role> { if actor in chat.roles then Some(chat.roles[actor]) else None }

  function Owners(chat: Chat): set<Id> { set a | a in chat.roles && chat.roles[a] == Owner }

  /** What is checked outside the lock; a manager who is not a member has no role. */
  predicate MayManage(chat: Chat, manager: Id, moderator: bool) {
    var role := RoleIn(chat, manager);
    && !chat.archived && chat.kind != Direct && (role.Some? || moderator)
    && (moderator || role == Some(Owner) || role == Some(Admin))
  }

  predicate CheckPasses(s: State, op: Op) {
    op.chat in s.chats &&
    var chat := s.chats[op.chat];
    var role := RoleIn(chat, op.manager);
    match op
    case AddMember(_, manager, moderator, target, newRole) =>
      MayManage(chat, manager, moderator) && (newRole == Owner ==> role == Some(Owner))
    case UpdateMember(_, manager, moderator, target, newRole) =>
      && MayManage(chat, manager, moderator) && target in chat.roles
      && (chat.roles[target] == Owner || newRole == Owner ==> role == Some(Owner))
      && (chat.roles[target] == Owner && newRole != Owner ==> |Owners(chat)| > 1)
    case RemoveMember(_, manager, moderator, target) =>
      && !chat.archived && chat.kind != Direct && (role.Some? || moderator)
      && (manager == target || MayManage(chat, manager, moderator)) && target in chat.roles
      && (manager != target && chat.roles[target] == Owner ==> role == Some(Owner))
      && (chat.roles[target] == Owner ==> |Owners(chat)| > 1)
  }

  // ---------- the guarded statements under the lock ----------

  predicate ActiveManager(chat: Chat, manager: Id) {
    && chat.kind != Direct && !chat.archived && manager in chat.roles && (chat.roles[manager] == Owner || chat.roles[manager] == Admin)
  }

  predicate Guard(s: State, op: Op) {
    op.chat in s.chats &&
    var chat := s.chats[op.chat];
    match op
    case AddMember(_, manager, moderator, target, role) =>
      && target in s.active && target !in chat.roles
      && ((ActiveManager(chat, manager) && (role == Owner ==> chat.roles[manager] == Owner)) || (moderator && role != Owner))
    case UpdateMember(_, manager, moderator, target, role) =>
      && target in chat.roles
      && ((ActiveManager(chat, manager) && (chat.roles[target] == Owner || role == Owner ==> chat.roles[manager] == Owner))
          || (moderator && chat.roles[target] != Owner && role != Owner))
    case RemoveMember(_, manager, moderator, target) =>
      && target in chat.roles
      && ((chat.kind != Direct && !chat.archived && manager in chat.roles
           && (target == manager || (ActiveManager(chat, manager) && (chat.roles[target] == Owner ==> chat.roles[manager] == Owner))))
          || (moderator && chat.roles[target] != Owner))
  }

  function Perform(s: State, op: Op): State {
    if !Guard(s, op) then s
    else
      var roles := s.chats[op.chat].roles;
      match op
      case AddMember(id, _, _, target, role) => Append(WithRoles(s, id, roles[target := role]), Some(id), None, Joined(target, role))
      case UpdateMember(id, _, _, target, role) => Append(WithRoles(s, id, roles[target := role]), Some(id), None, Updated(target, role))
      case RemoveMember(id, _, _, target) =>
        Append(Append(WithRoles(s, id, roles - {target}), Some(id), None, Removed(target)), None, Some(target), Removed(target))
  }

  function Next(s: State, step: Step): State {
    match step
    case Create(chat, kind, isPublic, creator, members) => CreateChat(s, chat, kind, isPublic, creator, members)
    case CreateDirect(chat, actor, other) => DirectChat(s, chat, actor, other)
    case Join(chat, actor) => JoinChat(s, chat, actor)
    case Check(op) => if CheckPasses(s, op) then s.(checked := s.checked + {op}) else s
    case Commit(op) => if op in s.checked then Perform(s.(checked := s.checked - {op}), op) else s
    case Archive(chat) => if chat in s.chats && s.chats[chat].kind != Direct && !s.chats[chat].archived
                          then Append(s.(chats := s.chats[chat := s.chats[chat].(archived := true)]), Some(chat), None, Other) else s
    case SetActive(actor, active) => s.(active := if active then s.active + {actor} else s.active - {actor})
  }

  function Exec(s: State, steps: seq<Step>): State
    decreases |steps|
  {
    if steps == [] then s else Exec(Next(s, steps[0]), steps[1..])
  }

  function Empty(active: set<Id>): State { State(map[], map[], active, [], 0, {}) }

  // ---------- the log agrees with the rows ----------

  ghost predicate Gapless(s: State) {
    s.eventSeq == |s.events| && forall i :: 0 <= i < |s.events| ==> s.events[i].seqNo == i + 1
  }

  /** Membership is the membership at creation, followed through the chat's own events. */
  ghost predicate LogAgrees(s: State) {
    forall id :: id in s.chats ==> s.chats[id].roles == Fold(s.chats[id].created, s.events, id)
  }

  /** Events only ever mention chats that exist. */
  ghost predicate KnownChats(s: State) {
    forall i :: 0 <= i < |s.events| ==> s.events[i].chat.Some? ==> s.events[i].chat.value in s.chats
  }

  ghost predicate DirectsKeepTheirTwo(s: State) {
    && (forall p :: p in s.pairs ==> p.0 != p.1 && s.pairs[p] in s.chats && s.chats[s.pairs[p]].roles == map[p.0 := Member, p.1 := Member])
    && (forall p :: p in s.pairs ==> s.chats[s.pairs[p]].kind == Direct)
    && (forall id :: id in s.chats && s.chats[id].kind == Direct ==> |s.chats[id].roles| == 2 && s.chats[id].roles == s.chats[id].created)
  }

  /** Only operations on groups and channels pass their check. */
  ghost predicate CheckedAreManaged(s: State) {
    forall op :: op in s.checked ==> op.chat in s.chats && s.chats[op.chat].kind != Direct
  }

  ghost predicate Inv(s: State) {
    Gapless(s) && LogAgrees(s) && KnownChats(s) && DirectsKeepTheirTwo(s) && CheckedAreManaged(s)
  }

  lemma FoldSnoc(roles: Roles, events: seq<Event>, e: Event, chat: Id)
    ensures Fold(roles, events + [e], chat) == if e.chat == Some(chat) then Apply(Fold(roles, events, chat), e.change) else Fold(roles, events, chat)
  {
    assert (events + [e])[..|events|] == events;
  }

  lemma {:induction false} FoldOfOthers(roles: Roles, events: seq<Event>, chat: Id)
    requires forall i :: 0 <= i < |events| ==> events[i].chat != Some(chat)
    ensures Fold(roles, events, chat) == roles
  {
    if events != [] { FoldOfOthers(roles, events[..|events| - 1], chat); }
  }

  /** One event, with the change of membership that it reports. */
  lemma AppendAgrees(s: State, t: State, chat: Option<Id>, audience: Option<Id>, change: Change)
    requires Gapless(s) && KnownChats(s) && s.events == t.events && s.eventSeq == t.eventSeq && (chat.Some? ==> chat.value in t.chats)
    requires forall id :: id in s.chats ==> id in t.chats
    requires forall id :: id in t.chats ==>
               var before := Fold(t.chats[id].created, s.events, id);
               t.chats[id].roles == if chat == Some(id) then Apply(before, change) else before
    ensures var n := Append(t, chat, audience, change); Gapless(n) && LogAgrees(n) && KnownChats(n)
  {
    forall id | id in t.chats ensures t.chats[id].roles == Fold(t.chats[id].created, Append(t, chat, audience, change).events, id) {
      FoldSnoc(t.chats[id].created, t.events, Event(t.eventSeq + 1, chat, audience, change), id);
    }
  }

  lemma NewChatAgrees(s: State, id: Id, chat: Chat, pairs: map<(Id, Id), Id>)
    requires Gapless(s) && LogAgrees(s) && KnownChats(s) && id !in s.chats && chat.roles == chat.created
    ensures var n := Append(s.(chats := s.chats[id := chat], pairs := pairs), Some(id), None, Other);
            Gapless(n) && LogAgrees(n) && KnownChats(n)
  {
    var t := s.(chats := s.chats[id := chat], pairs := pairs);
    FoldOfOthers(chat.created, s.events, id);
    AppendAgrees(s, t, Some(id), None, Other);
  }

  lemma ChangedRolesAgree(s: State, id: Id, roles: Roles, change: Change)
    requires Gapless(s) && LogAgrees(s) && KnownChats(s) && id in s.chats && roles == Apply(s.chats[id].roles, change)
    ensures var n := Append(WithRoles(s, id, roles), Some(id), None, change);
            Gapless(n) && LogAgrees(n) && KnownChats(n)
  {
    AppendAgrees(s, WithRoles(s, id, roles), Some(id), None, change);
  }

  lemma PrivateNoticeAgrees(s: State, audience: Id, change: Change)
    requires Gapless(s) && LogAgrees(s) && KnownChats(s)
    ensures var n := Append(s, None, Some(audience), change); Gapless(n) && LogAgrees(n) && KnownChats(n)
  {
    AppendAgrees(s, s, None, Some(audience), change);
  }

  lemma PerformAgrees(s: State, op: Op)
    requires Gapless(s) && LogAgrees(s) && KnownChats(s)
    ensures Gapless(Perform(s, op)) && LogAgrees(Perform(s, op)) && KnownChats(Perform(s, op))
  {
    if Guard(s, op) {
      var roles := s.chats[op.chat].roles;
      match op
      case AddMember(id, _, _, target, role) => ChangedRolesAgree(s, id, roles[target := role], Joined(target, role));
      case UpdateMember(id, _, _, target, role) => ChangedRolesAgree(s, id, roles[target := role], Updated(target, role));
      case RemoveMember(id, _, _, target) =>
        ChangedRolesAgree(s, id, roles - {target}, Removed(target));
        PrivateNoticeAgrees(Append(WithRoles(s, id, roles - {target}), Some(id), None, Removed(target)), target, Removed(target));
    }
  }

  lemma ArchiveAgrees(s: State, id: Id)
    requires Gapless(s) && LogAgrees(s) && KnownChats(s) && id in s.chats
    ensures var n := Append(s.(chats := s.chats[id := s.chats[id].(archived := true)]), Some(id), None, Other);
            Gapless(n) && LogAgrees(n) && KnownChats(n)
  {
    AppendAgrees(s, s.(chats := s.chats[id := s.chats[id].(archived := true)]), Some(id), None, Other);
  }

  /** An existing direct chat already has its two members. */
  lemma UpsertChangesNothing(s: State, actor: Id, other: Id)
    requires DirectsKeepTheirTwo(s) && actor != other && Pair(actor, other) in s.pairs
    ensures var chat := s.chats[s.pairs[Pair(actor, other)]];
            map[actor := Member, other := Member] + chat.roles == chat.roles
  {
  }

  lemma ExistingDirectStays(s: State, id: Id, actor: Id, other: Id)
    requires DirectsKeepTheirTwo(s) && Pair(actor, other) in s.pairs
    ensures DirectChat(s, id, actor, other) == s
  {
    if actor != other && other in s.active {
      UpsertChangesNothing(s, actor, other);
      var existing := s.pairs[Pair(actor, other)];
      assert s.chats[existing := s.chats[existing]] == s.chats;
    }
  }

  lemma DirectAgrees(s: State, id: Id, actor: Id, other: Id)
    requires Inv(s)
    ensures var t := DirectChat(s, id, actor, other); Gapless(t) && LogAgrees(t) && KnownChats(t)
  {
    if actor != other && other in s.active {
      if Pair(actor, other) in s.pairs {
        ExistingDirectStays(s, id, actor, other);
      } else if id !in s.chats {
        var roles := map[actor := Member, other := Member];
        NewChatAgrees(s, id, Chat(Direct, false, false, roles, roles), s.pairs[Pair(actor, other) := id]);
      }
    }
  }

  lemma StepAgrees(s: State, step: Step)
    requires Inv(s)
    ensures Gapless(Next(s, step)) && LogAgrees(Next(s, step)) && KnownChats(Next(s, step))
  {
    match step
    case Create(id, kind, isPublic, creator, members) =>
      if id !in s.chats {
        var roles := Everyone(members)[creator := Owner];
        NewChatAgrees(s, id, Chat(kind, isPublic, false, roles, roles), s.pairs);
      }
    case CreateDirect(id, actor, other) => DirectAgrees(s, id, actor, other);
    case Join(id, actor) =>
      if id in s.chats { ChangedRolesAgree(s, id, s.chats[id].roles[actor := Member], Joined(actor, Member)); }
    case Commit(op) => PerformAgrees(s.(checked := s.checked - {op}), op);
    case Archive(id) => if id in s.chats { ArchiveAgrees(s, id); }
    case _ =>
  }

  /** Chats stay, with their kind; and a direct chat keeps its members. */
  ghost predicate ChatsStay(s: State, t: State) {
    forall id :: id in s.chats ==>
      id in t.chats && t.chats[id].kind == s.chats[id].kind && t.chats[id].created == s.chats[id].created
      && (s.chats[id].kind == Direct ==> t.chats[id].roles == s.chats[id].roles)
  }

  lemma PerformKeepsChats(s: State, op: Op)
    requires op.chat in s.chats && s.chats[op.chat].kind != Direct
    ensures ChatsStay(s, Perform(s, op)) && Perform(s, op).pairs == s.pairs && Perform(s, op).checked == s.checked
    ensures Perform(s, op).chats.Keys == s.chats.Keys
  {
  }

  /** Nothing about direct chats changes when no direct chat is new. */
  lemma DirectsFollow(s: State, t: State)
    requires DirectsKeepTheirTwo(s) && ChatsStay(s, t) && t.pairs == s.pairs
    requires forall id :: id in t.chats && id !in s.chats ==> t.chats[id].kind != Direct
    ensures DirectsKeepTheirTwo(t)
  {
  }

  lemma CheckedFollow(s: State, t: State)
    requires CheckedAreManaged(s) && ChatsStay(s, t) && t.checked <= s.checked
    ensures CheckedAreManaged(t)
  {
  }

  lemma TwoMembers(a: Id, b: Id)
    requires a != b
    ensures var roles: Roles := map[a := Member, b := Member]; |roles| == 2 && roles == map[b := Member, a := Member]
  {
    var roles: Roles := map[a := Member, b := Member];
    assert roles.Keys == {a, b};
  }

  lemma NewDirectChat(s: State, id: Id, actor: Id, other: Id)
    requires DirectsKeepTheirTwo(s) && CheckedAreManaged(s)
    requires actor != other && other in s.active && Pair(actor, other) !in s.pairs && id !in s.chats
    ensures DirectsKeepTheirTwo(DirectChat(s, id, actor, other)) && CheckedAreManaged(DirectChat(s, id, actor, other))
  {
    TwoMembers(actor, other);
    var roles: Roles := map[actor := Member, other := Member];
    var t := DirectChat(s, id, actor, other);
    var pair := Pair(actor, other);
    assert t.pairs == s.pairs[pair := id] && t.chats == s.chats[id := Chat(Direct, false, false, roles, roles)] && t.checked == s.checked;
    assert map[pair.0 := Member, pair.1 := Member] == roles;
    forall p | p in t.pairs
      ensures p.0 != p.1 && t.pairs[p] in t.chats && t.chats[t.pairs[p]].kind == Direct && t.chats[t.pairs[p]].roles == map[p.0 := Member, p.1 := Member]
    {
      if p != pair { assert p in s.pairs && s.pairs[p] in s.chats; }
    }
    forall c | c in t.chats && t.chats[c].kind == Direct ensures |t.chats[c].roles| == 2 && t.chats[c].roles == t.chats[c].created {
      if c != id { assert c in s.chats; }
    }
  }

  lemma DirectKeepsDirects(s: State, id: Id, actor: Id, other: Id)
    requires DirectsKeepTheirTwo(s) && CheckedAreManaged(s)
    ensures DirectsKeepTheirTwo(DirectChat(s, id, actor, other)) && CheckedAreManaged(DirectChat(s, id, actor, other))
  {
    if actor != other && other in s.active {
      if Pair(actor, other) in s.pairs {
        UpsertChangesNothing(s, actor, other);
        var existing := s.pairs[Pair(actor, other)];
        assert s.chats[existing := s.chats[existing]] == s.chats;
        assert DirectChat(s, id, actor, other) == s;
      } else if id !in s.chats {
        NewDirectChat(s, id, actor, other);
      }
    }
  }

  lemma PlainStepStays(s: State, step: Step)
    requires !step.Commit? && !step.CreateDirect?
    ensures var t := Next(s, step);
            && ChatsStay(s, t) && t.pairs == s.pairs && (step.Check? || t.checked <= s.checked)
            && forall id :: id in t.chats && id !in s.chats ==> t.chats[id].kind != Direct
  {
  }

  lemma StepKeepsDirects(s: State, step: Step)
    requires Inv(s)
    ensures DirectsKeepTheirTwo(Next(s, step)) && CheckedAreManaged(Next(s, step))
  {
    match step
    case CreateDirect(id, actor, other) => DirectKeepsDirects(s, id, actor, other);
    case Commit(op) =>
      var c := s.(checked := s.checked - {op});
      if op in s.checked {
        PerformKeepsChats(c, op);
        DirectsFollow(s, Perform(c, op));
        CheckedFollow(s, Perform(c, op));
      }
    case Check(op) => PlainStepStays(s, step); DirectsFollow(s, Next(s, step));
    case _ =>
      PlainStepStays(s, step);
      DirectsFollow(s, Next(s, step));
      CheckedFollow(s, Next(s, step));
  }

  /** Over every interleaving of checks and transactions. */
  lemma {:induction false} ExecKeepsInv(s: State, steps: seq<Step>)
    requires Inv(s)
    ensures Inv(Exec(s, steps))
    decreases |steps|
  {
    if steps != [] {
      StepAgrees(s, steps[0]);
      StepKeepsDirects(s, steps[0]);
      ExecKeepsInv(Next(s, steps[0]), steps[1..]);
    }
  }

  /** Sequence numbers have no gaps, and every membership is what its creation and its chat's events say. */
  lemma MembershipAgreesWithLog(active: set<Id>, steps: seq<Step>, id: Id)
    ensures var t := Exec(Empty(active), steps);
            && Gapless(t)
            && (id in t.chats ==> t.chats[id].roles == Fold(t.chats[id].created, t.events, id))
            && (id in t.chats && t.chats[id].kind == Direct ==> |t.chats[id].roles| == 2 && t.chats[id].roles == t.chats[id].created)
  {
    ExecKeepsInv(Empty(active), steps);
  }

  // ---------- owners ----------

  ghost predicate HasOwner(chat: Chat) { chat.kind != Direct ==> Owners(chat) != {} }

  ghost predicate AllHaveOwners(s: State) { forall id :: id in s.chats ==> HasOwner(s.chats[id]) }

  lemma MoreThanOne(owners: set<Id>, target: Id)
    requires |owners| > 1
    ensures owners - {target} != {}
  {
    if owners <= {target} {
      SubsetIsSmaller(owners, {target});
    }
  }

  lemma {:induction false} SubsetIsSmaller(a: set<Id>, b: set<Id>)
    requires a <= b
    ensures |a| <= |b|
    decreases |a|
  {
    if a != {} {
      var x :| x in a;
      SubsetIsSmaller(a - {x}, b - {x});
    }
  }

  /** Who owns the chat after a transaction. */
  lemma OwnersAfter(s: State, op: Op)
    requires Guard(s, op)
    ensures op.chat in Perform(s, op).chats
    ensures var before, after := Owners(s.chats[op.chat]), Owners(Perform(s, op).chats[op.chat]);
            after == if op.RemoveMember? || op.role != Owner then before - {op.target} else before + {op.target}
  {
  }

  /** Only an owner makes or unmakes owners, moderators included; leaving is the owner's own. */
  lemma OnlyOwnersChangeOwners(s: State, op: Op)
    requires op.chat in s.chats && op.chat in Perform(s, op).chats
    requires Owners(Perform(s, op).chats[op.chat]) != Owners(s.chats[op.chat])
    ensures op.manager in Owners(s.chats[op.chat])
  {
    if Guard(s, op) { OwnersAfter(s, op); }
  }

  /** The exact case in which a transaction leaves its chat without an owner: it takes the role from the only one. */
  lemma LosesLastOwnerExactlyWhen(s: State, op: Op)
    requires op.chat in s.chats && Owners(s.chats[op.chat]) != {}
    ensures op.chat in Perform(s, op).chats
    ensures Owners(Perform(s, op).chats[op.chat]) == {} <==>
              Guard(s, op) && (op.RemoveMember? || op.role != Owner) && Owners(s.chats[op.chat]) == {op.target}
  {
    if Guard(s, op) { OwnersAfter(s, op); }
  }

  /** A check that still holds when the transaction runs protects the last owner. */
  lemma FreshCheckKeepsOwner(s: State, op: Op)
    requires CheckPasses(s, op) && Owners(s.chats[op.chat]) != {}
    ensures op.chat in Perform(s, op).chats && Owners(Perform(s, op).chats[op.chat]) != {}
  {
    LosesLastOwnerExactlyWhen(s, op);
    var owners := Owners(s.chats[op.chat]);
    if |owners| > 1 { MoreThanOne(owners, op.target); }
  }

  /** Operations that run one at a time: nothing comes between a check and its transaction. */
  datatype Turn = Plain(step: Step) | Managed(op: Op)

  function TakeTurn(s: State, turn: Turn): State {
    match turn
    case Plain(step) => if step.Check? || step.Commit? then s else Next(s, step)
    case Managed(op) => Next(Next(s, Check(op)), Commit(op))
  }

  function Turns(s: State, turns: seq<Turn>): State
    decreases |turns|
  {
    if turns == [] then s else Turns(TakeTurn(s, turns[0]), turns[1..])
  }

  lemma PlainStepKeepsOwners(s: State, step: Step)
    requires AllHaveOwners(s) && s.checked == {} && !step.Check? && !step.Commit?
    ensures AllHaveOwners(Next(s, step)) && Next(s, step).checked == {}
  {
    var t := Next(s, step);
    forall id | id in t.chats ensures HasOwner(t.chats[id]) {
      if step.Create? && id == step.chat && id !in s.chats {
        assert step.creator in Owners(t.chats[id]);
      } else if id in s.chats && t.chats[id].kind != Direct {
        OwnersStay(s, step, id);
      }
    }
  }

  lemma OwnersStay(s: State, step: Step, id: Id)
    requires id in s.chats && !step.Check? && !step.Commit? && s.chats[id].kind != Direct
    ensures id in Next(s, step).chats && Owners(s.chats[id]) <= Owners(Next(s, step).chats[id])
  {
  }

  lemma ManagedTurnKeepsOwners(s: State, op: Op)
    requires AllHaveOwners(s) && s.checked == {}
    ensures AllHaveOwners(TakeTurn(s, Managed(op))) && TakeTurn(s, Managed(op)).checked == {}
  {
    if CheckPasses(s, op) {
      var c := s.(checked := {op});
      assert Next(s, Check(op)) == c && CheckPasses(c, op) && Next(c, Commit(op)) == Perform(c.(checked := {}), op);
      assert CheckPasses(c.(checked := {}), op);
      FreshCheckKeepsOwner(c.(checked := {}), op);
    }
  }

  /** One at a time, every group and channel keeps an owner. */
  lemma {:induction false} OneAtATimeKeepsOwners(s: State, turns: seq<Turn>)
    requires AllHaveOwners(s) && s.checked == {}
    ensures AllHaveOwners(Turns(s, turns)) && Turns(s, turns).checked == {}
    decreases |turns|
  {
    if turns != [] {
      match turns[0] {
        case Plain(step) => if !step.Check? && !step.Commit? { PlainStepKeepsOwners(s, step); }
        case Managed(op) => ManagedTurnKeepsOwners(s, op);
      }
      OneAtATimeKeepsOwners(TakeTurn(s, turns[0]), turns[1..]);
    }
  }

  lemma ExecFirst(s: State, step: Step, rest: seq<Step>)
    ensures Exec(s, [step] + rest) == Exec(Next(s, step), rest)
  {
    assert ([step] + rest)[1..] == rest;
  }

  lemma FourSteps(s: State, a: Step, b: Step, c: Step, d: Step)
    ensures Exec(s, [a, b, c, d]) == Next(Next(Next(Next(s, a), b), c), d)
  {
    ExecFirst(s, a, [b, c, d]);
    ExecFirst(Next(s, a), b, [c, d]);
    ExecFirst(Next(Next(s, a), b), c, [d]);
    ExecFirst(Next(Next(Next(s, a), b), c), d, []);
    assert [a] + [b, c, d] == [a, b, c, d] && [b] + [c, d] == [b, c, d] && [c] + [d] == [c, d] && [d] + [] == [d];
  }

  /** A member of an open group who leaves is removed, whatever else is going on. */
  lemma LeavingRemoves(s: State, id: Id, a: Id)
    requires id in s.chats && s.chats[id].kind != Direct && !s.chats[id].archived && a in s.chats[id].roles
    ensures var t := Perform(s, RemoveMember(id, a, false, a));
            t.chats == s.chats[id := s.chats[id].(roles := s.chats[id].roles - {a})] && t.checked == s.checked
  {
    assert Guard(s, RemoveMember(id, a, false, a));
  }

  lemma OwnerMayLeave(s: State, id: Id, a: Id, b: Id)
    requires id in s.chats && s.chats[id].kind == Group && !s.chats[id].archived && a != b
    requires a in s.chats[id].roles && b in s.chats[id].roles && Owners(s.chats[id]) == {a, b}
    ensures CheckPasses(s, RemoveMember(id, a, false, a)) && CheckPasses(s, RemoveMember(id, b, false, b))
  {
  }

  function Leave(id: Id, a: Id): Op { RemoveMember(id, a, false, a) }

  lemma BothPass(s: State, id: Id, a: Id, b: Id)
    requires id in s.chats && s.chats[id].kind == Group && !s.chats[id].archived && a != b
    requires a in s.chats[id].roles && b in s.chats[id].roles && Owners(s.chats[id]) == {a, b}
    ensures var t := Next(Next(s, Check(Leave(id, a))), Check(Leave(id, b)));
            t.chats == s.chats && Leave(id, a) in t.checked && Leave(id, b) in t.checked
  {
    OwnerMayLeave(s, id, a, b);
    OwnerMayLeave(s.(checked := s.checked + {Leave(id, a)}), id, a, b);
  }

  lemma CommitLeaves(s: State, id: Id, a: Id)
    requires id in s.chats && s.chats[id].kind != Direct && !s.chats[id].archived && a in s.chats[id].roles && Leave(id, a) in s.checked
    ensures var t := Next(s, Commit(Leave(id, a)));
            t.chats == s.chats[id := s.chats[id].(roles := s.chats[id].roles - {a})] && t.checked == s.checked - {Leave(id, a)}
  {
    LeavingRemoves(s.(checked := s.checked - {Leave(id, a)}), id, a);
  }

  /** Interleaved, it need not: when both owners of a group leave at once, each sees the other one still there. */
  lemma BothOwnersLeave(s: State, id: Id, a: Id, b: Id)
    requires id in s.chats && s.chats[id].kind == Group && !s.chats[id].archived && a != b
    requires s.chats[id].roles == map[a := Owner, b := Owner]
    ensures var t := Exec(s, [Check(Leave(id, a)), Check(Leave(id, b)), Commit(Leave(id, a)), Commit(Leave(id, b))]);
            id in t.chats && t.chats[id].kind == Group && t.chats[id].roles == map[]
  {
    FourSteps(s, Check(Leave(id, a)), Check(Leave(id, b)), Commit(Leave(id, a)), Commit(Leave(id, b)));
    assert Owners(s.chats[id]) == {a, b};
    BothPass(s, id, a, b);
    var s2 := Next(Next(s, Check(Leave(id, a))), Check(Leave(id, b)));
    CommitLeaves(s2, id, a);
    var s3 := Next(s2, Commit(Leave(id, a)));
    CommitLeaves(s3, id, b);
    assert s3.chats[id].roles - {b} == map[];
  }

  /** The steps that give a new group two owners: one creates it and adds the other. */
  function TwoOwnersSteps(id: Id, a: Id, b: Id): seq<Step> {
    [Create(id, Group, false, a, []), Check(AddMember(id, a, false, b, Owner)), Commit(AddMember(id, a, false, b, Owner))]
  }

  function BothLeaveSteps(id: Id, a: Id, b: Id): seq<Step> {
    [Check(Leave(id, a)), Check(Leave(id, b)), Commit(Leave(id, a)), Commit(Leave(id, b))]
  }

  lemma TwoOwners(id: Id, a: Id, b: Id)
    requires a != b
    ensures var s := Exec(Empty({a, b}), TwoOwnersSteps(id, a, b));
            id in s.chats && s.chats[id].kind == Group && !s.chats[id].archived && s.chats[id].roles == map[a := Owner, b := Owner]
  {
    var add := AddMember(id, a, false, b, Owner);
    var create := Create(id, Group, false, a, []);
    assert TwoOwnersSteps(id, a, b) == [create] + ([Check(add)] + ([Commit(add)] + []));
    ExecFirst(Empty({a, b}), create, [Check(add)] + ([Commit(add)] + []));
    var s := Next(Empty({a, b}), create);
    assert Everyone([]) == map[];
    assert s.chats[id].roles == map[a := Owner] && b in s.active;
    ExecFirst(s, Check(add), [Commit(add)] + []);
    var c := Next(s, Check(add));
    assert c == s.(checked := s.checked + {add});
    ExecFirst(c, Commit(add), []);
    assert Guard(c.(checked := c.checked - {add}), add);
    assert Next(c, Commit(add)).chats[id].roles == map[a := Owner][b := Owner];
  }

  lemma {:induction false} ExecConcat(s: State, x: seq<Step>, y: seq<Step>)
    ensures Exec(s, x + y) == Exec(Exec(s, x), y)
    decreases |x|
  {
    if x == [] {
      assert x + y == y;
    } else {
      assert (x + y)[1..] == x[1..] + y;
      ExecConcat(Next(s, x[0]), x[1..], y);
    }
  }

  /** From nothing: a group is created, its creator adds a second owner, both leave, and nobody is left. */
  lemma TwoOwnersLeave(id: Id, a: Id, b: Id)
    requires a != b
    ensures var t := Exec(Empty({a, b}), TwoOwnersSteps(id, a, b) + BothLeaveSteps(id, a, b));
            id in t.chats && t.chats[id].kind == Group && t.chats[id].roles == map[]
  {
    TwoOwners(id, a, b);
    var s := Exec(Empty({a, b}), TwoOwnersSteps(id, a, b));
    BothOwnersLeave(s, id, a, b);
    ExecConcat(Empty({a, b}), TwoOwnersSteps(id, a, b), BothLeaveSteps(id, a, b));
  }

  // ---------- memberships that are rewritten without events ----------

  /** Creating, publishing and deleting an agent rewrite its memberships: it is a plain member of the chosen chats and of
      no others. */
  function Rewritten(s: State, agent: Id, chosen: set<Id>): State {
    s.(chats := map id | id in s.chats ::
         s.chats[id].(roles := (s.chats[id].roles - {agent}) + if id in chosen then map[agent := Member] else map[]))
  }

  /** The agent already is a plain member of the chosen chats and of no others. */
  predicate SeatsAre(s: State, agent: Id, chosen: set<Id>) {
    forall id :: id in s.chats ==> RoleIn(s.chats[id], agent) == if id in chosen then Some(Member) else None
  }

  lemma RewrittenRoles(roles: Roles, agent: Id, chosen: bool)
    ensures (roles - {agent}) + (if chosen then map[agent := Member] else map[]) == roles
            <==> (if chosen then agent in roles && roles[agent] == Member else agent !in roles)
  {
    var after: Roles := (roles - {agent}) + if chosen then map[agent := Member] else map[];
    assert agent in after <==> chosen;
    assert forall a :: a != agent ==> (a in after <==> a in roles) && (a in roles ==> after[a] == roles[a]);
  }

  lemma IdleRewrite(s: State, agent: Id, chosen: set<Id>)
    requires SeatsAre(s, agent, chosen)
    ensures Rewritten(s, agent, chosen) == s
  {
    var t := Rewritten(s, agent, chosen);
    forall id | id in s.chats ensures t.chats[id] == s.chats[id] {
      RewrittenRoles(s.chats[id].roles, agent, id in chosen);
      assert RoleIn(s.chats[id], agent) == if id in chosen then Some(Member) else None;
    }
    assert t.chats == s.chats;
  }

  /** Rewriting memberships keeps them in agreement with the log if and only if it changes none. */
  lemma RewriteAgreesExactlyWhen(s: State, agent: Id, chosen: set<Id>)
    requires LogAgrees(s)
    ensures LogAgrees(Rewritten(s, agent, chosen)) <==> SeatsAre(s, agent, chosen)
  {
    var t := Rewritten(s, agent, chosen);
    if SeatsAre(s, agent, chosen) { IdleRewrite(s, agent, chosen); }
    if LogAgrees(t) {
      forall id | id in s.chats ensures RoleIn(s.chats[id], agent) == if id in chosen then Some(Member) else None {
        assert t.chats[id].roles == s.chats[id].roles;
        RewrittenRoles(s.chats[id].roles, agent, id in chosen);
      }
    }
  }

  datatype Move = Ordinary(step: Step) | Rewrite(agent: Id, chosen: set<Id>)

  function Moved(s: State, move: Move): State {
    match move
    case Ordinary(step) => Next(s, step)
    case Rewrite(agent, chosen) => Rewritten(s, agent, chosen)
  }

  /** After every move the log agrees with the rows. */
  ghost predicate StaysAgreed(s: State, moves: seq<Move>)
    decreases |moves|
  {
    LogAgrees(s) && (moves != [] ==> StaysAgreed(Moved(s, moves[0]), moves[1..]))
  }

  predicate RewritesAreIdle(s: State, moves: seq<Move>)
    decreases |moves|
  {
    moves != [] ==>
      (moves[0].Rewrite? ==> SeatsAre(s, moves[0].agent, moves[0].chosen)) && RewritesAreIdle(Moved(s, moves[0]), moves[1..])
  }

  /** With the agent service's rewrites among the steps, membership agrees with the log all along if and only if every rewrite
      leaves its agent's memberships as they are. */
  lemma {:induction false} AgreesWithLogExactlyWhen(s: State, moves: seq<Move>)
    requires Inv(s)
    ensures StaysAgreed(s, moves) <==> RewritesAreIdle(s, moves)
    decreases |moves|
  {
    if moves != [] {
      var t := Moved(s, moves[0]);
      match moves[0] {
        case Ordinary(step) =>
          StepAgrees(s, step);
          StepKeepsDirects(s, step);
          AgreesWithLogExactlyWhen(t, moves[1..]);
        case Rewrite(agent, chosen) =>
          RewriteAgreesExactlyWhen(s, agent, chosen);
          if SeatsAre(s, agent, chosen) {
            IdleRewrite(s, agent, chosen);
            AgreesWithLogExactlyWhen(t, moves[1..]);
          } else {
            assert !StaysAgreed(t, moves[1..]);
          }
      }
    }
  }

  lemma NewGroup(active: set<Id>, id: Id, owner: Id)
    ensures var s := Next(Empty(active), Create(id, Group, false, owner, []));
            id in s.chats && s.chats[id].roles == map[owner := Owner]
  {
    assert Everyone([]) == map[];
  }

  /** A group is created, and an agent is published into it: the agent is a member, and no event says so. */
  lemma PublishedAgentHasNoEvent(id: Id, owner: Id, agent: Id)
    requires owner != agent
    ensures var s := Next(Empty({owner, agent}), Create(id, Group, false, owner, []));
            var t := Rewritten(s, agent, {id});
            && Inv(s) && id in t.chats && agent in t.chats[id].roles && t.events == s.events
            && agent !in Fold(t.chats[id].created, t.events, id)
  {
    var create := Create(id, Group, false, owner, []);
    StepAgrees(Empty({owner, agent}), create);
    StepKeepsDirects(Empty({owner, agent}), create);
    NewGroup({owner, agent}, id, owner);
  }
}
