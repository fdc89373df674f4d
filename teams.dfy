/** Teams, rooms and the invite-link lifecycle. Each operation is a pure
    function on one team (or the team and room lists) with the service's
    guard chain and error messages, and a `TeamService` method that finds
    the document, applies the function and saves, keeping the store's
    invariants. Saves can fail; the failure is an input. */
module Teams {
  import opened Wrappers
  import opened Text
  import opened Schema
  import Hex
  import Slack
  import Discord

  datatype Status = BadRequest | NotFound | ServerError

  datatype ServiceError = ServiceError(status: Status, message: string)

  const TeamNotFound: string := "팀을 찾을 수 없습니다."
  /** The naming rule both channel-name messages end with. */
  const NameRule: string := "영문 소문자, 숫자, 하이픈(-), 언더스코어(_)만 사용 가능합니다."
  const InvalidNameMessage: string := "채널 이름이 올바르지 않습니다. " + NameRule
  const NameRequiredMessage: string := "채널 이름은 필수이며, " + NameRule
  const RoomCreateFailed: string := "Room 생성에 실패했습니다."
  const InvalidInvite: string := "유효하지 않은 초대 링크입니다."
  const InactiveInvite: string := "비활성화된 초대 링크입니다."
  const ExpiredInvite: string := "만료된 초대 링크입니다."
  const InviteExhausted: string := "초대 링크 사용 횟수가 초과되었습니다."
  const AlreadyMember: string := "이미 팀에 참여하고 있습니다."
  const OwnerOnly: string := "팀장만 멤버를 제거할 수 있습니다."
  const OwnerCannotLeave: string := "팀장은 스스로를 제거할 수 없습니다."
  const InviteBaseUrl: string := "https://slacord.cloud/invite/"
  const DayMs: int := 86400000
  /** Bytes of randomness in an invite token. */
  const TokenBytes: nat := 32

  function NameTakenMessage(name: string): string {
    "'" + name + "' 채널은 이미 존재합니다. 다른 이름을 사용해주세요."
  }

  function GenericCreateMessage(msg: string): string {
    "채널 생성에 실패했습니다: " + msg
  }

  // ---------------------------------------------------------------- createTeam

  /** The error `createTeam` throws for a failure with message `msg`, with
      its branches in the order written, including the
      `invalid_name_required` test that comes after the `invalid_name` one. */
  function CreateTeamError(name: string, msg: string): (e: ServiceError)
    ensures e.status == BadRequest
    ensures Contains(msg, "name_taken") ==> e.message == NameTakenMessage(name)
    ensures !Contains(msg, "name_taken") && Contains(msg, "invalid_name") ==> e.message == InvalidNameMessage
    ensures !Contains(msg, "name_taken") && !Contains(msg, "invalid_name") && !Contains(msg, "invalid_name_required")
      ==> e.message == GenericCreateMessage(msg)
  {
    if Contains(msg, "name_taken") then ServiceError(BadRequest, NameTakenMessage(name))
    else if Contains(msg, "invalid_name") then ServiceError(BadRequest, InvalidNameMessage)
    else if Contains(msg, "invalid_name_required") then ServiceError(BadRequest, NameRequiredMessage)
    else ServiceError(BadRequest, GenericCreateMessage(msg))
  }

  /** Whatever contains `invalid_name_required` contains `invalid_name`, so
      the third branch is never taken: the "name required" message is never
      produced, and every failure gets one of the other three. */
  lemma NameRequiredUnreachable(name: string, msg: string)
    ensures CreateTeamError(name, msg).message != NameRequiredMessage
    ensures !Contains(msg, "name_taken") && !Contains(msg, "invalid_name")
      ==> CreateTeamError(name, msg).message == GenericCreateMessage(msg)
  {
    assert "invalid_name_required" == "invalid_name" + "_required";
    if Contains(msg, "invalid_name_required") {
      ContainsPrefixOf(msg, "invalid_name", "_required");
    }
    assert NameTakenMessage(name)[0] == '\'';
    assert NameRequiredMessage[3] == '이' && NameRequiredMessage[5] == '은';
    assert GenericCreateMessage(msg)[3] == '생';
    assert InvalidNameMessage[5] == '이';
  }

  /** The document `createTeam` saves. */
  function NewTeam(id: Id, name: string, description: Option<string>, ownerId: Id,
                   slack: Slack.SlackChannel, discord: Discord.DiscordChannel, now: Time): (t: Team)
    ensures WellFormedTeam(t)
    ensures |t.members| == 1 && t.members[0] == TeamMember(ownerId, Owner, now)
    ensures t.ownerId == ownerId && t.isActive && t.inviteLink.None?
    ensures t.slackConfig == SlackConfig(slack.channelId, slack.channelName, WorkspaceName)
    ensures t.discordConfig == DiscordConfig(discord.channelId, discord.channelName, discord.webhookUrl, ServerName)
  {
    var t := Team(id, name, description, ownerId, [TeamMember(ownerId, Owner, now)], None,
      SlackConfig(slack.channelId, slack.channelName, WorkspaceName),
      DiscordConfig(discord.channelId, discord.channelName, discord.webhookUrl, ServerName),
      true, now);
    assert t.members[0].userId == t.ownerId && t.members[0].role == Owner;
    t
  }

  predicate NameTaken(teams: seq<Team>, name: string) {
    exists i :: 0 <= i < |teams| && teams[i].name == name
  }

  predicate IdTaken(teams: seq<Team>, id: Id) {
    exists i :: 0 <= i < |teams| && teams[i].id == id
  }

  /** Why saving a new team fails, if it does: the given failure (validation,
      connection), else a clash with the unique indexes. */
  function InsertTeamError(teams: seq<Team>, t: Team, saveError: Option<string>): (r: Option<string>)
    ensures r.None? <==> saveError.None? && !NameTaken(teams, t.name) && !IdTaken(teams, t.id)
    ensures r.None? && TeamsValid(teams) && WellFormedTeam(t) ==> TeamsValid(teams + [t])
  {
    if saveError.Some? then saveError
    else if NameTaken(teams, t.name) || IdTaken(teams, t.id) then Some(DuplicateKeyError)
    else None
  }

  // ------------------------------------------------------------- invite links

  /** The link `generateInviteLink` stores: a fresh token, active, unused,
      expiring `expiresInDays` days from `now`. */
  function FreshLink(tokenBytes: seq<Hex.byte>, now: Time, expiresInDays: int, maxUses: Option<int>): (l: InviteLink)
    ensures l.token == Hex.Encode(tokenBytes) && |l.token| == 2 * |tokenBytes|
    ensures l.isActive && l.currentUses == 0 && l.maxUses == maxUses
    ensures l.expiresAt == now + expiresInDays * DayMs
    ensures InviteLinkOk(l)
  {
    InviteLink(Hex.Encode(tokenBytes), now + expiresInDays * DayMs, true, maxUses, 0)
  }

  /** `https://slacord.cloud/invite/<token>`. */
  function InviteUrl(token: string): (u: string)
    ensures |u| == |InviteBaseUrl| + |token|
    ensures u[..|InviteBaseUrl|] == InviteBaseUrl && u[|InviteBaseUrl|..] == token
  {
    InviteBaseUrl + token
  }

  /** The team whose link carries `token`, as `findOne` on `inviteLink.token`
      finds it: the first one. */
  function FindByToken(teams: seq<Team>, token: string): (r: Option<nat>)
    ensures r.Some? ==>
      r.value < |teams| && teams[r.value].inviteLink.Some? && teams[r.value].inviteLink.value.token == token
    ensures r.Some? ==> forall i :: 0 <= i < r.value ==>
      !(teams[i].inviteLink.Some? && teams[i].inviteLink.value.token == token)
    ensures r.None? ==> forall i :: 0 <= i < |teams| ==>
      !(teams[i].inviteLink.Some? && teams[i].inviteLink.value.token == token)
  {
    if |teams| == 0 then None
    else if teams[0].inviteLink.Some? && teams[0].inviteLink.value.token == token then Some(0)
    else
      var r := FindByToken(teams[1..], token);
      if r.Some? then Some(r.value + 1) else None
  }

  /** The guard chain and update of `joinTeamByInvite` once the team is found:
      inactive, expired, used up, already a member, in that order; otherwise
      the user is appended as a plain member and the use counter goes up. */
  function JoinTeam(t: Team, userId: Id, now: Time): (r: Result<Team, ServiceError>)
    ensures r.Failure? ==> r.error.status == BadRequest
    ensures t.inviteLink.None? || !t.inviteLink.value.isActive ==> r == Failure(ServiceError(BadRequest, InactiveInvite))
    ensures t.inviteLink.Some? && t.inviteLink.value.isActive && now > t.inviteLink.value.expiresAt
      ==> r == Failure(ServiceError(BadRequest, ExpiredInvite))
    ensures t.inviteLink.Some? && t.inviteLink.value.isActive && now <= t.inviteLink.value.expiresAt
      && HasUseLimit(t.inviteLink.value) && t.inviteLink.value.currentUses >= t.inviteLink.value.maxUses.value
      ==> r == Failure(ServiceError(BadRequest, InviteExhausted))
    ensures t.inviteLink.Some? && t.inviteLink.value.isActive && now <= t.inviteLink.value.expiresAt
      && !(HasUseLimit(t.inviteLink.value) && t.inviteLink.value.currentUses >= t.inviteLink.value.maxUses.value)
      && IsMember(t, userId)
      ==> r == Failure(ServiceError(BadRequest, AlreadyMember))
    ensures r.Success? <==>
      && t.inviteLink.Some? && t.inviteLink.value.isActive
      && now <= t.inviteLink.value.expiresAt
      && !(HasUseLimit(t.inviteLink.value) && t.inviteLink.value.currentUses >= t.inviteLink.value.maxUses.value)
      && !IsMember(t, userId)
    ensures r.Success? ==>
      && r.value.members == t.members + [TeamMember(userId, Member, now)]
      && r.value.inviteLink == Some(t.inviteLink.value.(currentUses := t.inviteLink.value.currentUses + 1))
      && r.value == t.(members := r.value.members, inviteLink := r.value.inviteLink)
  {
    if t.inviteLink.None? || !t.inviteLink.value.isActive then Failure(ServiceError(BadRequest, InactiveInvite))
    else
      var l := t.inviteLink.value;
      if now > l.expiresAt then Failure(ServiceError(BadRequest, ExpiredInvite))
      else if HasUseLimit(l) && l.currentUses >= l.maxUses.value then Failure(ServiceError(BadRequest, InviteExhausted))
      else if IsMember(t, userId) then Failure(ServiceError(BadRequest, AlreadyMember))
      else
        Success(t.(members := t.members + [TeamMember(userId, Member, now)],
                   inviteLink := Some(l.(currentUses := l.currentUses + 1))))
  }

  /** A join keeps the team well formed: the new member was not listed, and
      the counter only rises while it is below a positive limit. */
  lemma JoinPreservesWellFormed(t: Team, userId: Id, now: Time)
    requires WellFormedTeam(t) && JoinTeam(t, userId, now).Success?
    ensures WellFormedTeam(JoinTeam(t, userId, now).value)
  {
    var t' := JoinTeam(t, userId, now).value;
    var k :| 0 <= k < |t.members| && t.members[k].userId == t.ownerId && t.members[k].role == Owner;
    assert t'.members[k] == t.members[k];
    forall i, j | 0 <= i < j < |t'.members| ensures t'.members[i].userId != t'.members[j].userId {
      if j == |t.members| {
        assert t'.members[i] == t.members[i];
      }
    }
  }

  /** Nobody joins twice: once in, the same user is turned away. */
  lemma JoinOnce(t: Team, userId: Id, now: Time, later: Time)
    requires JoinTeam(t, userId, now).Success?
    ensures JoinTeam(JoinTeam(t, userId, now).value, userId, later).Failure?
  {
    var t' := JoinTeam(t, userId, now).value;
    assert t'.members[|t.members|].userId == userId;
  }

  /** `deactivateInviteLink` on the document: the link, if any, goes inactive. */
  function Deactivate(t: Team): (r: Team)
    ensures t.inviteLink.None? ==> r == t
    ensures t.inviteLink.Some? ==> r == t.(inviteLink := Some(t.inviteLink.value.(isActive := false)))
  {
    if t.inviteLink.None? then t else t.(inviteLink := Some(t.inviteLink.value.(isActive := false)))
  }

  /** Deactivating twice is deactivating once, and a deactivated link admits
      nobody. */
  lemma DeactivateIdempotent(t: Team, userId: Id, now: Time)
    ensures Deactivate(Deactivate(t)) == Deactivate(t)
    ensures JoinTeam(Deactivate(t), userId, now) == Failure(ServiceError(BadRequest, InactiveInvite))
    ensures WellFormedTeam(t) ==> WellFormedTeam(Deactivate(t))
  {
  }

  /** A freshly generated link admits any non-member until it expires,
      unless its use limit is negative. */
  lemma FreshLinkAdmits(t: Team, tokenBytes: seq<Hex.byte>, issued: Time, expiresInDays: int,
                        maxUses: Option<int>, userId: Id, now: Time)
    requires !IsMember(t, userId)
    requires maxUses.None? || maxUses.value >= 0
    requires now <= issued + expiresInDays * DayMs
    ensures JoinTeam(t.(inviteLink := Some(FreshLink(tokenBytes, issued, expiresInDays, maxUses))), userId, now).Success?
  {
    var t' := t.(inviteLink := Some(FreshLink(tokenBytes, issued, expiresInDays, maxUses)));
    assert !IsMember(t', userId) by {
      assert t'.members == t.members;
    }
  }

  // -------------------------------------------------------------- removeMember

  /** `members.filter(m => m.userId !== userId)`. */
  function WithoutUser(members: seq<TeamMember>, userId: Id): (r: seq<TeamMember>)
    ensures |r| <= |members|
    ensures forall m :: m in r <==> m in members && m.userId != userId
  {
    if members == [] then []
    else if members[0].userId == userId then WithoutUser(members[1..], userId)
    else [members[0]] + WithoutUser(members[1..], userId)
  }

  /** The filter keeps order: it distributes over concatenation. */
  lemma {:induction false} WithoutUserAppend(a: seq<TeamMember>, b: seq<TeamMember>, userId: Id)
    ensures WithoutUser(a + b, userId) == WithoutUser(a, userId) + WithoutUser(b, userId)
    decreases |a|
  {
    if a == [] {
      assert a + b == b;
    } else {
      assert (a + b)[0] == a[0];
      assert (a + b)[1..] == a[1..] + b;
      WithoutUserAppend(a[1..], b, userId);
    }
  }

  /** Removing an absent user changes nothing. */
  lemma {:induction false} WithoutAbsentUser(members: seq<TeamMember>, userId: Id)
    requires forall i :: 0 <= i < |members| ==> members[i].userId != userId
    ensures WithoutUser(members, userId) == members
    decreases |members|
  {
    if members != [] {
      WithoutAbsentUser(members[1..], userId);
    }
  }

  lemma {:induction false} WithoutUserDistinct(members: seq<TeamMember>, userId: Id)
    requires MemberIdsDistinct(members)
    ensures MemberIdsDistinct(WithoutUser(members, userId))
    decreases |members|
  {
    if members != [] {
      WithoutUserDistinct(members[1..], userId);
      var rest := WithoutUser(members[1..], userId);
      if members[0].userId != userId {
        assert WithoutUser(members, userId) == [members[0]] + rest;
        forall m | m in rest ensures m.userId != members[0].userId {
          var k :| 0 <= k < |members[1..]| && members[1..][k] == m;
          assert members[k + 1] == m;
        }
        MemberIdsDistinctCons(members[0], rest);
      }
    }
  }

  /** Putting a member in front of distinct members whose ids all differ from
      theirs keeps the ids distinct. */
  lemma MemberIdsDistinctCons(x: TeamMember, rest: seq<TeamMember>)
    requires MemberIdsDistinct(rest)
    requires forall m | m in rest :: m.userId != x.userId
    ensures MemberIdsDistinct([x] + rest)
  {
    var r := [x] + rest;
    forall i, j | 0 <= i < j < |r| ensures r[i].userId != r[j].userId {
      assert r[j] == rest[j - 1];
      if i == 0 {
        assert r[j] in rest;
      } else {
        assert r[i] == rest[i - 1];
      }
    }
  }

  /** The owner-only guard chain and filter of `removeMember`. */
  function RemoveMember(t: Team, userId: Id, requestUserId: Id): (r: Result<Team, ServiceError>)
    ensures t.ownerId != requestUserId ==> r == Failure(ServiceError(BadRequest, OwnerOnly))
    ensures t.ownerId == requestUserId && userId == requestUserId
      ==> r == Failure(ServiceError(BadRequest, OwnerCannotLeave))
    ensures r.Success? <==> t.ownerId == requestUserId && userId != requestUserId
    ensures r.Success? ==> r.value == t.(members := WithoutUser(t.members, userId))
  {
    if t.ownerId != requestUserId then Failure(ServiceError(BadRequest, OwnerOnly))
    else if userId == requestUserId then Failure(ServiceError(BadRequest, OwnerCannotLeave))
    else Success(t.(members := WithoutUser(t.members, userId)))
  }

  /** A removal takes out the user and nobody else, and never the owner: the
      team stays well formed. */
  lemma RemoveMemberKeepsOwner(t: Team, userId: Id, requestUserId: Id)
    requires WellFormedTeam(t) && RemoveMember(t, userId, requestUserId).Success?
    ensures var t' := RemoveMember(t, userId, requestUserId).value;
      && WellFormedTeam(t')
      && !IsMember(t', userId)
      && IsMember(t', t.ownerId)
      && (forall m :: m in t.members && m.userId != userId ==> m in t'.members)
  {
    var t' := RemoveMember(t, userId, requestUserId).value;
    WithoutUserDistinct(t.members, userId);
    var k :| 0 <= k < |t.members| && t.members[k].userId == t.ownerId && t.members[k].role == Owner;
    assert t.members[k] in t'.members;
    var k' :| 0 <= k' < |t'.members| && t'.members[k'] == t.members[k];
    forall j | 0 <= j < |t'.members| ensures t'.members[j].userId != userId {
      assert t'.members[j] in t'.members;
    }
  }

  // ---------------------------------------------------------------- deleteTeam

  /** `roomModel.deleteMany({ teamId })`: the rooms of other teams, in order. */
  function RoomsOutside(rooms: seq<Room>, teamId: Id): (r: seq<Room>)
    ensures forall x :: x in r <==> x in rooms && x.teamId != teamId
  {
    if rooms == [] then []
    else if rooms[0].teamId == teamId then RoomsOutside(rooms[1..], teamId)
    else [rooms[0]] + RoomsOutside(rooms[1..], teamId)
  }

  lemma {:induction false} RoomsOutsideValid(rooms: seq<Room>, teamId: Id)
    requires RoomsValid(rooms)
    ensures RoomsValid(RoomsOutside(rooms, teamId))
    decreases |rooms|
  {
    if rooms != [] {
      RoomsOutsideValid(rooms[1..], teamId);
      var rest := RoomsOutside(rooms[1..], teamId);
      if rooms[0].teamId != teamId {
        assert RoomsOutside(rooms, teamId) == [rooms[0]] + rest;
        forall x | x in rest
          ensures && rooms[0].id != x.id
                  && (rooms[0].teamId, rooms[0].name) != (x.teamId, x.name)
                  && rooms[0].slackChannel.channelId != x.slackChannel.channelId
        {
          var k :| 0 <= k < |rooms[1..]| && rooms[1..][k] == x;
          assert rooms[k + 1] == x;
        }
        RoomsValidCons(rooms[0], rest);
      }
    }
  }

  /** Putting a room in front of valid rooms it clashes with none of keeps
      them valid. */
  lemma RoomsValidCons(x: Room, rest: seq<Room>)
    requires RoomsValid(rest)
    requires forall y | y in rest ::
      && x.id != y.id
      && (x.teamId, x.name) != (y.teamId, y.name)
      && x.slackChannel.channelId != y.slackChannel.channelId
    ensures RoomsValid([x] + rest)
  {
    var r := [x] + rest;
    forall i, j | 0 <= i < j < |r|
      ensures && r[i].id != r[j].id
              && (r[i].teamId, r[i].name) != (r[j].teamId, r[j].name)
              && r[i].slackChannel.channelId != r[j].slackChannel.channelId
    {
      assert r[j] == rest[j - 1];
      if i == 0 {
        assert r[j] in rest;
      } else {
        assert r[i] == rest[i - 1];
      }
    }
  }

  lemma RemoveTeamValid(teams: seq<Team>, i: nat)
    requires TeamsValid(teams) && i < |teams|
    ensures TeamsValid(teams[..i] + teams[i + 1..])
  {
    var r := teams[..i] + teams[i + 1..];
    forall a, b | 0 <= a < b < |r| ensures r[a].id != r[b].id && r[a].name != r[b].name {
      var a' := if a < i then a else a + 1;
      var b' := if b < i then b else b + 1;
      assert r[a] == teams[a'] && r[b] == teams[b'];
    }
  }

  // -------------------------------------------------------------- createRoom

  predicate RoomClashes(rooms: seq<Room>, room: Room) {
    exists i :: 0 <= i < |rooms| &&
      (rooms[i].id == room.id
       || (rooms[i].teamId, rooms[i].name) == (room.teamId, room.name)
       || rooms[i].slackChannel.channelId == room.slackChannel.channelId)
  }

  /** Outcome of `createRoom`: every failure, the unknown team included,
      surfaces as the same BadRequest. */
  function CreateRoom(teams: seq<Team>, rooms: seq<Room>, room: Room, saveError: Option<string>)
    : (r: Result<seq<Room>, ServiceError>)
    ensures r.Failure? ==> r.error == ServiceError(BadRequest, RoomCreateFailed)
    ensures r.Success? <==> IdTaken(teams, room.teamId) && !RoomClashes(rooms, room) && saveError.None?
    ensures r.Success? ==> r.value == rooms + [room]
    ensures r.Success? && RoomsValid(rooms) ==> RoomsValid(r.value)
  {
    if FindTeam(teams, room.teamId).None? then Failure(ServiceError(BadRequest, RoomCreateFailed))
    else if saveError.Some? || RoomClashes(rooms, room) then Failure(ServiceError(BadRequest, RoomCreateFailed))
    else Success(rooms + [room])
  }

  /** What `generateInviteLink` returns. */
  datatype Invite = Invite(inviteToken: string, inviteUrl: string)

  class TeamService {
    const store: Store

    constructor(store: Store)
      ensures this.store == store
    {
      this.store := store;
    }

    /** `createTeam`. `slack` and `discord` are the outcomes of the two
        channel creations, made in that order; `newId` is the id the new
        document receives. */
    method CreateTeam(name: string, description: Option<string>, ownerId: Id,
                      slack: Result<Slack.SlackChannel, string>, discord: Result<Discord.DiscordChannel, string>,
                      newId: Id, saveError: Option<string>, now: Time)
      returns (r: Result<Team, ServiceError>)
      requires store.Valid()
      modifies store
      ensures store.Valid()
      ensures store.rooms == old(store.rooms) && store.messages == old(store.messages)
      ensures slack.Failure? ==> r == Failure(CreateTeamError(name, slack.error))
      ensures slack.Success? && discord.Failure? ==> r == Failure(CreateTeamError(name, discord.error))
      ensures slack.Success? && discord.Success? ==>
        var err := InsertTeamError(old(store.teams),
                                   NewTeam(newId, name, description, ownerId, slack.value, discord.value, now), saveError);
        err.Some? ==> r == Failure(CreateTeamError(name, err.value))
      ensures r.Failure? ==> r.error.status == BadRequest && store.teams == old(store.teams)
      ensures r.Success? <==>
        slack.Success? && discord.Success? && saveError.None?
        && !NameTaken(old(store.teams), name) && !IdTaken(old(store.teams), newId)
      ensures r.Success? ==>
        r.value == NewTeam(newId, name, description, ownerId, slack.value, discord.value, now)
        && store.teams == old(store.teams) + [r.value]
    {
      if slack.Failure? {
        return Failure(CreateTeamError(name, slack.error));
      }
      if discord.Failure? {
        return Failure(CreateTeamError(name, discord.error));
      }
      var team := NewTeam(newId, name, description, ownerId, slack.value, discord.value, now);
      var err := InsertTeamError(store.teams, team, saveError);
      if err.Some? {
        return Failure(CreateTeamError(name, err.value));
      }
      store.teams := store.teams + [team];
      r := Success(team);
    }

    /** `deleteTeam`: the team's rooms go first, then the team; an unknown id
        is reported only after its rooms are gone. Messages stay. */
    method DeleteTeam(teamId: Id) returns (r: Result<Unit, ServiceError>)
      requires store.Valid()
      modifies store
      ensures store.Valid()
      ensures store.rooms == RoomsOutside(old(store.rooms), teamId)
      ensures store.messages == old(store.messages)
      ensures FindTeam(old(store.teams), teamId).None? ==>
        r == Failure(ServiceError(NotFound, TeamNotFound)) && store.teams == old(store.teams)
      ensures FindTeam(old(store.teams), teamId).Some? ==>
        var i := FindTeam(old(store.teams), teamId).value;
        r.Success? && store.teams == old(store.teams)[..i] + old(store.teams)[i + 1..]
    {
      RoomsOutsideValid(store.rooms, teamId);
      store.rooms := RoomsOutside(store.rooms, teamId);
      var i := FindTeam(store.teams, teamId);
      if i.None? {
        return Failure(ServiceError(NotFound, TeamNotFound));
      }
      RemoveTeamValid(store.teams, i.value);
      store.teams := store.teams[..i.value] + store.teams[i.value + 1..];
      r := Success(Unit);
    }

    /** `createRoom`. */
    method CreateRoomFor(room: Room, saveError: Option<string>) returns (r: Result<Room, ServiceError>)
      requires store.Valid()
      modifies store
      ensures store.Valid()
      ensures store.teams == old(store.teams) && store.messages == old(store.messages)
      ensures r.Failure? ==> r.error == ServiceError(BadRequest, RoomCreateFailed) && store.rooms == old(store.rooms)
      ensures r.Success? <==> CreateRoom(old(store.teams), old(store.rooms), room, saveError).Success?
      ensures r.Success? ==> r.value == room && store.rooms == old(store.rooms) + [room]
    {
      var outcome := CreateRoom(store.teams, store.rooms, room, saveError);
      if outcome.Failure? {
        return Failure(outcome.error);
      }
      store.rooms := outcome.value;
      r := Success(room);
    }

    /** `generateInviteLink`: replaces the team's link by a fresh one made
        from 32 random bytes. */
    method GenerateInviteLink(teamId: Id, expiresInDays: int, maxUses: Option<int>,
                              tokenBytes: seq<Hex.byte>, saveError: Option<string>, now: Time)
      returns (r: Result<Invite, ServiceError>)
      requires store.Valid() && |tokenBytes| == TokenBytes
      modifies store
      ensures store.Valid()
      ensures store.rooms == old(store.rooms) && store.messages == old(store.messages)
      ensures FindTeam(old(store.teams), teamId).None? ==> r == Failure(ServiceError(NotFound, TeamNotFound))
      ensures FindTeam(old(store.teams), teamId).Some? && saveError.Some? ==>
        r == Failure(ServiceError(ServerError, saveError.value))
      ensures r.Failure? ==> store.teams == old(store.teams)
      ensures r.Success? <==> FindTeam(old(store.teams), teamId).Some? && saveError.None?
      ensures r.Success? ==>
        var i := FindTeam(old(store.teams), teamId).value;
        var link := FreshLink(tokenBytes, now, expiresInDays, maxUses);
        && store.teams == old(store.teams)[i := old(store.teams)[i].(inviteLink := Some(link))]
        && r.value == Invite(link.token, InviteUrl(link.token))
        && |r.value.inviteToken| == 64
    {
      var i := FindTeam(store.teams, teamId);
      if i.None? {
        return Failure(ServiceError(NotFound, TeamNotFound));
      }
      var link := FreshLink(tokenBytes, now, expiresInDays, maxUses);
      var team := store.teams[i.value].(inviteLink := Some(link));
      if saveError.Some? {
        return Failure(ServiceError(ServerError, saveError.value));
      }
      store.teams := store.teams[i.value := team];
      r := Success(Invite(link.token, InviteUrl(link.token)));
    }

    /** `joinTeamByInvite`: an unknown token is refused first, then the guard
        chain of `Join`; a refusal or a failed save leaves the team as it was. */
    method JoinTeamByInvite(token: string, userId: Id, saveError: Option<string>, now: Time)
      returns (r: Result<Team, ServiceError>)
      requires store.Valid()
      modifies store
      ensures store.Valid()
      ensures store.rooms == old(store.rooms) && store.messages == old(store.messages)
      ensures FindByToken(old(store.teams), token).None? ==> r == Failure(ServiceError(BadRequest, InvalidInvite))
      ensures FindByToken(old(store.teams), token).Some? ==>
        var i := FindByToken(old(store.teams), token).value;
        var joined := JoinTeam(old(store.teams)[i], userId, now);
        && (joined.Failure? ==> r == Failure(joined.error))
        && (joined.Success? && saveError.Some? ==> r == Failure(ServiceError(ServerError, saveError.value)))
        && (joined.Success? && saveError.None? ==> r == joined && store.teams == old(store.teams)[i := joined.value])
        && (r.Success? <==> joined.Success? && saveError.None?)
      ensures r.Failure? ==> store.teams == old(store.teams)
    {
      var i := FindByToken(store.teams, token);
      if i.None? {
        return Failure(ServiceError(BadRequest, InvalidInvite));
      }
      var joined := JoinTeam(store.teams[i.value], userId, now);
      if joined.Failure? {
        return Failure(joined.error);
      }
      if saveError.Some? {
        return Failure(ServiceError(ServerError, saveError.value));
      }
      JoinPreservesWellFormed(store.teams[i.value], userId, now);
      store.teams := store.teams[i.value := joined.value];
      r := joined;
    }

    /** `deactivateInviteLink`: no save when the team has no link. */
    method DeactivateInviteLink(teamId: Id, saveError: Option<string>) returns (r: Result<Unit, ServiceError>)
      requires store.Valid()
      modifies store
      ensures store.Valid()
      ensures store.rooms == old(store.rooms) && store.messages == old(store.messages)
      ensures FindTeam(old(store.teams), teamId).None? ==>
        r == Failure(ServiceError(NotFound, TeamNotFound)) && store.teams == old(store.teams)
      ensures FindTeam(old(store.teams), teamId).Some? ==>
        var i := FindTeam(old(store.teams), teamId).value;
        && (old(store.teams)[i].inviteLink.None? ==> r.Success? && store.teams == old(store.teams))
        && (old(store.teams)[i].inviteLink.Some? ==> (r.Success? <==> saveError.None?))
        && (old(store.teams)[i].inviteLink.Some? && saveError.Some? ==>
              r == Failure(ServiceError(ServerError, saveError.value)))
        && (r.Success? ==> store.teams == old(store.teams)[i := Deactivate(old(store.teams)[i])])
        && (r.Failure? ==> store.teams == old(store.teams))
    {
      var i := FindTeam(store.teams, teamId);
      if i.None? {
        return Failure(ServiceError(NotFound, TeamNotFound));
      }
      var team := store.teams[i.value];
      if team.inviteLink.None? {
        return Success(Unit);
      }
      if saveError.Some? {
        return Failure(ServiceError(ServerError, saveError.value));
      }
      store.teams := store.teams[i.value := Deactivate(team)];
      r := Success(Unit);
    }

    /** `removeMember`. */
    method RemoveTeamMember(teamId: Id, userId: Id, requestUserId: Id, saveError: Option<string>)
      returns (r: Result<Unit, ServiceError>)
      requires store.Valid()
      modifies store
      ensures store.Valid()
      ensures store.rooms == old(store.rooms) && store.messages == old(store.messages)
      ensures FindTeam(old(store.teams), teamId).None? ==> r == Failure(ServiceError(NotFound, TeamNotFound))
      ensures FindTeam(old(store.teams), teamId).Some? ==>
        var i := FindTeam(old(store.teams), teamId).value;
        var removed := RemoveMember(old(store.teams)[i], userId, requestUserId);
        && (removed.Failure? ==> r == Failure(removed.error))
        && (removed.Success? && saveError.Some? ==> r == Failure(ServiceError(ServerError, saveError.value)))
        && (r.Success? <==> removed.Success? && saveError.None?)
        && (r.Success? ==> store.teams == old(store.teams)[i := removed.value])
      ensures r.Failure? ==> store.teams == old(store.teams)
    {
      var i := FindTeam(store.teams, teamId);
      if i.None? {
        return Failure(ServiceError(NotFound, TeamNotFound));
      }
      var removed := RemoveMember(store.teams[i.value], userId, requestUserId);
      if removed.Failure? {
        return Failure(removed.error);
      }
      if saveError.Some? {
        return Failure(ServiceError(ServerError, saveError.value));
      }
      RemoveMemberKeepsOwner(store.teams[i.value], userId, requestUserId);
      store.teams := store.teams[i.value := removed.value];
      r := Success(Unit);
    }
  }
}
