/** The stored documents (teams, rooms, messages) and the database holding
    them. Object ids are strings, dates are integer milliseconds. The unique
    indexes of the schemas become invariants of the store. */
module Schema {
  import opened Wrappers

  type Id = string
  /** Milliseconds since the epoch. */
  type Time = int

  const WorkspaceName: string := "Slacord Official"
  const ServerName: string := "Slacord Official"

  datatype Role = Owner | Admin | Member

  datatype TeamMember = TeamMember(userId: Id, role: Role, joinedAt: Time)

  /** `maxUses` absent or 0 means unlimited. */
  datatype InviteLink = InviteLink(
    token: string,
    expiresAt: Time,
    isActive: bool,
    maxUses: Option<int>,
    currentUses: int)

  datatype SlackConfig = SlackConfig(channelId: string, channelName: string, workspaceName: string)

  datatype DiscordConfig = DiscordConfig(
    channelId: string,
    channelName: string,
    webhookUrl: string,
    serverName: string)

  datatype Team = Team(
    id: Id,
    name: string,
    description: Option<string>,
    ownerId: Id,
    members: seq<TeamMember>,
    inviteLink: Option<InviteLink>,
    slackConfig: SlackConfig,
    discordConfig: DiscordConfig,
    isActive: bool,
    createdAt: Time)

  datatype SlackChannelRef = SlackChannelRef(channelId: string, channelName: string)

  datatype DiscordChannelRef = DiscordChannelRef(channelId: string, channelName: string, webhookUrl: string)

  datatype Room = Room(
    id: Id,
    teamId: Id,
    name: string,
    description: Option<string>,
    slackChannel: SlackChannelRef,
    discordChannel: DiscordChannelRef,
    isActive: bool,
    messageCount: int)

  /** The `type` field: 'message', 'thread_reply' or 'file_share'. */
  datatype MessageType = PlainMessage | ThreadReply | FileShare

  datatype Attachment = Attachment(
    fileName: Option<string>,
    fileUrl: Option<string>,
    fileType: Option<string>,
    fileSize: Option<int>)

  /** A stored message. `sentAt` keeps the Slack `ts` text the send time is
      computed from. */
  datatype MessageRecord = MessageRecord(
    teamId: Id,
    slackMessageId: string,
    slackChannelId: string,
    slackChannelName: string,
    slackUserId: Option<string>,
    username: string,
    userIcon: Option<string>,
    content: string,
    msgType: MessageType,
    threadTs: Option<string>,
    attachments: seq<Attachment>,
    discordChannelId: string,
    discordMessageId: Option<string>,
    discordWebhookUrl: string,
    sentAt: string,
    backedUpAt: Option<Time>)

  predicate IsMember(t: Team, userId: Id) {
    exists i :: 0 <= i < |t.members| && t.members[i].userId == userId
  }

  predicate MemberIdsDistinct(members: seq<TeamMember>) {
    forall i, j :: 0 <= i < j < |members| ==> members[i].userId != members[j].userId
  }

  /** `maxUses` truthy: present and non-zero. */
  predicate HasUseLimit(l: InviteLink) {
    l.maxUses.Some? && l.maxUses.value != 0
  }

  predicate InviteLinkOk(l: InviteLink) {
    l.currentUses >= 0 && (HasUseLimit(l) && l.maxUses.value > 0 ==> l.currentUses <= l.maxUses.value)
  }

  /** The shape every team keeps: no user listed twice, the owner listed with
      role owner, and a use counter that never passes a positive limit. */
  predicate WellFormedTeam(t: Team) {
    && MemberIdsDistinct(t.members)
    && (exists i :: 0 <= i < |t.members| && t.members[i].userId == t.ownerId && t.members[i].role == Owner)
    && (t.inviteLink.Some? ==> InviteLinkOk(t.inviteLink.value))
  }

  /** Distinct ids, names unique (the `name` unique index), every team well formed. */
  predicate TeamsValid(teams: seq<Team>) {
    && (forall i, j :: 0 <= i < j < |teams| ==> teams[i].id != teams[j].id && teams[i].name != teams[j].name)
    && (forall i :: 0 <= i < |teams| ==> WellFormedTeam(teams[i]))
  }

  /** Distinct ids, the `(teamId, name)` and `slackChannel.channelId` unique indexes. */
  predicate RoomsValid(rooms: seq<Room>) {
    forall i, j :: 0 <= i < j < |rooms| ==>
      && rooms[i].id != rooms[j].id
      && (rooms[i].teamId, rooms[i].name) != (rooms[j].teamId, rooms[j].name)
      && rooms[i].slackChannel.channelId != rooms[j].slackChannel.channelId
  }

  /** Messages are keyed by their unique `slackMessageId`. */
  predicate MessagesKeyed(messages: map<string, MessageRecord>) {
    forall k :: k in messages ==> messages[k].slackMessageId == k
  }

  /** The text MongoDB's duplicate-key error starts with. */
  const DuplicateKeyError: string := "E11000 duplicate key error"

  /** Position of the team with id `id`, as `findById` finds it. */
  function FindTeam(teams: seq<Team>, id: Id): (r: Option<nat>)
    ensures r.Some? ==> r.value < |teams| && teams[r.value].id == id
    ensures r.None? ==> forall i :: 0 <= i < |teams| ==> teams[i].id != id
  {
    if |teams| == 0 then None
    else if teams[0].id == id then Some(0)
    else
      var r := FindTeam(teams[1..], id);
      if r.Some? then Some(r.value + 1) else None
  }

  /** The one database instance the services share. */
  class Store {
    var teams: seq<Team>
    var rooms: seq<Room>
    var messages: map<string, MessageRecord>

    ghost predicate Valid()
      reads this
    {
      TeamsValid(teams) && RoomsValid(rooms) && MessagesKeyed(messages)
    }

    constructor()
      ensures teams == [] && rooms == [] && messages == map[]
      ensures Valid()
    {
      teams := [];
      rooms := [];
      messages := map[];
    }
  }
}
