/** The Slack side: incoming message events, the user-name fallbacks, the
    event dispatcher with its single replaceable handler, channel creation
    and the shaping of a channel-history page. Every Web API call is an
    outcome passed in by the caller. */
module Slack {
  import opened Wrappers
  import opened Text
  import opened Romanize
  import opened ChannelNames

  const TopicLimit: nat := 250
  const UnknownUser: string := "Unknown User"
  const UnknownAuthor: string := "Unknown"

  datatype SlackFile = SlackFile(
    name: Option<string>,
    urlPrivate: Option<string>,
    mimetype: Option<string>,
    size: Option<int>)

  /** A `message` event; `hasBotId` says whether the `bot_id` key is present. */
  datatype SlackEvent = SlackEvent(
    ts: Option<string>,
    channel: Option<string>,
    user: Option<string>,
    text: Option<string>,
    threadTs: Option<string>,
    files: Option<seq<SlackFile>>,
    hasBotId: bool)

  /** The parts of a `users.info` user the services read. */
  datatype SlackUser = SlackUser(realName: Option<string>, name: Option<string>, image72: Option<string>)

  /** `user?.real_name || user?.name || 'Unknown User'`. */
  function DisplayName(u: Option<SlackUser>): (r: string)
    ensures r != ""
    ensures u.Some? && Truthy(u.value.realName) ==> r == u.value.realName.value
    ensures u.Some? && !Truthy(u.value.realName) && Truthy(u.value.name) ==> r == u.value.name.value
    ensures (u.None? || (!Truthy(u.value.realName) && !Truthy(u.value.name))) ==> r == UnknownUser
  {
    if u.None? then UnknownUser else Or(u.value.realName, Or(u.value.name, UnknownUser))
  }

  /** `user?.profile?.image_72`. */
  function Avatar(u: Option<SlackUser>): (r: Option<string>)
    ensures r.Some? <==> u.Some? && u.value.image72.Some?
    ensures r.Some? ==> r == u.value.image72
  {
    if u.Some? then u.value.image72 else None
  }

  /** What `conversations.create` reports back. */
  datatype CreatedConversation = CreatedConversation(id: Option<string>, name: Option<string>)

  datatype SlackRequest =
    | CreateConversation(name: string, isPrivate: bool)
    | SetTopic(channel: string, topic: string)

  datatype SlackChannel = SlackChannel(channelId: string, channelName: string)

  /** One message of a `conversations.history` reply. */
  datatype RawSlackMessage = RawSlackMessage(
    ts: string,
    text: Option<string>,
    username: Option<string>,
    user: Option<string>)

  datatype HistoryReply = HistoryReply(messages: Option<seq<RawSlackMessage>>, hasMore: Option<bool>)

  datatype HistoryMessage = HistoryMessage(messageId: string, content: string, username: string)

  datatype HistoryPage = HistoryPage(messages: seq<HistoryMessage>, hasMore: bool, nextCursor: Option<string>)

  /** One history entry: missing text reads as '', the author is the
      `username` field, else the user id, else 'Unknown'. */
  function ShapeMessage(m: RawSlackMessage): (r: HistoryMessage)
    ensures r.messageId == m.ts
    ensures (r.content == "") == !Truthy(m.text)
    ensures Truthy(m.text) ==> r.content == m.text.value
    ensures r.username != ""
    ensures Truthy(m.username) ==> r.username == m.username.value
    ensures !Truthy(m.username) && Truthy(m.user) ==> r.username == m.user.value
    ensures !Truthy(m.username) && !Truthy(m.user) ==> r.username == UnknownAuthor
  {
    HistoryMessage(m.ts, Or(m.text, ""), Or(m.username, Or(m.user, UnknownAuthor)))
  }

  /** The page `getMessages` returns for a history reply. */
  function ShapeHistory(reply: HistoryReply): (page: HistoryPage)
    ensures var raw := if reply.messages.Some? then reply.messages.value else [];
      && |page.messages| == |raw|
      && (forall i :: 0 <= i < |raw| ==> page.messages[i] == ShapeMessage(raw[i]))
      && (page.nextCursor.Some? <==> |raw| > 0)
    ensures page.hasMore <==> reply.hasMore == Some(true)
    ensures page.nextCursor.Some? ==> page.nextCursor.value == page.messages[|page.messages| - 1].messageId
  {
    var raw := if reply.messages.Some? then reply.messages.value else [];
    var shaped := seq(|raw|, i requires 0 <= i < |raw| => ShapeMessage(raw[i]));
    HistoryPage(
      shaped,
      reply.hasMore == Some(true),
      if |raw| > 0 then Some(raw[|raw| - 1].ts) else None)
  }

  /** A registered message handler, by identity. */
  type HandlerId = nat

  class SlackService {
    /** The handler `onMessage` registered last, if any. */
    var handler: Option<HandlerId>

    constructor()
      ensures handler == None
    {
      handler := None;
    }

    /** `onMessage` keeps one handler: registering replaces the previous one. */
    method OnMessage(h: HandlerId)
      modifies this
      ensures handler == Some(h)
    {
      handler := Some(h);
    }

    /** The Bolt `message` listener: bot messages are ignored, everything else
        goes to the registered handler when there is one. Returns the handler
        that received the event. */
    method Dispatch(ev: SlackEvent) returns (delivered: Option<HandlerId>)
      ensures delivered.Some? <==> !ev.hasBotId && handler.Some?
      ensures delivered.Some? ==> delivered == handler
    {
      if ev.hasBotId {
        return None;
      }
      delivered := handler;
    }

    /** `createChannel`: transliterate and sanitise the name, create a public
        channel, set the topic when there is a description and a channel id,
        and report the channel. `created` is the outcome of
        `conversations.create`, `topicError` the failure of `setTopic`. */
    method CreateChannel(name: string, description: Option<string>,
                         created: Result<CreatedConversation, string>, topicError: Option<string>)
      returns (requests: seq<SlackRequest>, r: Result<SlackChannel, string>)
      ensures 1 <= |requests| <= 2
      ensures requests[0] == CreateConversation(SlackChannelName(name), false)
      ensures |requests| == 2 <==> created.Success? && Truthy(description) && Truthy(created.value.id)
      ensures |requests| == 2 ==>
        requests[1] == SetTopic(created.value.id.value, Prefix(description.value, TopicLimit))
        && |requests[1].topic| <= TopicLimit
      ensures created.Failure? ==> r == Failure(created.error)
      ensures created.Success? && |requests| == 2 && topicError.Some? ==> r == Failure(topicError.value)
      ensures r.Success? <==> created.Success? && (|requests| == 2 ==> topicError.None?)
      ensures r.Success? ==>
        r.value == SlackChannel(Or(created.value.id, ""), Or(created.value.name, SlackChannelName(name)))
    {
      var processed := KoreanToRoman(name);
      var sanitized := Sanitize(processed, SlackNameLimit);
      requests := [CreateConversation(sanitized, false)];
      if created.Failure? {
        return requests, Failure(created.error);
      }
      var channel := created.value;
      if Truthy(description) && Truthy(channel.id) {
        requests := requests + [SetTopic(channel.id.value, Prefix(description.value, TopicLimit))];
        if topicError.Some? {
          return requests, Failure(topicError.value);
        }
      }
      r := Success(SlackChannel(Or(channel.id, ""), Or(channel.name, sanitized)));
    }
  }
}
