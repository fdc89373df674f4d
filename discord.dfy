/** The Discord side: webhook posts and their payload defaults, the bot's
    channel creation and deletion behind the readiness guard, history-page
    shaping, and the `?wait=true` webhook send the relay uses. Every HTTP or
    gateway call is an outcome passed in by the caller. */
module Discord {
  import opened Wrappers
  import opened Text
  import opened Romanize
  import opened ChannelNames

  const TopicLimit: nat := 1024
  const DefaultUsername: string := "Slack Archive Bot"
  /** Discord's blurple, the embed colour when none is given. */
  const DefaultColor: int := 0x5865f2
  const WebhookName: string := "Slacord Backup"
  const NotReadyError: string := "Discord Bot이 준비되지 않았습니다."
  const NoGuildError: string := "DISCORD_GUILD_ID가 설정되지 않았습니다."
  const NotTextError: string := "텍스트 채널이 아닙니다."
  /** What `sendMessageWithFile` puts between the text and the file link. */
  const FileSeparator: string := "\n\n\U{1F4CE} 파일: "

  /** An embed colour: the default number, or the hex text (first '#'
      removed) handed to `parseInt(…, 16)`. */
  datatype EmbedColor = ColorValue(value: int) | HexText(digits: string)

  datatype EmbedField = EmbedField(name: string, value: string, inline: Option<bool>)

  datatype Embed = Embed(
    title: Option<string>,
    description: Option<string>,
    url: Option<string>,
    fields: Option<seq<EmbedField>>,
    color: Option<EmbedColor>,
    timestamp: Option<string>)

  datatype WebhookPayload = WebhookPayload(
    content: Option<string>,
    username: Option<string>,
    avatarUrl: Option<string>,
    embeds: Option<seq<Embed>>)

  /** One HTTP POST to a webhook. */
  datatype WebhookPost = WebhookPost(url: string, payload: WebhookPayload)

  /** The `id` and `channel_id` of the message a `?wait=true` post created. */
  datatype SentMessage = SentMessage(id: string, channelId: string)

  /** `username || 'Slack Archive Bot'`. */
  function SenderName(username: Option<string>): (r: string)
    ensures r != ""
    ensures Truthy(username) ==> r == username.value
    ensures !Truthy(username) ==> r == DefaultUsername
  {
    Or(username, DefaultUsername)
  }

  /** The text `sendMessageWithFile` posts. */
  function FileContent(content: string, fileUrl: string): (r: string)
    ensures |r| == |content| + |FileSeparator| + |fileUrl|
    ensures r[..|content|] == content && r[|r| - |fileUrl|..] == fileUrl
    ensures r[|content|..|content| + |FileSeparator|] == FileSeparator
  {
    content + FileSeparator + fileUrl
  }

  /** `s.replace('#', '')`: only the first '#' goes. */
  function RemoveFirstHash(s: string): (r: string)
    ensures '#' !in s ==> r == s
    ensures '#' in s ==> |r| == |s| - 1
    decreases |s|
  {
    if s == "" then s
    else if s[0] == '#' then s[1..]
    else [s[0]] + RemoveFirstHash(s[1..])
  }

  /** `color ? parseInt(color.replace('#', ''), 16) : 0x5865f2`. */
  function EmbedColorOf(color: Option<string>): (r: EmbedColor)
    ensures !Truthy(color) ==> r == ColorValue(DefaultColor)
    ensures Truthy(color) ==> r == HexText(RemoveFirstHash(color.value))
  {
    if Truthy(color) then HexText(RemoveFirstHash(color.value)) else ColorValue(DefaultColor)
  }

  /** Where the first '#' of `s` is. */
  function FirstHash(s: string): (p: nat)
    requires '#' in s
    ensures p < |s| && s[p] == '#'
    ensures forall k :: 0 <= k < p ==> s[k] != '#'
    decreases |s|
  {
    if s[0] == '#' then 0
    else
      assert s == [s[0]] + s[1..];
      1 + FirstHash(s[1..])
  }

  /** Exactly the first '#' goes: what is left is the text before it followed
      by the text after it. */
  lemma {:induction false} RemoveFirstHashSplit(s: string)
    requires '#' in s
    ensures RemoveFirstHash(s) == s[..FirstHash(s)] + s[FirstHash(s) + 1..]
    decreases |s|
  {
    if s[0] != '#' {
      var t := s[1..];
      assert s == [s[0]] + t;
      RemoveFirstHashSplit(t);
      var p := FirstHash(t);
      assert s[..p + 1] == [s[0]] + t[..p];
      assert s[p + 2..] == t[p + 1..];
    }
  }

  /** A colour written as '#' and hex digits is parsed from the digits. */
  lemma HashColorDigits(d: string)
    requires '#' !in d
    ensures EmbedColorOf(Some("#" + d)) == HexText(d)
  {
    assert ("#" + d)[1..] == d;
  }

  /** The request `sendWebhookMessage` makes, and what it reports: the id and
      channel id from the reply, or the failure. */
  function SendWebhookMessage(webhookUrl: string, payload: WebhookPayload,
                              reply: Result<SentMessage, string>): (r: (WebhookPost, Result<SentMessage, string>))
    ensures r.0.url == webhookUrl + "?wait=true" && r.0.payload == payload
    ensures r.0.url[..|webhookUrl|] == webhookUrl
    ensures r.1.Success? <==> reply.Success?
    ensures r.1.Success? ==> r.1.value.id == reply.value.id && r.1.value.channelId == reply.value.channelId
  {
    (WebhookPost(webhookUrl + "?wait=true", payload), reply)
  }

  /** One fetched message; `createdAt` is the ISO-8601 text of its creation
      time, as `createdAt.toISOString()` gives it. */
  datatype Author = Author(username: Option<string>, tag: Option<string>)
  datatype RawDiscordMessage =
    RawDiscordMessage(id: string, content: Option<string>, author: Option<Author>, createdAt: string)

  datatype ArchivedMessage = ArchivedMessage(messageId: string, content: string, username: string, timestamp: string)
  datatype ArchivePage = ArchivePage(messages: seq<ArchivedMessage>, hasMore: bool, nextCursor: Option<string>)

  /** `author?.username || author?.tag || 'Unknown'`. */
  function AuthorName(a: Option<Author>): (r: string)
    ensures r != ""
    ensures a.Some? && Truthy(a.value.username) ==> r == a.value.username.value
    ensures a.Some? && !Truthy(a.value.username) && Truthy(a.value.tag) ==> r == a.value.tag.value
    ensures (a.None? || (!Truthy(a.value.username) && !Truthy(a.value.tag))) ==> r == "Unknown"
  {
    if a.None? then "Unknown" else Or(a.value.username, Or(a.value.tag, "Unknown"))
  }

  /** The page `getMessages` returns: one entry per fetched message in order,
      more pages assumed exactly when a full page came back, the cursor being
      the last id. */
  function ShapeArchive(fetched: seq<RawDiscordMessage>, limit: int): (page: ArchivePage)
    ensures |page.messages| == |fetched|
    ensures forall i :: 0 <= i < |fetched| ==>
      && page.messages[i].messageId == fetched[i].id
      && page.messages[i].content == Or(fetched[i].content, "")
      && page.messages[i].username == AuthorName(fetched[i].author)
      && page.messages[i].timestamp == fetched[i].createdAt
    ensures page.hasMore <==> |fetched| == limit
    ensures page.nextCursor.Some? <==> |fetched| > 0
    ensures page.nextCursor.Some? ==> page.nextCursor.value == page.messages[|page.messages| - 1].messageId
  {
    var shaped := seq(|fetched|, i requires 0 <= i < |fetched| =>
      ArchivedMessage(fetched[i].id, Or(fetched[i].content, ""), AuthorName(fetched[i].author), fetched[i].createdAt));
    ArchivePage(shaped, |fetched| == limit, if |shaped| > 0 then Some(shaped[|shaped| - 1].messageId) else None)
  }

  /** `description ? description.substring(0, 1024) : undefined`. */
  function Topic(description: Option<string>): (r: Option<string>)
    ensures r.Some? <==> Truthy(description)
    ensures r.Some? ==> |r.value| == Min(|description.value|, TopicLimit) && r.value == description.value[..|r.value|]
  {
    if Truthy(description) then Some(Prefix(description.value, TopicLimit)) else None
  }

  /** What the guild reports for a created channel, and the requests the bot makes. */
  datatype CreatedChannel = CreatedChannel(id: string, name: string)
  datatype DiscordChannel = DiscordChannel(channelId: string, channelName: string, webhookUrl: string)

  datatype GatewayRequest =
    | CreateTextChannel(guildId: string, name: string, topic: Option<string>)
    | CreateWebhook(channelId: string, name: string)
    | DeleteChannel(channelId: string)

  class DiscordService {
    /** `DISCORD_WEBHOOK_URL`, or '' when unset. */
    const webhookUrl: string
    /** Set once the client has logged in. */
    var isReady: bool
    /** Whether a client was created (a bot token was configured). */
    var hasClient: bool

    constructor(configuredWebhookUrl: Option<string>)
      ensures webhookUrl == Or(configuredWebhookUrl, "")
      ensures !isReady && !hasClient
    {
      webhookUrl := Or(configuredWebhookUrl, "");
      isReady := false;
      hasClient := false;
    }

    /** `onModuleInit`: without a bot token no client is created; with one,
        the client logs in and `loggedIn` says whether its `ready` event fired. */
    method OnModuleInit(token: Option<string>, loggedIn: bool)
      modifies this
      ensures !Truthy(token) ==> isReady == old(isReady) && hasClient == old(hasClient)
      ensures Truthy(token) ==> hasClient && isReady == (old(isReady) || loggedIn)
    {
      if !Truthy(token) {
        return;
      }
      hasClient := true;
      if loggedIn {
        isReady := true;
      }
    }

    predicate Ready()
      reads this
    {
      isReady && hasClient
    }

    /** `sendMessage`: nothing is posted without a webhook URL. `postError` is
        the failure of the POST. */
    method SendMessage(content: string, username: Option<string>, avatarUrl: Option<string>,
                       postError: Option<string>)
      returns (post: Option<WebhookPost>, r: Result<Unit, string>)
      ensures webhookUrl == "" ==> post.None? && r.Success?
      ensures webhookUrl != "" ==>
        post == Some(WebhookPost(webhookUrl, WebhookPayload(Some(content), Some(SenderName(username)), avatarUrl, None)))
      ensures r.Failure? <==> webhookUrl != "" && postError.Some?
      ensures r.Failure? ==> r.error == postError.value
    {
      if webhookUrl == "" {
        return None, Success(Unit);
      }
      var payload := WebhookPayload(Some(content), Some(SenderName(username)), avatarUrl, None);
      post := Some(WebhookPost(webhookUrl, payload));
      r := if postError.Some? then Failure(postError.value) else Success(Unit);
    }

    /** `sendMessageWithFile`: the file link is appended to the text. */
    method SendMessageWithFile(content: string, fileUrl: string, username: Option<string>,
                               postError: Option<string>)
      returns (post: Option<WebhookPost>, r: Result<Unit, string>)
      ensures webhookUrl == "" ==> post.None? && r.Success?
      ensures webhookUrl != "" ==>
        post == Some(WebhookPost(webhookUrl,
          WebhookPayload(Some(FileContent(content, fileUrl)), Some(SenderName(username)), None, None)))
      ensures r.Failure? <==> webhookUrl != "" && postError.Some?
      ensures r.Failure? ==> r.error == postError.value
    {
      if webhookUrl == "" {
        return None, Success(Unit);
      }
      var payload := WebhookPayload(Some(FileContent(content, fileUrl)), Some(SenderName(username)), None, None);
      post := Some(WebhookPost(webhookUrl, payload));
      r := if postError.Some? then Failure(postError.value) else Success(Unit);
    }

    /** `sendEmbed`: one embed, coloured by the given hex text or the default
        and stamped with `now`, the clock's ISO-8601 text. */
    method SendEmbed(title: string, description: string, fields: Option<seq<EmbedField>>,
                     color: Option<string>, now: string, postError: Option<string>)
      returns (post: Option<WebhookPost>, r: Result<Unit, string>)
      ensures webhookUrl == "" ==> post.None? && r.Success?
      ensures webhookUrl != "" ==>
        post == Some(WebhookPost(webhookUrl, WebhookPayload(None, None, None,
          Some([Embed(Some(title), Some(description), None, fields, Some(EmbedColorOf(color)), Some(now))]))))
      ensures r.Failure? <==> webhookUrl != "" && postError.Some?
      ensures r.Failure? ==> r.error == postError.value
    {
      if webhookUrl == "" {
        return None, Success(Unit);
      }
      var embed := Embed(Some(title), Some(description), None, fields, Some(EmbedColorOf(color)), Some(now));
      post := Some(WebhookPost(webhookUrl, WebhookPayload(None, None, None, Some([embed]))));
      r := if postError.Some? then Failure(postError.value) else Success(Unit);
    }

    /** `createChannel`: refused before the bot is ready or without a guild id;
        otherwise a text channel with the sanitised name and the description
        (cut to 1024) as topic, then a webhook on it. */
    method CreateChannel(name: string, description: Option<string>, guildId: Option<string>,
                         created: Result<CreatedChannel, string>, webhook: Result<string, string>)
      returns (requests: seq<GatewayRequest>, r: Result<DiscordChannel, string>)
      ensures !Ready() ==> requests == [] && r == Failure(NotReadyError)
      ensures Ready() && !Truthy(guildId) ==> requests == [] && r == Failure(NoGuildError)
      ensures Ready() && Truthy(guildId) ==>
        |requests| >= 1
        && requests[0] == CreateTextChannel(guildId.value, DiscordChannelName(name), Topic(description))
      ensures |requests| <= 2
      ensures Ready() && Truthy(guildId) ==> (|requests| == 2 <==> created.Success?)
      ensures Ready() && Truthy(guildId) && created.Failure? ==> r == Failure(created.error)
      ensures Ready() && Truthy(guildId) && created.Success? ==> requests[1] == CreateWebhook(created.value.id, WebhookName)
      ensures Ready() && Truthy(guildId) && created.Success? && webhook.Failure? ==> r == Failure(webhook.error)
      ensures r.Success? <==> Ready() && Truthy(guildId) && created.Success? && webhook.Success?
      ensures r.Success? ==>
        requests[1..] == [CreateWebhook(created.value.id, WebhookName)]
        && r.value == DiscordChannel(created.value.id, created.value.name, webhook.value)
    {
      if !(isReady && hasClient) {
        return [], Failure(NotReadyError);
      }
      if !Truthy(guildId) {
        return [], Failure(NoGuildError);
      }
      var processed := KoreanToRoman(name);
      var sanitized := Sanitize(processed, DiscordNameLimit);
      assert sanitized == DiscordChannelName(name);
      requests := [CreateTextChannel(guildId.value, sanitized, Topic(description))];
      if created.Failure? {
        return requests, Failure(created.error);
      }
      requests := requests + [CreateWebhook(created.value.id, WebhookName)];
      if webhook.Failure? {
        return requests, Failure(webhook.error);
      }
      r := Success(DiscordChannel(created.value.id, created.value.name, webhook.value));
    }

    /** `deleteChannel`: refused before the bot is ready; deletes the channel
        only when the fetch finds a text-based one. `fetched` is the outcome of
        the fetch (whether the channel exists and is text based). */
    method DeleteChannelById(channelId: string, fetched: Result<bool, string>, deleteError: Option<string>)
      returns (requests: seq<GatewayRequest>, r: Result<Unit, string>)
      ensures !Ready() ==> requests == [] && r == Failure(NotReadyError)
      ensures requests != [] <==> Ready() && fetched == Success(true)
      ensures requests != [] ==> requests == [DeleteChannel(channelId)]
      ensures r.Success? <==> Ready() && fetched.Success? && (fetched.value ==> deleteError.None?)
      ensures Ready() && fetched.Failure? ==> r == Failure(fetched.error)
      ensures Ready() && fetched == Success(true) && deleteError.Some? ==> r == Failure(deleteError.value)
    {
      if !(isReady && hasClient) {
        return [], Failure(NotReadyError);
      }
      if fetched.Failure? {
        return [], Failure(fetched.error);
      }
      requests := [];
      r := Success(Unit);
      if fetched.value {
        requests := [DeleteChannel(channelId)];
        if deleteError.Some? {
          r := Failure(deleteError.value);
        }
      }
    }

    /** `getMessages`: refused before the bot is ready and for a channel that
        is not text based; otherwise the shaped page of what was fetched. */
    method GetMessages(channelId: string, limit: int, before: Option<string>,
                       isText: Result<bool, string>, fetched: Result<seq<RawDiscordMessage>, string>)
      returns (r: Result<ArchivePage, string>)
      ensures !Ready() ==> r == Failure(NotReadyError)
      ensures Ready() && isText.Failure? ==> r == Failure(isText.error)
      ensures Ready() && isText == Success(false) ==> r == Failure(NotTextError)
      ensures Ready() && isText == Success(true) && fetched.Failure? ==> r == Failure(fetched.error)
      ensures r.Success? <==> Ready() && isText == Success(true) && fetched.Success?
      ensures r.Success? ==> r.value == ShapeArchive(fetched.value, limit)
    {
      if !(isReady && hasClient) {
        return Failure(NotReadyError);
      }
      if isText.Failure? {
        return Failure(isText.error);
      }
      if !isText.value {
        return Failure(NotTextError);
      }
      if fetched.Failure? {
        return Failure(fetched.error);
      }
      r := Success(ShapeArchive(fetched.value, limit));
    }
  }
}
