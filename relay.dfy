/** The Slack-to-Discord relay: a live message event is checked, matched to
    its team, stored under its Slack `ts`, and only then forwarded to the
    team's Discord webhook; a successful forward is written back into the
    stored record. The history backup does the same for a page of past
    messages, skipping those already stored and counting full successes.

    The specification functions (`Persist`, `Handle`, `BackupAll`) describe
    the new store and the side effects in order; `RelayService` performs the
    same steps on the shared `Store` and is proved equal to them. */
module Relay {
  import opened Wrappers
  import opened Text
  import opened Schema
  import opened Slack
  import Discord

  const TeamMissing: string := "Team을 찾을 수 없습니다."

  /** The side effects, in the order they happen. */
  datatype Effect =
    | Inserted(id: string)
    | Forwarded(id: string, post: Discord.WebhookPost)
    | Updated(id: string)

  /** The outcomes of the calls made for one message: the first save, the
      webhook post, the save of the Discord id, and the clock. */
  datatype Attempt = Attempt(
    saveError: Option<string>,
    reply: Result<Discord.SentMessage, string>,
    updateError: Option<string>,
    now: Time)

  datatype Status =
    | MissingField | NoTeam | UserLookupFailed | AlreadyStored
    | SaveRejected | ForwardFailed | UpdateFailed | BackedUp

  datatype Step = Step(messages: map<string, MessageRecord>, effects: seq<Effect>, status: Status)

  /** Records stored before are still there, unchanged. */
  predicate Keeps(before: map<string, MessageRecord>, after: map<string, MessageRecord>) {
    forall k :: k in before ==> k in after && after[k] == before[k]
  }

  /** Every forward comes after the insert of the same record. */
  predicate InsertedBeforeForwarded(effects: seq<Effect>) {
    forall j :: 0 <= j < |effects| && effects[j].Forwarded? ==>
      exists i :: 0 <= i < j && effects[i] == Inserted(effects[j].id)
  }

  /** Nothing stored before is forwarded again. */
  predicate ForwardsOnlyNew(effects: seq<Effect>, before: map<string, MessageRecord>) {
    forall j :: 0 <= j < |effects| && effects[j].Forwarded? ==> effects[j].id !in before
  }

  /** Records this run created and fully backed up. */
  function NewlyBackedUp(before: map<string, MessageRecord>, after: map<string, MessageRecord>): set<string> {
    set k | k in after && k !in before && after[k].discordMessageId.Some?
  }

  // ------------------------------------------------------------ derivations

  /** `thread_ts` makes a thread reply, else a non-empty file list a file
      share, else a plain message. */
  function MessageTypeOf(threadTs: Option<string>, files: Option<seq<SlackFile>>): (t: MessageType)
    ensures t == ThreadReply <==> Truthy(threadTs)
    ensures t == FileShare <==> !Truthy(threadTs) && files.Some? && |files.value| > 0
    ensures t == PlainMessage <==> !Truthy(threadTs) && (files.None? || |files.value| == 0)
  {
    if Truthy(threadTs) then ThreadReply
    else if files.Some? && |files.value| > 0 then FileShare
    else PlainMessage
  }

  function AttachmentOf(f: SlackFile): Attachment {
    Attachment(f.name, f.urlPrivate, f.mimetype, f.size)
  }

  /** One attachment per file, in order; none without files. */
  function AttachmentsOf(files: Option<seq<SlackFile>>): (r: seq<Attachment>)
    ensures files.None? ==> r == []
    ensures files.Some? ==> |r| == |files.value|
    ensures files.Some? ==> forall i :: 0 <= i < |r| ==>
      && r[i].fileName == files.value[i].name && r[i].fileUrl == files.value[i].urlPrivate
      && r[i].fileType == files.value[i].mimetype && r[i].fileSize == files.value[i].size
  {
    if files.None? then []
    else seq(|files.value|, i requires 0 <= i < |files.value| => AttachmentOf(files.value[i]))
  }

  /** The team whose Slack channel is `channel`, as `findOne` finds it. */
  function TeamForChannel(teams: seq<Team>, channel: string): (r: Option<nat>)
    ensures r.Some? ==> r.value < |teams| && teams[r.value].slackConfig.channelId == channel
    ensures r.Some? ==> forall i :: 0 <= i < r.value ==> teams[i].slackConfig.channelId != channel
    ensures r.None? ==> forall i :: 0 <= i < |teams| ==> teams[i].slackConfig.channelId != channel
  {
    if |teams| == 0 then None
    else if teams[0].slackConfig.channelId == channel then Some(0)
    else
      var r := TeamForChannel(teams[1..], channel);
      if r.Some? then Some(r.value + 1) else None
  }

  /** The record stored for a live event. */
  function EventRecord(team: Team, ev: SlackEvent, user: Option<SlackUser>): (r: MessageRecord)
    requires ev.ts.Some? && ev.channel.Some? && ev.text.Some?
    ensures r.slackMessageId == ev.ts.value && r.teamId == team.id
    ensures r.discordMessageId.None? && r.backedUpAt.None?
  {
    MessageRecord(
      team.id, ev.ts.value, ev.channel.value, team.slackConfig.channelName, ev.user,
      DisplayName(user), Avatar(user), ev.text.value, MessageTypeOf(ev.threadTs, ev.files),
      ev.threadTs, AttachmentsOf(ev.files), team.discordConfig.channelId, None,
      team.discordConfig.webhookUrl, ev.ts.value, None)
  }

  /** The webhook payload for a live event: its text under the sender's name
      and avatar, one embed (title and link) per attachment. */
  function EventPayload(rec: MessageRecord): (p: Discord.WebhookPayload)
    ensures p.content == Some(rec.content) && p.username == Some(rec.username) && p.avatarUrl == rec.userIcon
    ensures p.embeds.Some? && |p.embeds.value| == |rec.attachments|
    ensures forall i :: 0 <= i < |rec.attachments| ==>
      && p.embeds.value[i].title == rec.attachments[i].fileName
      && p.embeds.value[i].url == rec.attachments[i].fileUrl
  {
    Discord.WebhookPayload(
      Some(rec.content), Some(rec.username), rec.userIcon,
      Some(seq(|rec.attachments|, i requires 0 <= i < |rec.attachments| =>
        Discord.Embed(rec.attachments[i].fileName, None, rec.attachments[i].fileUrl, None, None, None))))
  }

  /** The record stored for a history message: no user id, no attachments. */
  function HistoryRecord(team: Team, m: HistoryMessage): (r: MessageRecord)
    ensures r.slackMessageId == m.messageId && r.teamId == team.id
    ensures r.discordMessageId.None? && r.backedUpAt.None?
    ensures r.msgType == PlainMessage && r.attachments == [] && r.slackUserId == Some("")
  {
    MessageRecord(
      team.id, m.messageId, team.slackConfig.channelId, team.slackConfig.channelName, Some(""),
      m.username, None, m.content, PlainMessage, None, [], team.discordConfig.channelId, None,
      team.discordConfig.webhookUrl, m.messageId, None)
  }

  /** The webhook payload for a history message: its text under its
      author's name, nothing else. */
  function HistoryPayload(m: HistoryMessage): (p: Discord.WebhookPayload)
    ensures p.content == Some(m.content) && p.username == Some(m.username)
    ensures p.avatarUrl.None? && p.embeds.None?
  {
    Discord.WebhookPayload(Some(m.content), Some(m.username), None, None)
  }

  /** The record after a successful forward. */
  function BackedUpRecord(rec: MessageRecord, discordId: string, now: Time): MessageRecord {
    rec.(discordMessageId := Some(discordId), backedUpAt := Some(now))
  }

  // ---------------------------------------------------- persist, then forward

  /** Save the record; only if that worked, post it to the webhook; only if
      that worked, save the Discord message id and the backup time. */
  function Persist(messages: map<string, MessageRecord>, rec: MessageRecord, url: string,
                   payload: Discord.WebhookPayload, att: Attempt): (r: Step)
    requires rec.discordMessageId.None?
    ensures r.status == SaveRejected <==> rec.slackMessageId in messages || att.saveError.Some?
    ensures r.status == SaveRejected ==> r.messages == messages && r.effects == []
    ensures r.status == ForwardFailed <==> r.status != SaveRejected && att.reply.Failure?
    ensures r.status == UpdateFailed <==> r.status != SaveRejected && att.reply.Success? && att.updateError.Some?
    ensures r.status == BackedUp <==> r.status != SaveRejected && att.reply.Success? && att.updateError.None?
    ensures r.status in {ForwardFailed, UpdateFailed} ==>
      && r.messages == messages[rec.slackMessageId := rec]
      && r.effects == [Inserted(rec.slackMessageId),
                       Forwarded(rec.slackMessageId, Discord.WebhookPost(url + "?wait=true", payload))]
    ensures r.status == BackedUp ==>
      && r.messages == messages[rec.slackMessageId := BackedUpRecord(rec, att.reply.value.id, att.now)]
      && r.effects == [Inserted(rec.slackMessageId),
                       Forwarded(rec.slackMessageId, Discord.WebhookPost(url + "?wait=true", payload)),
                       Updated(rec.slackMessageId)]
  {
    var id := rec.slackMessageId;
    if id in messages || att.saveError.Some? then Step(messages, [], SaveRejected)
    else
      var stored := messages[id := rec];
      var sent := Discord.SendWebhookMessage(url, payload, att.reply);
      var effects := [Inserted(id), Forwarded(id, sent.0)];
      if sent.1.Failure? then Step(stored, effects, ForwardFailed)
      else if att.updateError.Some? then Step(stored, effects, UpdateFailed)
      else Step(stored[id := BackedUpRecord(rec, sent.1.value.id, att.now)], effects + [Updated(id)], BackedUp)
  }

  /** A persist never loses or alters a stored record, forwards only the
      record it has just inserted, keeps the store keyed by Slack `ts`, and
      leaves exactly one newly backed-up record when it fully succeeds. */
  lemma PersistFacts(messages: map<string, MessageRecord>, rec: MessageRecord, url: string,
                     payload: Discord.WebhookPayload, att: Attempt)
    requires rec.discordMessageId.None?
    ensures var r := Persist(messages, rec, url, payload, att);
      && Keeps(messages, r.messages)
      && r.messages.Keys <= messages.Keys + {rec.slackMessageId}
      && InsertedBeforeForwarded(r.effects) && ForwardsOnlyNew(r.effects, messages)
      && (MessagesKeyed(messages) ==> MessagesKeyed(r.messages))
      && NewlyBackedUp(messages, r.messages) == if r.status == BackedUp then {rec.slackMessageId} else {}
  {
    var r := Persist(messages, rec, url, payload, att);
    if r.status != SaveRejected {
      assert r.effects[0] == Inserted(r.effects[1].id);
    }
    if r.status == BackedUp {
      assert NewlyBackedUp(messages, r.messages) == {rec.slackMessageId};
    }
  }

  /** `handleSlackMessage` on the store: events without `ts`, `channel` or
      `text`, or from a channel no team uses, or whose author cannot be looked
      up, are dropped before anything is stored or sent. */
  function Handle(teams: seq<Team>, messages: map<string, MessageRecord>, ev: SlackEvent,
                  user: Result<Option<SlackUser>, string>, att: Attempt): (r: Step)
    ensures !Truthy(ev.ts) || !Truthy(ev.channel) || !Truthy(ev.text) ==> r == Step(messages, [], MissingField)
    ensures Truthy(ev.ts) && Truthy(ev.channel) && Truthy(ev.text) && TeamForChannel(teams, ev.channel.value).None?
      ==> r == Step(messages, [], NoTeam)
    ensures r.status in {MissingField, NoTeam, UserLookupFailed, SaveRejected} ==>
      r.messages == messages && r.effects == []
    ensures r.effects != [] ==> ev.ts.Some? && ev.ts.value !in messages && ev.ts.value in r.messages
    ensures Keeps(messages, r.messages)
    ensures InsertedBeforeForwarded(r.effects) && ForwardsOnlyNew(r.effects, messages)
    ensures MessagesKeyed(messages) ==> MessagesKeyed(r.messages)
    ensures r.messages.Keys <= messages.Keys + (if ev.ts.Some? then {ev.ts.value} else {})
  {
    if !Truthy(ev.ts) || !Truthy(ev.channel) || !Truthy(ev.text) then Step(messages, [], MissingField)
    else
      var i := TeamForChannel(teams, ev.channel.value);
      if i.None? then Step(messages, [], NoTeam)
      else if user.Failure? then Step(messages, [], UserLookupFailed)
      else
        var team := teams[i.value];
        var rec := EventRecord(team, ev, user.value);
        PersistFacts(messages, rec, team.discordConfig.webhookUrl, EventPayload(rec), att);
        Persist(messages, rec, team.discordConfig.webhookUrl, EventPayload(rec), att)
  }

  /** A live event is stored with the type, attachments and author its
      fields call for; on a full success it carries the Discord message id. */
  lemma HandleStoresEvent(teams: seq<Team>, messages: map<string, MessageRecord>, ev: SlackEvent,
                          user: Option<SlackUser>, att: Attempt)
    requires Truthy(ev.ts) && Truthy(ev.channel) && Truthy(ev.text)
    requires TeamForChannel(teams, ev.channel.value).Some?
    requires ev.ts.value !in messages && att.saveError.None?
    ensures var r := Handle(teams, messages, ev, Success(user), att);
      var team := teams[TeamForChannel(teams, ev.channel.value).value];
      && ev.ts.value in r.messages
      && r.messages[ev.ts.value].msgType == MessageTypeOf(ev.threadTs, ev.files)
      && r.messages[ev.ts.value].attachments == AttachmentsOf(ev.files)
      && r.messages[ev.ts.value].username == DisplayName(user)
      && r.messages[ev.ts.value].teamId == team.id
      && r.effects[1].post.url == team.discordConfig.webhookUrl + "?wait=true"
      && (r.status == BackedUp <==> att.reply.Success? && att.updateError.None?)
      && (r.status == BackedUp ==> r.messages[ev.ts.value].discordMessageId == Some(att.reply.value.id)
                                   && r.messages[ev.ts.value].backedUpAt == Some(att.now))
      && (r.status != BackedUp ==> r.messages[ev.ts.value].discordMessageId.None?)
  {
  }

  // ----------------------------------------------------------- history backup

  /** One message of the history loop: skipped when already stored. */
  function BackupOne(team: Team, m: HistoryMessage, messages: map<string, MessageRecord>, att: Attempt): (r: Step)
    ensures r.status == AlreadyStored <==> m.messageId in messages
    ensures m.messageId in messages ==> r.messages == messages && r.effects == []
    ensures r.status == BackedUp <==>
      m.messageId !in messages && att.saveError.None? && att.reply.Success? && att.updateError.None?
  {
    if m.messageId in messages then Step(messages, [], AlreadyStored)
    else Persist(messages, HistoryRecord(team, m), team.discordConfig.webhookUrl, HistoryPayload(m), att)
  }

  datatype Batch = Batch(messages: map<string, MessageRecord>, effects: seq<Effect>, count: nat)

  /** The whole loop: each message in turn against the store the previous
      ones left; a failure on one does not stop the rest. */
  function BackupAll(team: Team, ms: seq<HistoryMessage>, atts: seq<Attempt>,
                     messages: map<string, MessageRecord>): (r: Batch)
    requires |atts| >= |ms|
    ensures r.count <= |ms|
    ensures ms == [] ==> r == Batch(messages, [], 0)
    decreases |ms|
  {
    if ms == [] then Batch(messages, [], 0)
    else
      var s := BackupOne(team, ms[0], messages, atts[0]);
      var rest := BackupAll(team, ms[1..], atts[1..], s.messages);
      Batch(rest.messages, s.effects + rest.effects, (if s.status == BackedUp then 1 else 0) + rest.count)
  }

  /** One step of the backup, summarised: what `PersistFacts` says, or
      nothing at all for a message already stored. */
  lemma BackupOneFacts(team: Team, m: HistoryMessage, messages: map<string, MessageRecord>, att: Attempt)
    ensures var s := BackupOne(team, m, messages, att);
      && Keeps(messages, s.messages)
      && s.messages.Keys <= messages.Keys + {m.messageId}
      && InsertedBeforeForwarded(s.effects) && ForwardsOnlyNew(s.effects, messages)
      && (MessagesKeyed(messages) ==> MessagesKeyed(s.messages))
      && NewlyBackedUp(messages, s.messages) == if s.status == BackedUp then {m.messageId} else {}
  {
    if m.messageId !in messages {
      PersistFacts(messages, HistoryRecord(team, m), team.discordConfig.webhookUrl, HistoryPayload(m), att);
    } else {
      assert NewlyBackedUp(messages, messages) == {};
    }
  }

  /** The backup never loses or alters a stored record. */
  lemma {:induction false} BackupKeeps(team: Team, ms: seq<HistoryMessage>, atts: seq<Attempt>,
                                       messages: map<string, MessageRecord>)
    requires |atts| >= |ms|
    ensures Keeps(messages, BackupAll(team, ms, atts, messages).messages)
    decreases |ms|
  {
    if ms != [] {
      var s := BackupOne(team, ms[0], messages, atts[0]);
      BackupOneFacts(team, ms[0], messages, atts[0]);
      BackupKeeps(team, ms[1..], atts[1..], s.messages);
    }
  }

  /** The backup stores nothing but the fetched messages. */
  lemma {:induction false} BackupStoresOnlyFetched(team: Team, ms: seq<HistoryMessage>, atts: seq<Attempt>,
                                                   messages: map<string, MessageRecord>)
    requires |atts| >= |ms|
    ensures BackupAll(team, ms, atts, messages).messages.Keys
      <= messages.Keys + (set i | 0 <= i < |ms| :: ms[i].messageId)
    decreases |ms|
  {
    if ms != [] {
      var s := BackupOne(team, ms[0], messages, atts[0]);
      BackupOneFacts(team, ms[0], messages, atts[0]);
      BackupStoresOnlyFetched(team, ms[1..], atts[1..], s.messages);
      assert forall i :: 0 <= i < |ms[1..]| ==> ms[1..][i] == ms[i + 1];
    }
  }

  /** The backup keeps the store keyed by Slack `ts`. */
  lemma {:induction false} BackupKeepsKeyed(team: Team, ms: seq<HistoryMessage>, atts: seq<Attempt>,
                                            messages: map<string, MessageRecord>)
    requires |atts| >= |ms| && MessagesKeyed(messages)
    ensures MessagesKeyed(BackupAll(team, ms, atts, messages).messages)
    decreases |ms|
  {
    if ms != [] {
      var s := BackupOne(team, ms[0], messages, atts[0]);
      BackupOneFacts(team, ms[0], messages, atts[0]);
      BackupKeepsKeyed(team, ms[1..], atts[1..], s.messages);
    }
  }

  /** The backup forwards no message that was stored before it started. */
  lemma {:induction false} BackupForwardsOnlyNew(team: Team, ms: seq<HistoryMessage>, atts: seq<Attempt>,
                                                 messages: map<string, MessageRecord>)
    requires |atts| >= |ms|
    ensures ForwardsOnlyNew(BackupAll(team, ms, atts, messages).effects, messages)
    decreases |ms|
  {
    if ms != [] {
      var s := BackupOne(team, ms[0], messages, atts[0]);
      var rest := BackupAll(team, ms[1..], atts[1..], s.messages);
      BackupOneFacts(team, ms[0], messages, atts[0]);
      BackupForwardsOnlyNew(team, ms[1..], atts[1..], s.messages);
      ForwardsOnlyNewAppend(s.effects, rest.effects, messages, s.messages);
    }
  }

  lemma ForwardsOnlyNewAppend(a: seq<Effect>, b: seq<Effect>,
                              before: map<string, MessageRecord>, later: map<string, MessageRecord>)
    requires ForwardsOnlyNew(a, before) && ForwardsOnlyNew(b, later) && Keeps(before, later)
    ensures ForwardsOnlyNew(a + b, before)
  {
    forall j | 0 <= j < |a + b| && (a + b)[j].Forwarded?
      ensures (a + b)[j].id !in before
    {
      if j >= |a| {
        assert (a + b)[j] == b[j - |a|];
      }
    }
  }

  lemma InsertedBeforeForwardedAppend(a: seq<Effect>, b: seq<Effect>)
    requires InsertedBeforeForwarded(a) && InsertedBeforeForwarded(b)
    ensures InsertedBeforeForwarded(a + b)
  {
    var c := a + b;
    forall j | 0 <= j < |c| && c[j].Forwarded?
      ensures exists i :: 0 <= i < j && c[i] == Inserted(c[j].id)
    {
      if j < |a| {
        assert c[j] == a[j];
        var i :| 0 <= i < j && a[i] == Inserted(a[j].id);
        assert c[i] == a[i];
      } else {
        assert c[j] == b[j - |a|];
        var i :| 0 <= i < j - |a| && b[i] == Inserted(b[j - |a|].id);
        assert c[i + |a|] == b[i];
      }
    }
  }

  /** Every forward in the backup follows the insert of its record. */
  lemma {:induction false} BackupPersistsBeforeForwarding(team: Team, ms: seq<HistoryMessage>,
                                                         atts: seq<Attempt>, messages: map<string, MessageRecord>)
    requires |atts| >= |ms|
    ensures InsertedBeforeForwarded(BackupAll(team, ms, atts, messages).effects)
    decreases |ms|
  {
    if ms != [] {
      var s := BackupOne(team, ms[0], messages, atts[0]);
      BackupOneFacts(team, ms[0], messages, atts[0]);
      BackupPersistsBeforeForwarding(team, ms[1..], atts[1..], s.messages);
      InsertedBeforeForwardedAppend(s.effects, BackupAll(team, ms[1..], atts[1..], s.messages).effects);
    }
  }

  /** Re-brackets the effect trace; the backup loop needs it to move one
      message's effects from the pending suffix onto the trace. */
  lemma AppendAssociates(a: seq<Effect>, b: seq<Effect>, c: seq<Effect>)
    ensures (a + b) + c == a + (b + c)
  {
  }

  /** The loop's view of `BackupAll`: the suffix from `i` is message `i`
      followed by the suffix from `i + 1`. */
  lemma BackupAllAt(team: Team, ms: seq<HistoryMessage>, atts: seq<Attempt>,
                    messages: map<string, MessageRecord>, i: nat)
    requires i < |ms| <= |atts|
    ensures var s := BackupOne(team, ms[i], messages, atts[i]);
      var rest := BackupAll(team, ms[i + 1..], atts[i + 1..], s.messages);
      BackupAll(team, ms[i..], atts[i..], messages)
        == Batch(rest.messages, s.effects + rest.effects, (if s.status == BackedUp then 1 else 0) + rest.count)
  {
    assert ms[i..][0] == ms[i] && ms[i..][1..] == ms[i + 1..];
    assert atts[i..][0] == atts[i] && atts[i..][1..] == atts[i + 1..];
  }

  /** What two successive runs newly back up is what the first did plus what
      the second did, and no record is counted twice. */
  lemma NewlyBackedUpSplit(a: map<string, MessageRecord>, b: map<string, MessageRecord>,
                           c: map<string, MessageRecord>)
    requires Keeps(a, b) && Keeps(b, c)
    ensures NewlyBackedUp(a, c) == NewlyBackedUp(a, b) + NewlyBackedUp(b, c)
    ensures NewlyBackedUp(a, b) !! NewlyBackedUp(b, c)
  {
    forall k | k in NewlyBackedUp(a, c) ensures k in NewlyBackedUp(a, b) + NewlyBackedUp(b, c) {
      if k in b {
        assert c[k] == b[k];
      }
    }
    forall k | k in NewlyBackedUp(a, b) ensures k in NewlyBackedUp(a, c) {
      assert c[k] == b[k];
    }
  }

  /** The count the backup reports is the number of records it created and
      fully backed up; in particular it never exceeds the messages fetched. */
  lemma {:induction false} BackupCountIsNewlyBackedUp(team: Team, ms: seq<HistoryMessage>,
                                                     atts: seq<Attempt>, messages: map<string, MessageRecord>)
    requires |atts| >= |ms|
    ensures var r := BackupAll(team, ms, atts, messages);
      r.count == |NewlyBackedUp(messages, r.messages)|
    decreases |ms|
  {
    var r := BackupAll(team, ms, atts, messages);
    if ms == [] {
      assert NewlyBackedUp(messages, r.messages) == {};
    } else {
      var s := BackupOne(team, ms[0], messages, atts[0]);
      var rest := BackupAll(team, ms[1..], atts[1..], s.messages);
      BackupCountIsNewlyBackedUp(team, ms[1..], atts[1..], s.messages);
      BackupOneFacts(team, ms[0], messages, atts[0]);
      BackupKeeps(team, ms[1..], atts[1..], s.messages);
      NewlyBackedUpSplit(messages, s.messages, rest.messages);
    }
  }

  /** The backup stores and counts every fetched message not stored before
      when its saves and its forward succeed. */
  lemma {:induction false} BackupStoresEveryNewMessage(team: Team, ms: seq<HistoryMessage>, atts: seq<Attempt>,
                                                       messages: map<string, MessageRecord>)
    requires |atts| >= |ms|
    requires forall i, j :: 0 <= i < j < |ms| ==> ms[i].messageId != ms[j].messageId
    requires forall i :: 0 <= i < |ms| ==> ms[i].messageId !in messages
    requires forall i :: 0 <= i < |ms| ==>
      atts[i].saveError.None? && atts[i].reply.Success? && atts[i].updateError.None?
    ensures var r := BackupAll(team, ms, atts, messages);
      && r.count == |ms|
      && forall i :: 0 <= i < |ms| ==>
           ms[i].messageId in r.messages && r.messages[ms[i].messageId].discordMessageId.Some?
    decreases |ms|
  {
    if ms != [] {
      var s := BackupOne(team, ms[0], messages, atts[0]);
      assert s.status == BackedUp;
      var id0 := ms[0].messageId;
      assert s.messages.Keys == messages.Keys + {id0};
      assert s.messages[id0].discordMessageId.Some?;
      assert forall i :: 0 <= i < |ms[1..]| ==> ms[1..][i] == ms[i + 1];
      BackupStoresEveryNewMessage(team, ms[1..], atts[1..], s.messages);
      BackupKeeps(team, ms[1..], atts[1..], s.messages);
    }
  }

  /** Mongoose's `required` check on a new record: every required text field
      is there and not empty. */
  predicate PassesRequired(rec: MessageRecord) {
    && rec.slackMessageId != "" && rec.slackChannelId != "" && rec.slackChannelName != ""
    && rec.slackUserId.Some? && rec.slackUserId.value != ""
    && rec.username != "" && rec.content != ""
    && rec.discordChannelId != "" && rec.discordWebhookUrl != "" && rec.sentAt != ""
  }

  const RequiredFieldMissing: string := "validation failed: a required field is empty"

  /** The first save as the database performs it: a record that fails the
      required check is refused, whatever the rest of the attempt says. */
  function Validated(rec: MessageRecord, att: Attempt): (a: Attempt)
    ensures PassesRequired(rec) ==> a == att
    ensures !PassesRequired(rec) ==> a == att.(saveError := Some(RequiredFieldMissing))
  {
    if PassesRequired(rec) then att else att.(saveError := Some(RequiredFieldMissing))
  }

  /** When no first save succeeds, the backup changes nothing, sends nothing
      and counts nothing. */
  lemma {:induction false} BackupWithoutSaves(team: Team, ms: seq<HistoryMessage>, atts: seq<Attempt>,
                                              messages: map<string, MessageRecord>)
    requires |atts| >= |ms|
    requires forall i :: 0 <= i < |ms| ==> atts[i].saveError.Some?
    ensures BackupAll(team, ms, atts, messages) == Batch(messages, [], 0)
    decreases |ms|
  {
    if ms != [] {
      assert forall i :: 0 <= i < |ms[1..]| ==> atts[1..][i] == atts[i + 1];
      BackupWithoutSaves(team, ms[1..], atts[1..], BackupOne(team, ms[0], messages, atts[0]).messages);
    }
  }

  /** The history backup as written, with the database's required check in
      place: every first save is refused, so nothing is stored or forwarded
      and the reported count is 0. */
  lemma HistoryBackupAsWritten(team: Team, ms: seq<HistoryMessage>, atts: seq<Attempt>,
                               messages: map<string, MessageRecord>)
    requires |atts| >= |ms|
    ensures var checked := seq(|ms|, i requires 0 <= i < |ms| => Validated(HistoryRecord(team, ms[i]), atts[i]));
      BackupAll(team, ms, checked, messages) == Batch(messages, [], 0)
  {
    var checked := seq(|ms|, i requires 0 <= i < |ms| => Validated(HistoryRecord(team, ms[i]), atts[i]));
    forall i | 0 <= i < |ms| ensures checked[i].saveError.Some? {
      // the record's Slack user id is empty
      assert !PassesRequired(HistoryRecord(team, ms[i]));
    }
    BackupWithoutSaves(team, ms, checked, messages);
  }

  // --------------------------------------------------------------- the service

  /** The handler the relay registers with the Slack service. */
  const RelayHandler: HandlerId := 1

  class RelayService {
    const store: Store
    const slack: SlackService
    /** The side effects performed so far, in order. */
    var trace: seq<Effect>

    constructor(store: Store, slack: SlackService)
      ensures this.store == store && this.slack == slack && trace == []
    {
      this.store := store;
      this.slack := slack;
      trace := [];
    }

    /** `onModuleInit`: route every Slack message event to this relay. */
    method OnModuleInit()
      modifies slack
      ensures slack.handler == Some(RelayHandler)
    {
      slack.OnMessage(RelayHandler);
    }

    /** Save, forward and write back one record, as `Persist` describes. */
    method PersistRecord(rec: MessageRecord, url: string, payload: Discord.WebhookPayload, att: Attempt)
      returns (status: Status)
      requires rec.discordMessageId.None?
      modifies store, this
      ensures store.teams == old(store.teams) && store.rooms == old(store.rooms)
      ensures var s := Persist(old(store.messages), rec, url, payload, att);
        store.messages == s.messages && trace == old(trace) + s.effects && status == s.status
    {
      var id := rec.slackMessageId;
      if id in store.messages || att.saveError.Some? {
        return SaveRejected;
      }
      store.messages := store.messages[id := rec];
      trace := trace + [Inserted(id)];
      var sent := Discord.SendWebhookMessage(url, payload, att.reply);
      trace := trace + [Forwarded(id, sent.0)];
      if sent.1.Failure? {
        return ForwardFailed;
      }
      if att.updateError.Some? {
        return UpdateFailed;
      }
      store.messages := store.messages[id := BackedUpRecord(rec, sent.1.value.id, att.now)];
      trace := trace + [Updated(id)];
      status := BackedUp;
    }

    /** `handleSlackMessage`. `user` is the outcome of `users.info`. */
    method HandleSlackMessage(ev: SlackEvent, user: Result<Option<SlackUser>, string>, att: Attempt)
      returns (status: Status)
      requires store.Valid()
      modifies store, this
      ensures store.Valid()
      ensures store.teams == old(store.teams) && store.rooms == old(store.rooms)
      ensures var s := Handle(old(store.teams), old(store.messages), ev, user, att);
        store.messages == s.messages && trace == old(trace) + s.effects && status == s.status
    {
      if !Truthy(ev.ts) || !Truthy(ev.channel) || !Truthy(ev.text) {
        return MissingField;
      }
      var i := TeamForChannel(store.teams, ev.channel.value);
      if i.None? {
        return NoTeam;
      }
      if user.Failure? {
        return UserLookupFailed;
      }
      var team := store.teams[i.value];
      var rec := EventRecord(team, ev, user.value);
      status := PersistRecord(rec, team.discordConfig.webhookUrl, EventPayload(rec), att);
    }

    /** The loop of `backupHistoryMessages`: each fetched message in turn,
        skipping those already stored, counting the full successes. */
    method BackupMessages(team: Team, ms: seq<HistoryMessage>, atts: seq<Attempt>) returns (backupCount: nat)
      requires |atts| >= |ms|
      modifies store, this
      ensures store.teams == old(store.teams) && store.rooms == old(store.rooms)
      ensures var b := BackupAll(team, ms, atts, old(store.messages));
        store.messages == b.messages && trace == old(trace) + b.effects && backupCount == b.count
    {
      ghost var full := BackupAll(team, ms, atts, store.messages);
      ghost var trace0 := trace;
      ghost var rest := full;
      backupCount := 0;
      var i := 0;
      while i < |ms|
        invariant 0 <= i <= |ms|
        invariant store.teams == old(store.teams) && store.rooms == old(store.rooms)
        invariant rest == BackupAll(team, ms[i..], atts[i..], store.messages)
        invariant rest.messages == full.messages
        invariant trace + rest.effects == trace0 + full.effects
        invariant backupCount + rest.count == full.count
      {
        ghost var t0 := trace;
        ghost var s := BackupOne(team, ms[i], store.messages, atts[i]);
        BackupAllAt(team, ms, atts, store.messages, i);
        rest := BackupAll(team, ms[i + 1..], atts[i + 1..], s.messages);
        var status := BackupMessage(team, ms[i], atts[i]);
        AppendAssociates(t0, s.effects, rest.effects);
        if status == BackedUp {
          backupCount := backupCount + 1;
        }
        i := i + 1;
      }
    }

    /** One pass of the loop: skip a message already stored, else persist it. */
    method BackupMessage(team: Team, m: HistoryMessage, att: Attempt) returns (status: Status)
      modifies store, this
      ensures store.teams == old(store.teams) && store.rooms == old(store.rooms)
      ensures var s := BackupOne(team, m, old(store.messages), att);
        store.messages == s.messages && trace == old(trace) + s.effects && status == s.status
    {
      if m.messageId in store.messages {
        return AlreadyStored;
      }
      status := PersistRecord(HistoryRecord(team, m), team.discordConfig.webhookUrl, HistoryPayload(m), att);
    }

    /** `backupHistoryMessages`. `history` is the outcome of
        `conversations.history`; `atts[i]` holds the outcomes for the i-th
        message fetched. */
    method BackupHistoryMessages(teamId: Id, history: Result<HistoryReply, string>, atts: seq<Attempt>)
      returns (r: Result<nat, string>)
      requires store.Valid()
      requires history.Success? ==> |atts| >= |ShapeHistory(history.value).messages|
      modifies store, this
      ensures store.Valid()
      ensures store.teams == old(store.teams) && store.rooms == old(store.rooms)
      ensures FindTeam(old(store.teams), teamId).None? ==>
        r == Failure(TeamMissing) && store.messages == old(store.messages) && trace == old(trace)
      ensures FindTeam(old(store.teams), teamId).Some? && history.Failure? ==>
        r == Failure(history.error) && store.messages == old(store.messages) && trace == old(trace)
      ensures FindTeam(old(store.teams), teamId).Some? && history.Success? ==>
        var team := old(store.teams)[FindTeam(old(store.teams), teamId).value];
        var b := BackupAll(team, ShapeHistory(history.value).messages, atts, old(store.messages));
        r == Success(b.count) && store.messages == b.messages && trace == old(trace) + b.effects
    {
      var ti := FindTeam(store.teams, teamId);
      if ti.None? {
        return Failure(TeamMissing);
      }
      if history.Failure? {
        return Failure(history.error);
      }
      var team, ms := store.teams[ti.value], ShapeHistory(history.value).messages;
      var backupCount := BackupMessages(team, ms, atts);
      BackupKeepsKeyed(team, ms, atts, old(store.messages));
      r := Success(backupCount);
    }
  }
}
