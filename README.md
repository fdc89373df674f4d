# Slacord relay and team service, modelled in Dafny

Slacord mirrors a Slack channel into Discord. Each team owns one Slack
channel and one Discord channel with a webhook. When a message arrives in the
team's Slack channel, the relay first stores it in MongoDB under its Slack
`ts`. Only then does it post the message to the team's webhook, and after a
successful post it writes the Discord message id back into the stored
record. The history backup does the same for a page of past messages. It
skips messages already stored and counts those it fully backed up.

The team service does four things:
- It creates a team by creating the Slack channel and then the Discord
  channel. Channel names are romanised from Korean and sanitised.
- It issues, redeems and deactivates invite links.
- It removes members, which only the owner may do.
- It deletes teams together with their rooms.

An older single-channel relay forwards messages to one configured webhook
and filters them against a list of target channels.

The model, one module per file:

- `wrappers.dfy`: `Option` and `Result`.
- `text.dfy`: JavaScript truthiness and `||` fallbacks, `substring`,
  `includes`, `trim` with the ECMAScript white-space set, and `split`/`join`
  on one character.
- `romanize.dfy`: the 15-entry Korean-to-English word table and the
  `replace(/k/g, v)` loop (`koreanToRoman`).
- `channel_names.dfy`: the channel-name pipeline shared by Slack and
  Discord. It lowercases, turns each white-space run into `-`, drops
  characters outside `[a-z0-9_-]`, trims dashes, cuts to 80 or 100
  characters, and falls back to `channel`.
- `schema.dfy`: team, room and message documents, and the `Store` class that
  stands for the database. The store's `Valid()` holds the unique indexes of
  the schemas:
  - team ids and names are distinct;
  - room ids, room `(teamId, name)` pairs and room Slack channel ids are
    distinct;
  - messages are keyed by `slackMessageId`.
- `slack.dfy`: the Slack service, which holds one replaceable message
  handler, ignores bot messages, creates channels and shapes history pages.
- `discord.dfy`: the Discord service, covering readiness, the webhook sends,
  channel creation and deletion, archive pages, and `sendWebhookMessage`.
- `hex.dfy`: the hexadecimal rendering of the 32 random bytes of an invite
  token.
- `teams.dfy`: `TeamService` over the store, with pure functions for its
  guard chains (`JoinTeam`, `RemoveMember`, `CreateRoom`, ...).
- `relay.dfy`: `RelayService` over the store. Three specification
  functions describe the new store and, in order, the side effects:
  - `Persist`: save, then forward, then write back;
  - `Handle`: one live event;
  - `BackupAll`: the history loop.

  The service's methods are proved to produce exactly those results.
  `trace` records every insert, webhook post and update, in order.
- `legacy_relay.dfy`: the older relay. It has the target-channel list, the
  message format and the per-file send loop.

Calls to Slack, Discord, axios and MongoDB writes are not executed. Each
becomes a parameter that carries its outcome, a `Result` or an
`Option<string>` failure. The clock and the random token bytes are
parameters too.

## Model

| member | source | states |
|---|---|---|
| Text.Prefix | packages/slacord-nestjs/src/slack/slack.service.ts:168-173 | `substring(0, n)` keeps exactly the first min(len, n) characters |
| Text.Split | src/relay/relay.service.ts:26 | `split(',')` never yields an empty list and no piece contains the separator |
| Text.JoinSplit | src/relay/relay.service.ts:26 | joining the pieces of a split gives back the input: nothing is lost, empty pieces are kept |
| Text.Trim | src/relay/relay.service.ts:26 | `trim()` leaves no white space at either end and is no longer than its input |
| Text.TrimMiddle | src/relay/relay.service.ts:26 | `trim()` returns the middle of its input: everything before it and everything after it is white space, so only the ends are removed |
| Text.TrimNoEnds | src/relay/relay.service.ts:26 | text without white space at either end is its own trim |
| Text.TrimIdempotent | src/relay/relay.service.ts:26 | trimming twice is trimming once |
| Text.TrimStart | packages/slacord-nestjs/src/slack/slack.service.ts:156 | dropping the white space at the front keeps a suffix of the input that starts with a non-space character, and everything dropped is white space |
| Text.LeadingSpace | packages/slacord-nestjs/src/slack/slack.service.ts:156 | counts the white space at the front: that many characters are white space and the next one is not |
| Text.TrailingSpace | src/relay/relay.service.ts:26 | counts the white space at the end: that many characters are white space and the one before is not |
| Romanize.TableOk | packages/slacord-nestjs/src/slack/slack.service.ts:116-132 | the table has 15 entries, each Korean key free of ASCII and each replacement non-empty ASCII |
| Romanize.KoreanToRoman | packages/slacord-nestjs/src/slack/slack.service.ts:115-139 | the replace loop computes `Romanized(text)` and leaves none of the 15 Korean words in the result |
| Romanize.ReplaceAllAvoids | packages/slacord-nestjs/src/slack/slack.service.ts:134-137 | a global replacement whose value shares no character with a word never creates that word, and removes it when it is the key |
| Romanize.ReplaceAllAbsent | packages/slacord-nestjs/src/slack/slack.service.ts:134-137 | replacing a word that does not occur changes nothing |
| Romanize.PrependForeign | packages/slacord-nestjs/src/slack/slack.service.ts:134-137 | prefixing a replacement cannot make a foreign word appear across the seam |
| Romanize.ReplacedPrefix | packages/slacord-nestjs/src/slack/slack.service.ts:134-137 | a prefix disjoint from the replacement survives a replacement unchanged |
| Romanize.AsciiHasNoKey | packages/slacord-nestjs/src/slack/slack.service.ts:116-132 | ASCII text contains no Korean key |
| Romanize.EntriesDisjoint | packages/slacord-nestjs/src/slack/slack.service.ts:116-132 | no replacement shares a character with any key |
| Romanize.RomanizeFromClears | packages/slacord-nestjs/src/slack/slack.service.ts:134-137 | once the earlier keys are gone, the remaining passes remove the rest and reintroduce none |
| Romanize.RomanizeFromFixes | packages/slacord-nestjs/src/slack/slack.service.ts:134-137 | text with no key is left unchanged by any suffix of the passes |
| Romanize.ReplaceAll | packages/slacord-nestjs/src/slack/slack.service.ts:134-137 | a global replacement introduces only characters of the input or of the replacement, and replacing a word by itself changes nothing |
| Romanize.Romanized | packages/slacord-nestjs/src/slack/slack.service.ts:115-139 | after romanisation none of the 15 Korean words occurs |
| Romanize.RomanizeIdempotent | packages/slacord-nestjs/src/slack/slack.service.ts:115-139 | romanising twice is romanising once |
| Romanize.RomanizeAscii | packages/slacord-nestjs/src/slack/slack.service.ts:115-139 | ASCII names pass through unchanged |
| ChannelNames.Lower | packages/slacord-nestjs/src/slack/slack.service.ts:155 | lowercasing keeps the length and maps each character by the ASCII rule |
| ChannelNames.DashSpaces | packages/slacord-nestjs/src/slack/slack.service.ts:156 | after `replace(/\s+/g, '-')` no white space remains and the text is no longer |
| ChannelNames.KeepAllowed | packages/slacord-nestjs/src/slack/slack.service.ts:157 | only `[a-z0-9_-]` characters remain, and a character occurs in the result iff it occurs in the input and is allowed |
| ChannelNames.KeepAllowedAppend | packages/slacord-nestjs/src/slack/slack.service.ts:157 | the filter distributes over concatenation, so the allowed characters are kept in their order |
| ChannelNames.DashSpacesCons | packages/slacord-nestjs/src/slack/slack.service.ts:156 | a character that is not white space is kept as it is, in front of the rest |
| ChannelNames.DashSpacesRun | packages/slacord-nestjs/src/slack/slack.service.ts:156 | a whole run of white space becomes exactly one `-` |
| ChannelNames.DashSpacesPrefix | packages/slacord-nestjs/src/slack/slack.service.ts:156 | text without white space is kept as it is, whatever follows it |
| ChannelNames.LeadingSpaceRun | packages/slacord-nestjs/src/slack/slack.service.ts:156 | the white space in front of a non-space character is exactly the run before it |
| ChannelNames.TrimStartRun | packages/slacord-nestjs/src/slack/slack.service.ts:156 | a run of white space is consumed up to the next other character |
| ChannelNames.DashSpacesRunWord | packages/slacord-nestjs/src/slack/slack.service.ts:156 | white space in front of a clean word becomes one `-` in front of that word |
| ChannelNames.DashSpacesJoin | packages/slacord-nestjs/src/slack/slack.service.ts:156 | two clean words around white space come out joined by one `-` |
| ChannelNames.DropLeadingDashes | packages/slacord-nestjs/src/slack/slack.service.ts:158 | `^-+` removes a prefix made only of dashes and leaves no dash in front |
| ChannelNames.DropTrailingDashes | packages/slacord-nestjs/src/slack/slack.service.ts:158 | `-+$` removes a suffix made only of dashes and leaves no dash at the end |
| ChannelNames.TrimDashesMiddle | packages/slacord-nestjs/src/slack/slack.service.ts:158 | the result of trimming dashes is the middle of the input, with only dashes before and after it |
| ChannelNames.TrimDashesClean | packages/slacord-nestjs/src/slack/slack.service.ts:158 | a clean name has no dashes to trim |
| ChannelNames.CleanedJoinsWords | packages/slacord-nestjs/src/slack/slack.service.ts:154-158 | two clean words separated by white space are cleaned to the words joined by one `-`, as `my team` becomes `my-team` |
| ChannelNames.CleanNameCut | packages/slacord-nestjs/src/slack/slack.service.ts:153-159 | a clean name longer than the limit is only cut |
| ChannelNames.CutKeepsDash | packages/slacord-nestjs/src/slack/slack.service.ts:158-159 | a lower-case word one shorter than the limit, then `-b`, is cut to the word and `-` |
| ChannelNames.TrimDashes | packages/slacord-nestjs/src/slack/slack.service.ts:158 | no `-` at either end, and allowed characters stay allowed |
| ChannelNames.Cleaned | packages/slacord-nestjs/src/slack/slack.service.ts:154-158 | the cleaned name is allowed characters only, with no dash at either end |
| ChannelNames.Sanitize | packages/slacord-nestjs/src/slack/slack.service.ts:153-160 | the result is non-empty, allowed, does not start with `-`, fits the limit, and is `channel` exactly when cleaning leaves nothing, else the cut cleaned name |
| ChannelNames.SlackChannelName | packages/slacord-nestjs/src/slack/slack.service.ts:150-160 | the Slack name is clean, or is exactly 80 long and ends in the `-` the cut exposed |
| ChannelNames.DiscordChannelName | packages/slacord-nestjs/src/discord/discord.service.ts:186-196 | the Discord name is clean, or is exactly 100 long and ends in `-` |
| ChannelNames.SanitizedShape | packages/slacord-nestjs/src/slack/slack.service.ts:153-160 | a sanitised name is clean, or is exactly the limit long, allowed, and ends in `-` |
| ChannelNames.CleanNameUnchanged | packages/slacord-nestjs/src/slack/slack.service.ts:153-160 | a name that is already clean and short enough is left as it is |
| ChannelNames.SlackNameOfCleanName | packages/slacord-nestjs/src/slack/slack.service.ts:150-160 | channel creation keeps an already valid Slack name |
| ChannelNames.TruncationLeavesTrailingDash | packages/slacord-nestjs/src/slack/slack.service.ts:158-159 | dashes are trimmed before the cut, so 79 letters + `-b` become a name ending in `-` |
| ChannelNames.LowerClean | packages/slacord-nestjs/src/slack/slack.service.ts:155 | lowercasing leaves allowed text alone |
| ChannelNames.DashSpacesNoSpace | packages/slacord-nestjs/src/slack/slack.service.ts:156 | text without white space is unchanged by the dash step |
| ChannelNames.KeepAllowedClean | packages/slacord-nestjs/src/slack/slack.service.ts:157 | allowed text is unchanged by the filter |
| ChannelNames.CleanedClean | packages/slacord-nestjs/src/slack/slack.service.ts:154-158 | cleaning a clean name is the identity |
| Slack.Avatar | packages/slacord-nestjs/src/relay/relay.service.ts:68 | the avatar is `profile.image_72` when the user and that field exist, and none otherwise |
| Slack.DisplayName | packages/slacord-nestjs/src/relay/relay.service.ts:67 | the author is `real_name`, else `name`, else `Unknown User`, and is never empty |
| Slack.ShapeMessage | packages/slacord-nestjs/src/slack/slack.service.ts:267-273 | a history entry keeps the ts as id, the text or '', and the author `username`, else `user`, else `Unknown` |
| Slack.ShapeHistory | packages/slacord-nestjs/src/slack/slack.service.ts:267-281 | one entry per message in order, `hasMore` iff `has_more` is true, cursor = last ts, none when empty |
| Slack.SlackService.OnMessage | packages/slacord-nestjs/src/slack/slack.service.ts:59-61 | registering a handler replaces the previous one |
| Slack.SlackService.Dispatch | packages/slacord-nestjs/src/slack/slack.service.ts:38-46 | an event reaches the handler iff it has no `bot_id` and a handler is registered |
| Slack.SlackService.CreateChannel | packages/slacord-nestjs/src/slack/slack.service.ts:147-185 | creates a public channel named `SlackChannelName(name)`, sets the topic (cut to 250) only with a description and a channel id, fails with the first failing call, else returns id or '' and name or the sanitised name |
| Discord.SenderName | packages/slacord-nestjs/src/discord/discord.service.ts:57 | the sender is the username or `Slack Archive Bot`, never empty |
| Discord.FileContent | packages/slacord-nestjs/src/discord/discord.service.ts:83 | the file post is the content, then exactly the blank line and paper-clip label, then the file URL |
| Discord.RemoveFirstHash | packages/slacord-nestjs/src/discord/discord.service.ts:120 | `replace('#', '')` removes one character exactly when there is a `#` |
| Discord.EmbedColorOf | packages/slacord-nestjs/src/discord/discord.service.ts:120 | no colour gives `0x5865f2`; a colour gives the hex text of the colour with its first `#` removed |
| Discord.FirstHash | packages/slacord-nestjs/src/discord/discord.service.ts:120 | the position of the first `#`: it holds `#` and no `#` comes before it |
| Discord.RemoveFirstHashSplit | packages/slacord-nestjs/src/discord/discord.service.ts:120 | `replace('#', '')` removes exactly the first `#` and keeps everything around it |
| Discord.HashColorDigits | packages/slacord-nestjs/src/discord/discord.service.ts:120 | a colour `#` followed by digits without `#` gives exactly those digits |
| Discord.SendWebhookMessage | packages/slacord-nestjs/src/discord/discord.service.ts:324-333 | posts the payload to the URL with `?wait=true` appended and reports the reply's id and channel id, or the failure |
| Discord.AuthorName | packages/slacord-nestjs/src/discord/discord.service.ts:285 | author `username`, else `tag`, else `Unknown` |
| Discord.ShapeArchive | packages/slacord-nestjs/src/discord/discord.service.ts:282-295 | one entry per fetched message in order with its id, content, author and ISO creation time, `hasMore` iff the count equals `limit`, cursor = last id, none when empty |
| Discord.Topic | packages/slacord-nestjs/src/discord/discord.service.ts:202 | a topic exists iff the description is non-empty, and is its first 1024 characters |
| Discord.DiscordService.OnModuleInit | packages/slacord-nestjs/src/discord/discord.service.ts:23-40 | without a token nothing changes; with one a client exists and readiness follows the login |
| Discord.DiscordService.SendMessage | packages/slacord-nestjs/src/discord/discord.service.ts:48-67 | no webhook URL means no post and no error; otherwise one post of content, sender and avatar, failing iff the POST fails, with the POST's own error |
| Discord.DiscordService.SendMessageWithFile | packages/slacord-nestjs/src/discord/discord.service.ts:75-93 | as `SendMessage`, with the file line appended and no avatar |
| Discord.DiscordService.SendEmbed | packages/slacord-nestjs/src/discord/discord.service.ts:102-132 | one embed with title, description, fields, the parsed or default colour and the current time as timestamp; a failed POST is rethrown with its own error |
| Discord.DiscordService.CreateChannel | packages/slacord-nestjs/src/discord/discord.service.ts:169-222 | refused when not ready or without a guild id; else a text channel named `DiscordChannelName(name)` with the cut topic, and a `Slacord Backup` webhook on it only once the channel exists; succeeds iff both calls do, else fails with the failing call's own error |
| Discord.DiscordService.DeleteChannelById | packages/slacord-nestjs/src/discord/discord.service.ts:228-243 | refused when not ready; deletes iff the fetch finds a text channel; a failed fetch or delete is rethrown with its own error |
| Discord.DiscordService.GetMessages | packages/slacord-nestjs/src/discord/discord.service.ts:252-300 | refused when not ready or not a text channel; a failed channel or message fetch is rethrown with its own error; else the shaped page |
| Schema.FindTeam | packages/slacord-nestjs/src/team/team.service.ts:301-304 | `findById` finds the first team with the id, or reports that none has it |
| Hex.Encode | packages/slacord-nestjs/src/team/team.service.ts:307 | two lower-case hex digits per byte |
| Hex.DecodeEncode | packages/slacord-nestjs/src/team/team.service.ts:307 | decoding the token gives back the random bytes |
| Hex.DigitRoundTrip | packages/slacord-nestjs/src/team/team.service.ts:307 | each hex digit reads back as its value |
| Teams.CreateTeamError | packages/slacord-nestjs/src/team/team.service.ts:79-96 | every failure becomes a 400: `name_taken`, then `invalid_name`, then the generic message with the cause |
| Teams.NameRequiredUnreachable | packages/slacord-nestjs/src/team/team.service.ts:85-92 | the `invalid_name_required` message is never produced, because the `invalid_name` test catches it first |
| Teams.NewTeam | packages/slacord-nestjs/src/team/team.service.ts:51-74 | the new team has the owner as its only member, is active, has no link, and carries both channel configs with `Slacord Official` |
| Teams.InsertTeamError | packages/slacord-nestjs/src/team/team.service.ts:76 | the save succeeds iff there is no failure, name clash or id clash, and then the teams stay valid |
| Teams.FreshLink | packages/slacord-nestjs/src/team/team.service.ts:306-318 | the new link has the hex token, is active and unused, and expires `days` × 86400000 ms later |
| Teams.InviteUrl | packages/slacord-nestjs/src/team/team.service.ts:322 | the URL starts with the invite base and ends with the token, and is exactly as long as both |
| Teams.FindByToken | packages/slacord-nestjs/src/team/team.service.ts:337 | the first team whose link carries the token, or none |
| Teams.JoinTeam | packages/slacord-nestjs/src/team/team.service.ts:343-369 | the guards in order, each with its own message (inactive, expired, exhausted, already a member); success iff all pass, appending a member and counting one use |
| Teams.JoinPreservesWellFormed | packages/slacord-nestjs/src/team/team.service.ts:356-369 | a join keeps member ids distinct and the owner listed |
| Teams.JoinOnce | packages/slacord-nestjs/src/team/team.service.ts:356-359 | a user who joined is refused the second time |
| Teams.Deactivate | packages/slacord-nestjs/src/team/team.service.ts:391-395 | only the link's `isActive` changes |
| Teams.DeactivateIdempotent | packages/slacord-nestjs/src/team/team.service.ts:343-345 | deactivating twice is once, and a deactivated link admits nobody |
| Teams.FreshLinkAdmits | packages/slacord-nestjs/src/team/team.service.ts:307-369 | a fresh link admits a non-member before it expires |
| Teams.WithoutUser | packages/slacord-nestjs/src/team/team.service.ts:445 | the filter keeps exactly the other users' entries |
| Teams.WithoutUserAppend | packages/slacord-nestjs/src/team/team.service.ts:445 | the filter keeps order |
| Teams.WithoutAbsentUser | packages/slacord-nestjs/src/team/team.service.ts:445 | removing an absent user changes nothing |
| Teams.WithoutUserDistinct | packages/slacord-nestjs/src/team/team.service.ts:445 | the filter keeps member ids distinct |
| Teams.RemoveMember | packages/slacord-nestjs/src/team/team.service.ts:435-445 | only the owner may remove, never themselves; success filters the user out |
| Teams.RemoveMemberKeepsOwner | packages/slacord-nestjs/src/team/team.service.ts:435-445 | after a removal the user is gone, the owner stays and the team stays well formed |
| Teams.RoomsOutside | packages/slacord-nestjs/src/team/team.service.ts:156 | `deleteMany({ teamId })` keeps exactly the other teams' rooms |
| Teams.RoomsOutsideValid | packages/slacord-nestjs/src/team/team.service.ts:156 | deleting a team's rooms keeps the room indexes satisfied |
| Teams.RemoveTeamValid | packages/slacord-nestjs/src/team/team.service.ts:159 | deleting a team keeps team ids and names distinct |
| Teams.CreateRoom | packages/slacord-nestjs/src/team/team.service.ts:174-190 | any failure, the unknown team included, is the same 400; success appends the room and keeps the indexes |
| Teams.TeamService.CreateTeam | packages/slacord-nestjs/src/team/team.service.ts:34-97 | Slack first, then Discord, then the save; the failing step's own message (a Slack or Discord error, the save's error, or the duplicate-key error of a clashing name or id) goes through `CreateTeamError` into a 400 that leaves the teams alone; success iff every step succeeds and nothing clashes, and then `NewTeam` is appended |
| Teams.TeamService.DeleteTeam | packages/slacord-nestjs/src/team/team.service.ts:153-169 | the team's rooms are deleted even when the team is then not found; the team is removed and messages stay |
| Teams.TeamService.CreateRoomFor | packages/slacord-nestjs/src/team/team.service.ts:174-190 | succeeds iff `CreateRoom` does, appending the room |
| Teams.TeamService.GenerateInviteLink | packages/slacord-nestjs/src/team/team.service.ts:295-330 | unknown team is a 404; a failed save is a 500 carrying the save's error and changes nothing; else the link is replaced by `FreshLink`, and the 64-character token and its URL are returned |
| Teams.TeamService.JoinTeamByInvite | packages/slacord-nestjs/src/team/team.service.ts:335-379 | unknown token is a 400; else `JoinTeam`'s refusal, or a 500 when the save fails; success iff the join is allowed and the save succeeds, and then the joined team is stored; a failure changes nothing |
| Teams.TeamService.DeactivateInviteLink | packages/slacord-nestjs/src/team/team.service.ts:384-400 | unknown team is a 404; a team without a link is left alone and succeeds; else success iff the save succeeds, storing the deactivated link, and a failed save is a 500 that changes nothing |
| Teams.TeamService.RemoveTeamMember | packages/slacord-nestjs/src/team/team.service.ts:426-453 | unknown team is a 404; else `RemoveMember`'s refusal, or a 500 when the save fails; success iff the removal is allowed and the save succeeds, and then the reduced team is stored |
| Relay.MessageTypeOf | packages/slacord-nestjs/src/relay/relay.service.ts:89 | `thread_reply` iff `thread_ts` is set, else `file_share` iff files are non-empty, else `message` |
| Relay.AttachmentsOf | packages/slacord-nestjs/src/relay/relay.service.ts:71-77 | one attachment per file in order, with name, private URL, type and size; none without files |
| Relay.TeamForChannel | packages/slacord-nestjs/src/relay/relay.service.ts:58 | the first team whose Slack channel is the event's, or none |
| Relay.EventRecord | packages/slacord-nestjs/src/relay/relay.service.ts:80-95 | the record is keyed by the event's ts, belongs to the team, and has no Discord id or backup time yet |
| Relay.HistoryRecord | packages/slacord-nestjs/src/relay/relay.service.ts:166-179 | a history record has user id '', type `message`, no attachments, and no Discord id yet |
| Relay.EventPayload | packages/slacord-nestjs/src/relay/relay.service.ts:104-113 | the webhook post carries the record's content, author and avatar, and one embed per attachment with its file name as title and its URL |
| Relay.HistoryPayload | packages/slacord-nestjs/src/relay/relay.service.ts:184-191 | the history post carries only the message's content and author |
| Relay.Persist | packages/slacord-nestjs/src/relay/relay.service.ts:97-130 | a duplicate or failed save stores and sends nothing; otherwise insert, then post to `url?wait=true`; a failed post or write-back leaves the record without Discord id; success records the id and time |
| Relay.PersistFacts | packages/slacord-nestjs/src/relay/relay.service.ts:97-130 | a persist loses no record, adds only its own, forwards only after inserting, keeps the store keyed, and backs up one new record exactly on success |
| Relay.Handle | packages/slacord-nestjs/src/relay/relay.service.ts:40-134 | events missing ts, channel or text, or from no team's channel, or whose author lookup fails change nothing; anything sent was new and is stored |
| Relay.HandleStoresEvent | packages/slacord-nestjs/src/relay/relay.service.ts:66-119 | a new event is stored with its type, attachments, author and team, posted to the team's webhook, and carries the Discord id iff post and write-back succeed |
| Relay.BackupAll | packages/slacord-nestjs/src/relay/relay.service.ts:155-204 | the count never exceeds the number of messages fetched |
| Relay.BackupOne | packages/slacord-nestjs/src/relay/relay.service.ts:158-198 | a message is skipped iff it is already stored, and then nothing changes; it counts as backed up iff it is new and the save, post and write-back all succeed |
| Relay.BackupOneFacts | packages/slacord-nestjs/src/relay/relay.service.ts:158-195 | a stored message is skipped with no effect; a new one is persisted with `PersistFacts`' guarantees |
| Relay.BackupKeeps | packages/slacord-nestjs/src/relay/relay.service.ts:155-204 | the backup never loses or alters a stored record |
| Relay.BackupStoresOnlyFetched | packages/slacord-nestjs/src/relay/relay.service.ts:155-204 | the backup stores nothing but fetched messages |
| Relay.BackupKeepsKeyed | packages/slacord-nestjs/src/relay/relay.service.ts:155-204 | the backup keeps messages keyed by ts |
| Relay.BackupForwardsOnlyNew | packages/slacord-nestjs/src/relay/relay.service.ts:158-163 | no message stored before the backup is forwarded again |
| Relay.BackupPersistsBeforeForwarding | packages/slacord-nestjs/src/relay/relay.service.ts:181-191 | every forward follows the insert of the same message |
| Relay.NewlyBackedUpSplit | packages/slacord-nestjs/src/relay/relay.service.ts:193-197 | records newly backed up over two runs are those of each run, never counted twice |
| Relay.BackupCountIsNewlyBackedUp | packages/slacord-nestjs/src/relay/relay.service.ts:152-208 | `backupCount` equals the number of records the run both created and forwarded |
| Relay.BackupStoresEveryNewMessage | packages/slacord-nestjs/src/relay/relay.service.ts:152-204 | when every save, post and write-back succeeds, each new fetched message is stored with its Discord id and counted |
| Relay.Validated | packages/slacord-nestjs/src/schema/message.schema.ts:41-42 | a save whose record leaves a required field empty is refused with a validation error; any other save keeps its outcome |
| Relay.BackupWithoutSaves | packages/slacord-nestjs/src/relay/relay.service.ts:166-181 | when every first save fails, the backup stores nothing, sends nothing and counts 0 |
| Relay.HistoryBackupAsWritten | packages/slacord-nestjs/src/relay/relay.service.ts:166-181 | with the required-field check in place, the history backup as written stores nothing, forwards nothing and counts 0 |
| Relay.RelayService.OnModuleInit | packages/slacord-nestjs/src/relay/relay.service.ts:26-33 | the relay becomes the Slack service's message handler |
| Relay.RelayService.PersistRecord | packages/slacord-nestjs/src/relay/relay.service.ts:97-130 | the store and trace change as `Persist` says |
| Relay.RelayService.HandleSlackMessage | packages/slacord-nestjs/src/relay/relay.service.ts:40-134 | the store and trace change as `Handle` says, and the store stays valid |
| Relay.RelayService.BackupMessage | packages/slacord-nestjs/src/relay/relay.service.ts:158-195 | one loop pass: skip a stored message, else persist it |
| Relay.RelayService.BackupMessages | packages/slacord-nestjs/src/relay/relay.service.ts:152-204 | the loop leaves the store, trace and count that `BackupAll` describes |
| Relay.RelayService.BackupHistoryMessages | packages/slacord-nestjs/src/relay/relay.service.ts:141-213 | an unknown team fails with `Team을 찾을 수 없습니다.` and a failed history fetch fails, both before any work; else the `BackupAll` result |
| LegacyRelay.ParseTargetChannels | src/relay/relay.service.ts:24-26 | one trimmed entry per comma-separated piece, empty ones kept, none containing a comma |
| LegacyRelay.Added | src/relay/relay.service.ts:87-92 | appends the id only when absent |
| LegacyRelay.Removed | src/relay/relay.service.ts:97-100 | removes every occurrence and keeps every other id |
| LegacyRelay.AddedKeepsDistinct | src/relay/relay.service.ts:87-92 | adding never creates a duplicate, and adding twice is adding once |
| LegacyRelay.RemovedOfConcat | src/relay/relay.service.ts:98 | removal keeps the others in order |
| LegacyRelay.RemoveLastAcceptsAll | src/relay/relay.service.ts:97-100 | removing the only listed channel makes the filter accept every channel |
| LegacyRelay.AddFirstNarrows | src/relay/relay.service.ts:87-92 | adding to an empty list narrows the filter to that channel |
| LegacyRelay.Accepts | src/relay/relay.service.ts:48 | an empty target list accepts every message; otherwise a message is accepted iff it has a channel and that channel is listed |
| LegacyRelay.FormatMessage | src/relay/relay.service.ts:65 | the relayed text starts with `**[#channel]** ` and ends with the author, `: ` and the message text |
| LegacyRelay.ChannelLabel | src/relay/relay.service.ts:60 | the channel's name, else its id |
| LegacyRelay.FilePayloads | src/relay/relay.service.ts:68-72 | one file post per file, in order, each with the formatted text, the file's private URL and the author |
| LegacyRelay.Plan | src/relay/relay.service.ts:54-76 | one file post per file with the formatted text and file URL, or one plain post with the avatar |
| LegacyRelay.Attempted | src/relay/relay.service.ts:68-76 | sends stop right after the first failure; all happen when none fails |
| LegacyRelay.Posts | src/relay/relay.service.ts:68-76 | every payload is posted to the one configured webhook, in order |
| LegacyRelay.AttemptedStopsAt | src/relay/relay.service.ts:68-81 | when send i is the first to fail, exactly i + 1 sends are made |
| LegacyRelay.AttemptedAll | src/relay/relay.service.ts:68-76 | when no send fails, every planned send is made |
| LegacyRelay.LegacyRelayService.OnModuleInit | src/relay/relay.service.ts:22-38 | a configured list replaces the targets, an unset one keeps them; the relay becomes the message handler |
| LegacyRelay.LegacyRelayService.AddTargetChannel | src/relay/relay.service.ts:87-92 | the list becomes `Added` |
| LegacyRelay.LegacyRelayService.RemoveTargetChannel | src/relay/relay.service.ts:97-100 | the list becomes `Removed` |
| LegacyRelay.LegacyRelayService.GetTargetChannels | src/relay/relay.service.ts:105-107 | a fresh array holding the list |
| LegacyRelay.LegacyRelayService.HandleSlackMessage | src/relay/relay.service.ts:43-82 | filtered or failed lookups send nothing; else the planned posts up to and including the first failure, none without a webhook URL |
| LegacyRelay.LegacyRelayService.SendFiles | src/relay/relay.service.ts:68-72 | the per-file loop sends the file posts in order and stops at the first failure |

## Left out

- Date handling. `sentAt` keeps the Slack `ts` text and is not converted by `parseFloat(ts) * 1000`. History records take `sentAt` from the shaped page's `timestamp`, which the page derives from the same `ts`; the model therefore uses the message id, which is that `ts`.
- Text.Prefix, Discord.Topic, Slack.SlackService.CreateChannel: lengths count Unicode scalar values, while `substring(0, 250)` and `substring(0, 1024)` count UTF-16 code units. A description with characters outside the Basic Multilingual Plane, such as emoji, keeps a longer topic here, and the source's cut can split a surrogate pair, which a Dafny `char` cannot hold.
- Discord.DiscordService.SendEmbed: the clock is a parameter holding the ISO text that `new Date().toISOString()` would give.
- Teams.FreshLink: `setDate` calendar arithmetic is modelled as `now + days * 86400000` ms, which ignores daylight-saving changes.
- ChannelNames.Lower: `toLowerCase` is ASCII only. A few non-ASCII letters that JavaScript lowercases to ASCII, such as the Kelvin sign, are not lowercased here.
- Discord.EmbedColorOf: the hex text is kept as text and is not evaluated by `parseInt(…, 16)`.
- Relay.EventPayload: the embed description `파일 크기: … KB` is left out, because it is floating-point `toFixed(2)` formatting.
- Object-id validation: ids are plain strings. A malformed id behaves as an unknown one.
- Mongoose validators other than `required`. Every save is an abstract success or failure outcome; `Relay.Validated` adds the `required` check, and the finding below shows what it does to the history backup.
- The duplicate-key error: only its presence matters. A duplicate `slackMessageId` is detected against the store's keys.
- Reads and `deleteMany`/`findByIdAndDelete`: they are assumed to succeed. Only saves and vendor calls can fail.
- Read-only queries: `getAllTeams`, `getTeamById`, `updateTeam`, `getRoomsByTeam` and the other room getters, `getTeamMembers`, and `incrementMessageCount`. They pass through to the database.
- `message.service.ts`: only database queries, including the `$text` search.
- Slack `deleteChannel`, `postMessage` and `sendMessage`, and `handleUrlVerification`: thin wrappers around single API calls.
- The Discord guild fetch and the cast to a text channel: these are folded into the creation outcome.
- The Slack channel left behind when Discord creation fails: the model only records that `createTeam` fails.
- Relay.RelayService.BackupHistoryMessages: the `limit` argument is only passed to Slack, and the fetched page is a parameter.
- Controller-level issues: `req.user._id` against the strategy's `userId`, and `expiresInDays` arriving as a string. The services are modelled with a real user id and an integer day count.
- The legacy `src/slack/slack.service.ts` and `src/discord/discord.service.ts` duplicate the newer services. The legacy relay is modelled against the newer ones.
- Logging, the Slack socket-mode start, the Discord login itself (its result is a parameter), and framework wiring.
- Concurrency: each handler runs to completion before the next one starts.

## Findings

| source | as written | input that shows it | evidently intended | confidence | as-written member | corrected member |
|---|---|---|---|---|---|---|
| packages/slacord-nestjs/src/relay/relay.service.ts:166-181 | the history record is saved with `slackUserId: ''`, a field the message schema declares `required` (message.schema.ts:41-42), and Mongoose refuses an empty required string | any page with one message not yet stored | each new history message is stored, forwarded and counted | not executed | Relay.HistoryBackupAsWritten | Relay.BackupStoresEveryNewMessage |
