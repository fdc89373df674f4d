/** The first, single-channel relay: every Slack message from a channel on
    the target list (or from any channel when the list is empty) is posted
    to the one configured Discord webhook as `**[#channel]** user: text`,
    once per attached file or once when there are none. Nothing is stored. */
module LegacyRelay {
  import opened Wrappers
  import opened Text
  import opened Slack
  import Discord

  /** The handler the relay registers with the Slack service. */
  const RelayHandler: HandlerId := 0

  /** `SLACK_TARGET_CHANNELS.split(',').map(id => id.trim())`. */
  function ParseTargetChannels(config: string): (r: seq<string>)
    ensures |r| == |Split(config, ',')| && |r| >= 1
    ensures forall i :: 0 <= i < |r| ==> r[i] == Trim(Split(config, ',')[i])
    ensures forall i :: 0 <= i < |r| ==> ',' !in r[i]
  {
    var pieces := Split(config, ',');
    seq(|pieces|, i requires 0 <= i < |pieces| => Trim(pieces[i]))
  }

  /** The channel filter: an empty list lets every channel through. */
  function Accepts(targets: seq<string>, channel: Option<string>): (ok: bool)
    ensures |targets| == 0 ==> ok
    ensures |targets| > 0 && channel.None? ==> !ok
    ensures |targets| > 0 && channel.Some? ==> (ok <==> exists i :: 0 <= i < |targets| && targets[i] == channel.value)
  {
    |targets| == 0 || (channel.Some? && channel.value in targets)
  }

  predicate NoDuplicates(t: seq<string>) {
    forall i, j :: 0 <= i < j < |t| ==> t[i] != t[j]
  }

  /** `addTargetChannel`: append unless already listed. */
  function Added(t: seq<string>, id: string): (r: seq<string>)
    ensures id in r
    ensures forall x :: x in r <==> x in t || x == id
    ensures id in t ==> r == t
    ensures id !in t ==> r == t + [id]
  {
    if id in t then t else t + [id]
  }

  /** `removeTargetChannel`: drop every occurrence, keep the rest in order. */
  function Removed(t: seq<string>, id: string): (r: seq<string>)
    ensures id !in r
    ensures forall x :: x in r <==> x in t && x != id
    ensures |r| <= |t|
    ensures id !in t ==> r == t
  {
    if t == [] then []
    else if t[0] == id then Removed(t[1..], id)
    else [t[0]] + Removed(t[1..], id)
  }

  /** Adding never introduces a duplicate, and adding twice is adding once. */
  lemma AddedKeepsDistinct(t: seq<string>, id: string)
    requires NoDuplicates(t)
    ensures NoDuplicates(Added(t, id))
    ensures Added(Added(t, id), id) == Added(t, id)
  {
  }

  /** Removal works piece by piece, so the survivors keep their order. */
  lemma {:induction false} RemovedOfConcat(a: seq<string>, b: seq<string>, id: string)
    ensures Removed(a + b, id) == Removed(a, id) + Removed(b, id)
  {
    if a != [] {
      assert (a + b)[0] == a[0] && (a + b)[1..] == a[1..] + b;
      RemovedOfConcat(a[1..], b, id);
    } else {
      assert a + b == b;
    }
  }

  /** Removing the only channel listed brings back the accept-everything
      filter; adding a first channel narrows it to that channel. */
  lemma {:induction false} RemoveLastAcceptsAll(t: seq<string>, id: string, channel: Option<string>)
    requires forall x :: x in t ==> x == id
    ensures Accepts(Removed(t, id), channel)
  {
    if t != [] {
      assert t[0] in t;
      assert forall x :: x in t[1..] ==> x in t;
      RemoveLastAcceptsAll(t[1..], id, channel);
    }
  }

  lemma AddFirstNarrows(id: string, channel: Option<string>)
    ensures Accepts(Added([], id), channel) <==> channel == Some(id)
  {
  }

  /** The text every relayed post carries. */
  function FormatMessage(channelName: string, username: string, text: Option<string>): (r: string)
    ensures var head := "**[#" + channelName + "]** ";
      |head| <= |r| && r[..|head|] == head
    ensures var tail := username + ": " + Template(text);
      |tail| <= |r| && r[|r| - |tail|..] == tail
  {
    "**[#" + channelName + "]** " + username + ": " + Template(text)
  }

  /** `channelInfo?.name || channel`. */
  function ChannelLabel(name: Option<string>, channel: Option<string>): (r: string)
    ensures Truthy(name) ==> r == name.value
    ensures !Truthy(name) ==> r == Template(channel)
  {
    if Truthy(name) then name.value else Template(channel)
  }

  function HasFiles(ev: SlackEvent): bool {
    ev.files.Some? && |ev.files.value| > 0
  }

  /** One file post per file, in order, each naming the file's private URL. */
  function FilePayloads(text: string, username: string, files: seq<SlackFile>): (r: seq<Discord.WebhookPayload>)
    ensures |r| == |files|
    ensures forall i :: 0 <= i < |r| ==>
      r[i] == Discord.WebhookPayload(Some(Discord.FileContent(text, Template(files[i].urlPrivate))), Some(username), None, None)
  {
    seq(|files|, i requires 0 <= i < |files| =>
      Discord.WebhookPayload(Some(Discord.FileContent(text, Template(files[i].urlPrivate))), Some(username), None, None))
  }

  /** What the relay sends for a message, in order: one file post per file,
      or one plain post when there are none. */
  function Plan(ev: SlackEvent, user: Option<SlackUser>, channelName: Option<string>): (r: seq<Discord.WebhookPayload>)
    ensures HasFiles(ev) ==> |r| == |ev.files.value|
    ensures !HasFiles(ev) ==> |r| == 1
    ensures var text := FormatMessage(ChannelLabel(channelName, ev.channel), DisplayName(user), ev.text);
      && (HasFiles(ev) ==> forall i :: 0 <= i < |r| ==>
            r[i] == Discord.WebhookPayload(Some(Discord.FileContent(text, Template(ev.files.value[i].urlPrivate))),
                                           Some(DisplayName(user)), None, None))
      && (!HasFiles(ev) ==> r == [Discord.WebhookPayload(Some(text), Some(DisplayName(user)), Avatar(user), None)])
  {
    var text := FormatMessage(ChannelLabel(channelName, ev.channel), DisplayName(user), ev.text);
    if HasFiles(ev) then FilePayloads(text, DisplayName(user), ev.files.value)
    else [Discord.WebhookPayload(Some(text), Some(DisplayName(user)), Avatar(user), None)]
  }

  /** How many of `n` sends happen when the first failure ends the loop. */
  function Attempted(n: nat, errors: seq<Option<string>>): (k: nat)
    requires |errors| >= n
    ensures k <= n && (n > 0 ==> k > 0)
    ensures forall j :: 0 <= j < k - 1 ==> errors[j].None?
    ensures k == n ==> forall j :: 0 <= j < n - 1 ==> errors[j].None?
    ensures k < n ==> errors[k - 1].Some?
    decreases n
  {
    if n == 0 then 0
    else if errors[0].Some? then 1
    else 1 + Attempted(n - 1, errors[1..])
  }

  function Posts(url: string, payloads: seq<Discord.WebhookPayload>): (r: seq<Discord.WebhookPost>)
    ensures |r| == |payloads| && forall i :: 0 <= i < |r| ==> r[i] == Discord.WebhookPost(url, payloads[i])
  {
    seq(|payloads|, i requires 0 <= i < |payloads| => Discord.WebhookPost(url, payloads[i]))
  }

  datatype Outcome = Filtered | LookupFailed | SendFailed | Relayed

  class LegacyRelayService {
    var targetChannels: seq<string>
    const slack: SlackService
    const discord: Discord.DiscordService

    constructor(slack: SlackService, discord: Discord.DiscordService)
      ensures targetChannels == [] && this.slack == slack && this.discord == discord
    {
      targetChannels := [];
      this.slack := slack;
      this.discord := discord;
    }

    /** `onModuleInit`: read the target list when it is configured, then
        register the message handler. */
    method OnModuleInit(config: Option<string>)
      modifies this, slack
      ensures targetChannels == if Truthy(config) then ParseTargetChannels(config.value) else old(targetChannels)
      ensures slack.handler == Some(RelayHandler)
    {
      if Truthy(config) {
        targetChannels := ParseTargetChannels(config.value);
      }
      slack.OnMessage(RelayHandler);
    }

    method AddTargetChannel(id: string)
      modifies this
      ensures targetChannels == Added(old(targetChannels), id)
    {
      if id !in targetChannels {
        targetChannels := targetChannels + [id];
      }
    }

    method RemoveTargetChannel(id: string)
      modifies this
      ensures targetChannels == Removed(old(targetChannels), id)
    {
      targetChannels := Removed(targetChannels, id);
    }

    /** A new array each call: writing to it leaves the list alone. */
    method GetTargetChannels() returns (copy: array<string>)
      ensures fresh(copy) && copy[..] == targetChannels
    {
      copy := new string[|targetChannels|](i requires 0 <= i < |targetChannels| reads this => targetChannels[i]);
    }

    /** `handleSlackMessage`: filter, look up the author and the channel,
        then send. `user` and `channel` are the outcomes of `users.info` and
        `conversations.info`; `postErrors[i]` is the failure of the i-th send. */
    method HandleSlackMessage(ev: SlackEvent, user: Result<Option<SlackUser>, string>,
                              channel: Result<Option<string>, string>, postErrors: seq<Option<string>>)
      returns (posts: seq<Discord.WebhookPost>, outcome: Outcome)
      requires |postErrors| >= 1 && (ev.files.Some? ==> |postErrors| >= |ev.files.value|)
      ensures !Accepts(targetChannels, ev.channel) ==> posts == [] && outcome == Filtered
      ensures Accepts(targetChannels, ev.channel) && (user.Failure? || channel.Failure?) ==>
        posts == [] && outcome == LookupFailed
      ensures Accepts(targetChannels, ev.channel) && user.Success? && channel.Success? ==>
        var plan := Plan(ev, user.value, channel.value);
        var k := Attempted(|plan|, postErrors);
        && (outcome == SendFailed <==> discord.webhookUrl != "" && postErrors[k - 1].Some?)
        && (outcome != SendFailed ==> outcome == Relayed)
        && posts == if discord.webhookUrl == "" then [] else Posts(discord.webhookUrl, plan[..k])
    {
      if !Accepts(targetChannels, ev.channel) {
        return [], Filtered;
      }
      if user.Failure? || channel.Failure? {
        return [], LookupFailed;
      }
      var username := DisplayName(user.value);
      var text := FormatMessage(ChannelLabel(channel.value, ev.channel), username, ev.text);
      ghost var plan := Plan(ev, user.value, channel.value);
      if HasFiles(ev) {
        assert plan == FilePayloads(text, username, ev.files.value);
        var failed;
        posts, failed := SendFiles(text, username, ev.files.value, postErrors);
        outcome := if failed then SendFailed else Relayed;
      } else {
        var payload := Discord.WebhookPayload(Some(text), Some(username), Avatar(user.value), None);
        assert plan == [payload];
        assert Attempted(|plan|, postErrors) == 1;
        var post, r := discord.SendMessage(text, Some(username), Avatar(user.value), postErrors[0]);
        assert post.Some? ==> Posts(discord.webhookUrl, plan[..1]) == [post.value];
        posts := if post.Some? then [post.value] else [];
        outcome := if r.Failure? then SendFailed else Relayed;
      }
    }

    /** The per-file loop: one file post per file, in order, until a send
        fails. */
    method SendFiles(text: string, username: string, files: seq<SlackFile>, postErrors: seq<Option<string>>)
      returns (posts: seq<Discord.WebhookPost>, failed: bool)
      requires username != "" && |files| >= 1 && |postErrors| >= |files|
      ensures var k := Attempted(|files|, postErrors);
        && (failed <==> discord.webhookUrl != "" && postErrors[k - 1].Some?)
        && posts == if discord.webhookUrl == "" then [] else Posts(discord.webhookUrl, FilePayloads(text, username, files)[..k])
    {
      ghost var payloads := FilePayloads(text, username, files);
      posts := [];
      var i := 0;
      while i < |files|
        invariant 0 <= i <= |files|
        invariant discord.webhookUrl != "" ==> forall j :: 0 <= j < i ==> postErrors[j].None?
        invariant posts == if discord.webhookUrl == "" then [] else Posts(discord.webhookUrl, payloads[..i])
      {
        var post, r := discord.SendMessageWithFile(text, Template(files[i].urlPrivate), Some(username), postErrors[i]);
        if post.Some? {
          assert post.value == Discord.WebhookPost(discord.webhookUrl, payloads[i]);
          assert Posts(discord.webhookUrl, payloads[..i + 1])
            == Posts(discord.webhookUrl, payloads[..i]) + [Discord.WebhookPost(discord.webhookUrl, payloads[i])];
          posts := posts + [post.value];
        }
        if r.Failure? {
          AttemptedStopsAt(|files|, postErrors, i);
          return posts, true;
        }
        i := i + 1;
      }
      if discord.webhookUrl != "" {
        AttemptedAll(|files|, postErrors);
      }
      failed := false;
    }
  }

  lemma {:induction false} AttemptedStopsAt(n: nat, errors: seq<Option<string>>, i: nat)
    requires i < n <= |errors|
    requires errors[i].Some? && forall j :: 0 <= j < i ==> errors[j].None?
    ensures Attempted(n, errors) == i + 1
  {
    if i > 0 {
      AttemptedStopsAt(n - 1, errors[1..], i - 1);
    }
  }

  lemma {:induction false} AttemptedAll(n: nat, errors: seq<Option<string>>)
    requires n <= |errors| && forall j :: 0 <= j < n ==> errors[j].None?
    ensures Attempted(n, errors) == n
  {
    if n > 0 {
      AttemptedAll(n - 1, errors[1..]);
    }
  }
}
