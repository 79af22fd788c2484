/** The multi-client bridge (`wechat_intercom/app.py`): a WeChat contact of
    gateway session `client` is the platform user `wechat/<client>/<id>`;
    friend messages flow to the platform, agent replies flow back, and the
    configured bot user drives the gateway sessions with chat commands. */
module Bridge {
  import opened Strings
  import opened Effects
  import opened Content
  import opened Intercom
  import opened Events

  // ---------------------------------------------------------------- inputs

  /** The gateway's JSON answer to `start_client` / `stop_client`. */
  datatype ControlResponse = ControlResponse(status: int, code: int, statusText: string)

  /** One entry of the gateway's `check_client` list. */
  datatype ClientState = ClientState(account: string, state: string)

  datatype CheckResponse = CheckResponse(status: int, code: int, clients: seq<ClientState>)

  /** What the gateway and the platform answer while one admin command runs. */
  datatype AdminUpstream = AdminUpstream(
    start: ControlResponse, stop: ControlResponse, check: CheckResponse, replyStatus: int)

  // -------------------------------------------------------------- identity

  const DefaultClient: string := "default"

  /** The gateway session named by the `client` query argument (decoded),
      `default` without one. */
  function ClientName(arg: Option<string>, codec: UrlCodec): (client: string)
    ensures arg.None? ==> client == "default"
    ensures arg.Some? ==> client == codec.unquote(arg.value)
  {
    if arg.Some? then codec.unquote(arg.value) else DefaultClient
  }

  /** `'/'.join(('wechat', client, wechat_id))`: the decoded client name is
      embedded as it is. */
  function Identity(client: string, id: string): (userId: string)
    ensures userId == "wechat/" + client + "/" + id
    ensures StartsWith(userId, "wechat/")
  {
    var parts := ["wechat", client, id];
    assert JoinWith(parts[2..], '/') == id;
    assert JoinWith(parts[1..], '/') == client + "/" + id;
    JoinWith(parts, '/')
  }

  /** How the reply handler reads a user id: a WeChat contact, a user that
      is not a WeChat contact, or an id whose unpacking raises. */
  datatype Decoded = Contact(client: string, id: string) | NotWeChat | Malformed

  /** `user_id.split('/')`; first part `wechat` means a contact, and then
      exactly two more parts must follow. */
  function Decode(userId: string): (d: Decoded)
    ensures d.Contact? ==> '/' !in d.client && '/' !in d.id
    ensures d.Contact? <==> Split(userId, '/')[0] == "wechat" && |Split(userId, '/')| == 3
  {
    var parts := Split(userId, '/');
    if parts[0] != "wechat" then NotWeChat
    else if |parts| != 3 then Malformed
    else Contact(parts[1], parts[2])
  }

  /** The parts of an identity: `wechat`, then the parts of the client, then those of the id. */
  lemma IdentityParts(client: string, id: string)
    ensures Split(Identity(client, id), '/') == ["wechat"] + Split(client, '/') + Split(id, '/')
  {
    var w := "wechat";
    assert Identity(client, id) == w + ['/'] + (client + ['/'] + id);
    SplitHead(w, client + ['/'] + id, '/');
    SplitConcat(client, id, '/');
  }

  /** The reply handler recovers the client and contact that built the id
      exactly when neither contains `/`; otherwise the unpacking raises. */
  lemma DecodeIdentity(client: string, id: string)
    ensures Decode(Identity(client, id)) ==
      if '/' !in client && '/' !in id then Contact(client, id) else Malformed
  {
    IdentityParts(client, id);
    if '/' in client {
      SplitSeveral(client, '/');
    } else if '/' in id {
      SplitSeveral(id, '/');
    } else {
      SplitNoSeparator(client, '/');
      SplitNoSeparator(id, '/');
    }
  }

  /** Decoding is injective: the only id that decodes to a contact is the
      identity built from that contact. */
  lemma DecodeOnlyIdentity(userId: string, client: string, id: string)
    requires Decode(userId) == Contact(client, id)
    ensures userId == Identity(client, id)
  {
    var parts := Split(userId, '/');
    JoinSplit(userId, '/');
    assert parts == ["wechat", client, id];
  }

  /** The ids `wechat` and `wechat/...` split with `wechat` first. */
  lemma WeChatHead(userId: string)
    requires userId == "wechat" || StartsWith(userId, "wechat/")
    ensures Split(userId, '/')[0] == "wechat"
  {
    var w := "wechat";
    if userId == w {
      SplitNoSeparator(w, '/');
    } else {
      assert userId == w + ['/'] + userId[7..];
      SplitHead(w, userId[7..], '/');
    }
  }

  /** An id whose first part is `wechat` is `wechat` or starts with `wechat/`. */
  lemma HeadWeChat(userId: string)
    requires Split(userId, '/')[0] == "wechat"
    ensures userId == "wechat" || StartsWith(userId, "wechat/")
  {
    var parts := Split(userId, '/');
    JoinSplit(userId, '/');
    if |parts| > 1 {
      assert JoinWith(parts, '/') == "wechat" + ['/'] + JoinWith(parts[1..], '/');
    }
  }

  /** An id counts as a WeChat contact (or raises) exactly when it is
      `wechat` or starts with `wechat/`. */
  lemma DecodeWeChatPrefix(userId: string)
    ensures Decode(userId) != NotWeChat <==> userId == "wechat" || StartsWith(userId, "wechat/")
  {
    if Split(userId, '/')[0] == "wechat" {
      HeadWeChat(userId);
    } else if userId == "wechat" || StartsWith(userId, "wechat/") {
      WeChatHead(userId);
    }
  }

  // ---------------------------------------------------------- friend flow

  /** The profile name: the client name, `: `, and the sender's name, when
      the message carries one. */
  function ProfileName(client: string, senderName: Option<string>): (name: Option<string>)
    ensures name.Some? <==> senderName.Some?
    ensures name.Some? ==>
      StartsWith(name.value, client + ": ") && name.value[|client| + 2..] == senderName.value
  {
    if senderName.Some? then Some(client + ": " + senderName.value) else None
  }

  /** The calls `handle_friend_message` makes for client `client`: fetch and
      re-host the avatar, upsert the profile, and, once the platform accepted
      it, re-host an image and deliver the body. */
  function FriendMessageCalls(client: string, m: FriendMessage, codec: UrlCodec, up: FriendUpstream): (t: seq<Call>)
    ensures t == [] <==> !HasSender(m)
  {
    if !HasSender(m) then []
    else
      var id := m.senderId.value;
      var userId := Identity(client, id);
      var upsert := IntercomPost(Api("users"), ProfilePayload(userId, ProfileName(client, m.senderName), AvatarUrl(up)));
      if !Ok(up.upsertStatus) then AvatarCalls(client, id, codec, up) + [upsert]
      else
        AvatarCalls(client, id, codec, up) + [upsert]
        + (if IsMediaImage(m) then [ImageUpload(MediaData(m.mediaData))] else [])
        + Delivery(userId, MessageBody(m, up.mediaUpload), up.replyStatus)
  }

  /** The avatar fetch, and its upload when the gateway served it, both
      addressed with the encoded client name. */
  function AvatarCalls(client: string, id: string, codec: UrlCodec, up: FriendUpstream): (t: seq<Call>)
    ensures 1 <= |t| <= 2 && t[0] == GetAvatar(Some(codec.quote(client)), id)
    ensures |t| == 2 <==> Ok(up.avatarStatus)
    ensures |t| == 2 ==> t[1] == ImageUpload(AvatarStream(Some(codec.quote(client)), id))
    ensures forall k :: 0 <= k < |t| ==> !t[k].IntercomPost?
  {
    [GetAvatar(Some(codec.quote(client)), id)]
      + (if Ok(up.avatarStatus) then [ImageUpload(AvatarStream(Some(codec.quote(client)), id))] else [])
  }

  /** An empty or missing sender id makes no call at all; otherwise the
      avatar is fetched first, with the encoded client name, and the profile
      is upserted whatever became of the avatar. */
  lemma FriendMessageStart(client: string, m: FriendMessage, codec: UrlCodec, up: FriendUpstream)
    ensures !HasSender(m) ==> FriendMessageCalls(client, m, codec, up) == []
    ensures HasSender(m) ==>
      var t := FriendMessageCalls(client, m, codec, up);
      t != [] && t[0] == GetAvatar(Some(codec.quote(client)), m.senderId.value) &&
      IntercomPost(Api("users"), ProfilePayload(Identity(client, m.senderId.value),
        ProfileName(client, m.senderName), AvatarUrl(up))) in t
  {
    if HasSender(m) {
      var id := m.senderId.value;
      var t := FriendMessageCalls(client, m, codec, up);
      var a := AvatarCalls(client, id, codec, up);
      assert t[0] == a[0];
      assert t[|a|] == IntercomPost(Api("users"), ProfilePayload(Identity(client, id),
        ProfileName(client, m.senderName), AvatarUrl(up)));
    }
  }

  /** A refused upsert ends the flow: no delivery of any kind. */
  lemma FriendMessageAborts(client: string, m: FriendMessage, codec: UrlCodec, up: FriendUpstream)
    requires !Ok(up.upsertStatus)
    ensures var t := FriendMessageCalls(client, m, codec, up);
      !PostsTo(t, Api("conversations/last/reply")) && !PostsTo(t, Api("messages"))
  {
    if HasSender(m) {
      var id := m.senderId.value;
      UpsertDeliversNothing(AvatarCalls(client, id, codec, up),
        ProfilePayload(Identity(client, id), ProfileName(client, m.senderName), AvatarUrl(up)));
    }
  }

  /** An accepted upsert ends with the delivery of the body to the contact's identity. */
  lemma FriendMessageDelivers(client: string, m: FriendMessage, codec: UrlCodec, up: FriendUpstream)
    requires HasSender(m) && Ok(up.upsertStatus)
    ensures var t := FriendMessageCalls(client, m, codec, up);
      var d := Delivery(Identity(client, m.senderId.value), MessageBody(m, up.mediaUpload), up.replyStatus);
      |d| <= |t| && t[|t| - |d|..] == d
  {
    var t := FriendMessageCalls(client, m, codec, up);
    var d := Delivery(Identity(client, m.senderId.value), MessageBody(m, up.mediaUpload), up.replyStatus);
    assert t[|t| - |d|..] == d;
  }

  /** `handle_friend_message(ctx)`: the payload dict grows key by key and the
      trace grows call by call, with an early return for a missing sender
      and for a refused upsert. */
  method HandleFriendMessage(client: string, m: FriendMessage, codec: UrlCodec, up: FriendUpstream)
    returns (trace: seq<Call>)
    ensures trace == FriendMessageCalls(client, m, codec, up)
  {
    trace := [];
    var wechatId := m.senderId;
    if wechatId.None? || wechatId.value == "" {
      return;
    }
    var id := wechatId.value;
    var userId := Identity(client, id);
    var encoded := codec.quote(client);

    var avatarUrl: Option<string> := None;
    trace := trace + [GetAvatar(Some(encoded), id)];
    if Ok(up.avatarStatus) {
      trace := trace + [ImageUpload(AvatarStream(Some(encoded), id))];
      avatarUrl := UploadImage(up.avatarUpload);
    }
    assert trace == AvatarCalls(client, id, codec, up) && avatarUrl == AvatarUrl(up);

    var payload := map["user_id" := JStr(userId)];
    if m.senderName.Some? {
      payload := payload["name" := JStr(client + ": " + m.senderName.value)];
    }
    if avatarUrl.Some? && avatarUrl.value != "" {
      payload := payload["avatar" := JObj(map["type" := JStr("avatar"), "image_url" := JStr(avatarUrl.value)])];
    }
    assert JObj(payload) == ProfilePayload(userId, ProfileName(client, m.senderName), avatarUrl);
    trace := trace + [IntercomPost(Api("users"), JObj(payload))];
    if !Ok(up.upsertStatus) {
      return;
    }
    var uploads, body := FriendBody(m, up);
    var sent := ReplyOrInitiate(userId, body, up.replyStatus);
    trace := trace + uploads + sent;
  }

  /** The session name is used consistently: every platform request of the
      friend flow, the profile upsert and the delivery alike, is made on
      behalf of the one identity built from the decoded session name. */
  lemma FriendMessageIdentity(client: string, m: FriendMessage, codec: UrlCodec, up: FriendUpstream)
    requires HasSender(m)
    ensures OnBehalfOf(FriendMessageCalls(client, m, codec, up), Identity(client, m.senderId.value))
  {
    var id := m.senderId.value;
    FriendFlowOnBehalfOf(AvatarCalls(client, id, codec, up), Identity(client, id), ProfileName(client, m.senderName), AvatarUrl(up), m, up);
  }

  /** A failed avatar fetch or upload does not stop the delivery: the reply
      is still posted. */
  lemma AvatarFailureDoesNotBlock(client: string, m: FriendMessage, codec: UrlCodec, up: FriendUpstream)
    requires HasSender(m) && Ok(up.upsertStatus) && !HasUrl(AvatarUrl(up))
    ensures var t := FriendMessageCalls(client, m, codec, up);
      PostsTo(t, Api("conversations/last/reply"))
  {
    FriendMessageDelivers(client, m, codec, up);
    var t := FriendMessageCalls(client, m, codec, up);
    var d := Delivery(Identity(client, m.senderId.value), MessageBody(m, up.mediaUpload), up.replyStatus);
    assert t[|t| - |d|] == d[0];
  }

  /** What follows the upsert: nothing when it was refused, else the
      media upload and the delivery. */
  function AfterUpsert(userId: string, m: FriendMessage, up: FriendUpstream): seq<Call>
  {
    if !Ok(up.upsertStatus) then []
    else
      (if IsMediaImage(m) then [ImageUpload(MediaData(m.mediaData))] else [])
      + Delivery(userId, MessageBody(m, up.mediaUpload), up.replyStatus)
  }

  lemma FriendMessageShape(client: string, m: FriendMessage, codec: UrlCodec, up: FriendUpstream)
    requires HasSender(m)
    ensures var id := m.senderId.value; var userId := Identity(client, id);
      FriendMessageCalls(client, m, codec, up) == AvatarCalls(client, id, codec, up)
        + [IntercomPost(Api("users"), ProfilePayload(userId, ProfileName(client, m.senderName), AvatarUrl(up)))]
        + AfterUpsert(userId, m, up)
  {
  }

  /** What the gateway and the image host answered for the avatar changes
      only the avatar calls and the upsert: the calls after the upsert are
      the same whatever became of the avatar. */
  lemma AvatarOnlyChangesProfile(client: string, m: FriendMessage, codec: UrlCodec, up: FriendUpstream, up': FriendUpstream)
    requires HasSender(m)
    requires up'.upsertStatus == up.upsertStatus && up'.mediaUpload == up.mediaUpload && up'.replyStatus == up.replyStatus
    ensures var n, n' := |AvatarCalls(client, m.senderId.value, codec, up)| + 1, |AvatarCalls(client, m.senderId.value, codec, up')| + 1;
      var t, t' := FriendMessageCalls(client, m, codec, up), FriendMessageCalls(client, m, codec, up');
      n <= |t| && n' <= |t'| && t[n..] == t'[n'..]
  {
    var userId := Identity(client, m.senderId.value);
    FriendMessageShape(client, m, codec, up);
    FriendMessageShape(client, m, codec, up');
    assert AfterUpsert(userId, m, up) == AfterUpsert(userId, m, up');
  }

  // ------------------------------------------------------- admin commands

  const StartVerb: string := "上线"
  const StopVerb: string := "下线"
  const ListVerb: string := "查看"

  /** The session a start or stop command names: its first argument, else `default`. */
  function TargetClient(args: seq<string>): string
  {
    if |args| > 0 then args[0] else DefaultClient
  }

  /** One line of the status listing: the decoded account, `: `, the state. */
  function StatusLine(c: ClientState, codec: UrlCodec): string
  {
    codec.unquote(c.account) + ": " + c.state
  }

  function StatusLines(clients: seq<ClientState>, codec: UrlCodec): (lines: seq<string>)
    ensures |lines| == |clients|
    ensures forall i :: 0 <= i < |clients| ==> lines[i] == StatusLine(clients[i], codec)
  {
    seq(|clients|, i requires 0 <= i < |clients| => StatusLine(clients[i], codec))
  }

  /** The status report: one line per session, `\n`-joined, in the gateway's order. */
  function StatusListing(clients: seq<ClientState>, codec: UrlCodec): string
  {
    JoinWith(StatusLines(clients, codec), '\n')
  }

  /** Reading the report line by line gives back each session's line, in
      order, as long as no account or state holds a line break. */
  lemma StatusListingLines(clients: seq<ClientState>, codec: UrlCodec)
    requires |clients| >= 1
    requires forall i :: 0 <= i < |clients| ==> '\n' !in StatusLine(clients[i], codec)
    ensures Split(StatusListing(clients, codec), '\n') == StatusLines(clients, codec)
  {
    SplitJoin(StatusLines(clients, codec), '\n');
  }

  /** `wechat_client` start failure report: the `%s` is never filled in. */
  const StartFailed: string := "%s 上线失败"

  function AlreadyOnline(client: string): string { client + " 已在线上（有可能正在等待扫码登录）" }
  function StopFailed(client: string): string { client + " 下线失败（可能当前不在线上）" }
  function Stopped(client: string): string { client + " 已下线" }

  /** Every call after the first is made on behalf of `botId`. */
  predicate RepliesOnlyTo(t: seq<Call>, botId: string)
  {
    forall k :: 1 <= k < |t| ==> Sender(t[k]) == Some(botId)
  }

  lemma DeliveryAddressed(pre: Call, botId: string, body: string, status: int)
    ensures RepliesOnlyTo([pre] + Delivery(botId, body, status), botId)
  {
    DeliverySender(botId, body, status);
    var t := [pre] + Delivery(botId, body, status);
    assert forall k :: 1 <= k < |t| ==> t[k] == Delivery(botId, body, status)[k - 1];
  }

  /** An admin command as `cmd, *args = command.split()` reads it. */
  datatype Command = Blank | Start(target: string) | Stop(target: string) | List | Ignored

  /** The first word is the verb, the rest its arguments; start and stop
      name their session by the first argument. */
  function ParseCommand(command: string): (c: Command)
    ensures c == Blank <==> AllSpace(command)
    ensures c.Start? <==> !AllSpace(command) && Words(command)[0] == StartVerb
    ensures c.Stop? <==> !AllSpace(command) && Words(command)[0] == StopVerb
    ensures c == List <==> !AllSpace(command) && Words(command)[0] == ListVerb
    ensures c == Ignored <==> !AllSpace(command) && Words(command)[0] !in {StartVerb, StopVerb, ListVerb}
    ensures (c.Start? || c.Stop?) ==> c.target == TargetClient(Words(command)[1..])
  {
    WordsEmpty(command);
    var words := Words(command);
    if words == [] then Blank
    else if words[0] == StartVerb then Start(TargetClient(words[1..]))
    else if words[0] == StopVerb then Stop(TargetClient(words[1..]))
    else if words[0] == ListVerb then List
    else Ignored
  }

  /** What a parsed admin command does: each verb makes one gateway call
      and may report back to the bot. */
  function CommandOutcome(botId: string, c: Command, codec: UrlCodec, up: AdminUpstream): (o: Outcome)
    ensures (c.Blank? || c.Ignored?) ==> o.trace == []
    ensures c.Start? ==> o.trace != [] && o.trace[0] == StartClient(codec.quote(c.target))
    ensures c.Stop? ==> o.trace != [] && o.trace[0] == StopClient(codec.quote(c.target))
    ensures c.List? ==> o.trace != [] && o.trace[0] == CheckClient
  {
    match c
    case Blank => Outcome([], true)
    case Start(target) =>
      var call := StartClient(codec.quote(target));
      if !Ok(up.start.status) || up.start.code != 0 then
        Outcome([call] + Delivery(botId, StartFailed, up.replyStatus), false)
      else if up.start.statusText == "client already exists" then
        Outcome([call] + Delivery(botId, AlreadyOnline(target), up.replyStatus), false)
      else Outcome([call], false)
    case Stop(target) =>
      var call := StopClient(codec.quote(target));
      if !Ok(up.stop.status) || up.stop.code != 0 then
        Outcome([call] + Delivery(botId, StopFailed(target), up.replyStatus), false)
      else if up.stop.statusText == "success" then
        Outcome([call] + Delivery(botId, Stopped(target), up.replyStatus), false)
      else Outcome([call], false)
    case List =>
      if Ok(up.check.status) && up.check.code == 0 then
        Outcome([CheckClient] + Delivery(botId, StatusListing(up.check.clients, codec), up.replyStatus), false)
      else Outcome([CheckClient], false)
    case Ignored => Outcome([], false)
  }

  /** What `handle_admin_commands(bot_id, command)` does. */
  function AdminOutcome(botId: string, command: string, codec: UrlCodec, up: AdminUpstream): (o: Outcome)
    ensures o.crashed ==> o.trace == []
    ensures o.trace != [] ==> !o.trace[0].IntercomPost? && !o.trace[0].IntercomDelete?
  {
    CommandOutcome(botId, ParseCommand(command), codec, up)
  }

  /** A blank command raises; an unknown verb does nothing. */
  lemma AdminCommandCrash(botId: string, command: string, codec: UrlCodec, up: AdminUpstream)
    ensures AdminOutcome(botId, command, codec, up).crashed <==> AllSpace(command)
    ensures ParseCommand(command) == Ignored ==> AdminOutcome(botId, command, codec, up) == Outcome([], false)
  {
    var c := ParseCommand(command);
    CommandCrashes(botId, c, codec, up);
  }

  lemma CommandCrashes(botId: string, c: Command, codec: UrlCodec, up: AdminUpstream)
    ensures CommandOutcome(botId, c, codec, up).crashed <==> c == Blank
    ensures c == Ignored ==> CommandOutcome(botId, c, codec, up) == Outcome([], false)
  {
    match c
    case Blank =>
    case Start(target) =>
    case Stop(target) =>
    case List =>
    case Ignored =>
  }

  /** Every report a command produces goes to the bot, after the one
      gateway call. */
  lemma AdminRepliesToBot(botId: string, c: Command, codec: UrlCodec, up: AdminUpstream)
    ensures RepliesOnlyTo(CommandOutcome(botId, c, codec, up).trace, botId)
  {
    match c
    case Start(target) =>
      DeliveryAddressed(StartClient(codec.quote(target)), botId, StartFailed, up.replyStatus);
      DeliveryAddressed(StartClient(codec.quote(target)), botId, AlreadyOnline(target), up.replyStatus);
    case Stop(target) =>
      DeliveryAddressed(StopClient(codec.quote(target)), botId, StopFailed(target), up.replyStatus);
      DeliveryAddressed(StopClient(codec.quote(target)), botId, Stopped(target), up.replyStatus);
    case List =>
      DeliveryAddressed(CheckClient, botId, StatusListing(up.check.clients, codec), up.replyStatus);
    case Blank =>
    case Ignored =>
  }

  /** Start and stop address the named session (`default` without an
      argument); the listing is reported exactly when the gateway answered
      ok with code 0. The start and stop reports are `StartReports` and
      `StopReports`. */
  lemma AdminCommandCalls(botId: string, c: Command, codec: UrlCodec, up: AdminUpstream)
    ensures var o := CommandOutcome(botId, c, codec, up);
      && (c.Start? ==> o.trace[0] == StartClient(codec.quote(c.target)))
      && (c.Stop? ==> o.trace[0] == StopClient(codec.quote(c.target)))
      && (c == List ==>
            o.trace[0] == CheckClient &&
            (|o.trace| > 1 <==> Ok(up.check.status) && up.check.code == 0) &&
            (|o.trace| > 1 ==> o.trace[1..] == Delivery(botId, StatusListing(up.check.clients, codec), up.replyStatus)))
  {
  }

  /** A start is reported back exactly when it failed or the session
      already exists: a failure with the unformatted `%s 上线失败`, an
      existing session with its name and a note that it may be waiting
      for its QR code to be scanned. */
  lemma StartReports(botId: string, target: string, codec: UrlCodec, up: AdminUpstream)
    ensures var o := CommandOutcome(botId, Start(target), codec, up);
      && !o.crashed
      && o.trace[0] == StartClient(codec.quote(target))
      && (|o.trace| > 1 <==>
            !Ok(up.start.status) || up.start.code != 0 || up.start.statusText == "client already exists")
      && ((!Ok(up.start.status) || up.start.code != 0) ==>
            o.trace[1..] == Delivery(botId, "%s 上线失败", up.replyStatus))
      && (Ok(up.start.status) && up.start.code == 0 && up.start.statusText == "client already exists" ==>
            o.trace[1..] == Delivery(botId, target + " 已在线上（有可能正在等待扫码登录）", up.replyStatus))
  {
    var call := StartClient(codec.quote(target));
    if !Ok(up.start.status) || up.start.code != 0 {
      assert ([call] + Delivery(botId, StartFailed, up.replyStatus))[1..] == Delivery(botId, StartFailed, up.replyStatus);
    } else if up.start.statusText == "client already exists" {
      assert ([call] + Delivery(botId, AlreadyOnline(target), up.replyStatus))[1..] == Delivery(botId, AlreadyOnline(target), up.replyStatus);
    }
  }

  /** A stop is reported back exactly when it failed or the gateway said
      `success`: a failure names the session and suggests it was not
      online, a success says the session went offline. */
  lemma StopReports(botId: string, target: string, codec: UrlCodec, up: AdminUpstream)
    ensures var o := CommandOutcome(botId, Stop(target), codec, up);
      && !o.crashed
      && o.trace[0] == StopClient(codec.quote(target))
      && (|o.trace| > 1 <==>
            !Ok(up.stop.status) || up.stop.code != 0 || up.stop.statusText == "success")
      && ((!Ok(up.stop.status) || up.stop.code != 0) ==>
            o.trace[1..] == Delivery(botId, target + " 下线失败（可能当前不在线上）", up.replyStatus))
      && (Ok(up.stop.status) && up.stop.code == 0 && up.stop.statusText == "success" ==>
            o.trace[1..] == Delivery(botId, target + " 已下线", up.replyStatus))
  {
    var call := StopClient(codec.quote(target));
    if !Ok(up.stop.status) || up.stop.code != 0 {
      assert ([call] + Delivery(botId, StopFailed(target), up.replyStatus))[1..] == Delivery(botId, StopFailed(target), up.replyStatus);
    } else if up.stop.statusText == "success" {
      assert ([call] + Delivery(botId, Stopped(target), up.replyStatus))[1..] == Delivery(botId, Stopped(target), up.replyStatus);
    }
  }

  /** `handle_admin_commands(bot_id, command)`. */
  method HandleAdminCommands(botId: string, command: string, codec: UrlCodec, up: AdminUpstream)
    returns (o: Outcome)
    ensures o == AdminOutcome(botId, command, codec, up)
  {
    var words := Words(command);
    if words == [] {
      // `cmd, *args = command.split()` raises on a blank command
      WordsEmpty(command);
      return Outcome([], true);
    }
    var cmd, args := words[0], words[1..];
    var trace: seq<Call> := [];
    if cmd == StartVerb || cmd == StopVerb {
      var wechatClient := DefaultClient;
      if |args| > 0 {
        wechatClient := args[0];
      }
      var encoded := codec.quote(wechatClient);
      if cmd == StartVerb {
        trace := [StartClient(encoded)];
        if !Ok(up.start.status) || up.start.code != 0 {
          var sent := ReplyOrInitiate(botId, StartFailed, up.replyStatus);
          trace := trace + sent;
        } else if up.start.statusText == "client already exists" {
          var sent := ReplyOrInitiate(botId, AlreadyOnline(wechatClient), up.replyStatus);
          trace := trace + sent;
        }
      } else {
        trace := [StopClient(encoded)];
        if !Ok(up.stop.status) || up.stop.code != 0 {
          var sent := ReplyOrInitiate(botId, StopFailed(wechatClient), up.replyStatus);
          trace := trace + sent;
        } else if up.stop.statusText == "success" {
          var sent := ReplyOrInitiate(botId, Stopped(wechatClient), up.replyStatus);
          trace := trace + sent;
        }
      }
    } else if cmd == ListVerb {
      trace := [CheckClient];
      if Ok(up.check.status) && up.check.code == 0 {
        var sent := ReplyOrInitiate(botId, StatusListing(up.check.clients, codec), up.replyStatus);
        trace := trace + sent;
      }
    }
    WordsEmpty(command);
    o := Outcome(trace, false);
  }

  // ------------------------------------------------------- agent replies

  /** What `handle_conversation_replied(ctx)` does. */
  function RepliedOutcome(ev: Conversation, botId: Option<string>, codec: UrlCodec, up: AdminUpstream): (o: Outcome)
    // no conversation part, or a `wechat` id of the wrong shape: an exception, no call
    ensures ev.parts == [] || Decode(ev.userId) == Malformed ==> o == Outcome([], true)
    // to a contact: one media send per inline image in document order, then
    // the stripped text, all to the decoded client (encoded) and contact
    ensures ev.parts != [] && Decode(ev.userId).Contact? ==>
      var c, urls := Decode(ev.userId), ImageUrls(ev.parts[0]);
      !o.crashed && |o.trace| == |urls| + 1 &&
      (forall k :: 0 <= k < |urls| ==>
        o.trace[k] == SendFriendMessage(Some(codec.quote(c.client)), c.id, MediaPath(urls[k]))) &&
      o.trace[|urls|] == SendFriendMessage(Some(codec.quote(c.client)), c.id, Text(Strip(RemoveTags(ev.parts[0]))))
    // from the bot: the stripped text is an admin command
    ensures ev.parts != [] && Decode(ev.userId) == NotWeChat && botId == Some(ev.userId) ==>
      o == AdminOutcome(ev.userId, Strip(RemoveTags(ev.parts[0])), codec, up)
    // any other user: nothing
    ensures ev.parts != [] && Decode(ev.userId) == NotWeChat && botId != Some(ev.userId) ==>
      o == Outcome([], false)
  {
    if ev.parts == [] then Outcome([], true)
    else
      var body := ev.parts[0];
      match Decode(ev.userId)
      case Malformed => Outcome([], true)
      case Contact(client, id) =>
        var encoded := Some(codec.quote(client));
        var urls := ImageUrls(body);
        Outcome(MediaSends(encoded, id, urls) + [SendFriendMessage(encoded, id, Text(Strip(RemoveTags(body))))], false)
      case NotWeChat =>
        if botId == Some(ev.userId) then AdminOutcome(ev.userId, Strip(RemoveTags(body)), codec, up)
        else Outcome([], false)
  }

  /** `handle_conversation_replied(ctx)`: the image sends are issued by a loop. */
  method HandleConversationReplied(ev: Conversation, botId: Option<string>, codec: UrlCodec, up: AdminUpstream)
    returns (o: Outcome)
    ensures o == RepliedOutcome(ev, botId, codec, up)
  {
    var userId := ev.userId;
    var userIdParts := Split(userId, '/');
    if ev.parts == [] {
      // `conversation_parts[0]` raises
      return Outcome([], true);
    }
    var message := ev.parts[0];
    var imageUrls := ImageUrls(message);
    if userIdParts[0] == "wechat" {
      if |userIdParts| != 3 {
        // `wechat_client, wechat_id = user_id_parts[1:]` raises
        return Outcome([], true);
      }
      var wechatClient, wechatId := userIdParts[1], userIdParts[2];
      var encoded := codec.quote(wechatClient);
      var trace: seq<Call> := [];
      for i := 0 to |imageUrls|
        invariant |trace| == i
        invariant forall k :: 0 <= k < i ==>
          trace[k] == SendFriendMessage(Some(encoded), wechatId, MediaPath(imageUrls[k]))
      {
        trace := trace + [SendFriendMessage(Some(encoded), wechatId, MediaPath(imageUrls[i]))];
      }
      assert trace == MediaSends(Some(encoded), wechatId, imageUrls);
      trace := trace + [SendFriendMessage(Some(encoded), wechatId, Text(Strip(RemoveTags(message))))];
      o := Outcome(trace, false);
    } else if botId.Some? && userId == botId.value {
      o := HandleAdminCommands(botId.value, Strip(RemoveTags(message)), codec, up);
    } else {
      o := Outcome([], false);
    }
  }

  /** The round trip of the bridge: an agent's answer to the platform user
      a contact's message was filed under reaches that contact through its
      own session, provided neither name contains `/`; otherwise the reply
      handler raises and nothing is sent. */
  lemma ReplyReachesContact(client: string, id: string, agentBody: string,
                            botId: Option<string>, codec: UrlCodec, up: AdminUpstream)
    ensures var ev := Conversation("notification_event", "conversation.admin.replied", Identity(client, id), [agentBody]);
      var o := IntercomRoute(ev, botId, codec, up);
      && ('/' !in client && '/' !in id ==>
            !o.crashed && o.trace != [] &&
            o.trace[|o.trace| - 1] == SendFriendMessage(Some(codec.quote(client)), id, Text(Strip(RemoveTags(agentBody)))))
      && ('/' in client || '/' in id ==> o == Outcome([], true))
  {
    DecodeIdentity(client, id);
  }

  /** `handle_conversation_closed(ctx)`: only WeChat contacts are deleted. */
  function ClosedCalls(userId: string): (t: seq<Call>)
    ensures |t| <= 1
    ensures t != [] <==> StartsWith(userId, "wechat/")
    ensures t != [] ==> t[0] == IntercomDelete(Api("users"), userId)
  {
    if StartsWith(userId, "wechat/") then [IntercomDelete(Api("users"), userId)] else []
  }

  /** The closed-handler's prefix test is narrower than the reply handler's:
      every id it deletes is one the reply handler treats as a contact, and
      every id that decodes to a contact is one it deletes. */
  lemma ClosedMatchesDecode(userId: string)
    ensures ClosedCalls(userId) != [] ==> Decode(userId) != NotWeChat
    ensures Decode(userId).Contact? ==> ClosedCalls(userId) != []
  {
    DecodeWeChatPrefix(userId);
    if Decode(userId).Contact? {
      var c := Decode(userId);
      DecodeOnlyIdentity(userId, c.client, c.id);
    }
  }

  // -------------------------------------------------------------- routing

  /** `intercom_entry` once the signature check has passed. */
  function IntercomRoute(ev: Conversation, botId: Option<string>, codec: UrlCodec, up: AdminUpstream): (o: Outcome)
    ensures o.crashed ==> ev.kind == "notification_event" && ev.topic == "conversation.admin.replied"
    ensures ev.kind != "notification_event" ==> o == Outcome([], false)
    ensures o.trace != [] ==>
      ev.kind == "notification_event" && (ev.topic == "conversation.admin.replied" || ev.topic == "conversation.admin.closed")
  {
    if ev.kind == "notification_event" then
      if ev.topic == "conversation.admin.replied" then RepliedOutcome(ev, botId, codec, up)
      else if ev.topic == "conversation.admin.closed" then Outcome(ClosedCalls(ev.userId), false)
      else Outcome([], false)
    else Outcome([], false)
  }

  /** `intercom_entry()`: the signature gate, then dispatch on type and topic.
      `hexDigest` is the HMAC-SHA1 of the raw body under the webhook secret. */
  method IntercomEntry(signature: Option<string>, hexDigest: string, ev: Conversation,
                       botId: Option<string>, codec: UrlCodec, up: AdminUpstream)
    returns (a: Answer)
    ensures a.status == 401 <==> SignatureMismatch(signature, hexDigest)
    ensures a.status == 401 ==> a.trace == []
    ensures !SignatureMismatch(signature, hexDigest) ==> a == Acknowledge(IntercomRoute(ev, botId, codec, up))
    ensures a.status in {204, 401, 500}
  {
    if signature.Some? {
      if "sha1=" + hexDigest != signature.value {
        return Answer(401, []);
      }
    }
    var o := Outcome([], false);
    if ev.kind == "notification_event" {
      if ev.topic == "conversation.admin.replied" {
        o := HandleConversationReplied(ev, botId, codec, up);
      } else if ev.topic == "conversation.admin.closed" {
        o := Outcome(ClosedCalls(ev.userId), false);
      }
    }
    a := Acknowledge(o);
  }

  function QrCodeNotice(client: string, url: string): string { client + " 登录二维码：" + url }
  function LoginNotice(client: string): string { client + " 登录成功，开始等待客人了～" }

  /** `wechat_entry()`: pick the session from the query argument, then route
      friend messages to the friend flow and, when a bot user is configured,
      QR-code and login events to the bot. */
  method WeChatEntry(clientArg: Option<string>, ev: WeChatEvent, botId: Option<string>,
                     codec: UrlCodec, up: FriendUpstream)
    returns (a: Answer)
    ensures ev.postType == "receive_message" && ev.kind == "friend_message" ==>
      a == Answer(204, FriendMessageCalls(ClientName(clientArg, codec), ev.message, codec, up))
    ensures ev.postType == "event" && botId.Some? && ev.event == "input_qrcode" ==>
      if ev.params == [] then a == Answer(500, [])
      else a == Answer(204, Delivery(botId.value,
        QrCodeNotice(ClientName(clientArg, codec), ev.params[|ev.params| - 1]), up.replyStatus))
    ensures ev.postType == "event" && botId.Some? && ev.event == "login" ==>
      a == Answer(204, Delivery(botId.value, LoginNotice(ClientName(clientArg, codec)), up.replyStatus))
    ensures (!(ev.postType == "receive_message" && ev.kind == "friend_message") &&
             !(ev.postType == "event" && botId.Some? && ev.event in {"input_qrcode", "login"})) ==>
      a == Answer(204, [])
  {
    var wechatClient := DefaultClient;
    if clientArg.Some? {
      wechatClient := codec.unquote(clientArg.value);
    }
    var trace: seq<Call> := [];
    if ev.postType == "receive_message" && ev.kind == "friend_message" {
      trace := HandleFriendMessage(wechatClient, ev.message, codec, up);
    } else if ev.postType == "event" && botId.Some? {
      if ev.event == "input_qrcode" {
        if ev.params == [] {
          // `ctx['params'][-1]` raises
          return Answer(500, []);
        }
        var qrcodeUrl := ev.params[|ev.params| - 1];
        trace := ReplyOrInitiate(botId.value, QrCodeNotice(wechatClient, qrcodeUrl), up.replyStatus);
      } else if ev.event == "login" {
        trace := ReplyOrInitiate(botId.value, LoginNotice(wechatClient), up.replyStatus);
      }
    }
    a := Answer(204, trace);
  }
}
