/** The single-session bridge (`app.py`): a WeChat contact is the platform
    user whose id is the WeChat id itself, the gateway is addressed without
    a session name, and there are no admin commands. */
module Legacy {
  import opened Strings
  import opened Effects
  import opened Content
  import opened Intercom
  import opened Events

  // ---------------------------------------------------------- friend flow

  /** The avatar fetch, and its upload when the gateway served it. */
  function AvatarCalls(id: string, up: FriendUpstream): (t: seq<Call>)
    ensures 1 <= |t| <= 2 && t[0] == GetAvatar(None, id)
    ensures |t| == 2 <==> Ok(up.avatarStatus)
    ensures |t| == 2 ==> t[1] == ImageUpload(AvatarStream(None, id))
    ensures forall k :: 0 <= k < |t| ==> !t[k].IntercomPost?
  {
    [GetAvatar(None, id)] + (if Ok(up.avatarStatus) then [ImageUpload(AvatarStream(None, id))] else [])
  }

  /** The calls `handle_friend_message` makes: the WeChat id is the platform
      user id and the sender's name is the profile name as it is. */
  function FriendMessageCalls(m: FriendMessage, up: FriendUpstream): (t: seq<Call>)
    ensures t == [] <==> !HasSender(m)
  {
    if !HasSender(m) then []
    else
      var id := m.senderId.value;
      var upsert := IntercomPost(Api("users"), ProfilePayload(id, m.senderName, AvatarUrl(up)));
      if !Ok(up.upsertStatus) then AvatarCalls(id, up) + [upsert]
      else
        AvatarCalls(id, up) + [upsert]
        + (if IsMediaImage(m) then [ImageUpload(MediaData(m.mediaData))] else [])
        + Delivery(id, MessageBody(m, up.mediaUpload), up.replyStatus)
  }

  /** An empty or missing sender id makes no call at all; otherwise the
      avatar is fetched first and the profile, keyed by the WeChat id, is
      upserted whatever became of the avatar. */
  lemma FriendMessageStart(m: FriendMessage, up: FriendUpstream)
    ensures !HasSender(m) ==> FriendMessageCalls(m, up) == []
    ensures HasSender(m) ==>
      var t := FriendMessageCalls(m, up);
      t != [] && t[0] == GetAvatar(None, m.senderId.value) &&
      IntercomPost(Api("users"), ProfilePayload(m.senderId.value, m.senderName, AvatarUrl(up))) in t
  {
    if HasSender(m) {
      var id := m.senderId.value;
      var t := FriendMessageCalls(m, up);
      var a := AvatarCalls(id, up);
      assert t[0] == a[0];
      assert t[|a|] == IntercomPost(Api("users"), ProfilePayload(id, m.senderName, AvatarUrl(up)));
    }
  }

  /** A refused upsert ends the flow: no delivery of any kind. */
  lemma FriendMessageAborts(m: FriendMessage, up: FriendUpstream)
    requires !Ok(up.upsertStatus)
    ensures var t := FriendMessageCalls(m, up);
      !PostsTo(t, Api("conversations/last/reply")) && !PostsTo(t, Api("messages"))
  {
    if HasSender(m) {
      var id := m.senderId.value;
      UpsertDeliversNothing(AvatarCalls(id, up), ProfilePayload(id, m.senderName, AvatarUrl(up)));
    }
  }

  /** An accepted upsert ends with the delivery of the body on the sender's behalf. */
  lemma FriendMessageDelivers(m: FriendMessage, up: FriendUpstream)
    requires HasSender(m) && Ok(up.upsertStatus)
    ensures var t := FriendMessageCalls(m, up);
      var d := Delivery(m.senderId.value, MessageBody(m, up.mediaUpload), up.replyStatus);
      |d| <= |t| && t[|t| - |d|..] == d
  {
    var t := FriendMessageCalls(m, up);
    var d := Delivery(m.senderId.value, MessageBody(m, up.mediaUpload), up.replyStatus);
    assert t[|t| - |d|..] == d;
  }

  /** `handle_friend_message(ctx)`, step by step. */
  method HandleFriendMessage(m: FriendMessage, up: FriendUpstream) returns (trace: seq<Call>)
    ensures trace == FriendMessageCalls(m, up)
  {
    trace := [];
    var userId := m.senderId;
    if userId.None? || userId.value == "" {
      return;
    }
    // the source tests `user_id` a second time here; it always holds
    var id := userId.value;
    var avatarUrl: Option<string> := None;
    trace := trace + [GetAvatar(None, id)];
    if Ok(up.avatarStatus) {
      trace := trace + [ImageUpload(AvatarStream(None, id))];
      avatarUrl := UploadImage(up.avatarUpload);
    }
    assert trace == AvatarCalls(id, up) && avatarUrl == AvatarUrl(up);

    var payload := map["user_id" := JStr(id)];
    if m.senderName.Some? {
      payload := payload["name" := JStr(m.senderName.value)];
    }
    if avatarUrl.Some? && avatarUrl.value != "" {
      payload := payload["avatar" := JObj(map["type" := JStr("avatar"), "image_url" := JStr(avatarUrl.value)])];
    }
    assert JObj(payload) == ProfilePayload(id, m.senderName, avatarUrl);
    trace := trace + [IntercomPost(Api("users"), JObj(payload))];
    if !Ok(up.upsertStatus) {
      return;
    }
    var uploads, body := FriendBody(m, up);
    var sent := ReplyOrInitiate(id, body, up.replyStatus);
    trace := trace + uploads + sent;
  }

  // ------------------------------------------------------- agent replies

  /** What `handle_conversation_replied(ctx)` does: every reply goes back to
      the WeChat id that is the platform user id, whoever the user is. */
  function RepliedOutcome(ev: Conversation): (o: Outcome)
    // no conversation part: `conversation_parts[0]` raises before any call
    ensures o.crashed <==> ev.parts == []
    ensures o.crashed ==> o.trace == []
    // one media send per inline image, in document order, then the stripped text
    ensures ev.parts != [] ==>
      var urls := ImageUrls(ev.parts[0]);
      |o.trace| == |urls| + 1 &&
      (forall k :: 0 <= k < |urls| ==> o.trace[k] == SendFriendMessage(None, ev.userId, MediaPath(urls[k]))) &&
      o.trace[|urls|] == SendFriendMessage(None, ev.userId, Text(Strip(RemoveTags(ev.parts[0]))))
  {
    if ev.parts == [] then Outcome([], true)
    else
      var body := ev.parts[0];
      Outcome(MediaSends(None, ev.userId, ImageUrls(body)) + [SendFriendMessage(None, ev.userId, Text(Strip(RemoveTags(body))))], false)
  }

  /** `handle_conversation_replied(ctx)`: the image sends are issued by a loop. */
  method HandleConversationReplied(ev: Conversation) returns (o: Outcome)
    ensures o == RepliedOutcome(ev)
  {
    var userId := ev.userId;
    if ev.parts == [] {
      // `conversation_parts[0]` raises
      return Outcome([], true);
    }
    var message := ev.parts[0];
    var imageUrls := ImageUrls(message);
    var trace: seq<Call> := [];
    for i := 0 to |imageUrls|
      invariant |trace| == i
      invariant forall k :: 0 <= k < i ==> trace[k] == SendFriendMessage(None, userId, MediaPath(imageUrls[k]))
    {
      trace := trace + [SendFriendMessage(None, userId, MediaPath(imageUrls[i]))];
    }
    assert trace == MediaSends(None, userId, imageUrls);
    trace := trace + [SendFriendMessage(None, userId, Text(Strip(RemoveTags(message))))];
    o := Outcome(trace, false);
  }

  /** Every platform request of the friend flow, the profile upsert and the
      delivery alike, is made on behalf of the raw WeChat id. */
  lemma FriendMessageIdentity(m: FriendMessage, up: FriendUpstream)
    requires HasSender(m)
    ensures OnBehalfOf(FriendMessageCalls(m, up), m.senderId.value)
  {
    var id := m.senderId.value;
    FriendFlowOnBehalfOf(AvatarCalls(id, up), id, m.senderName, AvatarUrl(up), m, up);
  }

  /** Every send of an agent's answer goes to the platform user's id taken
      as a WeChat id, so an answer to the user a contact's message was filed
      under reaches that contact. */
  lemma ReplyReachesSender(ev: Conversation)
    ensures forall k :: 0 <= k < |RepliedOutcome(ev).trace| ==>
      RepliedOutcome(ev).trace[k].SendFriendMessage? && RepliedOutcome(ev).trace[k].id == ev.userId
  {
    var o := RepliedOutcome(ev);
    if ev.parts != [] {
      var urls := ImageUrls(ev.parts[0]);
      assert |o.trace| == |urls| + 1;
      forall k | 0 <= k < |o.trace|
        ensures o.trace[k].SendFriendMessage? && o.trace[k].id == ev.userId
      {
        if k < |urls| {
          assert o.trace[k] == SendFriendMessage(None, ev.userId, MediaPath(urls[k]));
        } else {
          assert o.trace[k] == SendFriendMessage(None, ev.userId, Text(Strip(RemoveTags(ev.parts[0]))));
        }
      }
    }
  }

  /** `handle_conversation_closed(ctx)`: the user is deleted, whoever it is. */
  function ClosedCalls(userId: string): (t: seq<Call>)
    ensures |t| == 1 && t[0].IntercomDelete? && t[0].userId == userId
    ensures t[0].url == ApiBase + "users"
  {
    [IntercomDelete(Api("users"), userId)]
  }

  // -------------------------------------------------------------- routing

  /** `intercom_entry` once the signature check has passed. */
  function IntercomRoute(ev: Conversation): (o: Outcome)
    ensures o.crashed ==> ev.kind == "notification_event" && ev.topic == "conversation.admin.replied"
    ensures ev.kind != "notification_event" ==> o == Outcome([], false)
    ensures o.trace != [] ==>
      ev.kind == "notification_event" && (ev.topic == "conversation.admin.replied" || ev.topic == "conversation.admin.closed")
  {
    if ev.kind == "notification_event" then
      if ev.topic == "conversation.admin.replied" then RepliedOutcome(ev)
      else if ev.topic == "conversation.admin.closed" then Outcome(ClosedCalls(ev.userId), false)
      else Outcome([], false)
    else Outcome([], false)
  }

  /** `intercom_entry()`: the same signature gate as the multi-session
      bridge, then dispatch on type and topic. */
  method IntercomEntry(signature: Option<string>, hexDigest: string, ev: Conversation) returns (a: Answer)
    ensures a.status == 401 <==> SignatureMismatch(signature, hexDigest)
    ensures a.status == 401 ==> a.trace == []
    ensures !SignatureMismatch(signature, hexDigest) ==> a == Acknowledge(IntercomRoute(ev))
    ensures a.status in {204, 401, 500}
  {
    if signature.Some? {
      if "sha1=" + hexDigest != signature.value {
        return Answer(401, []);
      }
    }
    var o := Outcome([], false);
    if ev.kind == "notification_event" {
      if ev.topic == "conversation.admin.replied" {
        o := HandleConversationReplied(ev);
      } else if ev.topic == "conversation.admin.closed" {
        o := Outcome(ClosedCalls(ev.userId), false);
      }
    }
    a := Acknowledge(o);
  }

  function QrCodeNotice(url: string): string { "微信号掉线了，扫二维码登录：" + url }
  const LoginNotice: string := "微信号登录成功，开始等待客人了～"

  /** `wechat_entry()`: friend messages to the friend flow and, when a bot
      user is configured, QR-code and login events to the bot. */
  method WeChatEntry(ev: WeChatEvent, botId: Option<string>, up: FriendUpstream) returns (a: Answer)
    ensures ev.postType == "receive_message" && ev.kind == "friend_message" ==>
      a == Answer(204, FriendMessageCalls(ev.message, up))
    ensures ev.postType == "event" && botId.Some? && ev.event == "input_qrcode" ==>
      if ev.params == [] then a == Answer(500, [])
      else a == Answer(204, Delivery(botId.value, QrCodeNotice(ev.params[|ev.params| - 1]), up.replyStatus))
    ensures ev.postType == "event" && botId.Some? && ev.event == "login" ==>
      a == Answer(204, Delivery(botId.value, LoginNotice, up.replyStatus))
    ensures (!(ev.postType == "receive_message" && ev.kind == "friend_message") &&
             !(ev.postType == "event" && botId.Some? && ev.event in {"input_qrcode", "login"})) ==>
      a == Answer(204, [])
  {
    var trace: seq<Call> := [];
    if ev.postType == "receive_message" && ev.kind == "friend_message" {
      trace := HandleFriendMessage(ev.message, up);
    } else if ev.postType == "event" && botId.Some? {
      if ev.event == "input_qrcode" {
        if ev.params == [] {
          // `ctx['params'][-1]` raises
          return Answer(500, []);
        }
        var qrcodeUrl := ev.params[|ev.params| - 1];
        trace := ReplyOrInitiate(botId.value, QrCodeNotice(qrcodeUrl), up.replyStatus);
      } else if ev.event == "login" {
        trace := ReplyOrInitiate(botId.value, LoginNotice, up.replyStatus);
      }
    }
    a := Answer(204, trace);
  }
}
