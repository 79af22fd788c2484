/** What the two bridge versions share about their webhooks: the request
    bodies they read, the upstream answers they react to, and the pieces of
    the friend-message flow that do not depend on the gateway session. */
module Events {
  import opened Strings
  import opened Effects
  import opened Content
  import opened Intercom

  /** The fields of a `/wechat` request body that a friend message uses. */
  datatype FriendMessage = FriendMessage(
    senderId: Option<string>,
    senderName: Option<string>,
    content: string,
    format: Option<string>,
    mediaMime: Option<string>,
    mediaData: string)

  /** A `/wechat` request body: `post_type`, `type`, `event`, `params` and the message. */
  datatype WeChatEvent = WeChatEvent(
    postType: string, kind: string, event: string, params: seq<string>, message: FriendMessage)

  /** What the gateway, the image host and the platform answer while one
      friend message is handled. */
  datatype FriendUpstream = FriendUpstream(
    avatarStatus: int, avatarUpload: UploadResponse,
    upsertStatus: int, mediaUpload: UploadResponse,
    replyStatus: int)

  /** A `/intercom` request body: `type`, `topic`, the user's `user_id` and
      the bodies of `conversation_parts`, newest first. */
  datatype Conversation = Conversation(kind: string, topic: string, userId: string, parts: seq<string>)

  /** `ctx.get('sender_id')` is truthy: present and not empty. */
  predicate HasSender(m: FriendMessage)
  {
    m.senderId.Some? && m.senderId.value != ""
  }

  /** `format == 'media'` and a MIME type (empty when absent) starting with `image`. */
  predicate IsMediaImage(m: FriendMessage)
  {
    m.format == Some("media") &&
    StartsWith(if m.mediaMime.Some? then m.mediaMime.value else "", "image")
  }

  /** The user profile sent to `users`: always the id, a name when there is
      one, an avatar exactly when the avatar upload gave a non-empty URL. */
  function ProfilePayload(userId: string, name: Option<string>, avatarUrl: Option<string>): (j: Json)
    ensures j.JObj? && "user_id" in j.fields && j.fields["user_id"] == JStr(userId)
    ensures "name" in j.fields <==> name.Some?
    ensures name.Some? ==> j.fields["name"] == JStr(name.value)
    ensures "avatar" in j.fields <==> HasUrl(avatarUrl)
    ensures HasUrl(avatarUrl) ==>
      j.fields["avatar"] == JObj(map["type" := JStr("avatar"), "image_url" := JStr(avatarUrl.value)])
    ensures j.fields.Keys <= {"user_id", "name", "avatar"}
  {
    var base := map["user_id" := JStr(userId)];
    var named := if name.Some? then base["name" := JStr(name.value)] else base;
    if HasUrl(avatarUrl) then
      JObj(named["avatar" := JObj(map["type" := JStr("avatar"), "image_url" := JStr(avatarUrl.value)])])
    else JObj(named)
  }

  /** The avatar URL the profile gets: only when the gateway served the
      avatar and the image host accepted it. */
  function AvatarUrl(up: FriendUpstream): Option<string>
  {
    if Ok(up.avatarStatus) then UploadImage(up.avatarUpload) else None
  }

  /** The delivered text: a markdown image reference to the hosted picture
      when the message is an image whose upload gave a URL, else the text. */
  function MessageBody(m: FriendMessage, mediaUpload: UploadResponse): (body: string)
    ensures IsMediaImage(m) && HasUrl(UploadImage(mediaUpload)) ==>
      body == "[图片](" + mediaUpload.url + ")"
    ensures !(IsMediaImage(m) && HasUrl(UploadImage(mediaUpload))) ==> body == m.content
  {
    var imageUrl := if IsMediaImage(m) then UploadImage(mediaUpload) else None;
    if HasUrl(imageUrl) then "[图片](" + imageUrl.value + ")" else m.content
  }

  /** `t` contains a POST to `url`. */
  predicate PostsTo(t: seq<Call>, url: string)
  {
    exists k :: 0 <= k < |t| && t[k].IntercomPost? && t[k].url == url
  }

  /** Every platform request in `t` is made on behalf of `userId`. */
  predicate OnBehalfOf(t: seq<Call>, userId: string)
  {
    forall k :: 0 <= k < |t| && t[k].IntercomPost? ==> Sender(t[k]) == Some(userId)
  }

  lemma OnBehalfOfConcat(a: seq<Call>, b: seq<Call>, userId: string)
    requires OnBehalfOf(a, userId) && OnBehalfOf(b, userId)
    ensures OnBehalfOf(a + b, userId)
  {
    var t := a + b;
    forall k | 0 <= k < |t| && t[k].IntercomPost?
      ensures Sender(t[k]) == Some(userId)
    {
      if k >= |a| {
        assert t[k] == b[k - |a|];
      }
    }
  }

  /** The friend flow's requests, upsert and delivery, all speak for the
      user the profile is keyed by. */
  lemma FriendFlowOnBehalfOf(avatar: seq<Call>, userId: string, name: Option<string>, avatarUrl: Option<string>,
                             m: FriendMessage, up: FriendUpstream)
    requires forall k :: 0 <= k < |avatar| ==> !avatar[k].IntercomPost?
    ensures var pre := avatar + [IntercomPost(Api("users"), ProfilePayload(userId, name, avatarUrl))];
      && OnBehalfOf(pre, userId)
      && OnBehalfOf(pre + (if IsMediaImage(m) then [ImageUpload(MediaData(m.mediaData))] else [])
                        + Delivery(userId, MessageBody(m, up.mediaUpload), up.replyStatus), userId)
  {
    var pre := avatar + [IntercomPost(Api("users"), ProfilePayload(userId, name, avatarUrl))];
    UpsertOnBehalfOf(avatar, userId, name, avatarUrl);
    var media := if IsMediaImage(m) then [ImageUpload(MediaData(m.mediaData))] else [];
    assert OnBehalfOf(media, userId);
    OnBehalfOfConcat(pre, media, userId);
    DeliverySender(userId, MessageBody(m, up.mediaUpload), up.replyStatus);
    OnBehalfOfConcat(pre + media, Delivery(userId, MessageBody(m, up.mediaUpload), up.replyStatus), userId);
  }

  /** Calls that post nothing, then the profile upsert for `userId`. */
  lemma UpsertOnBehalfOf(avatar: seq<Call>, userId: string, name: Option<string>, avatarUrl: Option<string>)
    requires forall k :: 0 <= k < |avatar| ==> !avatar[k].IntercomPost?
    ensures OnBehalfOf(avatar + [IntercomPost(Api("users"), ProfilePayload(userId, name, avatarUrl))], userId)
  {
    var upsert := IntercomPost(Api("users"), ProfilePayload(userId, name, avatarUrl));
    assert Sender(upsert) == Some(userId);
    assert OnBehalfOf([upsert], userId);
    assert OnBehalfOf(avatar, userId);
    OnBehalfOfConcat(avatar, [upsert], userId);
  }

  /** Calls that post nothing, followed by the profile upsert, deliver nothing. */
  lemma UpsertDeliversNothing(a: seq<Call>, profile: Json)
    requires forall k :: 0 <= k < |a| ==> !a[k].IntercomPost?
    ensures var t := a + [IntercomPost(Api("users"), profile)];
      !PostsTo(t, Api("conversations/last/reply")) && !PostsTo(t, Api("messages"))
  {
    UsersIsNotDelivery();
    var t := a + [IntercomPost(Api("users"), profile)];
    assert forall k :: 0 <= k < |t| && t[k].IntercomPost? ==> t[k].url == Api("users");
  }

  /** The media step of `handle_friend_message`: re-host an image message and
      pick the text to deliver. */
  method FriendBody(m: FriendMessage, up: FriendUpstream) returns (calls: seq<Call>, body: string)
    ensures calls == (if IsMediaImage(m) then [ImageUpload(MediaData(m.mediaData))] else [])
    ensures body == MessageBody(m, up.mediaUpload)
  {
    calls := [];
    var imageUrl: Option<string> := None;
    var mime := if m.mediaMime.Some? then m.mediaMime.value else "";
    if m.format == Some("media") && StartsWith(mime, "image") {
      calls := [ImageUpload(MediaData(m.mediaData))];
      imageUrl := UploadImage(up.mediaUpload);
    }
    body := m.content;
    if imageUrl.Some? && imageUrl.value != "" {
      body := "[图片](" + imageUrl.value + ")";
    }
  }

  /** One media send per URL, in the order given. */
  function MediaSends(client: Option<string>, id: string, urls: seq<string>): (t: seq<Call>)
    ensures |t| == |urls|
    ensures forall k :: 0 <= k < |urls| ==> t[k] == SendFriendMessage(client, id, MediaPath(urls[k]))
  {
    seq(|urls|, k requires 0 <= k < |urls| => SendFriendMessage(client, id, MediaPath(urls[k])))
  }
}
