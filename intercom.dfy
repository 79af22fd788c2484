/** The messaging-platform side shared by both bridges: endpoint URLs, the
    request bodies, the continue-or-initiate delivery rule and the webhook
    signature gate. */
module Intercom {
  import opened Strings
  import opened Effects

  const ApiBase: string := "https://api.intercom.io/"

  /** `api(path)`: the platform's base URL and the path without its leading
      slashes, so exactly one `/` follows the host. */
  function Api(path: string): (url: string)
    ensures StartsWith(url, ApiBase)
    ensures url[|ApiBase|..] == [] || url[|ApiBase|] != '/'
    ensures (path == [] || path[0] != '/') ==> url == ApiBase + path
    ensures url == ApiBase + LStrip(path, '/')
  {
    ApiBase + LStrip(path, '/')
  }

  /** The user endpoint is neither of the two delivery endpoints. */
  lemma UsersIsNotDelivery()
    ensures Api("users") != Api("conversations/last/reply")
    ensures Api("users") != Api("messages")
  {
    assert Api("users")[|ApiBase|] == 'u';
    assert Api("conversations/last/reply")[|ApiBase|] == 'c';
    assert Api("messages")[|ApiBase|] == 'm';
  }

  /** The body of a "reply to the user's last conversation" request. */
  function CommentPayload(userId: string, body: string): Json
  {
    JObj(map["type" := JStr("user"), "message_type" := JStr("comment"),
             "user_id" := JStr(userId), "body" := JStr(body)])
  }

  /** The body of a "new conversation from the user" request. */
  function FromUserPayload(userId: string, body: string): Json
  {
    JObj(map["from" := JObj(map["type" := JStr("user"), "user_id" := JStr(userId)]),
             "body" := JStr(body)])
  }

  /** The calls `reply_or_initiate(userId, body)` makes when the platform
      answers the reply attempt with `replyStatus`: a reply to the last
      conversation, and a new conversation carrying the same user and body
      exactly when that reply was refused with 422 (no open conversation). */
  function Delivery(userId: string, body: string, replyStatus: int): (t: seq<Call>)
    ensures 1 <= |t| <= 2
    ensures t[0] == IntercomPost(Api("conversations/last/reply"), CommentPayload(userId, body))
    ensures |t| == 2 <==> replyStatus == 422
    ensures |t| == 2 ==> t[1] == IntercomPost(Api("messages"), FromUserPayload(userId, body))
  {
    var reply := IntercomPost(Api("conversations/last/reply"), CommentPayload(userId, body));
    if !Ok(replyStatus) && replyStatus == 422 then
      [reply, IntercomPost(Api("messages"), FromUserPayload(userId, body))]
    else [reply]
  }

  /** The platform user a request is on behalf of: the body's `user_id`,
      or the `user_id` of its `from` object. */
  function Sender(c: Call): Option<string>
  {
    if !c.IntercomPost? || !c.body.JObj? then None
    else if "user_id" in c.body.fields && c.body.fields["user_id"].JStr? then Some(c.body.fields["user_id"].s)
    else if "from" in c.body.fields && c.body.fields["from"].JObj? && "user_id" in c.body.fields["from"].fields
            && c.body.fields["from"].fields["user_id"].JStr? then Some(c.body.fields["from"].fields["user_id"].s)
    else None
  }

  /** Both the reply and the fallback speak for the same user. */
  lemma DeliverySender(userId: string, body: string, replyStatus: int)
    ensures forall k :: 0 <= k < |Delivery(userId, body, replyStatus)| ==>
      Sender(Delivery(userId, body, replyStatus)[k]) == Some(userId)
  {
    var t := Delivery(userId, body, replyStatus);
    assert Sender(t[0]) == Some(userId);
    if |t| == 2 {
      assert "user_id" !in t[1].body.fields;
    }
  }

  /** `reply_or_initiate(user_id, body)`: build the reply payload, post it,
      and fall back once to a new conversation built from that payload. */
  method ReplyOrInitiate(userId: string, body: string, replyStatus: int) returns (t: seq<Call>)
    ensures t == Delivery(userId, body, replyStatus)
  {
    var payload := map["type" := JStr("user"), "message_type" := JStr("comment"),
                       "user_id" := JStr(userId), "body" := JStr(body)];
    t := [IntercomPost(Api("conversations/last/reply"), JObj(payload))];
    if !Ok(replyStatus) && replyStatus == 422 {
      var fallback := map["from" := JObj(map["type" := JStr("user"), "user_id" := payload["user_id"]]),
                          "body" := payload["body"]];
      t := t + [IntercomPost(Api("messages"), JObj(fallback))];
    }
  }

  /** The webhook is refused when it carries an `X-Hub-Signature` header that
      differs from `sha1=` followed by the hex HMAC of the body; a request
      without the header is let through. */
  predicate SignatureMismatch(header: Option<string>, hexDigest: string)
    ensures SignatureMismatch(header, hexDigest) ==> header.Some?
    ensures header == Some("sha1=" + hexDigest) ==> !SignatureMismatch(header, hexDigest)
  {
    header.Some? && "sha1=" + hexDigest != header.value
  }
}
