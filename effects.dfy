/** The vocabulary of the bridge's outside world. Every outbound HTTP request
    a handler makes is a `Call` appended to a trace; every answer it reads
    back (a status code, a parsed field) is an input of the handler. */
module Effects {

  datatype Option<T> = None | Some(value: T)

  /** `requests.Response.ok`: false exactly for 4xx and 5xx status codes. */
  predicate Ok(status: int)
  {
    !(400 <= status < 600)
  }

  /** The JSON documents the bridge sends: strings and objects are all it uses. */
  datatype Json = JStr(s: string) | JObj(fields: map<string, Json>)

  /** What one WeChat friend message carries: text, or a media path (a URL). */
  datatype FriendContent = Text(content: string) | MediaPath(url: string)

  /** What is handed to the image host: the avatar stream fetched from the
      gateway, or the base64-decoded `media_data` of an inbound message. */
  datatype ImageSource = AvatarStream(client: Option<string>, id: string) | MediaData(base64: string)

  datatype Call =
      /** `session.post(url, json=body)` to the messaging platform */
    | IntercomPost(url: string, body: Json)
      /** `session.delete(url, params={'user_id': userId})` */
    | IntercomDelete(url: string, userId: string)
      /** gateway `get_avatar`, with the `client` parameter only in the multi-client bridge */
    | GetAvatar(client: Option<string>, id: string)
      /** one upload to the image host */
    | ImageUpload(source: ImageSource)
      /** gateway `send_friend_message` */
    | SendFriendMessage(client: Option<string>, id: string, message: FriendContent)
      /** gateway `start_client`, `stop_client`, `check_client` */
    | StartClient(target: string)
    | StopClient(target: string)
    | CheckClient

  /** `urllib.parse.quote` and `unquote`, whose definitions are not part of this model. */
  datatype UrlCodec = UrlCodec(quote: string -> string, unquote: string -> string)

  /** The calls a handler made, and whether it ended in an uncaught exception. */
  datatype Outcome = Outcome(trace: seq<Call>, crashed: bool)

  /** What a webhook endpoint answers (Flask turns an uncaught exception into
      500) and the calls it made on the way. */
  datatype Answer = Answer(status: int, trace: seq<Call>)

  /** The HTTP answer for a handler outcome once authentication has passed. */
  function Acknowledge(o: Outcome): (a: Answer)
    ensures a.trace == o.trace
    ensures a.status == 204 <==> !o.crashed
    ensures a.status == 500 <==> o.crashed
  {
    Answer(if o.crashed then 500 else 204, o.trace)
  }
}
