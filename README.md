# wechat-intercom, modelled in Dafny

wechat-intercom bridges a WeChat chat gateway and the Intercom customer
messaging platform. A WeChat contact who writes to the bot becomes an
Intercom user. Their messages, images included, arrive as replies in that
user's latest conversation, or in a new conversation when none is open.
When a support agent answers in Intercom, the text (tags stripped) and every
inline image go back to the contact through the gateway. In the
multi-session bridge (`wechat_intercom/app.py`), a configured bot user can
also start, stop and list gateway sessions by chat commands. The older
single-session bridge (`app.py`) has the same flows without sessions and
without commands.

The model treats every outbound HTTP request as a `Call` value appended to a
trace. Every answer a handler reads back is an input: a status code, a
parsed `code` or `status` field, the image host's reply. That makes each
webhook handler a function from the event and the upstream answers to the
calls it makes and the HTTP status it returns. Each imperative handler is a
method that builds its trace step by step. Its `ensures` ties the trace to
that function, and lemmas state what the function guarantees.

Modules, one file each:

- `Strings`: the Python string operations the code relies on: `str.isspace`,
  `lstrip`/`rstrip` of one character, `strip()`, `split(sep)`, `split()` and
  `sep.join`.
- `Effects`: the calls, JSON bodies, handler outcomes and HTTP answers.
- `ApiClient`: `APIClient.__getattr__`, the gateway's URL builder.
- `Content`: `remove_tags`, the inline-image extraction of the reply handler
  and `upload_image` as an oracle. Both regular expressions are left-to-right
  scanners.
- `ContentPatterns`: the two regular expressions written as predicates on
  the input, with proofs that each scanner finds exactly the match its
  pattern describes.
- `ContentExamples`: the two scanners run on concrete markup.
- `Intercom`: `api()`, `reply_or_initiate` and the webhook signature gate.
- `Events`: the request bodies and the friend-message pieces the two bridges
  share.
- `Bridge`: `wechat_intercom/app.py`.
- `Legacy`: `app.py`.

Some behaviour of the code is easy to miss:

- The identity of a contact embeds the decoded session name as it is (line
  68). Percent-encoding is applied only to gateway calls. So a session name
  containing `/` gives an identity that the reply handler cannot unpack; it
  raises (`Bridge.DecodeIdentity`).
- The reply handler unpacks exactly two parts after `wechat`. It does not
  rejoin extra segments.
- The image pattern has no ignore-case flag, so only a lowercase `img` tag is
  matched.
- Some inputs make a handler raise, and Flask then answers 500:
  - a blank admin command;
  - a QR-code event with empty `params`;
  - a reply with no conversation part;
  - a malformed `wechat/...` id.
- The image pattern's lazy group `(http.+?)` is not confined to the `src`
  value. It runs on to the first quote that is followed, after optional
  whitespace, by `>`. So in `<img src="http://a" alt="b">` the captured URL
  is `http://a" alt="b` (`ContentExamples.LazyCapture`).

## Model

| member | source | states |
|---|---|---|
| Strings.LStrip | api_client.py:9 | `lstrip(c)` returns a suffix of the input that does not start with `c`, and everything it dropped was `c` |
| Strings.RStrip | api_client.py:9 | `rstrip(c)` returns a prefix of the input that does not end with `c`, and everything it dropped was `c` |
| Strings.Strip | wechat_intercom/app.py:148 | `strip()` leaves no whitespace at either end, is empty exactly for a blank input, and leaves an already trimmed string unchanged |
| Strings.StripInfix | wechat_intercom/app.py:148 | `strip()` only trims: its result sits in the input between a whitespace-only prefix and a whitespace-only suffix |
| Strings.JoinWith | wechat_intercom/app.py:202 | `sep.join(parts)` contains the separator exactly when there are at least two parts or some part contains it |
| Strings.Split | wechat_intercom/app.py:127 | `split('/')` gives at least one part, and no part contains the separator |
| Strings.JoinSplit | wechat_intercom/app.py:127 | joining the parts of a split with the separator gives the original string back |
| Strings.SplitConcat | wechat_intercom/app.py:127 | a separator splits the parts before it from the parts after it |
| Strings.SplitJoin | wechat_intercom/app.py:202 | splitting a join of separator-free parts gives the parts back |
| Strings.WordsAreWords | wechat_intercom/app.py:165 | `split()` yields only non-empty runs of non-whitespace |
| Strings.WordsHead | wechat_intercom/app.py:165 | for a non-blank command, the first part of `split()` is the maximal run of non-whitespace after the leading whitespace, and the other parts are the split of what follows that run |
| Strings.WordsEmpty | wechat_intercom/app.py:165 | `split()` is empty exactly when the command is blank, which is when `cmd, *args = ...` raises |
| Strings.SplitHead | wechat_intercom/app.py:127 | a head without the separator, followed by the separator, is the first part of the split |
| Effects.Acknowledge | wechat_intercom/app.py:122 | a handler that completes is answered 204 and one that raises is answered 500; the calls it made are kept |
| ApiClient.Client.Attr | api_client.py:9 | the child URL starts with the base up to its trailing slashes, then one slash; neither neighbour of that slash is a slash |
| ApiClient.JoinSeparatesOnce | api_client.py:8-9 | the child URL is `base.rstrip('/') + '/' + item.lstrip('/')`; exactly one slash separates the parts, and only slashes were removed from either side |
| ApiClient.JoinPlain | api_client.py:9 | a base ending in exactly one slash and an item with no leading slash are simply concatenated |
| ApiClient.ChainedAccess | api_client.py:8-9 | `client.x.y` is the stripped base, `x`, then `y` without its leading slashes, for a slash-free segment `x` that is not an attribute of `APIClient` |
| ContentPatterns.TagAtMatches | utils.py:17 | the tag scanner reports a match of length `n` exactly when `<\s*/?\s*[a-zA-Z0-9]+.*?>` matches the first `n` characters: `<`, whitespace, at most one `/` with whitespace around it, an ASCII letter or digit, then characters other than `>` and line breaks up to the first `>`; it reports none exactly when the pattern has no match there |
| Content.RemoveTags | utils.py:16-17 | the output is never longer than the input, and a string without `<` is returned unchanged |
| Content.RemoveTagsSubsequence | utils.py:16-17 | `remove_tags` only deletes: its output is a subsequence of its input |
| Content.SimpleTag | utils.py:17 | a plain `<name>` or `</name>` tag is matched whole and removed |
| Content.RemoveTagsText | utils.py:17 | text without `<` passes through unchanged in front of the rest |
| ContentPatterns.ImgAtMatches | wechat_intercom/app.py:133 | the image scanner reports a match exactly when `<\s*img\s+src="(http.+?)"\s*>` matches at the start: `<`, whitespace, lowercase `img`, at least one whitespace, `src="`, a group of `http` and at least one more character without line breaks, a quote, whitespace and `>`, with the group ending at the first quote after which that closing can match; the reported URL and end are the group and the end of that match, and no match is reported when the pattern has none |
| Content.ImageUrls | wechat_intercom/app.py:131-134 | every extracted URL starts with `http`, has at least one more character, and holds no line break |
| Content.ImageUrlsNoTag | wechat_intercom/app.py:131-134 | a body without `<` has no inline images |
| Content.ImageUrlsOfTag | wechat_intercom/app.py:131-134 | each `<img src="URL">` contributes its URL before the URLs of whatever follows it, so document order is kept |
| Content.ImageUrlsText | wechat_intercom/app.py:131-134 | text without `<` contributes no image and does not disturb the rest |
| Content.UploadImage | utils.py:6-13 | a URL is returned exactly when the host answered ok with code `success`, and it is the host's URL |
| ContentExamples.RemoveTagsExample | utils.py:17 | `<b>hello</b> <i>world</i>` becomes `hello world` |
| ContentExamples.RemoveTagsKeepsEntities | utils.py:17 | entities such as `&amp;` are left as they are |
| ContentExamples.RemoveTagsKeeps | utils.py:17 | `<>`, `<!--`, an unterminated `<b`, and a tag whose `>` is on the next line are all kept |
| ContentExamples.RemoveTagsNotIdempotent | utils.py:17 | one pass with no rescan: `<<b>a>` becomes `<a>`, and a second pass gives the empty string |
| ContentExamples.ImageUrlsExample | wechat_intercom/app.py:131-134 | two inline images in a paragraph come out as their two URLs, in document order |
| ContentExamples.LazyCapture | wechat_intercom/app.py:133 | in `<img src="http://a" alt="b">` the lazy group captures `http://a" alt="b`, the only URL extracted |
| Intercom.Api | wechat_intercom/app.py:30-31 | every endpoint URL is the platform base followed by the path without its leading slashes (as `Strings.LStrip` characterizes them), so exactly one slash follows the host, and a path with no leading slash is appended as it is |
| Intercom.Delivery | wechat_intercom/app.py:207-223 | a reply to the last conversation always comes first; a new conversation with the same user and body follows exactly when the reply was refused with 422; nothing else is posted |
| Intercom.ReplyOrInitiate | wechat_intercom/app.py:207-223 | building the payload and posting it, with the fallback read back from that payload, makes exactly the calls of `Delivery` |
| Intercom.DeliverySender | wechat_intercom/app.py:215-223 | both the reply and the fallback are made on behalf of the same user |
| Intercom.SignatureMismatch | wechat_intercom/app.py:109-114 | a request without the signature header is never refused, and one whose header is `sha1=` + the digest is accepted |
| Intercom.UsersIsNotDelivery | wechat_intercom/app.py:89 | the user endpoint is neither of the two delivery endpoints, so a profile upsert is never a delivery |
| Events.ProfilePayload | wechat_intercom/app.py:78-87 | the profile always has the user id; it has a name exactly when one is given, and an avatar exactly when the avatar upload gave a non-empty URL; it has no other keys |
| Events.MessageBody | wechat_intercom/app.py:94-101 | the body is `[图片](url)` exactly when the message is a media image whose upload gave a URL, and the text content otherwise |
| Events.FriendBody | wechat_intercom/app.py:94-101 | the media step uploads exactly when the message is a media image, and picks the body of `MessageBody` |
| Events.MediaSends | wechat_intercom/app.py:139-144 | one media send per URL, in the given order |
| Bridge.ClientName | wechat_intercom/app.py:38-40 | the session is the decoded `client` query argument, or `default` without one |
| Bridge.Identity | wechat_intercom/app.py:68 | a contact's platform user id is `wechat/` + session name + `/` + WeChat id, so it starts with `wechat/` |
| Bridge.Decode | wechat_intercom/app.py:127-137 | an id is a contact exactly when its `/`-split has three parts and the first is `wechat`; the session and contact it yields contain no `/` |
| Bridge.DecodeIdentity | wechat_intercom/app.py:127-137 | the reply handler recovers the session and contact that built an identity exactly when neither contains `/`; otherwise unpacking raises |
| Bridge.DecodeOnlyIdentity | wechat_intercom/app.py:127-137 | an id that decodes to a contact is the identity of that contact, so decoding is injective |
| Bridge.DecodeWeChatPrefix | wechat_intercom/app.py:127-136 | an id is treated as a WeChat contact, or makes the handler raise, exactly when it is `wechat` or starts with `wechat/` |
| Bridge.ProfileName | wechat_intercom/app.py:81-82 | the profile name exists exactly when the sender's name does; it is the session name, `: `, then the sender's name |
| Bridge.AvatarCalls | wechat_intercom/app.py:70-76 | the avatar is fetched with the encoded session name; it is uploaded exactly when the fetch succeeded, and the upload sends the avatar stream of that session and contact; neither call posts to the platform |
| Bridge.FriendMessageCalls | wechat_intercom/app.py:63-102 | the friend flow makes no call exactly when the sender id is missing or empty |
| Bridge.FriendMessageStart | wechat_intercom/app.py:63-89 | a message without a sender id makes no call; otherwise the avatar is fetched first, with the encoded session name, and the profile of the contact's identity is upserted |
| Bridge.FriendMessageAborts | wechat_intercom/app.py:89-92 | a refused upsert ends the flow: nothing is posted to either delivery endpoint |
| Bridge.FriendMessageDelivers | wechat_intercom/app.py:89-102 | an accepted upsert makes the trace end with the delivery of the message body to the contact's identity |
| Bridge.FriendMessageIdentity | wechat_intercom/app.py:68-102 | every platform request of the flow, the upsert and both delivery requests, is made on behalf of the one identity built from the decoded session name |
| Bridge.HandleFriendMessage | wechat_intercom/app.py:63-102 | building the payload key by key, with early returns, makes exactly the calls of `FriendMessageCalls` |
| Bridge.AvatarFailureDoesNotBlock | wechat_intercom/app.py:70-102 | a failed avatar fetch or upload does not stop the delivery of the message |
| Bridge.AvatarOnlyChangesProfile | wechat_intercom/app.py:70-102 | the calls after the upsert are the same whatever the gateway and the image host answered for the avatar |
| Bridge.StatusLines | wechat_intercom/app.py:202-203 | one line per gateway session, in the gateway's order, each the decoded account, `: ` and the state |
| Bridge.StatusListingLines | wechat_intercom/app.py:197-204 | splitting the `\n`-joined report gives back each session's line, in order |
| Bridge.ParseCommand | wechat_intercom/app.py:165-171 | a blank command has no verb; `上线`, `下线` and `查看` are recognised by the first word; start and stop name the first argument, else `default` |
| Bridge.CommandOutcome | wechat_intercom/app.py:172-204 | start, stop and list each make their gateway call first, start and stop for the encoded target session; a blank or unknown command makes no call |
| Bridge.StartReports | wechat_intercom/app.py:172-184 | a start is reported back exactly when the gateway call failed (not ok, or a non-zero code) or answered `client already exists`; a failure is reported with the literal, unformatted `%s 上线失败`, an existing session with `<session> 已在线上（有可能正在等待扫码登录）` |
| Bridge.StopReports | wechat_intercom/app.py:185-195 | a stop is reported back exactly when the gateway call failed or answered `success`; a failure is reported with `<session> 下线失败（可能当前不在线上）`, a success with `<session> 已下线` |
| Bridge.AdminOutcome | wechat_intercom/app.py:164-204 | a command that raises has made no call, and the first call, if any, is a gateway call rather than a platform request |
| Bridge.AdminCommandCrash | wechat_intercom/app.py:165-197 | a command raises exactly when it is blank, and an unknown verb makes no call |
| Bridge.CommandCrashes | wechat_intercom/app.py:165-197 | of the parsed commands only the blank one raises, and an unrecognised verb makes no call |
| Bridge.AdminRepliesToBot | wechat_intercom/app.py:172-204 | every report a command produces is made on behalf of the bot user |
| Bridge.AdminCommandCalls | wechat_intercom/app.py:166-204 | start and stop call the gateway for the encoded target session; a listing is reported exactly when the check answered ok with code 0, and it is the status report |
| Bridge.HandleAdminCommands | wechat_intercom/app.py:164-204 | the command interpreter makes exactly the calls of `AdminOutcome`, whose start and stop reports `StartReports` and `StopReports` state, among them the literal `%s 上线失败` start-failure report |
| Bridge.RepliedOutcome | wechat_intercom/app.py:125-153 | no conversation part, or a malformed `wechat` id, raises before any call. For a contact, one media send per inline image in order, then one send of the stripped text, all to the decoded session and contact. Bot text goes to the admin interpreter. Any other user gets nothing |
| Bridge.HandleConversationReplied | wechat_intercom/app.py:125-153 | the loop over the image URLs and the branches make exactly the calls of `RepliedOutcome` |
| Bridge.ReplyReachesContact | wechat_intercom/app.py:125-149 | an agent's answer to a contact's identity reaches that contact through its own session, provided neither name contains `/`; otherwise the handler raises |
| Bridge.ClosedCalls | wechat_intercom/app.py:156-161 | a closed conversation deletes its user exactly when the id starts with `wechat/`, and makes at most that one call |
| Bridge.ClosedMatchesDecode | wechat_intercom/app.py:136-158 | every id the closed handler deletes is one the reply handler treats as WeChat, and every id that decodes to a contact is deleted |
| Bridge.IntercomRoute | wechat_intercom/app.py:116-122 | only the replied handler can raise; an event that is not a notification makes no call, and calls are made only for the replied and closed topics |
| Bridge.IntercomEntry | wechat_intercom/app.py:105-122 | a present signature header that differs from `sha1=` + digest gives 401 with no call. Otherwise the event is routed and answered 204, or 500 if the handler raised |
| Bridge.WeChatEntry | wechat_intercom/app.py:34-60 | a friend message runs the friend flow for the decoded session (`default` without the argument). With a bot user configured, QR-code and login events notify the bot, and the QR notice uses the last parameter; empty parameters give 500. Anything else makes no call |
| Legacy.AvatarCalls | app.py:57-62 | the avatar is fetched without a session name; it is uploaded exactly when the fetch succeeded, and the upload sends that contact's avatar stream |
| Legacy.FriendMessageCalls | app.py:51-88 | the friend flow makes no call exactly when the sender id is missing or empty |
| Legacy.FriendMessageStart | app.py:51-75 | a message without a sender id makes no call; otherwise the avatar is fetched first, without a session name, and the profile keyed by the raw WeChat id is upserted |
| Legacy.FriendMessageAborts | app.py:75-78 | a refused upsert ends the flow: nothing is posted to either delivery endpoint |
| Legacy.FriendMessageDelivers | app.py:75-88 | an accepted upsert makes the trace end with the delivery of the message body on behalf of the raw WeChat id |
| Legacy.FriendMessageIdentity | app.py:52-88 | every platform request of the flow is made on behalf of the raw WeChat id |
| Legacy.HandleFriendMessage | app.py:51-88 | building the payload key by key, with early returns, makes exactly the calls of `FriendMessageCalls` |
| Legacy.RepliedOutcome | app.py:111-126 | no conversation part raises before any call. Otherwise one media send per inline image in order, then the stripped text, always to the raw user id; there is no bot branch |
| Legacy.HandleConversationReplied | app.py:111-126 | the loop over the image URLs makes exactly the calls of `RepliedOutcome` |
| Legacy.ReplyReachesSender | app.py:111-126 | every call an agent's answer makes is a gateway send to the platform user's id taken as a WeChat id, so an answer reaches the contact whose messages were filed under that id |
| Legacy.ClosedCalls | app.py:129-133 | a closed conversation always deletes its user, with exactly one call |
| Legacy.IntercomRoute | app.py:102-108 | only the replied handler can raise; an event that is not a notification makes no call, and calls are made only for the replied and closed topics |
| Legacy.IntercomEntry | app.py:91-108 | the same signature gate as the multi-session bridge, then routing; 204, or 500 if the handler raised |
| Legacy.WeChatEntry | app.py:29-48 | a friend message runs the friend flow. With a bot user configured, a QR-code event sends `微信号掉线了，扫二维码登录：` plus the last parameter, and a login event sends the login notice; empty parameters give 500. Anything else makes no call |

## Left out

- Flask plumbing is not modelled: app creation, routes, the `request`/`g` globals, config loading, and the gevent or `app.run` startup. The bot user id and the `client` query argument become parameters.
- HTTP I/O is reduced to trace entries, with responses as inputs. This covers the `requests` session and its headers, `APIClient.get`/`post`/`__call__`, the `WeChat` gateway class (not part of this model), and the image host.
- HMAC-SHA1, `base64.b64decode`, and `urllib.parse.quote`/`unquote` are foreign library code:
  - the digest is an input string;
  - the base64 text is carried unchanged into the upload call;
  - `quote`/`unquote` are uninterpreted functions, so no round-trip between them is assumed.
- Crashes from missing JSON keys, from `null` values where strings are expected, from invalid base64, and from a non-ASCII webhook secret are not modelled. Only the crashes the handlers' own logic causes are: unpacking, `[0]` and `[-1]`.
- `reply_or_initiate`'s optional `payload` argument is never passed by any caller, so only the default payload is modelled.
- Concurrency between webhook deliveries is not modelled, including the race on "latest conversation".
- ApiClient.ChainedAccess / ApiClient.Client.Attr: Python calls `__getattr__` only when ordinary attribute lookup fails, so the names `APIClient` itself defines (`get`, `post`, dunder names, the mangled `_APIClient__url`) never reach it: `client.get` is the bound request method, and `client.get.y` raises `AttributeError`. The model takes every name to the URL join. Both bridges rely on the shadowing, at wechat_intercom/app.py:71 and app.py:58, where `get` ends the `wechat.get_avatar` chain and issues the request; the model writes each as the call itself (`GetAvatar`).
- ApiClient.JoinSeparatesOnce: that attribute access leaves the parent unchanged is not stated as a contract, because a `Client` is an immutable value here and that property holds by construction.
- `upload_image` (utils.py) raises when the image host cannot be reached or answers with something that is not JSON, and that stops the handler. The image host's answer is an input here, so this crash is not modelled.
- The second `if user_id:` test in the older bridge's friend handler always holds, so it is not modelled as a branch.
