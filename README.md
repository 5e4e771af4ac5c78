# nb2tg relay core in Dafny

nb2tg mirrors QQ conversations into Telegram forum topics. Each QQ group or
friend gets one topic in a Telegram supergroup. Every message is relayed with
its text (HTML-escaped, with placeholders for stickers and attachments) and
its media. A correlation row stores which Telegram message carries which QQ
message, so a later QQ reply can be sent as a Telegram reply through the same
bot account. Messages posted in a topic go back to the QQ conversation the
topic belongs to.

The model covers:

- `wrappers.dfy`: `Option` and `Result`.
- `html.dfy`: Python's `html.escape(s, quote=True)` as its five sequential
  replacements. It is proved equal to a per-character escape, to be undone by
  an unescape, and to leave no `<`, `>`, `"` or `'` in its output.
- `store.dfy`: the SQLite correlation store of `database.py`. The class
  `Database` holds the `message` and `forum_topic` tables as sequences that
  inserts append to. The three selects are search loops proved equal to
  first-match functions.
- `qq.dfy`: the QQ side as the relay sees it.
  - Message segments and message events.
  - An abstract QQ bot whose downloads and sends may fail. It records every
    download and every send attempt, with its result.
- `telegram.dfy`: the Telegram side.
  - An abstract Bot API client that records every request with the ids it
    returned (none when the request failed), and every file download.
  - The class `TelegramApp` of `telegram_app.py`: a fixed `chatId`, and a
    `lastSendTimestamp` that each send overwrites with the caller-supplied
    clock value.
- `bot.dfy`: the relay of `bot.py`, as the class `Relay` over one database,
  one QQ bot and the list of Telegram credentials. It covers:
  - the signed conversation id, which is negative for groups;
  - the get-or-create topic registry;
  - the segment converter;
  - credential choice, by least recent use or by the owner of a replied-to
    message;
  - `tg_send_message`;
  - the QQ event handler;
  - the handler for messages posted in a topic.
- `identicon.dfy`: the four-cell identicon of `utils.py`, computed by the
  source's `divmod` loop.

## Model

| member | source | states |
|---|---|---|
| `Store.FirstRowForChat` | database.py:59-64 | the index of the first topic row whose conversation is `u`; no earlier row matches; the row count when none does |
| `Store.FirstRowForTopic` | database.py:52-57 | the index of the first topic row whose topic is `t`; no earlier row matches; the row count when none does |
| `Store.FirstMessageRow` | database.py:66-71 | the index of the first message row with key `(u, s)`; no earlier row has that key; the row count when none does |
| `Store.TopicOfChatAfterInsert` | database.py:46-50 | after one topic row is appended, an earlier answer for the conversation still stands; otherwise the new row answers if it matches, else there is none |
| `Store.ChatOfTopicAfterInsert` | database.py:46-57 | the same for the reverse lookup from topic to conversation |
| `Store.MessageOfAfterInsert` | database.py:36-44 | after one message row is appended, an earlier correlation for `(u, s)` still stands; otherwise the new row answers if its key matches |
| `Store.InsertThenSelectMessage` | database.py:36-71 | a message inserted under a key with no earlier row is returned unchanged by the select |
| `Store.InsertThenSelectTopic` | database.py:46-64 | a topic row inserted under fresh keys is found in both directions |
| `Store.ZeroTopicKept` | database.py:59-64 | when the first row of a conversation holds topic 0, the lookup keeps answering 0 after another row for it is appended |
| `Store.Database.constructor` | database.py:19-34 | opening the database keeps the rows already in both tables |
| `Store.Database.InsertMessage` | database.py:36-44 | appends exactly one row with the five fields in order; the topic table is unchanged |
| `Store.Database.InsertForumTopic` | database.py:46-50 | appends exactly one row, conversation then topic, taken by field name from `DBForumTopic` (which declares the topic first); the message table is unchanged |
| `Store.Database.SelectQqUniqueId` | database.py:52-57 | the conversation of the first row for the topic, or `None`; reads only |
| `Store.Database.SelectTgForumTopicId` | database.py:59-64 | the topic of the first row for the conversation, or `None`; reads only |
| `Store.Database.SelectMessageWhereQq` | database.py:66-71 | a `DBMessage` whose key fields are the arguments and whose other three fields come from the first matching row, or `None`; reads only |
| `Html.ReplaceAppend` | bot.py:46 | a one-character replacement distributes over concatenation |
| `Html.ReplaceAbsent` | bot.py:46 | replacing a character that does not occur changes nothing |
| `Html.EscapeAppend` | bot.py:46 | `html.escape` of a concatenation is the concatenation of the escapes |
| `Html.EscapeOne` | bot.py:46 | the five passes turn one character into its entity: `&amp;`, `&lt;`, `&gt;`, `&quot;`, `&#x27;`, or the character itself |
| `Html.EscapeIsPerCharacter` | bot.py:46 | the five sequential passes equal escaping each character on its own (no pass re-escapes another's output) |
| `Html.UnescapeEscape` | bot.py:46 | escaping loses nothing: unescaping the result gives back the input |
| `Html.UnescapeEntity` | bot.py:46 | unescaping reads one escaped character, then continues with the rest |
| `Html.EscapedHasNoMarkup` | bot.py:46-48 | escaped text holds no `<`, `>`, `"` or `'`, so it cannot open a tag in the HTML parse mode |
| `Qq.QqBot.constructor` | bot.py:237 | the QQ bot starts with nothing sent |
| `Qq.QqBot.Download` | bot.py:55 | a successful download yields the bytes of the segment's file; every attempt is logged with the file and whether it succeeded; the send log is unchanged |
| `Qq.QqBot.Send` | bot.py:253 | every attempt is logged with the chat type, the peer, the message and the sequence number QQ returned, or none when the send failed; the download log is unchanged |
| `Telegram.TgBot.constructor` | telegram_app.py:14-19 | a client for bot account `me` with no requests made |
| `Telegram.TgBot.CreateForumTopic` | telegram_app.py:46-47 | records the request; a created topic id is positive |
| `Telegram.TgBot.SendMessage` | telegram_app.py:49-52 | records the request; the sent message is from this bot |
| `Telegram.TgBot.SendMediaGroup` | telegram_app.py:54-57 | records the request; an album returns one message per item, all from this bot |
| `Telegram.TgBot.DownloadFile` | bot.py:242-243 | a successful download yields the bytes of the file; every attempt is logged with whether it succeeded; the request log is unchanged |
| `Telegram.TelegramApp.constructor` | telegram_app.py:14-16 | stores the client and `chatId` (a constant afterwards) and sets the send time to the construction time |
| `Telegram.TelegramApp.CreateForumTopic` | telegram_app.py:46-47 | creates the topic in `chatId` through its client; the send time is untouched |
| `Telegram.TelegramApp.SendMessage` | telegram_app.py:49-52 | sets the send time to `now`, then sends to `chatId` |
| `Telegram.TelegramApp.SendMediaGroup` | telegram_app.py:54-57 | sets the send time to `now`, then sends the album to `chatId` |
| `Bot.PeerOfUniqueId` | bot.py:91-102 | for every QQ number `> 0`, decoding the signed id recovers the chat type and the number |
| `Bot.UniqueIdOfPeer` | bot.py:247-252 | encoding what the reverse handler decoded gives back every stored id |
| `Bot.MediaSegments` | bot.py:53-67 | the media segments picked out of a message are all image, file, voice or video |
| `Bot.MediaSegmentsOne` | bot.py:53-67 | one segment is kept exactly when it is image, file, voice or video |
| `Bot.MediaSegmentsAppend` | bot.py:43-67 | the media segments of a concatenation are those of the parts, in order, so every media segment is kept in segment order |
| `Bot.MediaSegmentsKeepsMedia` | bot.py:53-67 | a message made only of media segments keeps all of them, in order |
| `Bot.ConvertedTextAppend` | bot.py:41-82 | the text of a concatenation of segments is the texts of the parts, in order |
| `Bot.MediaItemsAppend` | bot.py:42-67 | the attachments of a concatenation are those of the parts, in order |
| `Bot.MediaItemsFollowSegments` | bot.py:53-67 | exactly one attachment per media segment, in segment order and of the matching kind (photo, document, audio, video); no other segment adds one |
| `Bot.ConversionStep` | bot.py:41-82 | one more segment extends the text by its contribution, the attachments by its attachment if it is media, and the download log by one good fetch of its file if it is media |
| `Bot.FetchedOkAllGood` | bot.py:53-67 | every fetch in the log of a conversion whose downloads all succeeded is marked good |
| `Bot.CompletedIsNotFailed` | bot.py:53-67 | the log of a conversion that downloaded every file is never the log of one stopped by a failed download, so the download log tells the two apart |
| `Bot.PlainTextConversion` | bot.py:45-46 | a message of text segments converts to the escape of their joined text, with no attachments |
| `Bot.FirstIndexOf` | bot.py:123-127 | the index of the first bot id equal to `id`; no earlier one equals it; the list's length when none does |
| `Bot.LeastRecentlyUsed` | bot.py:117-118 | `sorted(...)[0]` by send time: a minimal time, and the earliest in list order among equal times (the sort is stable) |
| `Bot.NextChoiceDiffers` | bot.py:117-118 | with two or more credentials and a later clock, the one chosen and then stamped is not chosen next |
| `Bot.Timestamps` | bot.py:118 | the send time of each credential, in list order |
| `Bot.Relay.constructor` | bot.py:114-115 | the relay over a database, a QQ bot and a non-empty list of credentials with distinct clients |
| `Bot.Relay.TelegramLoadBalance` | bot.py:117-118 | a configured credential whose send time is at most every other's, the first such in list order |
| `Bot.Relay.TelegramById` | bot.py:123-127 | the first credential whose bot id is `id`, or `None` exactly when no credential has it |
| `Bot.Relay.ChooseCredential` | bot.py:133-137 | with a stored reply: the credential whose bot sent the replied-to message, present exactly when that bot is configured; without one: a least recently used credential |
| `Bot.Relay.GetForumTopic` | bot.py:27-37 | a stored non-zero topic is returned with no creation and no insert; otherwise exactly one creation in `chatId` by the first credential and, if it succeeds, exactly one row `(conversation, new topic)` and the new positive id is returned; a failed creation inserts nothing |
| `Bot.Relay.GetForumTopicTwice` | bot.py:30-37 | for a conversation with no topic, two calls in sequence create once and return the same topic |
| `Bot.Relay.GetForumTopicZero` | bot.py:27-37 | for a conversation whose first stored topic is 0 (falsy), each of two lookups makes its own creation request, logged with its answer, and the lookup still answers 0 afterwards |
| `Bot.Relay.ConvertMessage` | bot.py:40-82 | on success, the text is the contributions of the segments in order (escaped text, the master bot link for `at`, `[face:n]`, `[market_face:name]`, placeholders, `[kind]` for other kinds), the attachments follow the media segments, and the download log gains one good fetch per media segment in order; on failure the log shows the conversion stopped at a media segment: good fetches for the media before it, then a failed fetch of its file; nothing is sent to QQ |
| `Bot.Relay.TgSendMessage` | bot.py:129-151 | empty text goes out as "(empty)"; the chosen credential stamps `now` (so it is at least every earlier send time when the clock does not go back) and makes exactly one request, an album with the text as caption when there is media and a plain message otherwise, replying to the stored message id if there is one; it succeeds exactly when Telegram returned messages, and the result is the first of them, from that credential's bot; the client downloads nothing; only the chosen credential and its client may change; an unknown reply owner fails and changes nothing |
| `Bot.Relay.Forward` | bot.py:89-109 | one relayed message, with every way it can fail: when the conversation has no non-zero topic and the first credential's creation request returns nothing, the outcome is `Failed` after that one request alone (no download, no send, no row); otherwise the topic is reused, or created under the given name as the first credential's next request with one new row; then a failed download gives `Failed` and no credential changes; otherwise every file is downloaded once, in order, and a reply whose bot is not configured gives `Failed` with nothing sent; otherwise the chosen credential makes exactly one request (the header plus the converted text and the attachments, in the topic, replying to the correlation stored before this message), and the outcome is `Relayed` exactly when Telegram returned messages, with exactly one correlation appended (conversation, sequence number, sending bot, topic, first message id), and no row otherwise; the first credential's log gains exactly the creation, if any, then its own send if it was the sender; nothing is sent to QQ and no Telegram client downloads; only the database, the QQ bot, the first credential's client and the chosen credential may change |
| `Bot.Relay.RelayInTopic` | bot.py:94-99 | with the topic known: the stored reply is read from the message table as it was, then the message is converted and sent as `ConvertAndSend` states; the first credential's log gains one request exactly when it is the sender and the conversion completed, and is unchanged otherwise |
| `Bot.Relay.ConvertAndSend` | bot.py:96-99 | a failed download gives `Failed` and leaves the chosen credential and its client unchanged; otherwise the download log shows every file fetched once, in order; no credential for the reply gives `Failed`; otherwise exactly one request, the header plus the converted text with the attachments, whose answer decides the outcome: `Relayed` with one correlation row exactly when Telegram returned messages; the topic table and the QQ send log are unchanged |
| `Bot.Relay.SendAndRecord` | bot.py:98-109 | no credential for the reply gives `Failed`; otherwise the credential stamps `now`, makes exactly one request and downloads nothing, and the outcome is `Relayed` exactly when that request returned messages, with exactly one correlation row for the first of them, and `Failed` with no row when it returned none; the topic table is unchanged; only the database, that credential and its client may change |
| `Bot.Relay.HandleMessage` | bot.py:85-111 | exactly the events other than group and private messages are ignored, and they change nothing; a group or private event is forwarded as `Forward` states, under `-peerUin` or `peerUin`, in a topic named after the group (`peerName`) or the friend (`sendNickName`), the group text headed `<u><b>name</b>:</u>\n` (member name, else nickname) and the private text unheaded, replying to the stored correlation of its reply sequence number |
| `Bot.Relay.HandleTelegramMessage` | bot.py:235-255 | with a photo, exactly one download of it by the first credential's client is logged, and none otherwise; when the topic has a conversation and the photo, if any, was downloaded, exactly one send attempt to that conversation is logged (as friend `id` when `id > 0`, group `-id` otherwise) with the photo and then the text, or the caption when there is no text, and the outcome is `Relayed` exactly when QQ returned a sequence number, with one row under the first credential's bot id with the topic and message ids; otherwise `Failed`, with nothing sent to QQ; the topic table, the first credential's requests and the QQ downloads are unchanged |
| `Identicon.IconOf` | utils.py:3-15 | exactly four cells; cell i is the block when bit i of the digest is set, white otherwise |
| `Identicon.Identicon` | utils.py:3-15 | the `divmod` loop and the two replacements compute `IconOf` of the digest of `n` |
| `Identicon.OneBlockPerIcon` | utils.py:12-15 | the block is never white, and every cell is white or that one block |
| `Identicon.SameIcon` | utils.py:3-15 | two digests give equal icons exactly when bits 0 to 3 agree and, unless all are clear, the blocks agree |
| `Identicon.Bit4Ignored` | utils.py:9-12 | bit 4 is computed and dropped: setting it leaves the icon unchanged, because the block uses `h >> 5` |

## Left out

- patch.py is not part of this model. It rewrites a third-party library file on disk.
- Polling, start-up and shutdown of the Telegram applications, and handler registration (telegram_app.py:23-44, 59-67), are not modelled. Messages arrive as calls to the two handlers.
- Network calls (QQ sends and downloads, Telegram requests and downloads) are abstract. They may fail, and a failure propagates with no retry. Telegram ids come from a counter and are positive.
- The admin commands (bot.py:154-233) are not modelled. They are platform I/O and string joins. Two of them are not registered, and one of those calls an undefined function.
- The `asyncio.Lock` and async interleaving are not modelled. Every handler runs to completion before the next begins.
- `time.time()` is a float. The model uses an integer clock value that the caller passes as `now`.
- MD5 is the function parameter `digest` of `Identicon.Identicon`.
- The emoji of the palette are the symbols of `Identicon.Glyph`. There are eight blocks, in source order.
- The commented-out JSON branch (bot.py:68-78) is dead code and is not modelled.
- SQLite `commit` and durability are not modelled. `insert_forum_topic` never commits.
- SQLite type affinity is not modelled. It turns `str(unique_id)` (bot.py:29) back into an integer, so ids are `int` throughout.
- The HTML parse mode is not modelled. The request records the text that is sent.
- `TelegramApp.me` is read from the Bot API at start-up (telegram_app.py:28). The model takes it as the client's constant `me`.
- The model follows the code where other behaviour might be expected:
  - a failing download aborts the whole conversion, because no segment has its own error handling;
  - the topic handler stores no reply link;
  - for an album only the first returned message is stored;
  - a reply whose bot is no longer configured makes `tg_send_message` fail. The model records this as `Failed` where the source raises;
  - a conversation whose first stored topic row holds 0 gets a new topic on every message: the lookup keeps answering from that first row (database.py:59-64), and each created topic is appended after it (bot.py:31-36). Created ids are positive, so such a row can only come from an existing database (`Store.ZeroTopicKept`, `Bot.Relay.GetForumTopicZero`).
- The topic handler compares `None > 0` when a topic has no stored conversation, and raises. The model records this as `Failed`. The photo download before it changes no state.
- Log output (`logger`, `print`) is not modelled.
