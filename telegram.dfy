/**
 * The Telegram side: the Bot API client of python-telegram-bot (`TgBot`, not
 * modelled beyond what it records and returns) and the `TelegramApp` wrapper of
 * telegram_app.py, which keeps one credential's chat and last send time.
 */
module Telegram {
  import opened Wrappers
  import opened Qq

  /** An inbound message in a forum topic: its topic, its id, the largest size of its photo if any, and its text and caption. */
  datatype TgUpdate = TgUpdate(messageThreadId: int, messageId: int, photo: Option<FileRef>,
                               text: Option<string>, caption: Option<string>)

  /** A message Telegram accepted: who sent it and the id Telegram gave it. */
  datatype TgMessage = TgMessage(fromUserId: int, messageId: int)

  /** An attachment of a media group. */
  datatype InputMedia =
    | Photo(media: Blob)
    | Document(media: Blob)
    | Audio(media: Blob)
    | VideoMedia(media: Blob)

  /** A Bot API request, with the arguments the relay passes (the parse mode is always HTML). */
  datatype Request =
    | CreateForumTopic(chatId: int, name: string)
    | SendMessage(chatId: int, text: string, replyToMessageId: Option<int>, messageThreadId: int)
    | SendMediaGroup(chatId: int, media: seq<InputMedia>, caption: string,
                     replyToMessageId: Option<int>, messageThreadId: int)

  /** A request that was made and the ids it returned: none when it failed. */
  datatype ApiCall = ApiCall(request: Request, returned: seq<int>)

  /** The ids of the returned messages, in order. */
  function MessageIds(msgs: seq<TgMessage>): seq<int>
  {
    seq(|msgs|, i requires 0 <= i < |msgs| => msgs[i].messageId)
  }

  /** A Bot API client for one token; `me` is the bot's own user id. */
  class TgBot {
    const me: int
    var calls: seq<ApiCall>
    var fetches: seq<Fetch>
    var lastId: nat

    constructor (me: int)
      ensures this.me == me && calls == [] && fetches == []
    {
      this.me := me;
      calls := [];
      fetches := [];
      lastId := 0;
    }

    /** Creates a forum topic; on success returns its (positive) thread id. */
    method CreateForumTopic(chatId: int, name: string) returns (r: Result<int>)
      modifies this
      ensures fetches == old(fetches)
      ensures r.Success? ==> r.value > 0
      ensures calls == old(calls) + [ApiCall(Request.CreateForumTopic(chatId, name),
                                             if r.Success? then [r.value] else [])]
    {
      var created: bool :| true;
      if created {
        lastId := lastId + 1;
        r := Success(lastId);
      } else {
        r := Failure("createForumTopic failed");
      }
      calls := calls + [ApiCall(Request.CreateForumTopic(chatId, name), if r.Success? then [r.value] else [])];
    }

    /** Sends one text message; on success it comes from this bot. */
    method SendMessage(chatId: int, text: string, replyToMessageId: Option<int>, messageThreadId: int)
      returns (r: Result<TgMessage>)
      modifies this
      ensures fetches == old(fetches)
      ensures r.Success? ==> r.value.fromUserId == me
      ensures calls == old(calls) + [ApiCall(Request.SendMessage(chatId, text, replyToMessageId, messageThreadId),
                                             if r.Success? then [r.value.messageId] else [])]
    {
      var accepted: bool :| true;
      if accepted {
        lastId := lastId + 1;
        r := Success(TgMessage(me, lastId));
      } else {
        r := Failure("sendMessage failed");
      }
      calls := calls + [ApiCall(Request.SendMessage(chatId, text, replyToMessageId, messageThreadId),
                                if r.Success? then [r.value.messageId] else [])];
    }

    /** Sends an album; on success one message per attachment, all from this bot. */
    method SendMediaGroup(chatId: int, media: seq<InputMedia>, caption: string,
                          replyToMessageId: Option<int>, messageThreadId: int)
      returns (r: Result<seq<TgMessage>>)
      modifies this
      ensures fetches == old(fetches)
      ensures r.Success? ==> |r.value| == |media| && forall i | 0 <= i < |r.value| :: r.value[i].fromUserId == me
      ensures calls == old(calls) + [ApiCall(Request.SendMediaGroup(chatId, media, caption, replyToMessageId, messageThreadId),
                                             if r.Success? then MessageIds(r.value) else [])]
    {
      var accepted: bool :| true;
      if accepted {
        var first := lastId + 1;
        r := Success(seq(|media|, i requires 0 <= i < |media| => TgMessage(me, first + i)));
        lastId := lastId + |media|;
      } else {
        r := Failure("sendMediaGroup failed");
      }
      calls := calls + [ApiCall(Request.SendMediaGroup(chatId, media, caption, replyToMessageId, messageThreadId),
                                if r.Success? then MessageIds(r.value) else [])];
    }

    /** Downloads a file a Telegram message refers to; the attempt is logged and no request is recorded. */
    method DownloadFile(file: FileRef) returns (r: Result<Blob>)
      modifies this
      ensures r.Success? ==> r.value == Bytes(file)
      ensures fetches == old(fetches) + [Fetch(file, r.Success?)]
      ensures calls == old(calls)
    {
      var reachable: bool :| true;
      r := if reachable then Success(Bytes(file)) else Failure("download failed");
      fetches := fetches + [Fetch(file, r.Success?)];
    }
  }

  /** One outbound credential: its client, the chat it posts to, and when it last sent. */
  class TelegramApp {
    const bot: TgBot
    const chatId: int
    var lastSendTimestamp: int

    /** Binds the credential to `chatId`; the clock reading at construction is the first send time. */
    constructor (bot: TgBot, chatId: int, now: int)
      ensures this.bot == bot && this.chatId == chatId && lastSendTimestamp == now
    {
      this.bot := bot;
      this.chatId := chatId;
      lastSendTimestamp := now;
    }

    /** Creates a topic in this credential's chat; the send time is left alone. */
    method CreateForumTopic(name: string) returns (r: Result<int>)
      modifies bot
      ensures bot.fetches == old(bot.fetches)
      ensures r.Success? ==> r.value > 0
      ensures bot.calls == old(bot.calls) + [ApiCall(Request.CreateForumTopic(chatId, name),
                                                     if r.Success? then [r.value] else [])]
    {
      r := bot.CreateForumTopic(chatId, name);
    }

    /** Records the send time, then sends to this credential's chat (the time is kept even if the send fails). */
    method SendMessage(text: string, replyToMessageId: Option<int>, messageThreadId: int, now: int)
      returns (r: Result<TgMessage>)
      modifies this, bot
      ensures lastSendTimestamp == now
      ensures bot.fetches == old(bot.fetches)
      ensures r.Success? ==> r.value.fromUserId == bot.me
      ensures bot.calls == old(bot.calls) + [ApiCall(Request.SendMessage(chatId, text, replyToMessageId, messageThreadId),
                                                     if r.Success? then [r.value.messageId] else [])]
    {
      lastSendTimestamp := now;
      r := bot.SendMessage(chatId, text, replyToMessageId, messageThreadId);
    }

    /** Records the send time, then sends an album to this credential's chat. */
    method SendMediaGroup(media: seq<InputMedia>, caption: string, replyToMessageId: Option<int>,
                          messageThreadId: int, now: int)
      returns (r: Result<seq<TgMessage>>)
      modifies this, bot
      ensures lastSendTimestamp == now
      ensures bot.fetches == old(bot.fetches)
      ensures r.Success? ==> |r.value| == |media| && forall i | 0 <= i < |r.value| :: r.value[i].fromUserId == bot.me
      ensures bot.calls == old(bot.calls) + [ApiCall(Request.SendMediaGroup(chatId, media, caption, replyToMessageId, messageThreadId),
                                                     if r.Success? then MessageIds(r.value) else [])]
    {
      lastSendTimestamp := now;
      r := bot.SendMediaGroup(chatId, media, caption, replyToMessageId, messageThreadId);
    }
  }
}
