/**
 * The relay engine of bot.py: conversation ids, the segment converter, the
 * get-or-create topic registry, credential choice, and the two handlers that
 * move a message across and record the correlation.
 */
module Bot {
  import opened Wrappers
  import opened Html
  import opened Store
  import opened Qq
  import opened Telegram

  // ---------------------------------------------------------------- conversation ids

  /** The signed id under which a QQ conversation is stored: groups negative, friends positive. */
  function UniqueId(chatType: ChatType, peerUin: int): int
  {
    match chatType
    case Group => -peerUin
    case Friend => peerUin
  }

  /** The reverse handler's reading of a stored id: positive is a friend, anything else a group. */
  function PeerOf(uniqueId: int): (ChatType, int)
  {
    if uniqueId > 0 then (Friend, uniqueId) else (Group, -uniqueId)
  }

  /** Decoding recovers the chat type and account of any real (positive) QQ number. */
  lemma PeerOfUniqueId(chatType: ChatType, peerUin: int)
    requires peerUin > 0
    ensures PeerOf(UniqueId(chatType, peerUin)) == (chatType, peerUin)
  {
  }

  /** Encoding what was decoded gives back the stored id, for every id. */
  lemma UniqueIdOfPeer(uniqueId: int)
    ensures UniqueId(PeerOf(uniqueId).0, PeerOf(uniqueId).1) == uniqueId
  {
  }

  // ---------------------------------------------------------------- segment conversion

  function DigitChar(d: nat): char
    requires d < 10
  {
    "0123456789"[d]
  }

  function Digits(n: nat): string
  {
    if n < 10 then [DigitChar(n)] else Digits(n / 10) + [DigitChar(n % 10)]
  }

  /** Python's `str(n)` for an int. */
  function Decimal(n: int): string
  {
    if n < 0 then "-" + Digits(-n) else Digits(n)
  }

  /** What one segment adds to the text; `masterId` is the first credential's bot id. */
  function Contribution(seg: Segment, masterId: int): string
  {
    match seg
    case Text(t) => Escape(t)
    case At(userName) => "<a href=\"tg://user?id=" + Decimal(masterId) + "\">@" + Escape(userName) + "</a>"
    case Face(faceId) => "[face:" + Decimal(faceId) + "]"
    case MarketFace(faceName) => "[market_face:" + faceName + "]"
    case Image(_) => "[image]"
    case File(_) => "[file]"
    case Voice(_) => "[voice]"
    case Video(_) => "[video]"
    case Unsupported(kind) => "[" + kind + "]"
  }

  /** The attachment a media segment becomes once its file is downloaded. */
  function Attach(seg: Segment, data: Blob): InputMedia
    requires seg.IsMedia()
  {
    match seg
    case Image(_) => Photo(data)
    case File(_) => Document(data)
    case Voice(_) => Audio(data)
    case Video(_) => VideoMedia(data)
  }

  /** The converted text: the contributions of the segments, in segment order. */
  function ConvertedText(segs: seq<Segment>, masterId: int): string
  {
    if segs == [] then ""
    else ConvertedText(segs[..|segs| - 1], masterId) + Contribution(segs[|segs| - 1], masterId)
  }

  /** The attachments: one per media segment, in segment order. */
  function MediaItems(segs: seq<Segment>): seq<InputMedia>
  {
    if segs == [] then []
    else
      var last := segs[|segs| - 1];
      MediaItems(segs[..|segs| - 1]) + if last.IsMedia() then [Attach(last, Bytes(last.file))] else []
  }

  /** The media segments of a message, in order. */
  function MediaSegments(segs: seq<Segment>): (r: seq<Segment>)
    ensures forall k | 0 <= k < |r| :: r[k].IsMedia()
  {
    if segs == [] then []
    else
      var last := segs[|segs| - 1];
      MediaSegments(segs[..|segs| - 1]) + if last.IsMedia() then [last] else []
  }

  /** One segment is kept exactly when it is a media segment. */
  lemma MediaSegmentsOne(seg: Segment)
    ensures MediaSegments([seg]) == if seg.IsMedia() then [seg] else []
  {
    assert [seg][..0] == [];
  }

  /** The media segments of a concatenation are those of each part, in order. */
  lemma {:induction false} MediaSegmentsAppend(a: seq<Segment>, b: seq<Segment>)
    ensures MediaSegments(a + b) == MediaSegments(a) + MediaSegments(b)
  {
    if b == [] {
      assert a + b == a;
    } else {
      assert (a + b)[..|a + b| - 1] == a + b[..|b| - 1];
      MediaSegmentsAppend(a, b[..|b| - 1]);
    }
  }

  /** A message whose segments are all media keeps every one of them, in order. */
  lemma {:induction false} MediaSegmentsKeepsMedia(segs: seq<Segment>)
    requires forall k | 0 <= k < |segs| :: segs[k].IsMedia()
    ensures MediaSegments(segs) == segs
  {
    if segs != [] {
      MediaSegmentsKeepsMedia(segs[..|segs| - 1]);
      assert segs[..|segs| - 1] + [segs[|segs| - 1]] == segs;
    }
  }

  /** The texts of a message made of text segments only, joined. */
  function JoinTexts(segs: seq<Segment>): string
    requires forall k | 0 <= k < |segs| :: segs[k].Text?
  {
    if segs == [] then "" else JoinTexts(segs[..|segs| - 1]) + segs[|segs| - 1].text
  }

  datatype Converted = Converted(text: string, media: seq<InputMedia>)

  /** Converting a concatenation converts each part, in order. */
  lemma {:induction false} ConvertedTextAppend(a: seq<Segment>, b: seq<Segment>, masterId: int)
    ensures ConvertedText(a + b, masterId) == ConvertedText(a, masterId) + ConvertedText(b, masterId)
  {
    if b == [] {
      assert a + b == a;
    } else {
      var init := b[..|b| - 1];
      var tail := Contribution(b[|b| - 1], masterId);
      assert (a + b)[..|a + b| - 1] == a + init && (a + b)[|a + b| - 1] == b[|b| - 1];
      assert ConvertedText(a + b, masterId) == ConvertedText(a + init, masterId) + tail;
      assert ConvertedText(b, masterId) == ConvertedText(init, masterId) + tail;
      ConvertedTextAppend(a, init, masterId);
    }
  }

  /** Attachments of a concatenation are those of each part, in order. */
  lemma {:induction false} MediaItemsAppend(a: seq<Segment>, b: seq<Segment>)
    ensures MediaItems(a + b) == MediaItems(a) + MediaItems(b)
  {
    if b == [] {
      assert a + b == a;
    } else {
      assert (a + b)[..|a + b| - 1] == a + b[..|b| - 1];
      MediaItemsAppend(a, b[..|b| - 1]);
    }
  }

  /** The k-th attachment comes from the k-th media segment and has its kind; nothing else adds one. */
  lemma {:induction false} MediaItemsFollowSegments(segs: seq<Segment>)
    ensures |MediaItems(segs)| == |MediaSegments(segs)|
    ensures forall k | 0 <= k < |MediaSegments(segs)| ::
      var s := MediaSegments(segs)[k]; MediaItems(segs)[k] == Attach(s, Bytes(s.file))
  {
    if segs != [] {
      MediaItemsFollowSegments(segs[..|segs| - 1]);
    }
  }

  /** A message of text segments only converts to its escaped joined text and no attachments. */
  lemma {:induction false} PlainTextConversion(segs: seq<Segment>, masterId: int)
    requires forall k | 0 <= k < |segs| :: segs[k].Text?
    ensures ConvertedText(segs, masterId) == Escape(JoinTexts(segs))
    ensures MediaItems(segs) == []
  {
    if segs != [] {
      var init := segs[..|segs| - 1];
      PlainTextConversion(init, masterId);
      EscapeAppend(JoinTexts(init), segs[|segs| - 1].text);
    }
  }

  // ---------------------------------------------------------------- credential choice

  /** Index of the first id equal to `id`, or `|ids|` if there is none. */
  function FirstIndexOf(ids: seq<int>, id: int): (k: nat)
    ensures k <= |ids|
    ensures forall j | 0 <= j < k :: ids[j] != id
    ensures k < |ids| ==> ids[k] == id
  {
    if ids == [] then 0
    else if ids[0] == id then 0
    else 1 + FirstIndexOf(ids[1..], id)
  }

  /**
   * The first element of the credentials sorted by last send time: `sorted` is
   * stable, so among equal times the earliest in list order wins.
   */
  function LeastRecentlyUsed(ts: seq<int>): (k: nat)
    requires |ts| > 0
    ensures k < |ts|
    ensures forall j | 0 <= j < |ts| :: ts[k] <= ts[j]
    ensures forall j | 0 <= j < k :: ts[j] > ts[k]
  {
    if |ts| == 1 then 0
    else
      var k := LeastRecentlyUsed(ts[1..]);
      if ts[0] <= ts[1 + k] then 0 else 1 + k
  }

  /**
   * Load spreading: when a credential chosen by least recent use sends at a
   * time later than every recorded send, the next choice falls on another one.
   */
  lemma NextChoiceDiffers(ts: seq<int>, now: int)
    requires |ts| >= 2
    requires forall j | 0 <= j < |ts| :: ts[j] < now
    ensures LeastRecentlyUsed(ts[LeastRecentlyUsed(ts) := now]) != LeastRecentlyUsed(ts)
  {
    var k := LeastRecentlyUsed(ts);
    var ts' := ts[k := now];
    var other := if k == 0 then 1 else 0;
    assert ts'[other] == ts[other] < now;
  }

  /** The bot id of each credential, in list order. */
  function BotIds(apps: seq<TelegramApp>): seq<int>
  {
    seq(|apps|, i requires 0 <= i < |apps| => apps[i].bot.me)
  }

  function Timestamps(apps: seq<TelegramApp>): (ts: seq<int>)
    reads set a | a in apps
    ensures |ts| == |apps| && forall i | 0 <= i < |apps| :: ts[i] == apps[i].lastSendTimestamp
  {
    if apps == [] then [] else [apps[0].lastSendTimestamp] + Timestamps(apps[1..])
  }

  /** The text actually sent: an empty text becomes "(empty)". */
  function OutText(text: string): string
  {
    if text == "" then "(empty)" else text
  }

  /** The message replied to, taken from a stored correlation. */
  function ReplyId(reply: Option<DBMessage>): Option<int>
  {
    if reply.Some? then Some(reply.value.tgMessageId) else None
  }

  /** The request `tg_send_message` makes: an album with the text as caption, or a plain message. */
  function Outgoing(chatId: int, text: string, media: seq<InputMedia>, reply: Option<DBMessage>, threadId: int): Request
  {
    if |media| > 0 then SendMediaGroup(chatId, media, OutText(text), ReplyId(reply), threadId)
    else SendMessage(chatId, OutText(text), ReplyId(reply), threadId)
  }

  /** An inbound Telegram message as a QQ message: the photo if any, then the text or else the caption. */
  function Outbound(update: TgUpdate): seq<OutSegment>
  {
    var text := if update.text.Some? && update.text.value != "" then update.text else update.caption;
    (if update.photo.Some? then [ImageData(Bytes(update.photo.value))] else []) + [TextData(text)]
  }

  /** The first line of a relayed group message, naming the sender. */
  function GroupHeader(event: MessageEvent): string
    requires event.GroupMessage?
  {
    var name := if event.sendMemberName != "" then event.sendMemberName else event.sendNickName;
    "<u><b>" + name + "</b>:</u>\n"
  }

  /** The header of a relayed message: a group message names its sender, a private one has none. */
  function Header(event: MessageEvent): string
  {
    if event.GroupMessage? then GroupHeader(event) else ""
  }

  /** The correlation stored for the message a QQ event replies to, if it replies and one is stored. */
  function StoredReply(rows: seq<DBMessage>, uniqueId: int, replySeq: Option<int>): Option<DBMessage>
  {
    if replySeq.Some? then MessageOf(rows, uniqueId, replySeq.value) else None
  }

  /** The log a conversion leaves when every download succeeds: one good fetch per media segment, in order. */
  function FetchedOk(segs: seq<Segment>): seq<Fetch>
  {
    if segs == [] then []
    else
      var last := segs[|segs| - 1];
      FetchedOk(segs[..|segs| - 1]) + if last.IsMedia() then [Fetch(last.file, true)] else []
  }

  /**
   * A conversion stopped at media segment `i`: the download log grew by the
   * good fetches of the media before it, then by the failed fetch of its file.
   */
  ghost predicate DownloadFailed(message: seq<Segment>, before: seq<Fetch>, after: seq<Fetch>)
  {
    exists i | 0 <= i < |message| ::
      message[i].IsMedia() && after == before + FetchedOk(message[..i]) + [Fetch(message[i].file, false)]
  }

  /** One more segment extends the text, the attachments and the download log by that segment's share. */
  lemma ConversionStep(message: seq<Segment>, i: nat, masterId: int)
    requires i < |message|
    ensures ConvertedText(message[..i + 1], masterId) == ConvertedText(message[..i], masterId) + Contribution(message[i], masterId)
    ensures MediaItems(message[..i + 1]) ==
      MediaItems(message[..i]) + if message[i].IsMedia() then [Attach(message[i], Bytes(message[i].file))] else []
    ensures FetchedOk(message[..i + 1]) ==
      FetchedOk(message[..i]) + if message[i].IsMedia() then [Fetch(message[i].file, true)] else []
  {
    assert message[..i + 1][..i] == message[..i];
  }

  /** Every fetch a conversion logs when all its downloads succeed is a good one. */
  lemma {:induction false} FetchedOkAllGood(segs: seq<Segment>)
    ensures forall k | 0 <= k < |FetchedOk(segs)| :: FetchedOk(segs)[k].ok
  {
    if segs != [] {
      FetchedOkAllGood(segs[..|segs| - 1]);
    }
  }

  /** The log of a conversion that downloaded every file is never that of one stopped by a failed download. */
  lemma CompletedIsNotFailed(message: seq<Segment>, before: seq<Fetch>)
    ensures !DownloadFailed(message, before, before + FetchedOk(message))
  {
    FetchedOkAllGood(message);
    forall i | 0 <= i < |message| && message[i].IsMedia()
      ensures before + FetchedOk(message) != before + FetchedOk(message[..i]) + [Fetch(message[i].file, false)]
    {
      var done := before + FetchedOk(message);
      var stopped := before + FetchedOk(message[..i]) + [Fetch(message[i].file, false)];
      if |done| == |stopped| {
        assert done[|done| - 1].ok && !stopped[|stopped| - 1].ok;
      }
    }
  }

  /** The topic a relay of conversation `u` uses: the stored non-zero one, or the one in the row it added. */
  ghost function ResolvedTopic(before: seq<ForumTopicRow>, after: seq<ForumTopicRow>, u: int): int
  {
    var found := TopicOfChat(before, u);
    if found.Some? && found.value != 0 then found.value
    else if |after| > |before| then after[|before|].tgForumTopicId
    else 0
  }

  /**
   * Conversation `u` had no non-zero topic, and the one request the creating
   * client made (its log went from `oldCalls` to `calls`), creating topic
   * `name` in chat `chatId`, returned nothing; the topic table is as it was.
   */
  ghost predicate TopicRefused(before: seq<ForumTopicRow>, after: seq<ForumTopicRow>, u: int,
                               name: string, chatId: int, oldCalls: seq<ApiCall>, calls: seq<ApiCall>)
  {
    var found := TopicOfChat(before, u);
    && !(found.Some? && found.value != 0)
    && after == before
    && calls == oldCalls + [ApiCall(Request.CreateForumTopic(chatId, name), [])]
  }

  /**
   * Conversation `u` was resolved to topic `t`: a stored non-zero topic is
   * reused and the topic table stays as it was; otherwise the next request of
   * the creating client (whose log went from `oldCalls` to `calls`) created
   * topic `t` named `name` in chat `chatId`, and one row `(u, t)` was added.
   * After that the client made one more request if `alsoSent`, none otherwise.
   */
  ghost predicate TopicResolved(before: seq<ForumTopicRow>, after: seq<ForumTopicRow>, u: int, t: int,
                                name: string, chatId: int, oldCalls: seq<ApiCall>, calls: seq<ApiCall>,
                                alsoSent: bool)
  {
    var found := TopicOfChat(before, u);
    var created: seq<ApiCall> :=
      if found.Some? && found.value != 0 then [] else [ApiCall(Request.CreateForumTopic(chatId, name), [t])];
    && (if found.Some? && found.value != 0 then t == found.value && after == before
        else t > 0 && after == before + [ForumTopicRow(u, t)])
    && |calls| == |oldCalls| + |created| + (if alsoSent then 1 else 0)
    && calls[..|oldCalls| + |created|] == oldCalls + created
  }

  /**
   * A topic lookup that resolved conversation `u` to `t`, followed by a step
   * that kept the topic table and made one more request of the creating
   * client if `alsoSent` and none otherwise.
   */
  lemma ResolvedThenSent(before: seq<ForumTopicRow>, mid: seq<ForumTopicRow>, after: seq<ForumTopicRow>,
                         u: int, t: int, name: string, chatId: int,
                         calls0: seq<ApiCall>, calls1: seq<ApiCall>, calls2: seq<ApiCall>, alsoSent: bool)
    requires var found := TopicOfChat(before, u);
      if found.Some? && found.value != 0 then t == found.value && mid == before && calls1 == calls0
      else calls1 == calls0 + [ApiCall(Request.CreateForumTopic(chatId, name), [t])]
           && t > 0 && mid == before + [ForumTopicRow(u, t)]
    requires after == mid
    requires if alsoSent then |calls2| == |calls1| + 1 && calls2[..|calls1|] == calls1 else calls2 == calls1
    ensures ResolvedTopic(before, after, u) == t
    ensures !TopicRefused(before, after, u, name, chatId, calls0, calls2)
    ensures TopicResolved(before, after, u, t, name, chatId, calls0, calls2, alsoSent)
  {
  }

  /** The conversation id of a QQ message event. */
  function ConversationId(event: MessageEvent): int
    requires !event.OtherEvent?
  {
    UniqueId(if event.GroupMessage? then Group else Friend, event.peerUin)
  }

  /** The name a new topic gets: the group's name, or the friend's nickname. */
  function TopicName(event: MessageEvent): string
    requires !event.OtherEvent?
  {
    if event.GroupMessage? then event.peerName else event.sendNickName
  }

  datatype Outcome = Relayed(row: DBMessage) | Ignored | Failed(error: string)

  /**
   * Credential `app` made `request` as its latest call at time `now`; the
   * relay succeeded exactly when Telegram returned message ids, and then `row`
   * correlates QQ message `msgSeq` of conversation `u` with the first of them,
   * sent by this credential's bot in topic `topic`.
   */
  ghost predicate Dispatched(app: TelegramApp, request: Request, u: int, msgSeq: int, topic: int, now: int,
                             outcome: Outcome)
    reads app, app.bot
  {
    && app.lastSendTimestamp == now
    && |app.bot.calls| > 0
    && var call := app.bot.calls[|app.bot.calls| - 1];
       && call.request == request
       && !outcome.Ignored?
       && (outcome.Relayed? <==> |call.returned| > 0)
       && (outcome.Relayed? ==> outcome.row == DBMessage(u, msgSeq, app.bot.me, topic, call.returned[0]))
  }

  /**
   * Credential `app` made exactly one request, `request`, and downloaded
   * nothing, with the outcome that request decided (`Dispatched`).
   */
  twostate predicate SentOnce(app: TelegramApp, request: Request, u: int, msgSeq: int, topic: int, now: int,
                              outcome: Outcome)
    reads app, app.bot
  {
    && |app.bot.calls| == |old(app.bot.calls)| + 1
    && app.bot.calls[..|old(app.bot.calls)|] == old(app.bot.calls)
    && app.bot.fetches == old(app.bot.fetches)
    && Dispatched(app, request, u, msgSeq, topic, now, outcome)
  }

  // ---------------------------------------------------------------- the relay

  /** The process-wide state of bot.py: the database, the QQ bot and the Telegram credentials. */
  class Relay {
    const db: Database
    const qq: QqBot
    const telegrams: seq<TelegramApp>

    /** At least one credential (the module fails to load without one); distinct credentials have distinct clients. */
    ghost predicate Valid()
    {
      && |telegrams| > 0
      && forall i, j | 0 <= i < |telegrams| && 0 <= j < |telegrams| && i != j ::
           telegrams[i] != telegrams[j] && telegrams[i].bot != telegrams[j].bot
    }

    ghost function Apps(): set<TelegramApp>
    {
      set a | a in telegrams
    }

    ghost function Bots(): set<TgBot>
    {
      set a | a in telegrams :: a.bot
    }

    constructor (db: Database, qq: QqBot, telegrams: seq<TelegramApp>)
      requires |telegrams| > 0
      requires forall i, j | 0 <= i < |telegrams| && 0 <= j < |telegrams| && i != j ::
                 telegrams[i] != telegrams[j] && telegrams[i].bot != telegrams[j].bot
      ensures Valid() && this.db == db && this.qq == qq && this.telegrams == telegrams
    {
      this.db := db;
      this.qq := qq;
      this.telegrams := telegrams;
    }

    /** `telegram_master()`: the first credential. */
    function Master(): TelegramApp
      requires Valid()
    {
      telegrams[0]
    }

    function MasterId(): int
      requires Valid()
    {
      telegrams[0].bot.me
    }

    /** `telegram_load_balance()`: a credential that sent least recently, the earliest of those in list order. */
    function TelegramLoadBalance(): (t: TelegramApp)
      requires Valid()
      reads Apps()
      ensures t in telegrams
      ensures forall a | a in telegrams :: t.lastSendTimestamp <= a.lastSendTimestamp
      ensures t == telegrams[LeastRecentlyUsed(Timestamps(telegrams))]
    {
      telegrams[LeastRecentlyUsed(Timestamps(telegrams))]
    }

    /** What `telegram_by_id(id)` answers: the first credential whose bot is `id`, or `None`. */
    function TelegramWithId(id: int): Option<TelegramApp>
    {
      var k := FirstIndexOf(BotIds(telegrams), id);
      if k < |telegrams| then Some(telegrams[k]) else None
    }

    /** `telegram_by_id`: a search in list order. */
    method TelegramById(id: int) returns (r: Option<TelegramApp>)
      ensures r == TelegramWithId(id)
      ensures r.Some? ==> r.value in telegrams && r.value.bot.me == id
      ensures r.None? ==> forall a | a in telegrams :: a.bot.me != id
    {
      var i := 0;
      while i < |telegrams|
        invariant i <= |telegrams|
        invariant forall j | 0 <= j < i :: telegrams[j].bot.me != id && BotIds(telegrams)[j] != id
      {
        if telegrams[i].bot.me == id {
          assert BotIds(telegrams)[i] == id;
          return Some(telegrams[i]);
        }
        i := i + 1;
      }
      return None;
    }

    /**
     * The credential `tg_send_message` uses: with a stored reply, the one that
     * owns the replied-to message (if it is still configured); otherwise the
     * least recently used one.
     */
    function ChooseCredential(reply: Option<DBMessage>): (c: Option<TelegramApp>)
      requires Valid()
      reads Apps()
      ensures c.Some? ==> c.value in telegrams
      ensures reply.Some? ==> (c.Some? <==> reply.value.tgBotId in BotIds(telegrams))
      ensures reply.Some? && c.Some? ==> c.value.bot.me == reply.value.tgBotId
      ensures reply.None? ==> c.Some? && forall a | a in telegrams :: c.value.lastSendTimestamp <= a.lastSendTimestamp
    {
      if reply.Some? then TelegramWithId(reply.value.tgBotId) else Some(TelegramLoadBalance())
    }

    /** What a send replying to `reply` may change: the chosen credential and its client, or nothing. */
    ghost function SendFrame(reply: Option<DBMessage>): set<object>
      requires Valid()
      reads Apps()
    {
      CredentialFrame(ChooseCredential(reply))
    }

    /** What a send through `sender` may change: that credential and its client. */
    ghost function CredentialFrame(sender: Option<TelegramApp>): set<object>
    {
      if sender.Some? then {sender.value, sender.value.bot} else {}
    }

    /** The choice of credential and what a send may change depend only on the credentials' own state. */
    twostate lemma ChoiceKept(reply: Option<DBMessage>)
      requires Valid()
      requires forall a | a in telegrams :: unchanged(a)
      ensures ChooseCredential(reply) == old(ChooseCredential(reply))
      ensures SendFrame(reply) == old(SendFrame(reply))
    {
    }

    /**
     * `get_forum_topic`: the topic stored for the conversation if there is a
     * non-zero one; otherwise one new topic created by the first credential and
     * stored. A failed creation stores nothing.
     */
    method GetForumTopic(uniqueId: int, name: string) returns (r: Result<int>)
      requires Valid()
      modifies db, Master().bot
      ensures db.message == old(db.message)
      ensures Master().bot.fetches == old(Master().bot.fetches)
      ensures var found := TopicOfChat(old(db.forumTopic), uniqueId);
        if found.Some? && found.value != 0 then
          && r == Success(found.value)
          && db.forumTopic == old(db.forumTopic)
          && Master().bot.calls == old(Master().bot.calls)
        else
          && Master().bot.calls == old(Master().bot.calls) +
               [ApiCall(Request.CreateForumTopic(Master().chatId, name), if r.Success? then [r.value] else [])]
          && (r.Success? ==> r.value > 0 && db.forumTopic == old(db.forumTopic) + [ForumTopicRow(uniqueId, r.value)])
          && (r.Failure? ==> db.forumTopic == old(db.forumTopic))
    {
      var topicId := db.SelectTgForumTopicId(uniqueId);
      if topicId.None? || topicId.value == 0 {
        var created := Master().CreateForumTopic(name);
        if created.Failure? {
          return Failure(created.error);
        }
        db.InsertForumTopic(DBForumTopic(created.value, uniqueId));
        r := Success(created.value);
      } else {
        r := Success(topicId.value);
      }
    }

    /** Two sequential lookups for a new conversation: one creation, and both return the same topic. */
    method GetForumTopicTwice(uniqueId: int, name: string) returns (first: Result<int>, second: Result<int>)
      requires Valid()
      requires TopicOfChat(db.forumTopic, uniqueId).None?
      modifies db, Master().bot
      ensures first.Success? ==> second == first
      ensures first.Success? ==>
        Master().bot.calls == old(Master().bot.calls) + [ApiCall(Request.CreateForumTopic(Master().chatId, name), [first.value])]
    {
      first := GetForumTopic(uniqueId, name);
      if first.Success? {
        TopicOfChatAfterInsert(old(db.forumTopic), ForumTopicRow(uniqueId, first.value), uniqueId);
      }
      second := GetForumTopic(uniqueId, name);
    }

    /**
     * Two lookups for a conversation whose first stored topic is 0: each one
     * asks the first credential for a new topic, and the lookup still answers 0.
     */
    method GetForumTopicZero(uniqueId: int, name: string) returns (first: Result<int>, second: Result<int>)
      requires Valid()
      requires TopicOfChat(db.forumTopic, uniqueId) == Some(0)
      modifies db, Master().bot
      ensures TopicOfChat(db.forumTopic, uniqueId) == Some(0)
      ensures Master().bot.calls == old(Master().bot.calls) +
        [ApiCall(Request.CreateForumTopic(Master().chatId, name), if first.Success? then [first.value] else []),
         ApiCall(Request.CreateForumTopic(Master().chatId, name), if second.Success? then [second.value] else [])]
    {
      first := GetForumTopic(uniqueId, name);
      if first.Success? {
        ZeroTopicKept(old(db.forumTopic), first.value, uniqueId);
      }
      ghost var rows := db.forumTopic;
      second := GetForumTopic(uniqueId, name);
      if second.Success? {
        ZeroTopicKept(rows, second.value, uniqueId);
      }
    }

    /**
     * `convert_message`: the text and attachments of a QQ message. The file of
     * each media segment is downloaded in order, and the first failed download
     * ends the conversion with that failure.
     */
    method ConvertMessage(message: seq<Segment>) returns (r: Result<Converted>)
      requires Valid()
      modifies qq
      ensures qq.sent == old(qq.sent)
      ensures r.Success? ==>
        && r.value == Converted(ConvertedText(message, MasterId()), MediaItems(message))
        && qq.fetches == old(qq.fetches) + FetchedOk(message)
      ensures r.Failure? ==> DownloadFailed(message, old(qq.fetches), qq.fetches)
    {
      var text := "";
      var media := [];
      for i := 0 to |message|
        invariant text == ConvertedText(message[..i], MasterId())
        invariant media == MediaItems(message[..i])
        invariant qq.fetches == old(qq.fetches) + FetchedOk(message[..i])
        invariant qq.sent == old(qq.sent)
      {
        var seg := message[i];
        ConversionStep(message, i, MasterId());
        text := text + Contribution(seg, MasterId());
        if seg.IsMedia() {
          var data := qq.Download(seg.file);
          if data.Failure? {
            assert qq.fetches == old(qq.fetches) + FetchedOk(message[..i]) + [Fetch(message[i].file, false)];
            return Failure(data.error);
          }
          media := media + [Attach(seg, data.value)];
        }
      }
      assert message[..|message|] == message;
      r := Success(Converted(text, media));
    }

    /**
     * `tg_send_message`: sends through the chosen credential, which records
     * the send time; no credential for a stored reply is a failure, and then
     * `SendFrame` is empty and nothing changes. The send succeeds exactly when
     * Telegram returned messages, and the result is the first of them.
     */
    method TgSendMessage(text: string, media: seq<InputMedia>, reply: Option<DBMessage>, threadId: int, now: int)
      returns (r: Result<TgMessage>)
      requires Valid()
      modifies SendFrame(reply)
      ensures var c := old(ChooseCredential(reply));
        && (c.None? ==> r.Failure?)
        && (c.Some? ==>
             var app := c.value;
             && app.lastSendTimestamp == now
             && ((forall a | a in telegrams :: old(a.lastSendTimestamp) <= now) ==>
                   forall a | a in telegrams :: old(a.lastSendTimestamp) <= app.lastSendTimestamp)
             && |app.bot.calls| == |old(app.bot.calls)| + 1
             && app.bot.calls[..|old(app.bot.calls)|] == old(app.bot.calls)
             && app.bot.calls[|old(app.bot.calls)|].request == Outgoing(app.chatId, text, media, reply, threadId)
             && app.bot.fetches == old(app.bot.fetches)
             && (r.Success? <==> |app.bot.calls[|old(app.bot.calls)|].returned| > 0)
             && (r.Success? ==>
                   && r.value.fromUserId == app.bot.me
                   && r.value.messageId == app.bot.calls[|old(app.bot.calls)|].returned[0]))
    {
      var out := if text == "" then "(empty)" else text;
      var replyId: Option<int> := None;
      var tg: Option<TelegramApp>;
      if reply.Some? {
        tg := TelegramById(reply.value.tgBotId);
        replyId := Some(reply.value.tgMessageId);
      } else {
        tg := Some(TelegramLoadBalance());
      }
      if tg.None? {
        return Failure("'NoneType' object has no attribute 'send_message'");
      }
      var app := tg.value;
      if |media| > 0 {
        var msgs := app.SendMediaGroup(media, out, replyId, threadId, now);
        r := if msgs.Success? then Success(msgs.value[0]) else Failure(msgs.error);
      } else {
        r := app.SendMessage(out, replyId, threadId, now);
      }
    }

    /**
     * A QQ message converted and sent in `topic`, replying to `reply`: a failed
     * download ends it with the chosen credential untouched; otherwise, with no
     * credential for the reply it fails, and with one that credential makes
     * exactly one request, whose answer decides the outcome.
     */
    twostate predicate ConvertedAndSent(uniqueId: int, msgSeq: int, header: string, message: seq<Segment>,
                                        reply: Option<DBMessage>, topic: int, now: int, outcome: Outcome)
      requires Valid()
      reads db, qq, Apps(), Bots()
    {
      var c := old(ChooseCredential(reply));
      && !outcome.Ignored?
      && db.forumTopic == old(db.forumTopic)
      && qq.sent == old(qq.sent)
      && db.message == old(db.message) + (if outcome.Relayed? then [outcome.row] else [])
      && if DownloadFailed(message, old(qq.fetches), qq.fetches) then
           outcome.Failed? && (c.Some? ==> unchanged(c.value) && unchanged(c.value.bot))
         else
           && qq.fetches == old(qq.fetches) + FetchedOk(message)
           && (c.None? ==> outcome.Failed?)
           && (c.Some? ==>
                 SentOnce(c.value, Outgoing(c.value.chatId, header + ConvertedText(message, MasterId()),
                                            MediaItems(message), reply, topic),
                          uniqueId, msgSeq, topic, now, outcome))
    }

    /**
     * One forwarded QQ message of conversation `uniqueId`. When the
     * conversation needs a topic, the first credential's creation request may
     * come back empty: that ends it, with only that request made. Otherwise the
     * message is converted and sent in the resolved topic as `ConvertedAndSent`
     * says, replying to the stored correlation of `replySeq`; the first
     * credential's log holds the creation, if any, then its own send, if the
     * message went through it. No Telegram client downloads anything.
     */
    twostate predicate Forwarded(uniqueId: int, topicName: string, header: string, msgSeq: int,
                                 replySeq: Option<int>, message: seq<Segment>, now: int, outcome: Outcome)
      requires Valid()
      reads db, qq, Apps(), Bots()
    {
      var reply := StoredReply(old(db.message), uniqueId, replySeq);
      var c := old(ChooseCredential(reply));
      var master := Master().bot;
      var t := ResolvedTopic(old(db.forumTopic), db.forumTopic, uniqueId);
      var failed := DownloadFailed(message, old(qq.fetches), qq.fetches);
      var request := if c.Some? then Outgoing(c.value.chatId, header + ConvertedText(message, MasterId()),
                                              MediaItems(message), reply, t)
                     else Request.CreateForumTopic(0, "");
      && !outcome.Ignored?
      && qq.sent == old(qq.sent)
      && db.message == old(db.message) + (if outcome.Relayed? then [outcome.row] else [])
      && master.fetches == old(master.fetches)
      && if TopicRefused(old(db.forumTopic), db.forumTopic, uniqueId, topicName, Master().chatId,
                         old(master.calls), master.calls) then
           && outcome.Failed?
           && qq.fetches == old(qq.fetches)
           && (c.Some? ==> unchanged(c.value) && (c.value != Master() ==> unchanged(c.value.bot)))
         else
           && TopicResolved(old(db.forumTopic), db.forumTopic, uniqueId, t, topicName, Master().chatId,
                            old(master.calls), master.calls, !failed && c == Some(Master()))
           && if failed then
                && outcome.Failed?
                && (c.Some? ==> unchanged(c.value) && (c.value != Master() ==> unchanged(c.value.bot)))
              else
                && qq.fetches == old(qq.fetches) + FetchedOk(message)
                && (c.None? ==> outcome.Failed?)
                && (c.Some? && c.value != Master() ==> SentOnce(c.value, request, uniqueId, msgSeq, t, now, outcome))
                && (c.Some? && c.value == Master() ==> Dispatched(c.value, request, uniqueId, msgSeq, t, now, outcome))
    }

    /**
     * One forwarded QQ message: topic, stored reply, conversion, send, and one
     * correlation row. Only the first credential's client and the credential
     * the send chooses may change.
     */
    method Forward(uniqueId: int, topicName: string, header: string, msgSeq: int, replySeq: Option<int>,
                   message: seq<Segment>, now: int)
      returns (outcome: Outcome)
      requires Valid()
      modifies db, qq, Master().bot, SendFrame(StoredReply(db.message, uniqueId, replySeq))
      ensures Forwarded(uniqueId, topicName, header, msgSeq, replySeq, message, now, outcome)
    {
      ghost var reply := StoredReply(db.message, uniqueId, replySeq);
      ghost var c := ChooseCredential(reply);
      var topic := GetForumTopic(uniqueId, topicName);
      if topic.Failure? {
        return Failed(topic.error);
      }
      ChoiceKept(reply);
      assert StoredReply(db.message, uniqueId, replySeq) == reply;
      label Resolved:
      outcome := RelayInTopic(uniqueId, msgSeq, header, replySeq, message, topic.value, now);
      ResolvedThenSent(old(db.forumTopic), old@Resolved(db.forumTopic), db.forumTopic, uniqueId, topic.value,
                       topicName, Master().chatId, old(Master().bot.calls), old@Resolved(Master().bot.calls),
                       Master().bot.calls,
                       !DownloadFailed(message, old@Resolved(qq.fetches), qq.fetches) &&
                       c == Some(Master()));
    }

    /** The part of a forwarded message after its topic is known: the stored reply, then conversion and send. */
    method RelayInTopic(uniqueId: int, msgSeq: int, header: string, replySeq: Option<int>,
                        message: seq<Segment>, topic: int, now: int)
      returns (outcome: Outcome)
      requires Valid()
      modifies db, qq, SendFrame(StoredReply(db.message, uniqueId, replySeq))
      ensures ConvertedAndSent(uniqueId, msgSeq, header, message, StoredReply(old(db.message), uniqueId, replySeq),
                               topic, now, outcome)
      ensures var sent := !DownloadFailed(message, old(qq.fetches), qq.fetches) &&
                           old(ChooseCredential(StoredReply(db.message, uniqueId, replySeq))) == Some(Master());
        if sent then |Master().bot.calls| == |old(Master().bot.calls)| + 1 &&
                     Master().bot.calls[..|old(Master().bot.calls)|] == old(Master().bot.calls)
        else Master().bot.calls == old(Master().bot.calls)
    {
      var reply: Option<DBMessage> := None;
      if replySeq.Some? {
        reply := db.SelectMessageWhereQq(uniqueId, replySeq.value);
      }
      outcome := ConvertAndSend(uniqueId, msgSeq, header, message, reply, topic, now, ChooseCredential(reply));
    }

    /**
     * Conversion, then the send and the correlation row; a failed download
     * stops before the send. `sender` names the credential the send will choose.
     */
    method ConvertAndSend(uniqueId: int, msgSeq: int, header: string, message: seq<Segment>,
                          reply: Option<DBMessage>, topic: int, now: int, ghost sender: Option<TelegramApp>)
      returns (outcome: Outcome)
      requires Valid() && sender == ChooseCredential(reply)
      modifies db, qq, CredentialFrame(sender)
      ensures ConvertedAndSent(uniqueId, msgSeq, header, message, reply, topic, now, outcome)
    {
      var converted := ConvertMessage(message);
      if converted.Failure? {
        return Failed(converted.error);
      }
      CompletedIsNotFailed(message, old(qq.fetches));
      ChoiceKept(reply);
      label Converted:
      outcome := SendAndRecord(uniqueId, msgSeq, header + converted.value.text, converted.value.media,
                               reply, topic, now, sender);
      assert qq.fetches == old@Converted(qq.fetches);
      if sender.Some? {
        assert old@Converted(sender.value.bot.calls) == old(sender.value.bot.calls);
        assert old@Converted(sender.value.bot.fetches) == old(sender.value.bot.fetches);
      }
    }

    /**
     * The tail of a forwarded message: send through the chosen credential,
     * then one correlation row when Telegram returned a message.
     */
    method SendAndRecord(uniqueId: int, msgSeq: int, text: string, media: seq<InputMedia>,
                         reply: Option<DBMessage>, topic: int, now: int, ghost sender: Option<TelegramApp>)
      returns (outcome: Outcome)
      requires Valid() && sender == ChooseCredential(reply)
      modifies db, CredentialFrame(sender)
      ensures !outcome.Ignored?
      ensures db.forumTopic == old(db.forumTopic)
      ensures db.message == old(db.message) + if outcome.Relayed? then [outcome.row] else []
      ensures sender.None? ==> outcome.Failed?
      ensures sender.Some? ==>
        SentOnce(sender.value, Outgoing(sender.value.chatId, text, media, reply, topic), uniqueId, msgSeq, topic, now,
                 outcome)
    {
      var sent := TgSendMessage(text, media, reply, topic, now);
      if sent.Failure? {
        return Failed(sent.error);
      }
      ghost var calls := sender.value.bot.calls;
      var row := DBMessage(uniqueId, msgSeq, sent.value.fromUserId, topic, sent.value.messageId);
      db.InsertMessage(row);
      assert sender.value.bot.calls == calls;
      outcome := Relayed(row);
    }

    /**
     * `handle_message`: group and private messages are forwarded under their
     * signed conversation id, in a topic named after the group or the friend,
     * group text headed by the sender's name; any other event is ignored and
     * changes nothing.
     */
    method HandleMessage(event: MessageEvent, now: int) returns (outcome: Outcome)
      requires Valid()
      modifies db, qq, Master().bot,
               if event.OtherEvent? then {} else SendFrame(StoredReply(db.message, ConversationId(event), event.reply))
      ensures outcome.Ignored? <==> event.OtherEvent?
      ensures event.OtherEvent? ==> unchanged(db) && unchanged(qq) && unchanged(Master().bot)
      ensures !event.OtherEvent? ==>
        Forwarded(ConversationId(event), TopicName(event), Header(event), event.msgSeq, event.reply, event.message,
                  now, outcome)
    {
      match event
      case GroupMessage(peerUin, peerName, _, _, msgSeq, replySeq, message) =>
        outcome := Forward(UniqueId(Group, peerUin), peerName, Header(event), msgSeq, replySeq, message, now);
      case PrivateMessage(peerUin, sendNickName, msgSeq, replySeq, message) =>
        outcome := Forward(UniqueId(Friend, peerUin), sendNickName, Header(event), msgSeq, replySeq, message, now);
      case OtherEvent(_) =>
        outcome := Ignored;
    }

    /**
     * The handler for messages posted in a forum topic: downloads the photo, if
     * any, through the first credential; finds the conversation of the topic;
     * sends the photo and text to it on QQ as the chat type the id's sign says;
     * and records one correlation under the first credential when QQ returned
     * a sequence number. A failed download, or a topic with no stored
     * conversation (which fails at the sign test), sends nothing.
     */
    method HandleTelegramMessage(update: TgUpdate) returns (outcome: Outcome)
      requires Valid()
      modifies db, qq, Master().bot
      ensures !outcome.Ignored?
      ensures db.forumTopic == old(db.forumTopic)
      ensures db.message == old(db.message) + if outcome.Relayed? then [outcome.row] else []
      ensures qq.fetches == old(qq.fetches)
      ensures Master().bot.calls == old(Master().bot.calls)
      ensures update.photo.None? ==> Master().bot.fetches == old(Master().bot.fetches)
      ensures update.photo.Some? ==>
        && |Master().bot.fetches| == |old(Master().bot.fetches)| + 1
        && Master().bot.fetches[..|old(Master().bot.fetches)|] == old(Master().bot.fetches)
        && Master().bot.fetches[|old(Master().bot.fetches)|].file == update.photo.value
      ensures var u := ChatOfTopic(old(db.forumTopic), update.messageThreadId);
        var fetched := update.photo.None? || Master().bot.fetches[|old(Master().bot.fetches)|].ok;
        if u.Some? && fetched then
          && |qq.sent| == |old(qq.sent)| + 1
          && qq.sent[..|old(qq.sent)|] == old(qq.sent)
          && var s := qq.sent[|old(qq.sent)|];
             && s.chatType == PeerOf(u.value).0
             && s.peerUin == PeerOf(u.value).1
             && s.message == Outbound(update)
             && (outcome.Relayed? <==> s.msgSeq.Some?)
             && (outcome.Relayed? ==>
                   outcome.row == DBMessage(u.value, s.msgSeq.value, MasterId(), update.messageThreadId, update.messageId))
        else
          outcome.Failed? && qq.sent == old(qq.sent)
    {
      var qqUniqueId := db.SelectQqUniqueId(update.messageThreadId);
      var message: seq<OutSegment> := [];
      if update.photo.Some? {
        var data := Master().bot.DownloadFile(update.photo.value);
        if data.Failure? {
          return Failed(data.error);
        }
        message := message + [ImageData(data.value)];
      }
      var text := if update.text.Some? && update.text.value != "" then update.text else update.caption;
      message := message + [TextData(text)];
      assert message == Outbound(update);
      if qqUniqueId.None? {
        return Failed("'>' not supported between instances of 'NoneType' and 'int'");
      }
      var chatType: ChatType;
      var peerUin: int;
      if qqUniqueId.value > 0 {
        chatType, peerUin := Friend, qqUniqueId.value;
      } else {
        chatType, peerUin := Group, -qqUniqueId.value;
      }
      var msgSeq := qq.Send(chatType, peerUin, message);
      if msgSeq.Failure? {
        return Failed(msgSeq.error);
      }
      var row := DBMessage(qqUniqueId.value, msgSeq.value, Master().bot.me, update.messageThreadId, update.messageId);
      db.InsertMessage(row);
      outcome := Relayed(row);
    }
  }
}
