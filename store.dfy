/**
 * The correlation store of database.py: two SQLite tables that only grow.
 * `fetchone` on an unordered SELECT is read as "the first matching row in
 * insertion order".
 */
module Store {
  import opened Wrappers

  /**
   * One relayed message: the QQ conversation and message sequence number, and
   * the Telegram bot, forum topic and message it corresponds to. A row of the
   * `message` table holds the same five columns in the same order.
   */
  datatype DBMessage = DBMessage(
    qqUniqueId: int,
    qqMsgSeq: int,
    tgBotId: int,
    tgForumTopicId: int,
    tgMessageId: int)

  /** The record handed to `insert_forum_topic`; it declares the topic id first. */
  datatype DBForumTopic = DBForumTopic(tgForumTopicId: int, qqUniqueId: int)

  /** A row of the `forum_topic` table, in column order: conversation first. */
  datatype ForumTopicRow = ForumTopicRow(qqUniqueId: int, tgForumTopicId: int)

  /** Index of the first forum_topic row for conversation `u`, or `|rows|` if there is none. */
  function FirstRowForChat(rows: seq<ForumTopicRow>, u: int): (k: nat)
    ensures k <= |rows|
    ensures forall j | 0 <= j < k :: rows[j].qqUniqueId != u
    ensures k < |rows| ==> rows[k].qqUniqueId == u
  {
    if rows == [] then 0
    else if rows[0].qqUniqueId == u then 0
    else 1 + FirstRowForChat(rows[1..], u)
  }

  /** Index of the first forum_topic row for topic `t`, or `|rows|` if there is none. */
  function FirstRowForTopic(rows: seq<ForumTopicRow>, t: int): (k: nat)
    ensures k <= |rows|
    ensures forall j | 0 <= j < k :: rows[j].tgForumTopicId != t
    ensures k < |rows| ==> rows[k].tgForumTopicId == t
  {
    if rows == [] then 0
    else if rows[0].tgForumTopicId == t then 0
    else 1 + FirstRowForTopic(rows[1..], t)
  }

  /** Index of the first message row keyed `(u, s)`, or `|rows|` if there is none. */
  function FirstMessageRow(rows: seq<DBMessage>, u: int, s: int): (k: nat)
    ensures k <= |rows|
    ensures forall j | 0 <= j < k :: rows[j].qqUniqueId != u || rows[j].qqMsgSeq != s
    ensures k < |rows| ==> rows[k].qqUniqueId == u && rows[k].qqMsgSeq == s
  {
    if rows == [] then 0
    else if rows[0].qqUniqueId == u && rows[0].qqMsgSeq == s then 0
    else 1 + FirstMessageRow(rows[1..], u, s)
  }

  /** What `select_tg_forum_topic_id(u)` answers on the table `rows`. */
  function TopicOfChat(rows: seq<ForumTopicRow>, u: int): Option<int>
  {
    var k := FirstRowForChat(rows, u);
    if k < |rows| then Some(rows[k].tgForumTopicId) else None
  }

  /** What `select_qq_unique_id(t)` answers on the table `rows`. */
  function ChatOfTopic(rows: seq<ForumTopicRow>, t: int): Option<int>
  {
    var k := FirstRowForTopic(rows, t);
    if k < |rows| then Some(rows[k].qqUniqueId) else None
  }

  /** What `select_message_where_qq(u, s)` answers: the key from the arguments, the rest from the row. */
  function MessageOf(rows: seq<DBMessage>, u: int, s: int): Option<DBMessage>
  {
    var k := FirstMessageRow(rows, u, s);
    if k < |rows| then Some(DBMessage(u, s, rows[k].tgBotId, rows[k].tgForumTopicId, rows[k].tgMessageId))
    else None
  }

  /** Appending a row to the topic table: an earlier answer stands, otherwise the new row answers if it matches. */
  lemma TopicOfChatAfterInsert(rows: seq<ForumTopicRow>, row: ForumTopicRow, u: int)
    ensures TopicOfChat(rows + [row], u) ==
      if TopicOfChat(rows, u).Some? then TopicOfChat(rows, u)
      else if row.qqUniqueId == u then Some(row.tgForumTopicId)
      else None
  {
    var ext := rows + [row];
    assert forall j | 0 <= j < |rows| :: ext[j] == rows[j];
    assert ext[|rows|] == row;
  }

  /**
   * A conversation whose first row holds topic 0 keeps answering 0 however
   * many rows are added for it after that row.
   */
  lemma ZeroTopicKept(rows: seq<ForumTopicRow>, t: int, u: int)
    requires TopicOfChat(rows, u) == Some(0)
    ensures TopicOfChat(rows + [ForumTopicRow(u, t)], u) == Some(0)
  {
    TopicOfChatAfterInsert(rows, ForumTopicRow(u, t), u);
  }

  /** Appending a row to the topic table, seen from the reverse lookup. */
  lemma ChatOfTopicAfterInsert(rows: seq<ForumTopicRow>, row: ForumTopicRow, t: int)
    ensures ChatOfTopic(rows + [row], t) ==
      if ChatOfTopic(rows, t).Some? then ChatOfTopic(rows, t)
      else if row.tgForumTopicId == t then Some(row.qqUniqueId)
      else None
  {
    var ext := rows + [row];
    assert forall j | 0 <= j < |rows| :: ext[j] == rows[j];
    assert ext[|rows|] == row;
  }

  /** Appending a row to the message table: an earlier answer stands, otherwise the new row answers if its key matches. */
  lemma MessageOfAfterInsert(rows: seq<DBMessage>, m: DBMessage, u: int, s: int)
    ensures MessageOf(rows + [m], u, s) ==
      if MessageOf(rows, u, s).Some? then MessageOf(rows, u, s)
      else if m.qqUniqueId == u && m.qqMsgSeq == s then Some(m)
      else None
  {
    var ext := rows + [m];
    assert forall j | 0 <= j < |rows| :: ext[j] == rows[j];
    assert ext[|rows|] == m;
  }

  /** Round trip: a message inserted under a fresh key is what the select returns. */
  lemma InsertThenSelectMessage(rows: seq<DBMessage>, m: DBMessage)
    requires forall j | 0 <= j < |rows| :: rows[j].qqUniqueId != m.qqUniqueId || rows[j].qqMsgSeq != m.qqMsgSeq
    ensures MessageOf(rows + [m], m.qqUniqueId, m.qqMsgSeq) == Some(m)
  {
    MessageOfAfterInsert(rows, m, m.qqUniqueId, m.qqMsgSeq);
  }

  /** Round trip: a topic inserted for a conversation without one is found in both directions. */
  lemma InsertThenSelectTopic(rows: seq<ForumTopicRow>, obj: DBForumTopic)
    requires forall j | 0 <= j < |rows| :: rows[j].qqUniqueId != obj.qqUniqueId
    requires forall j | 0 <= j < |rows| :: rows[j].tgForumTopicId != obj.tgForumTopicId
    ensures TopicOfChat(rows + [ForumTopicRow(obj.qqUniqueId, obj.tgForumTopicId)], obj.qqUniqueId)
      == Some(obj.tgForumTopicId)
    ensures ChatOfTopic(rows + [ForumTopicRow(obj.qqUniqueId, obj.tgForumTopicId)], obj.tgForumTopicId)
      == Some(obj.qqUniqueId)
  {
    var row := ForumTopicRow(obj.qqUniqueId, obj.tgForumTopicId);
    TopicOfChatAfterInsert(rows, row, obj.qqUniqueId);
    ChatOfTopicAfterInsert(rows, row, obj.tgForumTopicId);
  }

  /** The SQLite database with its two tables. */
  class Database {
    var message: seq<DBMessage>
    var forumTopic: seq<ForumTopicRow>

    /** Opens the file; `CREATE TABLE IF NOT EXISTS` keeps whatever rows it already holds. */
    constructor (messageRows: seq<DBMessage>, forumTopicRows: seq<ForumTopicRow>)
      ensures message == messageRows && forumTopic == forumTopicRows
    {
      message := messageRows;
      forumTopic := forumTopicRows;
    }

    /** Appends one row holding the five fields in order. */
    method InsertMessage(obj: DBMessage)
      modifies this
      ensures message == old(message) + [obj]
      ensures forumTopic == old(forumTopic)
    {
      message := message + [obj];
    }

    /** Appends one row, taking the values by field name: conversation, then topic. */
    method InsertForumTopic(obj: DBForumTopic)
      modifies this
      ensures forumTopic == old(forumTopic) + [ForumTopicRow(obj.qqUniqueId, obj.tgForumTopicId)]
      ensures message == old(message)
    {
      forumTopic := forumTopic + [ForumTopicRow(obj.qqUniqueId, obj.tgForumTopicId)];
    }

    /** The conversation of the first row for topic `tgForumTopicId`, or `None`. */
    method SelectQqUniqueId(tgForumTopicId: int) returns (r: Option<int>)
      ensures r == ChatOfTopic(forumTopic, tgForumTopicId)
    {
      var i := 0;
      while i < |forumTopic| && forumTopic[i].tgForumTopicId != tgForumTopicId
        invariant i <= |forumTopic|
        invariant forall j | 0 <= j < i :: forumTopic[j].tgForumTopicId != tgForumTopicId
      {
        i := i + 1;
      }
      r := if i < |forumTopic| then Some(forumTopic[i].qqUniqueId) else None;
    }

    /** The topic of the first row for conversation `qqUniqueId`, or `None`. */
    method SelectTgForumTopicId(qqUniqueId: int) returns (r: Option<int>)
      ensures r == TopicOfChat(forumTopic, qqUniqueId)
    {
      var i := 0;
      while i < |forumTopic| && forumTopic[i].qqUniqueId != qqUniqueId
        invariant i <= |forumTopic|
        invariant forall j | 0 <= j < i :: forumTopic[j].qqUniqueId != qqUniqueId
      {
        i := i + 1;
      }
      r := if i < |forumTopic| then Some(forumTopic[i].tgForumTopicId) else None;
    }

    /** The first correlation for QQ message `(qqUniqueId, qqMsgSeq)`, or `None`. */
    method SelectMessageWhereQq(qqUniqueId: int, qqMsgSeq: int) returns (r: Option<DBMessage>)
      ensures r == MessageOf(message, qqUniqueId, qqMsgSeq)
      ensures r.Some? ==> r.value.qqUniqueId == qqUniqueId && r.value.qqMsgSeq == qqMsgSeq
    {
      var i := 0;
      while i < |message| && (message[i].qqUniqueId != qqUniqueId || message[i].qqMsgSeq != qqMsgSeq)
        invariant i <= |message|
        invariant forall j | 0 <= j < i :: message[j].qqUniqueId != qqUniqueId || message[j].qqMsgSeq != qqMsgSeq
      {
        i := i + 1;
      }
      if i < |message| {
        var row := message[i];
        r := Some(DBMessage(qqUniqueId, qqMsgSeq, row.tgBotId, row.tgForumTopicId, row.tgMessageId));
      } else {
        r := None;
      }
    }
  }
}
