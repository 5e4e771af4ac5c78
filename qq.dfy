/**
 * The QQ side as the relay sees it through the nonebot "red" adapter: chat
 * types, message segments, inbound events, and the bot that downloads files
 * and sends messages. The network behind the bot is not modelled: each of its
 * operations may fail, and what it returns is opaque.
 */
module Qq {
  import opened Wrappers

  datatype ChatType = Friend | Group

  /** A reference to a remote file, on either platform. */
  datatype FileRef = FileRef(handle: int)

  /** The bytes of a downloaded file, known only by where they came from. */
  datatype Blob = Bytes(source: FileRef)

  /** A segment kind the converter has no case for (`json`, `reply`, ...). */
  type OtherKind = k: string | k !in {"text", "at", "face", "market_face", "image", "file", "voice", "video"}
    witness "json"

  /** A segment of an inbound QQ message, one case per kind the relay tells apart. */
  datatype Segment =
    | Text(text: string)
    | At(userName: string)
    | Face(faceId: int)
    | MarketFace(faceName: string)
    | Image(file: FileRef)
    | File(file: FileRef)
    | Voice(file: FileRef)
    | Video(file: FileRef)
    | Unsupported(kind: OtherKind)
  {
    /** The kinds whose conversion downloads a file. */
    predicate IsMedia() {
      Image? || File? || Voice? || Video?
    }
  }

  /** A segment of an outbound QQ message built from a Telegram message. */
  datatype OutSegment =
    | ImageData(data: Blob)
    | TextData(text: Option<string>)

  /** An inbound QQ event; `reply` is the sequence number of the message replied to, if any. */
  datatype MessageEvent =
    | GroupMessage(peerUin: int, peerName: string, sendMemberName: string, sendNickName: string,
                   msgSeq: int, reply: Option<int>, message: seq<Segment>)
    | PrivateMessage(peerUin: int, sendNickName: string,
                     msgSeq: int, reply: Option<int>, message: seq<Segment>)
    | OtherEvent(eventName: string)

  /** One attempt to send a message to QQ, with the sequence number QQ gave it, or none if it failed. */
  datatype SentToQq = SentToQq(chatType: ChatType, peerUin: int, message: seq<OutSegment>, msgSeq: Option<int>)

  /** One attempt to download a file, on either platform, and whether it succeeded. */
  datatype Fetch = Fetch(file: FileRef, ok: bool)

  /** The connected QQ account, with a log of every send and download attempted through it. */
  class QqBot {
    var sent: seq<SentToQq>
    var fetches: seq<Fetch>
    var nextSeq: int

    constructor ()
      ensures sent == [] && fetches == []
    {
      sent := [];
      fetches := [];
      nextSeq := 1;
    }

    /** Fetches a file; on success the bytes are those of `file`. The attempt is logged. */
    method Download(file: FileRef) returns (r: Result<Blob>)
      modifies this
      ensures r.Success? ==> r.value == Bytes(file)
      ensures fetches == old(fetches) + [Fetch(file, r.Success?)]
      ensures sent == old(sent)
    {
      var reachable: bool :| true;
      r := if reachable then Success(Bytes(file)) else Failure("download failed");
      fetches := fetches + [Fetch(file, r.Success?)];
    }

    /** Sends a message; the attempt is logged with the sequence number QQ returned, if it returned one. */
    method Send(chatType: ChatType, peerUin: int, message: seq<OutSegment>) returns (r: Result<int>)
      modifies this
      ensures sent == old(sent) + [SentToQq(chatType, peerUin, message, if r.Success? then Some(r.value) else None)]
      ensures fetches == old(fetches)
    {
      var delivered: bool :| true;
      if delivered {
        r := Success(nextSeq);
        nextSeq := nextSeq + 1;
      } else {
        r := Failure("send to QQ failed");
      }
      sent := sent + [SentToQq(chatType, peerUin, message, if r.Success? then Some(r.value) else None)];
    }
  }
}
