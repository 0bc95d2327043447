/** The abstract view of what the Telegram client hands the bot. Only the
    fields the bot reads are kept. An Option field is None where the client
    gives None or any other falsy value; a text field is "" where the
    client gives None. */
module Telegram {
  import opened Wrappers

  type GroupId = string

  /** A downloadable attachment (document, video or audio) and its size in bytes. */
  datatype Media = Media(fileSize: nat)

  /** The raw reply header of a forum message. */
  datatype ReplyHeader = ReplyHeader(topId: Option<int>)

  datatype Msg = Msg(
    id: int,
    empty: bool,                       // the message was deleted or never existed
    threadId: Option<int>,             // message_thread_id
    replyToMessageId: Option<int>,     // reply_to_message_id
    replyTo: Option<ReplyHeader>,      // reply_to, with its reply_to_top_id
    hasForumTopicCreated: bool,        // the forum_topic_created attribute exists
    mediaGroupId: Option<GroupId>,     // media_group_id
    media: bool,                       // message.media is set (any kind of media)
    photo: bool,
    video: Option<Media>,
    audio: Option<Media>,
    document: Option<Media>,
    text: string,
    caption: string)

  /** Why a fetch raised: the user client may not read the chat
      (PeerIdInvalid, BadRequest, KeyError), or any other error. */
  datatype FetchError = AccessDenied | OtherError

  /** The outcome of get_messages for one id. */
  datatype Fetch = Absent | Got(msg: Msg) | Raised(error: FetchError)

  /** The kinds send_media knows. */
  datatype MediaType = Photo | Video | Audio | Document

  /** bool(media_group_id or media) or bool(text or caption) */
  predicate HasContent(m: Msg) {
    m.mediaGroupId.Some? || m.media || m.text != "" || m.caption != ""
  }

  /** The group a message belongs to, as a set of at most one id. */
  function GroupSet(m: Msg): set<GroupId> {
    if m.mediaGroupId.Some? then {m.mediaGroupId.value} else {}
  }
}
