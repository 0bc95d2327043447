/** The decision logic of bt/main.py that does not depend on the batch scan:
    forum-topic membership, the cleanup of a post URL, and how
    handle_download dispatches on the fetched message. */
module Bot {
  import opened Wrappers
  import opened Strings
  import opened Telegram

  /** What the link parser returns for a post link: chat, optional topic
      thread and message id. The parser itself is not part of this model. */
  datatype Link = Link(chat: string, thread: Option<int>, messageId: int)

  /** A thread id as Python's `if thread:` sees it: present only when it is
      neither None nor 0. */
  function ActiveTopic(thread: Option<int>): (t: Option<int>)
    ensures t.Some? <==> thread.Some? && thread.value != 0
    ensures t.Some? ==> t == thread
  {
    if thread.Some? && thread.value != 0 then thread else None
  }

  function OptionSet(o: Option<int>): set<int> {
    if o.Some? then {o.value} else {}
  }

  /** Every id a message names as its topic: its own id (a topic starts with
      its first message), its thread id, the message it replies to, and the
      top id of its reply header. */
  function TopicCandidates(m: Msg): set<int> {
    {m.id} + OptionSet(m.threadId) + OptionSet(m.replyToMessageId)
      + (if m.replyTo.Some? then OptionSet(m.replyTo.value.topId) else {})
  }

  /** message_belongs_to_topic: the checks in the order the source makes them. */
  function BelongsToTopic(message: Option<Msg>, topicId: int): bool {
    if message.None? || message.value.empty then false
    else
      var m := message.value;
      if m.id == topicId then true
      else if m.threadId == Some(topicId) then true
      else if m.replyToMessageId == Some(topicId) then true
      else if m.replyTo.Some? && m.replyTo.value.topId == Some(topicId) then true
      else if m.hasForumTopicCreated && m.id == topicId then true
      else false
  }

  /** A message is in a topic exactly when it exists, is not deleted, and
      names the topic by one of its candidate ids. */
  lemma BelongsToTopicCandidates(message: Option<Msg>, topicId: int)
    ensures BelongsToTopic(message, topicId) <==>
              message.Some? && !message.value.empty && topicId in TopicCandidates(message.value)
  {
  }

  /** The forum_topic_created check comes after the plain id check and
      repeats it, so it never changes the answer. */
  lemma ForumFlagAddsNothing(m: Msg, topicId: int, flag: bool)
    ensures BelongsToTopic(Some(m), topicId) == BelongsToTopic(Some(m.(hasForumTopicCreated := flag)), topicId)
  {
  }

  /** A missing or deleted message is never in a topic; a live topic
      starter always is. */
  lemma TopicEdgeCases(m: Msg, topicId: int)
    ensures !BelongsToTopic(None, topicId)
    ensures m.empty ==> !BelongsToTopic(Some(m), topicId)
    ensures !m.empty ==> BelongsToTopic(Some(m), m.id)
  {
  }

  /** handle_download keeps only what precedes the first '?'. */
  function TruncateAtQuery(url: string): (r: string)
    ensures '?' !in r
    ensures StartsWith(url, r)
    ensures |r| < |url| ==> url[|r|] == '?'
    ensures '?' !in url ==> r == url
  {
    if '?' in url then url[..IndexOf(url, '?')] else url
  }

  lemma TruncateIdempotent(url: string)
    ensures TruncateAtQuery(TruncateAtQuery(url)) == TruncateAtQuery(url)
  {
  }

  /** The kind handed to send_media: photo, then video, then audio; any
      other media is sent as a document. */
  function MediaTypeOf(m: Msg): (t: MediaType)
    ensures t == Photo <==> m.photo
    ensures t == Video <==> !m.photo && m.video.Some?
    ensures t == Audio <==> !m.photo && m.video.None? && m.audio.Some?
    ensures t == Document <==> !m.photo && m.video.None? && m.audio.None?
  {
    if m.photo then Photo else if m.video.Some? then Video else if m.audio.Some? then Audio else Document
  }

  /** The size checked against the download limit: that of the document,
      else the video, else the audio; None when the message has none of them. */
  function DownloadSize(m: Msg): (r: Option<nat>)
    ensures r.None? <==> m.document.None? && m.video.None? && m.audio.None?
    ensures m.document.Some? ==> r == Some(m.document.value.fileSize)
    ensures m.document.None? && m.video.Some? ==> r == Some(m.video.value.fileSize)
    ensures m.document.None? && m.video.None? && m.audio.Some? ==> r == Some(m.audio.value.fileSize)
  {
    if m.document.Some? then Some(m.document.value.fileSize)
    else if m.video.Some? then Some(m.video.value.fileSize)
    else if m.audio.Some? then Some(m.audio.value.fileSize)
    else None
  }

  /** The two precedences differ: a message carrying both a video and a
      document is sent as a video but gated on the document's size. */
  lemma SizeAndKindPrecedenceDiffer(m: Msg)
    requires !m.photo && m.video.Some? && m.document.Some?
    ensures MediaTypeOf(m) == Video
    ensures DownloadSize(m) == Some(m.document.value.fileSize)
  {
  }

  /** What handle_download ends in. */
  datatype Handled =
    | TopicRejected            // "does not belong to topic ... or has been deleted"
    | SizeRefused(size: nat)   // fileSizeLimit refused the download
    | GroupProcessed(ok: bool) // processMediaGroup ran; false: "Could not extract any valid media"
    | MediaSent(kind: MediaType) // downloaded and passed to send_media as this kind
    | TextReplied              // the text or caption is sent back
    | NothingFound             // "No media or text found"
    | NotAccessible            // "Make sure the user client is part of the chat"
    | Failed                   // any other exception, reported as its message

  /** The message handle_download holds after a fetch that did not raise. */
  function Fetched(fetch: Fetch): Option<Msg> {
    if fetch.Got? then Some(fetch.msg) else None
  }

  /** The fetch gave a message and it passes the topic check: the link names
      no topic, or the message belongs to it. */
  predicate PassesTopicCheck(link: Link, fetch: Fetch) {
    && fetch.Got?
    && (ActiveTopic(link.thread).Some? ==> BelongsToTopic(Some(fetch.msg), ActiveTopic(link.thread).value))
  }

  /** ... and the size limit lets its download through. */
  predicate PassesGates(link: Link, fetch: Fetch, downloadAllowed: nat -> bool) {
    && PassesTopicCheck(link, fetch)
    && (DownloadSize(fetch.msg).Some? ==> downloadAllowed(DownloadSize(fetch.msg).value))
  }

  /** handle_download(post_url). `parse` stands for the link parser (None:
      it raised), `fetch` for the message it names, `downloadAllowed` for
      the download size limit, and `groupOk` for what processMediaGroup
      returns. Each outcome is stated with exactly the inputs that lead to
      it. */
  function HandleDownload(postUrl: string, parse: string -> Option<Link>, fetch: Fetch,
                          downloadAllowed: nat -> bool, groupOk: bool): (r: Handled)
    ensures var p := parse(TruncateAtQuery(postUrl));
      r == Failed <==>
        p.None? || (p.Some? && fetch.Raised? && fetch.error == OtherError) || (fetch.Absent? && ActiveTopic(p.value.thread).None?)
    ensures var p := parse(TruncateAtQuery(postUrl));
      r == NotAccessible <==> p.Some? && fetch == Raised(AccessDenied)
    ensures var p := parse(TruncateAtQuery(postUrl));
      r == TopicRejected <==>
        && p.Some? && !fetch.Raised? && ActiveTopic(p.value.thread).Some?
        && !BelongsToTopic(Fetched(fetch), ActiveTopic(p.value.thread).value)
    ensures var p := parse(TruncateAtQuery(postUrl));
      r.SizeRefused? <==>
        && p.Some? && PassesTopicCheck(p.value, fetch)
        && DownloadSize(fetch.msg).Some? && !downloadAllowed(DownloadSize(fetch.msg).value)
    ensures r.SizeRefused? ==> fetch.Got? && DownloadSize(fetch.msg) == Some(r.size)
    ensures var p := parse(TruncateAtQuery(postUrl));
      r.GroupProcessed? <==>
        p.Some? && PassesGates(p.value, fetch, downloadAllowed) && fetch.msg.mediaGroupId.Some?
    ensures r.GroupProcessed? ==> r.ok == groupOk
    ensures var p := parse(TruncateAtQuery(postUrl));
      r.MediaSent? <==>
        p.Some? && PassesGates(p.value, fetch, downloadAllowed) && fetch.msg.mediaGroupId.None? && fetch.msg.media
    ensures r.MediaSent? ==> fetch.Got? && r.kind == MediaTypeOf(fetch.msg)
    ensures var p := parse(TruncateAtQuery(postUrl));
      r == TextReplied <==>
        && p.Some? && PassesGates(p.value, fetch, downloadAllowed) && fetch.msg.mediaGroupId.None? && !fetch.msg.media
        && (fetch.msg.text != "" || fetch.msg.caption != "")
    ensures var p := parse(TruncateAtQuery(postUrl));
      r == NothingFound <==>
        && p.Some? && PassesGates(p.value, fetch, downloadAllowed) && fetch.msg.mediaGroupId.None? && !fetch.msg.media
        && fetch.msg.text == "" && fetch.msg.caption == ""
  {
    var url := TruncateAtQuery(postUrl);
    match parse(url)
    case None => Failed
    case Some(link) =>
      if fetch.Raised? then
        if fetch.error == AccessDenied then NotAccessible else Failed
      else
        var message := if fetch.Got? then Some(fetch.msg) else None;
        var topic := ActiveTopic(link.thread);
        if topic.Some? && !BelongsToTopic(message, topic.value) then TopicRejected
        else if fetch.Absent? then Failed   // attribute access on None raises
        else
          var m := fetch.msg;
          var size := DownloadSize(m);
          if size.Some? && !downloadAllowed(size.value) then SizeRefused(size.value)
          else if m.mediaGroupId.Some? then GroupProcessed(groupOk)
          else if m.media then MediaSent(MediaTypeOf(m))
          else if m.text != "" || m.caption != "" then TextReplied
          else NothingFound
  }

  /** The size gate runs before the media-group branch: an oversized
      document refuses even a whole media group. */
  lemma SizeGateBeforeGroup(postUrl: string, parse: string -> Option<Link>, m: Msg,
                            downloadAllowed: nat -> bool, groupOk: bool)
    requires parse(TruncateAtQuery(postUrl)).Some?
    requires ActiveTopic(parse(TruncateAtQuery(postUrl)).value.thread).None?
    requires m.mediaGroupId.Some? && m.document.Some? && !downloadAllowed(m.document.value.fileSize)
    ensures HandleDownload(postUrl, parse, Got(m), downloadAllowed, groupOk) == SizeRefused(m.document.value.fileSize)
  {
  }
}
