/** The /bdl batch handler of bt/main.py (download_range): link-pair
    validation, the one-pass scan over start_id..end_id with its counters,
    lists and processed media-group set, and the final report.

    The scan is specified by Scan, a left fold of Step over the ids; the
    method DownloadRange is the loop of the source, proved equal to it.
    Emits gives an independent description of which ids are downloaded. */
module Batch {
  import opened Wrappers
  import opened Strings
  import opened Telegram
  import opened Bot

  const LinkPrefix := "https://t.me/"

  datatype Rejection = Usage | UnparsableLink | ChatMismatch | ThreadMismatch | InvalidRange

  /** A validated request: one chat, one thread (possibly none), an ordered
      id pair, and the URL prefix each scanned id is appended to. */
  datatype Range = Range(chat: string, thread: Option<int>, startId: int, endId: int, prefix: string)

  /** Three words, the two links both starting with https://t.me/ */
  predicate WellFormedArgs(args: seq<string>) {
    |args| == 3 && StartsWith(args[1], LinkPrefix) && StartsWith(args[2], LinkPrefix)
  }

  /** The checks made before anything is fetched, in the source's order. */
  function ValidateRange(args: seq<string>, parse: string -> Option<Link>): (r: Result<Range, Rejection>)
    ensures r.Success? ==>
              && WellFormedArgs(args)
              && parse(args[1]).Some? && parse(args[2]).Some?
              && r.value.chat == parse(args[1]).value.chat == parse(args[2]).value.chat
              && r.value.thread == parse(args[1]).value.thread == parse(args[2]).value.thread
              && r.value.startId == parse(args[1]).value.messageId
              && r.value.endId == parse(args[2]).value.messageId
              && r.value.startId <= r.value.endId
              && r.value.prefix == BeforeLast(args[1], '/')
  {
    if !WellFormedArgs(args) then Failure(Usage)
    else
      var s := parse(args[1]);
      var e := parse(args[2]);
      if s.None? || e.None? then Failure(UnparsableLink)
      else if s.value.chat != e.value.chat then Failure(ChatMismatch)
      else if s.value.thread != e.value.thread then Failure(ThreadMismatch)
      else if s.value.messageId > e.value.messageId then Failure(InvalidRange)
      else Success(Range(s.value.chat, s.value.thread, s.value.messageId, e.value.messageId, BeforeLast(args[1], '/')))
  }

  /** Each rejection is given exactly when every earlier check passed and
      its own failed. */
  lemma ValidationOrder(args: seq<string>, parse: string -> Option<Link>)
    ensures ValidateRange(args, parse) == Failure(Usage) <==> !WellFormedArgs(args)
    ensures ValidateRange(args, parse) == Failure(UnparsableLink) <==>
              WellFormedArgs(args) && (parse(args[1]).None? || parse(args[2]).None?)
    ensures ValidateRange(args, parse) == Failure(ChatMismatch) <==>
              && WellFormedArgs(args) && parse(args[1]).Some? && parse(args[2]).Some?
              && parse(args[1]).value.chat != parse(args[2]).value.chat
    ensures ValidateRange(args, parse) == Failure(ThreadMismatch) <==>
              && WellFormedArgs(args) && parse(args[1]).Some? && parse(args[2]).Some?
              && parse(args[1]).value.chat == parse(args[2]).value.chat
              && parse(args[1]).value.thread != parse(args[2]).value.thread
    ensures ValidateRange(args, parse) == Failure(InvalidRange) <==>
              && WellFormedArgs(args) && parse(args[1]).Some? && parse(args[2]).Some?
              && parse(args[1]).value.chat == parse(args[2]).value.chat
              && parse(args[1]).value.thread == parse(args[2]).value.thread
              && parse(args[1]).value.messageId > parse(args[2]).value.messageId
  {
  }

  /** The link built for one id of the range. */
  datatype PostUrl = PostUrl(prefix: string, id: int)

  /** f"{prefix}/{msg_id}" */
  function Render(u: PostUrl): string {
    u.prefix + "/" + IntToDecimal(u.id)
  }

  /** The URL of a scanned id is the first link with its last path segment
      replaced by the id. */
  lemma UrlReplacesLastSegment(base: string, segment: string, id: int)
    requires '/' !in segment
    ensures Render(PostUrl(BeforeLast(base + "/" + segment, '/'), id)) == base + "/" + IntToDecimal(id)
  {
    BeforeLastOfAppended(base, '/', segment);
    assert base + "/" + segment == base + ['/'] + segment;
  }

  /** [start, start + 1, ..., start + n - 1] */
  function Ids(start: int, n: nat): (r: seq<int>)
    ensures |r| == n && forall i :: 0 <= i < n ==> r[i] == start + i
  {
    seq(n, i => start + i)
  }

  // ---------------------------------------------------------------------
  // The per-id decision and the scan state
  // ---------------------------------------------------------------------

  /** How the scan treats one id, in the order the source tests. */
  datatype Verdict = FetchFailed | Missing | OffTopic | DuplicateMember | NoContent | Launch

  function Classify(f: Fetch, topic: Option<int>, processed: set<GroupId>): Verdict
  {
    if f.Raised? then FetchFailed
    else if f.Absent? || f.msg.empty then Missing
    else if topic.Some? && !BelongsToTopic(Some(f.msg), topic.value) then OffTopic
    else if f.msg.mediaGroupId.Some? && f.msg.mediaGroupId.value in processed then DuplicateMember
    else if !HasContent(f.msg) then NoContent
    else Launch
  }

  /** The loop's variables, plus a record of the calls it makes: the ids
      passed to get_messages and the ids whose download task was awaited.
      `cancelled` is set when awaiting a download raised CancelledError. */
  datatype ScanState = ScanState(
    downloaded: nat, skipped: nat, failed: nat,
    deleted: seq<int>, notInTopic: seq<int>, groupDuplicates: seq<int>,
    processedGroups: set<GroupId>,
    fetched: seq<int>, launched: seq<int>,
    cancelled: bool)

  const Initial := ScanState(0, 0, 0, [], [], [], {}, [], [], false)

  /** One iteration for `id`, whose fetch gave `f`; `interrupted` says
      whether awaiting its download raised CancelledError. Every fetched id
      lands in exactly one counter: failed when the fetch raised, skipped
      when the message is missing, off topic, a later member of a group
      already handled or empty, downloaded otherwise. A cancelled scan
      examines nothing more. */
  function Step(st: ScanState, id: int, f: Fetch, topic: Option<int>, interrupted: bool): ScanState {
    if st.cancelled then st
    else
      var v := Classify(f, topic, st.processedGroups);
      ScanState(
        downloaded := st.downloaded + (if v == Launch && !interrupted then 1 else 0),
        skipped := st.skipped + (if v in {Missing, OffTopic, DuplicateMember, NoContent} then 1 else 0),
        failed := st.failed + (if v == FetchFailed then 1 else 0),
        deleted := st.deleted + (if v in {FetchFailed, Missing} then [id] else []),
        notInTopic := st.notInTopic + (if v == OffTopic then [id] else []),
        groupDuplicates := st.groupDuplicates + (if v == DuplicateMember then [id] else []),
        processedGroups := st.processedGroups + (if v == Launch then GroupSet(f.msg) else {}),
        fetched := st.fetched + [id],
        launched := st.launched + (if v == Launch then [id] else []),
        cancelled := v == Launch && interrupted)
  }

  /** The state after the first n ids of the range starting at `start`. */
  function Scan(start: int, n: nat, topic: Option<int>,
                fetch: int -> Fetch, interrupted: int -> bool): ScanState
  {
    if n == 0 then Initial
    else
      var k := start + n - 1;
      Step(Scan(start, n - 1, topic, fetch, interrupted), k, fetch(k), topic, interrupted(k))
  }

  // ---------------------------------------------------------------------
  // The report
  // ---------------------------------------------------------------------

  datatype Listing = Listed(ids: seq<int>) | Count(n: nat)

  /** A report list: nothing when empty, the ids when there are at most
      ten, otherwise their number. */
  function ListIds(ids: seq<int>): (r: Option<Listing>)
    ensures r.None? <==> ids == []
    ensures r == Some(Listed(ids)) <==> 1 <= |ids| <= 10
    ensures r == Some(Count(|ids|)) <==> |ids| > 10
    ensures r.Some? ==> r == Some(Listed(ids)) || r == Some(Count(|ids|))
  {
    if ids == [] then None else if |ids| <= 10 then Some(Listed(ids)) else Some(Count(|ids|))
  }

  /** The completion message, line by line in the source's order; a None
      field is a line that is left out. */
  datatype Report = Report(
    downloaded: nat, skipped: nat, failed: nat,
    forumTopic: Option<int>, notInTopic: Option<Listing>,
    groupDuplicates: Option<Listing>, deleted: Option<Listing>,
    groupsProcessed: Option<nat>)

  function BuildReport(st: ScanState, topic: Option<int>): (r: Report)
    ensures r.downloaded == st.downloaded && r.skipped == st.skipped && r.failed == st.failed
    ensures r.forumTopic == topic
    ensures topic.Some? ==> r.notInTopic == ListIds(st.notInTopic)
    ensures topic.None? ==> r.notInTopic.None?
    ensures r.notInTopic.Some? <==> topic.Some? && st.notInTopic != []
    ensures r.groupDuplicates == ListIds(st.groupDuplicates)
    ensures r.deleted == ListIds(st.deleted)
    ensures r.groupsProcessed.Some? <==> st.processedGroups != {}
    ensures r.groupsProcessed.Some? ==> r.groupsProcessed.value == |st.processedGroups|
  {
    Report(st.downloaded, st.skipped, st.failed,
           topic, if topic.Some? then ListIds(st.notInTopic) else None,
           ListIds(st.groupDuplicates), ListIds(st.deleted),
           if st.processedGroups != {} then Some(|st.processedGroups|) else None)
  }

  datatype BatchOutcome =
    | Rejected(reason: Rejection)
    | Cancelled(downloaded: nat, state: ScanState)  // "Batch canceled after downloading N posts"
    | Completed(state: ScanState, report: Report)

  /** What download_range does for the command words `args`. `fetch` gives
      the message under each id of the chat, `interrupted` whether awaiting
      the download of an id raised CancelledError. */
  function DownloadRangeOutcome(args: seq<string>, parse: string -> Option<Link>,
                                fetch: int -> Fetch, interrupted: int -> bool): BatchOutcome
  {
    match ValidateRange(args, parse)
    case Failure(e) => Rejected(e)
    case Success(rg) =>
      var topic := ActiveTopic(rg.thread);
      var st := ScanFrom(Initial, rg.startId, rg.endId - rg.startId + 1, topic, fetch, interrupted);
      if st.cancelled then Cancelled(st.downloaded, st) else Completed(st, BuildReport(st, topic))
  }

  /** A completed run is the scan of the whole validated range. */
  lemma CompletedState(args: seq<string>, parse: string -> Option<Link>,
                       fetch: int -> Fetch, interrupted: int -> bool)
    requires DownloadRangeOutcome(args, parse, fetch, interrupted).Completed?
    ensures ValidateRange(args, parse).Success?
    ensures var rg := ValidateRange(args, parse).value;
      var st := DownloadRangeOutcome(args, parse, fetch, interrupted).state;
      && st == ScanFrom(Initial, rg.startId, rg.endId - rg.startId + 1, ActiveTopic(rg.thread), fetch, interrupted)
      && !st.cancelled
  {
  }

  // ---------------------------------------------------------------------
  // The loop
  // ---------------------------------------------------------------------

  /** The body of the loop for one id: fetch, filter, then launch and await
      the download. The result is cancelled when the await raised; `url` is
      what was handed to handle_download, if anything. */
  method ScanMessage(st: ScanState, msgId: int, f: Fetch, topic: Option<int>, prefix: string,
                     interrupted: bool) returns (st': ScanState, url: Option<PostUrl>)
    requires !st.cancelled
    ensures st' == Step(st, msgId, f, topic, interrupted)
    ensures url.Some? <==> st'.launched == st.launched + [msgId]
    ensures url.Some? ==> url.value == PostUrl(prefix, msgId)
  {
    url := None;
    st' := st.(fetched := st.fetched + [msgId]);
    if f.Raised? {
      st' := st'.(failed := st'.failed + 1, deleted := st'.deleted + [msgId]);
    } else if f.Absent? || f.msg.empty {
      st' := st'.(deleted := st'.deleted + [msgId], skipped := st'.skipped + 1);
    } else if topic.Some? && !BelongsToTopic(Some(f.msg), topic.value) {
      st' := st'.(notInTopic := st'.notInTopic + [msgId], skipped := st'.skipped + 1);
    } else if f.msg.mediaGroupId.Some? && f.msg.mediaGroupId.value in st'.processedGroups {
      st' := st'.(groupDuplicates := st'.groupDuplicates + [msgId], skipped := st'.skipped + 1);
    } else {
      if f.msg.mediaGroupId.Some? {
        st' := st'.(processedGroups := st'.processedGroups + {f.msg.mediaGroupId.value});
      }
      if !HasContent(f.msg) {
        st' := st'.(skipped := st'.skipped + 1);
      } else {
        url := Some(PostUrl(prefix, msgId));
        st' := st'.(launched := st'.launched + [msgId]);
        if interrupted {
          st' := st'.(cancelled := true);
        } else {
          st' := st'.(downloaded := st'.downloaded + 1);
        }
      }
    }
  }

  /** The for loop over start_id..end_id; it stops early when a download
      is cancelled (the source returns from the handler there). */
  method ScanRange(startId: int, endId: int, topic: Option<int>, prefix: string,
                   fetch: int -> Fetch, interrupted: int -> bool) returns (st: ScanState)
    requires startId <= endId
    ensures st == ScanFrom(Initial, startId, endId - startId + 1, topic, fetch, interrupted)
  {
    st := Initial;
    var msgId := startId;
    ghost var remaining: nat := endId - startId + 1;
    while msgId <= endId && !st.cancelled
      invariant startId <= msgId <= endId + 1
      invariant remaining == endId + 1 - msgId
      invariant ScanFrom(st, msgId, remaining, topic, fetch, interrupted)
                == ScanFrom(Initial, startId, endId - startId + 1, topic, fetch, interrupted)
    {
      var url;
      st, url := ScanMessage(st, msgId, fetch(msgId), topic, prefix, interrupted(msgId));
      msgId, remaining := msgId + 1, remaining - 1;
    }
    if st.cancelled {
      ScanFromCancelled(st, msgId, remaining, topic, fetch, interrupted);
    }
  }

  method DownloadRange(args: seq<string>, parse: string -> Option<Link>,
                       fetch: int -> Fetch, interrupted: int -> bool) returns (r: BatchOutcome)
    ensures r == DownloadRangeOutcome(args, parse, fetch, interrupted)
  {
    var v := ValidateRange(args, parse);
    if v.Failure? {
      return Rejected(v.error);
    }
    var rg := v.value;
    var topic := ActiveTopic(rg.thread);
    var st := ScanRange(rg.startId, rg.endId, topic, rg.prefix, fetch, interrupted);
    if st.cancelled {
      return Cancelled(st.downloaded, st);
    }
    return Completed(st, BuildReport(st, topic));
  }

  // ---------------------------------------------------------------------
  // Properties of the scan
  // ---------------------------------------------------------------------

  /** The scan of the ids from k on, `r` of them, continuing from state st. */
  function ScanFrom(st: ScanState, k: int, r: nat, topic: Option<int>,
                    fetch: int -> Fetch, interrupted: int -> bool): ScanState
    decreases r
  {
    if r == 0 then st else ScanFrom(Step(st, k, fetch(k), topic, interrupted(k)), k + 1, r - 1, topic, fetch, interrupted)
  }

  /** Scanning r + 1 ids from k is scanning r of them and then id k + r;
      r1 and kr stand for r + 1 and k + r. */
  lemma {:induction false} ScanFromSnoc(st: ScanState, k: int, r: nat, r1: nat, kr: int, topic: Option<int>,
                                        fetch: int -> Fetch, interrupted: int -> bool)
    requires r1 == r + 1 && kr == k + r
    ensures ScanFrom(st, k, r1, topic, fetch, interrupted)
            == Step(ScanFrom(st, k, r, topic, fetch, interrupted), kr, fetch(kr), topic, interrupted(kr))
    decreases r
  {
    if r > 0 {
      ScanFromSnoc(Step(st, k, fetch(k), topic, interrupted(k)), k + 1, r - 1, r1 - 1, kr, topic, fetch, interrupted);
    }
  }

  /** The loop's forward fold and the specification's fold agree. */
  lemma {:induction false} ScanIsScanFrom(start: int, n: nat, topic: Option<int>,
                                          fetch: int -> Fetch, interrupted: int -> bool)
    ensures Scan(start, n, topic, fetch, interrupted) == ScanFrom(Initial, start, n, topic, fetch, interrupted)
  {
    if n > 0 {
      ScanIsScanFrom(start, n - 1, topic, fetch, interrupted);
      ScanFromSnoc(Initial, start, n - 1, n, start + n - 1, topic, fetch, interrupted);
    }
  }

  lemma {:induction false} ScanFromCancelled(st: ScanState, k: int, r: nat, topic: Option<int>,
                                             fetch: int -> Fetch, interrupted: int -> bool)
    requires st.cancelled
    ensures ScanFrom(st, k, r, topic, fetch, interrupted) == st
    decreases r
  {
    if r > 0 {
      ScanFromCancelled(st, k + 1, r - 1, topic, fetch, interrupted);
    }
  }

  /** Once cancelled, nothing further is fetched, launched or counted. */
  lemma {:induction false} CancelledIsFinal(start: int, n: nat, m: nat, topic: Option<int>,
                                            fetch: int -> Fetch, interrupted: int -> bool)
    requires n <= m
    requires Scan(start, n, topic, fetch, interrupted).cancelled
    ensures Scan(start, m, topic, fetch, interrupted) == Scan(start, n, topic, fetch, interrupted)
    decreases m - n
  {
    if n < m {
      CancelledIsFinal(start, n, m - 1, topic, fetch, interrupted);
    }
  }

  /** The ids fetched after n ids of the range starting at `start`: the
      range in ascending order, all n of them unless cancelled, and then the
      last one fetched is the one whose download was cancelled. */
  ghost predicate FetchShaped(st: ScanState, start: int, n: nat, interrupted: int -> bool) {
    && |st.fetched| <= n
    && st.fetched == Ids(start, |st.fetched|)
    && (!st.cancelled ==> |st.fetched| == n)
    && (st.cancelled ==>
          && |st.fetched| >= 1 && |st.launched| >= 1
          && st.launched[|st.launched| - 1] == st.fetched[|st.fetched| - 1]
          && interrupted(st.fetched[|st.fetched| - 1]))
  }

  /** Each fetched id is counted once, as downloaded, skipped or failed,
      except the one being downloaded when the batch was cancelled. */
  ghost predicate CountShaped(st: ScanState, topic: Option<int>) {
    && st.downloaded + st.skipped + st.failed + (if st.cancelled then 1 else 0) == |st.fetched|
    && st.downloaded + (if st.cancelled then 1 else 0) == |st.launched|
    && st.failed <= |st.deleted|
    && |st.deleted| + |st.notInTopic| + |st.groupDuplicates| <= st.skipped + st.failed
    && (topic.None? ==> st.notInTopic == [])
  }

  ghost predicate Shaped(st: ScanState, start: int, n: nat, topic: Option<int>,
                         interrupted: int -> bool) {
    FetchShaped(st, start, n, interrupted) && CountShaped(st, topic)
  }

  lemma StepFetchShaped(st: ScanState, start: int, n: nat, k: int, f: Fetch, topic: Option<int>,
                        interrupted: int -> bool)
    requires n >= 1 && k == start + n - 1
    requires FetchShaped(st, start, n - 1, interrupted)
    ensures FetchShaped(Step(st, k, f, topic, interrupted(k)), start, n, interrupted)
  {
    if !st.cancelled {
      assert Ids(start, n) == Ids(start, n - 1) + [k];
    }
  }

  lemma StepCountShaped(st: ScanState, k: int, f: Fetch, topic: Option<int>, interrupted: bool)
    requires CountShaped(st, topic)
    ensures CountShaped(Step(st, k, f, topic, interrupted), topic)
  {
    if !st.cancelled && Classify(f, topic, st.processedGroups) == OffTopic {
      assert topic.Some?;
    }
  }

  lemma {:induction false} ScanFetchShaped(start: int, n: nat, topic: Option<int>,
                                           fetch: int -> Fetch, interrupted: int -> bool)
    ensures FetchShaped(Scan(start, n, topic, fetch, interrupted), start, n, interrupted)
  {
    if n > 0 {
      ScanFetchShaped(start, n - 1, topic, fetch, interrupted);
      StepFetchShaped(Scan(start, n - 1, topic, fetch, interrupted), start, n, start + n - 1,
                      fetch(start + n - 1), topic, interrupted);
    }
  }

  lemma {:induction false} ScanCountShaped(start: int, n: nat, topic: Option<int>,
                                           fetch: int -> Fetch, interrupted: int -> bool)
    ensures CountShaped(Scan(start, n, topic, fetch, interrupted), topic)
  {
    if n > 0 {
      ScanCountShaped(start, n - 1, topic, fetch, interrupted);
      StepCountShaped(Scan(start, n - 1, topic, fetch, interrupted), start + n - 1,
                      fetch(start + n - 1), topic, interrupted(start + n - 1));
    }
  }

  lemma ScanShape(start: int, n: nat, topic: Option<int>,
                  fetch: int -> Fetch, interrupted: int -> bool)
    ensures Shaped(Scan(start, n, topic, fetch, interrupted), start, n, topic, interrupted)
  {
    ScanFetchShaped(start, n, topic, fetch, interrupted);
    ScanCountShaped(start, n, topic, fetch, interrupted);
  }

  // ---------------------------------------------------------------------
  // Which ids are downloaded, stated without the scan
  // ---------------------------------------------------------------------

  /** A message that exists and passes the topic filter. */
  predicate Eligible(f: Fetch, topic: Option<int>) {
    f.Got? && !f.msg.empty && (topic.Some? ==> BelongsToTopic(Some(f.msg), topic.value))
  }

  predicate MemberOf(f: Fetch, topic: Option<int>, g: GroupId) {
    Eligible(f, topic) && f.msg.mediaGroupId == Some(g)
  }

  /** Some id in [start, k) is an eligible member of group g. */
  ghost predicate GroupSeenBefore(fetch: int -> Fetch, topic: Option<int>, start: int, k: int, g: GroupId) {
    exists j :: start <= j < k && MemberOf(fetch(j), topic, g)
  }

  /** Id k is downloaded: it exists, passes the topic filter, has content,
      and if it is in a media group no earlier id of the range is an
      eligible member of that group. */
  ghost predicate Emits(fetch: int -> Fetch, topic: Option<int>, start: int, k: int) {
    var f := fetch(k);
    && Eligible(f, topic) && HasContent(f.msg)
    && (f.msg.mediaGroupId.Some? ==> !GroupSeenBefore(fetch, topic, start, k, f.msg.mediaGroupId.value))
  }

  /** Id k is skipped as a duplicate: an eligible group member with an
      earlier eligible member of the same group. */
  ghost predicate Duplicate(fetch: int -> Fetch, topic: Option<int>, start: int, k: int) {
    var f := fetch(k);
    && Eligible(f, topic) && f.msg.mediaGroupId.Some?
    && GroupSeenBefore(fetch, topic, start, k, f.msg.mediaGroupId.value)
  }

  ghost function EmitsAt(fetch: int -> Fetch, topic: Option<int>, start: int): int -> bool {
    k => Emits(fetch, topic, start, k)
  }

  ghost function DuplicateAt(fetch: int -> Fetch, topic: Option<int>, start: int): int -> bool {
    k => Duplicate(fetch, topic, start, k)
  }

  /** The ids among the first n of the range that satisfy p, ascending. */
  ghost function IdsWhere(start: int, n: nat, p: int -> bool): seq<int> {
    if n == 0 then [] else IdsWhere(start, n - 1, p) + (if p(start + n - 1) then [start + n - 1] else [])
  }

  lemma {:induction false} IdsWhereMembers(start: int, n: nat, p: int -> bool)
    ensures var r := IdsWhere(start, n, p);
      && |r| <= n
      && (forall k :: k in r <==> start <= k < start + n && p(k))
      && (forall i, j :: 0 <= i < j < |r| ==> r[i] < r[j])
  {
    if n > 0 {
      IdsWhereMembers(start, n - 1, p);
      var r := IdsWhere(start, n - 1, p);
      forall i | 0 <= i < |r| ensures r[i] < start + n - 1 {
        assert r[i] in r;
      }
    }
  }

  lemma SeenStep(fetch: int -> Fetch, topic: Option<int>, start: int, k: int, g: GroupId)
    requires start <= k
    ensures GroupSeenBefore(fetch, topic, start, k + 1, g) <==>
              GroupSeenBefore(fetch, topic, start, k, g) || MemberOf(fetch(k), topic, g)
  {
    if GroupSeenBefore(fetch, topic, start, k + 1, g) && !MemberOf(fetch(k), topic, g) {
      var j :| start <= j < k + 1 && MemberOf(fetch(j), topic, g);
      assert j < k;
    }
  }

  /** While the scan runs, the processed set holds exactly the groups of
      the eligible ids scanned so far. */
  lemma {:induction false} ProcessedAreSeen(start: int, n: nat, topic: Option<int>,
                                            fetch: int -> Fetch, interrupted: int -> bool)
    requires !Scan(start, n, topic, fetch, interrupted).cancelled
    ensures forall g :: g in Scan(start, n, topic, fetch, interrupted).processedGroups <==>
                        GroupSeenBefore(fetch, topic, start, start + n, g)
  {
    if n > 0 {
      var k := start + n - 1;
      var prev := Scan(start, n - 1, topic, fetch, interrupted);
      ProcessedAreSeen(start, n - 1, topic, fetch, interrupted);
      var st := Scan(start, n, topic, fetch, interrupted);
      forall g ensures g in st.processedGroups <==> GroupSeenBefore(fetch, topic, start, start + n, g) {
        SeenStep(fetch, topic, start, k, g);
      }
    }
  }

  /** The classification of id k, given the groups seen before it, agrees
      with Emits and Duplicate. */
  lemma ClassifyMatches(fetch: int -> Fetch, topic: Option<int>, start: int, k: int, processed: set<GroupId>)
    requires forall g :: g in processed <==> GroupSeenBefore(fetch, topic, start, k, g)
    ensures Classify(fetch(k), topic, processed) == Launch <==> Emits(fetch, topic, start, k)
    ensures Classify(fetch(k), topic, processed) == DuplicateMember <==> Duplicate(fetch, topic, start, k)
  {
  }

  /** Without cancellation, the ids launched are exactly the ids of the
      range that Emits holds of. */
  lemma {:induction false} ScanLaunches(start: int, n: nat, topic: Option<int>,
                                        fetch: int -> Fetch, interrupted: int -> bool)
    requires !Scan(start, n, topic, fetch, interrupted).cancelled
    ensures Scan(start, n, topic, fetch, interrupted).launched == IdsWhere(start, n, EmitsAt(fetch, topic, start))
  {
    if n > 0 {
      var prev := Scan(start, n - 1, topic, fetch, interrupted);
      ScanLaunches(start, n - 1, topic, fetch, interrupted);
      ProcessedAreSeen(start, n - 1, topic, fetch, interrupted);
      ClassifyMatches(fetch, topic, start, start + n - 1, prev.processedGroups);
    }
  }

  /** Without cancellation, the ids listed as group duplicates are exactly
      the ids of the range that Duplicate holds of. */
  lemma {:induction false} ScanDuplicates(start: int, n: nat, topic: Option<int>,
                                          fetch: int -> Fetch, interrupted: int -> bool)
    requires !Scan(start, n, topic, fetch, interrupted).cancelled
    ensures Scan(start, n, topic, fetch, interrupted).groupDuplicates == IdsWhere(start, n, DuplicateAt(fetch, topic, start))
  {
    if n > 0 {
      var prev := Scan(start, n - 1, topic, fetch, interrupted);
      ScanDuplicates(start, n - 1, topic, fetch, interrupted);
      ProcessedAreSeen(start, n - 1, topic, fetch, interrupted);
      ClassifyMatches(fetch, topic, start, start + n - 1, prev.processedGroups);
    }
  }

  /** The fetch of id k raised: the id counts as failed. */
  ghost function RaisedAt(fetch: int -> Fetch): int -> bool {
    k => fetch(k).Raised?
  }

  /** Id k is reported as deleted or inaccessible: its fetch raised, or it
      gave no message or an empty one. */
  ghost function GoneAt(fetch: int -> Fetch): int -> bool {
    k => fetch(k).Raised? || fetch(k).Absent? || fetch(k).msg.empty
  }

  /** A message that exists but lies outside the topic of the link. */
  predicate OffTopicMessage(f: Fetch, topic: Option<int>) {
    f.Got? && !f.msg.empty && topic.Some? && !BelongsToTopic(Some(f.msg), topic.value)
  }

  ghost function OffTopicAt(fetch: int -> Fetch, topic: Option<int>): int -> bool {
    k => OffTopicMessage(fetch(k), topic)
  }

  /** Without cancellation, the failed count is the number of ids of the
      range whose fetch raised. */
  lemma {:induction false} ScanFailures(start: int, n: nat, topic: Option<int>,
                                        fetch: int -> Fetch, interrupted: int -> bool)
    requires !Scan(start, n, topic, fetch, interrupted).cancelled
    ensures Scan(start, n, topic, fetch, interrupted).failed == |IdsWhere(start, n, RaisedAt(fetch))|
  {
    if n > 0 {
      ScanFailures(start, n - 1, topic, fetch, interrupted);
    }
  }

  /** Without cancellation, the ids listed as deleted are exactly the ids of
      the range whose fetch raised or gave no message or an empty one. */
  lemma {:induction false} ScanDeleted(start: int, n: nat, topic: Option<int>,
                                       fetch: int -> Fetch, interrupted: int -> bool)
    requires !Scan(start, n, topic, fetch, interrupted).cancelled
    ensures Scan(start, n, topic, fetch, interrupted).deleted == IdsWhere(start, n, GoneAt(fetch))
  {
    if n > 0 {
      ScanDeleted(start, n - 1, topic, fetch, interrupted);
    }
  }

  /** Without cancellation, the ids listed as outside the topic are exactly
      the ids of the range whose message exists but is off topic. */
  lemma {:induction false} ScanOffTopic(start: int, n: nat, topic: Option<int>,
                                        fetch: int -> Fetch, interrupted: int -> bool)
    requires !Scan(start, n, topic, fetch, interrupted).cancelled
    ensures Scan(start, n, topic, fetch, interrupted).notInTopic == IdsWhere(start, n, OffTopicAt(fetch, topic))
  {
    if n > 0 {
      ScanOffTopic(start, n - 1, topic, fetch, interrupted);
    }
  }

  /** Without cancellation, no download that was launched had its await
      interrupted. */
  lemma {:induction false} ScanUninterrupted(start: int, n: nat, topic: Option<int>,
                                             fetch: int -> Fetch, interrupted: int -> bool)
    requires !Scan(start, n, topic, fetch, interrupted).cancelled
    ensures forall k :: k in Scan(start, n, topic, fetch, interrupted).launched ==> !interrupted(k)
  {
    if n > 0 {
      ScanUninterrupted(start, n - 1, topic, fetch, interrupted);
    }
  }

  /** While the scan runs, no id of it that is to be downloaded was
      interrupted. */
  lemma EarlierUninterrupted(start: int, n: nat, topic: Option<int>,
                             fetch: int -> Fetch, interrupted: int -> bool)
    requires !Scan(start, n, topic, fetch, interrupted).cancelled
    ensures forall k :: start <= k < start + n && Emits(fetch, topic, start, k) ==> !interrupted(k)
  {
    ScanLaunches(start, n, topic, fetch, interrupted);
    ScanUninterrupted(start, n, topic, fetch, interrupted);
    IdsWhereMembers(start, n, EmitsAt(fetch, topic, start));
  }

  /** A step that cancels the scan launched its id, whose await was
      interrupted, and counted nothing. */
  lemma StepCancels(st: ScanState, id: int, f: Fetch, topic: Option<int>, interrupted: bool)
    requires !st.cancelled && Step(st, id, f, topic, interrupted).cancelled
    ensures Classify(f, topic, st.processedGroups) == Launch && interrupted
    ensures var st' := Step(st, id, f, topic, interrupted);
      && st'.fetched == st.fetched + [id] && st'.launched == st.launched + [id]
      && st'.downloaded == st.downloaded
  {
  }

  /** The number m of ids after which a cancelled scan became cancelled:
      the scan of the first m - 1 ids was still running. */
  lemma {:induction false} CancelPoint(start: int, n: nat, topic: Option<int>,
                                       fetch: int -> Fetch, interrupted: int -> bool) returns (m: nat)
    requires Scan(start, n, topic, fetch, interrupted).cancelled
    ensures 1 <= m <= n
    ensures !Scan(start, m - 1, topic, fetch, interrupted).cancelled
    ensures Scan(start, m, topic, fetch, interrupted).cancelled
  {
    if Scan(start, n - 1, topic, fetch, interrupted).cancelled {
      m := CancelPoint(start, n - 1, topic, fetch, interrupted);
    } else {
      m := n;
    }
  }

  /** The state of the scan just after the step that cancelled it, the
      m-th: that id is to be downloaded and was interrupted, it is the
      last one fetched, and the ids launched are those to be downloaded
      up to it. */
  lemma StopStep(start: int, m: nat, topic: Option<int>,
                 fetch: int -> Fetch, interrupted: int -> bool)
    requires m >= 1
    requires !Scan(start, m - 1, topic, fetch, interrupted).cancelled
    requires Scan(start, m, topic, fetch, interrupted).cancelled
    ensures var st := Scan(start, m, topic, fetch, interrupted);
      && |st.fetched| == m
      && Emits(fetch, topic, start, start + m - 1) && interrupted(start + m - 1)
      && st.launched == IdsWhere(start, m, EmitsAt(fetch, topic, start))
      && st.downloaded == |IdsWhere(start, m - 1, EmitsAt(fetch, topic, start))|
  {
    var c := start + m - 1;
    var prev := Scan(start, m - 1, topic, fetch, interrupted);
    assert Scan(start, m, topic, fetch, interrupted) == Step(prev, c, fetch(c), topic, interrupted(c));
    StepCancels(prev, c, fetch(c), topic, interrupted(c));
    ProcessedAreSeen(start, m - 1, topic, fetch, interrupted);
    ClassifyMatches(fetch, topic, start, c, prev.processedGroups);
    assert Emits(fetch, topic, start, c);
    ScanShape(start, m - 1, topic, fetch, interrupted);
    ScanLaunches(start, m - 1, topic, fetch, interrupted);
  }

  /** StopStep together with the earlier ids, stated with the stopping id
      read off the state. */
  lemma StopState(st: ScanState, start: int, m: nat, topic: Option<int>,
                  fetch: int -> Fetch, interrupted: int -> bool)
    requires m >= 1
    requires !Scan(start, m - 1, topic, fetch, interrupted).cancelled
    requires st == Scan(start, m, topic, fetch, interrupted) && st.cancelled
    ensures var c := start + |st.fetched| - 1;
      && |st.fetched| == m
      && Emits(fetch, topic, start, c) && interrupted(c)
      && (forall k :: start <= k < c && Emits(fetch, topic, start, k) ==> !interrupted(k))
      && st.launched == IdsWhere(start, |st.fetched|, EmitsAt(fetch, topic, start))
      && st.downloaded == |IdsWhere(start, |st.fetched| - 1, EmitsAt(fetch, topic, start))|
  {
    StopStep(start, m, topic, fetch, interrupted);
    EarlierUninterrupted(start, m - 1, topic, fetch, interrupted);
  }

  /** A cancelled scan stops at the first id that is to be downloaded and
      whose await was interrupted: no earlier such id was interrupted, the
      ids launched are the ids to be downloaded up to it, and the count
      reported is the number of those before it. */
  lemma CancelledScanStops(st: ScanState, start: int, n: nat, topic: Option<int>,
                           fetch: int -> Fetch, interrupted: int -> bool)
    requires st == Scan(start, n, topic, fetch, interrupted) && st.cancelled
    ensures var c := start + |st.fetched| - 1;
      && 1 <= |st.fetched| <= n
      && Emits(fetch, topic, start, c) && interrupted(c)
      && (forall k :: start <= k < c && Emits(fetch, topic, start, k) ==> !interrupted(k))
      && st.launched == IdsWhere(start, |st.fetched|, EmitsAt(fetch, topic, start))
      && st.downloaded == |IdsWhere(start, |st.fetched| - 1, EmitsAt(fetch, topic, start))|
  {
    var m := CancelPoint(start, n, topic, fetch, interrupted);
    CancelledIsFinal(start, m, n, topic, fetch, interrupted);
    StopState(st, start, m, topic, fetch, interrupted);
  }

  /** Two downloaded ids never share a media group. */
  lemma OneRepresentativePerGroup(fetch: int -> Fetch, topic: Option<int>, start: int, k1: int, k2: int, g: GroupId)
    requires start <= k1 < k2
    requires Emits(fetch, topic, start, k1) && Emits(fetch, topic, start, k2)
    requires fetch(k1).msg.mediaGroupId == Some(g)
    ensures fetch(k2).msg.mediaGroupId != Some(g)
  {
    if fetch(k2).msg.mediaGroupId == Some(g) {
      assert MemberOf(fetch(k1), topic, g);
      assert GroupSeenBefore(fetch, topic, start, k2, g);
    }
  }

  // ---------------------------------------------------------------------
  // What a run of download_range reports
  // ---------------------------------------------------------------------

  /** A run that gets past validation and is not cancelled fetches every id
      of the range in ascending order, counts each exactly once, downloads
      exactly the ids Emits selects, skips as duplicates exactly those
      Duplicate selects, reports as processed exactly the groups of
      eligible ids, counts as failed the ids whose fetch raised, and lists
      as deleted and as outside the topic exactly the ids that are. */
  lemma CompletedRun(args: seq<string>, parse: string -> Option<Link>, fetch: int -> Fetch, interrupted: int -> bool)
    requires DownloadRangeOutcome(args, parse, fetch, interrupted).Completed?
    ensures ValidateRange(args, parse).Success?
    ensures var rg := ValidateRange(args, parse).value;
      var topic := ActiveTopic(rg.thread);
      var n := rg.endId - rg.startId + 1;
      var st := DownloadRangeOutcome(args, parse, fetch, interrupted).state;
      && st.fetched == Ids(rg.startId, n)
      && st.downloaded + st.skipped + st.failed == n
      && st.downloaded == |st.launched|
      && st.launched == IdsWhere(rg.startId, n, EmitsAt(fetch, topic, rg.startId))
      && st.groupDuplicates == IdsWhere(rg.startId, n, DuplicateAt(fetch, topic, rg.startId))
      && (forall g :: g in st.processedGroups <==> GroupSeenBefore(fetch, topic, rg.startId, rg.endId + 1, g))
      && st.failed == |IdsWhere(rg.startId, n, RaisedAt(fetch))|
      && st.deleted == IdsWhere(rg.startId, n, GoneAt(fetch))
      && st.notInTopic == IdsWhere(rg.startId, n, OffTopicAt(fetch, topic))
      && (forall k :: rg.startId <= k <= rg.endId && Emits(fetch, topic, rg.startId, k) ==> !interrupted(k))
  {
    var rg := ValidateRange(args, parse).value;
    var topic := ActiveTopic(rg.thread);
    var n := rg.endId - rg.startId + 1;
    CompletedScan(ScanFrom(Initial, rg.startId, n, topic, fetch, interrupted), rg.startId, n, topic, fetch, interrupted);
  }

  /** What a scan that ran to its end holds, on a state given by name. */
  lemma CompletedScan(st: ScanState, start: int, n: nat, topic: Option<int>,
                      fetch: int -> Fetch, interrupted: int -> bool)
    requires st == ScanFrom(Initial, start, n, topic, fetch, interrupted)
    requires !st.cancelled
    ensures st.fetched == Ids(start, n)
    ensures st.downloaded + st.skipped + st.failed == n
    ensures st.downloaded == |st.launched|
    ensures st.launched == IdsWhere(start, n, EmitsAt(fetch, topic, start))
    ensures st.groupDuplicates == IdsWhere(start, n, DuplicateAt(fetch, topic, start))
    ensures forall g :: g in st.processedGroups <==> GroupSeenBefore(fetch, topic, start, start + n, g)
    ensures st.failed == |IdsWhere(start, n, RaisedAt(fetch))|
    ensures st.deleted == IdsWhere(start, n, GoneAt(fetch))
    ensures st.notInTopic == IdsWhere(start, n, OffTopicAt(fetch, topic))
    ensures forall k :: k in st.launched ==> !interrupted(k)
    ensures forall k :: start <= k < start + n && Emits(fetch, topic, start, k) ==> !interrupted(k)
  {
    ScanIsScanFrom(start, n, topic, fetch, interrupted);
    ScanShape(start, n, topic, fetch, interrupted);
    ScanLaunches(start, n, topic, fetch, interrupted);
    ScanDuplicates(start, n, topic, fetch, interrupted);
    ProcessedAreSeen(start, n, topic, fetch, interrupted);
    ScanFailures(start, n, topic, fetch, interrupted);
    ScanDeleted(start, n, topic, fetch, interrupted);
    ScanOffTopic(start, n, topic, fetch, interrupted);
    ScanUninterrupted(start, n, topic, fetch, interrupted);
    EarlierUninterrupted(start, n, topic, fetch, interrupted);
  }

  /** The completion message of a run, stated without the scan: its three
      counts add up to the size of the range, the failed count is the
      number of ids whose fetch raised, and its lists are those of the ids
      downloaded, deleted, outside the topic (with a topic only) and
      skipped as group duplicates, each listed when there are at most ten
      and counted otherwise. The processed-groups line appears exactly when
      some eligible id of the range is in a media group. */
  lemma CompletedReport(args: seq<string>, parse: string -> Option<Link>, fetch: int -> Fetch, interrupted: int -> bool)
    requires DownloadRangeOutcome(args, parse, fetch, interrupted).Completed?
    ensures ValidateRange(args, parse).Success?
    ensures var rg := ValidateRange(args, parse).value;
      var topic := ActiveTopic(rg.thread);
      var n := rg.endId - rg.startId + 1;
      var rep := DownloadRangeOutcome(args, parse, fetch, interrupted).report;
      && rep.downloaded + rep.skipped + rep.failed == n
      && rep.downloaded == |IdsWhere(rg.startId, n, EmitsAt(fetch, topic, rg.startId))|
      && rep.failed == |IdsWhere(rg.startId, n, RaisedAt(fetch))|
      && rep.deleted == ListIds(IdsWhere(rg.startId, n, GoneAt(fetch)))
      && rep.groupDuplicates == ListIds(IdsWhere(rg.startId, n, DuplicateAt(fetch, topic, rg.startId)))
      && rep.notInTopic == (if topic.Some? then ListIds(IdsWhere(rg.startId, n, OffTopicAt(fetch, topic))) else None)
      && rep.forumTopic == topic
      && (rep.groupsProcessed.Some? <==>
            exists j :: rg.startId <= j <= rg.endId && Eligible(fetch(j), topic) && fetch(j).msg.mediaGroupId.Some?)
  {
    var rg := ValidateRange(args, parse).value;
    var topic := ActiveTopic(rg.thread);
    var st := DownloadRangeOutcome(args, parse, fetch, interrupted).state;
    CompletedRun(args, parse, fetch, interrupted);
    if exists j :: rg.startId <= j <= rg.endId && Eligible(fetch(j), topic) && fetch(j).msg.mediaGroupId.Some? {
      var j :| rg.startId <= j <= rg.endId && Eligible(fetch(j), topic) && fetch(j).msg.mediaGroupId.Some?;
      var g := fetch(j).msg.mediaGroupId.value;
      assert MemberOf(fetch(j), topic, g);
      assert g in st.processedGroups;
    }
    if st.processedGroups != {} {
      var g :| g in st.processedGroups;
      assert GroupSeenBefore(fetch, topic, rg.startId, rg.endId + 1, g);
    }
  }

  /** For a group member that exists and passes the topic filter, a
      completed run downloads it iff no earlier id of the range is such a
      member of its group, and otherwise lists it as a duplicate. */
  lemma GroupMemberFate(args: seq<string>, parse: string -> Option<Link>, fetch: int -> Fetch,
                        interrupted: int -> bool, k: int, g: GroupId)
    requires DownloadRangeOutcome(args, parse, fetch, interrupted).Completed?
    requires ValidateRange(args, parse).Success?
    requires ValidateRange(args, parse).value.startId <= k <= ValidateRange(args, parse).value.endId
    requires MemberOf(fetch(k), ActiveTopic(ValidateRange(args, parse).value.thread), g)
    ensures var rg := ValidateRange(args, parse).value;
      var st := DownloadRangeOutcome(args, parse, fetch, interrupted).state;
      var earlier := GroupSeenBefore(fetch, ActiveTopic(rg.thread), rg.startId, k, g);
      && (k in st.launched <==> !earlier)
      && (k in st.groupDuplicates <==> earlier)
  {
    var rg := ValidateRange(args, parse).value;
    var topic := ActiveTopic(rg.thread);
    var n := rg.endId - rg.startId + 1;
    MemberScanFate(ScanFrom(Initial, rg.startId, n, topic, fetch, interrupted), rg.startId, n, topic, fetch, interrupted, k, g);
  }

  /** The fate of one group member in a scan that ran to its end. */
  lemma MemberScanFate(st: ScanState, start: int, n: nat, topic: Option<int>,
                       fetch: int -> Fetch, interrupted: int -> bool, k: int, g: GroupId)
    requires st == ScanFrom(Initial, start, n, topic, fetch, interrupted)
    requires !st.cancelled
    requires start <= k < start + n
    requires MemberOf(fetch(k), topic, g)
    ensures k in st.launched <==> !GroupSeenBefore(fetch, topic, start, k, g)
    ensures k in st.groupDuplicates <==> GroupSeenBefore(fetch, topic, start, k, g)
  {
    CompletedScan(st, start, n, topic, fetch, interrupted);
    IdsWhereMembers(start, n, EmitsAt(fetch, topic, start));
    IdsWhereMembers(start, n, DuplicateAt(fetch, topic, start));
  }

  /** A cancelled run stops at the id whose download was cancelled: the ids
      fetched are the range from its start up to that id, and the count it
      reports leaves that download out. */
  lemma CancelledRun(args: seq<string>, parse: string -> Option<Link>, fetch: int -> Fetch, interrupted: int -> bool)
    requires DownloadRangeOutcome(args, parse, fetch, interrupted).Cancelled?
    ensures ValidateRange(args, parse).Success?
    ensures var rg := ValidateRange(args, parse).value;
      var topic := ActiveTopic(rg.thread);
      var o := DownloadRangeOutcome(args, parse, fetch, interrupted);
      var st := o.state;
      var c := rg.startId + |st.fetched| - 1;
      && 1 <= |st.fetched| <= rg.endId - rg.startId + 1
      && st.fetched == Ids(rg.startId, |st.fetched|)
      && |st.launched| >= 1
      && st.fetched[|st.fetched| - 1] == st.launched[|st.launched| - 1]
      && interrupted(st.fetched[|st.fetched| - 1])
      && o.downloaded == |st.launched| - 1
      && Emits(fetch, topic, rg.startId, c)
      && (forall k :: rg.startId <= k < c && Emits(fetch, topic, rg.startId, k) ==> !interrupted(k))
      && st.launched == IdsWhere(rg.startId, |st.fetched|, EmitsAt(fetch, topic, rg.startId))
      && o.downloaded == |IdsWhere(rg.startId, |st.fetched| - 1, EmitsAt(fetch, topic, rg.startId))|
  {
    var rg := ValidateRange(args, parse).value;
    var topic := ActiveTopic(rg.thread);
    var n := rg.endId - rg.startId + 1;
    CancelledScan(ScanFrom(Initial, rg.startId, n, topic, fetch, interrupted), rg.startId, n, topic, fetch, interrupted);
  }

  /** The shape of a cancelled scan, on a state given by name. */
  lemma CancelledScan(st: ScanState, start: int, n: nat, topic: Option<int>,
                      fetch: int -> Fetch, interrupted: int -> bool)
    requires st == ScanFrom(Initial, start, n, topic, fetch, interrupted)
    requires st.cancelled
    ensures FetchShaped(st, start, n, interrupted)
    ensures st.downloaded == |st.launched| - 1
    ensures var c := start + |st.fetched| - 1;
      && Emits(fetch, topic, start, c)
      && (forall k :: start <= k < c && Emits(fetch, topic, start, k) ==> !interrupted(k))
      && st.launched == IdsWhere(start, |st.fetched|, EmitsAt(fetch, topic, start))
      && st.downloaded == |IdsWhere(start, |st.fetched| - 1, EmitsAt(fetch, topic, start))|
  {
    ScanIsScanFrom(start, n, topic, fetch, interrupted);
    ScanShape(start, n, topic, fetch, interrupted);
    CancelledScanStops(st, start, n, topic, fetch, interrupted);
  }
}
