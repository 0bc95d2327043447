/** The /bdl2 handler of bt/Untitled-2.py (download_range_advanced): the
    same link validation as /bdl, a pre-scan that picks the ids to download
    (one representative per media group), a download phase over that list,
    and the derived skipped count.

    PreScan and Phase are the folds that specify the two loops; the lemmas
    relate the pre-scan to the one-pass scanner's reference predicates
    (Batch.Emits, Batch.GroupSeenBefore) and so to the one-pass scan. */
module AdvancedBatch {
  import opened Wrappers
  import opened Telegram
  import opened Bot
  import Batch

  // ---------------------------------------------------------------------
  // Phase one: the pre-scan
  // ---------------------------------------------------------------------

  /** media_groups (group id -> first id) and valid_messages. */
  datatype PreScanState = PreScanState(mediaGroups: map<GroupId, int>, valid: seq<int>)

  const PreInitial := PreScanState(map[], [])

  /** The pre-scan keeps an id when its fetch did not raise, the message
      exists, passes the topic filter, has content, and its media group (if
      any) has no representative yet. */
  predicate Admitted(f: Fetch, topic: Option<int>, groups: map<GroupId, int>) {
    && Batch.Eligible(f, topic) && HasContent(f.msg)
    && (f.msg.mediaGroupId.Some? ==> f.msg.mediaGroupId.value !in groups)
  }

  function PreStep(ps: PreScanState, id: int, f: Fetch, topic: Option<int>): PreScanState {
    var keep := Admitted(f, topic, ps.mediaGroups);
    PreScanState(
      mediaGroups := if keep && f.msg.mediaGroupId.Some? then ps.mediaGroups[f.msg.mediaGroupId.value := id]
                     else ps.mediaGroups,
      valid := ps.valid + (if keep then [id] else []))
  }

  /** The pre-scan state after the first n ids of the range from `start`. */
  function PreScan(start: int, n: nat, topic: Option<int>, fetch: int -> Fetch): PreScanState {
    if n == 0 then PreInitial
    else
      var k := start + n - 1;
      PreStep(PreScan(start, n - 1, topic, fetch), k, fetch(k), topic)
  }

  /** The pre-scan loop over start_id..end_id. A fetch that raises is
      logged and the id passed over. */
  method PreScanRange(startId: int, endId: int, topic: Option<int>, fetch: int -> Fetch)
    returns (ps: PreScanState)
    requires startId <= endId
    ensures ps == PreScan(startId, endId - startId + 1, topic, fetch)
  {
    ps := PreInitial;
    var msgId := startId;
    ghost var n: nat := 0;
    while msgId <= endId
      invariant startId <= msgId <= endId + 1
      invariant n == msgId - startId
      invariant ps == PreScan(startId, n, topic, fetch)
    {
      var f := fetch(msgId);
      if f.Raised? {
      } else if f.Absent? || f.msg.empty {
      } else if topic.Some? && !BelongsToTopic(Some(f.msg), topic.value) {
      } else if !HasContent(f.msg) {
      } else if f.msg.mediaGroupId.Some? {
        if f.msg.mediaGroupId.value !in ps.mediaGroups {
          ps := ps.(mediaGroups := ps.mediaGroups[f.msg.mediaGroupId.value := msgId], valid := ps.valid + [msgId]);
        }
      } else {
        ps := ps.(valid := ps.valid + [msgId]);
      }
      msgId, n := msgId + 1, n + 1;
    }
  }

  // ---------------------------------------------------------------------
  // Phase two: downloading the list
  // ---------------------------------------------------------------------

  /** How the try block around one download ends: the task finished, an
      Exception was raised (by the progress edit or the task), or awaiting
      the task raised CancelledError. */
  datatype Attempt = Done | Error | Interrupted

  /** The counters, the ids whose try block was entered, and whether the
      batch was cancelled. */
  datatype PhaseState = PhaseState(downloaded: nat, failed: nat, attempted: seq<int>, cancelled: bool)

  const PhaseInitial := PhaseState(0, 0, [], false)

  function PhaseStep(st: PhaseState, id: int, a: Attempt): PhaseState {
    if st.cancelled then st
    else
      PhaseState(
        downloaded := st.downloaded + (if a == Done then 1 else 0),
        failed := st.failed + (if a == Error then 1 else 0),
        attempted := st.attempted + [id],
        cancelled := a == Interrupted)
  }

  /** The download phase over `ids`, in order. */
  function Phase(ids: seq<int>, attempt: int -> Attempt): PhaseState
    decreases |ids|
  {
    if ids == [] then PhaseInitial
    else
      var last := ids[|ids| - 1];
      PhaseStep(Phase(ids[..|ids| - 1], attempt), last, attempt(last))
  }

  /** The download loop: one try block per listed id, stopping when a
      download is cancelled. */
  method DownloadPhase(valid: seq<int>, attempt: int -> Attempt) returns (st: PhaseState)
    ensures st == Phase(valid, attempt)
  {
    st := PhaseInitial;
    var i := 0;
    while i < |valid| && !st.cancelled
      invariant 0 <= i <= |valid|
      decreases |valid| - i
      invariant st == Phase(valid[..i], attempt)
    {
      assert valid[..i + 1][..i] == valid[..i];
      match attempt(valid[i]) {
        case Done =>
          st := st.(downloaded := st.downloaded + 1, attempted := st.attempted + [valid[i]]);
        case Error =>
          st := st.(failed := st.failed + 1, attempted := st.attempted + [valid[i]]);
        case Interrupted =>
          st := st.(attempted := st.attempted + [valid[i]], cancelled := true);
      }
      i := i + 1;
    }
    if st.cancelled {
      PhaseCancelledStays(valid, i, |valid|, attempt);
    }
    assert valid[..|valid|] == valid;
  }

  lemma {:induction false} PhaseCancelledStays(ids: seq<int>, i: nat, j: nat, attempt: int -> Attempt)
    requires i <= j <= |ids|
    requires Phase(ids[..i], attempt).cancelled
    ensures Phase(ids[..j], attempt) == Phase(ids[..i], attempt)
    decreases j - i
  {
    if i < j {
      PhaseCancelledStays(ids, i, j - 1, attempt);
      assert ids[..j][..j - 1] == ids[..j - 1];
    }
  }

  /** The number of ids among the first n of `ids` whose try block ends
      as `a`. */
  function TallyBefore(ids: seq<int>, n: nat, attempt: int -> Attempt, a: Attempt): (t: nat)
    requires n <= |ids|
    ensures t <= n
  {
    if n == 0 then 0
    else TallyBefore(ids, n - 1, attempt, a) + (if attempt(ids[n - 1]) == a then 1 else 0)
  }

  /** The number of ids in `ids` whose try block ends as `a`. */
  function Tally(ids: seq<int>, attempt: int -> Attempt, a: Attempt): (t: nat)
    ensures t <= |ids|
  {
    TallyBefore(ids, |ids|, attempt, a)
  }

  /** The count over a prefix depends on that prefix only. */
  lemma {:induction false} TallyPrefix(s: seq<int>, t: seq<int>, n: nat, attempt: int -> Attempt, a: Attempt)
    requires n <= |s| && n <= |t| && s[..n] == t[..n]
    ensures TallyBefore(s, n, attempt, a) == TallyBefore(t, n, attempt, a)
  {
    if n > 0 {
      assert s[n - 1] == s[..n][n - 1] == t[..n][n - 1] == t[n - 1];
      assert s[..n - 1] == s[..n][..n - 1] == t[..n][..n - 1] == t[..n - 1];
      TallyPrefix(s, t, n - 1, attempt, a);
    }
  }

  /** The counters of the download phase: downloaded counts the ids tried
      whose download finished, failed those whose try block raised an
      Exception. */
  lemma {:induction false} PhaseTally(ids: seq<int>, attempt: int -> Attempt)
    ensures var st := Phase(ids, attempt);
      && st.downloaded == Tally(st.attempted, attempt, Done)
      && st.failed == Tally(st.attempted, attempt, Error)
    decreases |ids|
  {
    if ids != [] {
      var p := ids[..|ids| - 1];
      PhaseTally(p, attempt);
      var prev := Phase(p, attempt);
      if !prev.cancelled {
        var a := prev.attempted + [ids[|ids| - 1]];
        assert a[..|prev.attempted|] == prev.attempted[..|prev.attempted|];
        TallyPrefix(a, prev.attempted, |prev.attempted|, attempt, Done);
        TallyPrefix(a, prev.attempted, |prev.attempted|, attempt, Error);
      }
    }
  }

  /** The order and the number of the ids the download phase visits. */
  lemma {:induction false} PhaseVisits(ids: seq<int>, attempt: int -> Attempt)
    ensures var st := Phase(ids, attempt);
      && |st.attempted| <= |ids|
      && st.attempted == ids[..|st.attempted|]
      && st.downloaded + st.failed + (if st.cancelled then 1 else 0) == |st.attempted|
      && (forall i :: 0 <= i < |st.attempted| - 1 ==> attempt(st.attempted[i]) != Interrupted)
      && (!st.cancelled ==> |st.attempted| == |ids| && forall i :: 0 <= i < |ids| ==> attempt(ids[i]) != Interrupted)
      && (st.cancelled ==> |st.attempted| >= 1 && attempt(st.attempted[|st.attempted| - 1]) == Interrupted)
    decreases |ids|
  {
    if ids != [] {
      var p := ids[..|ids| - 1];
      PhaseVisits(p, attempt);
      var prev := Phase(p, attempt);
      assert p[..|prev.attempted|] == ids[..|prev.attempted|];
      if !prev.cancelled {
        assert ids[..|ids|] == ids;
        assert ids == p + [ids[|ids| - 1]];
      }
    }
  }

  /** The download phase visits the list in order from its start; without
      cancellation it visits all of it, each id counted once as downloaded
      or failed (downloaded counting the finished downloads, failed the
      raised ones), and no download was interrupted; a cancelled phase stops at
      its first interrupted download, which it does not count. */
  lemma PhaseShape(ids: seq<int>, attempt: int -> Attempt)
    ensures var st := Phase(ids, attempt);
      && |st.attempted| <= |ids|
      && st.attempted == ids[..|st.attempted|]
      && st.downloaded + st.failed + (if st.cancelled then 1 else 0) == |st.attempted|
      && (forall i :: 0 <= i < |st.attempted| - 1 ==> attempt(st.attempted[i]) != Interrupted)
      && (!st.cancelled ==> |st.attempted| == |ids| && forall i :: 0 <= i < |ids| ==> attempt(ids[i]) != Interrupted)
      && (st.cancelled ==> |st.attempted| >= 1 && attempt(st.attempted[|st.attempted| - 1]) == Interrupted)
      && st.downloaded == Tally(st.attempted, attempt, Done)
      && st.failed == Tally(st.attempted, attempt, Error)
  {
    PhaseVisits(ids, attempt);
    PhaseTally(ids, attempt);
  }

  // ---------------------------------------------------------------------
  // The handler
  // ---------------------------------------------------------------------

  /** The completion message's numbers, in the source's order. */
  datatype Summary = Summary(downloaded: nat, mediaGroups: nat, skipped: int, failed: nat,
                             totalRange: nat, forumTopic: Option<int>)

  datatype AdvancedOutcome =
    | Refused(reason: Batch.Rejection)
    | Stopped(downloaded: nat, prescan: PreScanState, phase: PhaseState)   // "Batch canceled after downloading N posts"
    | Finished(prescan: PreScanState, phase: PhaseState, summary: Summary)

  /** skipped = total_range - len(valid_messages) */
  function Summarize(ps: PreScanState, st: PhaseState, total: nat, topic: Option<int>): (r: Summary)
    ensures r.skipped + |ps.valid| == r.totalRange == total
    ensures r.downloaded == st.downloaded && r.failed == st.failed
    ensures r.mediaGroups == |ps.mediaGroups| && r.forumTopic == topic
  {
    Summary(st.downloaded, |ps.mediaGroups|, total - |ps.valid|, st.failed, total, topic)
  }

  /** What download_range_advanced does for the command words `args`;
      `fetch` gives the message under each id and `attempt` how each
      download's try block ends. */
  function AdvancedOutcomeOf(args: seq<string>, parse: string -> Option<Link>,
                             fetch: int -> Fetch, attempt: int -> Attempt): AdvancedOutcome
  {
    match Batch.ValidateRange(args, parse)
    case Failure(e) => Refused(e)
    case Success(rg) => RangeOutcome(rg.startId, rg.endId, ActiveTopic(rg.thread), fetch, attempt)
  }

  /** The two phases over a validated range. */
  function RangeOutcome(startId: int, endId: int, topic: Option<int>,
                        fetch: int -> Fetch, attempt: int -> Attempt): AdvancedOutcome
  {
    var total := if startId <= endId then endId - startId + 1 else 0;
    var ps := PreScan(startId, total, topic, fetch);
    var st := Phase(ps.valid, attempt);
    if st.cancelled then Stopped(st.downloaded, ps, st)
    else Finished(ps, st, Summarize(ps, st, total, topic))
  }

  method DownloadRangeAdvanced(args: seq<string>, parse: string -> Option<Link>,
                               fetch: int -> Fetch, attempt: int -> Attempt) returns (r: AdvancedOutcome)
    ensures r == AdvancedOutcomeOf(args, parse, fetch, attempt)
  {
    var v := Batch.ValidateRange(args, parse);
    if v.Failure? {
      return Refused(v.error);
    }
    r := RunRange(v.value.startId, v.value.endId, ActiveTopic(v.value.thread), fetch, attempt);
  }

  method RunRange(startId: int, endId: int, topic: Option<int>,
                  fetch: int -> Fetch, attempt: int -> Attempt) returns (r: AdvancedOutcome)
    requires startId <= endId
    ensures r == RangeOutcome(startId, endId, topic, fetch, attempt)
  {
    var ps := PreScanRange(startId, endId, topic, fetch);
    var st := DownloadPhase(ps.valid, attempt);
    if st.cancelled {
      return Stopped(st.downloaded, ps, st);
    }
    var total := endId - startId + 1;
    return Finished(ps, st, Summarize(ps, st, total, topic));
  }

  // ---------------------------------------------------------------------
  // Properties of the pre-scan
  // ---------------------------------------------------------------------

  /** Id k is the first eligible member of group g in the range from start. */
  ghost predicate FirstMember(fetch: int -> Fetch, topic: Option<int>, start: int, k: int, g: GroupId) {
    Batch.MemberOf(fetch(k), topic, g) && !Batch.GroupSeenBefore(fetch, topic, start, k, g)
  }

  /** The keys of media_groups after n ids: the groups seen so far. */
  ghost predicate GroupsSeen(groups: map<GroupId, int>, fetch: int -> Fetch, topic: Option<int>, start: int, n: nat) {
    forall g :: g in groups <==> Batch.GroupSeenBefore(fetch, topic, start, start + n, g)
  }

  /** Each group is mapped to its first member among the first n ids. */
  ghost predicate FirstMembers(groups: map<GroupId, int>, fetch: int -> Fetch, topic: Option<int>, start: int, n: nat) {
    forall g :: g in groups ==> start <= groups[g] < start + n && FirstMember(fetch, topic, start, groups[g], g)
  }

  /** The admission test at id k agrees with Batch.Emits once the keys are
      the groups seen before k. */
  lemma AdmittedIsEmits(groups: map<GroupId, int>, fetch: int -> Fetch, topic: Option<int>, start: int, n: nat)
    requires GroupsSeen(groups, fetch, topic, start, n)
    ensures Admitted(fetch(start + n), topic, groups) <==> Batch.Emits(fetch, topic, start, start + n)
  {
  }

  lemma {:induction false} PreScanGroups(start: int, n: nat, topic: Option<int>, fetch: int -> Fetch)
    ensures GroupsSeen(PreScan(start, n, topic, fetch).mediaGroups, fetch, topic, start, n)
  {
    if n > 0 {
      var ps := PreScan(start, n - 1, topic, fetch);
      var k := start + n - 1;
      PreScanGroups(start, n - 1, topic, fetch);
      forall g ensures g in PreStep(ps, k, fetch(k), topic).mediaGroups <==> Batch.GroupSeenBefore(fetch, topic, start, k + 1, g) {
        Batch.SeenStep(fetch, topic, start, k, g);
      }
    }
  }

  lemma {:induction false} PreScanFirstMembers(start: int, n: nat, topic: Option<int>, fetch: int -> Fetch)
    ensures FirstMembers(PreScan(start, n, topic, fetch).mediaGroups, fetch, topic, start, n)
  {
    if n > 0 {
      var ps := PreScan(start, n - 1, topic, fetch);
      var k := start + n - 1;
      PreScanFirstMembers(start, n - 1, topic, fetch);
      PreScanGroups(start, n - 1, topic, fetch);
    }
  }

  lemma {:induction false} PreScanEmits(start: int, n: nat, topic: Option<int>, fetch: int -> Fetch)
    ensures PreScan(start, n, topic, fetch).valid == Batch.IdsWhere(start, n, Batch.EmitsAt(fetch, topic, start))
  {
    if n > 0 {
      var ps := PreScan(start, n - 1, topic, fetch);
      PreScanEmits(start, n - 1, topic, fetch);
      PreScanGroups(start, n - 1, topic, fetch);
      AdmittedIsEmits(ps.mediaGroups, fetch, topic, start, n - 1);
    }
  }

  /** A group gets its entry together with a listed id. */
  lemma {:induction false} PreScanGroupCount(start: int, n: nat, topic: Option<int>, fetch: int -> Fetch)
    ensures |PreScan(start, n, topic, fetch).mediaGroups| <= |PreScan(start, n, topic, fetch).valid| <= n
  {
    if n > 0 {
      PreScanGroupCount(start, n - 1, topic, fetch);
    }
  }

  /** valid_messages is strictly ascending within the range, holds exactly
      the ids the one-pass scanner would download, so never an id whose
      fetch raised, a missing or empty message, one off the topic or
      without content; and holds at most as many ids as there are groups. */
  lemma PreScanValid(start: int, n: nat, topic: Option<int>, fetch: int -> Fetch)
    ensures var ps := PreScan(start, n, topic, fetch);
      && (forall i, j :: 0 <= i < j < |ps.valid| ==> ps.valid[i] < ps.valid[j])
      && (forall k :: k in ps.valid <==> start <= k < start + n && Batch.Emits(fetch, topic, start, k))
      && (forall k :: k in ps.valid ==>
            && fetch(k).Got? && !fetch(k).msg.empty && HasContent(fetch(k).msg)
            && (topic.Some? ==> BelongsToTopic(Some(fetch(k).msg), topic.value)))
      && |ps.mediaGroups| <= |ps.valid| <= n
  {
    PreScanEmits(start, n, topic, fetch);
    PreScanGroupCount(start, n, topic, fetch);
    Batch.IdsWhereMembers(start, n, Batch.EmitsAt(fetch, topic, start));
  }

  /** media_groups maps each group to its smallest eligible id in the
      range, and that id is the only one of the group in valid_messages. */
  lemma MediaGroupsRepresent(start: int, n: nat, topic: Option<int>, fetch: int -> Fetch, g: GroupId)
    ensures var ps := PreScan(start, n, topic, fetch);
      && (g in ps.mediaGroups <==> exists j :: start <= j < start + n && Batch.MemberOf(fetch(j), topic, g))
      && (g in ps.mediaGroups ==>
            && start <= ps.mediaGroups[g] < start + n
            && Batch.MemberOf(fetch(ps.mediaGroups[g]), topic, g)
            && (forall j :: start <= j < ps.mediaGroups[g] ==> !Batch.MemberOf(fetch(j), topic, g))
            && ps.mediaGroups[g] in ps.valid
            && (forall k :: k in ps.valid && fetch(k).Got? && fetch(k).msg.mediaGroupId == Some(g) ==> k == ps.mediaGroups[g]))
  {
    var ps := PreScan(start, n, topic, fetch);
    PreScanGroups(start, n, topic, fetch);
    PreScanFirstMembers(start, n, topic, fetch);
    PreScanEmits(start, n, topic, fetch);
    Batch.IdsWhereMembers(start, n, Batch.EmitsAt(fetch, topic, start));
    if g in ps.mediaGroups {
      var m := ps.mediaGroups[g];
      assert FirstMember(fetch, topic, start, m, g);
      assert Batch.Emits(fetch, topic, start, m);
      forall k | k in ps.valid && fetch(k).Got? && fetch(k).msg.mediaGroupId == Some(g) ensures k == m {
        assert Batch.Emits(fetch, topic, start, k);
      }
    }
  }

  // ---------------------------------------------------------------------
  // Properties of the whole handler
  // ---------------------------------------------------------------------

  /** /bdl2 rejects a request exactly when /bdl does, with the same reason. */
  lemma SameValidation(args: seq<string>, parse: string -> Option<Link>,
                       fetch: int -> Fetch, attempt: int -> Attempt, interrupted: int -> bool)
    ensures AdvancedOutcomeOf(args, parse, fetch, attempt).Refused? <==>
            Batch.DownloadRangeOutcome(args, parse, fetch, interrupted).Rejected?
    ensures AdvancedOutcomeOf(args, parse, fetch, attempt).Refused? ==>
            AdvancedOutcomeOf(args, parse, fetch, attempt).reason ==
            Batch.DownloadRangeOutcome(args, parse, fetch, interrupted).reason
  {
  }

  /** A finished /bdl2 run: skipped + len(valid_messages) is the range's
      size, skipped is never negative, every listed id was tried, and the
      downloaded and failed counts are the listed ids whose download
      finished and those whose try block raised. */
  lemma FinishedCounts(args: seq<string>, parse: string -> Option<Link>,
                       fetch: int -> Fetch, attempt: int -> Attempt)
    requires AdvancedOutcomeOf(args, parse, fetch, attempt).Finished?
    ensures var o := AdvancedOutcomeOf(args, parse, fetch, attempt);
      && o.summary.skipped + |o.prescan.valid| == o.summary.totalRange
      && 0 <= o.summary.skipped
      && o.phase.attempted == o.prescan.valid
      && o.summary.downloaded + o.summary.failed == |o.prescan.valid|
      && o.summary.downloaded == Tally(o.prescan.valid, attempt, Done)
      && o.summary.failed == Tally(o.prescan.valid, attempt, Error)
  {
    var rg := Batch.ValidateRange(args, parse).value;
    FinishedRange(rg.startId, rg.endId, ActiveTopic(rg.thread), fetch, attempt);
  }

  lemma FinishedRange(startId: int, endId: int, topic: Option<int>, fetch: int -> Fetch, attempt: int -> Attempt)
    requires startId <= endId
    requires RangeOutcome(startId, endId, topic, fetch, attempt).Finished?
    ensures var o := RangeOutcome(startId, endId, topic, fetch, attempt);
      && o.summary.skipped + |o.prescan.valid| == o.summary.totalRange == endId - startId + 1
      && 0 <= o.summary.skipped
      && o.phase.attempted == o.prescan.valid
      && o.summary.downloaded + o.summary.failed == |o.prescan.valid|
      && o.summary.downloaded == Tally(o.prescan.valid, attempt, Done)
      && o.summary.failed == Tally(o.prescan.valid, attempt, Error)
  {
    var ps := PreScan(startId, endId - startId + 1, topic, fetch);
    PreScanGroupCount(startId, endId - startId + 1, topic, fetch);
    PhaseShape(ps.valid, attempt);
  }

  /** A cancelled /bdl2 run stops at the first listed id whose download was
      interrupted, after the listed ids before it; the count reported is
      the number of ids tried whose download finished. */
  lemma StoppedCounts(args: seq<string>, parse: string -> Option<Link>,
                      fetch: int -> Fetch, attempt: int -> Attempt)
    requires AdvancedOutcomeOf(args, parse, fetch, attempt).Stopped?
    ensures var o := AdvancedOutcomeOf(args, parse, fetch, attempt);
      var a := o.phase.attempted;
      && 1 <= |a| <= |o.prescan.valid|
      && a == o.prescan.valid[..|a|]
      && attempt(a[|a| - 1]) == Interrupted
      && (forall i :: 0 <= i < |a| - 1 ==> attempt(a[i]) != Interrupted)
      && o.downloaded + o.phase.failed == |a| - 1
      && o.downloaded == Tally(a, attempt, Done)
      && o.phase.failed == Tally(a, attempt, Error)
  {
    var rg := Batch.ValidateRange(args, parse).value;
    StoppedRange(rg.startId, rg.endId, ActiveTopic(rg.thread), fetch, attempt);
  }

  lemma StoppedRange(startId: int, endId: int, topic: Option<int>, fetch: int -> Fetch, attempt: int -> Attempt)
    requires RangeOutcome(startId, endId, topic, fetch, attempt).Stopped?
    ensures var o := RangeOutcome(startId, endId, topic, fetch, attempt);
      var a := o.phase.attempted;
      && 1 <= |a| <= |o.prescan.valid|
      && a == o.prescan.valid[..|a|]
      && attempt(a[|a| - 1]) == Interrupted
      && (forall i :: 0 <= i < |a| - 1 ==> attempt(a[i]) != Interrupted)
      && o.downloaded + o.phase.failed == |a| - 1
      && o.downloaded == Tally(a, attempt, Done)
      && o.phase.failed == Tally(a, attempt, Error)
  {
    var total := if startId <= endId then endId - startId + 1 else 0;
    PhaseShape(PreScan(startId, total, topic, fetch).valid, attempt);
  }

  /** Against a one-pass /bdl run over the same messages that is not
      cancelled: /bdl2 lists exactly the ids /bdl downloads, in the same
      order, its media groups are /bdl's processed groups, and its skipped
      count is /bdl's skipped plus failed. */
  lemma MatchesOnePass(args: seq<string>, parse: string -> Option<Link>,
                       fetch: int -> Fetch, attempt: int -> Attempt, interrupted: int -> bool)
    requires Batch.DownloadRangeOutcome(args, parse, fetch, interrupted).Completed?
    requires AdvancedOutcomeOf(args, parse, fetch, attempt).Finished?
    ensures var o := AdvancedOutcomeOf(args, parse, fetch, attempt);
      var one := Batch.DownloadRangeOutcome(args, parse, fetch, interrupted).state;
      && o.prescan.valid == one.launched
      && o.prescan.mediaGroups.Keys == one.processedGroups
      && o.summary.skipped == one.skipped + one.failed
  {
    Batch.CompletedState(args, parse, fetch, interrupted);
    FinishedState(args, parse, fetch, attempt);
    var rg := Batch.ValidateRange(args, parse).value;
    var total := rg.endId - rg.startId + 1;
    var topic := ActiveTopic(rg.thread);
    PreScanAgrees(PreScan(rg.startId, total, topic, fetch),
                  Batch.ScanFrom(Batch.Initial, rg.startId, total, topic, fetch, interrupted),
                  rg.startId, total, topic, fetch, interrupted);
  }

  /** A finished run pre-scanned the whole validated range. */
  lemma FinishedState(args: seq<string>, parse: string -> Option<Link>,
                      fetch: int -> Fetch, attempt: int -> Attempt)
    requires AdvancedOutcomeOf(args, parse, fetch, attempt).Finished?
    ensures Batch.ValidateRange(args, parse).Success?
    ensures var rg := Batch.ValidateRange(args, parse).value;
      var o := AdvancedOutcomeOf(args, parse, fetch, attempt);
      && o.prescan == PreScan(rg.startId, rg.endId - rg.startId + 1, ActiveTopic(rg.thread), fetch)
      && o.summary.skipped == rg.endId - rg.startId + 1 - |o.prescan.valid|
  {
  }

  /** The pre-scan against a completed one-pass scan of the same ids. */
  lemma PreScanAgrees(ps: PreScanState, one: Batch.ScanState, start: int, n: nat, topic: Option<int>,
                      fetch: int -> Fetch, interrupted: int -> bool)
    requires ps == PreScan(start, n, topic, fetch)
    requires one == Batch.ScanFrom(Batch.Initial, start, n, topic, fetch, interrupted)
    requires !one.cancelled
    ensures ps.valid == one.launched
    ensures ps.mediaGroups.Keys == one.processedGroups
    ensures n - |ps.valid| == one.skipped + one.failed
  {
    PreScanGroups(start, n, topic, fetch);
    PreScanEmits(start, n, topic, fetch);
    Batch.CompletedScan(one, start, n, topic, fetch, interrupted);
  }
}
