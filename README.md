# A verified model of a Telegram media-downloader bot

The bot takes Telegram post links from a user. A user client fetches the
posts and the bot sends their media back through its own client. This
project models the bot's decision logic in Dafny and proves properties of
that model. The logic covers:

- single-post downloads (`handle_download`), with their forum-topic check
  (`message_belongs_to_topic`);
- the one-pass batch command `/bdl` (`download_range`): link-pair
  validation, the scan over the id range, the counters and lists, the
  media-group deduplication set, and the completion report;
- the two-phase batch command `/bdl2` (`download_range_advanced`): the
  same validation, a pre-scan that picks one id per media group, and a
  download phase over that list;
- the running-task registry (`RUNNING_TASKS`, `track_task`) and `/killall`
  (`cancel_all_tasks`);
- media-group assembly (`processMediaGroup`), with its album send, its
  one-by-one fallback and its cleanup;
- the live definitions of `send_media` and `get_video_thumbnail`, and
  `get_media_info`;
- the download helpers: the `save_cookies` header rule,
  `_find_downloaded_file`, the part enumeration of `split_file_p7zip`, and
  the result selection of `extract_7z_parts`.

The Telegram service, the external tools (ffprobe, ffmpeg, 7z) and the
filesystem are never called. Each call is a parameter of the model that
gives its outcome:

- `fetch: int -> Fetch`: what `get_messages` returns for each id (missing,
  a message, or raised, with the reason);
- `interrupted` / `attempt`: whether awaiting the download task of an id
  raised `CancelledError`;
- `ProbeRun`, `FfmpegRun`, `ToolRun`: an exit code plus the parsed output
  or the files left behind;
- a set of existing paths, or a directory listing in `os.listdir` order;
- the link parser `getChatMsgID`, as `parse: string -> Option<Link>`.

Wherever the source runs a loop, the model has a Dafny `method` with a
loop. Each such method is proved equal to a specification function (a
left fold of one step over the ids or the members). The properties are
then proved as lemmas about that function. Several lemmas compare the fold
with an independent definition:

- `Batch.Emits` says, without the scan, which ids are downloaded;
- `Batch.GroupSeenBefore` says which groups have been seen;
- `Downloaders.ContiguousParts` says which split parts are reported.

Modules, one per concern of the source:

- `Wrappers`: Option and Result.
- `Strings`: `startswith`, `str(int)`, `zfill`, `find`/`rfind`,
  `rsplit(c, 1)[0]`.
- `Paths`: POSIX `os.path` join, basename, dirname and splitext.
- `Telegram`: the fields of a message the bot reads.
- `Bot`: main.py outside the batch loop.
- `Batch`: `/bdl`.
- `AdvancedBatch`: `/bdl2`.
- `Registry`: the task registry, as a class whose methods update its
  fields.
- `Probe`: `get_media_info` and `get_video_thumbnail`.
- `Upload`: `send_media`.
- `MediaGroup`: `processMediaGroup`.
- `Downloaders`: downloaders.py.

### Behaviour of the source worth noting

- **When cancellation is seen.** A batch handler checks for cancellation
  only when it awaits the `handle_download` task of an id: `/killall`
  cancels those tasks, and awaiting one then raises `CancelledError`
  (bt/main.py:339-356, bt/Untitled-2.py:86-92). The batch handler itself
  is never put in the registry.
- **Failed fetches in `/bdl`.** A fetch that raises is counted as failed,
  and its id is also listed among "Deleted/Missing" (bt/main.py:358-361).
- **Thumbnail cleanup.** When the video upload in `send_media` raises, the
  generated thumbnail stays on disk (bt/helpers/utils.py:439-452).
  `Upload.VideoThumbnailCleanup` states this.
- **What the registry holds.** The registry is a set of asyncio tasks, one
  per single download (bt/main.py:52-60).
- **Failed fetches in `/bdl2`.** The pre-scan of `/bdl2` logs a failed
  fetch and passes over the id, so that id counts toward `skipped` (the
  range size minus the list length) and never toward `failed`
  (bt/Untitled-2.py:67-69, 102-103).

## Model

| member | source | states |
|---|---|---|
| Strings.NatToDecimal | bt/helpers/downloaders.py:215 | str(n) is a non-empty digit string with no leading zero unless n is 0 |
| Strings.IntToDecimal | bt/main.py:304 | str(i) reads back as i: for i >= 0 it is digits only whose value is i, for i < 0 a '-' followed by digits whose value is -i; only "0" starts with '0' |
| Strings.DecimalValue | bt/helpers/downloaders.py:215 | reading back str(n) gives n |
| Strings.ZFill | bt/helpers/downloaders.py:215 | on a digit string (the only kind it is given), zfill pads on the left with '0' to the width, keeps the string as its suffix, and leaves a long enough string unchanged |
| Strings.PaddedDecimalValue | bt/helpers/downloaders.py:215 | str(n).zfill(w) is all digits and reads back as n, so the padding loses nothing |
| Strings.IndexOf | bt/main.py:112-113 | the index found holds the character and no earlier index does; absent means the length |
| Strings.RFind | bt/main.py:289 | rfind returns the last index holding the character, or -1 |
| Strings.RFindAt | bt/main.py:289 | the answer of rfind is fixed by its meaning: an index holding the character with none after it is the one returned |
| Strings.BeforeLast | bt/main.py:289-292 | rsplit(c, 1)[0] is the prefix before the last c, after which no c occurs; without a c it is the string itself |
| Strings.BeforeLastOfAppended | bt/main.py:289-292 | splitting at the last separator undoes appending one separator-free segment |
| Paths.Join | bt/helpers/downloaders.py:175 | an absolute name replaces the directory; otherwise the result is dir + name when the directory is empty or ends in '/', and dir + "/" + name when it does not |
| Paths.Basename | bt/helpers/downloaders.py:190 | the basename is the longest suffix of the path without a '/': it holds no '/', and the character before it, if any, is a '/' |
| Paths.StripTrailingSlashes | bt/helpers/downloaders.py:191 | rstrip('/') leaves a prefix that does not end in '/', followed in the path by slashes only |
| Paths.Dirname | bt/helpers/downloaders.py:191 | the dirname is a prefix of the path, and empty when the path has no '/' |
| Paths.ParentOfHead | bt/helpers/downloaders.py:191 | the part dirname keeps of a non-empty head is a non-empty prefix followed by slashes only; it ends in a non-slash unless the head is all slashes, and then it is the whole head |
| Paths.DirnameIsParent | bt/helpers/downloaders.py:191 | for a path with a '/', the dirname is non-empty, ends at or before the last '/', is followed up to it by slashes only, and ends in a non-slash unless everything up to the last '/' is slashes, and then it is all of that ("//a" gives "//") |
| Paths.SplitExtRoot | bt/helpers/downloaders.py:190 | splitext(p)[0] is a prefix of p, and p itself when p has no '.' |
| Paths.SplitExtRootDropsExtension | bt/helpers/downloaders.py:190 | when splitext cuts something, it cuts from the last '.', which lies after the last '/' and after a file-name part not made of dots only |
| Paths.SplitExtRootKeepsPlainName | bt/helpers/downloaders.py:190 | when splitext cuts nothing, the last '.' is not in the file name, or only dots precede it there |
| Paths.LastSlashOfJoined | bt/helpers/downloaders.py:190-191 | in dir + "/" + name with no '/' in name, the added '/' is the last one |
| Paths.SplitJoined | bt/helpers/downloaders.py:190-192 | for a directory not ending in '/' and a name without '/', join gives dir/name, and basename and dirname give back the name and the directory |
| Bot.ActiveTopic | bt/main.py:122 | a thread id is used as a topic exactly when it is present and non-zero, as Python's truthiness test says |
| Bot.BelongsToTopic | bt/main.py:212-239 | definition of message_belongs_to_topic; see Bot.BelongsToTopicCandidates, Bot.ForumFlagAddsNothing and Bot.TopicEdgeCases |
| Bot.BelongsToTopicCandidates | bt/main.py:212-239 | a message is in the topic iff it exists, is not empty, and its id, thread id, reply-to id or reply top id equals the topic |
| Bot.ForumFlagAddsNothing | bt/main.py:236-237 | the forum_topic_created check never changes the answer, since it repeats the id check of line 220 |
| Bot.TopicEdgeCases | bt/main.py:216-221 | a missing or empty message is never in a topic; a live message is always in the topic named by its own id |
| Bot.TruncateAtQuery | bt/main.py:112-113 | the result is the prefix of the URL up to its first '?', holds no '?', and is the URL itself when there is no '?' |
| Bot.TruncateIdempotent | bt/main.py:112-113 | truncating twice is truncating once |
| Bot.MediaTypeOf | bt/main.py:177-185 | the send kind is photo, else video, else audio, else document, each case stated as an iff on the message's fields |
| Bot.DownloadSize | bt/main.py:132-139 | the gated size is the document's, else the video's, else the audio's; there is none iff none of the three is present |
| Bot.SizeAndKindPrecedenceDiffer | bt/main.py:132-185 | a message with both a video and a document is sent as a video but gated on the document's size |
| Bot.HandleDownload | bt/main.py:110-209 | each outcome iff its inputs: an error iff parsing failed, the fetch raised another error than access, or no message came without a topic; "not part of the chat" iff an access error; a topic rejection iff a topic is active and the message (or its absence) is not in it; a size refusal (of the gated size) iff the topic check passed and the limit refuses; then, past both gates, a media group gives processMediaGroup's verdict, media is sent with its kind, text or caption is replied, and nothing found otherwise |
| Bot.SizeGateBeforeGroup | bt/main.py:132-158 | the size gate runs before the media-group branch, so an oversized document refuses a whole group |
| Batch.ValidateRange | bt/main.py:257-280 | an accepted request has three words with two https://t.me/ links that parse to one chat and one thread, has start <= end, and its prefix is the first link without its last segment |
| Batch.ValidationOrder | bt/main.py:257-280 | each rejection (usage, unparsable, chat, thread, range) happens iff every earlier check passed and its own failed |
| Batch.UrlReplacesLastSegment | bt/main.py:289-304 | the URL built for an id is the first link with its last path segment replaced by the id |
| Batch.Classify | bt/main.py:307-361 | definition: the order of the loop's tests (raised fetch, missing or empty, off topic, group already processed, no content, launch); see Batch.ClassifyMatches, Batch.ScanFailures, Batch.ScanDeleted and Batch.ScanOffTopic |
| Batch.Step | bt/main.py:304-362 | definition of one iteration on the loop's variables; see Batch.ScanShape and Batch.CompletedScan |
| Batch.Scan | bt/main.py:303-363 | definition of the loop as a fold of Step; see Batch.ScanRange, Batch.ScanShape and Batch.CompletedScan |
| Batch.Ids | bt/main.py:303 | the scanned ids are start, start+1, ..., start+n-1 |
| Batch.ListIds | bt/main.py:378-392 | a report list prints nothing when empty, the ids when there are 1 to 10, otherwise their number |
| Batch.BuildReport | bt/main.py:365-397 | the report carries the state's downloaded, skipped and failed counts, lists its duplicates and deleted ids, lists its off-topic ids iff the batch is for a topic, names the forum topic, and gives the processed-group count iff a group was processed |
| Batch.DownloadRangeOutcome | bt/main.py:254-397 | definition of the handler's result; see Batch.DownloadRange, Batch.CompletedRun, Batch.CompletedReport and Batch.CancelledRun |
| Batch.ScanMessage | bt/main.py:305-361 | one iteration is one Step of the specification; a URL is handed to handle_download iff the id is launched, and it is prefix/id |
| Batch.ScanRange | bt/main.py:303-363 | the loop, which stops at a cancelled download, computes the fold of Step over the whole range |
| Batch.DownloadRange | bt/main.py:254-397 | the handler's result is DownloadRangeOutcome: a validation rejection, a cancellation with the count so far, or the completed state and its report |
| Batch.ScanIsScanFrom | bt/main.py:303 | the forward loop and the specification's fold over the ids agree |
| Batch.ScanFromCancelled | bt/main.py:352-356 | once cancelled, the rest of the range changes nothing |
| Batch.CancelledIsFinal | bt/main.py:352-356 | after a cancellation, scanning further ids leaves the state unchanged: nothing more is fetched, launched or counted |
| Batch.ScanShape | bt/main.py:303-363 | the fetched ids are the range in ascending order; each is counted once as downloaded, skipped or failed, except the one whose download was cancelled; ids are listed only for an active topic |
| Batch.ProcessedAreSeen | bt/main.py:322-331 | the processed set holds exactly the groups of the existing, on-topic ids scanned so far |
| Batch.ClassifyMatches | bt/main.py:309-339 | given the groups seen before an id, it is launched iff Emits holds of it, and listed as a duplicate iff Duplicate holds |
| Batch.ScanLaunches | bt/main.py:322-339 | without cancellation, the launched ids are exactly the ids Emits selects, in ascending order |
| Batch.ScanDuplicates | bt/main.py:322-327 | without cancellation, media_group_skipped is exactly the ids Duplicate selects, in ascending order |
| Batch.ScanFailures | bt/main.py:358-361 | without cancellation, failed is the number of ids whose fetch raised |
| Batch.ScanDeleted | bt/main.py:309-361 | without cancellation, deleted_messages is exactly the ids whose fetch raised or gave no message or an empty one, in ascending order |
| Batch.ScanOffTopic | bt/main.py:315-319 | without cancellation, not_in_topic is exactly the ids whose message exists but is not in the topic, in ascending order |
| Batch.OneRepresentativePerGroup | bt/main.py:322-331 | no two downloaded ids share a media group |
| Batch.CompletedRun | bt/main.py:303-363 | a completed run fetches every id of the range in order, has downloaded + skipped + failed equal to the range size, downloads exactly the Emits ids, none of whose awaits was interrupted, lists exactly the Duplicate ids, processes exactly the groups seen, counts as failed exactly the ids whose fetch raised, and lists as deleted and as off topic exactly the ids that are |
| Batch.CompletedScan | bt/main.py:303-363 | the same facts about a completed scan of any range, and no launched download was interrupted |
| Batch.CompletedReport | bt/main.py:365-397 | the completion message of a run, stated without the scan: its counts add up to the range size, downloaded and failed are the numbers of Emits ids and raised fetches, its lists are those of the deleted, duplicate and (for a topic) off-topic ids, and the group line appears iff some eligible id is in a media group |
| Batch.CompletedState | bt/main.py:254-363 | a completed run passed validation and is the uncancelled scan of its whole range |
| Batch.GroupMemberFate | bt/main.py:322-331 | an existing on-topic group member is downloaded iff no earlier id of the range is one of its group, and is otherwise listed as a duplicate |
| Batch.MemberScanFate | bt/main.py:322-331 | the same, for a completed scan of any range |
| Batch.CancelledRun | bt/main.py:339-356 | a cancelled run stops at the first Emits id whose await was interrupted: it examined the range from its start up to that id, no earlier Emits id was interrupted, it launched exactly the Emits ids up to that one, and the count it reports is the number of Emits ids before it |
| Batch.CancelledScan | bt/main.py:339-356 | the same, for a cancelled scan of any range |
| Batch.ScanUninterrupted | bt/main.py:339-356 | in a scan that was not cancelled, no launched download's await was interrupted |
| Batch.EarlierUninterrupted | bt/main.py:339-356 | while the scan runs, no Emits id scanned so far was interrupted |
| Batch.StepCancels | bt/main.py:339-356 | a step that cancels the scan launched its id after an interrupted await, fetched it last and counted nothing |
| Batch.StopStep | bt/main.py:339-356 | at the step that cancels the scan, the id is an Emits id whose await was interrupted, the ids launched are the Emits ids up to it, and the count is the Emits ids before it |
| Batch.StopState | bt/main.py:339-356 | the facts of StopStep and EarlierUninterrupted with the stopping id read off the state: it is the first interrupted Emits id |
| Batch.CancelledScanStops | bt/main.py:339-356 | a cancelled scan stops at the first interrupted Emits id, launched exactly the Emits ids up to it, and reports the number before it |
| AdvancedBatch.PreStep | bt/Untitled-2.py:43-69 | definition of one pre-scan iteration; see AdvancedBatch.AdmittedIsEmits |
| AdvancedBatch.PreScan | bt/Untitled-2.py:42-69 | definition of the pre-scan as a fold of PreStep; see AdvancedBatch.PreScanRange, AdvancedBatch.PreScanValid and AdvancedBatch.MediaGroupsRepresent |
| AdvancedBatch.PreScanRange | bt/Untitled-2.py:42-69 | the pre-scan loop computes the fold of PreStep over the range |
| AdvancedBatch.Phase | bt/Untitled-2.py:81-97 | definition of the download phase as a fold of PhaseStep; see AdvancedBatch.DownloadPhase and AdvancedBatch.PhaseShape |
| AdvancedBatch.DownloadPhase | bt/Untitled-2.py:81-97 | the download loop, which stops at a cancelled download, computes the fold of PhaseStep over valid_messages |
| AdvancedBatch.PhaseShape | bt/Untitled-2.py:81-97 | the phase visits a prefix of the list in order and counts each visited id once, except a final interrupted one: downloaded is the number of visited ids whose download finished, failed the number whose try block raised; without cancellation it visits the whole list |
| AdvancedBatch.PhaseVisits | bt/Untitled-2.py:81-97 | the phase tries a prefix of the list in order, the whole list unless cancelled, and a cancelled phase stops at its first interrupted download |
| AdvancedBatch.TallyBefore | bt/Untitled-2.py:88-94 | the count over the first n ids is at most n; see AdvancedBatch.TallyPrefix and AdvancedBatch.PhaseTally |
| AdvancedBatch.TallyPrefix | bt/Untitled-2.py:88-94 | the count over a prefix depends only on that prefix |
| AdvancedBatch.PhaseTally | bt/Untitled-2.py:81-97 | downloaded is the number of tried ids whose download finished, failed the number whose try block raised an Exception |
| AdvancedBatch.Summarize | bt/Untitled-2.py:101-116 | skipped + len(valid_messages) == total_range, and the other report numbers are the phase's counters and the number of media groups |
| AdvancedBatch.DownloadRangeAdvanced | bt/Untitled-2.py:6-118 | the handler's result is AdvancedOutcomeOf: a validation rejection, a cancellation with its count, or the finished summary |
| AdvancedBatch.RangeOutcome | bt/Untitled-2.py:36-118 | definition of the two phases over a validated range; see AdvancedBatch.RunRange, AdvancedBatch.FinishedRange and AdvancedBatch.StoppedRange |
| AdvancedBatch.RunRange | bt/Untitled-2.py:36-118 | the two phases over a validated range give RangeOutcome |
| AdvancedBatch.AdmittedIsEmits | bt/Untitled-2.py:46-65 | with the groups seen so far as keys, the pre-scan keeps an id iff the one-pass scanner's Emits holds of it |
| AdvancedBatch.PreScanGroups | bt/Untitled-2.py:58-61 | the keys of media_groups are exactly the groups of the existing, on-topic, non-empty ids scanned so far |
| AdvancedBatch.PreScanFirstMembers | bt/Untitled-2.py:58-61 | each group is mapped to an id of the range that is the group's first such member |
| AdvancedBatch.PreScanEmits | bt/Untitled-2.py:42-65 | valid_messages is exactly the ids Emits selects, in ascending order |
| AdvancedBatch.PreScanGroupCount | bt/Untitled-2.py:58-65 | len(media_groups) <= len(valid_messages) <= the number of ids scanned |
| AdvancedBatch.PreScanValid | bt/Untitled-2.py:42-69 | valid_messages is strictly ascending, lies in the range, holds exactly the Emits ids, never holds an id whose fetch raised or that is missing, off topic or without content, and is at least as long as media_groups |
| AdvancedBatch.MediaGroupsRepresent | bt/Untitled-2.py:58-65 | a group has an entry iff one of its members passed the filters; its entry is its smallest such id, and that id is its only member in valid_messages |
| AdvancedBatch.SameValidation | bt/Untitled-2.py:12-34 | /bdl2 rejects a request iff /bdl does, with the same reason |
| AdvancedBatch.FinishedCounts | bt/Untitled-2.py:81-103 | in a finished run skipped + len(valid_messages) is the range size, skipped >= 0, every listed id was tried, downloaded is the number of listed ids whose download finished and failed the number whose try block raised |
| AdvancedBatch.FinishedRange | bt/Untitled-2.py:81-103 | the same, for the two phases over any ordered range |
| AdvancedBatch.FinishedState | bt/Untitled-2.py:36-103 | a finished run passed validation, pre-scanned its whole range, and reports the range size minus the list length as skipped |
| AdvancedBatch.StoppedCounts | bt/Untitled-2.py:81-92 | a cancelled run tried a prefix of valid_messages up to its first interrupted download; the "after downloading N posts" number is the count of tried ids whose download finished, and failed the count of those that raised |
| AdvancedBatch.StoppedRange | bt/Untitled-2.py:81-92 | the same, for the two phases over any range |
| AdvancedBatch.MatchesOnePass | bt/Untitled-2.py:42-103 | against an uncancelled /bdl run over the same messages, valid_messages is /bdl's download list, media_groups' keys are its processed groups, and skipped is its skipped + failed |
| AdvancedBatch.PreScanAgrees | bt/Untitled-2.py:42-103 | the same agreement between a pre-scan and an uncancelled one-pass scan of any range |
| Registry.CancelRequested | bt/main.py:438-445 | after /killall the registry has the same tasks and done flags, and exactly the tasks not done get a cancellation request |
| Registry.CancelAgain | bt/main.py:438-445 | a second /killall changes nothing, and counts the same tasks, since cancelling does not finish a task |
| Registry.TrackThenDiscard | bt/main.py:54-60 | tracking a task and then running its done callback leaves the registry as it was |
| Registry.CancelEach | bt/main.py:441-444 | the loop over a snapshot of the registry, in any order, requests cancellation of exactly the tasks not done and counts them |
| Registry.TaskRegistry.constructor | bt/main.py:52 | the registry starts empty |
| Registry.TaskRegistry.Track | bt/main.py:54-60 | track_task adds a fresh task, not done and not cancelled, under a new id; nothing else changes |
| Registry.TaskRegistry.Complete | bt/main.py:57-59 | the event loop finishing a task marks only that task done |
| Registry.TaskRegistry.RunDoneCallback | bt/main.py:57-58 | the done callback removes only that task |
| Registry.TaskRegistry.CancelAll | bt/main.py:438-445 | cancel_all_tasks leaves the registry as CancelRequested says and returns the number of tasks that were not done |
| Probe.GetMediaInfo | bt/helpers/utils.py:56-74 | a raising call, empty output, a non-zero exit code or a missing format field gives (0, None, None) |
| Probe.FirstTruthyTag | bt/helpers/utils.py:71-72 | definition of the `or` chain over three tag spellings; see Probe.TagPrecedence |
| Probe.TagPrecedence | bt/helpers/utils.py:69-73 | the artist is the first non-empty one of artist, ARTIST, Artist, and is non-empty iff one of them is; likewise the title |
| Probe.ThumbnailPathForm | bt/helpers/utils.py:188-189 | the thumbnail file is Assets/thumb_<uuid>.jpg |
| Probe.ThumbnailPaths | bt/helpers/utils.py:188-189 | two different uuids never name the same thumbnail file |
| Probe.SeekSeconds | bt/helpers/utils.py:194-198 | the seek is floor(d/2) of the given duration, of ffprobe's when none is given, and 3 // 2 when that is 0 |
| Probe.GivenDurationIgnoresProbe | bt/helpers/utils.py:194-195 | a given duration is used as is, whatever ffprobe says |
| Probe.GetVideoThumbnail | bt/helpers/utils.py:186-224 | a thumbnail path is returned iff ffmpeg exited 0 and left a non-empty file; the file is removed iff it was left empty |
| Probe.ThumbnailNotNone | bt/helpers/utils.py:224 | a returned thumbnail is never "none" and never empty |
| Upload.SendMedia | bt/helpers/utils.py:403-471 | definition of send_media's calls and cleanup; see Upload.UploadGate and Upload.VideoThumbnailCleanup |
| Upload.UploadGate | bt/helpers/utils.py:403-471 | when the size gate refuses nothing is uploaded or removed; otherwise exactly one upload of the media type's kind is made, with the path and caption given |
| Upload.VideoThumbnailCleanup | bt/helpers/utils.py:421-452 | the old generic thumbnail is removed first iff it exists; the video gets the generated thumbnail and its size, or no thumbnail and 480x320; the generated thumbnail is removed iff the upload returned and the file still exists |
| MediaGroup.FirstKind | bt/helpers/utils.py:242-311 | a member's kind is photo, else video, else document, else audio, and it has none iff it has no attachment |
| MediaGroup.Item | bt/helpers/utils.py:242-329 | definition of one member's processing; see MediaGroup.ItemRules and MediaGroup.ItemConsistent |
| MediaGroup.ItemRules | bt/helpers/utils.py:241-329 | only members with an attachment are downloaded; an entry exists iff the download and the caption succeeded, and has its member's first kind and path; a video without a usable thumbnail gets none and 480x320; one whose size cannot be read keeps the thumbnail and gets 480x320 |
| MediaGroup.Outcomes | bt/helpers/utils.py:241 | the outcomes follow the members in group order |
| MediaGroup.Collect | bt/helpers/utils.py:241-329 | definition of the member loop as a fold of Item; see MediaGroup.CollectMembers, MediaGroup.ValidInGroupOrder and MediaGroup.TrackedDownloads |
| MediaGroup.CollectStep | bt/helpers/utils.py:241-329 | processing one more member appends its outcome to the lists |
| MediaGroup.ProcessMember | bt/helpers/utils.py:242-329 | one iteration appends exactly that member's outcome to each of the four lists |
| MediaGroup.CollectMembers | bt/helpers/utils.py:241-329 | the member loop computes Collect over the whole group |
| MediaGroup.ProcessMediaGroup | bt/helpers/utils.py:227-400 | the result is True iff valid_media is non-empty; the album is sent then, and sent one by one if it failed; the cleanup is temp + invalid + thumbnails on success or invalid + thumbnails otherwise |
| MediaGroup.SendEach | bt/helpers/utils.py:347-386 | the fallback reaches every entry, in order; the send calls are not modelled |
| MediaGroup.CleanEach | bt/helpers/utils.py:392-399 | the cleanup loops hand every path given to the cleanup, in order; the removal is not modelled |
| MediaGroup.Entries | bt/helpers/utils.py:241-323 | the i-th entry option is the i-th member's |
| MediaGroup.ValidInGroupOrder | bt/helpers/utils.py:241-323 | valid_media is the entries of the processed members, in group order: an entry is in it iff some member produced it, and it has at most one per member |
| MediaGroup.ItemConsistent | bt/helpers/utils.py:255-329 | a failed path is the downloaded one, an entry's file is the downloaded one, and a video entry's thumbnail is the one kept for cleanup |
| MediaGroup.TrackedDownloads | bt/helpers/utils.py:241-329 | every invalid path and every entry's file is in temp_paths, every video entry's thumbnail is in thumbnail_paths, and len(valid_media) <= len(temp_paths) <= the group's size |
| MediaGroup.TrackedFailures | bt/helpers/utils.py:325-329 | when no entry was built, every downloaded file that still existed is in invalid_paths |
| MediaGroup.CleanupCovers | bt/helpers/utils.py:390-400 | on success every downloaded file is cleaned; failed files and thumbnails are always cleaned; on failure every downloaded file that still existed is cleaned |
| MediaGroup.SomesMembers | bt/helpers/utils.py:257-323 | keeping the present options keeps exactly their values and adds none |
| Downloaders.CookieFileContent | bt/helpers/downloaders.py:24-29 | the file starts with the Netscape header and ends with the text verbatim; it is the text alone iff the text starts with the header, and otherwise the two header lines and a blank line precede it |
| Downloaders.CookiesIdempotent | bt/helpers/downloaders.py:26-29 | saving the saved content again changes nothing |
| Downloaders.FirstWithPrefix | bt/helpers/downloaders.py:173-174 | the index found starts with the root and no earlier entry does |
| Downloaders.FindDownloadedFile | bt/helpers/downloaders.py:170-176 | the result is the directory joined with the first entry starting with base_name minus its extension, or None when no entry does |
| Downloaders.SplitExtOfPlainName | bt/helpers/downloaders.py:172 | splitext strips the extension of a plain name stem.ext |
| Downloaders.RenamedDownloadFound | bt/helpers/downloaders.py:170-176 | a file saved under another extension than the one requested is still found |
| Downloaders.OutputBase | bt/helpers/downloaders.py:190-192 | definition of output_base; see Downloaders.OutputBaseOfJoin and Downloaders.OutputBaseOfFile |
| Downloaders.OutputBaseOfJoin | bt/helpers/downloaders.py:190-192 | for a file name joined onto a directory not ending in '/', the parts go into that same directory, named after the file name without its extension plus "_part" |
| Downloaders.OutputBaseOfFile | bt/helpers/downloaders.py:190-192 | the parts of dir/stem.ext are named dir/stem_part |
| Downloaders.PartNamePadding | bt/helpers/downloaders.py:215 | a part name is <base>.7z. followed by the part number, zero-padded to at least three digits and exactly three below 1000 |
| Downloaders.PartNameInjective | bt/helpers/downloaders.py:215-222 | different numbers name different parts, and no part is named like the single-volume archive |
| Downloaders.PartsDistinct | bt/helpers/downloaders.py:212-223 | the reported parts exist and hold no duplicates |
| Downloaders.SingleVolumeAlone | bt/helpers/downloaders.py:219-222 | the single-volume archive is reported only alone, and only when part 001 does not exist |
| Downloaders.ContiguousPartsUnique | bt/helpers/downloaders.py:212-223 | only one list of parts fits a given set of files |
| Downloaders.PartsBound | bt/helpers/downloaders.py:214-218 | there are no more numbered parts than files, so the loop ends |
| Downloaders.CollectParts | bt/helpers/downloaders.py:212-223 | the while True loop reports 001, 002, ... up to the first missing number, or else the single-volume archive when it exists, or else nothing |
| Downloaders.SplitFile | bt/helpers/downloaders.py:178-230 | 7z runs iff the size is known and exceeds max_size_mb MiB, with the command built from the output base; a small file, a failed size read or a failed tool gives []; otherwise the parts are the contiguous ones |
| Downloaders.FirstFile | bt/helpers/downloaders.py:248-251 | the index found is a regular file and no earlier entry is |
| Downloaders.ExtractParts | bt/helpers/downloaders.py:232-256 | a failing 7z or listing gives None; otherwise the result is the first listed regular file joined with the output directory, or None |

## Left out

- Telegram client calls: fetching, replies, uploads, progress edits and message deletions. Fetch results are a parameter (`Telegram.Fetch`) and uploads are given as succeeded or raised. The loading and progress messages are not modelled.
- `getChatMsgID`, `fileSizeLimit`, `get_parsed_msg`, `get_file_name`, `get_download_path` and `cleanup_download` live in files that are not part of this model. They appear as parameters, or as the paths handed to them.
- The `asyncio` event loop: scheduling, the pacing sleeps, and the real delivery of a cancellation. Cancellation is an outcome of awaiting a download (`interrupted`, `attempt`). The registry's event-loop steps are the methods `Complete` and `RunDoneCallback`, called from outside.
- The text of replies and reports. The report is a record with one field per line. A field that is None is a line left out.
- ffprobe's JSON is read with `eval`, and `round(float(duration))` makes the duration an int. The model takes the duration and the tags as already parsed.
- The image size read with PIL is taken as an input. Its failure in `send_media` (which would propagate) is not modelled.
- `os.makedirs("Assets")` is not modelled.
- The first, shadowed definitions of `get_video_thumbnail` and `send_media` (bt/helpers/utils.py:77-181) are not modelled, as Python keeps the later ones.
- The `/start`, `/help`, `/dl`, `/stats` and `/logs` handlers and the program entry point: text, psutil metrics and log files.
- `aria2c_download`, `_monitor_aria2c_progress` and `ytdlp_download` are not modelled. They are thin subprocess wrappers; only the lookup they finish with is modelled (`FindDownloadedFile`).
- The bytes 7z splits and reassembles are not modelled. Only the file names the helpers compute and enumerate are.
- Downloaders.CookieFileContent: only the content written is modelled. Deleting the old file, the file I/O, and the True/False result (False when the I/O raises) are not.
- Downloaders.FindDownloadedFile: `os.listdir` raising (which propagates to the caller) is not modelled; the listing is given.
- Downloaders.SplitFile: the `progress_message.edit` call and its possible exception are not modelled.
- Bot.HandleDownload: the single-download branch is taken to download and hand over the file; its own failures are not modelled (they are reported like the other exceptions). The upload is modelled by `Upload.SendMedia`. A raising `get_parsed_msg` is not modelled. A parser (`getChatMsgID`) that raises `PeerIdInvalid`, `BadRequest` or `KeyError` is taken as an ordinary exception: the model replies with the generic error, not with "Make sure the user client is part of the chat" (bt/main.py:116, bt/main.py:204-205).
- Batch.ScanMessage: an exception from the loop body other than a raising fetch is not modelled. The body's awaited task cannot raise one, because `handle_download` catches every `Exception`; only `CancelledError` surfaces. The media-group size logging at bt/main.py:345-350 swallows its own errors and changes nothing.
- The URL of an id is produced as a record of prefix and id (`Batch.PostUrl`); `Batch.Render` gives its text.
- MediaGroup.ItemRules: a `msg.download` that returns None instead of raising is treated like a raising download.
- MediaGroup.SendEach: each one-by-one send is in the model only as "tried". In the source it ends in an exception that is logged and passed over, at the latest the `NameError` of `asyncio.sleep`, since utils.py does not import `asyncio`. The send calls themselves are not modelled.
- Upload.UploadGate: `os.path.getsize` raising is not modelled; the size gate's verdict is given.
