/** processMediaGroup of bt/helpers/utils.py: the pass over the members of
    a media group that downloads the photo, video, document and audio
    members and builds the album entries, then the album send with its
    one-by-one fallback, and the cleanup of the files it made.

    Downloads, thumbnails, caption parsing and sends are given as outcomes.
    Collect is the fold that specifies the first loop; everything the
    cleanup relies on is proved about it. */
module MediaGroup {
  import opened Wrappers
  import Probe

  /** The kinds a member is downloaded as, in the order they are tested. */
  datatype Kind = PhotoKind | VideoKind | DocumentKind | AudioKind

  /** The attachments a member of the group carries. */
  datatype Member = Member(photo: bool, video: bool, document: bool, audio: bool)

  /** The first kind the member has, in the order photo, video, document,
      audio; None for a member with none of them. */
  function FirstKind(m: Member): (k: Option<Kind>)
    ensures k.None? <==> !(m.photo || m.video || m.document || m.audio)
    ensures k == Some(PhotoKind) <==> m.photo
    ensures k == Some(VideoKind) <==> !m.photo && m.video
    ensures k == Some(DocumentKind) <==> !m.photo && !m.video && m.document
    ensures k == Some(AudioKind) <==> !m.photo && !m.video && !m.document && m.audio
  {
    if m.photo then Some(PhotoKind)
    else if m.video then Some(VideoKind)
    else if m.document then Some(DocumentKind)
    else if m.audio then Some(AudioKind)
    else None
  }

  /** An InputMedia* entry of valid_media. */
  datatype Entry =
    | PhotoEntry(path: string, caption: string)
    | VideoEntry(path: string, thumb: Option<string>, dims: Probe.Dims, duration: int, caption: string)
    | DocumentEntry(path: string, caption: string)
    | AudioEntry(path: string, duration: int, performer: Option<string>, title: Option<string>, caption: string)

  function KindOf(e: Entry): Kind {
    match e
    case PhotoEntry(_, _) => PhotoKind
    case VideoEntry(_, _, _, _, _) => VideoKind
    case DocumentEntry(_, _) => DocumentKind
    case AudioEntry(_, _, _, _, _) => AudioKind
  }

  /** What happens while one member is processed. */
  datatype ItemRun = ItemRun(
    download: Option<string>,     // the path msg.download returned; None when it raised
    probe: Probe.ProbeRun,        // ffprobe on the downloaded file
    thumb: Option<string>,        // what get_video_thumbnail returned
    thumbExists: bool,            // os.path.exists(thumb)
    imageDims: Option<Probe.Dims>,  // Image.open(thumb).size; None when it raised
    caption: Option<string>,      // the parsed caption; None when get_parsed_msg raised
    pathExists: bool)             // os.path.exists(media_path) in the exception handler

  /** For a video: the thumbnail is used when it is a non-empty path to an
      existing file. */
  predicate ThumbKept(run: ItemRun) {
    run.thumb.Some? && run.thumb.value != "" && run.thumbExists
  }

  /** The entry built for a downloaded member of kind k at path p. */
  function MakeEntry(k: Kind, p: string, run: ItemRun, caption: string): Entry {
    var info := Probe.GetMediaInfo(run.probe);
    match k
    case PhotoKind => PhotoEntry(p, caption)
    case VideoKind =>
      VideoEntry(p, if ThumbKept(run) then run.thumb else None,
                 if ThumbKept(run) && run.imageDims.Some? then run.imageDims.value else Probe.DefaultDims,
                 info.duration, caption)
    case DocumentKind => DocumentEntry(p, caption)
    case AudioKind => AudioEntry(p, info.duration, info.artist, info.title, caption)
  }

  /** What one member adds to each list. */
  datatype ItemOutcome = ItemOutcome(entry: Option<Entry>, temp: Option<string>,
                                     invalid: Option<string>, thumb: Option<string>)

  function Item(m: Member, run: ItemRun): ItemOutcome {
    var k := FirstKind(m);
    if k.None? || run.download.None? then ItemOutcome(None, None, None, None)
    else
      var p := run.download.value;
      ItemOutcome(
        entry := if run.caption.None? then None else Some(MakeEntry(k.value, p, run, run.caption.value)),
        temp := Some(p),
        invalid := if run.caption.None? && run.pathExists then Some(p) else None,
        thumb := if k == Some(VideoKind) && ThumbKept(run) then run.thumb else None)
  }

  /** Only members with an attachment are downloaded; each entry has its
      member's first kind and its downloaded path; a video without a usable
      thumbnail gets none and 480x320, one whose size cannot be read gets
      the thumbnail and 480x320. */
  lemma ItemRules(m: Member, run: ItemRun)
    ensures var o := Item(m, run);
      && (FirstKind(m).None? ==> o == ItemOutcome(None, None, None, None))
      && (o.temp.Some? <==> FirstKind(m).Some? && run.download.Some?)
      && (o.entry.Some? <==> o.temp.Some? && run.caption.Some?)
      && (o.entry.Some? ==> KindOf(o.entry.value) == FirstKind(m).value && o.entry.value.path == run.download.value)
      && (o.entry.Some? && o.entry.value.VideoEntry? ==>
            && (!ThumbKept(run) ==> o.entry.value.thumb.None? && o.entry.value.dims == Probe.DefaultDims)
            && (ThumbKept(run) && run.imageDims.None? ==>
                  o.entry.value.thumb == run.thumb && o.entry.value.dims == Probe.DefaultDims))
      && (o.thumb.Some? ==> o.temp.Some? && FirstKind(m) == Some(VideoKind) && o.thumb == run.thumb)
  {
  }

  /** valid_media, temp_paths, invalid_paths and thumbnail_paths. */
  datatype Lists = Lists(valid: seq<Entry>, temp: seq<string>, invalid: seq<string>, thumbs: seq<string>)

  const NoLists := Lists([], [], [], [])

  function Opt<T>(o: Option<T>): seq<T> {
    if o.Some? then [o.value] else []
  }

  function AddItem(l: Lists, o: ItemOutcome): Lists {
    Lists(l.valid + Opt(o.entry), l.temp + Opt(o.temp), l.invalid + Opt(o.invalid), l.thumbs + Opt(o.thumb))
  }

  /** The per-member outcomes, in group order. */
  function Outcomes(members: seq<Member>, run: int -> ItemRun, n: nat): (os: seq<ItemOutcome>)
    requires n <= |members|
    ensures |os| == n && forall j :: 0 <= j < n ==> os[j] == Item(members[j], run(j))
  {
    if n == 0 then [] else Outcomes(members, run, n - 1) + [Item(members[n - 1], run(n - 1))]
  }

  /** The lists a sequence of outcomes builds, one append per outcome. */
  function Fold(os: seq<ItemOutcome>): Lists {
    if os == [] then NoLists else AddItem(Fold(os[..|os| - 1]), os[|os| - 1])
  }

  /** The lists after the first n members. */
  function Collect(members: seq<Member>, run: int -> ItemRun, n: nat): Lists
    requires n <= |members|
  {
    Fold(Outcomes(members, run, n))
  }

  /** One more member processed is one more outcome appended. */
  lemma CollectStep(members: seq<Member>, run: int -> ItemRun, n: nat)
    requires n < |members|
    ensures Collect(members, run, n + 1) == AddItem(Collect(members, run, n), Item(members[n], run(n)))
  {
    var os := Outcomes(members, run, n + 1);
    assert os[..n] == Outcomes(members, run, n);
  }

  // ---------------------------------------------------------------------
  // The method
  // ---------------------------------------------------------------------

  /** The body of the first loop for one member. */
  method ProcessMember(l: Lists, m: Member, run: ItemRun) returns (l': Lists)
    ensures l' == AddItem(l, Item(m, run))
  {
    l' := l;
    if m.photo || m.video || m.document || m.audio {
      if run.download.Some? {
        var p := run.download.value;
        l' := l'.(temp := l'.temp + [p]);
        if m.video && !m.photo && ThumbKept(run) {
          l' := l'.(thumbs := l'.thumbs + [run.thumb.value]);
        }
        if run.caption.None? {
          if run.pathExists {
            l' := l'.(invalid := l'.invalid + [p]);
          }
        } else {
          var e := MakeEntry(FirstKind(m).value, p, run, run.caption.value);
          l' := l'.(valid := l'.valid + [e]);
        }
      }
    }
  }

  /** The result of processMediaGroup: True iff valid_media was non-empty;
      the album sent (if any), the entries sent one by one after the album
      failed, and the paths handed to cleanup_download, in order. */
  datatype GroupResult = GroupResult(ok: bool, album: Option<seq<Entry>>, individual: seq<Entry>,
                                     cleaned: seq<string>, lists: Lists)

  /** processMediaGroup. `run(i)` is what happens to the i-th member,
      `albumSent` whether send_media_group returned. Each one-by-one send
      ends in an exception that is logged and passed over (including the
      NameError of the asyncio.sleep call, as asyncio is not imported
      there), so every entry is tried. */
  method ProcessMediaGroup(members: seq<Member>, run: int -> ItemRun, albumSent: bool) returns (r: GroupResult)
    ensures r.lists == Collect(members, run, |members|)
    ensures r.ok <==> r.lists.valid != []
    ensures r.album == (if r.ok then Some(r.lists.valid) else None)
    ensures r.individual == (if r.ok && !albumSent then r.lists.valid else [])
    ensures r.cleaned == if r.ok then r.lists.temp + r.lists.invalid + r.lists.thumbs
                         else r.lists.invalid + r.lists.thumbs
  {
    var l := CollectMembers(members, run);
    var individual: seq<Entry> := [];
    var album: Option<seq<Entry>> := None;
    var cleaned: seq<string>;
    if l.valid != [] {
      album := Some(l.valid);
      if !albumSent {
        individual := SendEach(l.valid);
      }
      cleaned := CleanEach(l.temp + l.invalid + l.thumbs);
    } else {
      cleaned := CleanEach(l.invalid + l.thumbs);
    }
    r := GroupResult(l.valid != [], album, individual, cleaned, l);
  }

  /** The loop over the group's members. */
  method CollectMembers(members: seq<Member>, run: int -> ItemRun) returns (l: Lists)
    ensures l == Collect(members, run, |members|)
  {
    l := NoLists;
    var i := 0;
    while i < |members|
      invariant 0 <= i <= |members|
      invariant l == Collect(members, run, i)
    {
      CollectStep(members, run, i);
      l := ProcessMember(l, members[i], run(i));
      i := i + 1;
    }
  }

  /** The one-by-one fallback: every entry is tried, in order. The send
      calls themselves are not modelled; the loop records which entries it
      reached, and they are all of them. */
  method SendEach(valid: seq<Entry>) returns (sent: seq<Entry>)
    ensures sent == valid
  {
    sent := [];
    var j := 0;
    while j < |valid|
      invariant 0 <= j <= |valid|
      invariant sent == valid[..j]
    {
      sent := sent + [valid[j]];
      j := j + 1;
    }
    assert valid[..|valid|] == valid;
  }

  /** for path in paths: cleanup_download(path). The removal itself is not
      modelled; the loop records the paths it handed to the cleanup, and
      they are all of them, in order. */
  method CleanEach(paths: seq<string>) returns (cleaned: seq<string>)
    ensures cleaned == paths
  {
    cleaned := [];
    var k := 0;
    while k < |paths|
      invariant 0 <= k <= |paths|
      invariant cleaned == paths[..k]
    {
      cleaned := cleaned + [paths[k]];
      k := k + 1;
    }
    assert paths[..|paths|] == paths;
  }

  // ---------------------------------------------------------------------
  // Properties of the lists
  // ---------------------------------------------------------------------

  /** The filtered values of a sequence of options, in order. */
  function Somes<T>(s: seq<Option<T>>): seq<T> {
    if s == [] then [] else Somes(s[..|s| - 1]) + Opt(s[|s| - 1])
  }

  lemma {:induction false} SomesMembers<T>(s: seq<Option<T>>)
    ensures |Somes(s)| <= |s|
    ensures forall x :: x in Somes(s) <==> Some(x) in s
  {
    if s != [] {
      SomesMembers(s[..|s| - 1]);
      assert s == s[..|s| - 1] + [s[|s| - 1]];
    }
  }

  /** The entry options of a sequence of outcomes. */
  function EntryOpts(os: seq<ItemOutcome>): (r: seq<Option<Entry>>)
    ensures |r| == |os| && forall j :: 0 <= j < |os| ==> r[j] == os[j].entry
  {
    if os == [] then [] else EntryOpts(os[..|os| - 1]) + [os[|os| - 1].entry]
  }

  /** The entries of the first n members, the j-th at index j. */
  function Entries(members: seq<Member>, run: int -> ItemRun, n: nat): (r: seq<Option<Entry>>)
    requires n <= |members|
    ensures |r| == n && forall j :: 0 <= j < n ==> r[j] == Item(members[j], run(j)).entry
  {
    EntryOpts(Outcomes(members, run, n))
  }

  lemma {:induction false} FoldValid(os: seq<ItemOutcome>)
    ensures Fold(os).valid == Somes(EntryOpts(os))
  {
    if os != [] {
      var last := os[..|os| - 1];
      FoldValid(last);
      var e := EntryOpts(os);
      assert e[..|os| - 1] == EntryOpts(last);
    }
  }

  /** valid_media holds the entries of the members that were downloaded
      and processed, in group order: an entry is there exactly when some
      member produced it, and there are at most as many as members. */
  lemma ValidInGroupOrder(members: seq<Member>, run: int -> ItemRun, n: nat)
    requires n <= |members|
    ensures Collect(members, run, n).valid == Somes(Entries(members, run, n))
    ensures |Collect(members, run, n).valid| <= n
    ensures forall e :: e in Collect(members, run, n).valid <==>
                        exists j :: 0 <= j < n && Item(members[j], run(j)).entry == Some(e)
  {
    FoldValid(Outcomes(members, run, n));
    var es := Entries(members, run, n);
    SomesMembers(es);
    forall e ensures Some(e) in es <==> exists j :: 0 <= j < n && Item(members[j], run(j)).entry == Some(e) {
      if Some(e) in es {
        var j :| 0 <= j < n && es[j] == Some(e);
        assert Item(members[j], run(j)).entry == Some(e);
      }
    }
  }

  /** What an outcome keeps consistent between its parts: a failed path is
      the downloaded one, an entry's file is the downloaded one, and a video
      entry's thumbnail is the one recorded for cleanup. */
  predicate Consistent(o: ItemOutcome) {
    && (o.invalid.Some? ==> o.invalid == o.temp)
    && (o.entry.Some? ==> o.temp == Some(o.entry.value.path))
    && (o.entry.Some? && o.entry.value.VideoEntry? && o.entry.value.thumb.Some? ==> o.thumb == o.entry.value.thumb)
  }

  lemma ItemConsistent(m: Member, run: ItemRun)
    ensures Consistent(Item(m, run))
  {
  }

  lemma {:induction false} FoldTracked(os: seq<ItemOutcome>)
    requires forall j :: 0 <= j < |os| ==> Consistent(os[j])
    ensures var l := Fold(os);
      && |l.valid| <= |l.temp| <= |os|
      && (forall p :: p in l.invalid ==> p in l.temp)
      && (forall e :: e in l.valid ==> e.path in l.temp)
      && (forall e :: e in l.valid && e.VideoEntry? && e.thumb.Some? ==> e.thumb.value in l.thumbs)
  {
    if os != [] {
      FoldTracked(os[..|os| - 1]);
      assert Consistent(os[|os| - 1]);
    }
  }

  /** Every invalid path was downloaded (it is also in temp_paths), each
      entry's file is in temp_paths, and each video entry's thumbnail is in
      thumbnail_paths. */
  lemma TrackedDownloads(members: seq<Member>, run: int -> ItemRun, n: nat)
    requires n <= |members|
    ensures var l := Collect(members, run, n);
      && |l.valid| <= |l.temp| <= n
      && (forall p :: p in l.invalid ==> p in l.temp)
      && (forall e :: e in l.valid ==> e.path in l.temp)
      && (forall e :: e in l.valid && e.VideoEntry? && e.thumb.Some? ==> e.thumb.value in l.thumbs)
  {
    var os := Outcomes(members, run, n);
    forall j | 0 <= j < n
      ensures Consistent(os[j])
    {
      ItemConsistent(members[j], run(j));
    }
    FoldTracked(os);
  }

  lemma {:induction false} FoldInvalid(os: seq<ItemOutcome>)
    ensures forall j :: 0 <= j < |os| && os[j].invalid.Some? ==> os[j].invalid.value in Fold(os).invalid
  {
    if os != [] {
      FoldInvalid(os[..|os| - 1]);
    }
  }

  lemma {:induction false} FoldNoEntries(os: seq<ItemOutcome>)
    requires Fold(os).valid == []
    ensures forall j :: 0 <= j < |os| ==> os[j].entry.None?
  {
    if os != [] {
      FoldNoEntries(os[..|os| - 1]);
    }
  }

  /** When no entry was built, every downloaded file that still existed is
      in invalid_paths. */
  lemma TrackedFailures(members: seq<Member>, run: int -> ItemRun, n: nat)
    requires n <= |members|
    requires Collect(members, run, n).valid == []
    ensures forall j :: 0 <= j < n && Item(members[j], run(j)).temp.Some? && run(j).pathExists ==>
              Item(members[j], run(j)).temp.value in Collect(members, run, n).invalid
  {
    var os := Outcomes(members, run, n);
    FoldInvalid(os);
    FoldNoEntries(os);
    forall j | 0 <= j < n && Item(members[j], run(j)).temp.Some? && run(j).pathExists
      ensures Item(members[j], run(j)).temp.value in Collect(members, run, n).invalid
    {
      ItemRules(members[j], run(j));
      assert os[j].invalid == os[j].temp;
    }
  }

  /** The cleanup: on success every downloaded file, every file that failed
      after its download and every thumbnail is cleaned; otherwise the
      failed files and the thumbnails are, which includes every downloaded
      file that still existed. Thumbnails of the entries are never left. */
  lemma CleanupCovers(members: seq<Member>, run: int -> ItemRun, albumSent: bool, r: GroupResult)
    requires r.lists == Collect(members, run, |members|)
    requires r.ok <==> r.lists.valid != []
    requires r.cleaned == if r.ok then r.lists.temp + r.lists.invalid + r.lists.thumbs
                          else r.lists.invalid + r.lists.thumbs
    ensures r.ok ==> forall p :: p in r.lists.temp ==> p in r.cleaned
    ensures forall p :: p in r.lists.thumbs + r.lists.invalid ==> p in r.cleaned
    ensures !r.ok ==> forall j :: 0 <= j < |members| && Item(members[j], run(j)).temp.Some? && run(j).pathExists ==>
                        Item(members[j], run(j)).temp.value in r.cleaned
    ensures forall e :: e in r.lists.valid && e.VideoEntry? && e.thumb.Some? ==> e.thumb.value in r.cleaned
  {
    TrackedDownloads(members, run, |members|);
    if !r.ok {
      TrackedFailures(members, run, |members|);
    }
  }
}
