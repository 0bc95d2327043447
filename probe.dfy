/** The ffprobe and ffmpeg helpers of bt/helpers/utils.py: get_media_info
    and the live (second) get_video_thumbnail. The tools are not run: each
    call is given as its outcome (exit code, parsed output, the file it
    left behind). */
module Probe {
  import opened Wrappers
  import opened Strings
  import Paths

  /** ffprobe's "format" object as the source reads it: the duration
      already rounded to an int (0 when the key is absent) and the tags. */
  datatype Format = Format(duration: int, tags: map<string, string>)

  /** The outcome of running ffprobe: cmd_exec raised, or it returned the
      stripped stdout, the exit code and the parsed "format" field (None
      when the field is missing or empty, which Python treats as falsy). */
  datatype ProbeRun = ProbeRaised | ProbeRan(stdout: string, code: int, format: Option<Format>)

  /** (duration, artist, title); an absent tag is None. */
  datatype MediaInfo = MediaInfo(duration: int, artist: Option<string>, title: Option<string>)

  const NoInfo := MediaInfo(0, None, None)

  /** tags.get(key) */
  function Tag(tags: map<string, string>, key: string): Option<string> {
    if key in tags then Some(tags[key]) else None
  }

  /** Python truthiness of a tag value: present and non-empty. */
  predicate Truthy(v: Option<string>) {
    v.Some? && v.value != ""
  }

  /** tags.get(k1) or tags.get(k2) or tags.get(k3): the first truthy value,
      and when none is truthy the last one. */
  function FirstTruthyTag(tags: map<string, string>, k1: string, k2: string, k3: string): Option<string> {
    var a := Tag(tags, k1);
    var b := Tag(tags, k2);
    if Truthy(a) then a else if Truthy(b) then b else Tag(tags, k3)
  }

  function GetMediaInfo(run: ProbeRun): (r: MediaInfo)
    ensures run.ProbeRaised? || run.stdout == "" || run.code != 0 || run.format.None? ==> r == NoInfo
  {
    if run.ProbeRaised? then NoInfo
    else if run.stdout != "" && run.code == 0 then
      if run.format.None? then NoInfo
      else
        var f := run.format.value;
        MediaInfo(f.duration,
                  FirstTruthyTag(f.tags, "artist", "ARTIST", "Artist"),
                  FirstTruthyTag(f.tags, "title", "TITLE", "Title"))
    else NoInfo
  }

  /** The tag precedence of get_media_info: the artist is the value of the
      first of artist, ARTIST, Artist that is non-empty; it is non-empty
      iff one of them is; and likewise the title. */
  lemma TagPrecedence(stdout: string, f: Format)
    requires stdout != ""
    ensures var r := GetMediaInfo(ProbeRan(stdout, 0, Some(f)));
      && r.duration == f.duration
      && (Truthy(r.artist) <==> exists k :: k in ["artist", "ARTIST", "Artist"] && Truthy(Tag(f.tags, k)))
      && (Truthy(Tag(f.tags, "artist")) ==> r.artist == Some(f.tags["artist"]))
      && (!Truthy(Tag(f.tags, "artist")) && Truthy(Tag(f.tags, "ARTIST")) ==> r.artist == Some(f.tags["ARTIST"]))
      && (!Truthy(Tag(f.tags, "artist")) && !Truthy(Tag(f.tags, "ARTIST")) ==> r.artist == Tag(f.tags, "Artist"))
      && (Truthy(r.title) <==> exists k :: k in ["title", "TITLE", "Title"] && Truthy(Tag(f.tags, k)))
      && (Truthy(Tag(f.tags, "title")) ==> r.title == Some(f.tags["title"]))
      && (!Truthy(Tag(f.tags, "title")) && Truthy(Tag(f.tags, "TITLE")) ==> r.title == Some(f.tags["TITLE"]))
      && (!Truthy(Tag(f.tags, "title")) && !Truthy(Tag(f.tags, "TITLE")) ==> r.title == Tag(f.tags, "Title"))
  {
    var r := GetMediaInfo(ProbeRan(stdout, 0, Some(f)));
    if Truthy(r.artist) {
      assert r.artist == Tag(f.tags, "artist") || r.artist == Tag(f.tags, "ARTIST") || r.artist == Tag(f.tags, "Artist");
    }
    if Truthy(r.title) {
      assert r.title == Tag(f.tags, "title") || r.title == Tag(f.tags, "TITLE") || r.title == Tag(f.tags, "Title");
    }
  }

  // ---------------------------------------------------------------------
  // get_video_thumbnail (the live definition)
  // ---------------------------------------------------------------------

  /** An image size, width by height. */
  datatype Dims = Dims(width: nat, height: nat)

  /** The size used when no thumbnail size can be read. */
  const DefaultDims := Dims(480, 320)

  const ThumbDir := "Assets"

  /** os.path.join("Assets", f"thumb_{unique_id}.jpg") */
  function ThumbnailPath(uuid: string): string {
    Paths.Join(ThumbDir, "thumb_" + uuid + ".jpg")
  }

  /** The thumbnail file is Assets/thumb_<uuid>.jpg. */
  lemma ThumbnailPathForm(u: string)
    ensures ThumbnailPath(u) == "Assets/thumb_" + u + ".jpg"
  {
    assert !StartsWith("thumb_" + u + ".jpg", "/") by {
      assert ("thumb_" + u + ".jpg")[0] == 't';
    }
  }

  /** The same text around two strings gives the same result only for
      the same string. */
  lemma FramedInjective(a: string, u1: string, u2: string, b: string)
    requires a + u1 + b == a + u2 + b
    ensures u1 == u2
  {
    var p := a + u1 + b;
    assert |u1| == |u2|;
    assert u1 == p[|a|..|a| + |u1|];
    assert u2 == (a + u2 + b)[|a|..|a| + |u2|];
  }

  /** The thumbnail file is Assets/thumb_<uuid>.jpg, and two different
      uuids never give the same file. */
  lemma ThumbnailPaths(u1: string, u2: string)
    ensures ThumbnailPath(u1) == "Assets/thumb_" + u1 + ".jpg"
    ensures ThumbnailPath(u1) == ThumbnailPath(u2) ==> u1 == u2
  {
    ThumbnailPathForm(u1);
    ThumbnailPathForm(u2);
    if ThumbnailPath(u1) == ThumbnailPath(u2) {
      FramedInjective("Assets/thumb_", u1, u2, ".jpg");
    }
  }

  /** The seek position: duration // 2, where the duration is the one
      given, ffprobe's when none is given, and 3 when that is 0. Python's
      // floors, which for the divisor 2 is Dafny's /. */
  function SeekSeconds(duration: Option<int>, probe: ProbeRun): (s: int)
    ensures var d := if duration.Some? then duration.value else GetMediaInfo(probe).duration;
      && (d == 0 ==> s == 1)
      && (d != 0 ==> 2 * s <= d < 2 * s + 2)
  {
    var d := if duration.Some? then duration.value else GetMediaInfo(probe).duration;
    (if d == 0 then 3 else d) / 2
  }

  /** A duration given by the caller is used as is: ffprobe's answer does
      not matter. */
  lemma GivenDurationIgnoresProbe(d: int, p1: ProbeRun, p2: ProbeRun)
    ensures SeekSeconds(Some(d), p1) == SeekSeconds(Some(d), p2)
  {
  }

  /** ffmpeg's outcome: it raised (including the 60-second timeout of
      wait_for) or exited with a code. */
  datatype FfmpegRun = FfmpegRaised | FfmpegExited(code: int)

  /** The seek used, the path returned, and the file removed, if any. */
  datatype Thumbnail = Thumbnail(seek: int, path: Option<string>, removed: Option<string>)

  /** get_video_thumbnail: `outputExists` and `outputSize` describe the
      output file after ffmpeg ran. */
  function GetVideoThumbnail(uuid: string, duration: Option<int>, probe: ProbeRun, run: FfmpegRun,
                             outputExists: bool, outputSize: nat): (r: Thumbnail)
    ensures r.seek == SeekSeconds(duration, probe)
    ensures r.path.Some? <==> run == FfmpegExited(0) && outputExists && outputSize > 0
    ensures r.path.Some? ==> r.path.value == ThumbnailPath(uuid)
    ensures r.removed.Some? <==> run == FfmpegExited(0) && outputExists && outputSize == 0
    ensures r.removed.Some? ==> r.removed.value == ThumbnailPath(uuid)
  {
    var output := ThumbnailPath(uuid);
    var seek := SeekSeconds(duration, probe);
    if run.FfmpegRaised? then Thumbnail(seek, None, None)
    else if run.code != 0 then Thumbnail(seek, None, None)
    else if !outputExists then Thumbnail(seek, None, None)
    else if outputSize == 0 then Thumbnail(seek, None, Some(output))
    else Thumbnail(seek, Some(output), None)
  }

  /** A returned thumbnail is never the string "none", nor empty. */
  lemma ThumbnailNotNone(uuid: string, duration: Option<int>, probe: ProbeRun, run: FfmpegRun,
                         outputExists: bool, outputSize: nat)
    ensures var r := GetVideoThumbnail(uuid, duration, probe, run, outputExists, outputSize);
      r.path.Some? ==> r.path.value != "none" && r.path.value != ""
  {
    ThumbnailPaths(uuid, uuid);
    assert |ThumbnailPath(uuid)| > 4;
  }
}
