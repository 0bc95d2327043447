/** The live (second) send_media of bt/helpers/utils.py: the upload size
    gate, then one reply_* call chosen by the media type, with the video
    branch's thumbnail handling and cleanup. */
module Upload {
  import opened Wrappers
  import opened Telegram
  import Probe

  /** The upload call made, with the arguments the model tracks. */
  datatype Call =
    | ReplyPhoto(path: string, caption: string)
    | ReplyVideo(path: string, duration: int, dims: Probe.Dims, thumb: Option<string>, caption: string)
    | ReplyAudio(path: string, duration: int, performer: Option<string>, title: Option<string>, caption: string)
    | ReplyDocument(path: string, caption: string)

  /** What the video branch finds on disk and gets from its tools. */
  datatype VideoRun = VideoRun(
    oldThumbExists: bool,        // Assets/video_thumb.jpg exists
    uuid: string,                // the uuid4 the thumbnail file is named by
    ffmpeg: Probe.FfmpegRun,
    outputExists: bool,          // the thumbnail file after ffmpeg ran
    outputSize: nat,
    imageDims: Probe.Dims,             // Image.open(thumb).size
    thumbExistsAfter: bool)      // os.path.exists(thumb) after the upload

  /** The call made (None when the size gate refused), the files removed
      in order, and whether the upload raised (which ends send_media). */
  datatype Sent = Sent(call: Option<Call>, removed: seq<string>, raised: bool)

  const OldThumb := "Assets/video_thumb.jpg"

  /** The thumbnail get_video_thumbnail produces for the video branch. */
  function VideoThumbnail(probe: Probe.ProbeRun, v: VideoRun): Probe.Thumbnail {
    Probe.GetVideoThumbnail(v.uuid, Some(Probe.GetMediaInfo(probe).duration), probe, v.ffmpeg,
                            v.outputExists, v.outputSize)
  }

  function Opt(o: Option<string>): seq<string> {
    if o.Some? then [o.value] else []
  }

  /** send_media. `sizeAllowed` is fileSizeLimit's verdict on the file,
      `probe` the ffprobe run on it, `uploaded` whether the reply_* call
      returned (False: it raised). The caption is "" for None. */
  function SendMedia(path: string, mediaType: MediaType, caption: string, sizeAllowed: bool,
                     probe: Probe.ProbeRun, v: VideoRun, uploaded: bool): Sent
  {
    if !sizeAllowed then Sent(None, [], false)
    else
      match mediaType
      case Photo => Sent(Some(ReplyPhoto(path, caption)), [], !uploaded)
      case Video =>
        var removedOld := if v.oldThumbExists then [OldThumb] else [];
        var info := Probe.GetMediaInfo(probe);
        var t := VideoThumbnail(probe, v);
        var thumb := t.path;
        var dims := if thumb.Some? && thumb.value != "none" then v.imageDims else Probe.DefaultDims;
        var thumb' := if thumb == Some("none") then None else thumb;
        var cleanup := if uploaded && thumb'.Some? && thumb'.value != "" && v.thumbExistsAfter then [thumb'.value] else [];
        Sent(Some(ReplyVideo(path, info.duration, dims, thumb', caption)),
             removedOld + Opt(t.removed) + cleanup, !uploaded)
      case Audio =>
        var info := Probe.GetMediaInfo(probe);
        Sent(Some(ReplyAudio(path, info.duration, info.artist, info.title, caption)), [], !uploaded)
      case Document => Sent(Some(ReplyDocument(path, caption)), [], !uploaded)
  }

  /** The size gate: when it refuses, nothing is uploaded, probed or
      removed; when it allows, exactly one call of the media type's kind is
      made, on the file and caption given. */
  lemma UploadGate(path: string, mediaType: MediaType, caption: string, sizeAllowed: bool,
                   probe: Probe.ProbeRun, v: VideoRun, uploaded: bool)
    ensures var s := SendMedia(path, mediaType, caption, sizeAllowed, probe, v, uploaded);
      && (!sizeAllowed ==> s == Sent(None, [], false))
      && (sizeAllowed ==> s.call.Some? && s.call.value.path == path && s.call.value.caption == caption
                          && s.raised == !uploaded)
      && (sizeAllowed ==> (s.call.value.ReplyPhoto? <==> mediaType == Photo)
                          && (s.call.value.ReplyVideo? <==> mediaType == Video)
                          && (s.call.value.ReplyAudio? <==> mediaType == Audio)
                          && (s.call.value.ReplyDocument? <==> mediaType == Document))
  {
  }

  /** The video branch: the old generic thumbnail is removed first when it
      exists; the video is sent with the generated thumbnail and its image
      size when there is one, else with no thumbnail and 480x320; after an
      upload that returned, the generated thumbnail is removed whenever it
      still exists. An upload that raises leaves it on disk. */
  lemma VideoThumbnailCleanup(path: string, caption: string, probe: Probe.ProbeRun, v: VideoRun, uploaded: bool)
    ensures var s := SendMedia(path, Video, caption, true, probe, v, uploaded);
      var t := VideoThumbnail(probe, v);
      && (v.oldThumbExists <==> |s.removed| >= 1 && s.removed[0] == OldThumb)
      && (t.path.Some? ==> s.call == Some(ReplyVideo(path, Probe.GetMediaInfo(probe).duration, v.imageDims, t.path, caption)))
      && (t.path.None? ==> s.call == Some(ReplyVideo(path, Probe.GetMediaInfo(probe).duration, Probe.DefaultDims, None, caption)))
      && (t.path.Some? ==> (t.path.value in s.removed <==> uploaded && v.thumbExistsAfter))
      && (t.path.None? ==> forall p :: p in s.removed ==> p == OldThumb || Some(p) == t.removed)
  {
    var t := VideoThumbnail(probe, v);
    Probe.ThumbnailNotNone(v.uuid, Some(Probe.GetMediaInfo(probe).duration), probe, v.ffmpeg, v.outputExists, v.outputSize);
    Probe.ThumbnailPaths(v.uuid, v.uuid);
    assert OldThumb != Probe.ThumbnailPath(v.uuid) by {
      assert OldThumb[7] == 'v' && Probe.ThumbnailPath(v.uuid)[7] == 't';
    }
  }
}
