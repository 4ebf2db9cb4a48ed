/** Placing clips on the two-track timeline (`TimelineWidget`): a drop of a
    media id creates a full-length clip where it was dropped, and releasing
    the mouse moves every drawn clip to the start its rectangle shows, never
    before time 0. Positions are scene coordinates in pixels, times are
    seconds, and `pixels_per_second` converts between them. */
module Timeline {
  import opened Records
  import opened Sorting
  import opened Projects

  datatype Option<T> = None | Some(value: T)

  /** The track a drop at height y lands on: above the audio track's top edge
      is video, anything else audio. */
  function TrackFor(y: real, audioY: real): string {
    if y < audioY then "video" else "audio"
  }

  /** `max(0.0, x / pixels_per_second)`. */
  function DropStart(x: real, pps: real): (t: real)
    requires pps > 0.0
    ensures t >= 0.0
    ensures x >= 0.0 ==> t * pps == x
    ensures x < 0.0 ==> t == 0.0
  {
    if x / pps > 0.0 then x / pps else 0.0
  }

  /** The clip a drop creates: all of the media, from 0 to its duration. */
  function DropClip(mediaId: string, x: real, pps: real, duration: real): Clip
    requires pps > 0.0
  {
    Clip(mediaId, 0.0, duration, DropStart(x, pps))
  }

  /** `dropEvent`: `data` is the dragged media id ("" when the drag carries
      none); `duration` is what probing the media file reports. */
  function DropInto(s: ProjectState, data: string, x: real, y: real, pps: real, audioY: real, duration: real): ProjectState
    requires pps > 0.0
  {
    if data == [] || data !in s.media.items then s
    else WithClip(s, DropClip(data, x, pps, duration), TrackFor(y, audioY))
  }

  /** A drop without a media id, or with one the project does not hold,
      changes nothing. */
  lemma DropUnknownChangesNothing(s: ProjectState, data: string, x: real, y: real, pps: real, audioY: real, duration: real)
    requires pps > 0.0
    requires data == [] || data !in s.media.items
    ensures DropInto(s, data, x, y, pps, audioY, duration) == s
  {
  }

  /** A drop of a known id adds exactly one clip, covering the whole media
      (in point 0, out point the duration) and starting at `DropStart`, the
      drop position clamped to 0; it goes to the video track exactly when y
      is above the audio track, the other track and the media stay as they
      were, and the target track stays ordered by start time. */
  lemma DropPlacement(s: ProjectState, data: string, x: real, y: real, pps: real, audioY: real, duration: real)
    requires pps > 0.0
    requires data != [] && data in s.media.items
    ensures var r := DropInto(s, data, x, y, pps, audioY, duration);
      var c := Clip(data, 0.0, duration, DropStart(x, pps));
      && r.media == s.media && r.workspaceDir == s.workspaceDir && r.exportDir == s.exportDir
      && (y < audioY ==> r.audioClips == s.audioClips
                         && multiset(r.videoClips) == multiset(s.videoClips) + multiset{c}
                         && SortedByStart(r.videoClips))
      && (y >= audioY ==> r.videoClips == s.videoClips
                          && multiset(r.audioClips) == multiset(s.audioClips) + multiset{c}
                          && SortedByStart(r.audioClips))
  {
    var track := TrackFor(y, audioY);
    assert track == "video" <==> y < audioY by {
      assert "audio"[0] != "video"[0];
    }
    AddClipRouting(s, DropClip(data, x, pps, duration), track);
  }

  /** The start a released clip gets from its rectangle's x: x over the
      scale, or exactly 0 when that is negative. */
  function ReleasedStart(rectX: real, pps: real): (t: real)
    requires pps > 0.0
    ensures t >= 0.0
    ensures rectX / pps >= 0.0 ==> t == rectX / pps
    ensures rectX / pps < 0.0 ==> t == 0.0
  {
    var newStart := rectX / pps;
    if newStart < 0.0 then 0.0 else newStart
  }

  /** One entry of `graphics_to_clip`: a drawn clip takes its new start from
      its rectangle (`None` for a clip that has no rectangle). */
  function ReleaseClip(c: Clip, rect: Option<real>, pps: real): Clip
    requires pps > 0.0
  {
    if rect.Some? then c.(startTime := ReleasedStart(rect.value, pps)) else c
  }

  /** A list of clips after a release, position by position. */
  function ReleaseAll(clips: seq<Clip>, rects: seq<Option<real>>, pps: real): (r: seq<Clip>)
    requires pps > 0.0 && |rects| == |clips|
    ensures |r| == |clips|
    ensures forall i :: 0 <= i < |clips| ==> r[i] == ReleaseClip(clips[i], rects[i], pps)
  {
    seq(|clips|, i requires 0 <= i < |clips| => ReleaseClip(clips[i], rects[i], pps))
  }

  /** After a release every drawn clip starts at time 0 or later, one whose
      rectangle lies left of 0 starts at exactly 0, every clip keeps its
      media, in point and out point, and a clip without a rectangle is left
      as it was. The list is not re-sorted. */
  lemma ReleaseClamps(clips: seq<Clip>, rects: seq<Option<real>>, pps: real)
    requires pps > 0.0 && |rects| == |clips|
    ensures var r := ReleaseAll(clips, rects, pps);
      && |r| == |clips|
      && (forall i :: 0 <= i < |r| ==>
            && r[i].mediaId == clips[i].mediaId
            && r[i].inPoint == clips[i].inPoint
            && r[i].outPoint == clips[i].outPoint)
      && (forall i :: 0 <= i < |r| && rects[i].Some? ==> r[i].startTime >= 0.0)
      && (forall i :: 0 <= i < |r| && rects[i].Some? && rects[i].value < 0.0 ==> r[i].startTime == 0.0)
      && (forall i :: 0 <= i < |r| && rects[i].Some? && rects[i].value >= 0.0 ==> r[i].startTime * pps == rects[i].value)
      && (forall i :: 0 <= i < |r| && rects[i].None? ==> r[i] == clips[i])
  {
    var r := ReleaseAll(clips, rects, pps);
    forall i | 0 <= i < |r| && rects[i].Some? && rects[i].value < 0.0
      ensures r[i].startTime == 0.0
    {
      NegativeOverScale(rects[i].value, pps);
    }
    forall i | 0 <= i < |r| && rects[i].Some? && rects[i].value >= 0.0
      ensures r[i].startTime * pps == rects[i].value
    {
      NonNegativeOverScale(rects[i].value, pps);
    }
  }

  lemma NegativeOverScale(x: real, pps: real)
    requires pps > 0.0 && x < 0.0
    ensures x / pps < 0.0
  {
    assert (x / pps) * pps == x;
  }

  lemma NonNegativeOverScale(x: real, pps: real)
    requires pps > 0.0 && x >= 0.0
    ensures x / pps >= 0.0 && (x / pps) * pps == x
  {
  }

  /** The timeline view of one project, with the scale and track layout it
      is created with. */
  class TimelineWidget {
    const project: Project
    const pixelsPerSecond: real
    const videoY: real
    const audioY: real
    const trackHeight: real

    constructor (project: Project)
      ensures this.project == project
      ensures pixelsPerSecond == 100.0 && videoY == 0.0 && audioY == 60.0 && trackHeight == 40.0
    {
      this.project := project;
      pixelsPerSecond := 100.0;
      videoY := 0.0;
      audioY := 60.0;
      trackHeight := 40.0;
    }

    /** `dropEvent` at scene position (x, y). */
    method Drop(data: string, x: real, y: real, duration: real)
      requires project.Valid() && pixelsPerSecond > 0.0
      modifies project
      ensures project.Valid()
      ensures project.State() == DropInto(old(project.State()), data, x, y, pixelsPerSecond, audioY, duration)
    {
      if data == [] {
        return;
      }
      var mediaId := data;
      if mediaId !in project.media.items {
        return;
      }
      var track := if y < audioY then "video" else "audio";
      var startTime := DropStart(x, pixelsPerSecond);
      var clip := Clip(mediaId, 0.0, duration, startTime);
      project.AddClip(clip, track);
    }

    /** `mouseReleaseEvent`: `videoRects[i]` and `audioRects[i]` are the x of
        the rectangle drawn for the i-th clip of each track, if one was drawn. */
    method MouseRelease(videoRects: seq<Option<real>>, audioRects: seq<Option<real>>)
      requires project.Valid() && pixelsPerSecond > 0.0
      requires |videoRects| == |project.videoClips| && |audioRects| == |project.audioClips|
      modifies project
      ensures project.Valid()
      ensures project.State() == old(project.State()).(
        videoClips := ReleaseAll(old(project.videoClips), videoRects, pixelsPerSecond),
        audioClips := ReleaseAll(old(project.audioClips), audioRects, pixelsPerSecond))
    {
      var i := 0;
      while i < |videoRects|
        invariant 0 <= i <= |videoRects| == |project.videoClips|
        invariant project.videoClips[..i] == ReleaseAll(old(project.videoClips), videoRects, pixelsPerSecond)[..i]
        invariant project.videoClips[i..] == old(project.videoClips)[i..]
        invariant project.media == old(project.media) && project.audioClips == old(project.audioClips)
        invariant project.workspaceDir == old(project.workspaceDir) && project.exportDir == old(project.exportDir)
      {
        var clip := project.videoClips[i];
        if videoRects[i].Some? {
          var newStart := videoRects[i].value / pixelsPerSecond;
          if newStart < 0.0 {
            newStart := 0.0;
          }
          project.videoClips := project.videoClips[i := clip.(startTime := newStart)];
        }
        i := i + 1;
      }
      assert project.videoClips == ReleaseAll(old(project.videoClips), videoRects, pixelsPerSecond);
      i := 0;
      while i < |audioRects|
        invariant 0 <= i <= |audioRects| == |project.audioClips|
        invariant project.audioClips[..i] == ReleaseAll(old(project.audioClips), audioRects, pixelsPerSecond)[..i]
        invariant project.audioClips[i..] == old(project.audioClips)[i..]
        invariant project.videoClips == ReleaseAll(old(project.videoClips), videoRects, pixelsPerSecond)
        invariant project.media == old(project.media)
        invariant project.workspaceDir == old(project.workspaceDir) && project.exportDir == old(project.exportDir)
      {
        var clip := project.audioClips[i];
        if audioRects[i].Some? {
          var newStart := audioRects[i].value / pixelsPerSecond;
          if newStart < 0.0 {
            newStart := 0.0;
          }
          project.audioClips := project.audioClips[i := clip.(startTime := newStart)];
        }
        i := i + 1;
      }
      assert project.audioClips == ReleaseAll(old(project.audioClips), audioRects, pixelsPerSecond);
    }
  }
}
