/** The project: its media table, its two clip lists and its two folders,
    as a value (`ProjectState`, a snapshot) and as the object the editor
    updates in place (`Project`), together with the dictionary form that
    `to_dict` writes and `from_dict` reads. */
module Projects {
  import opened JsonValues
  import opened Records
  import opened Sorting
  import opened Strings

  datatype ProjectState = ProjectState(
    media: MediaTable,
    videoClips: seq<Clip>,
    audioClips: seq<Clip>,
    workspaceDir: string,
    exportDir: string)

  /** `~/video_editor_workspace` and `~/Videos` for the given home folder. */
  function DefaultWorkspace(home: string): string {
    ExpandUser(home, "/video_editor_workspace")
  }

  function DefaultExportDir(home: string): string {
    ExpandUser(home, "/Videos")
  }

  /** What `Project()` starts with. */
  function EmptyState(home: string): (s: ProjectState)
    ensures s.media.Valid() && s.media.items == map[] && s.media.order == []
    ensures s.videoClips == [] && s.audioClips == []
    ensures s.workspaceDir == DefaultWorkspace(home) && s.exportDir == DefaultExportDir(home)
  {
    ProjectState(EmptyTable(), [], [], DefaultWorkspace(home), DefaultExportDir(home))
  }

  /** `add_clip` on a snapshot: "video" sorts the clip into the video list,
      any other track name into the audio list. */
  function WithClip(s: ProjectState, clip: Clip, track: string): ProjectState {
    if track == "video" then s.(videoClips := SortByStart(s.videoClips + [clip]))
    else s.(audioClips := SortByStart(s.audioClips + [clip]))
  }

  /** `add_clip` routes by track name and leaves everything but the target
      list alone; the target list ends up ordered by start time, holds exactly
      its old clips plus the new one, and for each start time keeps the old
      clips with that start time in their old order, followed by the new clip
      when it has that start time. */
  lemma AddClipRouting(s: ProjectState, clip: Clip, track: string)
    ensures var r := WithClip(s, clip, track);
      && r.media == s.media && r.workspaceDir == s.workspaceDir && r.exportDir == s.exportDir
      && (track == "video" ==> r.audioClips == s.audioClips)
      && (track != "video" ==> r.videoClips == s.videoClips)
      && var before := if track == "video" then s.videoClips else s.audioClips;
         var after := if track == "video" then r.videoClips else r.audioClips;
         && SortedByStart(after)
         && multiset(after) == multiset(before) + multiset{clip}
         && forall t :: AtStart(after, t) == AtStart(before, t) + AtStart([clip], t)
  {
    var before := if track == "video" then s.videoClips else s.audioClips;
    SortByStartCorrect(before + [clip]);
    forall t ensures AtStart(before + [clip], t) == AtStart(before, t) + AtStart([clip], t) {
      AtStartAppend(before, [clip], t);
    }
  }

  /** When the target list is already ordered (as it is after any sequence of
      `add_clip` calls), the new clip is inserted right after the last clip
      that starts no later than it. */
  lemma AddClipToSorted(s: ProjectState, clip: Clip, track: string)
    requires track == "video" ==> SortedByStart(s.videoClips)
    requires track != "video" ==> SortedByStart(s.audioClips)
    ensures var r := WithClip(s, clip, track);
      var before := if track == "video" then s.videoClips else s.audioClips;
      var after := if track == "video" then r.videoClips else r.audioClips;
      var k := InsertionPoint(before, clip);
      && after == before[..k] + [clip] + before[k..]
      && (forall i :: 0 <= i < k ==> before[i].startTime <= clip.startTime)
      && (forall i :: k <= i < |before| ==> clip.startTime < before[i].startTime)
  {
    var before := if track == "video" then s.videoClips else s.audioClips;
    AppendThenSort(before, clip);
    InsertPosition(before, clip);
  }

  /** `Project.to_dict`: media items in insertion order, both clip lists in
      their current order, and the two folders, under exactly five keys;
      `EncodeDecode` shows it loses nothing. */
  function Encode(s: ProjectState): (d: Value)
    requires s.media.Valid()
    ensures d.Obj? && d.fields.Keys == {"media", "video_clips", "audio_clips", "workspace_dir", "export_dir"}
  {
    Obj(map[
      "media" := Arr(MapSeq(MediaToDict, s.media.Values())),
      "video_clips" := Arr(MapSeq(ClipToDict, s.videoClips)),
      "audio_clips" := Arr(MapSeq(ClipToDict, s.audioClips)),
      "workspace_dir" := Str(s.workspaceDir),
      "export_dir" := Str(s.exportDir)])
  }

  /** The `media` loop of `from_dict`: every stored item is decoded and put
      into an empty table, in the stored order. */
  function DecodeMedia(f: map<string, Value>): (r: Result<MediaTable>)
    ensures r.Ok? ==> r.value.Valid()
  {
    var mediaList :- GetListOr(f, "media");
    DecodeMediaList(mediaList)
  }

  function DecodeMediaList(xs: seq<Value>): (r: Result<MediaTable>)
    ensures r.Ok? ==> r.value.Valid()
  {
    var items :- DecodeAll(xs, MediaFromDict);
    Ok(TableOf(items))
  }

  /** One of the two clip loops of `from_dict`: the stored clips, decoded in
      the stored order and not re-sorted. */
  function DecodeClips(f: map<string, Value>, key: string): (r: Result<seq<Clip>>)
  {
    var list :- GetListOr(f, key);
    DecodeAll(list, ClipFromDict)
  }

  /** The five entries of `to_dict`, each under its own key. */
  lemma EncodeFields(s: ProjectState)
    requires s.media.Valid()
    ensures var f := Encode(s).fields;
      && f["media"] == Arr(MapSeq(MediaToDict, s.media.Values()))
      && f["video_clips"] == Arr(MapSeq(ClipToDict, s.videoClips))
      && f["audio_clips"] == Arr(MapSeq(ClipToDict, s.audioClips))
      && f["workspace_dir"] == Str(s.workspaceDir)
      && f["export_dir"] == Str(s.exportDir)
  {
    assert "video_clips"[0] != "audio_clips"[0];
    assert "media"[0] != "video_clips"[0] && "media"[0] != "audio_clips"[0];
    assert |"workspace_dir"| != |"media"| && |"workspace_dir"| != |"video_clips"| && |"workspace_dir"| != |"export_dir"|;
    assert |"export_dir"| != |"media"| && |"export_dir"| != |"video_clips"|;
  }

  /** What `Project.from_dict` returns or raises, reading the keys in the
      order the source does. */
  function Decode(data: Value, home: string): (r: Result<ProjectState>)
    ensures r.Ok? ==> r.value.media.Valid()
  {
    if !data.Obj? then Err(NotAnObject)
    else
      var f := data.fields;
      var workspaceDir :- GetStringOr(f, "workspace_dir", DefaultWorkspace(home));
      var exportDir :- GetStringOr(f, "export_dir", DefaultExportDir(home));
      var media :- DecodeMedia(f);
      var video :- DecodeClips(f, "video_clips");
      var audio :- DecodeClips(f, "audio_clips");
      Ok(ProjectState(media, video, audio, workspaceDir, exportDir))
  }

  /** `from_dict` fills in defaults: a missing folder becomes its default
      and a missing list an empty one; anything but a dictionary raises. */
  lemma DecodeDefaults(data: Value, home: string)
    ensures !data.Obj? ==> Decode(data, home) == Err(NotAnObject)
    ensures var r := Decode(data, home);
      r.Ok? ==>
      && ("workspace_dir" !in data.fields ==> r.value.workspaceDir == DefaultWorkspace(home))
      && ("export_dir" !in data.fields ==> r.value.exportDir == DefaultExportDir(home))
      && ("media" !in data.fields ==> r.value.media == EmptyTable())
      && ("video_clips" !in data.fields ==> r.value.videoClips == [])
      && ("audio_clips" !in data.fields ==> r.value.audioClips == [])
  {
    if Decode(data, home).Ok? {
      DecodeParts(data, home);
    }
  }

  /** A decoded project is made of what each stage read. */
  lemma DecodeParts(data: Value, home: string)
    requires Decode(data, home).Ok?
    ensures data.Obj?
    ensures var f, r := data.fields, Decode(data, home).value;
      && GetStringOr(f, "workspace_dir", DefaultWorkspace(home)) == Ok(r.workspaceDir)
      && GetStringOr(f, "export_dir", DefaultExportDir(home)) == Ok(r.exportDir)
      && DecodeMedia(f) == Ok(r.media)
      && DecodeClips(f, "video_clips") == Ok(r.videoClips)
      && DecodeClips(f, "audio_clips") == Ok(r.audioClips)
  {
    var f := data.fields;
    var w := GetStringOr(f, "workspace_dir", DefaultWorkspace(home));
    var e := GetStringOr(f, "export_dir", DefaultExportDir(home));
    var m, v, a := DecodeMedia(f), DecodeClips(f, "video_clips"), DecodeClips(f, "audio_clips");
    assert w.Ok? && e.Ok? && m.Ok? && v.Ok? && a.Ok?;
    assert Decode(data, home).value == ProjectState(m.value, v.value, a.value, w.value, e.value);
  }

  /** The list stored under "media", or none when the key is missing. */
  function StoredMedia(data: Value): seq<Value> {
    if data.Obj? && "media" in data.fields && data.fields["media"].Arr? then data.fields["media"].items
    else []
  }

  /** The media loop of `from_dict` on any stored list, not only one that
      `to_dict` wrote: every stored item decodes, and the table is the one
      that storing the decoded items one after another under their ids
      builds (`TableOfContents` says what that table holds). When the stored
      ids all differ, the key order is the stored id order and every decoded
      item is stored under its own id. */
  lemma DecodeMediaTable(data: Value, home: string)
    requires Decode(data, home).Ok?
    ensures data.Obj? && ("media" in data.fields ==> data.fields["media"].Arr?)
    ensures DecodeAll(StoredMedia(data), MediaFromDict).Ok?
    ensures Decode(data, home).value.media == TableOf(DecodeAll(StoredMedia(data), MediaFromDict).value)
    ensures Distinct(Ids(DecodeAll(StoredMedia(data), MediaFromDict).value)) ==>
      && Decode(data, home).value.media.order == Ids(DecodeAll(StoredMedia(data), MediaFromDict).value)
      && forall i :: 0 <= i < |StoredMedia(data)| ==>
           Stores(Decode(data, home).value.media, DecodeAll(StoredMedia(data), MediaFromDict).value[i])
  {
    DecodeParts(data, home);
    var items := DecodeAll(StoredMedia(data), MediaFromDict).value;
    if Distinct(Ids(items)) {
      TableDistinctOrder(items);
      TableDistinctItems(items);
    }
  }

  /** `from_dict` keeps stored order: the clip lists are the stored ones
      decoded element by element, in the stored order and not sorted. */
  lemma DecodeKeepsOrder(data: Value, home: string)
    requires Decode(data, home).Ok?
    ensures var r := Decode(data, home).value;
      && ("video_clips" in data.fields ==>
            data.fields["video_clips"].Arr? &&
            var xs := data.fields["video_clips"].items;
            |r.videoClips| == |xs| && forall i :: 0 <= i < |xs| ==> ClipFromDict(xs[i]) == Ok(r.videoClips[i]))
      && ("audio_clips" in data.fields ==>
            data.fields["audio_clips"].Arr? &&
            var xs := data.fields["audio_clips"].items;
            |r.audioClips| == |xs| && forall i :: 0 <= i < |xs| ==> ClipFromDict(xs[i]) == Ok(r.audioClips[i]))
  {
    DecodeParts(data, home);
  }

  /** `Project.from_dict(p.to_dict())` restores the same media table (keys,
      items and order), both clip lists in the same order, and both folders,
      whatever the home folder. */
  lemma EncodeDecode(s: ProjectState, home: string)
    requires s.media.Valid()
    ensures Decode(Encode(s), home) == Ok(s)
  {
    var d := Encode(s);
    var f := d.fields;
    var vs := s.media.Values();
    EncodeFields(s);
    assert GetStringOr(f, "workspace_dir", DefaultWorkspace(home)) == Ok(s.workspaceDir);
    assert GetStringOr(f, "export_dir", DefaultExportDir(home)) == Ok(s.exportDir);
    DecodeAllOfEncoded(vs, MediaToDict, MediaFromDict);
    TableOfValues(s.media);
    assert DecodeMedia(f) == Ok(s.media);
    DecodeClipsOfEncoded(f, "video_clips", s.videoClips);
    DecodeClipsOfEncoded(f, "audio_clips", s.audioClips);
  }

  lemma DecodeClipsOfEncoded(f: map<string, Value>, key: string, cs: seq<Clip>)
    requires key in f && f[key] == Arr(MapSeq(ClipToDict, cs))
    ensures DecodeClips(f, key) == Ok(cs)
  {
    DecodeAllOfEncoded(cs, ClipToDict, ClipFromDict);
  }

  /** The project object. `media` is the insertion-ordered `media`
      dictionary; the clip lists are reassigned as a whole where the source
      mutates them. */
  class Project {
    var media: MediaTable
    var videoClips: seq<Clip>
    var audioClips: seq<Clip>
    var workspaceDir: string
    var exportDir: string

    ghost predicate Valid()
      reads this
    {
      media.Valid()
    }

    function State(): ProjectState
      reads this
    {
      ProjectState(media, videoClips, audioClips, workspaceDir, exportDir)
    }

    /** `Project()`: no media, no clips, the default folders. */
    constructor (home: string)
      ensures Valid() && State() == EmptyState(home)
    {
      media := EmptyTable();
      videoClips := [];
      audioClips := [];
      workspaceDir := DefaultWorkspace(home);
      exportDir := DefaultExportDir(home);
    }

    /** `add_media`: the item is stored under its own id. */
    method AddMedia(item: MediaItem)
      requires Valid()
      modifies this
      ensures Valid()
      ensures State() == old(State()).(media := old(media).Put(item))
    {
      media := media.Put(item);
    }

    /** `add_clip`: append to the track's list, then sort it stably by start
      time. */
    method AddClip(clip: Clip, track: string)
      requires Valid()
      modifies this
      ensures Valid()
      ensures State() == WithClip(old(State()), clip, track)
    {
      if track == "video" {
        videoClips := SortByStart(videoClips + [clip]);
      } else {
        audioClips := SortByStart(audioClips + [clip]);
      }
    }

    /** `Project.from_dict`: a fresh project, its folders taken from the
        dictionary or left at their defaults, then one loop per list. */
    static method FromDict(data: Value, home: string) returns (r: Result<Project>)
      ensures r.Err? ==> Decode(data, home) == Err(r.error)
      ensures r.Ok? ==> fresh(r.value) && r.value.Valid() && Decode(data, home) == Ok(r.value.State())
    {
      if !data.Obj? {
        return Err(NotAnObject);
      }
      var f := data.fields;
      var proj := new Project(home);
      var workspaceDir := GetStringOr(f, "workspace_dir", proj.workspaceDir);
      if workspaceDir.Err? {
        return Err(workspaceDir.error);
      }
      proj.workspaceDir := workspaceDir.value;
      var exportDir := GetStringOr(f, "export_dir", proj.exportDir);
      if exportDir.Err? {
        return Err(exportDir.error);
      }
      proj.exportDir := exportDir.value;
      var mediaList := GetListOr(f, "media");
      if mediaList.Err? {
        return Err(mediaList.error);
      }
      var media := ReadMedia(mediaList.value);
      if media.Err? {
        return Err(media.error);
      }
      proj.media := media.value;
      var videoList := GetListOr(f, "video_clips");
      if videoList.Err? {
        return Err(videoList.error);
      }
      var video := ReadClips(videoList.value);
      if video.Err? {
        return Err(video.error);
      }
      proj.videoClips := video.value;
      var audioList := GetListOr(f, "audio_clips");
      if audioList.Err? {
        return Err(audioList.error);
      }
      var audio := ReadClips(audioList.value);
      if audio.Err? {
        return Err(audio.error);
      }
      proj.audioClips := audio.value;
      assert Decode(data, home) == Ok(proj.State()) by {
        assert DecodeMedia(f) == Ok(media.value);
        assert DecodeClips(f, "video_clips") == Ok(video.value);
        assert DecodeClips(f, "audio_clips") == Ok(audio.value);
      }
      return Ok(proj);
    }

    /** The `media` loop: each stored item is decoded and stored under its id,
        in the stored order; the first item that fails to decode raises. */
    static method ReadMedia(xs: seq<Value>) returns (r: Result<MediaTable>)
      ensures r == DecodeMediaList(xs)
    {
      var table := EmptyTable();
      ghost var done: seq<MediaItem> := [];
      var i := 0;
      while i < |xs|
        invariant 0 <= i <= |xs|
        invariant DecodeAll(xs[..i], MediaFromDict) == Ok(done)
        invariant table == TableOf(done)
      {
        var item := MediaFromDict(xs[i]);
        assert xs[..i + 1][..i] == xs[..i];
        if item.Err? {
          DecodeAllFirstError(xs, MediaFromDict, i + 1);
          return Err(item.error);
        }
        assert TableOf(done + [item.value]) == table.Put(item.value) by {
          TableOfSnoc(done + [item.value]);
          assert (done + [item.value])[..|done|] == done;
        }
        table := table.Put(item.value);
        done := done + [item.value];
        i := i + 1;
      }
      assert xs[..|xs|] == xs;
      return Ok(table);
    }

    /** A clip loop: each stored clip is decoded and appended, in the stored
        order; the first clip that fails to decode raises. */
    static method ReadClips(xs: seq<Value>) returns (r: Result<seq<Clip>>)
      ensures r == DecodeAll(xs, ClipFromDict)
    {
      var clips := [];
      var i := 0;
      while i < |xs|
        invariant 0 <= i <= |xs|
        invariant DecodeAll(xs[..i], ClipFromDict) == Ok(clips)
      {
        assert xs[..i + 1][..i] == xs[..i];
        var clip := ClipFromDict(xs[i]);
        if clip.Err? {
          DecodeAllFirstError(xs, ClipFromDict, i + 1);
          return Err(clip.error);
        }
        clips := clips + [clip.value];
        i := i + 1;
      }
      assert xs[..|xs|] == xs;
      return Ok(clips);
    }
  }
}
