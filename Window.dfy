/** The main window's export and save commands (`MainWindow`): the guards
    that run before an export, the suffix a chosen file name is given, and
    the export itself as the loop over the two tracks that builds and runs
    the ffmpeg commands. Dialogs, message boxes and the status bar are not
    modelled: what the user picks in a file dialog is an input ("" when the
    dialog is cancelled), and so is whether ffprobe could be found. */
module Window {
  import opened Strings
  import opened JsonValues
  import opened Records
  import opened Projects
  import opened Export

  /** `if not path.endswith(suffix): path += suffix`. */
  function NormaliseSuffix(path: string, suffix: string): (r: string)
    ensures EndsWith(r, suffix)
    ensures |r| >= |path| && r[..|path|] == path
    ensures r == path <==> EndsWith(path, suffix)
    ensures !EndsWith(path, suffix) ==> r == path + suffix
  {
    if EndsWith(path, suffix) then path else path + suffix
  }

  /** Normalising twice is normalising once, and only the suffix is ever
      added. */
  lemma NormaliseIdempotent(path: string, suffix: string)
    ensures NormaliseSuffix(NormaliseSuffix(path, suffix), suffix) == NormaliseSuffix(path, suffix)
    ensures NormaliseSuffix(path, suffix) == path || NormaliseSuffix(path, suffix) == path + suffix
  {
  }

  /** A name already ending in ".mp4" in another case still gets the suffix:
      the test is case-sensitive. */
  lemma NormaliseIsCaseSensitive(stem: string)
    ensures NormaliseSuffix(stem + ".MP4", ".mp4") == stem + ".MP4" + ".mp4"
  {
    var p := stem + ".MP4";
    assert p[|p| - 4..] == ".MP4";
    assert ".MP4"[1] != ".mp4"[1];
  }

  /** What pressing Export leads to. */
  datatype ExportResult =
    | FfmpegMissing
    | NothingToExport
    | Cancelled
    | Exported(outputPath: string, outcome: Outcome)

  /** `export_project`: no ffprobe, no video clip, or a cancelled dialog stop
      it before anything is run; otherwise the chosen name gets ".mp4" and
      the export runs. */
  function ExportDecision(ffprobeFound: bool, s: ProjectState, chosen: string, fmt: real -> string): ExportResult {
    if !ffprobeFound then FfmpegMissing
    else if s.videoClips == [] then NothingToExport
    else if chosen == [] then Cancelled
    else
      var outputPath := NormaliseSuffix(chosen, ".mp4");
      Exported(outputPath, Plan(s, outputPath, fmt))
  }

  /** The guards come in this order and each one stops the export; an export
      that goes ahead writes to the chosen name, with ".mp4" added when the
      name does not already end in it, and runs exactly the plan for that
      file. */
  lemma ExportGuards(ffprobeFound: bool, s: ProjectState, chosen: string, fmt: real -> string)
    ensures var r := ExportDecision(ffprobeFound, s, chosen, fmt);
      && (r == FfmpegMissing <==> !ffprobeFound)
      && (r == NothingToExport <==> ffprobeFound && s.videoClips == [])
      && (r == Cancelled <==> ffprobeFound && s.videoClips != [] && chosen == [])
      && (r.Exported? <==> ffprobeFound && s.videoClips != [] && chosen != [])
      && (r.Exported? ==>
            && EndsWith(r.outputPath, ".mp4")
            && r.outputPath[..|chosen|] == chosen
            && (EndsWith(chosen, ".mp4") ==> r.outputPath == chosen)
            && (!EndsWith(chosen, ".mp4") ==> r.outputPath == chosen + ".mp4")
            && r.outcome == Plan(s, r.outputPath, fmt))
  {
  }

  /** What pressing Save leads to: nothing, or the file name written and the
      dictionary written into it. */
  datatype SaveResult = SaveCancelled | Saved(path: string, contents: Value)

  /** `save_project`: the chosen name gets ".json" and the project's
      dictionary is written there. */
  function SaveDecision(s: ProjectState, chosen: string): SaveResult
    requires s.media.Valid()
  {
    if chosen == [] then SaveCancelled
    else Saved(NormaliseSuffix(chosen, ".json"), Encode(s))
  }

  /** A save that goes ahead writes to the chosen name, with ".json" added
      when the name does not already end in it, and the contents read back
      as the very project that was saved. */
  lemma SaveRoundTrip(s: ProjectState, chosen: string, home: string)
    requires s.media.Valid()
    ensures var r := SaveDecision(s, chosen);
      && (r.SaveCancelled? <==> chosen == [])
      && (r.Saved? ==>
            && EndsWith(r.path, ".json")
            && r.path[..|chosen|] == chosen
            && (EndsWith(chosen, ".json") ==> r.path == chosen)
            && (!EndsWith(chosen, ".json") ==> r.path == chosen + ".json")
            && Decode(r.contents, home) == Ok(s))
  {
    EncodeDecode(s, home);
  }

  /** The main window over one project. */
  class MainWindow {
    const project: Project

    constructor (project: Project)
      ensures this.project == project
    {
      this.project := project;
    }

    /** `_export_with_ffmpeg`: every loop of the source in turn; a clip whose
        media id is not in the project stops the export with the commands
        run so far. */
    method ExportWithFfmpeg(outputPath: string, fmt: real -> string) returns (r: Outcome)
      requires project.Valid()
      ensures r == Plan(project.State(), outputPath, fmt)
    {
      ghost var s := project.State();
      var media := project.media.items;
      var video := project.videoClips;
      var audio := project.audioClips;
      var tempDir := PathJoin(project.workspaceDir, "export_tmp");
      var k, ran, tmpVideoFiles := TrimVideo(video, media, tempDir, fmt);
      if k < |video| {
        r := MissingMedia(video[k].mediaId, ran);
        assert r == Plan(s, outputPath, fmt);
        return;
      }
      var listPath := ListPath(tempDir);
      var listText := WriteList(tmpVideoFiles);
      var concatPath := ConcatPath(tempDir);
      ran := ran + [ConcatArgv(listPath, concatPath)];
      assert ran == VideoPart(s, fmt) + [ConcatStep(s)];
      if audio == [] {
        ran := ran + [FinalArgv(concatPath, outputPath)];
        r := Compiled(ran, listPath, listText);
        assert r == Plan(s, outputPath, fmt) by {
          assert ran == Commands(s, outputPath, fmt);
          PlanCompiles(s, outputPath, fmt);
        }
        return;
      }
      var ka, audioRan, tmpAudioFiles := TrimAudio(audio, media, tempDir, fmt);
      if ka < |audio| {
        r := MissingMedia(audio[ka].mediaId, ran + audioRan);
        assert r == Plan(s, outputPath, fmt);
        return;
      }
      ran := ran + audioRan;
      var mix := MixCommand(concatPath, tmpAudioFiles, outputPath);
      ran := ran + [mix];
      r := Compiled(ran, listPath, listText);
      assert r == Plan(s, outputPath, fmt) by {
        assert audioRan == AudioPart(s, fmt);
        assert mix == LastStep(s, outputPath);
        PlanCompiles(s, outputPath, fmt);
      }
    }

    /** `export_project`, with what `ffprobe_installed` reports and what the
        save dialog returns as inputs. */
    method ExportProject(ffprobeFound: bool, chosen: string, fmt: real -> string) returns (r: ExportResult)
      requires project.Valid()
      ensures r == ExportDecision(ffprobeFound, project.State(), chosen, fmt)
    {
      if !ffprobeFound {
        return FfmpegMissing;
      }
      if project.videoClips == [] {
        return NothingToExport;
      }
      var outputPath := chosen;
      if outputPath == [] {
        return Cancelled;
      }
      if !EndsWith(outputPath, ".mp4") {
        outputPath := outputPath + ".mp4";
      }
      var outcome := ExportWithFfmpeg(outputPath, fmt);
      return Exported(outputPath, outcome);
    }

    /** `save_project`, with what the save dialog returns as input. */
    method SaveProject(chosen: string) returns (r: SaveResult)
      requires project.Valid()
      ensures r == SaveDecision(project.State(), chosen)
    {
      var filePath := chosen;
      if filePath == [] {
        return SaveCancelled;
      }
      if !EndsWith(filePath, ".json") {
        filePath := filePath + ".json";
      }
      return Saved(filePath, Encode(project.State()));
    }
  }

  /** The loop over the video clips: each clip is cut into its numbered
      temporary file, until a clip whose media id is unknown; `k` is how many
      clips were cut. */
  method TrimVideo(video: seq<Clip>, media: map<string, MediaItem>, tempDir: string, fmt: real -> string)
    returns (k: nat, ran: seq<seq<string>>, tmpVideoFiles: seq<string>)
    ensures k == FirstMissing(video, media)
    ensures ran == VideoTrims(video, media, tempDir, fmt, k)
    ensures tmpVideoFiles == VideoTemps(tempDir, k)
  {
    ran, tmpVideoFiles := [], [];
    k := 0;
    while k < |video|
      invariant k <= FirstMissing(video, media)
      invariant ran == VideoTrims(video, media, tempDir, fmt, k)
      invariant tmpVideoFiles == VideoTemps(tempDir, k)
    {
      var clip := video[k];
      if clip.mediaId !in media {
        return;
      }
      var tmpOut := VideoTemp(tempDir, k);
      VideoTrimsSnoc(video, media, tempDir, fmt, k);
      TempsSnoc(tempDir, k);
      ran := ran + [VideoTrimArgv(clip, media[clip.mediaId].path, tmpOut, fmt)];
      tmpVideoFiles := tmpVideoFiles + [tmpOut];
      k := k + 1;
    }
  }

  /** The loop over the audio clips: each clip is cut into its numbered
      temporary file and remembered with its start time, until a clip whose
      media id is unknown. */
  method TrimAudio(audio: seq<Clip>, media: map<string, MediaItem>, tempDir: string, fmt: real -> string)
    returns (k: nat, ran: seq<seq<string>>, tmpAudioFiles: seq<(string, real)>)
    ensures k == FirstMissing(audio, media)
    ensures ran == AudioTrims(audio, media, tempDir, fmt, k)
    ensures Firsts(tmpAudioFiles) == AudioTemps(tempDir, k)
    ensures Seconds(tmpAudioFiles) == Starts(audio[..k])
    ensures k == |audio| ==> Seconds(tmpAudioFiles) == Starts(audio)
  {
    ran, tmpAudioFiles := [], [];
    k := 0;
    while k < |audio|
      invariant k <= FirstMissing(audio, media)
      invariant ran == AudioTrims(audio, media, tempDir, fmt, k)
      invariant Firsts(tmpAudioFiles) == AudioTemps(tempDir, k)
      invariant Seconds(tmpAudioFiles) == Starts(audio[..k])
    {
      var clip := audio[k];
      if clip.mediaId !in media {
        return;
      }
      var tmpOut := AudioTemp(tempDir, k);
      AudioTrimsSnoc(audio, media, tempDir, fmt, k);
      TempsSnoc(tempDir, k);
      PairSnoc(tmpAudioFiles, (tmpOut, clip.startTime));
      StartsSnoc(audio, k);
      ran := ran + [AudioTrimArgv(clip, media[clip.mediaId].path, tmpOut, fmt)];
      tmpAudioFiles := tmpAudioFiles + [(tmpOut, clip.startTime)];
      k := k + 1;
    }
    assert audio[..k] == audio;
  }

  lemma PairSnoc(pairs: seq<(string, real)>, p: (string, real))
    ensures Firsts(pairs + [p]) == Firsts(pairs) + [p.0]
    ensures Seconds(pairs + [p]) == Seconds(pairs) + [p.1]
  {
  }

  /** The file of each (file, start) pair. */
  function Firsts(pairs: seq<(string, real)>): (fs: seq<string>)
    ensures |fs| == |pairs| && forall i :: 0 <= i < |pairs| ==> fs[i] == pairs[i].0
  {
    seq(|pairs|, i requires 0 <= i < |pairs| => pairs[i].0)
  }

  /** The start time of each (file, start) pair. */
  function Seconds(pairs: seq<(string, real)>): (ts: seq<real>)
    ensures |ts| == |pairs| && forall i :: 0 <= i < |pairs| ==> ts[i] == pairs[i].1
  {
    seq(|pairs|, i requires 0 <= i < |pairs| => pairs[i].1)
  }

  /** The loop that writes `video_list.txt`, one line per file. */
  method WriteList(files: seq<string>) returns (text: string)
    ensures text == ListText(files)
  {
    text := "";
    var i := 0;
    while i < |files|
      invariant i <= |files| && text == ListText(files[..i])
    {
      LinesAppend(ListLines(files[..i]), ListLine(files[i]));
      assert ListLines(files[..i + 1]) == ListLines(files[..i]) + [ListLine(files[i])];
      text := text + ListLine(files[i]) + "\n";
      i := i + 1;
    }
    assert files[..i] == files;
  }

  /** The final command with audio: the loop over the temporary audio
      files builds `input_cmds` and the delay segments of `filter_parts`, the
      mix piece is appended, and the pieces are joined into the filter
      graph. */
  method MixCommand(concatPath: string, tmpAudioFiles: seq<(string, real)>, outputPath: string) returns (cmdFinal: seq<string>)
    ensures cmdFinal == MixArgv(concatPath, Firsts(tmpAudioFiles), FilterComplex(Seconds(tmpAudioFiles)), outputPath)
  {
    var inputCmds: seq<string> := [];
    var filterParts: seq<string> := [];
    var idx := 0;
    while idx < |tmpAudioFiles|
      invariant idx <= |tmpAudioFiles|
      invariant inputCmds == InputCmds(Firsts(tmpAudioFiles[..idx]))
      invariant filterParts == Segments(Seconds(tmpAudioFiles[..idx]))
    {
      var audioPath, start := tmpAudioFiles[idx].0, tmpAudioFiles[idx].1;
      PairsSnoc(tmpAudioFiles, idx);
      inputCmds := inputCmds + ["-i", audioPath];
      var delayMs := DelayMs(start);
      filterParts := filterParts + [Segment(idx, delayMs)];
      idx := idx + 1;
    }
    assert tmpAudioFiles[..idx] == tmpAudioFiles;
    var mixInputs := MixLabels(|tmpAudioFiles|);
    filterParts := filterParts + [mixInputs + "amix=inputs=" + Decimal(|tmpAudioFiles|) + ":duration=longest[aout]"];
    var filterComplex := Join(filterParts);
    cmdFinal := ["ffmpeg", "-y", "-i", concatPath] + inputCmds + MixTail(filterComplex, outputPath);
  }

  /** One more pair adds its "-i" and file to the inputs and its segment to
      the filter parts. */
  lemma PairsSnoc(pairs: seq<(string, real)>, idx: nat)
    requires idx < |pairs|
    ensures InputCmds(Firsts(pairs[..idx + 1])) == InputCmds(Firsts(pairs[..idx])) + ["-i", pairs[idx].0]
    ensures Segments(Seconds(pairs[..idx + 1])) == Segments(Seconds(pairs[..idx])) + [Segment(idx, DelayMs(pairs[idx].1))]
  {
    var fs := Firsts(pairs[..idx + 1]);
    assert fs[..idx] == Firsts(pairs[..idx]);
    assert fs[idx] == pairs[idx].0;
    var ts := Seconds(pairs[..idx + 1]);
    assert ts == Seconds(pairs[..idx]) + [pairs[idx].1];
    SegmentsSnoc(Seconds(pairs[..idx]), pairs[idx].1);
  }

  lemma SegmentsSnoc(starts: seq<real>, t: real)
    ensures Segments(starts + [t]) == Segments(starts) + [Segment(|starts|, DelayMs(t))]
  {
    var a := Segments(starts + [t]);
    forall i | 0 <= i < |starts| ensures a[i] == Segments(starts)[i] {
      assert (starts + [t])[i] == starts[i];
    }
    assert (starts + [t])[|starts|] == t;
    SnocOf(a, Segments(starts), Segment(|starts|, DelayMs(t)));
  }
}
