/** Exporting the timeline with ffmpeg (`MainWindow._export_with_ffmpeg`):
    each video clip is cut into a numbered temporary file, the pieces are
    joined by ffmpeg's concat demuxer through a list file, and the result is
    either re-encoded as it is or mixed with the cut audio clips, each delayed
    to its start time. The plan is the list of ffmpeg argument vectors in the
    order they are run, with the list file's name and text; running them is
    not modelled. `fmt` stands for Python's `str` on a float. */
module Export {
  import opened Strings
  import opened JsonValues
  import opened Records
  import opened Projects

  // ---------------------------------------------------------------------
  // File names

  function TempDir(workspaceDir: string): string {
    PathJoin(workspaceDir, "export_tmp")
  }

  /** `v_{idx:03d}.mp4` in the temporary folder. */
  function VideoTemp(tempDir: string, idx: nat): string {
    PathJoin(tempDir, "v_" + Pad3(idx) + ".mp4")
  }

  /** `a_{idx:03d}.mp3` in the temporary folder. */
  function AudioTemp(tempDir: string, idx: nat): string {
    PathJoin(tempDir, "a_" + Pad3(idx) + ".mp3")
  }

  function VideoTemps(tempDir: string, n: nat): (fs: seq<string>)
    ensures |fs| == n && forall i :: 0 <= i < n ==> fs[i] == VideoTemp(tempDir, i)
  {
    seq(n, i requires 0 <= i < n => VideoTemp(tempDir, i))
  }

  function AudioTemps(tempDir: string, n: nat): (fs: seq<string>)
    ensures |fs| == n && forall i :: 0 <= i < n ==> fs[i] == AudioTemp(tempDir, i)
  {
    seq(n, i requires 0 <= i < n => AudioTemp(tempDir, i))
  }

  function ListPath(tempDir: string): string {
    PathJoin(tempDir, "video_list.txt")
  }

  function ConcatPath(tempDir: string): string {
    PathJoin(tempDir, "video_concat.mp4")
  }

  /** A name put in front of a number and an extension identifies the
      number. */
  lemma NumberedNameInjective(prefix: string, i: nat, j: nat, ext: string)
    requires prefix + Pad3(i) + ext == prefix + Pad3(j) + ext
    ensures i == j
  {
    var a, b := prefix + Pad3(i) + ext, prefix + Pad3(j) + ext;
    assert |Pad3(i)| == |Pad3(j)|;
    assert Pad3(i) == a[|prefix|..|prefix| + |Pad3(i)|];
    assert Pad3(j) == b[|prefix|..|prefix| + |Pad3(j)|];
    Pad3Injective(i, j);
  }

  /** Joining one folder with two relative names gives the same path only
      for the same name. */
  lemma PathJoinInjective(dir: string, a: string, b: string)
    requires |a| > 0 && a[0] != '/' && |b| > 0 && b[0] != '/'
    requires PathJoin(dir, a) == PathJoin(dir, b)
    ensures a == b
  {
    var p := PathJoin(dir, a);
    var k := |p| - |a|;
    assert p[k..] == a;
    assert PathJoin(dir, b)[k..] == b;
  }

  /** Different clips get different temporary files. */
  lemma TempNamesDistinct(tempDir: string, i: nat, j: nat)
    requires i != j
    ensures VideoTemp(tempDir, i) != VideoTemp(tempDir, j)
    ensures AudioTemp(tempDir, i) != AudioTemp(tempDir, j)
  {
    if VideoTemp(tempDir, i) == VideoTemp(tempDir, j) {
      PathJoinInjective(tempDir, "v_" + Pad3(i) + ".mp4", "v_" + Pad3(j) + ".mp4");
      NumberedNameInjective("v_", i, j, ".mp4");
    }
    if AudioTemp(tempDir, i) == AudioTemp(tempDir, j) {
      PathJoinInjective(tempDir, "a_" + Pad3(i) + ".mp3", "a_" + Pad3(j) + ".mp3");
      NumberedNameInjective("a_", i, j, ".mp3");
    }
  }

  // ---------------------------------------------------------------------
  // The concat list file

  /** The line written for one temporary file. */
  function ListLine(path: string): string {
    "file '" + path + "'"
  }

  function ListLines(files: seq<string>): (ls: seq<string>)
    ensures |ls| == |files| && forall i :: 0 <= i < |files| ==> ls[i] == ListLine(files[i])
  {
    seq(|files|, i requires 0 <= i < |files| => ListLine(files[i]))
  }

  /** What the loop over `tmp_video_files` writes: one line per file. */
  function ListText(files: seq<string>): string {
    Lines(ListLines(files))
  }

  /** Reading the list back yields one `file '<path>'` line per temporary
      file, in order, as long as no path holds a line break. */
  lemma ListTextLines(files: seq<string>)
    requires forall i :: 0 <= i < |files| ==> NoNewline(files[i])
    ensures SplitLines(ListText(files)) == ListLines(files)
  {
    var ls := ListLines(files);
    forall i | 0 <= i < |ls| ensures NoNewline(ls[i]) {
      assert ls[i] == "file '" + files[i] + "'";
    }
    SplitLinesOfLines(ls);
  }

  lemma {:induction false} PathJoinNoNewline(dir: string, name: string)
    requires NoNewline(dir) && NoNewline(name)
    ensures NoNewline(PathJoin(dir, name))
  {
  }

  lemma {:induction false} PadNoNewline(n: nat)
    ensures NoNewline(Pad3(n))
  {
    var s := Pad3(n);
    forall i | 0 <= i < |s| ensures s[i] != '\n' {
      assert IsDigit(s[i]);
    }
  }

  lemma {:induction false} ConcatNoNewline(a: string, b: string)
    requires NoNewline(a) && NoNewline(b)
    ensures NoNewline(a + b)
  {
    forall k | 0 <= k < |a + b| ensures (a + b)[k] != '\n' {
      if k >= |a| {
        assert (a + b)[k] == b[k - |a|];
      }
    }
  }

  /** In a workspace folder without line breaks, the video temporary files
      have none either. */
  lemma VideoTempsNoNewline(workspaceDir: string, n: nat)
    requires NoNewline(workspaceDir)
    ensures forall i :: 0 <= i < n ==> NoNewline(VideoTemps(TempDir(workspaceDir), n)[i])
  {
    var d := TempDir(workspaceDir);
    PathJoinNoNewline(workspaceDir, "export_tmp");
    forall i | 0 <= i < n ensures NoNewline(VideoTemp(d, i)) {
      PadNoNewline(i);
      ConcatNoNewline("v_", Pad3(i));
      ConcatNoNewline("v_" + Pad3(i), ".mp4");
      PathJoinNoNewline(d, "v_" + Pad3(i) + ".mp4");
    }
  }

  // ---------------------------------------------------------------------
  // Argument vectors

  /** Cutting [inPoint, outPoint] of a video file into `tmpOut` without
      re-encoding. */
  function VideoTrimArgv(c: Clip, mediaPath: string, tmpOut: string, fmt: real -> string): seq<string> {
    ["ffmpeg", "-y", "-ss", fmt(c.inPoint), "-i", mediaPath,
     "-to", fmt(c.outPoint - c.inPoint), "-c", "copy", tmpOut]
  }

  /** Cutting [inPoint, outPoint] of an audio file into `tmpOut` as VBR MP3. */
  function AudioTrimArgv(c: Clip, mediaPath: string, tmpOut: string, fmt: real -> string): seq<string> {
    ["ffmpeg", "-y", "-ss", fmt(c.inPoint), "-i", mediaPath,
     "-to", fmt(c.outPoint - c.inPoint), "-q:a", "0", tmpOut]
  }

  function ConcatArgv(listPath: string, concatPath: string): seq<string> {
    ["ffmpeg", "-y", "-f", "concat", "-safe", "0", "-i", listPath,
     "-c", "copy", concatPath]
  }

  /** The final encode when there is no audio track. */
  function FinalArgv(concatPath: string, outputPath: string): seq<string> {
    ["ffmpeg", "-y", "-i", concatPath, "-c:v", "libx264", "-c:a", "aac",
     "-preset", "fast", outputPath]
  }

  /** `input_cmds`: "-i" and the file, for each audio file in turn. */
  function InputCmds(files: seq<string>): (r: seq<string>)
    ensures |r| == 2 * |files|
  {
    Flagged(files, "-i")
  }

  /** Each element preceded by the flag. */
  function Flagged<T>(xs: seq<T>, flag: T): (r: seq<T>)
    ensures |r| == 2 * |xs|
  {
    if xs == [] then []
    else Flagged(xs[..|xs| - 1], flag) + [flag, xs[|xs| - 1]]
  }

  function MixTail(filter: string, outputPath: string): seq<string> {
    ["-filter_complex", filter, "-map", "0:v", "-map", "[aout]",
     "-c:v", "libx264", "-c:a", "aac", "-preset", "fast", outputPath]
  }

  /** The final command with audio: the concatenated video is input 0, the
      audio files follow. */
  function MixArgv(concatPath: string, audioFiles: seq<string>, filter: string, outputPath: string): seq<string> {
    ["ffmpeg", "-y", "-i", concatPath] + InputCmds(audioFiles) + MixTail(filter, outputPath)
  }

  /** The files an argument vector hands to ffmpeg: each argument that
      follows a "-i", in order. The n-th of them is what `[n:a]` in a filter
      graph refers to. */
  function Inputs(argv: seq<string>): seq<string> {
    ArgsAfter(argv, "-i")
  }

  /** The arguments that follow an occurrence of `flag`, in order. */
  function ArgsAfter<T(==)>(argv: seq<T>, flag: T): seq<T> {
    if |argv| < 2 then []
    else ArgsAfter(argv[..|argv| - 1], flag) + (if argv[|argv| - 2] == flag then [argv[|argv| - 1]] else [])
  }

  /** The argument found across the seam of a concatenation. */
  function Seam<T(==)>(a: seq<T>, b: seq<T>, flag: T): seq<T> {
    if |a| >= 1 && |b| >= 1 && a[|a| - 1] == flag then [b[0]] else []
  }

  lemma AfterSnoc<T>(s: seq<T>, flag: T)
    requires |s| >= 2
    ensures ArgsAfter(s, flag) == ArgsAfter(s[..|s| - 1], flag) + (if s[|s| - 2] == flag then [s[|s| - 1]] else [])
  {
  }

  lemma {:induction false} AfterAppend<T>(a: seq<T>, b: seq<T>, flag: T)
    ensures ArgsAfter(a + b, flag) == ArgsAfter(a, flag) + Seam(a, b, flag) + ArgsAfter(b, flag)
    decreases |b|
  {
    var ab := a + b;
    if b == [] {
      assert ab == a;
    } else if |b| == 1 {
      if |a| >= 1 {
        assert ab[..|ab| - 1] == a;
        AfterSnoc(ab, flag);
      } else {
        assert ab == b;
      }
    } else {
      var n := |b|;
      var front := b[..n - 1];
      assert ab[..|ab| - 1] == a + front;
      assert ab[|ab| - 2] == b[n - 2] && ab[|ab| - 1] == b[n - 1];
      AfterAppend(a, front, flag);
      AfterSnoc(ab, flag);
      AfterSnoc(b, flag);
      assert Seam(a, front, flag) == Seam(a, b, flag);
    }
  }

  /** Flagging every element and reading the flagged arguments back gives
      the elements, as long as none of them is the flag itself. */
  lemma {:induction false} AfterFlagged<T>(xs: seq<T>, flag: T)
    requires forall i :: 0 <= i < |xs| ==> xs[i] != flag
    ensures ArgsAfter(Flagged(xs, flag), flag) == xs
  {
    if xs != [] {
      var n := |xs|;
      var front := xs[..n - 1];
      AfterFlagged(front, flag);
      var pair := [flag, xs[n - 1]];
      AfterAppend(Flagged(front, flag), pair, flag);
      if n >= 2 {
        var ic := Flagged(front, flag);
        assert ic[|ic| - 1] == xs[n - 2] by {
          assert ic == Flagged(front[..n - 2], flag) + [flag, front[n - 2]];
        }
      }
      assert pair[..1] == [flag];
      AfterSnoc(pair, flag);
      assert front + [xs[n - 1]] == xs;
    }
  }

  /** `input_cmds` hands ffmpeg exactly the audio files, in order. */
  lemma InputsOfInputCmds(files: seq<string>)
    requires forall i :: 0 <= i < |files| ==> files[i] != "-i"
    ensures Inputs(InputCmds(files)) == files
  {
    AfterFlagged(files, "-i");
  }

  /** No flagged argument in a vector where only the last element may be
      the flag. */
  lemma {:induction false} NoneAfter<T>(argv: seq<T>, flag: T)
    requires forall i :: 0 <= i < |argv| - 1 ==> argv[i] != flag
    ensures ArgsAfter(argv, flag) == []
  {
    if |argv| >= 2 {
      NoneAfter(argv[..|argv| - 1], flag);
    }
  }

  lemma {:induction false} AfterOfHead<T>(a: T, b: T, flag: T, x: T)
    requires a != flag && b != flag
    ensures ArgsAfter([a, b, flag, x], flag) == [x]
  {
    var h := [a, b, flag, x];
    AfterSnoc(h, flag);
    assert h[..3] == [a, b, flag];
    NoneAfter(h[..3], flag);
  }

  lemma HeadInputs(concatPath: string)
    ensures Inputs(["ffmpeg", "-y", "-i", concatPath]) == [concatPath]
  {
    assert "-y" != "-i" by {
      assert "-y"[1] != "-i"[1];
    }
    assert "ffmpeg" != "-i" by {
      assert |"ffmpeg"| != |"-i"|;
    }
    AfterOfHead("ffmpeg", "-y", "-i", concatPath);
  }

  lemma MixTailInputs(filter: string, outputPath: string)
    requires filter != "-i"
    ensures Inputs(MixTail(filter, outputPath)) == []
  {
    NoneAfter(MixTail(filter, outputPath), "-i");
  }

  /** The final command reads the concatenated video first and then the audio
      files in order. */
  lemma MixInputs(concatPath: string, audioFiles: seq<string>, filter: string, outputPath: string)
    requires concatPath != "-i" && filter != "-i"
    requires |audioFiles| > 0 && forall i :: 0 <= i < |audioFiles| ==> audioFiles[i] != "-i"
    ensures Inputs(MixArgv(concatPath, audioFiles, filter, outputPath)) == [concatPath] + audioFiles
  {
    var h := ["ffmpeg", "-y", "-i", concatPath];
    var ic := InputCmds(audioFiles);
    var t := MixTail(filter, outputPath);
    FlaggedLast(audioFiles, "-i");
    AfterOfThree(h, ic, t, "-i");
    HeadInputs(concatPath);
    InputsOfInputCmds(audioFiles);
    MixTailInputs(filter, outputPath);
  }

  /** The flagged arguments of three pieces, when neither seam ends in the
      flag. */
  lemma AfterOfThree<T>(h: seq<T>, m: seq<T>, t: seq<T>, flag: T)
    requires |h| > 0 && h[|h| - 1] != flag && |m| > 0 && m[|m| - 1] != flag
    ensures ArgsAfter(h + m + t, flag) == ArgsAfter(h, flag) + ArgsAfter(m, flag) + ArgsAfter(t, flag)
  {
    var hm := h + m;
    assert ArgsAfter(hm, flag) == ArgsAfter(h, flag) + ArgsAfter(m, flag) by {
      AfterAppend(h, m, flag);
      assert Seam(h, m, flag) == [];
    }
    assert ArgsAfter(hm + t, flag) == ArgsAfter(hm, flag) + ArgsAfter(t, flag) by {
      AfterAppend(hm, t, flag);
      assert hm[|hm| - 1] == m[|m| - 1];
      assert Seam(hm, t, flag) == [];
    }
  }

  lemma FlaggedLast<T>(xs: seq<T>, flag: T)
    requires |xs| > 0
    ensures Flagged(xs, flag)[2 * |xs| - 1] == xs[|xs| - 1]
  {
  }

  // ---------------------------------------------------------------------
  // The filter graph

  /** Python's `int()` on a float: truncation toward zero. */
  function Trunc(r: real): (i: int)
    ensures r >= 0.0 ==> i == r.Floor
    ensures r >= 0.0 ==> i as real <= r < i as real + 1.0
    ensures r < 0.0 ==> i as real - 1.0 < r <= i as real
  {
    if r >= 0.0 then r.Floor else -((-r).Floor)
  }

  /** `delay_ms = int(start * 1000)`. */
  function DelayMs(start: real): int {
    Trunc(start * 1000.0)
  }

  /** `[{idx}:a]adelay={d}|{d}[a{idx}];`: delay stream idx's audio by d ms on
      both channels and call the result a{idx}. */
  function Segment(idx: nat, delayMs: int): string {
    StreamLabel(idx) + DelayTo(idx, delayMs)
  }

  /** `[{n}:a]`: the audio stream of input n. */
  function StreamLabel(n: nat): string {
    "[" + Decimal(n) + ":a]"
  }

  /** `adelay={d}|{d}[a{idx}];`, the part of a segment after its input label. */
  function DelayTo(idx: nat, delayMs: int): string {
    "adelay=" + IntDecimal(delayMs) + "|" + IntDecimal(delayMs) + "[a" + Decimal(idx) + "];"
  }

  /** `[a0][a1]...[a{n-1}]`. */
  function MixLabels(n: nat): string {
    if n == 0 then "" else MixLabels(n - 1) + "[a" + Decimal(n - 1) + "]"
  }

  /** The last piece: mix the n delayed streams, as long as the longest. */
  function MixPart(n: nat): string {
    MixLabels(n) + "amix=inputs=" + Decimal(n) + ":duration=longest[aout]"
  }

  /** `filter_parts` for audio clips starting at the given times. */
  function FilterParts(starts: seq<real>): (parts: seq<string>)
    ensures |parts| == |starts| + 1
    ensures forall i :: 0 <= i < |starts| ==> parts[i] == Segment(i, DelayMs(starts[i]))
    ensures parts[|starts|] == MixPart(|starts|)
  {
    Segments(starts) + [MixPart(|starts|)]
  }

  /** The delay segment of each audio stream in turn. */
  function Segments(starts: seq<real>): (segs: seq<string>)
    ensures |segs| == |starts|
    ensures forall i :: 0 <= i < |starts| ==> segs[i] == Segment(i, DelayMs(starts[i]))
  {
    seq(|starts|, i requires 0 <= i < |starts| => Segment(i, DelayMs(starts[i])))
  }

  /** `''.join(parts)`. */
  function Join(parts: seq<string>): string {
    if parts == [] then "" else Join(parts[..|parts| - 1]) + parts[|parts| - 1]
  }

  function FilterComplex(starts: seq<real>): string {
    Join(FilterParts(starts))
  }

  /** The filter graph ends in the mix piece, so it is never a bare "-i". */
  lemma FilterEndsWithMix(starts: seq<real>)
    ensures EndsWith(FilterComplex(starts), MixPart(|starts|))
    ensures FilterComplex(starts) != "-i"
  {
    var parts := FilterParts(starts);
    assert parts[..|parts| - 1] + [parts[|parts| - 1]] == parts;
  }

  /** For each audio clip the graph delays one stream by the clip's start in
      whole milliseconds (rounded down for the start times a drop produces),
      and the mix names as many inputs as there are audio clips. */
  lemma FilterDelays(starts: seq<real>)
    ensures var parts := FilterParts(starts);
      && (forall i :: 0 <= i < |starts| && starts[i] >= 0.0 ==>
            parts[i] == Segment(i, (starts[i] * 1000.0).Floor)
            && (starts[i] * 1000.0).Floor >= 0)
      && DigitsValue(Decimal(|starts|)) == |starts|
      && parts[|starts|] == MixLabels(|starts|) + "amix=inputs=" + Decimal(|starts|) + ":duration=longest[aout]"
  {
  }

  /** The stream labels of the segments run from 0 to n-1 while input 0 of
      the final command is the concatenated video: segment i delays input i,
      which is the video for i = 0 and audio file i-1 otherwise, so the
      first segment delays the video's own audio, and no segment carries
      the label `[na:a]` of the last audio file, which is read but never
      used. */
  lemma LabelsAreShiftedByOne(concatPath: string, audioFiles: seq<string>, starts: seq<real>, outputPath: string)
    requires concatPath != "-i"
    requires |audioFiles| == |starts| > 0 && forall i :: 0 <= i < |audioFiles| ==> audioFiles[i] != "-i"
    ensures var ins := Inputs(MixArgv(concatPath, audioFiles, FilterComplex(starts), outputPath));
      && |ins| == |starts| + 1
      && ins[0] == concatPath
      && (forall i :: 1 <= i < |starts| ==> ins[i] == audioFiles[i - 1])
      && ins[|starts|] == audioFiles[|starts| - 1]
      && (forall i :: 0 <= i < |starts| ==>
            FilterParts(starts)[i][..|StreamLabel(i)|] == StreamLabel(i))
      && (forall i :: 0 <= i < |starts| ==> StreamLabel(i) != StreamLabel(|starts|))
  {
    FilterEndsWithMix(starts);
    MixInputs(concatPath, audioFiles, FilterComplex(starts), outputPath);
    forall i | 0 <= i < |starts|
      ensures FilterParts(starts)[i][..|StreamLabel(i)|] == StreamLabel(i)
      ensures StreamLabel(i) != StreamLabel(|starts|)
    {
      PrefixOfAppend(StreamLabel(i), DelayTo(i, DelayMs(starts[i])));
      LabelsDiffer(i, |starts|);
    }
  }

  lemma PrefixOfAppend<T>(a: seq<T>, b: seq<T>)
    ensures (a + b)[..|a|] == a
  {
  }

  /** Two different stream numbers give two different stream labels. */
  lemma LabelsDiffer(i: nat, j: nat)
    requires i != j
    ensures StreamLabel(i) != StreamLabel(j)
  {
    var a, b := StreamLabel(i), StreamLabel(j);
    assert a[1..|a| - 3] == Decimal(i);
    assert b[1..|b| - 3] == Decimal(j);
  }

  // ---------------------------------------------------------------------
  // The plan

  /** How many leading clips have their media in the table; the clip after
      them, if any, does not. */
  function FirstMissing(clips: seq<Clip>, media: map<string, MediaItem>): (k: nat)
    ensures k <= |clips|
    ensures forall i :: 0 <= i < k ==> clips[i].mediaId in media
    ensures k < |clips| ==> clips[k].mediaId !in media
  {
    if clips == [] || clips[0].mediaId !in media then 0
    else 1 + FirstMissing(clips[1..], media)
  }

  function VideoTrims(clips: seq<Clip>, media: map<string, MediaItem>, tempDir: string, fmt: real -> string, k: nat): (r: seq<seq<string>>)
    requires k <= FirstMissing(clips, media)
    ensures |r| == k
    ensures forall i :: 0 <= i < k ==> r[i] == VideoTrimArgv(clips[i], media[clips[i].mediaId].path, VideoTemp(tempDir, i), fmt)
  {
    seq(k, i requires 0 <= i < k => VideoTrimArgv(clips[i], media[clips[i].mediaId].path, VideoTemp(tempDir, i), fmt))
  }

  function AudioTrims(clips: seq<Clip>, media: map<string, MediaItem>, tempDir: string, fmt: real -> string, k: nat): (r: seq<seq<string>>)
    requires k <= FirstMissing(clips, media)
    ensures |r| == k
    ensures forall i :: 0 <= i < k ==> r[i] == AudioTrimArgv(clips[i], media[clips[i].mediaId].path, AudioTemp(tempDir, i), fmt)
  {
    seq(k, i requires 0 <= i < k => AudioTrimArgv(clips[i], media[clips[i].mediaId].path, AudioTemp(tempDir, i), fmt))
  }

  /** A sequence that agrees with b and then has x is b + [x]. */
  lemma SnocOf<T>(a: seq<T>, b: seq<T>, x: T)
    requires |a| == |b| + 1 && a[|b|] == x
    requires forall i :: 0 <= i < |b| ==> a[i] == b[i]
    ensures a == b + [x]
  {
  }

  /** One more known clip adds its trim command at the end. */
  lemma VideoTrimsSnoc(clips: seq<Clip>, media: map<string, MediaItem>, tempDir: string, fmt: real -> string, k: nat)
    requires k < FirstMissing(clips, media)
    ensures VideoTrims(clips, media, tempDir, fmt, k + 1)
         == VideoTrims(clips, media, tempDir, fmt, k) + [VideoTrimArgv(clips[k], media[clips[k].mediaId].path, VideoTemp(tempDir, k), fmt)]
  {
    SnocOf(VideoTrims(clips, media, tempDir, fmt, k + 1), VideoTrims(clips, media, tempDir, fmt, k),
           VideoTrimArgv(clips[k], media[clips[k].mediaId].path, VideoTemp(tempDir, k), fmt));
  }

  lemma AudioTrimsSnoc(clips: seq<Clip>, media: map<string, MediaItem>, tempDir: string, fmt: real -> string, k: nat)
    requires k < FirstMissing(clips, media)
    ensures AudioTrims(clips, media, tempDir, fmt, k + 1)
         == AudioTrims(clips, media, tempDir, fmt, k) + [AudioTrimArgv(clips[k], media[clips[k].mediaId].path, AudioTemp(tempDir, k), fmt)]
  {
    SnocOf(AudioTrims(clips, media, tempDir, fmt, k + 1), AudioTrims(clips, media, tempDir, fmt, k),
           AudioTrimArgv(clips[k], media[clips[k].mediaId].path, AudioTemp(tempDir, k), fmt));
  }

  lemma TempsSnoc(tempDir: string, k: nat)
    ensures VideoTemps(tempDir, k + 1) == VideoTemps(tempDir, k) + [VideoTemp(tempDir, k)]
    ensures AudioTemps(tempDir, k + 1) == AudioTemps(tempDir, k) + [AudioTemp(tempDir, k)]
  {
    SnocOf(VideoTemps(tempDir, k + 1), VideoTemps(tempDir, k), VideoTemp(tempDir, k));
    SnocOf(AudioTemps(tempDir, k + 1), AudioTemps(tempDir, k), AudioTemp(tempDir, k));
  }

  function Starts(clips: seq<Clip>): (r: seq<real>)
    ensures |r| == |clips| && forall i :: 0 <= i < |clips| ==> r[i] == clips[i].startTime
  {
    seq(|clips|, i requires 0 <= i < |clips| => clips[i].startTime)
  }

  lemma StartsSnoc(clips: seq<Clip>, k: nat)
    requires k < |clips|
    ensures Starts(clips[..k + 1]) == Starts(clips[..k]) + [clips[k].startTime]
  {
    SnocOf(Starts(clips[..k + 1]), Starts(clips[..k]), clips[k].startTime);
  }

  /** What an export does: either every command it runs and the list file
      it writes before the concat step, or the id whose lookup raised
      `KeyError` and the commands that had already run. */
  datatype Outcome =
    | Compiled(commands: seq<seq<string>>, listPath: string, listText: string)
    | MissingMedia(mediaId: string, ran: seq<seq<string>>)

  function Plan(s: ProjectState, outputPath: string, fmt: real -> string): Outcome {
    var tempDir := TempDir(s.workspaceDir);
    var media := s.media.items;
    var kv := FirstMissing(s.videoClips, media);
    var ka := FirstMissing(s.audioClips, media);
    if kv < |s.videoClips| then
      MissingMedia(s.videoClips[kv].mediaId, VideoTrims(s.videoClips, media, tempDir, fmt, kv))
    else if ka < |s.audioClips| then
      MissingMedia(s.audioClips[ka].mediaId, VideoPart(s, fmt) + [ConcatStep(s)] + AudioTrims(s.audioClips, media, tempDir, fmt, ka))
    else
      Compiled(Commands(s, outputPath, fmt), ListPath(tempDir), ListText(VideoTemps(tempDir, |s.videoClips|)))
  }

  predicate AllMediaKnown(clips: seq<Clip>, media: map<string, MediaItem>) {
    forall i :: 0 <= i < |clips| ==> clips[i].mediaId in media
  }

  /** The export raises exactly when some clip on either track refers to a
      media id the project does not hold; the id it names is the first such
      clip's on the video track, or else on the audio track, and every trim
      before that clip has already run: the video trims before it, or all the
      video trims, the concat step and the audio trims before it. */
  lemma PlanFailsOnMissingMedia(s: ProjectState, outputPath: string, fmt: real -> string)
    ensures var r := Plan(s, outputPath, fmt);
      && (r.MissingMedia? <==> !AllMediaKnown(s.videoClips, s.media.items) || !AllMediaKnown(s.audioClips, s.media.items))
      && (!AllMediaKnown(s.videoClips, s.media.items) ==>
            var k := FirstMissing(s.videoClips, s.media.items);
            && r.mediaId == s.videoClips[k].mediaId
            && r.ran == VideoTrims(s.videoClips, s.media.items, TempDir(s.workspaceDir), fmt, k)
            && |r.ran| == k)
      && (AllMediaKnown(s.videoClips, s.media.items) && !AllMediaKnown(s.audioClips, s.media.items) ==>
            var k := FirstMissing(s.audioClips, s.media.items);
            && r.mediaId == s.audioClips[k].mediaId
            && r.ran == VideoPart(s, fmt) + [ConcatStep(s)] + AudioTrims(s.audioClips, s.media.items, TempDir(s.workspaceDir), fmt, k)
            && |r.ran| == |s.videoClips| + 1 + k)
  {
  }

  /** The commands an export with all media known runs: the video trims,
      the concat step, the audio trims (none without audio) and the last
      command. */
  function Commands(s: ProjectState, outputPath: string, fmt: real -> string): seq<seq<string>>
    requires AllMediaKnown(s.videoClips, s.media.items) && AllMediaKnown(s.audioClips, s.media.items)
  {
    VideoPart(s, fmt) + [ConcatStep(s)] + AudioPart(s, fmt) + [LastStep(s, outputPath)]
  }

  function VideoPart(s: ProjectState, fmt: real -> string): (r: seq<seq<string>>)
    requires AllMediaKnown(s.videoClips, s.media.items)
    ensures |r| == |s.videoClips|
    ensures forall i :: 0 <= i < |s.videoClips| ==>
      r[i] == VideoTrimArgv(s.videoClips[i], s.media.items[s.videoClips[i].mediaId].path, VideoTemp(TempDir(s.workspaceDir), i), fmt)
  {
    VideoTrims(s.videoClips, s.media.items, TempDir(s.workspaceDir), fmt, |s.videoClips|)
  }

  function ConcatStep(s: ProjectState): seq<string> {
    var tempDir := TempDir(s.workspaceDir);
    ConcatArgv(ListPath(tempDir), ConcatPath(tempDir))
  }

  function AudioPart(s: ProjectState, fmt: real -> string): (r: seq<seq<string>>)
    requires AllMediaKnown(s.audioClips, s.media.items)
    ensures |r| == |s.audioClips|
    ensures forall i :: 0 <= i < |s.audioClips| ==>
      r[i] == AudioTrimArgv(s.audioClips[i], s.media.items[s.audioClips[i].mediaId].path, AudioTemp(TempDir(s.workspaceDir), i), fmt)
  {
    if s.audioClips == [] then []
    else AudioTrims(s.audioClips, s.media.items, TempDir(s.workspaceDir), fmt, |s.audioClips|)
  }

  function LastStep(s: ProjectState, outputPath: string): (argv: seq<string>)
    ensures |argv| > 0 && argv[|argv| - 1] == outputPath
  {
    var tempDir := TempDir(s.workspaceDir);
    var na := |s.audioClips|;
    if na == 0 then FinalArgv(ConcatPath(tempDir), outputPath)
    else MixArgv(ConcatPath(tempDir), AudioTemps(tempDir, na), FilterComplex(Starts(s.audioClips)), outputPath)
  }

  /** With every clip's media known the export goes through: the video
      trims, the concat step, then the final encode or the audio trims and the
      mix; the list file is `video_list.txt` in the temporary folder and
      lists the video temporary files. */
  lemma PlanCompiles(s: ProjectState, outputPath: string, fmt: real -> string)
    requires AllMediaKnown(s.videoClips, s.media.items) && AllMediaKnown(s.audioClips, s.media.items)
    ensures Plan(s, outputPath, fmt)
         == Compiled(Commands(s, outputPath, fmt), ListPath(TempDir(s.workspaceDir)), ListText(VideoTemps(TempDir(s.workspaceDir), |s.videoClips|)))
  {
  }

  /** The plan's shape: nv + 2 commands without audio and nv + na + 2 with,
      the concat step right after the video trims and the last command
      writing the output path. */
  lemma PlanShape(s: ProjectState, outputPath: string, fmt: real -> string)
    requires AllMediaKnown(s.videoClips, s.media.items) && AllMediaKnown(s.audioClips, s.media.items)
    ensures var cs := Commands(s, outputPath, fmt);
      var tempDir := TempDir(s.workspaceDir);
      var nv, na := |s.videoClips|, |s.audioClips|;
      && |cs| == (if na == 0 then nv + 2 else nv + na + 2)
      && cs[nv] == ConcatArgv(ListPath(tempDir), ConcatPath(tempDir))
      && cs[|cs| - 1][|cs[|cs| - 1]| - 1] == outputPath
  {
    var vt, at := VideoPart(s, fmt), AudioPart(s, fmt);
    assert Commands(s, outputPath, fmt) == vt + [ConcatStep(s)] + at + [LastStep(s, outputPath)];
    CommandsLayout(vt, ConcatStep(s), at, LastStep(s, outputPath));
  }

  /** The i-th video trim is the i-th video clip (list order, not re-sorted)
      cut into `v_{i:03d}.mp4`, and the audio trims follow the concat step in
      order, the i-th into `a_{i:03d}.mp3`. */
  lemma PlanTrims(s: ProjectState, outputPath: string, fmt: real -> string)
    requires AllMediaKnown(s.videoClips, s.media.items) && AllMediaKnown(s.audioClips, s.media.items)
    ensures var cs := Commands(s, outputPath, fmt);
      var tempDir := TempDir(s.workspaceDir);
      var media := s.media.items;
      var nv := |s.videoClips|;
      && |cs| >= nv + |s.audioClips| + 2
      && (forall i :: 0 <= i < nv ==>
            cs[i] == VideoTrimArgv(s.videoClips[i], media[s.videoClips[i].mediaId].path, VideoTemp(tempDir, i), fmt))
      && (forall i :: 0 <= i < |s.audioClips| ==>
            cs[nv + 1 + i] == AudioTrimArgv(s.audioClips[i], media[s.audioClips[i].mediaId].path, AudioTemp(tempDir, i), fmt))
  {
    var vt, at := VideoPart(s, fmt), AudioPart(s, fmt);
    assert Commands(s, outputPath, fmt) == vt + [ConcatStep(s)] + at + [LastStep(s, outputPath)];
    CommandsLayout(vt, ConcatStep(s), at, LastStep(s, outputPath));
  }

  /** Where each part of the command list sits. */
  lemma CommandsLayout<T>(vt: seq<T>, c: T, at: seq<T>, last: T)
    ensures var cs := vt + [c] + at + [last];
      && |cs| == |vt| + |at| + 2
      && (forall i :: 0 <= i < |vt| ==> cs[i] == vt[i])
      && cs[|vt|] == c
      && (forall i :: 0 <= i < |at| ==> cs[|vt| + 1 + i] == at[i])
      && cs[|cs| - 1] == last
  {
  }

  /** The list file names the video temporary files, one line each and in
      clip order, provided the workspace folder has no line break in it. */
  lemma PlanListFile(s: ProjectState, outputPath: string, fmt: real -> string)
    requires NoNewline(s.workspaceDir)
    requires Plan(s, outputPath, fmt).Compiled?
    ensures var r := Plan(s, outputPath, fmt);
      var files := VideoTemps(TempDir(s.workspaceDir), |s.videoClips|);
      && SplitLines(r.listText) == ListLines(files)
      && |SplitLines(r.listText)| == |s.videoClips|
  {
    var files := VideoTemps(TempDir(s.workspaceDir), |s.videoClips|);
    VideoTempsNoNewline(s.workspaceDir, |s.videoClips|);
    ListTextLines(files);
  }

  // ---------------------------------------------------------------------
  // The inputs of the plan's own last command

  /** No file the export names is a bare "-i": each ends in its own name. */
  lemma TempPathsAreNotFlags(tempDir: string, na: nat)
    ensures ConcatPath(tempDir) != "-i"
    ensures forall i :: 0 <= i < na ==> AudioTemps(tempDir, na)[i] != "-i"
  {
    assert |ConcatPath(tempDir)| >= |"video_concat.mp4"|;
    forall i | 0 <= i < na ensures AudioTemp(tempDir, i) != "-i" {
      var name := "a_" + Pad3(i) + ".mp3";
      assert name[0] == 'a' && |name| >= 9;
      assert |AudioTemp(tempDir, i)| >= |name|;
    }
  }

  /** Without audio the final encode reads only the concatenated video. */
  lemma PlanFinalInputs(s: ProjectState, outputPath: string)
    requires s.audioClips == []
    ensures Inputs(LastStep(s, outputPath)) == [ConcatPath(TempDir(s.workspaceDir))]
  {
    var cp := ConcatPath(TempDir(s.workspaceDir));
    TempPathsAreNotFlags(TempDir(s.workspaceDir), 0);
    var h := ["ffmpeg", "-y", "-i", cp];
    var rest := ["-c:v", "libx264", "-c:a", "aac", "-preset", "fast", outputPath];
    assert LastStep(s, outputPath) == h + rest;
    AfterAppend(h, rest, "-i");
    HeadInputs(cp);
    NoneAfter(rest, "-i");
  }

  /** With audio the mix command reads the concatenated video as input 0 and
      the audio temporary files as inputs 1 to na, while its segments are
      labelled `[0:a]` to `[na-1:a]`: segment 0 takes the video's own audio,
      and the last audio file is read but never labelled. */
  lemma PlanMixInputs(s: ProjectState, outputPath: string)
    requires |s.audioClips| > 0
    ensures var tempDir, na := TempDir(s.workspaceDir), |s.audioClips|;
      var ins := Inputs(LastStep(s, outputPath));
      && ins == [ConcatPath(tempDir)] + AudioTemps(tempDir, na)
      && ins[0] == ConcatPath(tempDir)
      && ins[na] == AudioTemp(tempDir, na - 1)
      && (forall i :: 0 <= i < na ==>
            FilterParts(Starts(s.audioClips))[i][..|StreamLabel(i)|] == StreamLabel(i))
  {
    var tempDir, na := TempDir(s.workspaceDir), |s.audioClips|;
    var starts := Starts(s.audioClips);
    TempPathsAreNotFlags(tempDir, na);
    FilterEndsWithMix(starts);
    MixInputs(ConcatPath(tempDir), AudioTemps(tempDir, na), FilterComplex(starts), outputPath);
    LabelsAreShiftedByOne(ConcatPath(tempDir), AudioTemps(tempDir, na), starts, outputPath);
  }

  // ---------------------------------------------------------------------
  // The stream numbering as evidently intended

  /** A segment that takes audio file idx, which is input idx + 1 of the mix
      command. */
  function IntendedSegment(idx: nat, delayMs: int): string {
    StreamLabel(idx + 1) + DelayTo(idx, delayMs)
  }

  function IntendedSegments(starts: seq<real>): (segs: seq<string>)
    ensures |segs| == |starts|
    ensures forall i :: 0 <= i < |starts| ==> segs[i] == IntendedSegment(i, DelayMs(starts[i]))
  {
    seq(|starts|, i requires 0 <= i < |starts| => IntendedSegment(i, DelayMs(starts[i])))
  }

  function IntendedFilterComplex(starts: seq<real>): string {
    Join(IntendedSegments(starts) + [MixPart(|starts|)])
  }

  /** With the intended numbering, segment i names stream i + 1, and input
      i + 1 of the mix command is audio file i: every segment delays one
      audio file, each file exactly once, and none delays the video. */
  lemma IntendedLabelsMatchInputs(concatPath: string, audioFiles: seq<string>, starts: seq<real>, outputPath: string)
    requires concatPath != "-i"
    requires |audioFiles| == |starts| > 0 && forall i :: 0 <= i < |audioFiles| ==> audioFiles[i] != "-i"
    ensures var ins := Inputs(MixArgv(concatPath, audioFiles, IntendedFilterComplex(starts), outputPath));
      && |ins| == |starts| + 1
      && ins[0] == concatPath
      && (forall i :: 0 <= i < |starts| ==>
            && IntendedSegments(starts)[i][..|StreamLabel(i + 1)|] == StreamLabel(i + 1)
            && DigitsValue(Decimal(i + 1)) == i + 1
            && ins[i + 1] == audioFiles[i])
  {
    var ins := Inputs(MixArgv(concatPath, audioFiles, IntendedFilterComplex(starts), outputPath));
    assert ins == [concatPath] + audioFiles by {
      var parts := IntendedSegments(starts) + [MixPart(|starts|)];
      assert parts[..|parts| - 1] + [parts[|parts| - 1]] == parts;
      assert EndsWith(IntendedFilterComplex(starts), MixPart(|starts|));
      MixInputs(concatPath, audioFiles, IntendedFilterComplex(starts), outputPath);
    }
    forall i | 0 <= i < |starts|
      ensures IntendedSegments(starts)[i][..|StreamLabel(i + 1)|] == StreamLabel(i + 1)
    {
      PrefixOfAppend(StreamLabel(i + 1), DelayTo(i, DelayMs(starts[i])));
    }
  }
}
