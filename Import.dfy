/** Importing a file into the media library (`MediaLibraryWidget.import_media`):
    the file must exist, its name must match one of the twelve `*.ext`
    patterns, and the item's kind follows from the lower-cased extension. */
module Import {
  import opened Records
  import opened Strings
  import opened Projects

  /** `self._file_filters`, in the order the widget lists them. */
  const FileFilters: seq<string> :=
    ["*.mp4", "*.avi", "*.mkv", "*.mov", "*.wmv", "*.flv",
     "*.mp3", "*.wav", "*.png", "*.jpg", "*.jpeg", "*.bmp"]

  /** The text after the last '/' of s, from index `from` on. */
  function LastSlashAfter(s: string, from: nat): (k: nat)
    requires from <= |s|
    ensures from <= k <= |s|
    ensures k > from ==> s[k - 1] == '/'
    ensures forall i :: k <= i < |s| ==> s[i] != '/'
    decreases |s| - from
  {
    if from == |s| then from
    else
      var k := LastSlashAfter(s, from + 1);
      if k > from + 1 then k
      else if s[from] == '/' then from + 1 else from
  }

  /** `Path(path).name`: the last component of an absolute path. */
  function Name(path: string): (n: string)
    ensures EndsWith(path, n)
    ensures forall i :: 0 <= i < |n| ==> n[i] != '/'
    ensures |n| < |path| ==> path[|path| - |n| - 1] == '/'
  {
    path[LastSlashAfter(path, 0)..]
  }

  /** The index of the last '.' in s, or |s| if there is none. */
  function LastDot(s: string): (k: nat)
    ensures k <= |s|
    ensures k < |s| ==> s[k] == '.' && forall i :: k < i < |s| ==> s[i] != '.'
    ensures k == |s| ==> forall i :: 0 <= i < |s| ==> s[i] != '.'
  {
    if s == [] then 0
    else if s[|s| - 1] == '.' then |s| - 1
    else
      var k := LastDot(s[..|s| - 1]);
      if k == |s| - 1 then |s| else k
  }

  /** `PurePath.suffix` of a name: from its last dot, but only when that dot
      is neither the first nor the last character of the name. */
  function NameSuffix(n: string): (e: string)
    ensures e == [] || (e[0] == '.' && EndsWith(n, e) && |e| >= 2 && |e| < |n|)
    ensures e != [] ==> |n| - |e| == LastDot(n) && forall i :: 1 <= i < |e| ==> e[i] != '.'
    ensures e == [] <==> !(0 < LastDot(n) < |n| - 1)
  {
    var i := LastDot(n);
    if 0 < i < |n| - 1 then n[i..] else []
  }

  /** `Path(path).suffix`. */
  function Suffix(path: string): string {
    NameSuffix(Name(path))
  }

  function LowerChar(c: char): (d: char)
    ensures 'A' <= c <= 'Z' ==> 'a' <= d <= 'z' && d as int == c as int + 32
    ensures !('A' <= c <= 'Z') ==> d == c
  {
    if 'A' <= c <= 'Z' then (c as int - 'A' as int + 'a' as int) as char else c
  }

  /** `str.lower()` on ASCII letters. */
  function Lower(s: string): (r: string)
    ensures |r| == |s|
    ensures forall i :: 0 <= i < |s| ==> r[i] == LowerChar(s[i])
  {
    seq(|s|, i requires 0 <= i < |s| => LowerChar(s[i]))
  }

  /** `Path(path).match("*" + ext)` for a one-component pattern: the name ends
      in the pattern's literal part, letter case counting. */
  predicate Matches(path: string, pattern: string)
    requires |pattern| >= 1
  {
    EndsWith(Name(path), pattern[1..])
  }

  /** Some pattern of the filter list matches. */
  predicate Accepted(path: string) {
    exists k :: 0 <= k < |FileFilters| && Matches(path, FileFilters[k])
  }

  /** The type rule: audio and image extensions, and "video" for the rest. */
  function MediaTypeFor(ext: string): string {
    if ext in {".mp3", ".wav"} then "audio"
    else if ext in {".png", ".jpg", ".jpeg", ".bmp"} then "image"
    else "video"
  }

  datatype ImportOutcome =
    | NotAFile
    | Unsupported(ext: string)
    | Imported(item: MediaItem)

  /** `import_media` on an absolute path: nothing for a missing file, a
      warning naming the lower-cased extension for a name no pattern matches,
      and otherwise the new item, with the thumbnail the thumbnail folder
      produced and a fresh id. */
  function ImportResult(path: string, isFile: bool, thumbnail: string, newId: string): (r: ImportOutcome)
    ensures r.Imported? <==> isFile && Accepted(path)
    ensures !isFile ==> r == NotAFile
    ensures isFile && !Accepted(path) ==> r == Unsupported(Lower(Suffix(path)))
    ensures r.Imported? ==> r.item == MediaItem(path, MediaTypeFor(Lower(Suffix(path))), thumbnail, newId)
  {
    if !isFile then NotAFile
    else if !Accepted(path) then Unsupported(Lower(Suffix(path)))
    else Imported(MediaItem(path, MediaTypeFor(Lower(Suffix(path))), thumbnail, newId))
  }

  /** The project after an import: one more entry, stored under the new
      item's id, or no change at all. */
  function AfterImport(s: ProjectState, r: ImportOutcome): ProjectState {
    if r.Imported? then s.(media := s.media.Put(r.item)) else s
  }

  /** A rejected file adds nothing; an accepted one adds exactly its item
      under its id and touches nothing else. */
  lemma ImportEffect(s: ProjectState, path: string, isFile: bool, thumbnail: string, newId: string)
    requires s.media.Valid()
    ensures var r := ImportResult(path, isFile, thumbnail, newId);
      var t := AfterImport(s, r);
      && t.media.Valid()
      && t.videoClips == s.videoClips && t.audioClips == s.audioClips
      && t.workspaceDir == s.workspaceDir && t.exportDir == s.exportDir
      && (!r.Imported? ==> t == s)
      && (r.Imported? ==> t.media.items == s.media.items[newId := r.item]
                          && t.media.items.Keys == s.media.items.Keys + {newId}
                          && (newId !in s.media.items ==> t.media.order == s.media.order + [newId]))
  {
  }

  /** A name that ends in an extension and has something before it has that
      extension as its suffix. */
  lemma {:induction false} SuffixOfExtension(n: string, ext: string)
    requires |ext| >= 2 && ext[0] == '.'
    requires forall i :: 1 <= i < |ext| ==> ext[i] != '.'
    requires EndsWith(n, ext) && |n| > |ext|
    ensures NameSuffix(n) == ext
  {
    var d := |n| - |ext|;
    assert n[d..] == ext;
    forall i | d < i < |n| ensures n[i] != '.' {
      assert n[i] == n[d..][i - d];
    }
    LastDotIs(n, d);
  }

  lemma LastDotIs(s: string, d: nat)
    requires d < |s| && s[d] == '.'
    requires forall i :: d < i < |s| ==> s[i] != '.'
    ensures LastDot(s) == d
  {
  }

  /** Each pattern's literal part is a dot followed by at least two
      characters, none of them a dot or a slash. */
  lemma FilterShape(k: nat)
    requires k < |FileFilters|
    ensures |FileFilters[k]| >= 1
    ensures var ext := FileFilters[k][1..];
      && |ext| >= 2 && ext[0] == '.'
      && (forall i :: 1 <= i < |ext| ==> ext[i] != '.' && ext[i] != '/')
  {
    var ext := FileFilters[k][1..];
    if k == 0 { assert ext == ".mp4"; }
    else if k == 1 { assert ext == ".avi"; }
    else if k == 2 { assert ext == ".mkv"; }
    else if k == 3 { assert ext == ".mov"; }
    else if k == 4 { assert ext == ".wmv"; }
    else if k == 5 { assert ext == ".flv"; }
    else if k == 6 { assert ext == ".mp3"; }
    else if k == 7 { assert ext == ".wav"; }
    else if k == 8 { assert ext == ".png"; }
    else if k == 9 { assert ext == ".jpg"; }
    else if k == 10 { assert ext == ".jpeg"; }
    else { assert ext == ".bmp"; }
  }

  /** Each pattern's literal part is already lower case, and the type rule
      gives it the kind its place in the list says. */
  lemma FilterType(k: nat)
    requires k < |FileFilters|
    ensures var ext := FileFilters[k][1..];
      && Lower(ext) == ext
      && MediaTypeFor(ext) == (if 6 <= k < 8 then "audio" else if 8 <= k then "image" else "video")
  {
    var ext := FileFilters[k][1..];
    if k == 0 { assert ext == ".mp4"; }
    else if k == 1 { assert ext == ".avi"; }
    else if k == 2 { assert ext == ".mkv"; }
    else if k == 3 { assert ext == ".mov"; }
    else if k == 4 { assert ext == ".wmv"; }
    else if k == 5 { assert ext == ".flv"; }
    else if k == 6 { assert ext == ".mp3"; }
    else if k == 7 { assert ext == ".wav"; }
    else if k == 8 { assert ext == ".png"; }
    else if k == 9 { assert ext == ".jpg"; }
    else if k == 10 { assert ext == ".jpeg"; }
    else { assert ext == ".bmp"; }
  }

  /** The accepted names that have something before the extension: the
      extension is the pattern's own, lower case already, so
      `.mp3`/`.wav` give "audio", `.png`/`.jpg`/`.jpeg`/`.bmp` give "image",
      and the other six give "video". */
  lemma Classification(path: string, k: nat)
    requires k < |FileFilters| && Matches(path, FileFilters[k])
    requires |Name(path)| > |FileFilters[k]| - 1
    ensures Accepted(path)
    ensures Suffix(path) == FileFilters[k][1..]
    ensures var t := MediaTypeFor(Lower(Suffix(path)));
      && (6 <= k < 8 ==> t == "audio")
      && (8 <= k ==> t == "image")
      && (k < 6 ==> t == "video")
  {
    FilterShape(k);
    FilterType(k);
    SuffixOfExtension(Name(path), FileFilters[k][1..]);
  }

  /** A path ending in a text without '/' has a name ending in it too. */
  lemma NameEndsWith(p: string, e: string)
    requires EndsWith(p, e)
    requires forall i :: 0 <= i < |e| ==> e[i] != '/'
    ensures EndsWith(Name(p), e)
  {
    var j := LastSlashAfter(p, 0);
    var d := |p| - |e|;
    assert Name(p)[|Name(p)| - |e|..] == p[d..];
  }

  /** Only ".mp4" among the literal parts ends in '4', after a lower-case 'p'. */
  lemma FilterEnding(k: nat)
    requires k < |FileFilters|
    ensures var ext := FileFilters[k][1..];
      |ext| >= 2 && (ext[|ext| - 1] == '4' ==> ext[|ext| - 2] == 'p')
  {
    var ext := FileFilters[k][1..];
    if k == 0 { assert ext == ".mp4"; }
    else if k == 1 { assert ext == ".avi"; }
    else if k == 2 { assert ext == ".mkv"; }
    else if k == 3 { assert ext == ".mov"; }
    else if k == 4 { assert ext == ".wmv"; }
    else if k == 5 { assert ext == ".flv"; }
    else if k == 6 { assert ext == ".mp3"; }
    else if k == 7 { assert ext == ".wav"; }
    else if k == 8 { assert ext == ".png"; }
    else if k == 9 { assert ext == ".jpg"; }
    else if k == 10 { assert ext == ".jpeg"; }
    else { assert ext == ".bmp"; }
  }

  lemma NoLiteralPartEndsInCapitalP4(n: string)
    requires |n| >= 2 && n[|n| - 1] == '4' && n[|n| - 2] == 'P'
    ensures forall k :: 0 <= k < |FileFilters| ==> !EndsWith(n, FileFilters[k][1..])
  {
    forall k | 0 <= k < |FileFilters| ensures !EndsWith(n, FileFilters[k][1..]) {
      FilterEnding(k);
    }
  }

  /** Matching is case-sensitive: a name ending in ".MP4" matches no pattern. */
  lemma UpperCaseRefused(p: string)
    requires EndsWith(p, ".MP4")
    ensures !Accepted(p)
  {
    NameEndsWith(p, ".MP4");
    var n := Name(p);
    assert n[|n| - 1] == '4' && n[|n| - 2] == 'P';
    NoLiteralPartEndsInCapitalP4(n);
  }

  /** The warning for such a file names the lower-cased extension. */
  lemma UpperCaseWarning(p: string)
    requires EndsWith(p, ".MP4") && |Name(p)| > 4
    ensures ImportResult(p, true, "", "") == Unsupported(".mp4")
  {
    UpperCaseRefused(p);
    NameEndsWith(p, ".MP4");
    UpperSuffix(Name(p));
  }

  lemma UpperSuffix(n: string)
    requires EndsWith(n, ".MP4") && |n| > 4
    ensures Lower(NameSuffix(n)) == ".mp4"
  {
    SuffixOfExtension(n, ".MP4");
    LowerOfMP4();
  }

  lemma LowerOfMP4()
    ensures Lower(".MP4") == ".mp4"
  {
  }

  lemma MatchesOwnName(p: string, pattern: string)
    requires |pattern| >= 1 && Name(p) == pattern[1..]
    ensures Matches(p, pattern)
  {
    assert Name(p)[0..] == Name(p);
  }

  /** An accepted file without a suffix is imported as "video". */
  lemma NoSuffixIsVideo(p: string, thumbnail: string, newId: string)
    requires Accepted(p) && Suffix(p) == []
    ensures ImportResult(p, true, thumbnail, newId) == Imported(MediaItem(p, "video", thumbnail, newId))
  {
  }

  /** A file named only by an extension ("/music/.mp3") matches that
      extension's pattern, but a leading dot is no suffix, so the file is
      imported as "video" whatever the extension. */
  lemma BareExtensionIsVideo(p: string, k: nat, thumbnail: string, newId: string)
    requires k < |FileFilters| && Name(p) == FileFilters[k][1..]
    ensures Accepted(p)
    ensures ImportResult(p, true, thumbnail, newId) == Imported(MediaItem(p, "video", thumbnail, newId))
  {
    FilterShape(k);
    MatchesOwnName(p, FileFilters[k]);
    LastDotIs(Name(p), 0);
    NoSuffixIsVideo(p, thumbnail, newId);
  }

  /** The media library: imports go into the project it was given. */
  class MediaLibrary {
    const project: Project

    constructor (project: Project)
      ensures this.project == project
    {
      this.project := project;
    }

    /** `import_media`: whatever the outcome, the project's clips and folders
        stay as they were; only an accepted file adds a media entry. */
    method ImportMedia(path: string, isFile: bool, thumbnail: string, newId: string) returns (r: ImportOutcome)
      requires project.Valid()
      modifies project
      ensures project.Valid()
      ensures r == ImportResult(path, isFile, thumbnail, newId)
      ensures project.State() == AfterImport(old(project.State()), r)
    {
      if !isFile {
        return NotAFile;
      }
      var ext := Lower(Suffix(path));
      if !Accepted(path) {
        return Unsupported(ext);
      }
      var item := MediaItem(path, MediaTypeFor(ext), thumbnail, newId);
      project.AddMedia(item);
      return Imported(item);
    }
  }
}
