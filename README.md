# Video editor core, modelled in Dafny

`video_editor.py` is a small PyQt5 video editor. Its window holds a media
library, a two-track timeline (video and audio) and an export command that
drives ffmpeg. Below the widgets is a plain data model, and this project
models and verifies that part:

- **Project data** (`Records`, `Projects`, `Sorting`, `JsonValues`). The
  `MediaItem` and `Clip` records and their dictionary forms. The `Project`
  object with its insertion-ordered `media` dictionary, two clip lists and
  two folders. `add_media`, and `add_clip` with its stable sort by start
  time. `to_dict` and `from_dict`, including what `from_dict` raises on
  malformed input.
- **Import** (`Import`). `MediaLibraryWidget.import_media` on one path: the
  existence test, the twelve case-sensitive `*.ext` patterns, and the rule
  that maps the lower-cased suffix to "audio", "image" or "video".
- **Timeline** (`Timeline`). `TimelineWidget.dropEvent` creates a
  full-length clip at the drop position, clamped to time 0, on the track
  the height selects. `mouseReleaseEvent` moves every drawn clip to the
  start its rectangle shows, clamped to 0.
- **Export** (`Export`, `Window`). `MainWindow._export_with_ffmpeg` turns a
  project into the ffmpeg argument vectors it runs, in order: one trim per
  video clip, the concat list file and the concat step, then either one
  final encode, or one trim per audio clip and an `adelay`/`amix` mix. A
  clip whose media id is unknown raises `KeyError` part-way; that is
  modelled as an outcome that names the id and lists the commands already
  run. `Plan` states the commands as a function. `MainWindow.ExportWithFfmpeg`
  runs the source's loops and is proved to produce exactly `Plan`.
- **Export and save commands** (`Window`). The guards of `export_project`:
  no ffprobe, no video clip, or a cancelled file dialog. The suffix that
  `export_project` and `save_project` add to the chosen name.

Inputs the model does not compute:
- the probed duration, the pixel scale and the scene positions of drops and
  clip rectangles;
- whether the path is a file, the thumbnail path and the new uuid;
- the user's home folder (for `~`);
- what `ffprobe_installed` reports and the name picked in a file dialog;
- Python's `str` on a float, an uninterpreted function `fmt`.

Python floats are `real`. `int()` on a float truncates toward zero
(`Export.Trunc`).

The export uses both clip lists in their stored order, without re-sorting
(video_editor.py:841, 896). Every video clip is cut by its own stream-copy
command, and every audio clip by its own command, before the mix.

A drag of a clip rectangle moves the item in Qt; what `mouseReleaseEvent`
reads is the rectangle's own x (video_editor.py:529). The model takes that
x as an input per clip, so it makes no claim that a drag changes a start
time.

## Model

| member | source | states |
|---|---|---|
| Records.MediaFromDict | video_editor.py:245-247 | succeeds exactly when the value is a dictionary holding the four string keys; the item's fields are those values; a non-dictionary and a missing "path" give their errors |
| Records.MediaToDict | video_editor.py:237-243 | writes exactly the keys id, path, media_type and thumbnail, and `from_dict` rebuilds an equal item |
| Records.ClipFromDict | video_editor.py:264-266 | succeeds exactly when "media_id" is a string and "in", "out", "start" are numbers; the clip's fields are those values; a non-dictionary and a missing "media_id" give their errors |
| Records.ClipToDict | video_editor.py:257-263 | writes exactly the keys media_id, in, out and start, and `from_dict` rebuilds an equal clip |
| Records.MediaTable.Put | video_editor.py:280-281 | `media[item.id] = item`: the item is stored under its id; a new id goes to the end of the key order and an existing one keeps its place; the table stays well formed |
| Records.EmptyTable | video_editor.py:272 | the empty dictionary is a well-formed table with no items |
| Records.TableOfValues | video_editor.py:293-309 | putting a table's values back in order rebuilds the same keys, items and order |
| Records.TableOfContents | video_editor.py:307-309 | for any list of items stored one after another under their ids: the keys are exactly the ids in the list; an item that no later item shares its id with is the one stored under it, so a repeated id keeps its last value; the key order holds each id once, ordered by where the id first occurs |
| Records.TableDistinctItems | video_editor.py:307-309 | when the ids are all different, every item is stored under its own id |
| Records.TableDistinctOrder | video_editor.py:307-309 | when the ids are all different, the key order is the list's id order |
| JsonValues.GetString | video_editor.py:247 | `d[key]` succeeds exactly when the key holds a string; a missing key raises `KeyError` |
| JsonValues.GetNumber | video_editor.py:266 | `d[key]` succeeds exactly when the key holds a number; a missing key raises `KeyError` |
| JsonValues.GetStringOr | video_editor.py:303-304 | `d.get(key, default)` gives the default for a missing key and the stored string otherwise |
| JsonValues.GetListOr | video_editor.py:307-313 | `d.get(key, [])` gives `[]` for a missing key and the stored list otherwise |
| JsonValues.DecodeAll | video_editor.py:307-315 | a decoding loop succeeds exactly when every element decodes, and then gives the decoded elements in order |
| JsonValues.DecodeAllOfEncoded | video_editor.py:291-316 | decoding a list of encodings gives the list back when each element round-trips |
| JsonValues.DecodeAllFirstError | video_editor.py:307-315 | the first element that fails decides the error of the whole loop |
| Sorting.SortByStartCorrect | video_editor.py:286 | `sort(key=start_time)` gives a list ordered by start time that is a permutation of the input and keeps the input order among equal start times |
| Sorting.InsertSorted | video_editor.py:286 | inserting into an ordered list keeps it ordered |
| Sorting.InsertPermutes | video_editor.py:286 | inserting adds exactly the new clip to the multiset of clips |
| Sorting.InsertStable | video_editor.py:286 | for every start time, insertion keeps the clips with that start in order and puts the new one behind them |
| Sorting.InsertPosition | video_editor.py:283-289 | in an ordered list the new clip lands right after the last clip that starts no later |
| Sorting.AppendThenSort | video_editor.py:284-289 | appending to an ordered list and sorting is inserting behind every clip that starts no later |
| Sorting.SortOfSorted | video_editor.py:286 | sorting an ordered list leaves it unchanged |
| Sorting.AtStartAppend | video_editor.py:284-289 | the clips with a given start time in `a + b` are those of `a` followed by those of `b` |
| Sorting.AtStart | video_editor.py:286 | the clips kept for one start time all have that start time |
| Projects.EmptyState | video_editor.py:271-276 | `Project()` starts with an empty, well-formed media table, no clips on either track, and the two default folders |
| Projects.AddClipRouting | video_editor.py:283-289 | track "video" changes only the video list and any other name only the audio list; the target list is ordered by start time, is the old list plus the clip as a multiset, and keeps equal-start clips in order with the new clip last |
| Projects.AddClipToSorted | video_editor.py:283-289 | on an ordered list, `add_clip` inserts the clip right after the last clip that starts no later than it |
| Projects.Encode | video_editor.py:291-298 | `to_dict` writes a dictionary with exactly the keys media, video_clips, audio_clips, workspace_dir and export_dir |
| Projects.DecodeDefaults | video_editor.py:302-315 | a non-dictionary raises; a missing folder key gives the default folder and a missing list key an empty list |
| Projects.DecodeMediaTable | video_editor.py:301-309 | for any dictionary `from_dict` accepts, not only one `to_dict` wrote: a stored "media" value is a list, every element decodes, and the media table is the one storing the decoded items in stored order builds (`TableOfContents`); when the stored ids all differ, the key order is the stored id order and each decoded item is stored under its id |
| Projects.DecodeKeepsOrder | video_editor.py:310-315 | the clip lists are the stored lists decoded element by element, in stored order and not re-sorted |
| Projects.EncodeDecode | video_editor.py:291-316 | `from_dict(to_dict(p))` restores the same media table (keys, items, order), both clip lists in the same order and both folders |
| Projects.DecodeClipsOfEncoded | video_editor.py:294-315 | a clip list written by `to_dict` reads back as the same list |
| Projects.Project.constructor | video_editor.py:271-276 | a new project is empty and has the default folders |
| Projects.Project.AddMedia | video_editor.py:280-281 | the item is stored under its id and nothing else changes |
| Projects.Project.AddClip | video_editor.py:283-289 | the new state is the `add_clip` of the old one |
| Projects.Project.FromDict | video_editor.py:301-316 | a fresh project holding exactly what `Decode` gives, or the error `Decode` gives |
| Projects.Project.ReadMedia | video_editor.py:307-309 | the loop that stores each decoded item under its id gives the decoded table, or the first error |
| Projects.Project.ReadClips | video_editor.py:310-315 | the loop that appends each decoded clip gives the decoded list, or the first error |
| Strings.ExpandUser | video_editor.py:275-276 | `~/rest` expands to the home folder without its trailing slashes, followed by `/rest` |
| Strings.PathJoin | video_editor.py:838-843 | an absolute name replaces the folder; otherwise the result is the folder, then one '/' unless the folder is empty or already ends in one, then the name |
| Strings.Decimal | video_editor.py:919-921 | the decimal digits of a count denote that count and start with '0' only for 0 itself; at least three digits from 100 on |
| Strings.DecimalCanonical | video_editor.py:919-921 | any digit string without a leading zero is the decimal form of the number it denotes, so `Decimal` is `str(n)` and no other string |
| Strings.Pad3 | video_editor.py:843 | `{idx:03d}` is digits that denote idx: exactly three below 1000, and the plain decimal from 100 on |
| Strings.Pad3Injective | video_editor.py:843 | different indices give different padded numbers |
| Strings.SplitLinesOfLines | video_editor.py:861-862 | text written one line per string, none holding a line break, splits back into those strings |
| Import.LastSlashAfter | video_editor.py:396 | finds where the last path component starts |
| Import.Name | video_editor.py:396-397 | `Path(path).name` is the slash-free tail of the path |
| Import.LastDot | video_editor.py:396 | the index of the last '.', or the length when there is none |
| Import.NameSuffix | video_editor.py:396 | `.suffix` starts at the last dot and runs to the end of the name, so it has no other dot; it is empty exactly when the name has no dot or its last dot is the first or the last character |
| Import.LowerChar | video_editor.py:396 | each ASCII capital becomes its own small letter (32 code points on), other characters stay |
| Import.ImportResult | video_editor.py:392-408 | a missing file imports nothing; a name no pattern matches gives the warning with the lower-cased extension; otherwise one item with the derived type, the thumbnail and the new id |
| Import.ImportEffect | video_editor.py:392-409 | a rejected file leaves the project unchanged; an accepted one adds exactly its item under its id and nothing else changes |
| Import.SuffixOfExtension | video_editor.py:396 | a name that ends in a dotted extension, with something before it, has that extension as its suffix |
| Import.LastDotIs | video_editor.py:396 | a dot with no dot after it is the last dot |
| Import.FilterShape | video_editor.py:341-354 | the literal part of each pattern is a dot and at least two characters without dots or slashes |
| Import.FilterType | video_editor.py:341-354 | each pattern's extension is lower case already and maps to audio (mp3, wav), image (png, jpg, jpeg, bmp) or video (the other six) |
| Import.Classification | video_editor.py:396-405 | a name that matches pattern k and has a stem is accepted; its suffix is that pattern's extension and its type is audio, image or video by the pattern's group |
| Import.NameEndsWith | video_editor.py:397 | a path ending in a slash-free text has a name ending in it |
| Import.FilterEnding | video_editor.py:341-354 | only ".mp4" ends in '4', and its '4' follows a small 'p' |
| Import.NoLiteralPartEndsInCapitalP4 | video_editor.py:341-354 | no pattern's literal part ends a name that ends in "P4" |
| Import.UpperCaseRefused | video_editor.py:397 | matching is case-sensitive: a file named `*.MP4` is refused |
| Import.UpperCaseWarning | video_editor.py:396-398 | the warning for such a file names ".mp4" |
| Import.UpperSuffix | video_editor.py:396 | the lower-cased suffix of `stem.MP4` is ".mp4" |
| Import.MatchesOwnName | video_editor.py:397 | a name equal to a pattern's literal part matches it |
| Import.NoSuffixIsVideo | video_editor.py:400-405 | an accepted file with no suffix is imported as "video" |
| Import.BareExtensionIsVideo | video_editor.py:396-405 | a file named only by an extension, such as "/music/.mp3", is accepted but imported as "video" |
| Import.MediaLibrary.constructor | video_editor.py:331-333 | the library imports into the project it is given |
| Import.MediaLibrary.ImportMedia | video_editor.py:392-409 | returns the import outcome; the project gains the new item only for an accepted file and keeps its clips and folders |
| Timeline.DropStart | video_editor.py:517 | `max(0, x / pps)`: never negative, x over the scale for x at or right of 0, and 0 left of it |
| Timeline.DropUnknownChangesNothing | video_editor.py:509-514 | a drop without a media id, or with an id the project does not hold, changes nothing |
| Timeline.DropPlacement | video_editor.py:512-521 | a known id adds exactly one clip, in 0 and out at the duration, starting at the clamped drop position; it goes to video exactly when `y < audio_y`; the other track and the media are unchanged and the target list stays ordered |
| Timeline.ReleasedStart | video_editor.py:530-532 | the new start is x over the scale, or exactly 0 when that is negative |
| Timeline.ReleaseClamps | video_editor.py:526-534 | after a release every drawn clip starts at 0 or later; one left of 0 starts at exactly 0; media, in and out points never change; a clip with no rectangle is unchanged |
| Timeline.NegativeOverScale | video_editor.py:530-531 | a position left of 0 gives a negative start |
| Timeline.NonNegativeOverScale | video_editor.py:530 | a position at or right of 0 gives the start that maps back to it |
| Timeline.TimelineWidget.constructor | video_editor.py:433-445 | 100 pixels per second, video track at y 0, audio track at y 60, height 40 |
| Timeline.TimelineWidget.Drop | video_editor.py:508-521 | the project after a drop is `DropInto` of the project before |
| Timeline.TimelineWidget.MouseRelease | video_editor.py:526-534 | the loop over the drawn clips leaves both lists as `ReleaseAll` of the old ones and the media and folders alone |
| Export.NumberedNameInjective | video_editor.py:843 | equal numbered names have equal numbers |
| Export.PathJoinInjective | video_editor.py:843 | joining one folder with two relative names gives equal paths only for equal names |
| Export.TempNamesDistinct | video_editor.py:843 | different clips get different temporary files |
| Export.ListTextLines | video_editor.py:859-862 | the list file reads back as one `file '<path>'` line per file, in order, when no path holds a line break |
| Export.PathJoinNoNewline | video_editor.py:843 | joining names without line breaks gives none |
| Export.PadNoNewline | video_editor.py:843 | a padded number has no line break |
| Export.ConcatNoNewline | video_editor.py:843 | concatenating texts without line breaks gives none |
| Export.VideoTempsNoNewline | video_editor.py:838-843 | in a workspace without line breaks the video temporary files have none |
| Export.InputCmds | video_editor.py:915-917 | `input_cmds` has two entries per audio file |
| Export.Flagged | video_editor.py:917 | each element preceded by the flag: twice as long |
| Export.AfterFlagged | video_editor.py:917 | the arguments after each flag are the flagged elements, when none is the flag |
| Export.InputsOfInputCmds | video_editor.py:915-917 | `input_cmds` hands ffmpeg exactly the audio files, in order |
| Export.AfterSnoc | video_editor.py:923-942 | appending an argument adds one input exactly when it follows a flag |
| Export.AfterAppend | video_editor.py:923-942 | the inputs of a concatenation are those of each piece plus one across the seam |
| Export.AfterOfThree | video_editor.py:923-942 | the inputs of three pieces joined without a flag at a seam are those of each piece |
| Export.NoneAfter | video_editor.py:929-942 | a vector with no flag before its end has no inputs |
| Export.AfterOfHead | video_editor.py:923-927 | `ffmpeg -y -i x` has the one input x |
| Export.HeadInputs | video_editor.py:923-927 | the head of the final command reads the concatenated video |
| Export.MixTailInputs | video_editor.py:928-942 | the tail of the final command reads no input |
| Export.MixInputs | video_editor.py:923-942 | the final command reads the concatenated video first and then the audio files in order |
| Export.Trunc | video_editor.py:918 | `int()` truncates toward zero: the floor for non-negative values, within one of the value otherwise |
| Export.FilterEndsWithMix | video_editor.py:920-922 | the filter graph ends in the mix piece and so is never an argument flag |
| Export.FilterDelays | video_editor.py:918-921 | for a non-negative start the delay is the whole milliseconds rounded down on both channels; the mix names as many inputs as there are audio clips and lists `[a0]`… before `amix` |
| Export.LabelsAreShiftedByOne | video_editor.py:916-928 | segment i is labelled `[i:a]` for i < na, while input 0 is the concatenated video and input na the last audio file; no segment carries the label `[na:a]` of the last audio file, so segment 0 delays the video's own audio and no segment delays the last audio file |
| Export.LabelsDiffer | video_editor.py:919 | different stream numbers give different stream labels |
| Export.TempPathsAreNotFlags | video_editor.py:863-898 | neither the concatenated video nor any audio temporary file is a bare "-i" |
| Export.PlanFinalInputs | video_editor.py:879-892 | without audio the final encode reads only the concatenated video |
| Export.PlanMixInputs | video_editor.py:914-942 | the plan's mix command reads the concatenated video as input 0 and the audio temporary files as inputs 1 to na, while its segments are labelled `[0:a]` to `[na-1:a]` |
| Export.IntendedLabelsMatchInputs | video_editor.py:916-928 | with segment i labelled `[i+1:a]`, every segment delays audio file i, which is input i + 1, and none delays the video |
| Export.FirstMissing | video_editor.py:841-842 | the clips before it have their media in the project, and the clip at it, if any, does not |
| Export.VideoTrimsSnoc | video_editor.py:841-858 | each loop pass appends the next video trim |
| Export.AudioTrimsSnoc | video_editor.py:896-913 | each loop pass appends the next audio trim |
| Export.TempsSnoc | video_editor.py:843-858 | each loop pass appends the next temporary file |
| Export.StartsSnoc | video_editor.py:913 | each loop pass appends the next start time |
| Export.LastStep | video_editor.py:878-943 | the last command writes the output path |
| Export.PlanFailsOnMissingMedia | video_editor.py:841-897 | the export raises exactly when a clip on either track names an unknown media id; the id is the first such video clip's, else the first such audio clip's; the commands already run are the video trims before it, or else all video trims, the concat step and the audio trims before it |
| Export.PlanShape | video_editor.py:878-943 | nv + 2 commands without audio and nv + na + 2 with; the concat step comes right after the video trims; the last command writes the output path |
| Export.PlanTrims | video_editor.py:841-913 | command i is the trim of video clip i, in list order; command nv + 1 + i is the trim of audio clip i |
| Export.CommandsLayout | video_editor.py:837-943 | where the trims, the concat step and the last command sit in the command list |
| Export.PlanListFile | video_editor.py:859-862 | the list file has one line per video clip, naming its temporary file, in clip order |
| Window.NormaliseSuffix | video_editor.py:827-828 | the result ends in the suffix and starts with the path; it is the path exactly when the path already ended in the suffix, and the path followed by the suffix otherwise |
| Window.NormaliseIdempotent | video_editor.py:827-828 | normalising twice is normalising once, and at most the suffix is added |
| Window.NormaliseIsCaseSensitive | video_editor.py:827-828 | `x.MP4` still gets ".mp4" appended |
| Window.ExportGuards | video_editor.py:817-831 | no ffprobe, no video clip and a cancelled dialog each stop the export, in that order; otherwise the output is the chosen name when that already ends in ".mp4" and the chosen name followed by ".mp4" when it does not (letter case counting), and the plan for that output runs |
| Window.SaveRoundTrip | video_editor.py:795-801 | saving is cancelled exactly when no name was chosen; otherwise the file is the chosen name when that already ends in ".json" and the chosen name followed by ".json" when it does not, and its contents read back as the very project that was saved |
| Window.MainWindow.ExportWithFfmpeg | video_editor.py:837-943 | the loops over video clips, list lines, audio clips and filter parts produce exactly `Plan` |
| Window.MainWindow.ExportProject | video_editor.py:817-835 | the command's outcome is `ExportDecision` |
| Window.MainWindow.SaveProject | video_editor.py:795-804 | the command's outcome is `SaveDecision` |
| Window.TrimVideo | video_editor.py:840-858 | the video loop stops at the first unknown media id; the commands run and the temporary files are those of the clips before it |
| Window.TrimAudio | video_editor.py:895-913 | the audio loop stops at the first unknown media id; it records each temporary file with its clip's start time |
| Window.WriteList | video_editor.py:859-862 | the loop writing `video_list.txt` produces the list text |
| Window.MixCommand | video_editor.py:914-942 | the loop building `input_cmds` and `filter_parts` yields the final mix command for the recorded audio files and start times |

## Findings

| source | as written | input that shows it | evidently intended | confidence | as-written member | corrected member |
|---|---|---|---|---|---|---|
| video_editor.py:919 | `[{idx}:a]` labels the delay of audio clip idx, but input 0 of the mix command is the concatenated video (926) and audio file idx is input idx + 1 (917) | any export with one audio clip: the filter delays `[0:a]`, the video's own audio, and `a_000.mp3` is read but unused | `[{idx+1}:a]` | not executed | Export.PlanMixInputs | Export.IntendedLabelsMatchInputs |

The export plan (`Export.Plan`, `Window.MainWindow.ExportWithFfmpeg`) keeps
the numbering as written, because it records the commands the program
runs. `Export.IntendedFilterComplex` is the corrected filter graph.

## Left out

- The widget code does not start as written, and the model assumes it is repaired. `QMimeData` is imported from `PyQt5.QtWidgets` (video_editor.py:103), but it is a QtCore class. `QSize` (335, 747) and `QUrl` (580) are never imported. `TimelineWidget.__init__` calls `_draw_tracks` (444), which clears `graphics_to_clip` (467) before that attribute is assigned (445). The model's constructors therefore succeed where the source raises.

- Running ffmpeg and ffprobe (`subprocess.run`, `ffprobe_installed`) is left out. The model gives the argument vectors and whether ffprobe was found is an input. An ffmpeg command that fails (`check=True`) is not modelled.
- `get_media_duration` and its cache are left out, because they wrap subprocess output; the duration is an input.
- `generate_thumbnail` is left out, because it is file and image work; the thumbnail path is an input.
- File I/O is left out: `save_to_file`, `load_from_file`, writing `video_list.txt` to disk and every `os.makedirs`. The dictionary and the list text are modelled instead.
- `os.path.abspath`, `os.path.isfile` and `uuid.uuid4` are left out; their results are inputs.
- Qt is left out: widgets, drawing (`_draw_tracks`, `_draw_clip`), drag handlers, `startDrag`, the library's context-menu remove, menus, toolbars, dialogs, message boxes and the status bar. The `clip_added` signal is left out too.
- `setRect` on a rectangle moved left of 0 is left out; the rectangle's x after a drag is an input given per clip in list order. The clip objects themselves are updated in place through `graphics_to_clip`, and that aliasing is modelled by position.
- The library's own `dropEvent` loop over URLs and `MainWindow.import_media` are left out; both call `import_media` once per path, and that is modelled.
- `new_project`, `open_project`, `SettingsDialog`, `_maybe_save`, `closeEvent` and `PreviewPlayer` are left out, because they are UI flows outside the data model.
- Python's `str` on a float is left out. It is an uninterpreted parameter `fmt`, and floats are reals with no rounding.
- Dictionary values are typed, and a value of the wrong JSON kind under a known key is a decoding error. For the folder keys this matches the source in effect: a non-string folder makes `os.makedirs` raise (video_editor.py:305-306). An empty folder string also makes `os.makedirs` raise, and the model, which creates no folders, accepts it. For the list keys it matches for every value but one: the source iterates the value (307-315), so null, a number or a boolean raises, and so does a non-empty object or string, whose elements are not dictionaries. The one divergence is an empty object or an empty string under "media", "video_clips" or "audio_clips": the source reads it as an empty list, while the model returns a wrong-type error. Only the record fields (247, 266) are stored by Python as they are, where the model rejects them.
- `str.lower()` is modelled on ASCII letters only.
- DropPlacement: does not repeat the start-time arithmetic, because the clip it names starts at `DropStart`, whose own contract states it.
- Correcting the `[{idx}:a]` stream numbering is left out: the model keeps it as written, and `LabelsAreShiftedByOne` states what it refers to.
- The export loops of `_export_with_ffmpeg` are split into `TrimVideo`, `TrimAudio`, `WriteList` and `MixCommand`, which `ExportWithFfmpeg` calls in the order of the source.
