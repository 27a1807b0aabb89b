# Jo Engine Cuesheet Maker — a verified model

The Jo Engine Cuesheet Maker is a small console tool. It looks at a folder
that holds one disc image (`*.iso`) and some audio files. It then writes a
CDRWIN-style cue sheet, `<image name>.cue`, next to them. The cue sheet
describes the image as data track 01 in mode `MODE1/2048`. Every `.bin`,
`.wav` or `.wave` file in the listing becomes an audio track, numbered 02, 03
and so on in listing order.

This project models the tool's one source file, `Program.cs`, in Dafny:

- `dotnet_text.dfy` (module `DotNetText`) models the .NET text calls the
  program uses. These are `ToLowerInvariant` and the `D2` number format, plus
  a decimal reader that inverts `D2`.
- `dotnet_path.dfy` (module `DotNetPath`) models `Path.GetFileName`,
  `Path.GetExtension`, `Path.GetFileNameWithoutExtension` and `Path.Combine`
  with Windows separators.
- `cue_sheet.dfy` (module `CueSheet`) gives the cue sheet as values. A `Cue`
  is the list of lines appended so far plus the `track` counter. `WithHeader`,
  `WithFile` and `WithFiles` advance it the way the program does. `Run` is a
  whole run: select the image, build the lines, name the output file.
- `cue_maker.dfy` (module `CueMaker`) is the program's imperative part. The
  class `CueBuffer` stands for the `StringBuilder`. The `ref int track`
  parameter becomes an in/out value. `GenerateCueHeader` and
  `AppendFileToCue` keep the source's statement order and its branch
  structure. `GenerateCue` is the `foreach` over the listing, with a loop
  invariant. Each method is proved to produce exactly the `CueSheet` value.
- `cue_properties.dfy` (module `CueProperties`) proves what the output looks
  like: the header text, the TRACK numbering, where PREGAP goes, what MP3
  files leave behind, that lines are only ever appended, and the output name.

### Behaviour the model keeps as the code has it

The extension table can be read as "MP3, BINARY and WAVE files all become
audio tracks". The code does not do that, and the model follows the code.
The pregap rule is easy to misread as well, so the model states where the
line really goes:

- **An `.mp3` file is not a track.** The MP3 test (`Program.cs:98-99`) stands
  on its own. The next `if`/`else if`/`else` chain (`Program.cs:100-105`)
  ends in `return` for `.mp3`. So an MP3 file leaves a single
  `FILE "x.mp3" MP3` line with no TRACK and no INDEX line, and it takes no
  track number. `CueProperties.CueMp3FilesDangle` proves that every such
  line is followed by another FILE line or ends the sheet.
- **PREGAP belongs to track 02.** The test `track == 3` (`Program.cs:108`)
  runs after the post-increment at line 107, so it fires while the lines of
  the track written as `02` are being appended. The PREGAP line therefore
  sits between `  TRACK 02 AUDIO` and that track's INDEX line, and so ahead
  of track 03. `CueProperties.CuePregap` proves there is exactly one PREGAP
  when there is at least one audio track, none otherwise, and that it always
  follows `  TRACK 02 AUDIO`.

A worked run is in `cue_example.dfy` (module `CueExample`). A folder holding
`game.iso`, `track2.bin` and `track3.wav` gives `game.cue` with eleven lines:
the header for track 01, track 02 with its PREGAP, and track 03 without one.

## Model

| member | source | states |
|---|---|---|
| `CueSheet.FileLine` | Program.cs:89 | Defines the `FILE "<name>" <type>` line of lines 89, 99, 101 and 103; `CueProperties.FileLineShape` tells it apart from the other lines |
| `CueSheet.TrackLine` | Program.cs:90 | Defines the `  TRACK <nn> <mode>` line of lines 90 and 107, the number in the `D2` format; `CueProperties.TrackLineShape` and `CueProperties.LowTrackNumbers` state its form |
| `CueSheet.HeaderLines` | Program.cs:89-92 | Defines the four header lines: the image's FILE/BINARY line, its TRACK line in MODE1/2048, then the fixed INDEX and POSTGAP lines; `CueProperties.HeaderTrackLines` and `CueProperties.CueAppendOnly` characterise them |
| `CueSheet.WithHeader` | Program.cs:87-93 | Defines the header step on a cue value: the header lines numbered with the incoming counter, then the counter plus one; `CueMaker.GenerateCueHeader` is proved to compute it |
| `CueSheet.KindOf` | Program.cs:97-105 | Defines how a listed file is treated, by its lower-cased extension: MP3, BINARY (`.bin`), WAVE (`.wav`, `.wave`) or ignored; `CueSheet.KindOfExtension` and `CueProperties.KindByExtension` characterise it |
| `CueSheet.KindOfExtension` | Program.cs:97-103 | Each kind holds exactly when the lower-cased extension passes the matching test of lines 98, 100 and 102 |
| `CueSheet.AudioLines` | Program.cs:100-110 | Defines an audio file's lines: FILE, TRACK AUDIO with the counter, PREGAP when the incremented counter is 3, INDEX; `CueProperties.AudioFileLines` characterises them |
| `CueSheet.KindLines` | Program.cs:98-110 | Defines what a file of each kind appends: one MP3 FILE line, an audio block, or nothing; `CueProperties.AppendFileByKind` characterises it |
| `CueSheet.FileLines` | Program.cs:95-111 | Defines what one listed file appends, from its kind and its file name |
| `CueSheet.NextTrack` | Program.cs:107 | Defines the counter after a file: one more for an audio track, unchanged otherwise; `CueProperties.WithFilesCounter` sums it over a listing |
| `CueSheet.WithFile` | Program.cs:95-111 | Defines one call of `AppendFileToCue` on a cue value; `CueMaker.AppendFileToCue` is proved to compute it |
| `CueSheet.WithFiles` | Program.cs:72-73 | Defines the `foreach` over the listing as `WithFile` applied file by file in order; `CueProperties.WithFilesTrackLines`, `WithFilesPregapCount` and `WithFilesMp3Dangle` characterise it |
| `CueSheet.CueFor` | Program.cs:68-73 | Defines the cue for an image and a listing: counter 1, the header, then every listed file; `CueProperties.CueTrackNumbering`, `CuePregap` and `CueMp3FilesDangle` characterise it |
| `CueSheet.CueFilePath` | Program.cs:115 | Defines the output path: the folder combined with the image's stem plus `.cue`; `CueProperties.CueFileNaming` characterises it |
| `CueSheet.Run` | Program.cs:65-85 | Defines a whole run: the image selection, then the cue and its path; `CueProperties.RunOutcome` characterises it and `CueMaker.GenerateCue` is proved to compute it |
| `DotNetText.ToLowerInvariant` | Program.cs:97 | Defines `ToLowerInvariant` as `LowerChar` applied to every character; `DotNetText.ToLowerInvariantIdempotent` and `DotNetPath.ExtensionOfLowered` characterise it |
| `DotNetText.FormatD2` | Program.cs:90 | Defines the `D2` format; `DotNetText.FormatD2Shape`, `FormatD2RoundTrip` and `FormatD2Injective` characterise it |
| `DotNetPath.GetFileName` | Program.cs:89 | Defines `Path.GetFileName` as the text after the last separator; `DotNetPath.FileNameIsFinalComponent` characterises it |
| `DotNetPath.GetExtension` | Program.cs:97 | Defines `Path.GetExtension` as the extension of the final component; `DotNetPath.ExtensionIsAfterLastDot` characterises it |
| `DotNetPath.GetFileNameWithoutExtension` | Program.cs:115 | Defines `Path.GetFileNameWithoutExtension` as the final component cut before its last dot; `DotNetPath.StemIsBeforeLastDot` characterises it |
| `DotNetPath.Combine` | Program.cs:115 | Defines `Path.Combine`: a rooted second part (leading separator, or drive letter and `:`) wins, otherwise the parts are joined with `\` unless a separator is already there; `DotNetPath.CombineFileName` characterises it |
| `DotNetPath.CombineNamed` | Program.cs:115 | A file named stem plus extension in any folder gives back that name, that extension and that stem |
| `CueProperties.KindByExtension` | Program.cs:97-103 | A file named stem plus extension, in any folder, is MP3, BINARY or WAVE exactly when its lower-cased extension is `.mp3`, `.bin`, or `.wav`/`.wave` |
| `CueProperties.UpperCaseBin` | Program.cs:97-101 | Whatever the stem and folder, a file ending in `.BIN` is a BINARY track |
| `CueProperties.UpperCaseWav` | Program.cs:97-103 | Whatever the stem and folder, a file ending in `.WAV` is a WAVE track |
| `CueSheet.GetIsoFilePath` | Program.cs:77-85 | The run continues exactly when the `*.iso` listing has one entry, and then that entry is the image. Otherwise it fails with the folder path: "no ISO" for an empty listing, "multiple ISO" for more than one |
| `CueMaker.GenerateCue` | Program.cs:65-75 | Running the listing loop over a fresh buffer yields exactly `Run`: the selection error with no cue, or the cue path together with the header lines and then every listed file's lines in order |
| `CueMaker.GenerateCueHeader` | Program.cs:87-93 | Appends the image's FILE/BINARY line, its TRACK line numbered with the incoming counter, and the INDEX and POSTGAP lines; the counter is post-incremented once |
| `CueMaker.AppendFileToCue` | Program.cs:95-111 | The source's separate MP3 test followed by its BINARY/WAVE/return chain appends exactly `FileLines(file, track)` and advances the counter only for `.bin`/`.wav`/`.wave` |
| `CueMaker.CueBuffer.AppendLine` | Program.cs:89-92 | The buffer only grows: one line is added at the end and nothing earlier changes |
| `CueMaker.CueBuffer.constructor` | Program.cs:69 | A new buffer holds no lines |
| `CueProperties.CueAppendOnly` | Program.cs:68-73 | Whatever the listing, the first four lines are `FILE "<image>" BINARY`, `  TRACK 01 MODE1/2048`, `      INDEX 01 00:00:00`, `      POSTGAP 00:02:00`; the lines for a shorter listing are a prefix of those for a longer one |
| `CueProperties.WithFilesAppendOnly` | Program.cs:72-73 | The lines produced by the first k files are a prefix of those produced by the whole listing |
| `CueProperties.WithFilesExtends` | Program.cs:72-73 | Appending a listing keeps the lines already in the buffer as a prefix |
| `CueProperties.ListedFileBlock` | Program.cs:72-73 | The j-th file's own lines come right after the lines of the files before it, numbered with the counter those files left |
| `CueProperties.HeaderTrackLines` | Program.cs:87-93 | The header holds exactly one TRACK line, `  TRACK 01 MODE1/2048` |
| `CueProperties.CueTrackNumbering` | Program.cs:68-73 | The TRACK lines of a run are `TRACK 01 MODE1/2048` followed by `TRACK nn AUDIO` for nn = 2, 3, … with one per audio file, no gaps; the final counter is 2 plus the number of `.bin`/`.wav`/`.wave` files |
| `CueProperties.WithFilesTrackLines` | Program.cs:72-73 | Appending a listing adds one TRACK line per audio file, numbered consecutively from the counter, in listing order |
| `CueProperties.WithFilesCounter` | Program.cs:107 | The counter after a listing is its start plus the number of audio files in it |
| `CueProperties.AudioFileTrackNumber` | Program.cs:100-107 | The j-th listed file, when it is an audio file, gets its FILE line (BINARY or WAVE) directly followed by a TRACK line numbered 2 plus the number of audio files listed before it |
| `CueProperties.TrackLinesOfKind` | Program.cs:100-107 | One file contributes one TRACK line, carrying the current counter, if it is an audio file, and none otherwise |
| `CueProperties.TrackLinesStep` | Program.cs:107 | Consecutive numbering survives one more file: the TRACK lines so far, numbered first..first+n-1, are extended by the file's own TRACK line numbered first+n |
| `CueProperties.CuePregap` | Program.cs:107-109 | A run has exactly one `    PREGAP 00:02:00` line when the listing holds an audio file and none otherwise, and every PREGAP line directly follows `  TRACK 02 AUDIO` |
| `CueProperties.WithFilesPregapCount` | Program.cs:107-109 | Across a listing, PREGAP lines grow by one exactly when the counter passes through 2, and by none otherwise |
| `CueProperties.PregapsOfKind` | Program.cs:108-109 | One file adds a PREGAP line exactly when it is an audio track numbered 02 |
| `CueProperties.PregapPlacementOfKind` | Program.cs:107-109 | Appending one file keeps every PREGAP line directly after `  TRACK 02 AUDIO` |
| `CueProperties.AudioFileLines` | Program.cs:100-110 | An audio file's lines start with its FILE line and its TRACK line and end with its INDEX line. There are 4 of them for track 02, which alone has the PREGAP line, and 3 otherwise |
| `CueProperties.AppendFileByKind` | Program.cs:97-110 | By kind: an ignored file adds nothing; an MP3 file adds one `FILE … MP3` line, no TRACK line and no number; an audio file adds FILE, TRACK (current counter), an optional PREGAP (only as track 02) and INDEX lines, in that order, and takes one number |
| `CueProperties.Mp3DangleOfKind` | Program.cs:98-105 | Appending one file never puts a TRACK or INDEX line after an MP3 FILE line |
| `CueProperties.Mp3FileLineKept` | Program.cs:98-99 | Every MP3 file in the listing leaves its `FILE "<name>" MP3` line in the cue |
| `CueProperties.CueMp3FilesDangle` | Program.cs:98-105 | In a run, every MP3 file has its FILE line, and every MP3 FILE line is either the last line or directly followed by another FILE line |
| `CueProperties.KindIgnoresCase` | Program.cs:97 | Two paths that are equal once lower-cased are classified alike, so `A.BIN`, `a.Bin` and `a.bin` are all audio tracks |
| `CueProperties.LowTrackNumbers` | Program.cs:90 | Tracks 1, 2 and 3 are written as `01`, `02` and `03`, giving `  TRACK 01 MODE1/2048`, `  TRACK 02 AUDIO` and `  TRACK 03 AUDIO` (the same format serves line 107) |
| `CueProperties.TrackLineShape` | Program.cs:107 | A TRACK line is recognised as a TRACK directive and is neither a FILE line nor the PREGAP line |
| `CueProperties.FixedLineShapes` | Program.cs:91-109 | The INDEX, POSTGAP and PREGAP lines are neither TRACK nor FILE directives, and only the PREGAP line equals the PREGAP line |
| `CueProperties.WithFilesPregapPlacement` | Program.cs:107-109 | Across a listing, every PREGAP line stays directly after `  TRACK 02 AUDIO` |
| `CueProperties.WithFilesMp3Dangle` | Program.cs:98-105 | Across a listing, no MP3 FILE line is followed by anything but another FILE line |
| `CueProperties.FileLineShape` | Program.cs:99-103 | A FILE line is recognised as a FILE directive and is never a TRACK or PREGAP line; with type `MP3` it reads as an MP3 FILE line, and with `BINARY` or `WAVE` (last character not `3`) it does not |
| `CueProperties.RunOutcome` | Program.cs:65-85 | A run succeeds exactly with one ISO. With none it fails with "No ISO found in path: <folder>", with several "Multiple ISO found in path: <folder>". On success the cue is written to `CueFilePath` |
| `CueProperties.CueFileNaming` | Program.cs:115 | The cue's path has the final component `<image stem>.cue`: its extension is `.cue` and its stem is the image's stem |
| `DotNetText.FormatD2Shape` | Program.cs:90 | `D2` gives at least two digits, zero-padded only up to two, with a leading `-` for negatives (whose digits are padded the same way) and never a space |
| `DotNetText.FormatD2RoundTrip` | Program.cs:107 | Reading a `D2` rendering back as a decimal gives the number that was formatted |
| `DotNetText.FormatD2Injective` | Program.cs:107 | Different track numbers are never written alike |
| `DotNetText.DecimalRoundTrip` | Program.cs:90 | The shortest decimal rendering reads back as the same number |
| `DotNetText.Decimal` | Program.cs:90 | The decimal rendering is non-empty, all digits, and has no leading zero except for 0 itself |
| `DotNetText.LowerChar` | Program.cs:97 | Lower-casing maps each upper-case ASCII letter to its own lower-case letter (`B` to `b`), leaves every other character alone, and leaves no upper-case letter |
| `DotNetText.ToLowerInvariantIdempotent` | Program.cs:97 | Lower-casing twice is the same as lower-casing once |
| `DotNetPath.LastIndexOfAny` | Program.cs:97 | The result is the index of the last character in the set, or -1 when there is none |
| `DotNetPath.FileNameIsFinalComponent` | Program.cs:89 | `GetFileName` is the longest separator-free suffix of the path |
| `DotNetPath.ExtensionIsAfterLastDot` | Program.cs:97 | `GetExtension` is empty or a dot followed by at least one non-dot character, taken from the last dot of the final component; it is empty exactly when that component has no dot or ends with one |
| `DotNetPath.StemIsBeforeLastDot` | Program.cs:115 | `GetFileNameWithoutExtension` is the final component up to its last dot, or all of it when there is no dot |
| `DotNetPath.StemAndExtension` | Program.cs:115 | Stem followed by extension gives back the final component. The exception is a component ending in `.`: its extension is empty and it is the stem followed by `.` |
| `DotNetPath.AddExtension` | Program.cs:115 | Appending an extension such as `.cue` to a separator-free stem gives a name whose extension is exactly that and whose stem is the original stem |
| `DotNetPath.StemIsSeparatorFree` | Program.cs:115 | The stem of any path has no separators, so it can serve as a file name |
| `DotNetPath.CombineFileName` | Program.cs:115 | Combining a folder with a separator-free name gives a path whose final component is that name |
| `DotNetPath.LastIndexBeforeSuffix` | Program.cs:115 | If a string ends with a suffix free of the set, preceded by a set member or by nothing, the last member sits just before that suffix |
| `DotNetPath.LastIndexOfAnyLower` | Program.cs:97 | Lower-casing does not move separators or dots |
| `DotNetPath.FileNameOfLowered` | Program.cs:97 | The file name of a lower-cased path is the lower-cased file name |
| `DotNetPath.ExtensionOfNameLowered` | Program.cs:97 | The extension of a lower-cased name is the lower-cased extension |
| `DotNetPath.ExtensionOfLowered` | Program.cs:97 | The extension of a lower-cased path is the lower-cased extension, which is what makes the test at line 97 case-insensitive |
| `CueExample.BinFile` | Program.cs:100-101 | `track2.bin` is named `track2.bin` in the FILE line and is a BINARY audio track |
| `CueExample.WavFile` | Program.cs:102-103 | `track3.wav` is named `track3.wav` in the FILE line and is a WAVE audio track |
| `CueExample.IsoFile` | Program.cs:97-105 | `game.iso` has the name `game.iso` and the stem `game`, and as a listed file it adds nothing |
| `CueExample.HeaderStep` | Program.cs:87-93 | The header for `game.iso` is its FILE line, track 1 in MODE1/2048, INDEX and POSTGAP, and leaves the counter at 2 |
| `CueExample.IsoStep` | Program.cs:104-105 | The image, listed again by `*.*`, leaves lines and counter unchanged |
| `CueExample.BinStep` | Program.cs:100-110 | With the counter at 2, `track2.bin` appends its FILE line, `TRACK 02 AUDIO`, the PREGAP line and its INDEX line, and the counter becomes 3 |
| `CueExample.WavStep` | Program.cs:102-110 | With the counter at 3, `track3.wav` appends its FILE line, `TRACK 03 AUDIO` and its INDEX line, with no PREGAP, and the counter becomes 4 |
| `CueExample.ThreeFiles` | Program.cs:72-73 | A three-file listing is handled in listing order |
| `CueExample.ExampleCue` | Program.cs:65-73 | The listing `game.iso`, `track2.bin`, `track3.wav` yields exactly the eleven expected lines |
| `CueExample.ExampleRun` | Program.cs:65-75 | With `game.iso` the only `*.iso` match, the run succeeds and writes those lines to `game.cue` in the same folder |

## Left out

- Console output is left out: the banner, the colours, the "found" and "generated" messages (`Program.cs:42-62`, `70`, `106`). It is I/O only.
- `Main` is left out: argument handling, the current-directory default and the `try/catch/finally`. The folder path is a parameter of `GenerateCue` and `Run`.
- `Error` ends the process with `Environment.Exit(-1)`. The model returns a `Failure` carrying the message instead, so nothing after it runs.
- `Directory.GetFiles` is left out: its enumeration order and its wildcard matching belong to the platform. The `*.iso` matches and the `*.*` listing are two given sequences, in enumeration order. The model does not relate them to each other. The `isos == null` test cannot fire on a sequence.
- `File.WriteAllText`, the file encoding and `AppendLine`'s platform newline are left out. The cue is modelled as its sequence of lines, and a successful run returns the path and the lines to write.
- `DotNetText.ToLowerInvariant`: only ASCII letters are lowered. The invariant culture's mapping of other characters is not modelled.
- `CueMaker.AppendFileToCue`: the `int` counter is unbounded, so the 32-bit wrap-around after 2^31 - 1 tracks is not modelled.
- `DotNetPath.GetFileName`: drive roots and UNC roots are not modelled; only `\` and `/` separate components. `Directory.GetFiles` returns each name joined to the folder argument as given, and `Main` passes that argument unchanged (`Program.cs:47`). A drive-relative folder such as `C:` therefore yields paths like `C:game.iso`. .NET gives `game.iso` as their file name, and the model gives `C:game.iso`, so for such a folder the model's FILE lines differ from the program's.
- `DotNetPath.Combine` follows the rules of current .NET on Windows. A rooted second part wins (a leading separator, or an ASCII drive letter followed by `:`), and `\` is inserted unless either side already has a separator. The older .NET Framework takes any character before `:` as a drive and also treats a trailing `:` on the first part as a separator; neither rule is modelled.
