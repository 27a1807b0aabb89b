/** The cue sheet a run of the cue maker produces, as values: the lines it
    appends and the track counter it advances, one file at a time and in
    listing order. The methods of module CueMaker are proved to compute
    exactly these values. */
module CueSheet {
  import opened DotNetText
  import opened DotNetPath

  datatype Result<T, E> = Success(value: T) | Failure(error: E)

  /** The two conditions under which `Error` ends the run. */
  datatype CueError = NoIsoFound(path: string) | MultipleIsoFound(path: string)
  {
    function Message(): string
    {
      match this
      case NoIsoFound(p) => "No ISO found in path: " + p
      case MultipleIsoFound(p) => "Multiple ISO found in path: " + p
    }
  }

  /** What a successful run writes: the path of the cue file and its lines. */
  datatype CueFile = CueFile(path: string, lines: seq<string>)

  /** The lines appended so far together with the running `track` counter. */
  datatype Cue = Cue(lines: seq<string>, track: int)

  const DataIndexLine: string := "      INDEX 01 00:00:00"
  const PostgapLine: string := "      POSTGAP 00:02:00"
  const PregapLine: string := "    PREGAP 00:02:00"
  const AudioIndexLine: string := "    INDEX 01 00:00:00"

  /** `FILE "<name>" <type>` */
  function FileLine(name: string, fileType: string): string
  {
    "FILE \"" + name + "\" " + fileType
  }

  /** `  TRACK <track as D2> <mode>` */
  function TrackLine(track: int, mode: string): string
  {
    "  TRACK " + FormatD2(track) + " " + mode
  }

  /** How a listed file is treated, decided by its lower-cased extension. */
  datatype FileKind = Mp3 | Binary | Wave | Ignored

  function KindOf(file: string): FileKind
  {
    var ext := ToLowerInvariant(GetExtension(file));
    if ext == ".mp3" then Mp3
    else if ext == ".bin" then Binary
    else if ext == ".wav" || ext == ".wave" then Wave
    else Ignored
  }

  /** The four outcomes of the extension tests, as `KindOf` names them. */
  lemma KindOfExtension(file: string)
    ensures var ext := ToLowerInvariant(GetExtension(file));
      && (KindOf(file) == Mp3 <==> ext == ".mp3")
      && (KindOf(file) == Binary <==> ext == ".bin")
      && (KindOf(file) == Wave <==> ext == ".wav" || ext == ".wave")
  {
    assert ".mp3"[1] != ".bin"[1] && ".mp3"[1] != ".wav"[1] && ".mp3"[1] != ".wave"[1];
    assert ".bin"[1] != ".wav"[1] && ".bin"[1] != ".wave"[1];
  }

  /** The kinds that receive a TRACK line and consume a track number. */
  predicate IsAudioTrack(kind: FileKind)
  {
    kind == Binary || kind == Wave
  }

  /** The FILE type written for an audio track of the given kind. */
  function FileType(kind: FileKind): string
    requires IsAudioTrack(kind)
  {
    if kind == Binary then "BINARY" else "WAVE"
  }

  /** The four header lines for the disc image, numbered with `track`. */
  function HeaderLines(isoFilePath: string, track: int): seq<string>
  {
    [FileLine(GetFileName(isoFilePath), "BINARY"), TrackLine(track, "MODE1/2048"), DataIndexLine, PostgapLine]
  }

  function WithHeader(c: Cue, isoFilePath: string): Cue
  {
    Cue(c.lines + HeaderLines(isoFilePath, c.track), c.track + 1)
  }

  /** The lines of one audio track numbered `track`; the PREGAP line is
      compared with the counter after its increment. */
  function AudioLines(name: string, fileType: string, track: int): seq<string>
  {
    [FileLine(name, fileType), TrackLine(track, "AUDIO")]
    + (if track + 1 == 3 then [PregapLine] else [])
    + [AudioIndexLine]
  }

  /** What a file of the given kind and name appends when the counter stands
      at `track`: an MP3 file gets a FILE line only, an ignored file nothing. */
  function KindLines(kind: FileKind, name: string, track: int): seq<string>
  {
    match kind
    case Mp3 => [FileLine(name, "MP3")]
    case Binary => AudioLines(name, "BINARY", track)
    case Wave => AudioLines(name, "WAVE", track)
    case Ignored => []
  }

  /** What one listed file appends when the counter stands at `track`. */
  function FileLines(file: string, track: int): seq<string>
  {
    KindLines(KindOf(file), GetFileName(file), track)
  }

  /** The counter after a file of the given kind: audio tracks take a number. */
  function NextTrack(kind: FileKind, track: int): int
  {
    if IsAudioTrack(kind) then track + 1 else track
  }

  function WithFile(c: Cue, file: string): Cue
  {
    Cue(c.lines + FileLines(file, c.track), NextTrack(KindOf(file), c.track))
  }

  /** The files of a listing appended one after the other, in order. */
  function WithFiles(c: Cue, files: seq<string>): Cue
    decreases |files|
  {
    if files == [] then c
    else WithFile(WithFiles(c, files[..|files| - 1]), files[|files| - 1])
  }

  /** How many files of a listing become audio tracks. */
  function AudioCount(files: seq<string>): nat
    decreases |files|
  {
    if files == [] then 0
    else AudioCount(files[..|files| - 1]) + (if IsAudioTrack(KindOf(files[|files| - 1])) then 1 else 0)
  }

  /** The whole cue for a disc image and a folder listing: the counter
      starts at 1, the header takes track 1, then every listed file. */
  function CueFor(isoFilePath: string, listing: seq<string>): Cue
  {
    WithFiles(WithHeader(Cue([], 1), isoFilePath), listing)
  }

  /** The disc image of a folder, given the folder's `*.iso` matches: the
      run goes on only when there is exactly one. */
  function GetIsoFilePath(path: string, isos: seq<string>): (r: Result<string, CueError>)
    ensures r.Success? <==> |isos| == 1
    ensures r.Success? ==> isos == [r.value]
    ensures r.Failure? ==> r.error.path == path && (r.error.NoIsoFound? <==> isos == [])
  {
    if |isos| <= 0 then Failure(NoIsoFound(path))
    else if |isos| > 1 then Failure(MultipleIsoFound(path))
    else Success(isos[0])
  }

  /** Where the cue is written: the folder combined with the disc image's
      name minus its extension, plus ".cue". */
  function CueFilePath(folderPath: string, isoFilePath: string): string
  {
    Combine(folderPath, GetFileNameWithoutExtension(isoFilePath) + ".cue")
  }

  /** A whole run: select the disc image, build the cue, name the output.
      A failed selection yields no cue at all. */
  function Run(folderPath: string, isos: seq<string>, listing: seq<string>): Result<CueFile, CueError>
  {
    match GetIsoFilePath(folderPath, isos)
    case Failure(e) => Failure(e)
    case Success(iso) => Success(CueFile(CueFilePath(folderPath, iso), CueFor(iso, listing).lines))
  }
}
