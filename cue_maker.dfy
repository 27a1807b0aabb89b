/** The cue maker as the program runs it: a text buffer that only ever
    grows, a `track` counter passed by reference, and a loop over the folder
    listing. Each method keeps the source's statement order and branch
    structure and is proved to compute the value module CueSheet defines. */
module CueMaker {
  import opened DotNetText
  import opened DotNetPath
  import opened CueSheet

  /** The StringBuilder the cue text is built in, one entry per AppendLine. */
  class CueBuffer {
    var lines: seq<string>

    constructor ()
      ensures lines == []
    {
      lines := [];
    }

    method AppendLine(line: string)
      modifies this
      ensures lines == old(lines) + [line]
    {
      lines := lines + [line];
    }
  }

  /** Appends the disc image's four header lines; `track` is post-incremented
      once, so the image is numbered with the incoming counter. */
  method GenerateCueHeader(cue: CueBuffer, isoFilePath: string, track: int) returns (next: int)
    modifies cue
    ensures Cue(cue.lines, next) == WithHeader(Cue(old(cue.lines), track), isoFilePath)
  {
    next := track;
    cue.AppendLine(FileLine(GetFileName(isoFilePath), "BINARY"));
    cue.AppendLine(TrackLine(next, "MODE1/2048"));
    next := next + 1;
    cue.AppendLine(DataIndexLine);
    cue.AppendLine(PostgapLine);
  }

  /** Appends what one listed file contributes. The MP3 test stands apart
      from the BINARY/WAVE chain, whose final `else` returns, so an MP3 file
      leaves its FILE line and nothing else. */
  method AppendFileToCue(cue: CueBuffer, file: string, track: int) returns (next: int)
    modifies cue
    ensures Cue(cue.lines, next) == WithFile(Cue(old(cue.lines), track), file)
  {
    next := track;
    ghost var before := cue.lines;
    var ext := ToLowerInvariant(GetExtension(file));
    KindOfExtension(file);
    if ext == ".mp3" {
      cue.AppendLine(FileLine(GetFileName(file), "MP3"));
    }
    if ext == ".bin" {
      cue.AppendLine(FileLine(GetFileName(file), "BINARY"));
    } else if ext == ".wav" || ext == ".wave" {
      cue.AppendLine(FileLine(GetFileName(file), "WAVE"));
    } else {
      return;
    }
    ghost var fileType := if ext == ".bin" then "BINARY" else "WAVE";
    assert FileLines(file, track) == AudioLines(GetFileName(file), fileType, track);
    cue.AppendLine(TrackLine(next, "AUDIO"));
    next := next + 1;
    if next == 3 {
      cue.AppendLine(PregapLine);
    }
    cue.AppendLine(AudioIndexLine);
    AppendedInOrder(before, FileLine(GetFileName(file), fileType), TrackLine(track, "AUDIO"),
      if next == 3 then [PregapLine] else [], AudioIndexLine);
  }

  /** Appending lines one by one is appending their sequence. */
  lemma AppendedInOrder(before: seq<string>, first: string, second: string, gap: seq<string>, last: string)
    ensures before + [first] + [second] + gap + [last] == before + ([first, second] + gap + [last])
    ensures gap == [] ==> before + [first] + [second] + [last] == before + ([first, second] + gap + [last])
  {
  }

  /** One run over a folder: `isos` is the folder's `*.iso` listing and
      `listing` its full listing, both in enumeration order. The result is
      the error that stops the run, or the cue file's path and lines. */
  method GenerateCue(folderPath: string, isos: seq<string>, listing: seq<string>)
    returns (r: Result<CueFile, CueError>)
    ensures r == Run(folderPath, isos, listing)
  {
    var selected := GetIsoFilePath(folderPath, isos);
    if selected.Failure? {
      return Failure(selected.error);
    }
    var isoFilePath := selected.value;
    var track := 1;
    var cue := new CueBuffer();
    track := GenerateCueHeader(cue, isoFilePath, track);
    ghost var header := WithHeader(Cue([], 1), isoFilePath);
    for i := 0 to |listing|
      invariant Cue(cue.lines, track) == WithFiles(header, listing[..i])
    {
      assert listing[..i + 1][..i] == listing[..i];
      track := AppendFileToCue(cue, listing[i], track);
    }
    assert listing[..|listing|] == listing;
    r := Success(CueFile(CueFilePath(folderPath, isoFilePath), cue.lines));
  }
}
