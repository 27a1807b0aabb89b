/** A worked run: a folder holding game.iso, track2.bin and track3.wav, in
    that listing order, yields the eleven-line cue game.cue beside them. The
    folder is left arbitrary, and each file name is written as its stem plus
    its extension, the two parts the path functions take apart. */
module CueExample {
  import opened DotNetText
  import opened DotNetPath
  import opened CueSheet
  import opened CueMaker
  import opened CueProperties

  /** An extension already in lower case: a dot and a tail with no dot. */
  predicate PlainExtension(ext: string)
  {
    IsExtension(ext) && ToLowerInvariant(ext) == ext
  }

  /** The three extensions of the example are plain and lower case. */
  lemma BinExtension()
    ensures PlainExtension(".bin")
  {
    assert ToLowerInvariant(".bin") == ".bin";
  }

  lemma WavExtension()
    ensures PlainExtension(".wav")
  {
    assert ToLowerInvariant(".wav") == ".wav";
  }

  lemma IsoExtension()
    ensures PlainExtension(".iso")
  {
    assert ToLowerInvariant(".iso") == ".iso";
  }

  /** track2.bin is an audio track of type BINARY. */
  lemma BinFile(folder: string)
    ensures GetFileName(Combine(folder, "track2" + ".bin")) == "track2" + ".bin"
    ensures KindOf(Combine(folder, "track2" + ".bin")) == Binary
  {
    BinExtension();
    CombineNamed(folder, "track2", ".bin");
    KindOfExtension(Combine(folder, "track2" + ".bin"));
  }

  /** track3.wav is an audio track of type WAVE. */
  lemma WavFile(folder: string)
    ensures GetFileName(Combine(folder, "track3" + ".wav")) == "track3" + ".wav"
    ensures KindOf(Combine(folder, "track3" + ".wav")) == Wave
  {
    WavExtension();
    CombineNamed(folder, "track3", ".wav");
    KindOfExtension(Combine(folder, "track3" + ".wav"));
  }

  /** game.iso names the image and the cue, and as a listed file it is
      neither audio nor MP3. */
  lemma IsoFile(folder: string)
    ensures GetFileName(Combine(folder, "game" + ".iso")) == "game" + ".iso"
    ensures GetFileNameWithoutExtension(Combine(folder, "game" + ".iso")) == "game"
    ensures KindOf(Combine(folder, "game" + ".iso")) == Ignored
  {
    IsoExtension();
    CombineNamed(folder, "game", ".iso");
    KindOfExtension(Combine(folder, "game" + ".iso"));
  }

  /** The header: the image as a BINARY file, numbered track 1. */
  function HeaderBlock(): seq<string>
  {
    [FileLine("game" + ".iso", "BINARY"), TrackLine(1, "MODE1/2048"), DataIndexLine, PostgapLine]
  }

  /** track2.bin as track 02, followed by the PREGAP line. */
  function BinBlock(): seq<string>
  {
    [FileLine("track2" + ".bin", "BINARY"), TrackLine(2, "AUDIO"), PregapLine, AudioIndexLine]
  }

  /** track3.wav as track 03. */
  function WavBlock(): seq<string>
  {
    [FileLine("track3" + ".wav", "WAVE"), TrackLine(3, "AUDIO"), AudioIndexLine]
  }

  /** The cue the run writes: eleven lines. */
  function ExampleLines(): seq<string>
  {
    HeaderBlock() + BinBlock() + WavBlock()
  }

  /** The header takes track 1 and leaves the counter at 2. */
  lemma HeaderStep(folder: string)
    ensures WithHeader(Cue([], 1), Combine(folder, "game" + ".iso")) == Cue(HeaderBlock(), 2)
  {
    IsoFile(folder);
  }

  /** The image itself is listed too, and adds nothing. */
  lemma IsoStep(folder: string, c: Cue)
    ensures WithFile(c, Combine(folder, "game" + ".iso")) == c
  {
    IsoFile(folder);
    assert c.lines + [] == c.lines;
  }

  /** track2.bin takes number 2, which is the one that gets the PREGAP. */
  lemma BinStep(folder: string, c: Cue)
    requires c.track == 2
    ensures WithFile(c, Combine(folder, "track2" + ".bin")) == Cue(c.lines + BinBlock(), 3)
  {
    BinFile(folder);
    AudioLinesParts(Binary, "track2" + ".bin", c.track);
  }

  /** track3.wav takes number 3, with no PREGAP. */
  lemma WavStep(folder: string, c: Cue)
    requires c.track == 3
    ensures WithFile(c, Combine(folder, "track3" + ".wav")) == Cue(c.lines + WavBlock(), 4)
  {
    WavFile(folder);
    AudioLinesParts(Wave, "track3" + ".wav", c.track);
  }

  /** A three-file listing is three WithFile steps in listing order. */
  lemma ThreeFiles(c: Cue, a: string, b: string, d: string)
    ensures WithFiles(c, [a, b, d]) == WithFile(WithFile(WithFile(c, a), b), d)
  {
    WithFilesLast(c, [a, b, d]);
    assert [a, b, d][..2] == [a, b];
    WithFilesLast(c, [a, b]);
    assert [a, b][..1] == [a];
    WithFilesLast(c, [a]);
    assert [a][..0] == [];
  }

  /** The whole cue for the folder's listing. */
  lemma ExampleCue(folder: string)
    ensures CueFor(Combine(folder, "game" + ".iso"),
      [Combine(folder, "game" + ".iso"), Combine(folder, "track2" + ".bin"), Combine(folder, "track3" + ".wav")]).lines
      == ExampleLines()
  {
    var iso, bin, wav := Combine(folder, "game" + ".iso"), Combine(folder, "track2" + ".bin"), Combine(folder, "track3" + ".wav");
    var c0 := WithHeader(Cue([], 1), iso);
    ThreeFiles(c0, iso, bin, wav);
    HeaderStep(folder);
    IsoStep(folder, c0);
    BinStep(folder, c0);
    WavStep(folder, WithFile(c0, bin));
  }

  /** The run over that folder, whose only `*.iso` match is game.iso,
      succeeds and writes game.cue. */
  lemma ExampleRun(folder: string)
    ensures Run(folder, [Combine(folder, "game" + ".iso")],
      [Combine(folder, "game" + ".iso"), Combine(folder, "track2" + ".bin"), Combine(folder, "track3" + ".wav")])
      == Success(CueFile(Combine(folder, "game" + ".cue"), ExampleLines()))
  {
    IsoFile(folder);
    ExampleCue(folder);
  }
}
