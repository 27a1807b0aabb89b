/** What a run's cue sheet looks like, read off the lines: the header, the
    TRACK lines and their numbers, where the single PREGAP goes, what an MP3
    file leaves behind, that lines once appended stay put, and the name of
    the output file. */
module CueProperties {
  import opened DotNetText
  import opened DotNetPath
  import opened CueSheet

  /** A FILE directive. */
  predicate IsFileLine(line: string)
  {
    4 <= |line| && line[..4] == "FILE"
  }

  /** A FILE directive whose type is MP3. */
  predicate IsMp3FileLine(line: string)
  {
    IsFileLine(line) && line[|line| - 4..] == " MP3"
  }

  /** A TRACK directive. */
  predicate IsTrackLine(line: string)
  {
    8 <= |line| && line[..8] == "  TRACK "
  }

  /** The TRACK directives among `lines`, in order. */
  function TrackLines(lines: seq<string>): seq<string>
    decreases |lines|
  {
    if lines == [] then []
    else TrackLines(lines[..|lines| - 1]) + (if IsTrackLine(lines[|lines| - 1]) then [lines[|lines| - 1]] else [])
  }

  /** Every PREGAP line comes right after `  TRACK 02 AUDIO`. */
  predicate PregapFollowsTrack02(lines: seq<string>)
  {
    forall i :: 0 <= i < |lines| && lines[i] == PregapLine ==> 1 <= i && lines[i - 1] == TrackLine(2, "AUDIO")
  }

  /** Every MP3 FILE line is the last line or is followed by another FILE
      line: no TRACK or INDEX ever belongs to it. */
  predicate Mp3FileLinesDangle(lines: seq<string>)
  {
    forall i :: 0 <= i < |lines| && IsMp3FileLine(lines[i]) ==> i + 1 == |lines| || IsFileLine(lines[i + 1])
  }

  // ----- shapes of the individual lines -----

  lemma FileLineShape(name: string, fileType: string)
    requires fileType != []
    ensures IsFileLine(FileLine(name, fileType))
    ensures !IsTrackLine(FileLine(name, fileType))
    ensures FileLine(name, fileType) != PregapLine
    ensures fileType == "MP3" ==> IsMp3FileLine(FileLine(name, fileType))
    ensures fileType[|fileType| - 1] != '3' ==> !IsMp3FileLine(FileLine(name, fileType))
  {
    var l := FileLine(name, fileType);
    assert l[..4] == "FILE";
    assert l[0] == 'F';
    assert l[|l| - 1] == fileType[|fileType| - 1];
    if fileType == "MP3" {
      assert l[|l| - 4..] == " MP3";
    }
  }

  lemma TrackLineShape(track: int, mode: string)
    ensures IsTrackLine(TrackLine(track, mode))
    ensures !IsFileLine(TrackLine(track, mode))
    ensures TrackLine(track, mode) != PregapLine
  {
    var l := TrackLine(track, mode);
    assert l[..8] == "  TRACK ";
    assert l[2] == 'T' && PregapLine[2] == ' ';
  }

  lemma FixedLineShapes()
    ensures !IsTrackLine(PregapLine) && !IsFileLine(PregapLine)
    ensures !IsTrackLine(AudioIndexLine) && !IsFileLine(AudioIndexLine) && AudioIndexLine != PregapLine
    ensures !IsTrackLine(DataIndexLine) && DataIndexLine != PregapLine
    ensures !IsTrackLine(PostgapLine) && PostgapLine != PregapLine
  {
    assert PregapLine[2] == ' ' && PregapLine[0] == ' ';
    assert AudioIndexLine[2] == ' ' && AudioIndexLine[0] == ' ' && AudioIndexLine[4] == 'I' && PregapLine[4] == 'P';
    assert DataIndexLine[2] == ' ' && DataIndexLine[4] == ' ';
    assert PostgapLine[2] == ' ' && PostgapLine[4] == ' ';
  }

  /** Tracks 1, 2 and 3 are written "01", "02" and "03": two digits, zero-padded. */
  lemma LowTrackNumbers()
    ensures FormatD2(1) == "01" && FormatD2(2) == "02" && FormatD2(3) == "03"
    ensures TrackLine(1, "MODE1/2048") == "  TRACK 01 MODE1/2048"
    ensures TrackLine(2, "AUDIO") == "  TRACK 02 AUDIO"
    ensures TrackLine(3, "AUDIO") == "  TRACK 03 AUDIO"
  {
    assert Decimal(1) == ['1'];
    assert Decimal(2) == ['2'];
    assert Decimal(3) == ['3'];
  }

  // ----- TRACK lines -----

  lemma {:induction false} TrackLinesAppend(a: seq<string>, b: seq<string>)
    ensures TrackLines(a + b) == TrackLines(a) + TrackLines(b)
    decreases |b|
  {
    if b == [] {
      assert a + b == a;
    } else {
      var init := b[..|b| - 1];
      assert (a + b)[..|a + b| - 1] == a + init;
      TrackLinesAppend(a, init);
    }
  }

  lemma TrackLinesOne(line: string)
    ensures TrackLines([line]) == if IsTrackLine(line) then [line] else []
  {
    assert [line][..0] == [];
  }

  // ----- the lines of one audio file, part by part -----

  /** The PREGAP line an audio file gets when it is numbered 02. */
  function PregapSlot(track: int): seq<string>
  {
    if track == 2 then [PregapLine] else []
  }

  /** An audio file's lines are its FILE line, its TRACK line, the PREGAP
      slot and its INDEX line. */
  lemma AudioLinesParts(kind: FileKind, name: string, track: int)
    requires IsAudioTrack(kind)
    ensures KindLines(kind, name, track)
      == [FileLine(name, FileType(kind)), TrackLine(track, "AUDIO")] + PregapSlot(track) + [AudioIndexLine]
  {
  }

  /** How the parts of an audio file's lines are told apart. */
  lemma AudioPartsShapes(kind: FileKind, name: string, track: int)
    requires IsAudioTrack(kind)
    ensures var f, t := FileLine(name, FileType(kind)), TrackLine(track, "AUDIO");
      && IsFileLine(f) && !IsMp3FileLine(f) && !IsTrackLine(f) && f != PregapLine
      && IsTrackLine(t) && !IsFileLine(t) && t != PregapLine
      && !IsTrackLine(AudioIndexLine) && !IsFileLine(AudioIndexLine) && AudioIndexLine != PregapLine
      && !IsTrackLine(PregapLine) && !IsFileLine(PregapLine)
  {
    var fileType := FileType(kind);
    assert fileType[|fileType| - 1] != '3';
    FileLineShape(name, fileType);
    TrackLineShape(track, "AUDIO");
    FixedLineShapes();
  }

  /** Of the four parts only the TRACK line is a TRACK directive. */
  lemma TrackLinesOfParts(f: string, t: string, gap: seq<string>, idx: string)
    requires !IsTrackLine(f) && IsTrackLine(t) && !IsTrackLine(idx) && !IsTrackLine(PregapLine)
    requires gap == [] || gap == [PregapLine]
    ensures TrackLines([f, t] + gap + [idx]) == [t]
  {
    assert [f, t] == [f] + [t];
    TrackLinesAppend([f, t] + gap, [idx]);
    TrackLinesAppend([f, t], gap);
    TrackLinesAppend([f], [t]);
    TrackLinesOne(f);
    TrackLinesOne(t);
    TrackLinesOne(idx);
    if gap != [] {
      TrackLinesOne(PregapLine);
    }
  }

  /** Where the parts sit: FILE first, TRACK second, INDEX last. */
  lemma PartsLayout(f: string, t: string, gap: seq<string>, idx: string)
    requires gap == [] || gap == [PregapLine]
    ensures var b := [f, t] + gap + [idx];
      |b| == 3 + |gap| && b[0] == f && b[1] == t && b[|b| - 1] == idx
  {
  }

  /** A line that is none of the FILE, TRACK and INDEX parts occurs among
      the parts exactly as often as in the PREGAP slot. */
  lemma CountInParts(x: string, f: string, t: string, gap: seq<string>, idx: string)
    requires x != f && x != t && x != idx
    ensures multiset([f, t] + gap + [idx])[x] == multiset(gap)[x]
    ensures x in [f, t] + gap + [idx] <==> x in gap
  {
    assert multiset([f, t] + gap + [idx]) == multiset{f, t} + multiset(gap) + multiset{idx};
  }

  /** The parts keep PREGAP after TRACK 02 when the slot is filled only for
      track 02. */
  lemma PlacementInParts(f: string, t: string, gap: seq<string>, idx: string)
    requires f != PregapLine && t != PregapLine && idx != PregapLine
    requires gap == [] || (gap == [PregapLine] && t == TrackLine(2, "AUDIO"))
    ensures PregapFollowsTrack02([f, t] + gap + [idx])
  {
    var b := [f, t] + gap + [idx];
    forall i | 0 <= i < |b| && b[i] == PregapLine
      ensures 1 <= i && b[i - 1] == TrackLine(2, "AUDIO")
    {
      assert i == 2 && gap != [];
    }
  }

  /** No part of an audio file's lines is an MP3 FILE line. */
  lemma NoMp3InParts(f: string, t: string, gap: seq<string>, idx: string)
    requires !IsMp3FileLine(f) && !IsFileLine(t) && !IsFileLine(idx) && !IsFileLine(PregapLine)
    requires gap == [] || gap == [PregapLine]
    ensures Mp3FileLinesDangle([f, t] + gap + [idx])
  {
    var b := [f, t] + gap + [idx];
    forall i | 0 <= i < |b|
      ensures !IsMp3FileLine(b[i])
    {
      if i == 0 {
      } else if i == 1 {
      } else if i == |b| - 1 {
        assert b[i] == idx;
      } else {
        assert b[i] == PregapLine;
      }
    }
  }

  /** PREGAP placement survives appending lines that keep it themselves and
      do not start with a PREGAP line. */
  lemma PlacementAppend(a: seq<string>, b: seq<string>)
    requires PregapFollowsTrack02(a) && PregapFollowsTrack02(b)
    requires b == [] || b[0] != PregapLine
    ensures PregapFollowsTrack02(a + b)
  {
    var all := a + b;
    forall i | 0 <= i < |all| && all[i] == PregapLine
      ensures 1 <= i && all[i - 1] == TrackLine(2, "AUDIO")
    {
      if i < |a| {
        assert a[i] == PregapLine;
      } else {
        assert b[i - |a|] == PregapLine;
        assert all[i - 1] == b[i - |a| - 1];
      }
    }
  }

  /** Dangling MP3 lines stay dangling when the appended lines keep the
      property themselves and start, if at all, with a FILE line. */
  lemma DangleAppend(a: seq<string>, b: seq<string>)
    requires Mp3FileLinesDangle(a) && Mp3FileLinesDangle(b)
    requires b == [] || IsFileLine(b[0])
    ensures Mp3FileLinesDangle(a + b)
  {
    var all := a + b;
    forall i | 0 <= i < |all| && IsMp3FileLine(all[i])
      ensures i + 1 == |all| || IsFileLine(all[i + 1])
    {
      if i + 1 < |a| {
        assert a[i] == all[i] && a[i + 1] == all[i + 1];
      } else if i + 1 == |a| {
        if b != [] {
          assert all[i + 1] == b[0];
        }
      } else {
        assert all[i] == b[i - |a|];
        if i + 1 < |all| {
          assert all[i + 1] == b[i + 1 - |a|];
        }
      }
    }
  }

  lemma TrackLinesOfMp3(name: string, track: int)
    ensures TrackLines(KindLines(Mp3, name, track)) == []
  {
    FileLineShape(name, "MP3");
    TrackLinesOne(FileLine(name, "MP3"));
  }

  lemma TrackLinesOfAudio(kind: FileKind, name: string, track: int)
    requires IsAudioTrack(kind)
    ensures TrackLines(KindLines(kind, name, track)) == [TrackLine(track, "AUDIO")]
  {
    AudioLinesParts(kind, name, track);
    AudioPartsShapes(kind, name, track);
    TrackLinesOfParts(FileLine(name, FileType(kind)), TrackLine(track, "AUDIO"), PregapSlot(track), AudioIndexLine);
  }

  /** The TRACK lines one listed file contributes: its own, numbered with the
      counter it found, when it is an audio track, and none otherwise. */
  lemma TrackLinesOfKind(kind: FileKind, name: string, track: int)
    ensures TrackLines(KindLines(kind, name, track))
      == if IsAudioTrack(kind) then [TrackLine(track, "AUDIO")] else []
  {
    if kind == Mp3 {
      TrackLinesOfMp3(name, track);
    } else if IsAudioTrack(kind) {
      TrackLinesOfAudio(kind, name, track);
    } else {
      assert KindLines(kind, name, track) == [];
    }
  }

  /** A prefix stays a prefix when more is appended. */
  lemma PrefixOfAppend(a: seq<string>, b: seq<string>, x: seq<string>)
    requires a <= b
    ensures a <= b + x
  {
    assert (b + x)[..|a|] == b[..|a|];
  }

  /** The last file of a listing is appended after all the others. */
  lemma WithFilesLast(c: Cue, files: seq<string>)
    requires files != []
    ensures var init, file := files[..|files| - 1], files[|files| - 1];
      && WithFiles(c, files).lines
         == WithFiles(c, init).lines + KindLines(KindOf(file), GetFileName(file), WithFiles(c, init).track)
      && WithFiles(c, files).track == NextTrack(KindOf(file), WithFiles(c, init).track)
      && AudioCount(files) == AudioCount(init) + if IsAudioTrack(KindOf(file)) then 1 else 0
  {
  }

  /** The counter ends at where it started plus the number of audio files. */
  lemma {:induction false} WithFilesCounter(c: Cue, files: seq<string>)
    ensures WithFiles(c, files).track == c.track + AudioCount(files)
    decreases |files|
  {
    if files != [] {
      WithFilesCounter(c, files[..|files| - 1]);
    }
  }

  /** TRACK lines numbered `first`, `first + 1`, ... for `n` audio tracks. */
  function AudioTrackLines(first: int, n: nat): seq<string>
  {
    seq(n, i => TrackLine(first + i, "AUDIO"))
  }

  lemma AudioTrackLinesSnoc(first: int, n: nat)
    ensures AudioTrackLines(first, n + 1) == AudioTrackLines(first, n) + [TrackLine(first + n, "AUDIO")]
  {
  }

  lemma TrackLinesStepAudio(lines: seq<string>, kind: FileKind, name: string, first: int, n: nat, before: seq<string>)
    requires IsAudioTrack(kind)
    requires TrackLines(lines) == before + AudioTrackLines(first, n)
    ensures TrackLines(lines + KindLines(kind, name, first + n)) == before + AudioTrackLines(first, n + 1)
  {
    TrackLinesAppend(lines, KindLines(kind, name, first + n));
    TrackLinesOfAudio(kind, name, first + n);
    AudioTrackLinesSnoc(first, n);
  }

  lemma TrackLinesStepOther(lines: seq<string>, kind: FileKind, name: string, track: int)
    requires !IsAudioTrack(kind)
    ensures TrackLines(lines + KindLines(kind, name, track)) == TrackLines(lines)
  {
    TrackLinesAppend(lines, KindLines(kind, name, track));
    TrackLinesOfKind(kind, name, track);
  }

  /** One more file extends the numbered TRACK lines by its own, if any. */
  lemma TrackLinesStep(lines: seq<string>, kind: FileKind, name: string, first: int, n: nat, before: seq<string>)
    requires TrackLines(lines) == before + AudioTrackLines(first, n)
    ensures TrackLines(lines + KindLines(kind, name, first + n))
      == before + AudioTrackLines(first, n + if IsAudioTrack(kind) then 1 else 0)
  {
    if IsAudioTrack(kind) {
      TrackLinesStepAudio(lines, kind, name, first, n, before);
    } else {
      TrackLinesStepOther(lines, kind, name, first + n);
    }
  }

  /** The step of the induction below: the last file of a listing. */
  lemma WithFilesTrackLinesStep(c: Cue, files: seq<string>)
    requires files != []
    requires var init := files[..|files| - 1];
      TrackLines(WithFiles(c, init).lines) == TrackLines(c.lines) + AudioTrackLines(c.track, AudioCount(init))
    ensures TrackLines(WithFiles(c, files).lines)
      == TrackLines(c.lines) + AudioTrackLines(c.track, AudioCount(files))
  {
    var init, file := files[..|files| - 1], files[|files| - 1];
    WithFilesCounter(c, init);
    WithFilesLast(c, files);
    TrackLinesStep(WithFiles(c, init).lines, KindOf(file), GetFileName(file), c.track, AudioCount(init), TrackLines(c.lines));
  }

  /** Appending a listing adds one TRACK line per audio file, numbered on
      from the counter with no gap, in listing order. */
  lemma {:induction false} WithFilesTrackLines(c: Cue, files: seq<string>)
    ensures TrackLines(WithFiles(c, files).lines)
      == TrackLines(c.lines) + AudioTrackLines(c.track, AudioCount(files))
    decreases |files|
  {
    if files == [] {
      assert AudioTrackLines(c.track, 0) == [];
      assert TrackLines(c.lines) + [] == TrackLines(c.lines);
    } else {
      WithFilesTrackLines(c, files[..|files| - 1]);
      WithFilesTrackLinesStep(c, files);
    }
  }

  /** The header's only TRACK line is track 01, the data track. */
  lemma HeaderTrackLines(isoFilePath: string)
    ensures TrackLines(HeaderLines(isoFilePath, 1)) == [TrackLine(1, "MODE1/2048")]
  {
    var h := HeaderLines(isoFilePath, 1);
    FileLineShape(GetFileName(isoFilePath), "BINARY");
    TrackLineShape(1, "MODE1/2048");
    FixedLineShapes();
    assert h == [h[0]] + [h[1]] + [h[2]] + [h[3]];
    TrackLinesAppend([h[0]] + [h[1]] + [h[2]], [h[3]]);
    TrackLinesAppend([h[0]] + [h[1]], [h[2]]);
    TrackLinesAppend([h[0]], [h[1]]);
    TrackLinesOne(h[0]);
    TrackLinesOne(h[1]);
    TrackLinesOne(h[2]);
    TrackLinesOne(h[3]);
  }

  /** Track numbering over a whole run: TRACK 01 is the disc image, then
      TRACK 02, 03, ... for the audio files in listing order, no gaps; the
      counter ends at 2 plus the number of audio files. */
  lemma CueTrackNumbering(isoFilePath: string, listing: seq<string>)
    ensures var cue := CueFor(isoFilePath, listing);
      && TrackLines(cue.lines)
         == [TrackLine(1, "MODE1/2048")] + AudioTrackLines(2, AudioCount(listing))
      && cue.track == 2 + AudioCount(listing)
  {
    var header := WithHeader(Cue([], 1), isoFilePath);
    HeaderTrackLines(isoFilePath);
    assert header.lines == HeaderLines(isoFilePath, 1);
    WithFilesTrackLines(header, listing);
    WithFilesCounter(header, listing);
  }

  // ----- append-only -----

  /** Appending files never rewrites the lines already there. */
  lemma {:induction false} WithFilesExtends(c: Cue, files: seq<string>)
    ensures c.lines <= WithFiles(c, files).lines
    decreases |files|
  {
    if files != [] {
      var init := files[..|files| - 1];
      WithFilesExtends(c, init);
      WithFilesLast(c, files);
      PrefixOfAppend(c.lines, WithFiles(c, init).lines,
        KindLines(KindOf(files[|files| - 1]), GetFileName(files[|files| - 1]), WithFiles(c, init).track));
    }
  }

  /** Later files only append: what the first `k` files produced is a prefix
      of what the whole listing produces. */
  lemma {:induction false} WithFilesAppendOnly(c: Cue, files: seq<string>, k: nat)
    requires k <= |files|
    ensures WithFiles(c, files[..k]).lines <= WithFiles(c, files).lines
    decreases |files|
  {
    if k == |files| {
      assert files[..k] == files;
    } else {
      var init := files[..|files| - 1];
      WithFilesAppendOnly(c, init, k);
      assert init[..k] == files[..k];
      WithFilesLast(c, files);
      PrefixOfAppend(WithFiles(c, files[..k]).lines, WithFiles(c, init).lines,
        KindLines(KindOf(files[|files| - 1]), GetFileName(files[|files| - 1]), WithFiles(c, init).track));
    }
  }

  /** The header stays the first four lines whatever the listing holds, and
      the lines of a shorter listing are never rewritten by a longer one. */
  lemma CueAppendOnly(isoFilePath: string, listing: seq<string>, k: nat)
    requires k <= |listing|
    ensures var cue := CueFor(isoFilePath, listing);
      && 4 <= |cue.lines|
      && cue.lines[..4] == [FileLine(GetFileName(isoFilePath), "BINARY"),
                            "  TRACK 01 MODE1/2048", "      INDEX 01 00:00:00", "      POSTGAP 00:02:00"]
      && CueFor(isoFilePath, listing[..k]).lines <= cue.lines
  {
    var header := WithHeader(Cue([], 1), isoFilePath);
    WithFilesExtends(header, listing);
    WithFilesAppendOnly(header, listing, k);
    LowTrackNumbers();
    assert header.lines == HeaderLines(isoFilePath, 1);
  }

  /** The lines of the j-th listed file follow the lines of the files
      before it, with the counter they left. */
  lemma ListedFileBlock(c: Cue, files: seq<string>, j: nat)
    requires j < |files|
    ensures var before := WithFiles(c, files[..j]);
      before.lines + KindLines(KindOf(files[j]), GetFileName(files[j]), before.track) <= WithFiles(c, files).lines
  {
    var pre := files[..j + 1];
    assert pre[..j] == files[..j];
    assert pre[j] == files[j];
    WithFilesLast(c, pre);
    var before := WithFiles(c, files[..j]);
    var added := KindLines(KindOf(files[j]), GetFileName(files[j]), before.track);
    assert WithFiles(c, pre).lines == before.lines + added;
    WithFilesAppendOnly(c, files, j + 1);
  }

  /** The lines an audio file gets: its FILE line and, right after it, the
      TRACK line numbered 2 plus the count of audio files listed before it. */
  lemma AudioFileTrackNumber(isoFilePath: string, listing: seq<string>, j: nat)
    requires j < |listing| && IsAudioTrack(KindOf(listing[j]))
    ensures var lines := CueFor(isoFilePath, listing).lines;
      exists p :: 0 <= p && p + 1 < |lines|
        && lines[p] == FileLine(GetFileName(listing[j]), FileType(KindOf(listing[j])))
        && lines[p + 1] == TrackLine(2 + AudioCount(listing[..j]), "AUDIO")
  {
    var header := WithHeader(Cue([], 1), isoFilePath);
    var before := WithFiles(header, listing[..j]);
    var kind, name := KindOf(listing[j]), GetFileName(listing[j]);
    ListedFileBlock(header, listing, j);
    WithFilesCounter(header, listing[..j]);
    AudioFileLines(kind, name, before.track);
    var lines := CueFor(isoFilePath, listing).lines;
    var p := |before.lines|;
    var added := KindLines(kind, name, before.track);
    assert lines[p] == added[0] && lines[p + 1] == added[1];
  }

  // ----- PREGAP -----

  lemma PregapsOfMp3(name: string, track: int)
    ensures PregapLine !in KindLines(Mp3, name, track)
  {
    FileLineShape(name, "MP3");
  }

  lemma PregapsOfAudio(kind: FileKind, name: string, track: int)
    requires IsAudioTrack(kind)
    ensures multiset(KindLines(kind, name, track))[PregapLine] == if track == 2 then 1 else 0
    ensures PregapLine in KindLines(kind, name, track) <==> track == 2
  {
    AudioLinesParts(kind, name, track);
    AudioPartsShapes(kind, name, track);
    CountInParts(PregapLine, FileLine(name, FileType(kind)), TrackLine(track, "AUDIO"), PregapSlot(track), AudioIndexLine);
    assert multiset(PregapSlot(track))[PregapLine] == if track == 2 then 1 else 0;
  }

  /** PREGAP lines one listed file contributes: one exactly when it is an
      audio track numbered 02. */
  lemma PregapsOfKind(kind: FileKind, name: string, track: int)
    ensures multiset(KindLines(kind, name, track))[PregapLine]
      == if IsAudioTrack(kind) && track == 2 then 1 else 0
  {
    if kind == Mp3 {
      PregapsOfMp3(name, track);
    } else if IsAudioTrack(kind) {
      PregapsOfAudio(kind, name, track);
    } else {
      assert KindLines(kind, name, track) == [];
    }
  }

  lemma {:induction false} WithFilesPregapCount(c: Cue, files: seq<string>)
    ensures var d := WithFiles(c, files);
      multiset(d.lines)[PregapLine]
        == multiset(c.lines)[PregapLine] + (if c.track <= 2 < d.track then 1 else 0)
    decreases |files|
  {
    if files != [] {
      var init, file := files[..|files| - 1], files[|files| - 1];
      var mid := WithFiles(c, init);
      WithFilesPregapCount(c, init);
      WithFilesCounter(c, init);
      PregapsOfKind(KindOf(file), GetFileName(file), mid.track);
    }
  }

  lemma PlacementOfMp3(lines: seq<string>, name: string, track: int)
    requires PregapFollowsTrack02(lines)
    ensures PregapFollowsTrack02(lines + KindLines(Mp3, name, track))
  {
    FileLineShape(name, "MP3");
    PlacementAppend(lines, [FileLine(name, "MP3")]);
  }

  lemma PlacementOfAudio(lines: seq<string>, kind: FileKind, name: string, track: int)
    requires IsAudioTrack(kind) && PregapFollowsTrack02(lines)
    ensures PregapFollowsTrack02(lines + KindLines(kind, name, track))
  {
    var f, t := FileLine(name, FileType(kind)), TrackLine(track, "AUDIO");
    AudioLinesParts(kind, name, track);
    AudioPartsShapes(kind, name, track);
    PlacementInParts(f, t, PregapSlot(track), AudioIndexLine);
    PlacementAppend(lines, KindLines(kind, name, track));
  }

  lemma PregapPlacementOfKind(lines: seq<string>, kind: FileKind, name: string, track: int)
    requires PregapFollowsTrack02(lines)
    ensures PregapFollowsTrack02(lines + KindLines(kind, name, track))
  {
    if kind == Mp3 {
      PlacementOfMp3(lines, name, track);
    } else if IsAudioTrack(kind) {
      PlacementOfAudio(lines, kind, name, track);
    } else {
      assert lines + KindLines(kind, name, track) == lines;
    }
  }

  lemma {:induction false} WithFilesPregapPlacement(c: Cue, files: seq<string>)
    requires PregapFollowsTrack02(c.lines)
    ensures PregapFollowsTrack02(WithFiles(c, files).lines)
    decreases |files|
  {
    if files != [] {
      var init := files[..|files| - 1];
      WithFilesPregapPlacement(c, init);
      var file := files[|files| - 1];
      PregapPlacementOfKind(WithFiles(c, init).lines, KindOf(file), GetFileName(file), WithFiles(c, init).track);
    }
  }

  /** A run has exactly one PREGAP line when the listing holds an audio file
      and none otherwise, and it always follows `  TRACK 02 AUDIO`. */
  lemma CuePregap(isoFilePath: string, listing: seq<string>)
    ensures var lines := CueFor(isoFilePath, listing).lines;
      && multiset(lines)[PregapLine] == (if AudioCount(listing) > 0 then 1 else 0)
      && PregapFollowsTrack02(lines)
  {
    var header := WithHeader(Cue([], 1), isoFilePath);
    FileLineShape(GetFileName(isoFilePath), "BINARY");
    TrackLineShape(1, "MODE1/2048");
    FixedLineShapes();
    assert multiset(header.lines)[PregapLine] == 0;
    assert PregapFollowsTrack02(header.lines);
    WithFilesPregapCount(header, listing);
    WithFilesCounter(header, listing);
    WithFilesPregapPlacement(header, listing);
  }

  // ----- MP3 files -----

  lemma AudioFileLines(kind: FileKind, name: string, track: int)
    requires IsAudioTrack(kind)
    ensures var added := KindLines(kind, name, track);
      && |added| == (if track == 2 then 4 else 3)
      && added[0] == FileLine(name, FileType(kind))
      && added[1] == TrackLine(track, "AUDIO")
      && added[|added| - 1] == AudioIndexLine
      && (PregapLine in added <==> track == 2)
  {
    AudioLinesParts(kind, name, track);
    PartsLayout(FileLine(name, FileType(kind)), TrackLine(track, "AUDIO"), PregapSlot(track), AudioIndexLine);
    PregapsOfAudio(kind, name, track);
  }

  /** What one file appends, by kind: an MP3 file a lone FILE line and no
      track, an audio file a FILE, a TRACK and an INDEX line (with a PREGAP
      only as track 02) and one more on the counter, anything else nothing. */
  lemma AppendFileByKind(kind: FileKind, name: string, track: int)
    ensures var added := KindLines(kind, name, track);
      && (kind == Ignored ==> added == [] && NextTrack(kind, track) == track)
      && (kind == Mp3 ==>
            added == [FileLine(name, "MP3")] && TrackLines(added) == [] && NextTrack(kind, track) == track)
      && (IsAudioTrack(kind) ==>
            && NextTrack(kind, track) == track + 1
            && |added| == (if track == 2 then 4 else 3)
            && added[0] == FileLine(name, FileType(kind))
            && added[1] == TrackLine(track, "AUDIO")
            && added[|added| - 1] == AudioIndexLine
            && (PregapLine in added <==> track == 2))
  {
    if kind == Mp3 {
      TrackLinesOfMp3(name, track);
    } else if IsAudioTrack(kind) {
      AudioFileLines(kind, name, track);
    } else {
      assert KindLines(kind, name, track) == [];
    }
  }

  lemma DangleOfMp3(lines: seq<string>, name: string, track: int)
    requires Mp3FileLinesDangle(lines)
    ensures Mp3FileLinesDangle(lines + KindLines(Mp3, name, track))
  {
    FileLineShape(name, "MP3");
    DangleAppend(lines, [FileLine(name, "MP3")]);
  }

  lemma DangleOfAudio(lines: seq<string>, kind: FileKind, name: string, track: int)
    requires IsAudioTrack(kind) && Mp3FileLinesDangle(lines)
    ensures Mp3FileLinesDangle(lines + KindLines(kind, name, track))
  {
    AudioLinesParts(kind, name, track);
    AudioPartsShapes(kind, name, track);
    NoMp3InParts(FileLine(name, FileType(kind)), TrackLine(track, "AUDIO"), PregapSlot(track), AudioIndexLine);
    DangleAppend(lines, KindLines(kind, name, track));
  }

  lemma Mp3DangleOfKind(lines: seq<string>, kind: FileKind, name: string, track: int)
    requires Mp3FileLinesDangle(lines)
    ensures Mp3FileLinesDangle(lines + KindLines(kind, name, track))
  {
    if kind == Mp3 {
      DangleOfMp3(lines, name, track);
    } else if IsAudioTrack(kind) {
      DangleOfAudio(lines, kind, name, track);
    } else {
      assert lines + KindLines(kind, name, track) == lines;
    }
  }

  lemma {:induction false} WithFilesMp3Dangle(c: Cue, files: seq<string>)
    requires Mp3FileLinesDangle(c.lines)
    ensures Mp3FileLinesDangle(WithFiles(c, files).lines)
    decreases |files|
  {
    if files != [] {
      var init := files[..|files| - 1];
      WithFilesMp3Dangle(c, init);
      var file := files[|files| - 1];
      Mp3DangleOfKind(WithFiles(c, init).lines, KindOf(file), GetFileName(file), WithFiles(c, init).track);
    }
  }

  /** The header has no MP3 FILE line. */
  lemma HeaderDangles(isoFilePath: string)
    ensures Mp3FileLinesDangle(HeaderLines(isoFilePath, 1))
  {
    FileLineShape(GetFileName(isoFilePath), "BINARY");
    TrackLineShape(1, "MODE1/2048");
    FixedLineShapes();
    var h := HeaderLines(isoFilePath, 1);
    forall i | 0 <= i < |h|
      ensures !IsMp3FileLine(h[i])
    {
    }
  }

  /** An MP3 file of the listing leaves its FILE line in the cue. */
  lemma Mp3FileLineKept(isoFilePath: string, listing: seq<string>, j: nat)
    requires j < |listing| && KindOf(listing[j]) == Mp3
    ensures FileLine(GetFileName(listing[j]), "MP3") in CueFor(isoFilePath, listing).lines
  {
    var header := WithHeader(Cue([], 1), isoFilePath);
    var before := WithFiles(header, listing[..j]);
    ListedFileBlock(header, listing, j);
    var added := KindLines(Mp3, GetFileName(listing[j]), before.track);
    assert CueFor(isoFilePath, listing).lines[|before.lines|] == added[0];
  }

  /** In a whole run every MP3 FILE line is left without TRACK and INDEX
      lines, while each MP3 file of the listing does get its FILE line. */
  lemma CueMp3FilesDangle(isoFilePath: string, listing: seq<string>)
    ensures var lines := CueFor(isoFilePath, listing).lines;
      && Mp3FileLinesDangle(lines)
      && forall j :: 0 <= j < |listing| && KindOf(listing[j]) == Mp3 ==>
           FileLine(GetFileName(listing[j]), "MP3") in lines
  {
    var header := WithHeader(Cue([], 1), isoFilePath);
    HeaderDangles(isoFilePath);
    assert header.lines == HeaderLines(isoFilePath, 1);
    WithFilesMp3Dangle(header, listing);
    forall j | 0 <= j < |listing| && KindOf(listing[j]) == Mp3
      ensures FileLine(GetFileName(listing[j]), "MP3") in CueFor(isoFilePath, listing).lines
    {
      Mp3FileLineKept(isoFilePath, listing, j);
    }
  }

  // ----- classification -----

  /** Extension matching ignores case: two paths that agree once lower-cased
      are treated alike (so "A.BIN", "a.Bin" and "a.bin" all become tracks). */
  lemma KindIgnoresCase(a: string, b: string)
    requires ToLowerInvariant(a) == ToLowerInvariant(b)
    ensures KindOf(a) == KindOf(b)
  {
    ExtensionOfLowered(a);
    ExtensionOfLowered(b);
    ToLowerInvariantIdempotent(GetExtension(a));
    ToLowerInvariantIdempotent(GetExtension(b));
  }

  /** A file named stem + ext, in any folder (the empty folder leaves the
      bare name), is classified by its extension lower-cased. */
  lemma KindByExtension(folder: string, stem: string, ext: string)
    requires NoneIn(stem, Separators) && IsExtension(ext)
    ensures var kind, low := KindOf(Combine(folder, stem + ext)), ToLowerInvariant(ext);
      && (kind == Mp3 <==> low == ".mp3")
      && (kind == Binary <==> low == ".bin")
      && (kind == Wave <==> low == ".wav" || low == ".wave")
  {
    CombineNamed(folder, stem, ext);
    KindOfExtension(Combine(folder, stem + ext));
  }

  /** ".BIN" is an extension, and it lower-cases to ".bin". */
  lemma UpperBin()
    ensures IsExtension(".BIN") && ToLowerInvariant(".BIN") == ".bin"
  {
  }

  /** ".WAV" is an extension, and it lower-cases to ".wav". */
  lemma UpperWav()
    ensures IsExtension(".WAV") && ToLowerInvariant(".WAV") == ".wav"
  {
  }

  /** An upper-case ".BIN" makes a BINARY track, whatever the stem. */
  lemma UpperCaseBin(folder: string, stem: string)
    requires NoneIn(stem, Separators)
    ensures KindOf(Combine(folder, stem + ".BIN")) == Binary
  {
    UpperBin();
    KindByExtension(folder, stem, ".BIN");
  }

  /** An upper-case ".WAV" makes a WAVE track, whatever the stem. */
  lemma UpperCaseWav(folder: string, stem: string)
    requires NoneIn(stem, Separators)
    ensures KindOf(Combine(folder, stem + ".WAV")) == Wave
  {
    UpperWav();
    KindByExtension(folder, stem, ".WAV");
  }

  // ----- the run and its output path -----

  /** The run fails with "No ISO found in path: ..." or "Multiple ISO found
      in path: ..." unless there is exactly one disc image, and then its
      cue is written next to it. */
  lemma RunOutcome(folderPath: string, isos: seq<string>, listing: seq<string>)
    ensures var r := Run(folderPath, isos, listing);
      && (r.Success? <==> |isos| == 1)
      && (|isos| == 0 ==> r.Failure? && r.error.Message() == "No ISO found in path: " + folderPath)
      && (|isos| > 1 ==> r.Failure? && r.error.Message() == "Multiple ISO found in path: " + folderPath)
      && (|isos| == 1 ==> r.Success? && r.value == CueFile(CueFilePath(folderPath, isos[0]), CueFor(isos[0], listing).lines))
  {
  }

  /** The cue file is named after the disc image: same stem, extension
      ".cue", as the final component of a path under the folder. */
  lemma CueFileNaming(folderPath: string, isoFilePath: string)
    ensures var path, stem := CueFilePath(folderPath, isoFilePath), GetFileNameWithoutExtension(isoFilePath);
      && GetFileName(path) == stem + ".cue"
      && GetExtension(path) == ".cue"
      && GetFileNameWithoutExtension(path) == stem
  {
    var stem := GetFileNameWithoutExtension(isoFilePath);
    StemIsSeparatorFree(isoFilePath);
    AddExtension(stem, ".cue");
    CombineFileName(folderPath, stem + ".cue");
  }
}
