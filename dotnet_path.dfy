/** The parts of `System.IO.Path` the cue builder calls, with Windows
    separator rules: both '\' and '/' separate directories, and a
    combined path is joined with '\'. */
module DotNetPath {
  import opened DotNetText

  const DirectorySeparatorChar: char := '\\'
  const Separators: set<char> := {'\\', '/'}

  predicate NoneIn(s: string, chars: set<char>)
  {
    forall i :: 0 <= i < |s| ==> s[i] !in chars
  }

  /** Index of the last character of `s` that is in `chars`, or -1. */
  function LastIndexOfAny(s: string, chars: set<char>): (i: int)
    ensures -1 <= i < |s|
    ensures 0 <= i ==> s[i] in chars
    ensures forall j :: i < j < |s| ==> s[j] !in chars
    decreases |s|
  {
    if s == [] then -1
    else if s[|s| - 1] in chars then |s| - 1
    else LastIndexOfAny(s[..|s| - 1], chars)
  }

  /** `Path.GetFileName`: what follows the last separator. */
  function GetFileName(path: string): string
  {
    path[LastIndexOfAny(path, Separators) + 1..]
  }

  /** The file name is the final component: the longest suffix free of
      separators. */
  lemma FileNameIsFinalComponent(path: string)
    ensures var name := GetFileName(path);
      && |name| <= |path| && path[|path| - |name|..] == name
      && NoneIn(name, Separators)
      && (|name| < |path| ==> path[|path| - |name| - 1] in Separators)
  {
  }

  const Dot: set<char> := {'.'}

  /** The extension of one path component: its tail from the last '.',
      empty when the component has no '.' or ends with one. */
  function ExtensionOfName(name: string): string
  {
    var dot := LastIndexOfAny(name, Dot);
    if dot < 0 || dot == |name| - 1 then "" else name[dot..]
  }

  /** One path component cut before its last '.', or the whole component
      when it has none. */
  function NameWithoutExtension(name: string): string
  {
    var dot := LastIndexOfAny(name, Dot);
    if dot < 0 then name else name[..dot]
  }

  /** What `GetExtension` can return when it is not empty: a dot, then at
      least one character, with no separator and no further dot. */
  predicate IsExtension(ext: string)
  {
    2 <= |ext| && ext[0] == '.' && NoneIn(ext, Separators) && NoneIn(ext[1..], Dot)
  }

  /** An extension is a dot and at least one more character, the tail of the
      component after its last dot; it is empty exactly when the component
      has no dot or ends with one. */
  lemma ExtensionIsAfterLastDot(name: string)
    ensures var ext := ExtensionOfName(name);
      && (ext == [] || (2 <= |ext| && ext[0] == '.'))
      && |ext| <= |name| && name[|name| - |ext|..] == ext
      && (ext != [] ==> NoneIn(ext[1..], Dot))
      && (ext == [] <==> NoneIn(name, Dot) || name[|name| - 1] == '.')
  {
  }

  /** The stem is the head of the component before its last dot, and the
      whole component exactly when there is no dot. */
  lemma StemIsBeforeLastDot(name: string)
    ensures var stem := NameWithoutExtension(name);
      && |stem| <= |name| && name[..|stem|] == stem
      && (stem == name <==> NoneIn(name, Dot))
      && (|stem| < |name| ==> name[|stem|] == '.' && NoneIn(name[|stem| + 1..], Dot))
  {
  }

  /** `Path.GetExtension`. */
  function GetExtension(path: string): string
  {
    ExtensionOfName(GetFileName(path))
  }

  /** `Path.GetFileNameWithoutExtension`. */
  function GetFileNameWithoutExtension(path: string): string
  {
    NameWithoutExtension(GetFileName(path))
  }

  /** An ASCII letter, the only characters .NET accepts as a drive. */
  predicate IsDriveLetter(c: char) { 'A' <= c <= 'Z' || 'a' <= c <= 'z' }

  /** Windows `Path.IsPathRooted`: a leading separator, or a drive letter
      followed by ':'. */
  predicate IsPathRooted(s: string)
  {
    (1 <= |s| && s[0] in Separators) || (2 <= |s| && IsDriveLetter(s[0]) && s[1] == ':')
  }

  /** `Path.Combine(first, second)`. */
  function Combine(first: string, second: string): string
  {
    if first == [] then second
    else if second == [] then first
    else if IsPathRooted(second) then second
    else if first[|first| - 1] in Separators || second[0] in Separators then first + second
    else first + [DirectorySeparatorChar] + second
  }

  /** A component is its stem followed by its extension, or by the single
      dot it ends with (`"a."` has extension "" and stem "a"). */
  lemma StemAndExtension(name: string)
    ensures if |name| > 0 && name[|name| - 1] == '.'
      then NameWithoutExtension(name) + "." == name
      else NameWithoutExtension(name) + ExtensionOfName(name) == name
  {
    var dot := LastIndexOfAny(name, Dot);
    if dot >= 0 {
      assert name == name[..dot] + name[dot..];
    }
  }

  /** Adding an extension to a stem is undone by taking the extension and
      the stem apart again. */
  lemma AddExtension(stem: string, ext: string)
    requires NoneIn(stem, Separators)
    requires IsExtension(ext)
    ensures NoneIn(stem + ext, Separators)
    ensures ExtensionOfName(stem + ext) == ext
    ensures NameWithoutExtension(stem + ext) == stem
  {
    var name := stem + ext;
    forall i | 0 <= i < |name| ensures name[i] !in Separators {
      if i < |stem| { assert name[i] == stem[i]; } else { assert name[i] == ext[i - |stem|]; }
    }
    assert name[|stem| + 1..] == ext[1..];
    LastIndexBeforeSuffix(name, |stem| + 1, Dot);
    assert name[|stem|..] == ext;
    assert name[..|stem|] == stem;
  }

  /** The stem of a path has no separators. */
  lemma StemIsSeparatorFree(path: string)
    ensures NoneIn(GetFileNameWithoutExtension(path), Separators)
  {
    FileNameIsFinalComponent(path);
    var name := GetFileName(path);
    StemIsBeforeLastDot(name);
    var stem := NameWithoutExtension(name);
    forall i | 0 <= i < |stem| ensures stem[i] !in Separators {
      assert stem[i] == name[i];
    }
  }

  /** Combining a folder with a plain file name yields a path whose final
      component is that name. */
  lemma {:induction false} CombineFileName(first: string, second: string)
    requires second != [] && NoneIn(second, Separators)
    ensures GetFileName(Combine(first, second)) == second
  {
    var r := Combine(first, second);
    assert r[|r| - |second|..] == second;
    if |r| > |second| {
      assert r[|r| - |second| - 1] in Separators;
    }
    LastIndexBeforeSuffix(r, |r| - |second|, Separators);
  }

  /** A file named stem + ext in any folder: its name, its extension and
      its stem come back out of the combined path unchanged. */
  lemma CombineNamed(folder: string, stem: string, ext: string)
    requires NoneIn(stem, Separators)
    requires IsExtension(ext)
    ensures GetFileName(Combine(folder, stem + ext)) == stem + ext
    ensures GetExtension(Combine(folder, stem + ext)) == ext
    ensures GetFileNameWithoutExtension(Combine(folder, stem + ext)) == stem
  {
    AddExtension(stem, ext);
    CombineFileName(folder, stem + ext);
  }

  /** When a string ends with a suffix free of `chars` preceded by one of
      `chars` (or by nothing), the last occurrence is just before the suffix. */
  lemma LastIndexBeforeSuffix(s: string, k: nat, chars: set<char>)
    requires k <= |s|
    requires NoneIn(s[k..], chars)
    requires k > 0 ==> s[k - 1] in chars
    ensures LastIndexOfAny(s, chars) == k - 1
  {
  }

  /** Lower-casing a path does not move its separators or dots. */
  lemma {:induction false} LastIndexOfAnyLower(s: string, chars: set<char>)
    requires forall c :: c in chars ==> !IsUpper(c) && !('a' <= c <= 'z')
    ensures LastIndexOfAny(ToLowerInvariant(s), chars) == LastIndexOfAny(s, chars)
    decreases |s|
  {
    if s != [] {
      var t := ToLowerInvariant(s);
      assert t[..|t| - 1] == ToLowerInvariant(s[..|s| - 1]);
      LastIndexOfAnyLower(s[..|s| - 1], chars);
    }
  }

  /** Lower-casing commutes with taking the final component. */
  lemma FileNameOfLowered(path: string)
    ensures GetFileName(ToLowerInvariant(path)) == ToLowerInvariant(GetFileName(path))
  {
    LastIndexOfAnyLower(path, Separators);
    var k := LastIndexOfAny(path, Separators) + 1;
    assert ToLowerInvariant(path)[k..] == ToLowerInvariant(path[k..]);
  }

  /** Lower-casing commutes with taking the extension of a component. */
  lemma ExtensionOfNameLowered(name: string)
    ensures ExtensionOfName(ToLowerInvariant(name)) == ToLowerInvariant(ExtensionOfName(name))
  {
    LastIndexOfAnyLower(name, Dot);
    var dot := LastIndexOfAny(name, Dot);
    if 0 <= dot < |name| - 1 {
      assert ToLowerInvariant(name)[dot..] == ToLowerInvariant(name[dot..]);
    }
  }

  /** Case-insensitive matching: the extension of a lower-cased path is the
      lower-cased extension. */
  lemma ExtensionOfLowered(path: string)
    ensures GetExtension(ToLowerInvariant(path)) == ToLowerInvariant(GetExtension(path))
  {
    FileNameOfLowered(path);
    ExtensionOfNameLowered(GetFileName(path));
  }
}
