/** Key generation: the names under which partials, helpers and decorators
    are registered, derived from a file's resolved path and its resolved base
    directory (index.js:34-62), and the name `partials` gives a template file
    (index.js:145-146). Paths are taken as already resolved: symbolic-link
    resolution is file-system I/O and stays outside the model. */
module Keygen {

  const PathSeparator: char := '/'
  const WordSeparator: char := '-'

  /** `[\\/]` */
  predicate IsPathSeparator(c: char)
    ensures IsPathSeparator(c) ==> !IsWordChar(c) && !IsWhitespace(c) && c != WordSeparator
  {
    c == '/' || c == '\\'
  }

  /** ECMAScript `\s`: the WhiteSpace and LineTerminator code points. */
  predicate IsWhitespace(c: char)
    ensures IsWhitespace(c) ==> !IsWordChar(c) && c != WordSeparator && c != '.'
  {
    || c == '\t' || c == '\n' || c == '\U{000B}' || c == '\U{000C}' || c == '\r' || c == ' '
    || c == '\U{00A0}' || c == '\U{1680}' || ('\U{2000}' <= c <= '\U{200A}')
    || c == '\U{2028}' || c == '\U{2029}' || c == '\U{202F}' || c == '\U{205F}'
    || c == '\U{3000}' || c == '\U{FEFF}'
  }

  /** `\w`: `[A-Za-z0-9_]` */
  predicate IsWordChar(c: char)
    ensures IsWordChar(c) ==> c != WordSeparator && c != PathSeparator && c != '.'
  {
    ('a' <= c <= 'z') || ('A' <= c <= 'Z') || ('0' <= c <= '9') || c == '_'
  }

  /** `\W` */
  predicate IsNonWord(c: char)
    ensures IsWhitespace(c) || IsPathSeparator(c) || c == WordSeparator || c == '.' ==> IsNonWord(c)
  {
    !IsWordChar(c)
  }

  /** ASCII case folding, standing in for the case-insensitive (`i`) match. */
  function Fold(c: char): (r: char)
    ensures 'A' <= c <= 'Z' ==> 'a' <= r <= 'z' && r as int - c as int == 'a' as int - 'A' as int
    ensures !('A' <= c <= 'Z') ==> r == c
    ensures !('A' <= r <= 'Z')
  {
    if 'A' <= c <= 'Z' then (c as int + 32) as char else c
  }

  /** `s.replace(/[\\/]/g, '/')` */
  function NormalizeSeparators(s: string): (r: string)
    ensures |r| == |s|
    ensures forall i :: 0 <= i < |r| ==> r[i] == (if IsPathSeparator(s[i]) then PathSeparator else s[i])
  {
    if s == [] then [] else [if IsPathSeparator(s[0]) then PathSeparator else s[0]] + NormalizeSeparators(s[1..])
  }

  /** `^prefix` matched case-insensitively at the start of `s`. */
  predicate StartsWithIgnoringCase(prefix: string, s: string)
    ensures StartsWithIgnoringCase(prefix, s) ==> |prefix| <= |s|
    ensures prefix <= s ==> StartsWithIgnoringCase(prefix, s)
  {
    |prefix| <= |s| && forall i :: 0 <= i < |prefix| ==> Fold(prefix[i]) == Fold(s[i])
  }

  /** The short path (index.js:38-45): both paths get `/` separators, and the
      base followed by `/` is removed from the front of the full path when it
      is a case-insensitive prefix of it. */
  function ShortPath(fullPath: string, basePath: string): (r: string)
    ensures var full := NormalizeSeparators(fullPath);
            var base := NormalizeSeparators(basePath) + [PathSeparator];
            && (StartsWithIgnoringCase(base, full) ==> r == full[|base|..])
            && (!StartsWithIgnoringCase(base, full) ==> r == full)
            && (|r| < |full| <==> StartsWithIgnoringCase(base, full))
    ensures '\\' !in r
  {
    var full := NormalizeSeparators(fullPath);
    var base := NormalizeSeparators(basePath) + [PathSeparator];
    if StartsWithIgnoringCase(base, full) then full[|base|..] else full
  }

  /** `p` without its trailing `/` characters. */
  function TrimTrailingSlashes(p: string): (r: string)
    ensures r <= p
    ensures r == [] || r[|r| - 1] != PathSeparator
    ensures forall i :: |r| <= i < |p| ==> p[i] == PathSeparator
  {
    if p != [] && p[|p| - 1] == PathSeparator then TrimTrailingSlashes(p[..|p| - 1]) else p
  }

  /** The text after the last `/` of `p`. */
  function LastComponent(p: string): (r: string)
    ensures |r| <= |p|
    ensures PathSeparator !in r
    ensures |r| == |p| || p[|p| - |r| - 1] == PathSeparator
  {
    if p == [] || p[|p| - 1] == PathSeparator then [] else LastComponent(p[..|p| - 1]) + [p[|p| - 1]]
  }

  /** Node's POSIX `path.basename(p)`: the last component, trailing `/` ignored. */
  function BaseName(p: string): (r: string)
    ensures |r| <= |p|
    ensures PathSeparator !in r
    ensures var t := TrimTrailingSlashes(p);
            |r| <= |t| && (|r| == |t| || t[|t| - |r| - 1] == PathSeparator)
  {
    LastComponent(TrimTrailingSlashes(p))
  }

  /** Index of the last occurrence of `c` in `s`, or -1. */
  function LastIndexOf(s: string, c: char): (i: int)
    ensures -1 <= i < |s|
    ensures 0 <= i ==> s[i] == c
    ensures forall j :: i < j < |s| ==> s[j] != c
  {
    if s == [] then -1 else if s[|s| - 1] == c then |s| - 1 else LastIndexOf(s[..|s| - 1], c)
  }

  /** The extension of one path component: from its last `.` on, unless that
      dot is its first character or the component is `..`. */
  function ComponentExtension(name: string): (ext: string)
    ensures |ext| <= |name|
    ensures ext == [] || (ext[0] == '.' && '.' !in ext[1..] && |ext| < |name|)
    ensures PathSeparator !in name ==> PathSeparator !in ext
    ensures ext != [] <==> name != ".." && exists i :: 0 < i < |name| && name[i] == '.'
  {
    var d := LastIndexOf(name, '.');
    if d <= 0 || name == ".." then []
    else
      assert forall j :: 0 <= j < |name| - d ==> name[d..][j] == name[d + j];
      name[d..]
  }

  /** Node's POSIX `path.extname(p)`. */
  function ExtName(p: string): (ext: string)
    ensures ext == [] || (ext[0] == '.' && PathSeparator !in ext && '.' !in ext[1..])
    ensures |ext| < |BaseName(p)| || ext == []
    ensures var name := BaseName(p);
            ext != [] <==> name != ".." && exists i :: 0 < i < |name| && name[i] == '.'
  {
    ComponentExtension(BaseName(p))
  }

  /** `s.substr(0, s.length - path.extname(s).length)` (index.js:46-49) */
  function StripExtension(s: string): (r: string)
    ensures r <= s
    ensures |s| - |r| == |ExtName(s)|
  {
    s[..|s| - |ExtName(s)|]
  }

  /** `s` with its leading run of characters satisfying `inRun` removed. */
  function SkipRun(s: string, inRun: char -> bool): (r: string)
    ensures |r| <= |s| && r == s[|s| - |r|..]
    ensures r == [] || !inRun(r[0])
    ensures forall i :: 0 <= i < |s| - |r| ==> inRun(s[i])
  {
    if s != [] && inRun(s[0]) then SkipRun(s[1..], inRun) else s
  }

  /** `s.replace(/X+/g, '-')` for a character class X given by `inRun`:
      every maximal run of class characters becomes one `-`. */
  function CollapseRuns(s: string, inRun: char -> bool): (r: string)
    ensures |r| <= |s|
    ensures r == [] <==> s == []
    ensures forall i :: 0 <= i < |r| ==> r[i] == WordSeparator || (!inRun(r[i]) && r[i] in s)
    ensures s != [] && inRun(s[0]) ==> r[0] == WordSeparator
    ensures s != [] && !inRun(s[0]) ==> r[0] == s[0]
    decreases |s|
  {
    if s == [] then []
    else if inRun(s[0]) then [WordSeparator] + CollapseRuns(SkipRun(s[1..], inRun), inRun)
    else [s[0]] + CollapseRuns(s[1..], inRun)
  }

  /** The partial key (index.js:34-51). */
  function KeygenPartial(filePath: string, fileBase: string): (key: string)
    ensures forall i :: 0 <= i < |key| ==> !IsWhitespace(key[i]) && key[i] != '\\'
  {
    var short := ShortPath(filePath, fileBase);
    var stem := StripExtension(short);
    assert '\\' !in stem by {
      forall i | 0 <= i < |stem| ensures stem[i] != '\\' {
        assert stem[i] == short[i];
      }
    }
    CollapseRuns(stem, IsWhitespace)
  }

  /** The helper key (index.js:53-58): the partial key with every run of
      non-word characters, separators included, collapsed to one `-`. */
  function KeygenHelper(filePath: string, fileBase: string): (key: string)
    ensures forall i :: 0 <= i < |key| ==> IsWordChar(key[i]) || key[i] == WordSeparator
  {
    CollapseRuns(KeygenPartial(filePath, fileBase), IsNonWord)
  }

  /** The decorator key (index.js:60-62) is the helper key. */
  function KeygenDecorator(filePath: string, fileBase: string): (key: string)
    ensures key == KeygenHelper(filePath, fileBase)
    ensures forall i :: 0 <= i < |key| ==> IsWordChar(key[i]) || key[i] == WordSeparator
  {
    KeygenHelper(filePath, fileBase)
  }

  /** `s.split('.')[0]` */
  function BeforeFirstDot(s: string): (r: string)
    ensures r <= s
    ensures '.' !in r
    ensures |r| < |s| ==> s[|r|] == '.'
  {
    if s == [] || s[0] == '.' then [] else [s[0]] + BeforeFirstDot(s[1..])
  }

  /** The name `partials` registers a template file under (index.js:145-146):
      the base name up to its first dot. */
  function PartialName(filePath: string): (name: string)
    ensures name <= BaseName(filePath)
    ensures '.' !in name && PathSeparator !in name
    ensures |name| < |BaseName(filePath)| ==> BaseName(filePath)[|name|] == '.'
  {
    BeforeFirstDot(BaseName(filePath))
  }
}
