/** What the generated keys look like, proved about the definitions in Keygen. */
module KeygenProperties {
  import opened Keygen

  /** The characters of `s` that survive a collapse unchanged: everything that
      is neither in the collapsed class nor the separator `-` itself. */
  function Visible(s: string, inRun: char -> bool): (r: string)
    ensures |r| <= |s|
  {
    if s == [] then []
    else (if inRun(s[0]) || s[0] == WordSeparator then [] else [s[0]]) + Visible(s[1..], inRun)
  }

  /** No two separators in a row. */
  predicate NoDoubleSeparator(s: string) {
    forall i :: 0 <= i < |s| - 1 ==> !(s[i] == WordSeparator && s[i + 1] == WordSeparator)
  }

  lemma {:induction false} VisibleCons(c: char, s: string, inRun: char -> bool)
    ensures Visible([c] + s, inRun) == (if inRun(c) || c == WordSeparator then [] else [c]) + Visible(s, inRun)
  {
    assert ([c] + s)[1..] == s;
  }

  /** Skipping a run of class characters loses nothing visible. */
  lemma {:induction false} VisibleSkipRun(s: string, inRun: char -> bool)
    ensures Visible(SkipRun(s, inRun), inRun) == Visible(s, inRun)
    decreases |s|
  {
    if s != [] && inRun(s[0]) {
      VisibleSkipRun(s[1..], inRun);
    }
  }

  /** Collapsing keeps every visible character, in order: only class
      characters and separators are rewritten. */
  lemma {:induction false} CollapseKeepsVisible(s: string, inRun: char -> bool)
    ensures Visible(CollapseRuns(s, inRun), inRun) == Visible(s, inRun)
    decreases |s|
  {
    if s == [] {
    } else if inRun(s[0]) {
      var rest := SkipRun(s[1..], inRun);
      CollapseKeepsVisible(rest, inRun);
      VisibleSkipRun(s[1..], inRun);
      VisibleCons(WordSeparator, CollapseRuns(rest, inRun), inRun);
    } else {
      CollapseKeepsVisible(s[1..], inRun);
      VisibleCons(s[0], CollapseRuns(s[1..], inRun), inRun);
    }
  }

  /** When the separator belongs to the collapsed class, a collapse never
      leaves two separators side by side. */
  lemma {:induction false} CollapseNoDoubleSeparator(s: string, inRun: char -> bool)
    requires inRun(WordSeparator)
    ensures NoDoubleSeparator(CollapseRuns(s, inRun))
    decreases |s|
  {
    if s == [] {
    } else if inRun(s[0]) {
      var rest := SkipRun(s[1..], inRun);
      CollapseNoDoubleSeparator(rest, inRun);
      var tail := CollapseRuns(rest, inRun);
      assert tail != [] ==> tail[0] != WordSeparator;
      var r := [WordSeparator] + tail;
      forall i | 0 <= i < |r| - 1 ensures !(r[i] == WordSeparator && r[i + 1] == WordSeparator) {
        if i > 0 { assert r[i] == tail[i - 1] && r[i + 1] == tail[i]; }
      }
    } else {
      CollapseNoDoubleSeparator(s[1..], inRun);
      var tail := CollapseRuns(s[1..], inRun);
      var r := [s[0]] + tail;
      forall i | 0 <= i < |r| - 1 ensures !(r[i] == WordSeparator && r[i + 1] == WordSeparator) {
        if i > 0 { assert r[i] == tail[i - 1] && r[i + 1] == tail[i]; }
      }
    }
  }

  /** A string whose only class characters are isolated separators is left
      as it is. */
  lemma {:induction false} CollapseFixpoint(s: string, inRun: char -> bool)
    requires forall i :: 0 <= i < |s| && inRun(s[i]) ==> s[i] == WordSeparator
    requires forall i :: 0 <= i < |s| - 1 ==> !(inRun(s[i]) && inRun(s[i + 1]))
    ensures CollapseRuns(s, inRun) == s
    decreases |s|
  {
    if s != [] {
      CollapseFixpoint(s[1..], inRun);
      if inRun(s[0]) {
        assert SkipRun(s[1..], inRun) == s[1..];
      }
    }
  }

  /** Collapsing twice is collapsing once. */
  lemma CollapseIdempotent(s: string, inRun: char -> bool)
    ensures CollapseRuns(CollapseRuns(s, inRun), inRun) == CollapseRuns(s, inRun)
  {
    var r := CollapseRuns(s, inRun);
    if inRun(WordSeparator) {
      CollapseNoDoubleSeparator(s, inRun);
    }
    CollapseFixpoint(r, inRun);
  }

  /** A non-empty run made only of class characters becomes one `-`. */
  lemma CollapseWholeRun(s: string, inRun: char -> bool)
    requires s != [] && forall i :: 0 <= i < |s| ==> inRun(s[i])
    ensures CollapseRuns(s, inRun) == [WordSeparator]
  {
    SkipWholeRun(s[1..], inRun);
  }

  /** A string made only of class characters is skipped entirely. */
  lemma {:induction false} SkipWholeRun(s: string, inRun: char -> bool)
    requires forall i :: 0 <= i < |s| ==> inRun(s[i])
    ensures SkipRun(s, inRun) == []
    decreases |s|
  {
    if s != [] {
      SkipWholeRun(s[1..], inRun);
    }
  }

  /** Skipping a run across a join: the run ends inside `x` unless all of
      `x` belongs to it. */
  lemma {:induction false} SkipRunAppend(x: string, y: string, inRun: char -> bool)
    ensures SkipRun(x, inRun) != [] ==> SkipRun(x + y, inRun) == SkipRun(x, inRun) + y
    ensures SkipRun(x, inRun) == [] ==> SkipRun(x + y, inRun) == SkipRun(y, inRun)
    decreases |x|
  {
    if x == [] {
      assert x + y == y;
    } else {
      assert (x + y)[0] == x[0] && (x + y)[1..] == x[1..] + y;
      if inRun(x[0]) {
        SkipRunAppend(x[1..], y, inRun);
      }
    }
  }

  /** Collapsing works piece by piece when the pieces do not split a run:
      together with CollapseWholeRun this says every maximal run of class
      characters becomes exactly one `-` and nothing else changes. */
  lemma {:induction false} CollapseAppend(x: string, y: string, inRun: char -> bool)
    requires x == [] || y == [] || !inRun(x[|x| - 1]) || !inRun(y[0])
    ensures CollapseRuns(x + y, inRun) == CollapseRuns(x, inRun) + CollapseRuns(y, inRun)
    decreases |x|, 1
  {
    if x == [] {
      assert x + y == y;
    } else if inRun(x[0]) {
      CollapseAppendRun(x, y, inRun);
    } else {
      var xy := x + y;
      assert xy[0] == x[0] && xy[1..] == x[1..] + y;
      CollapseAppend(x[1..], y, inRun);
    }
  }

  /** CollapseAppend when `x` starts with a run. */
  lemma {:induction false} CollapseAppendRun(x: string, y: string, inRun: char -> bool)
    requires x != [] && inRun(x[0])
    requires y == [] || !inRun(x[|x| - 1]) || !inRun(y[0])
    ensures CollapseRuns(x + y, inRun) == CollapseRuns(x, inRun) + CollapseRuns(y, inRun)
    decreases |x|, 0
  {
    var r := SkipRun(x[1..], inRun);
    RunEndsInside(x, inRun);
    if r == [] {
      assert forall i :: 0 <= i < |x| ==> inRun(x[i]) by {
        forall i | 0 < i < |x| ensures inRun(x[i]) {
          assert x[i] == x[1..][i - 1];
        }
      }
      CollapseAppendWholeRun(x, y, inRun);
    } else {
      RunThenMore(x, y, inRun);
      CollapseRunHead(x, inRun);
      CollapseAppend(r, y, inRun);
      AppendAssociative([WordSeparator], CollapseRuns(r, inRun), CollapseRuns(y, inRun));
    }
  }

  /** Sequence concatenation is associative. */
  lemma AppendAssociative<T>(a: seq<T>, b: seq<T>, c: seq<T>)
    ensures a + (b + c) == (a + b) + c
  {
  }

  /** A run that ends inside `x`, followed by anything. */
  lemma RunThenMore(x: string, y: string, inRun: char -> bool)
    requires x != [] && inRun(x[0]) && SkipRun(x[1..], inRun) != []
    ensures CollapseRuns(x + y, inRun) == [WordSeparator] + CollapseRuns(SkipRun(x[1..], inRun) + y, inRun)
  {
    CollapseRunHead(x + y, inRun);
    SkipPastPartialRun(x, y, inRun);
  }

  /** Skipping a run that ends inside `x` does not reach `y`. */
  lemma SkipPastPartialRun(x: string, y: string, inRun: char -> bool)
    requires x != [] && SkipRun(x[1..], inRun) != []
    ensures SkipRun((x + y)[1..], inRun) == SkipRun(x[1..], inRun) + y
  {
    assert (x + y)[1..] == x[1..] + y;
    SkipRunAppend(x[1..], y, inRun);
  }

  /** CollapseAppend when all of `x` is one run. */
  lemma CollapseAppendWholeRun(x: string, y: string, inRun: char -> bool)
    requires x != [] && forall i :: 0 <= i < |x| ==> inRun(x[i])
    requires y == [] || !inRun(y[0])
    ensures CollapseRuns(x + y, inRun) == CollapseRuns(x, inRun) + CollapseRuns(y, inRun)
  {
    RunThenRest(x, y, inRun);
    CollapseWholeRun(x, inRun);
  }

  /** A run followed by a string that does not start in the class. */
  lemma RunThenRest(x: string, y: string, inRun: char -> bool)
    requires x != [] && forall i :: 0 <= i < |x| ==> inRun(x[i])
    requires y == [] || !inRun(y[0])
    ensures CollapseRuns(x + y, inRun) == [WordSeparator] + CollapseRuns(y, inRun)
  {
    assert (x + y)[0] == x[0];
    CollapseRunHead(x + y, inRun);
    SkipPastWholeRun(x, y, inRun);
  }

  /** Skipping the run at the head of `x + y` lands exactly on `y`. */
  lemma SkipPastWholeRun(x: string, y: string, inRun: char -> bool)
    requires x != [] && forall i :: 0 <= i < |x| ==> inRun(x[i])
    requires y == [] || !inRun(y[0])
    ensures SkipRun((x + y)[1..], inRun) == y
  {
    SkipTailOfRun(x, inRun);
    assert (x + y)[1..] == x[1..] + y;
    SkipRunAppend(x[1..], y, inRun);
  }

  /** All of a run after its first character is skipped. */
  lemma SkipTailOfRun(x: string, inRun: char -> bool)
    requires x != [] && forall i :: 0 <= i < |x| ==> inRun(x[i])
    ensures SkipRun(x[1..], inRun) == []
  {
    SkipWholeRun(x[1..], inRun);
  }

  /** A string starting with a run collapses to `-` and the collapse of what
      follows the run. */
  lemma CollapseRunHead(s: string, inRun: char -> bool)
    requires s != [] && inRun(s[0])
    ensures CollapseRuns(s, inRun) == [WordSeparator] + CollapseRuns(SkipRun(s[1..], inRun), inRun)
  {
  }

  /** After a leading run, either the whole string was the run, or what is
      left ends where the string ends. */
  lemma RunEndsInside(x: string, inRun: char -> bool)
    requires x != [] && inRun(x[0])
    ensures SkipRun(x[1..], inRun) == [] ==> inRun(x[|x| - 1])
    ensures SkipRun(x[1..], inRun) != [] ==>
              SkipRun(x[1..], inRun)[|SkipRun(x[1..], inRun)| - 1] == x[|x| - 1]
  {
    var tail := x[1..];
    if |x| > 1 {
      assert x[|x| - 1] == tail[|tail| - 1];
    }
  }

  /** A separator-normalised string has no backslash and is its own normal form. */
  lemma NormalizeIdempotent(s: string)
    ensures '\\' !in NormalizeSeparators(s)
    ensures NormalizeSeparators(NormalizeSeparators(s)) == NormalizeSeparators(s)
  {
  }

  /** Normalising separators works character by character. */
  lemma NormalizeAppend(a: string, b: string)
    ensures NormalizeSeparators(a + b) == NormalizeSeparators(a) + NormalizeSeparators(b)
  {
  }

  /** A file under its base directory: whichever separators either path uses
      and however the letters of the directory part are cased, the short path
      is the path relative to the base, with `/` separators. */
  lemma ShortPathInsideBase(dir: string, sep: char, rel: string, base: string)
    requires IsPathSeparator(sep)
    requires |dir| == |base|
    requires StartsWithIgnoringCase(NormalizeSeparators(base), NormalizeSeparators(dir))
    ensures ShortPath(dir + [sep] + rel, base) == NormalizeSeparators(rel)
  {
    NormalizeJoin(dir, sep, rel);
    var head := NormalizeSeparators(dir) + [PathSeparator];
    var full := head + NormalizeSeparators(rel);
    PrefixThenSeparator(NormalizeSeparators(base), NormalizeSeparators(dir), NormalizeSeparators(rel));
    assert full[|head|..] == NormalizeSeparators(rel);
  }

  /** Separators are normalised piece by piece across a join. */
  lemma NormalizeJoin(dir: string, sep: char, rel: string)
    requires IsPathSeparator(sep)
    ensures NormalizeSeparators(dir + [sep] + rel) == NormalizeSeparators(dir) + [PathSeparator] + NormalizeSeparators(rel)
  {
    NormalizeAppend(dir + [sep], rel);
    NormalizeAppend(dir, [sep]);
  }

  /** A case-insensitive prefix of equal length stays one once both sides
      are followed by `/`. */
  lemma PrefixThenSeparator(b: string, d: string, rest: string)
    requires |b| == |d| && StartsWithIgnoringCase(b, d)
    ensures StartsWithIgnoringCase(b + [PathSeparator], d + [PathSeparator] + rest)
  {
    var x, y := b + [PathSeparator], d + [PathSeparator] + rest;
    forall i | 0 <= i < |x| ensures Fold(x[i]) == Fold(y[i]) {
      if i < |b| {
        assert x[i] == b[i] && y[i] == d[i];
      }
    }
  }

  /** A tail of a tail is a tail. */
  lemma SuffixOfSuffix(s: string, mid: string, end: string)
    requires |mid| <= |s| && mid == s[|s| - |mid|..]
    requires |end| <= |mid| && end == mid[|mid| - |end|..]
    ensures end == s[|s| - |end|..]
  {
    forall j | 0 <= j < |end| ensures end[j] == s[|s| - |end| + j] {
      assert end[j] == mid[|mid| - |end| + j];
    }
  }

  /** The last component of a path is its tail. */
  lemma {:induction false} LastComponentIsSuffix(p: string)
    ensures LastComponent(p) == p[|p| - |LastComponent(p)|..]
    decreases |p|
  {
    if p != [] && p[|p| - 1] != PathSeparator {
      var init := p[..|p| - 1];
      LastComponentIsSuffix(init);
      var r := LastComponent(init);
      assert LastComponent(p) == r + [p[|p| - 1]];
      assert p[|p| - |r| - 1..] == init[|init| - |r|..] + [p[|p| - 1]];
    }
  }

  /** A component's extension is its tail. */
  lemma ComponentExtensionIsSuffix(name: string)
    ensures ComponentExtension(name) == name[|name| - |ComponentExtension(name)|..]
  {
  }

  /** A path that does not end in `/` has nothing to trim. */
  lemma TrimKeeps(s: string)
    requires s == [] || s[|s| - 1] != PathSeparator
    ensures TrimTrailingSlashes(s) == s
  {
  }

  /** The base name of a path that does not end in `/` is its tail. */
  lemma BaseNameIsSuffix(s: string)
    requires s == [] || s[|s| - 1] != PathSeparator
    ensures BaseName(s) == s[|s| - |BaseName(s)|..]
  {
    TrimKeeps(s);
    LastComponentIsSuffix(s);
  }

  /** The extension of a tail of `s` is a tail of `s`. */
  lemma ExtensionOfTail(s: string, name: string)
    requires |name| <= |s| && name == s[|s| - |name|..]
    ensures |ComponentExtension(name)| <= |s|
    ensures ComponentExtension(name) == s[|s| - |ComponentExtension(name)|..]
  {
    ComponentExtensionIsSuffix(name);
    SuffixOfSuffix(s, name, ComponentExtension(name));
  }

  /** The extension of a path that does not end in `/` is its tail. */
  lemma ExtensionIsSuffix(s: string)
    requires s == [] || s[|s| - 1] != PathSeparator
    ensures |ExtName(s)| <= |s| && ExtName(s) == s[|s| - |ExtName(s)|..]
  {
    var name := BaseName(s);
    assert |name| <= |s| && name == s[|s| - |name|..] by {
      BaseNameIsSuffix(s);
    }
    ExtensionOfTail(s, name);
    assert ExtName(s) == ComponentExtension(name);
  }

  /** Stripping the extension and appending it again gives back the path,
      for any path that does not end in `/`. */
  lemma StemAndExtension(s: string)
    requires s == [] || s[|s| - 1] != PathSeparator
    ensures StripExtension(s) + ExtName(s) == s
  {
    ExtensionIsSuffix(s);
    var k := |s| - |ExtName(s)|;
    assert StripExtension(s) == s[..k];
    assert s[..k] + s[k..] == s;
  }

  /** A path without an extension is not truncated. */
  lemma NoExtensionNoTruncation(s: string)
    requires ExtName(s) == []
    ensures StripExtension(s) == s
  {
  }

  /** The partial key keeps every visible character of the extension-less
      short path, `/` separators included, in order; only whitespace runs are
      rewritten, each to one `-`. */
  lemma PartialKeyKeepsPath(filePath: string, fileBase: string)
    ensures Visible(KeygenPartial(filePath, fileBase), IsWhitespace)
         == Visible(StripExtension(ShortPath(filePath, fileBase)), IsWhitespace)
  {
    CollapseKeepsVisible(StripExtension(ShortPath(filePath, fileBase)), IsWhitespace);
  }

  /** A helper key is flat: word characters and single `-` separators only. */
  lemma HelperKeyIsFlat(filePath: string, fileBase: string)
    ensures PathSeparator !in KeygenHelper(filePath, fileBase)
    ensures NoDoubleSeparator(KeygenHelper(filePath, fileBase))
  {
    CollapseNoDoubleSeparator(KeygenPartial(filePath, fileBase), IsNonWord);
  }

  /** The helper key keeps the partial key's word characters in order. */
  lemma HelperKeyKeepsWords(filePath: string, fileBase: string)
    ensures Visible(KeygenHelper(filePath, fileBase), IsNonWord)
         == Visible(KeygenPartial(filePath, fileBase), IsNonWord)
  {
    CollapseKeepsVisible(KeygenPartial(filePath, fileBase), IsNonWord);
  }

  /** The key of a file inside its base directory whose relative path has no
      whitespace or backslash is that relative path minus its extension. */
  lemma PartialKeyOfFileInsideBase(base: string, rel: string)
    requires forall i :: 0 <= i < |rel| ==> !IsWhitespace(rel[i]) && rel[i] != '\\'
    ensures KeygenPartial(base + [PathSeparator] + rel, base) == StripExtension(rel)
  {
    ShortPathInsideBase(base, PathSeparator, rel, base);
    assert NormalizeSeparators(rel) == rel;
    var stem := StripExtension(rel);
    assert forall i :: 0 <= i < |stem| ==> stem[i] == rel[i];
    CollapseFixpoint(stem, IsWhitespace);
  }
}
