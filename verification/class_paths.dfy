/**
  What the two ClassFinderImpl copies share: the rewriting of a dotted class
  pattern into a file-path pattern and of a found file path back into a
  canonical class name, and the class search over the base directories, with
  the Ant scanners and the class loader taken as parameters.
 */
module ClassPaths {
  import opened Wrappers
  import opened Strings

  /**
    A class pattern as a path pattern: every dot becomes the file separator
    and `.class` is appended.
   */
  function PathPattern(sep: char, pattern: string): (r: string)
    ensures |r| == |pattern| + 6 && r[|pattern|..] == ".class"
    ensures forall i :: 0 <= i < |pattern| ==> r[i] == (if pattern[i] == '.' then sep else pattern[i])
  {
    ReplaceCharAgrees(pattern, '.', sep);
    ReplaceAll(pattern, ".", [sep]) + ".class"
  }

  /** The path patterns of a list of class patterns, in the same order. */
  function PathPatterns(sep: char, patterns: seq<string>): (r: seq<string>)
    ensures |r| == |patterns| && forall i :: 0 <= i < |patterns| ==> r[i] == PathPattern(sep, patterns[i])
  {
    seq(|patterns|, i requires 0 <= i < |patterns| => PathPattern(sep, patterns[i]))
  }

  /**
    convertPathToCanonicalClassName: separators and slashes become dots,
    backslashes are deleted, then every `.class` is deleted; no slash or
    backslash is left.
   */
  function CanonicalClassName(sep: char, path: string): (r: string)
    ensures '/' !in r && '\\' !in r
  {
    var dotted := ReplaceAll(path, [sep], ".");
    var unslashed := ReplaceAll(dotted, "/", ".");
    var plain := ReplaceAll(unslashed, "\\", "");
    ReplaceCharGone(dotted, '/', ".");
    ReplaceCharGone(unslashed, '\\', "");
    ReplaceMembers(unslashed, "\\", "");
    ReplaceMembers(plain, ".class", "");
    ReplaceAll(plain, ".class", "")
  }

  /** `.class` cannot start inside a name and run into an appended `.class`: only the dot can follow the name. */
  lemma NoEarlySuffix(n: string)
    requires forall k :: !OccursAt(n, ".class", k)
    ensures forall k :: 0 <= k < |n| ==> !OccursAt(n + ".class", ".class", k)
  {
    var s := n + ".class";
    forall k | 0 <= k < |n| ensures !OccursAt(s, ".class", k) {
      if k + 6 <= |n| {
        assert s[k..k + 6] == n[k..k + 6];
        assert !OccursAt(n, ".class", k);
      } else if k + 6 <= |s| {
        assert s[k..k + 6][|n| - k] == s[|n|] == '.';
      }
    }
  }

  /** The first step of convertPathToCanonicalClassName undoes the separators of a path pattern. */
  lemma SeparatorsBack(sep: char, n: string)
    requires sep == '/' || sep == '\\'
    requires sep !in n
    ensures ReplaceAll(PathPattern(sep, n), [sep], ".") == n + ".class"
  {
    var replaced := ReplaceAll(n, ".", [sep]);
    assert PathPattern(sep, n) == replaced + ".class";
    ReplaceCharTargetConcat(replaced, ".class", sep, ".");
    ReplaceCharTargetBack(n, '.', sep);
    ReplaceCharTargetAbsent(".class", sep, ".");
  }

  /**
    A dotted class name without slashes, backslashes or `.class` in it comes
    back unchanged from its path pattern, under either file separator.
   */
  lemma PathRoundTrip(sep: char, n: string)
    requires sep == '/' || sep == '\\'
    requires '/' !in n && '\\' !in n
    requires forall k :: !OccursAt(n, ".class", k)
    ensures CanonicalClassName(sep, PathPattern(sep, n)) == n
  {
    SeparatorsBack(sep, n);
    var dotted := n + ".class";
    assert '/' !in dotted && '\\' !in dotted by {
      assert forall i :: 0 <= i < |dotted| ==> dotted[i] == (if i < |n| then n[i] else ".class"[i - |n|]);
    }
    ReplaceCharTargetAbsent(dotted, '/', ".");
    ReplaceCharTargetAbsent(dotted, '\\', "");
    NoEarlySuffix(n);
    RemoveTrailing(n, ".class");
  }

  /** The patterns of the tests and their path patterns under the `/` separator. */
  lemma PathPatternExamples()
    ensures PathPattern('/', "fr.maven.**.*") == "fr/maven/**/*" + ".class"
    ensures PathPattern('/', "**.*") == "**/*" + ".class"
  {
    PatternParts();
    ReplaceSeparator(["fr", "maven", "**", "*"], '.', "/");
    ReplaceSeparator(["**", "*"], '.', "/");
  }

  /** Supports PathPatternExamples: its patterns, from their parts. */
  lemma PatternParts()
    ensures Join(["fr", "maven", "**", "*"], ".") == "fr.maven.**.*" && Join(["fr", "maven", "**", "*"], "/") == "fr/maven/**/*"
    ensures Join(["**", "*"], ".") == "**.*" && Join(["**", "*"], "/") == "**/*"
  {
  }

  /** The class name of the examples below has no slash, no backslash and no `.class` in it. */
  lemma ExampleNameIsPlain(name: string)
    requires name == "fr.maven.dto.Bean"
    ensures '/' !in name && '\\' !in name
    ensures forall k :: !OccursAt(name, ".class", k)
  {
    NoOccurrenceWithout(name, ".class", 1);
  }

  /** Supports CanonicalClassNameExample and WindowsPathExample: their class name, from its four parts. */
  lemma ExampleName()
    ensures Join(["fr", "maven", "dto", "Bean"], ".") == "fr.maven.dto.Bean"
  {
  }

  /** Supports CanonicalClassNameExample: the class's path under the `/` separator. */
  lemma ExampleUnixPath()
    ensures Join(["fr", "maven", "dto", "Bean"], "/") == "fr/maven/dto/Bean"
  {
  }

  /** Supports WindowsPathExample: the class's path under the `\` separator. */
  lemma ExampleWindowsPath()
    ensures Join(["fr", "maven", "dto", "Bean"], "\\") == "fr\\maven\\dto\\Bean"
  {
  }

  /** The path of the test, under the `/` separator. */
  lemma CanonicalClassNameExample()
    ensures CanonicalClassName('/', "fr/maven/dto/Bean") == "fr.maven.dto.Bean"
  {
    var name := "fr.maven.dto.Bean";
    ExampleName();
    ExampleUnixPath();
    ReplaceSeparator(["fr", "maven", "dto", "Bean"], '/', ".");
    ExampleNameIsPlain(name);
    ReplaceCharTargetAbsent(name, '/', ".");
    ReplaceCharTargetAbsent(name, '\\', "");
    ReplaceAbsent(name, ".class", "");
  }

  /** The same class found as a file under the Windows `\` separator. */
  lemma WindowsPathExample(path: string)
    requires path == "fr\\maven\\dto\\Bean" + ".class"
    ensures CanonicalClassName('\\', path) == "fr.maven.dto.Bean"
  {
    ExampleName();
    ExampleWindowsPath();
    WindowsPathOf(Join(["fr", "maven", "dto", "Bean"], "."));
  }

  /** The round trip of the Windows example, for the class name built from its parts. */
  lemma WindowsPathOf(name: string)
    requires name == Join(["fr", "maven", "dto", "Bean"], ".") && name == "fr.maven.dto.Bean"
    ensures CanonicalClassName('\\', Join(["fr", "maven", "dto", "Bean"], "\\") + ".class") == name
  {
    ReplaceSeparator(["fr", "maven", "dto", "Bean"], '.', "\\");
    ExampleNameIsPlain(name);
    PathRoundTrip('\\', name);
  }

  /**
    What the class finder gets from its environment: File.separatorChar,
    File.isDirectory, the files the Ant DirectoryScanner or ZipScanner includes
    for a directory or archive and the include and exclude path patterns, and
    ClassLoader.loadClass (None for a ClassNotFoundException).
   */
  datatype ClassPath<!D, C> = ClassPath(
    sep: char,
    isDirectory: D -> bool,
    directoryFiles: (D, seq<string>, seq<string>) -> seq<string>,
    archiveFiles: (D, seq<string>, seq<string>) -> seq<string>,
    load: string -> Option<C>)

  /** `cs` in front of the classes of a successful search; a failure stays a failure. */
  function Prepend<C>(cs: seq<C>, r: Result<seq<C>, string>): (p: Result<seq<C>, string>)
    ensures p.Success? <==> r.Success?
    ensures p.Success? ==> p.value == cs + r.value
    ensures p.Failure? ==> p == r
  {
    match r
    case Success(rest) => Success(cs + rest)
    case Failure(e) => Failure(e)
  }

  /** Prepending no classes leaves a result as it is. */
  lemma PrependNothing<C>(r: Result<seq<C>, string>)
    ensures Prepend([], r) == r
  {
    if r.Success? {
      assert [] + r.value == r.value;
    }
  }

  /** Prepending twice is prepending the concatenation. */
  lemma PrependTwice<C>(a: seq<C>, b: seq<C>, r: Result<seq<C>, string>)
    ensures Prepend(a, Prepend(b, r)) == Prepend(a + b, r)
  {
    if r.Success? {
      assert a + (b + r.value) == (a + b) + r.value;
    }
  }

  /** The class names of the files a scanner includes, in the same order. */
  function ClassNames(sep: char, files: seq<string>): (r: seq<string>)
    ensures |r| == |files| && forall i :: 0 <= i < |files| ==> r[i] == CanonicalClassName(sep, files[i])
  {
    seq(|files|, i requires 0 <= i < |files| => CanonicalClassName(sep, files[i]))
  }

  /**
    Loading a list of class names in order, as ClassLoader.loadClass does one
    name at a time: the first name that cannot be loaded is the failure.
   */
  function LoadNamed<C>(load: string -> Option<C>, names: seq<string>): (r: Result<seq<C>, string>)
    ensures r.Success? <==> forall i :: 0 <= i < |names| ==> load(names[i]).Some?
    ensures r.Success? ==> |r.value| == |names| && forall i :: 0 <= i < |names| ==> r.value[i] == load(names[i]).value
    ensures r.Failure? ==>
      exists i :: 0 <= i < |names| && r.error == names[i] && load(names[i]).None? &&
                  forall j :: 0 <= j < i ==> load(names[j]).Some?
    decreases |names|
  {
    if names == [] then Success([])
    else
      match load(names[0])
      case None => Failure(names[0])
      case Some(c) =>
        var rest := LoadNamed(load, names[1..]);
        assert forall i :: 1 <= i < |names| ==> names[1..][i - 1] == names[i];
        Prepend([c], rest)
  }

  /** The loop over a scanner's files: each path converted to a class name and loaded. */
  function LoadAll<C>(load: string -> Option<C>, sep: char, files: seq<string>): Result<seq<C>, string> {
    LoadNamed(load, ClassNames(sep, files))
  }

  /** The files the scanner for a directory, or for an archive, includes. */
  function IncludedFiles<D, C>(cp: ClassPath<D, C>, d: D, includes: seq<string>, excludes: seq<string>): seq<string> {
    if cp.isDirectory(d) then cp.directoryFiles(d, includes, excludes) else cp.archiveFiles(d, includes, excludes)
  }

  /** scanDirectoryOrArchive: the classes of the files the right scanner includes. */
  function ScanOne<D, C>(cp: ClassPath<D, C>, d: D, includes: seq<string>, excludes: seq<string>): Result<seq<C>, string> {
    LoadAll(cp.load, cp.sep, IncludedFiles(cp, d, includes, excludes))
  }

  /**
    getClassesToGenerate: the classes of every base directory or archive that
    is not null, in order, stopping at the first class that cannot be loaded.
   */
  function FindAll<D, C>(cp: ClassPath<D, C>, dirs: seq<Option<D>>, includes: seq<string>, excludes: seq<string>): Result<seq<C>, string>
    decreases |dirs|
  {
    if dirs == [] then Success([])
    else if dirs[0].None? then FindAll(cp, dirs[1..], includes, excludes)
    else
      match ScanOne(cp, dirs[0].value, includes, excludes)
      case Failure(e) => Failure(e)
      case Success(cs) => Prepend(cs, FindAll(cp, dirs[1..], includes, excludes))
  }

  /** The entries that are not null, in order (PresentConcat). */
  function Present<D>(dirs: seq<Option<D>>): (r: seq<Option<D>>)
    ensures forall i :: 0 <= i < |r| ==> r[i].Some?
    ensures forall i :: 0 <= i < |r| ==> r[i] in dirs
    ensures forall i :: 0 <= i < |dirs| && dirs[i].Some? ==> dirs[i] in r
    ensures |r| <= |dirs|
    ensures |r| == |dirs| <==> forall i :: 0 <= i < |dirs| ==> dirs[i].Some?
    decreases |dirs|
  {
    if dirs == [] then []
    else
      assert dirs == [dirs[0]] + dirs[1..];
      assert forall i :: 1 <= i < |dirs| ==> dirs[i] == dirs[1..][i - 1];
      (if dirs[0].Some? then [dirs[0]] else []) + Present(dirs[1..])
  }

  /**
    Dropping the null entries keeps the order: the entries of a concatenation
    are those of the first part followed by those of the second.
   */
  lemma {:induction false} PresentConcat<D>(a: seq<Option<D>>, b: seq<Option<D>>)
    ensures Present(a + b) == Present(a) + Present(b)
    decreases |a|
  {
    if a == [] {
      assert a + b == b;
    } else {
      assert (a + b)[0] == a[0] && (a + b)[1..] == a[1..] + b;
      PresentConcat(a[1..], b);
    }
  }

  /** Null base directories are skipped: the search gives what it gives on the others alone. */
  lemma {:induction false} NullsSkipped<D, C>(cp: ClassPath<D, C>, dirs: seq<Option<D>>, includes: seq<string>, excludes: seq<string>)
    ensures FindAll(cp, dirs, includes, excludes) == FindAll(cp, Present(dirs), includes, excludes)
    decreases |dirs|
  {
    if dirs != [] {
      NullsSkipped(cp, dirs[1..], includes, excludes);
      var p := Present(dirs);
      if dirs[0].Some? {
        assert p == [dirs[0]] + Present(dirs[1..]);
        assert p[0] == dirs[0] && p[1..] == Present(dirs[1..]);
      } else {
        assert p == [] + Present(dirs[1..]);
        assert p == Present(dirs[1..]);
      }
    }
  }

  /**
    The search over two lists of base directories is the search over the first
    followed, when that succeeded, by the search over the second: the results
    come in base-directory order.
   */
  lemma {:induction false} FindAllConcat<D, C>(cp: ClassPath<D, C>, dirs1: seq<Option<D>>, dirs2: seq<Option<D>>,
                                              includes: seq<string>, excludes: seq<string>)
    ensures FindAll(cp, dirs1 + dirs2, includes, excludes) ==
      match FindAll(cp, dirs1, includes, excludes)
      case Failure(e) => Failure(e)
      case Success(cs) => Prepend(cs, FindAll(cp, dirs2, includes, excludes))
    decreases |dirs1|
  {
    if dirs1 == [] {
      assert dirs1 + dirs2 == dirs2;
      PrependNothing(FindAll(cp, dirs2, includes, excludes));
    } else {
      var dirs := dirs1 + dirs2;
      assert dirs[0] == dirs1[0] && dirs[1..] == dirs1[1..] + dirs2;
      FindAllConcat(cp, dirs1[1..], dirs2, includes, excludes);
      if dirs1[0].Some? {
        var first := ScanOne(cp, dirs1[0].value, includes, excludes);
        if first.Success? {
          var rest1 := FindAll(cp, dirs1[1..], includes, excludes);
          if rest1.Success? {
            PrependTwice(first.value, rest1.value, FindAll(cp, dirs2, includes, excludes));
          }
        }
      }
    }
  }

  /** A single base directory contributes exactly the classes of its own scan. */
  lemma FindAllSingle<D, C>(cp: ClassPath<D, C>, d: D, includes: seq<string>, excludes: seq<string>)
    ensures FindAll(cp, [Some(d)], includes, excludes) == ScanOne(cp, d, includes, excludes)
  {
    var r := ScanOne(cp, d, includes, excludes);
    assert [Some(d)][1..] == [];
    if r.Success? {
      assert r.value + [] == r.value;
    }
  }
}
