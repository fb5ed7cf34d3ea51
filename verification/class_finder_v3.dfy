/**
  The newest ClassFinderImpl (src/main/java/fr/maven/dto/generator/impl/ClassFinderImpl.java):
  the class patterns are rewritten into an array of path patterns, then every
  base directory or archive that is not null is scanned, each scan in its own
  method, and the classes found are appended in order.
 */
module ClassFinderV3 {
  import opened Wrappers
  import opened ClassPaths

  /** convertClassPatternsToPathPatterns: a new array holding the path pattern of each class pattern. */
  method ConvertClassPatternsToPathPatterns(sep: char, classPatterns: seq<string>) returns (pathPatterns: array<string>)
    ensures fresh(pathPatterns)
    ensures pathPatterns[..] == PathPatterns(sep, classPatterns)
  {
    pathPatterns := new string[|classPatterns|](_ => "");
    for i := 0 to |classPatterns|
      invariant forall j :: 0 <= j < i ==> pathPatterns[j] == PathPattern(sep, classPatterns[j])
    {
      pathPatterns[i] := PathPattern(sep, classPatterns[i]);
    }
  }

  /**
    The loop scanDirectory and scanArchive run over the files their scanner
    includes: each path becomes a class name that is loaded and appended; the
    first name that cannot be loaded ends the scan with that name.
   */
  method LoadFiles<C>(load: string -> Option<C>, sep: char, files: seq<string>) returns (r: Result<seq<C>, string>)
    ensures r == LoadAll(load, sep, files)
  {
    ghost var names := ClassNames(sep, files);
    var classes: seq<C> := [];
    assert names[0..] == names;
    PrependNothing(LoadNamed(load, names));
    for i := 0 to |files|
      invariant LoadNamed(load, names) == Prepend(classes, LoadNamed(load, names[i..]))
    {
      var classString := CanonicalClassName(sep, files[i]);
      var clazz := load(classString);
      assert names[i..][0] == classString && names[i..][1..] == names[i + 1..];
      if clazz.None? {
        return Failure(classString);
      }
      PrependTwice(classes, [clazz.value], LoadNamed(load, names[i + 1..]));
      classes := classes + [clazz.value];
    }
    assert names[|files|..] == [] && classes + [] == classes;
    return Success(classes);
  }

  /** scanDirectory: the classes of the files the directory scanner includes. */
  method ScanDirectory<D, C>(cp: ClassPath<D, C>, directory: D, includesPath: seq<string>, excludesPath: seq<string>)
    returns (r: Result<seq<C>, string>)
    ensures r == LoadAll(cp.load, cp.sep, cp.directoryFiles(directory, includesPath, excludesPath))
  {
    var filesFound := cp.directoryFiles(directory, includesPath, excludesPath);
    r := LoadFiles(cp.load, cp.sep, filesFound);
  }

  /** scanArchive: the classes of the files the archive scanner includes. */
  method ScanArchive<D, C>(cp: ClassPath<D, C>, archive: D, includesPath: seq<string>, excludesPath: seq<string>)
    returns (r: Result<seq<C>, string>)
    ensures r == LoadAll(cp.load, cp.sep, cp.archiveFiles(archive, includesPath, excludesPath))
  {
    var filesFound := cp.archiveFiles(archive, includesPath, excludesPath);
    r := LoadFiles(cp.load, cp.sep, filesFound);
  }

  /** scanDirectoryOrArchive: a directory is scanned as a directory, anything else as an archive. */
  method ScanDirectoryOrArchive<D, C>(cp: ClassPath<D, C>, directoryOrArchive: D, includesPath: seq<string>, excludesPath: seq<string>)
    returns (r: Result<seq<C>, string>)
    ensures r == ScanOne(cp, directoryOrArchive, includesPath, excludesPath)
  {
    if cp.isDirectory(directoryOrArchive) {
      r := ScanDirectory(cp, directoryOrArchive, includesPath, excludesPath);
    } else {
      r := ScanArchive(cp, directoryOrArchive, includesPath, excludesPath);
    }
  }

  /**
    getClassesToGenerate: the classes of every base directory or archive that
    is not null, in order, under the path patterns of the include and exclude
    class patterns; the first class that cannot be loaded is the failure.
   */
  method GetClassesToGenerate<D, C>(cp: ClassPath<D, C>, baseDirectories: seq<Option<D>>,
                                    includePatterns: seq<string>, excludePatterns: seq<string>)
    returns (r: Result<seq<C>, string>)
    ensures r == FindAll(cp, baseDirectories, PathPatterns(cp.sep, includePatterns), PathPatterns(cp.sep, excludePatterns))
  {
    var includesPath := ConvertClassPatternsToPathPatterns(cp.sep, includePatterns);
    var excludesPath := ConvertClassPatternsToPathPatterns(cp.sep, excludePatterns);
    var includes, excludes := includesPath[..], excludesPath[..];
    var classes: seq<C> := [];
    assert baseDirectories[0..] == baseDirectories;
    PrependNothing(FindAll(cp, baseDirectories, includes, excludes));
    for i := 0 to |baseDirectories|
      invariant FindAll(cp, baseDirectories, includes, excludes) ==
        Prepend(classes, FindAll(cp, baseDirectories[i..], includes, excludes))
    {
      var rest := baseDirectories[i..];
      assert rest[0] == baseDirectories[i] && rest[1..] == baseDirectories[i + 1..];
      if baseDirectories[i].Some? {
        var found := ScanDirectoryOrArchive(cp, baseDirectories[i].value, includes, excludes);
        if found.Failure? {
          return Failure(found.error);
        }
        PrependTwice(classes, found.value, FindAll(cp, baseDirectories[i + 1..], includes, excludes));
        classes := classes + found.value;
      }
    }
    assert baseDirectories[|baseDirectories|..] == [] && classes + [] == classes;
    return Success(classes);
  }
}
