/**
  The middle ClassFinderImpl (dto-maven-plugin/src/main/java/fr/maven/dto/generator/impl/ClassFinderImpl.java):
  the same search as the newest copy with the scans written inline in the loop
  over the base directories, a null pattern list read as an empty one, and a
  second entry point that loads a list of class names.
 */
module ClassFinderV2 {
  import opened Wrappers
  import opened ClassPaths

  /** The path patterns of a pattern list that may be null: none for a null list. */
  function PatternsOrNone(sep: char, classPatterns: Option<seq<string>>): seq<string> {
    if classPatterns.None? then [] else PathPatterns(sep, classPatterns.value)
  }

  /** convertClassPatternsToPathPatterns: an empty array for a null list, else one path pattern per class pattern. */
  method ConvertClassPatternsToPathPatterns(sep: char, classPatterns: Option<seq<string>>) returns (pathPatterns: array<string>)
    ensures fresh(pathPatterns)
    ensures classPatterns.None? ==> pathPatterns.Length == 0
    ensures classPatterns.Some? ==> pathPatterns[..] == PathPatterns(sep, classPatterns.value)
  {
    pathPatterns := new string[0];
    if classPatterns.Some? {
      var patterns := classPatterns.value;
      pathPatterns := new string[|patterns|](_ => "");
      for i := 0 to |patterns|
        invariant forall j :: 0 <= j < i ==> pathPatterns[j] == PathPattern(sep, patterns[j])
      {
        pathPatterns[i] := PathPattern(sep, patterns[i]);
      }
    }
  }

  /**
    getClassesToGenerate(List<String>): each name loaded in order with the
    loader of the plugin itself; the first name that cannot be loaded is the
    failure.
   */
  method GetClassesToGenerateByName<C>(load: string -> Option<C>, includeClasses: seq<string>) returns (r: Result<seq<C>, string>)
    ensures r == LoadNamed(load, includeClasses)
  {
    var classesToGenerate: seq<C> := [];
    assert includeClasses[0..] == includeClasses;
    PrependNothing(LoadNamed(load, includeClasses));
    for i := 0 to |includeClasses|
      invariant LoadNamed(load, includeClasses) == Prepend(classesToGenerate, LoadNamed(load, includeClasses[i..]))
    {
      var clazz := load(includeClasses[i]);
      assert includeClasses[i..][0] == includeClasses[i] && includeClasses[i..][1..] == includeClasses[i + 1..];
      if clazz.None? {
        return Failure(includeClasses[i]);
      }
      PrependTwice(classesToGenerate, [clazz.value], LoadNamed(load, includeClasses[i + 1..]));
      classesToGenerate := classesToGenerate + [clazz.value];
    }
    assert includeClasses[|includeClasses|..] == [] && classesToGenerate + [] == classesToGenerate;
    return Success(classesToGenerate);
  }

  /**
    The body of the loop over the base directories for one that is not null:
    the files of the directory or archive scanner, each loaded and appended to
    `classes`; the first name that cannot be loaded is the failure.
   */
  method ScanInto<D, C>(cp: ClassPath<D, C>, directoryOrArchive: D, includesPath: seq<string>, excludesPath: seq<string>,
                        classes: seq<C>) returns (r: Result<seq<C>, string>)
    ensures r == Prepend(classes, ScanOne(cp, directoryOrArchive, includesPath, excludesPath))
  {
    var filesFound: seq<string>;
    if cp.isDirectory(directoryOrArchive) {
      filesFound := cp.directoryFiles(directoryOrArchive, includesPath, excludesPath);
    } else {
      filesFound := cp.archiveFiles(directoryOrArchive, includesPath, excludesPath);
    }
    ghost var names := ClassNames(cp.sep, filesFound);
    var found: seq<C> := [];
    assert names[0..] == names;
    PrependNothing(LoadNamed(cp.load, names));
    for j := 0 to |filesFound|
      invariant LoadNamed(cp.load, names) == Prepend(found, LoadNamed(cp.load, names[j..]))
    {
      var classString := CanonicalClassName(cp.sep, filesFound[j]);
      var clazz := cp.load(classString);
      assert names[j..][0] == classString && names[j..][1..] == names[j + 1..];
      if clazz.None? {
        return Failure(classString);
      }
      PrependTwice(found, [clazz.value], LoadNamed(cp.load, names[j + 1..]));
      found := found + [clazz.value];
    }
    assert names[|filesFound|..] == [] && found + [] == found;
    return Success(classes + found);
  }

  /**
    getClassesToGenerate(ClassLoader, List<File>, List<String>, List<String>):
    the classes of every base directory or archive that is not null, in order,
    under the path patterns of the pattern lists, a null list giving none.
   */
  method GetClassesToGenerate<D, C>(cp: ClassPath<D, C>, baseDirectories: seq<Option<D>>,
                                    includePatterns: Option<seq<string>>, excludePatterns: Option<seq<string>>)
    returns (r: Result<seq<C>, string>)
    ensures r == FindAll(cp, baseDirectories, PatternsOrNone(cp.sep, includePatterns), PatternsOrNone(cp.sep, excludePatterns))
  {
    var includesPath := ConvertClassPatternsToPathPatterns(cp.sep, includePatterns);
    var excludesPath := ConvertClassPatternsToPathPatterns(cp.sep, excludePatterns);
    var includes, excludes := includesPath[..], excludesPath[..];
    assert includes == PatternsOrNone(cp.sep, includePatterns);
    assert excludes == PatternsOrNone(cp.sep, excludePatterns);
    var classes: seq<C> := [];
    assert baseDirectories[0..] == baseDirectories;
    PrependNothing(FindAll(cp, baseDirectories, includes, excludes));
    for i := 0 to |baseDirectories|
      invariant FindAll(cp, baseDirectories, includes, excludes) ==
        Prepend(classes, FindAll(cp, baseDirectories[i..], includes, excludes))
    {
      var rest := baseDirectories[i..];
      assert rest[0] == baseDirectories[i] && rest[1..] == baseDirectories[i + 1..];
      if baseDirectories[i].Some? {
        ghost var before := classes;
        var next := ScanInto(cp, baseDirectories[i].value, includes, excludes, classes);
        if next.Failure? {
          return Failure(next.error);
        }
        ghost var found := ScanOne(cp, baseDirectories[i].value, includes, excludes).value;
        PrependTwice(before, found, FindAll(cp, baseDirectories[i + 1..], includes, excludes));
        classes := next.value;
      }
    }
    assert baseDirectories[|baseDirectories|..] == [] && classes + [] == classes;
    return Success(classes);
  }
}
