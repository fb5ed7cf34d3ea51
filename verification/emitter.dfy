/**
  The state DTOGeneratorImpl keeps between calls (the membership list
  classesToGenerate, the writer cache fileWriters and the output directory) and
  the methods that update it. One class stands for the three copies, which
  share this code but for two rules that `version` selects: how a field's type
  and accessor names are rendered, and whether static fields are skipped (the
  oldest copy writes blocks for every field).
  Writers are in-memory buffers; the file system is the set of paths whose
  creation fails.
 */
module Emitter {
  import opened Wrappers
  import opened JavaTypes
  import opened Strings
  import opened Naming
  import opened DTOText
  import GeneratorV1
  import GeneratorV2
  import GeneratorV3

  /**
    The IOExceptions the generator can raise: the fixed "can not be created"
    message of makeDTOPackage, the file that could not be created or opened,
    and a write to a closed writer.
   */
  datatype IoError =
    | DirectoryNotCreated
    | FileNotCreated(file: string)
    | StreamClosed

  /** How a call ended: normally, or with an IOException. */
  datatype Status = Done | Failed(error: IoError)

  /** A FileWriter: what was written to it, in order, and whether it was closed. */
  datatype Buffer = Buffer(writes: seq<string>, closed: bool)

  /**
    The file system as the generator sees it: the package directories that do
    not exist and that mkdirs cannot create, and the DTO files that cannot be
    re-created or opened for writing.
   */
  datatype FileSystem = FileSystem(failingDirectories: set<string>, failingFiles: set<string>)

  /** The writer cache. */
  type Writers = map<JClass, Buffer>

  /**
    getDTOClassFileWriter: a class with a writer gets it back; otherwise a new
    empty writer on the class's DTO file is cached, unless the file cannot be
    created. No entry is ever removed or replaced.
   */
  function Open(m: Writers, c: JClass, file: string, fs: FileSystem): (r: (Status, Writers))
    ensures r.0 == Done <==> c in m || file !in fs.failingFiles
    ensures r.0 == Done ==> c in r.1
    ensures r.0 != Done ==> r.0 == Failed(FileNotCreated(file))
    ensures forall k :: k in m ==> k in r.1 && r.1[k] == m[k]
    ensures forall k :: k in r.1 ==> k in m || k == c
  {
    if c in m then (Done, m)
    else if file in fs.failingFiles then (Failed(FileNotCreated(file)), m)
    else (Done, m[c := Buffer([], false)])
  }

  /**
    A block of writes to the class's writer, fetched through
    getDTOClassFileWriter: all of it is appended to an open writer; a closed
    writer fails on the first write.
   */
  function Emit(m: Writers, c: JClass, file: string, fs: FileSystem, texts: seq<string>): (r: (Status, Writers))
    requires texts != []
    ensures r.0 == Done <==> (if c in m then !m[c].closed else file !in fs.failingFiles)
    ensures r.0 == Failed(StreamClosed) <==> c in m && m[c].closed
    ensures r.0 == Done ==> r.1 == m[c := Buffer((if c in m then m[c].writes else []) + texts, false)]
    ensures r.0 != Done ==> r.1 == m
  {
    var (st, m1) := Open(m, c, file, fs);
    if st.Failed? then (st, m1)
    else if m1[c].closed then (Failed(StreamClosed), m1)
    else (Done, m1[c := Buffer(m1[c].writes + texts, false)])
  }

  /**
    generateDTO, for the class `d` whose text is `text`: make the package
    directory, write the text, close the writer. On success the writer holds
    what it held before followed by the text, and is closed; on failure
    nothing has changed.
   */
  function Generate(m: Writers, root: string, sep: char, fs: FileSystem, d: ClassDecl, text: seq<string>): (r: (Status, Writers))
    requires text != []
    ensures r.0 == Done <==>
      PackageDirectory(root, sep, d.pkg) !in fs.failingDirectories &&
      (if d.AsClass() in m then !m[d.AsClass()].closed else DTOFilePath(root, sep, d) !in fs.failingFiles)
    ensures r.0 == Done ==>
      r.1 == m[d.AsClass() := Buffer((if d.AsClass() in m then m[d.AsClass()].writes else []) + text, true)]
    ensures r.0 != Done ==> r.1 == m
  {
    var dir := PackageDirectory(root, sep, d.pkg);
    if dir in fs.failingDirectories then (Failed(DirectoryNotCreated), m)
    else
      var (st, m1) := Emit(m, d.AsClass(), DTOFilePath(root, sep, d), fs, text);
      if st.Failed? then (st, m1)
      else (Done, m1[d.AsClass() := m1[d.AsClass()].(closed := true)])
  }

  /** Every text of a run writes at least one line. */
  predicate NonEmptyTexts(texts: seq<seq<string>>) {
    forall i :: 0 <= i < |texts| ==> texts[i] != []
  }

  /**
    The loop of generateDTOs: the classes in order, the i-th writing
    `texts[i]`, stopping at the first failure.
   */
  function RunAll(m: Writers, root: string, sep: char, fs: FileSystem, ds: seq<ClassDecl>, texts: seq<seq<string>>): (Status, Writers)
    requires |texts| == |ds| && NonEmptyTexts(texts)
    decreases |ds|
  {
    if ds == [] then (Done, m)
    else
      var (st, m1) := Generate(m, root, sep, fs, ds[0], texts[0]);
      if st.Failed? then (st, m1)
      else RunAll(m1, root, sep, fs, ds[1..], texts[1..])
  }

  /** The run from the i-th class on: that class, then, if it succeeded, the run from the next one. */
  lemma RunFrom(m: Writers, root: string, sep: char, fs: FileSystem, ds: seq<ClassDecl>, texts: seq<seq<string>>, i: nat)
    requires |texts| == |ds| && NonEmptyTexts(texts) && i < |ds|
    ensures NonEmptyTexts(texts[i..]) && NonEmptyTexts(texts[i + 1..])
    ensures RunAll(m, root, sep, fs, ds[i..], texts[i..]) ==
      var step := Generate(m, root, sep, fs, ds[i], texts[i]);
      if step.0.Failed? then step else RunAll(step.1, root, sep, fs, ds[i + 1..], texts[i + 1..])
  {
    assert ds[i..][0] == ds[i] && ds[i..][1..] == ds[i + 1..];
    assert texts[i..][0] == texts[i] && texts[i..][1..] == texts[i + 1..];
  }

  /** Every class of the run has fields with non-empty names. */
  predicate AllNamed(ds: seq<ClassDecl>) {
    forall i :: 0 <= i < |ds| ==> NamedFields(ds[i].fields)
  }

  /**
    The texts generateDTOs writes: for the i-th class, its class text against
    the membership list, stamped with the clock reading `clock(i)`.
   */
  function Texts(v: Version, list: seq<JClass>, ds: seq<ClassDecl>, clock: nat -> string): (r: seq<seq<string>>)
    requires AllNamed(ds)
    ensures |r| == |ds| && NonEmptyTexts(r)
  {
    var texts := seq(|ds|, i requires 0 <= i < |ds| => ClassText(v, list, ds[i], clock(i)));
    assert forall i :: 0 <= i < |ds| ==> texts[i] == ClassText(v, list, ds[i], clock(i));
    texts
  }

  /**
    The class objects of the classes handed to generateDTOs, one per class: two
    are the same class exactly when they have the same package and simple name.
   */
  function Classes(ds: seq<ClassDecl>): (r: seq<JClass>)
    ensures |r| == |ds|
    ensures forall i, j :: 0 <= i < |ds| && 0 <= j < |ds| ==>
      (r[i] == r[j] <==> ds[i].pkg == ds[j].pkg && ds[i].simple == ds[j].simple)
  {
    seq(|ds|, i requires 0 <= i < |ds| => ds[i].AsClass())
  }

  /** DTOGeneratorImpl. */
  class DTOGenerator {
    const version: Version
    /** File.separatorChar. */
    const separator: char
    var classesToGenerate: seq<JClass>
    var fileWriters: Writers
    /** The absolute path of the output directory, unset until setGeneratedDirectory. */
    var generatedDirectory: Option<string>

    /** A generator with no class to generate, no writer and no output directory. */
    constructor (version: Version, separator: char)
      ensures this.version == version && this.separator == separator
      ensures classesToGenerate == [] && fileWriters == map[] && generatedDirectory == None
    {
      this.version := version;
      this.separator := separator;
      classesToGenerate := [];
      fileWriters := map[];
      generatedDirectory := None;
    }

    /** setGeneratedDirectory. */
    method SetGeneratedDirectory(directory: string)
      modifies this
      ensures generatedDirectory == Some(directory)
      ensures classesToGenerate == old(classesToGenerate) && fileWriters == old(fileWriters)
    {
      generatedDirectory := Some(directory);
    }

    /** isClassToGenerate. */
    predicate IsClassToGenerate(c: JClass)
      reads this
    {
      c in classesToGenerate
    }

    /**
      makeDTOPackage: fails exactly when the class's DTO package directory is
      missing and cannot be created.
     */
    method MakeDTOPackage(d: ClassDecl, fs: FileSystem) returns (st: Status)
      requires generatedDirectory.Some?
      ensures st == Done <==> PackageDirectory(generatedDirectory.value, separator, d.pkg) !in fs.failingDirectories
      ensures st != Done ==> st == Failed(DirectoryNotCreated)
    {
      var packageDirectory := generatedDirectory.value + [separator] + ReplaceChar(DTOPackage(d.pkg), '.', separator);
      if packageDirectory in fs.failingDirectories {
        st := Failed(DirectoryNotCreated);
      } else {
        st := Done;
      }
    }

    /** getDTOClassFileWriter; on success the writer is `fileWriters[d.AsClass()]`. */
    method GetDTOClassFileWriter(d: ClassDecl, fs: FileSystem) returns (st: Status)
      requires generatedDirectory.Some?
      modifies this
      ensures classesToGenerate == old(classesToGenerate) && generatedDirectory == old(generatedDirectory)
      ensures (st, fileWriters) == Open(old(fileWriters), d.AsClass(), DTOFilePath(generatedDirectory.value, separator, d), fs)
    {
      var c := d.AsClass();
      if c !in fileWriters {
        var directory := generatedDirectory.value + [separator] + ReplaceAll(DTOPackage(d.pkg), ".", [separator]);
        var classFile := directory + [separator] + d.simple + "DTO.java";
        if classFile in fs.failingFiles {
          return Failed(FileNotCreated(classFile));
        }
        fileWriters := fileWriters[c := Buffer([], false)];
      }
      st := Done;
    }

    /** Consecutive FileWriter.write calls on the class's cached writer. */
    method WriteAll(c: JClass, texts: seq<string>) returns (st: Status)
      requires c in fileWriters && texts != []
      modifies this
      ensures classesToGenerate == old(classesToGenerate) && generatedDirectory == old(generatedDirectory)
      ensures st == Done <==> !old(fileWriters)[c].closed
      ensures st != Done ==> st == Failed(StreamClosed) && fileWriters == old(fileWriters)
      ensures st == Done ==> fileWriters == old(fileWriters)[c := Buffer(old(fileWriters)[c].writes + texts, false)]
    {
      if fileWriters[c].closed {
        st := Failed(StreamClosed);
      } else {
        fileWriters := fileWriters[c := Buffer(fileWriters[c].writes + texts, false)];
        st := Done;
      }
    }

    /** FileWriter.close on the class's cached writer. */
    method Close(c: JClass)
      requires c in fileWriters
      modifies this
      ensures classesToGenerate == old(classesToGenerate) && generatedDirectory == old(generatedDirectory)
      ensures fileWriters == old(fileWriters)[c := old(fileWriters)[c].(closed := true)]
    {
      fileWriters := fileWriters[c := fileWriters[c].(closed := true)];
    }

    /**
      getDTOFieldType of the copy, for a field of `d`: the copy's rendering of
      the field's type against the current membership list.
     */
    method GetDTOFieldType(d: ClassDecl, f: JField) returns (r: string)
      ensures r == TypeText(version, d.pkg, classesToGenerate, f.genericType)
    {
      match version {
        case Newest =>
          r := GeneratorV3.GetDTOType(d.pkg, classesToGenerate, f.genericType);
        case Middle =>
          r := GeneratorV2.GetDTOType(d.pkg, classesToGenerate, f.genericType);
        case Oldest =>
          r := GeneratorV1.FieldPackage(d.pkg, classesToGenerate, f.genericType)
            + GeneratorV1.FieldType(classesToGenerate, f.genericType);
      }
    }

    /** makeDTOField: the field's block appended to the class's writer. */
    method MakeDTOField(d: ClassDecl, f: JField, fs: FileSystem) returns (st: Status)
      requires generatedDirectory.Some?
      modifies this
      ensures classesToGenerate == old(classesToGenerate) && generatedDirectory == old(generatedDirectory)
      ensures (st, fileWriters) == Emit(old(fileWriters), d.AsClass(), DTOFilePath(generatedDirectory.value, separator, d), fs,
                                        FieldBlock(version, classesToGenerate, d, f))
    {
      st := GetDTOClassFileWriter(d, fs);
      if st.Failed? {
        return;
      }
      var fieldType := GetDTOFieldType(d, f);
      st := WriteAll(d.AsClass(), FieldText(d, fieldType, f.name));
    }

    /** makeDTOFieldGetter: the getter's block appended to the class's writer. */
    method MakeDTOFieldGetter(d: ClassDecl, f: JField, fs: FileSystem) returns (st: Status)
      requires generatedDirectory.Some? && f.name != []
      modifies this
      ensures classesToGenerate == old(classesToGenerate) && generatedDirectory == old(generatedDirectory)
      ensures (st, fileWriters) == Emit(old(fileWriters), d.AsClass(), DTOFilePath(generatedDirectory.value, separator, d), fs,
                                        GetterBlock(version, classesToGenerate, d, f))
    {
      st := GetDTOClassFileWriter(d, fs);
      if st.Failed? {
        return;
      }
      var methodSignature := (if Erasure(f.genericType) == BooleanClass then "is" else "get") + AccessorSuffix(version, f.name);
      var fieldType := GetDTOFieldType(d, f);
      st := WriteAll(d.AsClass(), GetterText(d, fieldType, methodSignature, f.name));
    }

    /** makeDTOFieldSetter: the setter's block appended to the class's writer. */
    method MakeDTOFieldSetter(d: ClassDecl, f: JField, fs: FileSystem) returns (st: Status)
      requires generatedDirectory.Some? && f.name != []
      modifies this
      ensures classesToGenerate == old(classesToGenerate) && generatedDirectory == old(generatedDirectory)
      ensures (st, fileWriters) == Emit(old(fileWriters), d.AsClass(), DTOFilePath(generatedDirectory.value, separator, d), fs,
                                        SetterBlock(version, classesToGenerate, d, f))
    {
      st := GetDTOClassFileWriter(d, fs);
      if st.Failed? {
        return;
      }
      var methodSignature := "set" + AccessorSuffix(version, f.name);
      var fieldType := GetDTOFieldType(d, f);
      st := WriteAll(d.AsClass(), SetterText(d, fieldType, methodSignature, f.name, SimpleName(Erasure(f.genericType))));
    }

    /**
      The first loop of makeDTOClass: with the class's writer cached and open,
      the field block of every kept field is appended to it, in order.
     */
    method MakeDTOFields(d: ClassDecl, fs: FileSystem)
      requires generatedDirectory.Some? && d.AsClass() in fileWriters && !fileWriters[d.AsClass()].closed
      modifies this
      ensures classesToGenerate == old(classesToGenerate) && generatedDirectory == old(generatedDirectory)
      ensures fileWriters == old(fileWriters)[d.AsClass() :=
        Buffer(old(fileWriters)[d.AsClass()].writes + FieldBlocks(version, classesToGenerate, d, d.fields), false)]
    {
      var c := d.AsClass();
      ghost var target := fileWriters[c].writes + FieldBlocks(version, classesToGenerate, d, d.fields);
      var i := 0;
      while i < |d.fields|
        invariant 0 <= i <= |d.fields|
        invariant classesToGenerate == old(classesToGenerate) && generatedDirectory == old(generatedDirectory)
        invariant c in fileWriters && !fileWriters[c].closed && fileWriters == old(fileWriters)[c := fileWriters[c]]
        invariant fileWriters[c].writes + FieldBlocks(version, classesToGenerate, d, d.fields[i..]) == target
      {
        var field := d.fields[i];
        FieldBlocksStep(version, classesToGenerate, d, d.fields, i, fileWriters[c].writes, target);
        if Emitted(version, field) {
          var st := MakeDTOField(d, field, fs);
        }
        i := i + 1;
      }
      assert d.fields[i..] == [];
      assert fileWriters[c].writes == target;
      assert fileWriters[c] == Buffer(target, false);
    }

    /**
      The second loop of makeDTOClass: with the class's writer cached and open,
      the getter block and the setter block of every kept field are appended to
      it, in order.
     */
    method MakeDTOAccessors(d: ClassDecl, fs: FileSystem)
      requires generatedDirectory.Some? && NamedFields(d.fields)
      requires d.AsClass() in fileWriters && !fileWriters[d.AsClass()].closed
      modifies this
      ensures classesToGenerate == old(classesToGenerate) && generatedDirectory == old(generatedDirectory)
      ensures fileWriters == old(fileWriters)[d.AsClass() :=
        Buffer(old(fileWriters)[d.AsClass()].writes + AccessorBlocks(version, classesToGenerate, d, d.fields), false)]
    {
      var c := d.AsClass();
      ghost var target := fileWriters[c].writes + AccessorBlocks(version, classesToGenerate, d, d.fields);
      var i := 0;
      while i < |d.fields|
        invariant 0 <= i <= |d.fields|
        invariant classesToGenerate == old(classesToGenerate) && generatedDirectory == old(generatedDirectory)
        invariant c in fileWriters && !fileWriters[c].closed && fileWriters == old(fileWriters)[c := fileWriters[c]]
        invariant NamedFields(d.fields[i..])
        invariant fileWriters[c].writes + AccessorBlocks(version, classesToGenerate, d, d.fields[i..]) == target
      {
        var field := d.fields[i];
        AccessorBlocksStep(version, classesToGenerate, d, d.fields, i, fileWriters[c].writes, target);
        if Emitted(version, field) {
          var st := MakeDTOFieldGetter(d, field, fs);
          st := MakeDTOFieldSetter(d, field, fs);
        }
        i := i + 1;
      }
      assert d.fields[i..] == [];
      assert fileWriters[c].writes == target;
      assert fileWriters[c] == Buffer(target, false);
    }

    /**
      makeDTOClass: the header, the field blocks, the accessor blocks and the
      closing brace, all appended to the class's writer. Once the header is
      written the writer is open and cached, so the field, getter and setter
      calls cannot fail.
     */
    method MakeDTOClass(d: ClassDecl, stamp: string, fs: FileSystem) returns (st: Status)
      requires generatedDirectory.Some? && NamedFields(d.fields)
      modifies this
      ensures classesToGenerate == old(classesToGenerate) && generatedDirectory == old(generatedDirectory)
      ensures (st, fileWriters) == Emit(old(fileWriters), d.AsClass(), DTOFilePath(generatedDirectory.value, separator, d), fs,
                                        ClassText(version, classesToGenerate, d, stamp))
    {
      var c := d.AsClass();
      st := GetDTOClassFileWriter(d, fs);
      if st.Failed? {
        return;
      }
      ghost var cached := fileWriters;
      ghost var base := fileWriters[c].writes;
      st := WriteAll(c, HeaderText(d, stamp));
      if st.Failed? {
        return;
      }
      MakeDTOFields(d, fs);
      MakeDTOAccessors(d, fs);
      st := WriteAll(c, ClosingText);
      ClassTextAppended(version, classesToGenerate, d, stamp, base);
      assert fileWriters == cached[c := Buffer(base + ClassText(version, classesToGenerate, d, stamp), false)];
    }

    /** generateDTO. */
    method GenerateDTO(d: ClassDecl, stamp: string, fs: FileSystem) returns (st: Status)
      requires generatedDirectory.Some? && NamedFields(d.fields)
      modifies this
      ensures classesToGenerate == old(classesToGenerate) && generatedDirectory == old(generatedDirectory)
      ensures (st, fileWriters) == Generate(old(fileWriters), generatedDirectory.value, separator, fs, d,
                                            ClassText(version, classesToGenerate, d, stamp))
    {
      st := MakeDTOPackage(d, fs);
      if st.Failed? {
        return;
      }
      st := MakeDTOClass(d, stamp, fs);
      if st.Failed? {
        return;
      }
      st := GetDTOClassFileWriter(d, fs);
      Close(d.AsClass());
    }

    /**
      generateDTOs: the membership list becomes the classes handed in, which are
      then generated in order, `clock(i)` being the clock reading while the i-th
      is written; the first failure ends the call.
     */
    method GenerateDTOs(ds: seq<ClassDecl>, clock: nat -> string, fs: FileSystem) returns (st: Status)
      requires generatedDirectory.Some? && AllNamed(ds)
      modifies this
      ensures classesToGenerate == Classes(ds) && generatedDirectory == old(generatedDirectory)
      ensures (st, fileWriters) == RunAll(old(fileWriters), generatedDirectory.value, separator, fs, ds, Texts(version, Classes(ds), ds, clock))
    {
      classesToGenerate := Classes(ds);
      ghost var texts := Texts(version, Classes(ds), ds, clock);
      ghost var run := RunAll(old(fileWriters), generatedDirectory.value, separator, fs, ds, texts);
      st := Done;
      var i := 0;
      while i < |ds|
        invariant 0 <= i <= |ds|
        invariant classesToGenerate == Classes(ds) && generatedDirectory == old(generatedDirectory)
        invariant st == Done
        invariant NonEmptyTexts(texts[i..])
        invariant run == RunAll(fileWriters, generatedDirectory.value, separator, fs, ds[i..], texts[i..])
      {
        RunFrom(fileWriters, generatedDirectory.value, separator, fs, ds, texts, i);
        st := GenerateDTO(ds[i], clock(i), fs);
        if st.Failed? {
          return;
        }
        i := i + 1;
      }
    }
  }
}
