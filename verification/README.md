# DTO Maven Plugin: generator and class finder

This project is a Dafny model of the core of the DTO Maven Plugin (wpetit/dto-maven-plugin).
The plugin finds classes on a class path, and for each class it writes the Java source of a
serialisable Data Transfer Object (DTO) class. The DTO lives in the sub-package `dto` and is
named after the class with `DTO` appended. It has one private field, one getter and one setter
per field of the class. Field types that name another generated class are rewritten to that
class's DTO.

The repository has three copies of `DTOGeneratorImpl`. The model covers all three:

- the oldest, `dto-maven-plugin/.../generator`;
- the middle, `dto-maven-plugin/.../generator/impl`;
- the newest, `src/main/.../generator/impl`.

It also covers the two copies of `ClassFinderImpl` in `.../generator/impl`.

Modules:

- `Wrappers`: `Option` and `Result`.
- `Strings`:
  - `Character.toUpperCase` and `Character.toLowerCase` on ASCII;
  - `String.replace` in its char and string forms;
  - `lastIndexOf`;
  - joining, with the lemmas about them.
- `JavaTypes`: classes, generic types and fields as values, in place of reflection.
  - A `JClass` is a named class or primitive, or an array over a component class.
  - `SimpleName`, `PackageOf` and `Erasure` give the JDK's answers.
- `Naming`: the rules the three copies share:
  - the DTO package;
  - the package-prefix rule of `getDTOFieldPackage`;
  - the DTO file path;
  - capitalised accessor names;
  - the text of the header, field, getter and setter blocks.

  It also defines `Denotes`, Java's reading of a type reference, which is used to prove the prefix rule right.
- `GeneratorV1`, `GeneratorV2` and `GeneratorV3`: how the oldest, middle and newest copies render field types and accessor names.
  - `GetDTOType` and its argument loop are methods, each proved equal to a recursive function `DTOType`.
- `DTOText`: the full text `makeDTOClass` writes for a class, per copy. Only the oldest copy writes blocks for static fields.
- `Emitter`: the class `DTOGenerator`, with the generator's mutable state:
  - `classesToGenerate`;
  - the writer cache `fileWriters`;
  - `generatedDirectory`.

  Every method updates that state and is proved against a function: `Open`, `Emit`, `Generate` or `RunAll`. A writer is a buffer of the strings written to it plus a closed flag. The file system is the set of directories and files whose creation fails.
- `Runs`: what a whole `generateDTOs` run does to the writer cache.
  - Entries are never lost.
  - A class handed in twice makes the run fail.
  - A run over fresh classes succeeds exactly when the classes are distinct and writable, and then leaves each writer holding its class's text.
- `ClassPaths`: the pattern and path rewriting both class finders share, and the search over base directories as a function `FindAll`. The Ant scanners and the class loader are parameters.
- `ClassFinderV3` and `ClassFinderV2`: the newest and middle class finders as methods with their loops, each proved equal to `FindAll` or `LoadNamed`.

## Model

| member | source | states |
|---|---|---|
| Strings.ToUpper | src/main/java/fr/maven/dto/generator/impl/DTOGeneratorImpl.java:367-368 | A lower-case ASCII letter becomes its upper-case letter (code point minus 32); every other character is left unchanged |
| Strings.ReplaceChar | src/main/java/fr/maven/dto/generator/impl/DTOGeneratorImpl.java:101-102 | `String.replace(char, char)` keeps the length and replaces every occurrence of the target, position by position, and nothing else |
| Strings.ReplaceCharAgrees | src/main/java/fr/maven/dto/generator/impl/DTOGeneratorImpl.java:272-274 | The char form of `replace` used for the package directory and the string form used for the DTO file give the same string for a one-character target |
| Naming.PackagePrefix | src/main/java/fr/maven/dto/generator/impl/DTOGeneratorImpl.java:245-257 | The prefix is empty exactly when the class has no package, is in `java.lang`, or is generated and in the containing class's package. Otherwise it is the DTO package plus a dot for a generated class and the class's own package plus a dot for any other class |
| Naming.DTOFileInPackageDirectory | src/main/java/fr/maven/dto/generator/impl/DTOGeneratorImpl.java:97-110 | The file `getDTOClassFileWriter` opens lies in the directory `makeDTOPackage` creates. That directory is the package's directory followed by `dto` |
| Naming.Capitalised | src/main/java/fr/maven/dto/generator/impl/DTOGeneratorImpl.java:367-380 | The accessor suffix of the newer copies has the name's length, the upper-cased first character, and the rest of the name unchanged |
| Naming.CapitalisedRecoversName | src/main/java/fr/maven/dto/generator/impl/DTOGeneratorImpl.java:405-412 | For a field name starting with a lower-case letter, lower-casing the first character of the accessor suffix gives the name back |
| Naming.PrefixedNameDenotesTarget | src/main/java/fr/maven/dto/generator/impl/DTOGeneratorImpl.java:232-258 | For a class in a named package that is not a generated class in `java.lang` or without a package, written inside the DTO package, the prefix plus simple name (plus `DTO` for a generated class) names the intended class under Java's rules: the DTO of a generated class, the class itself otherwise. A qualified name must have a well-formed package name before its last dot |
| Naming.QualifiedDenotes | src/main/java/fr/maven/dto/generator/impl/DTOGeneratorImpl.java:251-254 | For a well-formed package name `q`, the prefix `q.` before a dot-free name makes Java read the name in package `q` |
| Naming.UnnamedPackageNotDenoted | src/main/java/fr/maven/dto/generator/impl/DTOGeneratorImpl.java:245-257 | For a class in the unnamed package (empty package name), the prefix is a lone `.`, or `.dto.` when the class is generated. What precedes the last dot of the written name is then no package name, so the name denotes no class |
| Naming.GeneratedUnqualifiedNotDenoted | src/main/java/fr/maven/dto/generator/impl/DTOGeneratorImpl.java:245-257 | A generated class in `java.lang` (referenced from another package) or without a package gets the empty prefix, and its bare `…DTO` name does not denote its DTO from the DTO's package |
| GeneratorV1.AccessorSuffix | dto-maven-plugin/src/main/java/fr/maven/dto/generator/DTOGeneratorImpl.java:282-291 | The oldest copy's suffix upper-cases every character equal to the first one and leaves the others unchanged |
| GeneratorV1.AgreesWithMiddleOnClasses | dto-maven-plugin/src/main/java/fr/maven/dto/generator/DTOGeneratorImpl.java:141-175 | For a field whose type is a class (array or not), the oldest copy writes the same type as the middle copy |
| GeneratorV1.OldestIsPrefixOfMiddle | dto-maven-plugin/src/main/java/fr/maven/dto/generator/DTOGeneratorImpl.java:141-150 | The oldest copy drops generic arguments. For an ungenerated parameterized type it writes the raw type, which followed by `<` is a prefix of the middle copy's text |
| GeneratorV1.AccessorSuffixIsCapitalisedIff | dto-maven-plugin/src/main/java/fr/maven/dto/generator/DTOGeneratorImpl.java:282-291 | The oldest copy's suffix equals the intended one if and only if upper-casing leaves the first character alone or that character does not occur again |
| GeneratorV1.RepeatedFirstCharacterExample | dto-maven-plugin/src/main/java/fr/maven/dto/generator/DTOGeneratorImpl.java:284-290 | For the field `aba` the oldest copy writes suffix `AbA`; the newer copies write `Aba` |
| GeneratorV2.GetDTOType | dto-maven-plugin/src/main/java/fr/maven/dto/generator/impl/DTOGeneratorImpl.java:156-184 | The method building the type in a buffer returns exactly the middle copy's `DTOType` of the field's generic type |
| GeneratorV2.GetArgumentsText | dto-maven-plugin/src/main/java/fr/maven/dto/generator/impl/DTOGeneratorImpl.java:165-171 | The loop over the type arguments writes the rendered arguments joined by `, ` (no separator after the last) |
| GeneratorV2.AgreesWithNewestWithoutArrays | dto-maven-plugin/src/main/java/fr/maven/dto/generator/impl/DTOGeneratorImpl.java:156-218 | On every type with no array anywhere in it, the middle copy writes what the newest copy writes |
| GeneratorV2.ArrayTypeText | dto-maven-plugin/src/main/java/fr/maven/dto/generator/impl/DTOGeneratorImpl.java:174-181 | An ungenerated array type is written as its component's simple name with one more `[]` than it has dimensions, and no package |
| GeneratorV2.BeanArrayExample | dto-maven-plugin/src/main/java/fr/maven/dto/generator/impl/DTOGeneratorImpl.java:174-181 | A `Bean[]` field is written `Bean[][]` by the middle copy and `fr.maven.dto.bean.Bean[]` by the newest |
| GeneratorV3.ArrayComponentType | src/main/java/fr/maven/dto/generator/impl/DTOGeneratorImpl.java:198-204 | The innermost component is never an array, and a non-array class is its own component |
| GeneratorV3.ArrayDimension | src/main/java/fr/maven/dto/generator/impl/DTOGeneratorImpl.java:214-221 | The dimension is zero exactly for a class that is not an array |
| GeneratorV3.ArrayDecomposition | src/main/java/fr/maven/dto/generator/impl/DTOGeneratorImpl.java:198-221 | Nesting the innermost component in as many arrays as the dimension gives back the class |
| GeneratorV3.ArraySimpleName | src/main/java/fr/maven/dto/generator/impl/DTOGeneratorImpl.java:174-179 | An array's JDK simple name is its innermost component's simple name followed by one `[]` per dimension, so the newest copy's loop rebuilds it |
| GeneratorV3.GetDTOType | src/main/java/fr/maven/dto/generator/impl/DTOGeneratorImpl.java:156-188 | The method building the type in a buffer returns exactly the newest copy's `DTOType` of the field's generic type |
| GeneratorV3.GetArgumentsText | src/main/java/fr/maven/dto/generator/impl/DTOGeneratorImpl.java:165-170 | The loop over the type arguments writes the rendered arguments joined by `, ` (no separator after the last) |
| GeneratorV3.PlainTypeDenotesTarget | src/main/java/fr/maven/dto/generator/impl/DTOGeneratorImpl.java:180-185 | A non-array class is written as the prefix, its simple name and `DTO` exactly when it is generated. For a class in a named package that is not a generated class in `java.lang`, that text names the intended class from the DTO's package |
| GeneratorV3.ArrayTypeText | src/main/java/fr/maven/dto/generator/impl/DTOGeneratorImpl.java:174-179 | An array is written as its innermost component's package prefix followed by the array's own simple name, never with `DTO` |
| GeneratorV3.GeneratedArrayExample | src/main/java/fr/maven/dto/generator/impl/DTOGeneratorImpl.java:174-179 | A `Bean[]` field with `Bean` generated is written `fr.maven.dto.bean.dto.Bean[]` from another package and `Bean[]` from `Bean`'s own package. The element name `fr.maven.dto.bean.dto.Bean` denotes a class `Bean` in the DTO package, not `BeanDTO`, and `Bean` does not denote `BeanDTO` either |
| GeneratorV3.IntendedArrayDenotesTarget | src/main/java/fr/maven/dto/generator/impl/DTOGeneratorImpl.java:174-185 | The corrected array text is the component written as a class of its own (with `DTO` when generated) plus one `[]` per dimension. Its element name denotes the intended class, and it equals the newest copy's text whenever the component is not generated |
| GeneratorV3.StringExample | src/test/java/fr/maven/dto/generator/impl/DTOGeneratorImplTest.java:229-241 | A `String` field is written `String` |
| GeneratorV3.UngeneratedListExample | src/test/java/fr/maven/dto/generator/impl/DTOGeneratorImplTest.java:268-281 | `List<Bean>` with no class generated is written `java.util.List<fr.maven.dto.bean.Bean>` |
| GeneratorV3.GeneratedListExample | src/test/java/fr/maven/dto/generator/impl/DTOGeneratorImplTest.java:151-152 | `List<Bean>` with `Bean` generated is written `java.util.List<BeanDTO>` |
| GeneratorV3.GeneratedMapExample | src/test/java/fr/maven/dto/generator/impl/DTOGeneratorImplTest.java:505-525 | `Map<Bean, AnotherBean>` with both generated is written `java.util.Map<BeanDTO, AnotherBeanDTO>` |
| GeneratorV3.ArrayExample | src/test/java/fr/maven/dto/generator/impl/DTOGeneratorImplTest.java:289-302 | A `Bean[]` field with nothing generated is written `fr.maven.dto.bean.Bean[]` |
| DTOText.Kept | src/main/java/fr/maven/dto/generator/impl/DTOGeneratorImpl.java:317-326 | The fields that get blocks are exactly the declared fields the copy emits (for the oldest copy, all of them) |
| DTOText.ClassText | src/main/java/fr/maven/dto/generator/impl/DTOGeneratorImpl.java:303-329 | The class text starts with the header up to `serialVersionUID` and ends with the closing `}` |
| DTOText.FieldBlocksOfKept | src/main/java/fr/maven/dto/generator/impl/DTOGeneratorImpl.java:317-321 | The field blocks are those of the kept fields alone, four lines per kept field |
| DTOText.AccessorBlocksOfKept | src/main/java/fr/maven/dto/generator/impl/DTOGeneratorImpl.java:322-327 | The accessor blocks are those of the kept fields alone, twelve lines per kept field |
| DTOText.StaticFieldsSkipped | src/main/java/fr/maven/dto/generator/impl/DTOGeneratorImpl.java:317-327 | The class text is the text of the class reduced to its kept fields. Its length is the header, sixteen lines per kept field, and the closing line |
| DTOText.FieldBlocksSameClass | src/main/java/fr/maven/dto/generator/impl/DTOGeneratorImpl.java:341-351 | The field blocks depend on the class only through its package and simple name |
| DTOText.AccessorBlocksSameClass | src/main/java/fr/maven/dto/generator/impl/DTOGeneratorImpl.java:363-424 | The accessor blocks depend on the class only through its package and simple name |
| DTOText.DeclaredInFieldBlocks | src/main/java/fr/maven/dto/generator/impl/DTOGeneratorImpl.java:349 | Every kept field's declaration line appears in the field blocks |
| DTOText.FieldDeclared | src/main/java/fr/maven/dto/generator/impl/DTOGeneratorImpl.java:303-329 | Every kept field of the class is declared in its DTO text |
| DTOText.AccessorNameExamples | src/test/java/fr/maven/dto/generator/impl/DTOGeneratorImplTest.java:596-673 | In the newer copies the field `a` gets `getA` and `setA`, the boolean `attribut2` gets `isAttribut2`, and `bean` gets `getBean` |
| DTOText.FieldLineExample | src/test/java/fr/maven/dto/generator/impl/DTOGeneratorImplTest.java:480 | In `Bean2`'s DTO, with `Bean` generated, the field `bean` is declared `private BeanDTO bean;` |
| Emitter.Open | src/main/java/fr/maven/dto/generator/impl/DTOGeneratorImpl.java:269-293 | It succeeds exactly when the class already has a writer or its file can be created, and then the class has a writer. A failure is `FileNotCreated` for the class's file. No entry is removed or replaced, and only the class's entry can be new |
| Emitter.Emit | src/main/java/fr/maven/dto/generator/impl/DTOGeneratorImpl.java:341-351 | It succeeds exactly when the writer is open (or can be created). It fails with "stream closed" exactly when the cached writer is closed. On success the block is appended to the writer; on failure nothing changes |
| Emitter.Generate | src/main/java/fr/maven/dto/generator/impl/DTOGeneratorImpl.java:83-87 | It succeeds exactly when the package directory can be made and the writer is open or can be created. Then the writer holds its earlier writes followed by the class text and is closed; otherwise nothing changes |
| Emitter.Texts | src/main/java/fr/maven/dto/generator/impl/DTOGeneratorImpl.java:70-75 | One text per class handed in, and none of them is empty, as `RunAll` needs |
| Emitter.Classes | src/main/java/fr/maven/dto/generator/impl/DTOGeneratorImpl.java:71 | One class object per handed-in class; two are the same class exactly when they share package and simple name |
| Emitter.DTOGenerator.constructor | src/main/java/fr/maven/dto/generator/impl/DTOGeneratorImpl.java:48-51 | A new generator has no class to generate, no writer and no output directory |
| Emitter.DTOGenerator.SetGeneratedDirectory | src/main/java/fr/maven/dto/generator/impl/DTOGeneratorImpl.java:60-62 | Sets the output directory and nothing else |
| Emitter.DTOGenerator.MakeDTOPackage | src/main/java/fr/maven/dto/generator/impl/DTOGeneratorImpl.java:97-110 | It fails exactly when the DTO package directory cannot be created, and then with the directory-not-created error (the source's fixed message) |
| Emitter.DTOGenerator.GetDTOClassFileWriter | src/main/java/fr/maven/dto/generator/impl/DTOGeneratorImpl.java:269-293 | The status and the new writer cache are those of `Open` on the class's DTO file; the other fields are unchanged |
| Emitter.DTOGenerator.WriteAll | src/main/java/fr/maven/dto/generator/impl/DTOGeneratorImpl.java:305-316 | Consecutive writes succeed exactly on an open writer and then append the lines; on a closed writer nothing changes |
| Emitter.DTOGenerator.Close | src/main/java/fr/maven/dto/generator/impl/DTOGeneratorImpl.java:86 | The class's writer is marked closed and keeps its contents |
| Emitter.DTOGenerator.GetDTOFieldType | src/main/java/fr/maven/dto/generator/impl/DTOGeneratorImpl.java:143-145 | The field type is the copy's type text against the current membership list |
| Emitter.DTOGenerator.MakeDTOField | src/main/java/fr/maven/dto/generator/impl/DTOGeneratorImpl.java:341-351 | The status and new writer cache are those of `Emit` with the field's block |
| Emitter.DTOGenerator.MakeDTOFieldGetter | src/main/java/fr/maven/dto/generator/impl/DTOGeneratorImpl.java:363-389 | The status and new writer cache are those of `Emit` with the getter's block |
| Emitter.DTOGenerator.MakeDTOFieldSetter | src/main/java/fr/maven/dto/generator/impl/DTOGeneratorImpl.java:401-424 | The status and new writer cache are those of `Emit` with the setter's block |
| Emitter.DTOGenerator.MakeDTOFields | src/main/java/fr/maven/dto/generator/impl/DTOGeneratorImpl.java:317-321 | On an open writer, the first loop appends the field blocks of the emitted fields, in order |
| Emitter.DTOGenerator.MakeDTOAccessors | src/main/java/fr/maven/dto/generator/impl/DTOGeneratorImpl.java:322-327 | On an open writer, the second loop appends each emitted field's getter block then setter block, in order |
| Emitter.DTOGenerator.MakeDTOClass | src/main/java/fr/maven/dto/generator/impl/DTOGeneratorImpl.java:303-329 | The status and new writer cache are those of `Emit` with the whole class text |
| Emitter.DTOGenerator.GenerateDTO | src/main/java/fr/maven/dto/generator/impl/DTOGeneratorImpl.java:83-87 | The status and new writer cache are those of `Generate` with the class text |
| Emitter.DTOGenerator.GenerateDTOs | src/main/java/fr/maven/dto/generator/impl/DTOGeneratorImpl.java:70-75 | The membership list becomes the handed-in classes. The status and writer cache are those of `RunAll` over the classes' texts, stopping at the first failure |
| Runs.OpenReusesWriter | src/main/java/fr/maven/dto/generator/impl/DTOGeneratorImpl.java:271-292 | Opening a class again returns its cached writer and changes nothing; opening adds at most one entry |
| Runs.RunCons | src/main/java/fr/maven/dto/generator/impl/DTOGeneratorImpl.java:72-74 | A run generates the first class and continues with the rest only if that succeeded |
| Runs.RunKeepsKeys | src/main/java/fr/maven/dto/generator/impl/DTOGeneratorImpl.java:70-75 | A run never removes a writer, and every new writer belongs to a class of the run |
| Runs.RunKeepsEntries | src/main/java/fr/maven/dto/generator/impl/DTOGeneratorImpl.java:70-75 | The writer of a class outside the run, or one already closed, is left as it was |
| Runs.ClosedWriterFails | src/main/java/fr/maven/dto/generator/impl/DTOGeneratorImpl.java:83-87 | A run that reaches a class whose writer is already closed fails |
| Runs.SuccessfulRunClosesAll | src/main/java/fr/maven/dto/generator/impl/DTOGeneratorImpl.java:70-87 | After a successful run every class's writer exists and is closed, and no class was handed in twice |
| Runs.FreshRunSucceeds | src/main/java/fr/maven/dto/generator/impl/DTOGeneratorImpl.java:70-110 | On classes without writers, the run succeeds if and only if the classes are distinct and every package directory and DTO file can be created |
| Runs.FreshRunContents | src/main/java/fr/maven/dto/generator/impl/DTOGeneratorImpl.java:70-87 | After a successful fresh run, the i-th class's writer holds exactly the i-th text and is closed |
| Runs.FreshGeneration | src/main/java/fr/maven/dto/generator/impl/DTOGeneratorImpl.java:70-75 | `generateDTOs` on fresh classes succeeds exactly when they are distinct and writable. Then each class's DTO holds its class text against the handed-in classes, with its clock reading, and is closed |
| ClassPaths.PathPattern | src/main/java/fr/maven/dto/generator/impl/ClassFinderImpl.java:173-174 | A path pattern is six characters longer than the class pattern and ends in `.class`. Before that, every dot is the separator and every other character is kept |
| ClassPaths.PathPatterns | src/main/java/fr/maven/dto/generator/impl/ClassFinderImpl.java:169-177 | One path pattern per class pattern, in the same order |
| ClassPaths.CanonicalClassName | src/main/java/fr/maven/dto/generator/impl/ClassFinderImpl.java:188-192 | No slash or backslash is left in the class name |
| ClassPaths.PathRoundTrip | src/main/java/fr/maven/dto/generator/impl/ClassFinderImpl.java:169-192 | Under `/` or `\`, a dotted class name with no slash, backslash or `.class` in it comes back unchanged from its path pattern |
| ClassPaths.PathPatternExamples | src/test/java/fr/maven/dto/generator/impl/ClassFinderImplTest.java:127-152 | `fr.maven.**.*` becomes `fr/maven/**/*.class` and `**.*` becomes `**/*.class` under `/` |
| ClassPaths.CanonicalClassNameExample | src/test/java/fr/maven/dto/generator/impl/ClassFinderImplTest.java:160-166 | `fr/maven/dto/Bean` becomes `fr.maven.dto.Bean` under `/` |
| ClassPaths.WindowsPathExample | src/main/java/fr/maven/dto/generator/impl/ClassFinderImpl.java:179-192 | `fr\maven\dto\Bean.class` becomes `fr.maven.dto.Bean` under `\`, the example of the method's documentation |
| ClassPaths.Prepend | src/main/java/fr/maven/dto/generator/impl/ClassFinderImpl.java:45-46 | Appending after earlier classes keeps success and failure; on success the earlier classes come first |
| ClassPaths.ClassNames | src/main/java/fr/maven/dto/generator/impl/ClassFinderImpl.java:115-117 | One class name per included file, in the same order |
| ClassPaths.LoadNamed | src/main/java/fr/maven/dto/generator/impl/ClassFinderImpl.java:115-120 | Loading succeeds if and only if every name loads, giving the loaded classes in order. A failure names the first name that does not load |
| ClassPaths.Present | src/main/java/fr/maven/dto/generator/impl/ClassFinderImpl.java:43-44 | The non-null entries: each one is present and an entry of the input, and every non-null input entry is kept. The result is no longer than the input, and as long exactly when no entry is null |
| ClassPaths.PresentConcat | src/main/java/fr/maven/dto/generator/impl/ClassFinderImpl.java:43-48 | Dropping null entries keeps the order: for a concatenation it gives the first part's entries followed by the second's |
| ClassPaths.NullsSkipped | src/main/java/fr/maven/dto/generator/impl/ClassFinderImpl.java:43-48 | The search over a list with null entries equals the search over its non-null entries |
| ClassPaths.FindAllConcat | src/main/java/fr/maven/dto/generator/impl/ClassFinderImpl.java:43-49 | The search over two lists is the search over the first followed, if it succeeded, by the second's classes: results come in base-directory order |
| ClassPaths.FindAllSingle | src/main/java/fr/maven/dto/generator/impl/ClassFinderImpl.java:71-84 | One base directory gives exactly its own scan's classes |
| ClassFinderV3.ConvertClassPatternsToPathPatterns | src/main/java/fr/maven/dto/generator/impl/ClassFinderImpl.java:169-177 | A new array holding the path pattern of each class pattern, in order |
| ClassFinderV3.LoadFiles | src/main/java/fr/maven/dto/generator/impl/ClassFinderImpl.java:115-120 | The loop over included files gives the classes of `LoadNamed` on their class names, stopping at the first that does not load |
| ClassFinderV3.ScanDirectory | src/main/java/fr/maven/dto/generator/impl/ClassFinderImpl.java:105-122 | The classes of the files the directory scanner includes, in order, or the first failing name |
| ClassFinderV3.ScanArchive | src/main/java/fr/maven/dto/generator/impl/ClassFinderImpl.java:143-159 | The classes of the files the archive scanner includes, in order, or the first failing name |
| ClassFinderV3.ScanDirectoryOrArchive | src/main/java/fr/maven/dto/generator/impl/ClassFinderImpl.java:71-84 | A directory is scanned as a directory and anything else as an archive |
| ClassFinderV3.GetClassesToGenerate | src/main/java/fr/maven/dto/generator/impl/ClassFinderImpl.java:32-50 | The result is `FindAll` over the base directories under the path patterns of the include and exclude patterns |
| ClassFinderV2.ConvertClassPatternsToPathPatterns | dto-maven-plugin/src/main/java/fr/maven/dto/generator/impl/ClassFinderImpl.java:102-114 | A null list gives an empty array; otherwise a new array holding one path pattern per class pattern, in order |
| ClassFinderV2.GetClassesToGenerateByName | dto-maven-plugin/src/main/java/fr/maven/dto/generator/impl/ClassFinderImpl.java:32-41 | The named classes loaded in order, or the first name that cannot be loaded |
| ClassFinderV2.ScanInto | dto-maven-plugin/src/main/java/fr/maven/dto/generator/impl/ClassFinderImpl.java:63-88 | The classes found so far followed by those of the right scanner's files, or the first failing name |
| ClassFinderV2.GetClassesToGenerate | dto-maven-plugin/src/main/java/fr/maven/dto/generator/impl/ClassFinderImpl.java:50-92 | The result is `FindAll` over the base directories, a null pattern list counting as no patterns |

## Left out

- Reflection is modelled as data. `JClass`, `JType` and `JField` stand for `Class`, `Type` and `Field`. Only named classes, primitives, arrays and parameterized types are modelled. Wildcard and type-variable arguments would make the source's casts to `Class` throw, and are not modelled.
- Nested and anonymous classes are not modelled. Every class handed to the generator is top level, so its canonical name is its package, a dot, and its simple name.
- The file system is modelled only as the set of directories and files whose creation fails. `exists`, `mkdirs`, `delete` and `createNewFile` are not modelled separately. A writer is an in-memory buffer. The disk contents, encoding and flushing are not modelled.
- `File.getAbsolutePath` is not modelled: the output directory is held as the string it yields.
- The clock is a parameter. `generateDTOs` takes one formatted reading per class, and the `yyyy-MM-dd HH:mm` formatting is not modelled.
- `Character.toUpperCase` and `Character.toLowerCase` are modelled on ASCII letters only. Every other character is left unchanged.
- The Ant `DirectoryScanner` and `ZipScanner` are parameters: the files they include for a base directory and the path patterns. So include/exclude pattern matching and the order in which they list files are not modelled.
- `ClassLoader.loadClass` is a parameter returning `None` for `ClassNotFoundException`. The oldest `ClassFinderImpl` under `.../generator` is not part of this model. In the middle copy, loading through the plugin's own class loader is that same parameter.
- A null base-directory list, and a null pattern list in the newest class finder, throw `NullPointerException` in the source. These are not modelled: the lists are sequences.
- Emitter.DTOGenerator.MakeDTOPackage: requires the output directory to be set; calling it before `setGeneratedDirectory` throws `NullPointerException` in the source.
- Emitter.DTOGenerator.GetDTOClassFileWriter: requires the output directory to be set, for the same reason.
- A null element inside a pattern list is not modelled.
- Naming.PrefixedNameDenotesTarget: requires a named package for the referenced class. For a class in the unnamed package the source writes `.Foo` or `.dto.FooDTO` (and the DTO header `package .dto;`), which is not Java; Naming.UnnamedPackageNotDenoted states this instead.
- Naming.PrefixedNameDenotesTarget: also requires that a generated class be neither in `java.lang` nor without a package (a primitive). The source gives such a class the empty prefix and writes the bare `ThreadDTO` or `intDTO`, which Java does not read as the DTO in `java.lang.dto`; Naming.GeneratedUnqualifiedNotDenoted states this instead.
- GeneratorV3.PlainTypeDenotesTarget: requires a named package, and excludes a generated class in `java.lang` or without a package, for the same reasons.
- Naming.Denotes reads a simple name as a class of the DTO's package, of `java.lang`, or a primitive. It does not decide between them: which classes exist in a package is not part of this model.
- Emitter.DTOGenerator.WriteAll: checks the closed flag once per block rather than once per line. A closed writer fails on the first line either way, so the resulting state is the same.
- ClassFinderV2.ScanInto: the middle class finder writes the directory and archive loops inline. They differ only in which scanner lists the files, so one loop over the listed files models both.
- ClassFinderV3.LoadFiles: `scanDirectory` and `scanArchive` run the same loop over their scanner's files. It is modelled once and both methods call it.
- The three `DTOGeneratorImpl` copies share one `DTOGenerator` class, with a `version` that picks the copy's rendering and static-field rule. The rest of their code is the same.
- The Maven mojos, the launcher and `ClassLoaderProviderImpl` are not part of this model.

Where the written behaviour of the code differs from its description, the model follows the code:

- A class that is not generated but lies in the DTO's source package is still written fully qualified. Only `java.lang` classes and generated classes of the same package are written unqualified.
- The newest copy never appends `DTO` to an array type, even when its component is generated (see the second finding below).

## Findings

| source | as written | input that shows it | evidently intended | confidence | as-written member | corrected member |
|---|---|---|---|---|---|---|
| dto-maven-plugin/src/main/java/fr/maven/dto/generator/impl/DTOGeneratorImpl.java:174-181 | The simple name of an array class, which already ends in `[]`, is followed by another `[]` | a field of type `Bean[]` is written `Bean[][]`, and the package is dropped | `Bean[]` with its component's package, as the newest copy writes it | high, not executed | GeneratorV2.BeanArrayExample | GeneratorV3.ArrayTypeText |
| src/main/java/fr/maven/dto/generator/impl/DTOGeneratorImpl.java:174-179 | For an array, the component's prefix (the DTO package when the component is generated) is followed by the array's simple name, without `DTO` | a `Bean[]` field with `Bean` generated is written `fr.maven.dto.bean.dto.Bean[]` from another package and `Bean[]` from its own, naming no generated class | `fr.maven.dto.bean.dto.BeanDTO[]` and `BeanDTO[]`, the component written as the non-array branch writes a class | medium, not executed | GeneratorV3.GeneratedArrayExample | GeneratorV3.IntendedArrayDenotesTarget |
| dto-maven-plugin/src/main/java/fr/maven/dto/generator/DTOGeneratorImpl.java:282-291 | The accessor name upper-cases the first character with `String.replace`, which changes every occurrence of it | field `aba` gets `getAbA` | `getAba`, only the first character upper-cased, as the newer copies write it | high, not executed | GeneratorV1.RepeatedFirstCharacterExample | Naming.CapitalisedRecoversName |

The corrected array text is GeneratorV3.IntendedArrayText. The `DTOGenerator` class keeps the newest copy's text as written, so that the generated files it models are the ones the source produces.
