/**
  Type rendering of the middle generator copy
  (dto-maven-plugin/src/main/java/fr/maven/dto/generator/impl/DTOGeneratorImpl.java):
  generic types are rendered argument by argument as in the newest copy, but an
  array is taken as a whole, its JDK simple name followed by one more `[]`.
 */
module GeneratorV2 {
  import opened Wrappers
  import opened JavaTypes
  import opened Strings
  import opened Naming
  import GeneratorV3

  /**
    getDTOFieldPackage of the middle copy: the prefix rule applied to the raw
    class of a parameterized type and to the type's own class otherwise, arrays
    included.
   */
  function FieldPackage(ctxPkg: string, list: seq<JClass>, t: JType): string {
    PackagePrefix(ctxPkg, list, Erasure(t))
  }

  /**
    getDTOType of the middle copy: the prefix, then for a parameterized type the
    raw class's simple name and the rendered arguments between angle brackets and
    separated by ", "; for any other class its simple name, `DTO` when that
    exact class is generated, and `[]` when it is an array.
   */
  function DTOType(ctxPkg: string, list: seq<JClass>, t: JType): string
    decreases t
  {
    FieldPackage(ctxPkg, list, t) +
    match t
    case Parameterized(raw, args) =>
      SimpleName(raw) + "<" + Join(seq(|args|, i requires 0 <= i < |args| => DTOType(ctxPkg, list, args[i])), ", ") + ">"
    case ClassType(c) =>
      SimpleName(c) + (if c in list then "DTO" else "") + (if c.ArrayOf? then "[]" else "")
  }

  /** getDTOType of the middle copy as the source computes it, appending to a buffer. */
  method GetDTOType(ctxPkg: string, list: seq<JClass>, t: JType) returns (r: string)
    ensures r == DTOType(ctxPkg, list, t)
    decreases t, 1
  {
    r := FieldPackage(ctxPkg, list, t);
    match t {
      case Parameterized(raw, args) =>
        var inner := GetArgumentsText(ctxPkg, list, t, args);
        r := r + SimpleName(raw) + "<" + inner + ">";
      case ClassType(c) =>
        var name := SimpleName(c);
        if c in list {
          name := name + "DTO";
        }
        if c.ArrayOf? {
          name := name + "[]";
        }
        r := r + name;
    }
  }

  /**
    The loop of getDTOType over the arguments of the parameterized type `t`: each
    argument rendered in turn, with ", " after every argument but the last.
   */
  method GetArgumentsText(ctxPkg: string, list: seq<JClass>, ghost t: JType, args: seq<JType>) returns (inner: string)
    requires t.Parameterized? && t.args == args
    ensures inner == Join(seq(|args|, k requires 0 <= k < |args| => DTOType(ctxPkg, list, args[k])), ", ")
    decreases t, 0
  {
    ghost var parts := seq(|args|, k requires 0 <= k < |args| => DTOType(ctxPkg, list, args[k]));
    inner := "";
    var i := 0;
    while i < |args|
      invariant 0 <= i <= |args|
      invariant i == 0 ==> inner == ""
      invariant 0 < i ==> inner == Join(parts[..i], ", ") + (if i < |args| then ", " else "")
    {
      var a := GetDTOType(ctxPkg, list, args[i]);
      JoinStep(parts, ", ", i, inner);
      inner := inner + a;
      if i != |args| - 1 {
        inner := inner + ", ";
      }
      i := i + 1;
    }
    assert |args| > 0 ==> parts[..|args|] == parts;
  }

  /** No array class occurs as a field type or as a type argument. */
  predicate ArrayFree(t: JType)
    decreases t
  {
    match t
    case ClassType(c) => c.Plain?
    case Parameterized(_, args) => forall i :: 0 <= i < |args| ==> ArrayFree(args[i])
  }

  /** On types without arrays the middle copy writes what the newest copy writes. */
  lemma {:induction false} AgreesWithNewestWithoutArrays(ctxPkg: string, list: seq<JClass>, t: JType)
    requires ArrayFree(t)
    ensures DTOType(ctxPkg, list, t) == GeneratorV3.DTOType(ctxPkg, list, t)
    decreases t
  {
    match t
    case ClassType(c) =>
    case Parameterized(raw, args) =>
      forall i | 0 <= i < |args|
        ensures DTOType(ctxPkg, list, args[i]) == GeneratorV3.DTOType(ctxPkg, list, args[i])
      {
        AgreesWithNewestWithoutArrays(ctxPkg, list, args[i]);
      }
      assert seq(|args|, i requires 0 <= i < |args| => DTOType(ctxPkg, list, args[i]))
          == seq(|args|, i requires 0 <= i < |args| => GeneratorV3.DTOType(ctxPkg, list, args[i]));
  }

  /**
    An array field is written without any package (the JDK gives arrays none)
    and with one `[]` more than its type has dimensions: the simple name of an
    array class already ends with its brackets.
   */
  lemma ArrayTypeText(ctxPkg: string, list: seq<JClass>, c: JClass)
    requires c.ArrayOf? && c !in list
    ensures DTOType(ctxPkg, list, ClassType(c)) ==
      SimpleName(GeneratorV3.ArrayComponentType(c)) + Repeat("[]", GeneratorV3.ArrayDimension(c) + 1)
  {
    GeneratorV3.ArraySimpleName(c);
  }

  /** The array field of the test bean: the middle copy writes `Bean[][]`, the newest `fr.maven.dto.bean.Bean[]`. */
  lemma BeanArrayExample()
    ensures DTOType(GeneratorV3.BeanPackage, [], ClassType(ArrayOf(GeneratorV3.Bean))) == "Bean[][]"
    ensures GeneratorV3.DTOType(GeneratorV3.BeanPackage, [], ClassType(ArrayOf(GeneratorV3.Bean))) == "fr.maven.dto.bean.Bean[]"
  {
    GeneratorV3.ArrayExample();
  }
}
