/**
  Type rendering of the newest generator copy
  (src/main/java/fr/maven/dto/generator/impl/DTOGeneratorImpl.java): generic
  types are rendered argument by argument, arrays are unwrapped to their
  innermost component and get one `[]` per dimension.
 */
module GeneratorV3 {
  import opened Wrappers
  import opened JavaTypes
  import opened Strings
  import opened Naming

  /** getArrayComponentType: the innermost component of an array class, a class itself otherwise. */
  function ArrayComponentType(c: JClass): (r: JClass)
    ensures r.Plain?
    ensures c.Plain? ==> r == c
  {
    match c
    case Plain(_, _) => c
    case ArrayOf(e) => ArrayComponentType(e)
  }

  /** getArrayDimension: how many array levels wrap the innermost component. */
  function ArrayDimension(c: JClass): (n: nat)
    ensures n == 0 <==> c.Plain?
  {
    match c
    case Plain(_, _) => 0
    case ArrayOf(e) => 1 + ArrayDimension(e)
  }

  /** The class `e` wrapped in `n` array levels. */
  function Nest(e: JClass, n: nat): JClass {
    if n == 0 then e else ArrayOf(Nest(e, n - 1))
  }

  /** The component and the dimension together describe the array class exactly. */
  lemma {:induction false} ArrayDecomposition(c: JClass)
    ensures Nest(ArrayComponentType(c), ArrayDimension(c)) == c
  {
    match c
    case Plain(_, _) =>
    case ArrayOf(e) => ArrayDecomposition(e);
  }

  /**
    The JDK's simple name of an array class is its innermost component's
    followed by one `[]` per dimension, so the newest copy writes exactly the
    brackets the field's own type has.
   */
  lemma {:induction false} ArraySimpleName(c: JClass)
    ensures SimpleName(c) == SimpleName(ArrayComponentType(c)) + Repeat("[]", ArrayDimension(c))
  {
    match c
    case Plain(_, _) =>
    case ArrayOf(e) =>
      ArraySimpleName(e);
      calc {
        SimpleName(c);
        SimpleName(e) + "[]";
        SimpleName(ArrayComponentType(e)) + Repeat("[]", ArrayDimension(e)) + "[]";
        SimpleName(ArrayComponentType(c)) + (Repeat("[]", ArrayDimension(e)) + "[]");
      }
  }

  /**
    The class getDTOFieldPackage applies the prefix rule to: the raw class of a
    parameterized type, the innermost component of an array, the class itself otherwise.
   */
  function PrefixClass(t: JType): JClass {
    match t
    case Parameterized(raw, _) => raw
    case ClassType(c) => ArrayComponentType(c)
  }

  /** getDTOFieldPackage of the newest copy, for a field of a class in package `ctxPkg`. */
  function FieldPackage(ctxPkg: string, list: seq<JClass>, t: JType): string {
    PackagePrefix(ctxPkg, list, PrefixClass(t))
  }

  /**
    getDTOType: the package prefix, then for a parameterized type the raw
    class's simple name and the rendered arguments between angle brackets and
    separated by ", "; for an array the component's simple name and one `[]` per
    dimension; for any other class its simple name, followed by `DTO` when the
    class is generated too.
   */
  function DTOType(ctxPkg: string, list: seq<JClass>, t: JType): string
    decreases t
  {
    FieldPackage(ctxPkg, list, t) +
    match t
    case Parameterized(raw, args) =>
      SimpleName(raw) + "<" + Join(seq(|args|, i requires 0 <= i < |args| => DTOType(ctxPkg, list, args[i])), ", ") + ">"
    case ClassType(c) =>
      if c.ArrayOf? then SimpleName(ArrayComponentType(c)) + Repeat("[]", ArrayDimension(c))
      else SimpleName(c) + (if c in list then "DTO" else "")
  }

  /**
    getDTOType as the source computes it: a buffer receives the prefix, then the
    arguments one by one with the separator between two of them, or the brackets
    one dimension at a time.
   */
  method GetDTOType(ctxPkg: string, list: seq<JClass>, t: JType) returns (r: string)
    ensures r == DTOType(ctxPkg, list, t)
    decreases t, 1
  {
    r := FieldPackage(ctxPkg, list, t);
    match t {
      case Parameterized(raw, args) =>
        var inner := GetArgumentsText(ctxPkg, list, t, args);
        r := r + SimpleName(raw) + "<" + inner + ">";
      case ClassType(c) =>
        if c.ArrayOf? {
          r := r + SimpleName(ArrayComponentType(c));
          var base := r;
          var k := 0;
          while k < ArrayDimension(c)
            invariant 0 <= k <= ArrayDimension(c)
            invariant r == base + Repeat("[]", k)
          {
            r := r + "[]";
            k := k + 1;
          }
        } else {
          r := r + SimpleName(c);
          if c in list {
            r := r + "DTO";
          }
        }
    }
  }

  /**
    The loop of getDTOType over the arguments of the parameterized type `t`: each
    argument rendered in turn, with ", " after every argument but the last.
   */
  method GetArgumentsText(ctxPkg: string, list: seq<JClass>, ghost t: JType, args: seq<JType>) returns (inner: string)
    requires t.Parameterized? && t.args == args
    ensures inner == Join(seq(|args|, k requires 0 <= k < |args| => DTOType(ctxPkg, list, args[k])), ", ")
    decreases t, 0
  {
    ghost var parts := seq(|args|, k requires 0 <= k < |args| => DTOType(ctxPkg, list, args[k]));
    inner := "";
    var i := 0;
    while i < |args|
      invariant 0 <= i <= |args|
      invariant i == 0 ==> inner == ""
      invariant 0 < i ==> inner == Join(parts[..i], ", ") + (if i < |args| then ", " else "")
    {
      var a := GetDTOType(ctxPkg, list, args[i]);
      JoinStep(parts, ", ", i, inner);
      inner := inner + a;
      if i != |args| - 1 {
        inner := inner + ", ";
      }
      i := i + 1;
    }
    assert |args| > 0 ==> parts[..|args|] == parts;
  }

  /**
    A class that is not an array is written as the prefix, its simple name and
    `DTO` exactly when it is generated, and that text names the intended class
    (the DTO of a generated class, the class itself otherwise) from the DTO's package.
   */
  lemma PlainTypeDenotesTarget(ctxPkg: string, list: seq<JClass>, c: JClass)
    requires c.Plain? && '.' !in c.simple
    requires c.pkg.Some? ==> PackageName(c.pkg.value)
    requires c in list ==> c.pkg.Some? && c.pkg.value != JavaLang
    ensures DTOType(ctxPkg, list, ClassType(c)) ==
      PackagePrefix(ctxPkg, list, c) + c.simple + (if c in list then "DTO" else "")
    ensures Denotes(DTOType(ctxPkg, list, ClassType(c)), DTOPackage(ctxPkg), IntendedTarget(list, c))
  {
    PrefixedNameDenotesTarget(ctxPkg, list, c);
  }

  /**
    An array is written as the innermost component's prefix followed by the
    array's own simple name: never with `DTO`, and with as many brackets as the
    field's type has dimensions.
   */
  lemma ArrayTypeText(ctxPkg: string, list: seq<JClass>, c: JClass)
    requires c.ArrayOf?
    ensures DTOType(ctxPkg, list, ClassType(c)) ==
      PackagePrefix(ctxPkg, list, ArrayComponentType(c)) + SimpleName(c)
  {
    ArraySimpleName(c);
  }

  /**
    An array of a generated class, as the newest copy writes it: from another
    package the component gets its DTO package but keeps its own simple name, and
    from the same package the bare simple name is written. Neither text names the
    component's DTO; the first names a class no run generates.
   */
  lemma GeneratedArrayExample()
    ensures DTOType(OtherPackage, [Bean], ClassType(ArrayOf(Bean))) == "fr.maven.dto.bean.dto.Bean[]"
    ensures Denotes("fr.maven.dto.bean.dto.Bean", DTOPackage(OtherPackage), (Some("fr.maven.dto.bean.dto"), "Bean"))
    ensures !Denotes("fr.maven.dto.bean.dto.Bean", DTOPackage(OtherPackage), IntendedTarget([Bean], Bean))
    ensures DTOType(BeanPackage, [Bean], ClassType(ArrayOf(Bean))) == "Bean[]"
    ensures !Denotes("Bean", DTOPackage(BeanPackage), IntendedTarget([Bean], Bean))
  {
    assert Bean in [Bean];
    assert BeanPackage != JavaLang && BeanPackage != OtherPackage;
    assert PackagePrefix(OtherPackage, [Bean], Bean) == "fr.maven.dto.bean.dto.";
    assert PackagePrefix(BeanPackage, [Bean], Bean) == "";
    assert Repeat("[]", 1) == "[]";
    PackageNameExample();
    QualifiedDenotes("fr.maven.dto.bean.dto", "Bean", DTOPackage(OtherPackage));
    assert "fr.maven.dto.bean.dto" + "." + "Bean" == "fr.maven.dto.bean.dto.Bean";
    assert LastIndexOf("Bean", '.') < 0;
  }

  /** Supports GeneratedArrayExample: the DTO package of the test beans is a package name. */
  lemma PackageNameExample()
    ensures PackageName("fr.maven.dto.bean.dto")
  {
    PackageNameBean();
    DTOPackageName(BeanPackage);
  }

  /** Supports PackageNameExample: the test package is a package name. */
  lemma PackageNameBean()
    ensures PackageName(BeanPackage)
  {
  }

  /**
    The array text the prefix rule means: the innermost component written as a
    class of its own (with `DTO` when it is generated), then one `[]` per dimension.
   */
  function IntendedArrayText(ctxPkg: string, list: seq<JClass>, c: JClass): string
    requires c.ArrayOf?
  {
    DTOType(ctxPkg, list, ClassType(ArrayComponentType(c))) + Repeat("[]", ArrayDimension(c))
  }

  /**
    The intended array text is the component's name, which names the intended
    class (its DTO when generated), followed by the field's brackets; when the
    component is not generated it is exactly what the newest copy writes.
   */
  lemma IntendedArrayDenotesTarget(ctxPkg: string, list: seq<JClass>, c: JClass)
    requires c.ArrayOf?
    requires var e := ArrayComponentType(c);
      '.' !in e.simple && (e.pkg.Some? ==> PackageName(e.pkg.value)) && (e in list ==> e.pkg.Some? && e.pkg.value != JavaLang)
    ensures var e := ArrayComponentType(c);
      var element := PackagePrefix(ctxPkg, list, e) + e.simple + (if e in list then "DTO" else "");
      IntendedArrayText(ctxPkg, list, c) == element + Repeat("[]", ArrayDimension(c)) &&
      Denotes(element, DTOPackage(ctxPkg), IntendedTarget(list, e))
    ensures ArrayComponentType(c) !in list ==> IntendedArrayText(ctxPkg, list, c) == DTOType(ctxPkg, list, ClassType(c))
  {
    var e := ArrayComponentType(c);
    PlainTypeDenotesTarget(ctxPkg, list, e);
    ArraySimpleName(c);
    if e !in list {
      assert PackagePrefix(ctxPkg, list, e) + e.simple + "" == PackagePrefix(ctxPkg, list, e) + SimpleName(e);
    }
  }

  /** The test package and its beans. */
  const BeanPackage: string := "fr.maven.dto.bean"
  const OtherPackage: string := "fr.maven.dto.other"
  const Bean: JClass := Plain(Some(BeanPackage), "Bean")
  const AnotherBean: JClass := Plain(Some(BeanPackage), "AnotherBean")
  const ListClass: JClass := Plain(Some("java.util"), "List")
  const MapClass: JClass := Plain(Some("java.util"), "Map")
  const StringClass: JClass := Plain(Some(JavaLang), "String")

  /** A java.lang class is written by its simple name. */
  lemma StringExample()
    ensures DTOType(BeanPackage, [], ClassType(StringClass)) == "String"
  {
  }

  /** Supports UngeneratedListExample: its expected text, piece by piece. */
  lemma ListText()
    ensures "java.util." + "List" + "<" + "fr.maven.dto.bean.Bean" + ">" == "java.util.List<fr.maven.dto.bean.Bean>"
  {
  }

  /** Supports GeneratedMapExample: its expected text, piece by piece. */
  lemma MapText()
    ensures "java.util." + "Map" + "<" + ("BeanDTO" + ", " + "AnotherBeanDTO") + ">" == "java.util.Map<BeanDTO, AnotherBeanDTO>"
  {
  }

  /** A list of a class that is not generated keeps the element's qualified name. */
  lemma UngeneratedListExample()
    ensures DTOType(BeanPackage, [], Parameterized(ListClass, [ClassType(Bean)])) == "java.util.List<fr.maven.dto.bean.Bean>"
  {
    assert BeanPackage != JavaLang && "java.util" != JavaLang;
    assert PackagePrefix(BeanPackage, [], Bean) == "fr.maven.dto.bean.";
    assert PackagePrefix(BeanPackage, [], ListClass) == "java.util.";
    assert DTOType(BeanPackage, [], ClassType(Bean)) == "fr.maven.dto.bean.Bean";
    var parts := seq(1, i requires 0 <= i < 1 => DTOType(BeanPackage, [], [ClassType(Bean)][i]));
    assert parts == ["fr.maven.dto.bean.Bean"];
    assert SimpleName(ListClass) == "List";
    assert DTOType(BeanPackage, [], Parameterized(ListClass, [ClassType(Bean)])) ==
      "java.util." + "List" + "<" + "fr.maven.dto.bean.Bean" + ">";
    ListText();
  }

  /** A list of a generated class of the same package becomes a list of its DTO. */
  lemma GeneratedListExample()
    ensures DTOType(BeanPackage, [Bean], Parameterized(ListClass, [ClassType(Bean)])) == "java.util.List<BeanDTO>"
  {
    assert Bean in [Bean];
    assert DTOType(BeanPackage, [Bean], ClassType(Bean)) == "BeanDTO";
    var parts := seq(1, i requires 0 <= i < 1 => DTOType(BeanPackage, [Bean], [ClassType(Bean)][i]));
    assert parts == ["BeanDTO"];
  }

  /** The rendered arguments of the map of the test bean. */
  lemma MapArguments(list: seq<JClass>, args: seq<JType>)
    requires list == [Bean, AnotherBean] && args == [ClassType(Bean), ClassType(AnotherBean)]
    ensures Join(seq(|args|, i requires 0 <= i < |args| => DTOType(BeanPackage, list, args[i])), ", ") == "BeanDTO" + ", " + "AnotherBeanDTO"
  {
    assert Bean in list && AnotherBean in list;
    var first := DTOType(BeanPackage, list, ClassType(Bean));
    var second := DTOType(BeanPackage, list, ClassType(AnotherBean));
    assert first == "BeanDTO" && second == "AnotherBeanDTO";
    var parts := seq(|args|, i requires 0 <= i < |args| => DTOType(BeanPackage, list, args[i]));
    assert parts == [first, second];
    JoinTwo(first, second, ", ");
  }

  /** Both type arguments of a map are renamed, separated by a comma and a space. */
  lemma GeneratedMapExample()
    ensures DTOType(BeanPackage, [Bean, AnotherBean], Parameterized(MapClass, [ClassType(Bean), ClassType(AnotherBean)]))
      == "java.util.Map<BeanDTO, AnotherBeanDTO>"
  {
    var list := [Bean, AnotherBean];
    var args := [ClassType(Bean), ClassType(AnotherBean)];
    assert MapClass !in list;
    assert PackagePrefix(BeanPackage, list, MapClass) == "java.util.";
    MapArguments(list, args);
    assert SimpleName(MapClass) == "Map";
    assert DTOType(BeanPackage, list, Parameterized(MapClass, args)) == "java.util." + "Map" + "<" + ("BeanDTO" + ", " + "AnotherBeanDTO") + ">";
    MapText();
  }

  /** An array of a class that is not generated is written with its qualified component. */
  lemma ArrayExample()
    ensures DTOType(BeanPackage, [], ClassType(ArrayOf(Bean))) == "fr.maven.dto.bean.Bean[]"
  {
  }
}
