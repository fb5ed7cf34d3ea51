/**
  Type rendering and accessor naming of the oldest generator copy
  (dto-maven-plugin/src/main/java/fr/maven/dto/generator/DTOGeneratorImpl.java):
  only the erased class of a field is looked at, and accessor names upper-case
  the first character of the field name with String.replace(char, char).
 */
module GeneratorV1 {
  import opened Wrappers
  import opened JavaTypes
  import opened Strings
  import opened Naming
  import GeneratorV2

  /**
    getDTOFieldType of the oldest copy: the erased class's simple name, `DTO`
    when that class is generated, `[]` when it is an array.
   */
  function FieldType(list: seq<JClass>, t: JType): string {
    var c := Erasure(t);
    SimpleName(c) + (if c in list then "DTO" else "") + (if c.ArrayOf? then "[]" else "")
  }

  /** getDTOFieldPackage of the oldest copy: the prefix rule applied to the field's erased class. */
  function FieldPackage(ctxPkg: string, list: seq<JClass>, t: JType): string {
    PackagePrefix(ctxPkg, list, Erasure(t))
  }

  /** The type of a field as the field, getter and setter blocks write it: its package prefix, then its type. */
  function TypeText(ctxPkg: string, list: seq<JClass>, t: JType): string {
    FieldPackage(ctxPkg, list, t) + FieldType(list, t)
  }

  /**
    The accessor suffix of the oldest copy: the field name in which every
    occurrence of its first character is upper-cased.
   */
  function AccessorSuffix(name: string): (r: string)
    requires name != []
    ensures |r| == |name| && r[0] == ToUpper(name[0])
    ensures forall i :: 0 <= i < |name| ==> r[i] == (if name[i] == name[0] then ToUpper(name[0]) else name[i])
  {
    ReplaceChar(name, name[0], ToUpper(name[0]))
  }

  /** A field whose type is a class, array or not, is written as the middle copy writes it. */
  lemma AgreesWithMiddleOnClasses(ctxPkg: string, list: seq<JClass>, c: JClass)
    ensures TypeText(ctxPkg, list, ClassType(c)) == GeneratorV2.DTOType(ctxPkg, list, ClassType(c))
  {
  }

  /**
    Generic arguments are ignored: for a parameterized field whose raw class is
    neither generated nor an array, the oldest copy writes the beginning of what
    the middle copy writes, which goes on with the arguments in angle brackets.
   */
  lemma OldestIsPrefixOfMiddle(ctxPkg: string, list: seq<JClass>, raw: JClass, args: seq<JType>)
    requires raw.Plain? && raw !in list
    ensures TypeText(ctxPkg, list, Parameterized(raw, args)) == TypeText(ctxPkg, list, ClassType(raw))
    ensures TypeText(ctxPkg, list, Parameterized(raw, args)) + "<" <= GeneratorV2.DTOType(ctxPkg, list, Parameterized(raw, args))
  {
    var t := Parameterized(raw, args);
    var head := TypeText(ctxPkg, list, t) + "<";
    var whole := GeneratorV2.DTOType(ctxPkg, list, t);
    assert whole == head + (whole[|head|..]);
  }

  /**
    The replace-based suffix is the intended one (only the first character
    upper-cased) exactly when upper-casing leaves the first character unchanged
    or that character does not occur again in the name.
   */
  lemma {:induction false} AccessorSuffixIsCapitalisedIff(name: string)
    requires name != []
    ensures AccessorSuffix(name) == Capitalised(name) <==> (ToUpper(name[0]) == name[0] || name[0] !in name[1..])
  {
    var r := AccessorSuffix(name);
    var cap := Capitalised(name);
    if ToUpper(name[0]) == name[0] || name[0] !in name[1..] {
      forall i | 0 <= i < |name| ensures r[i] == cap[i] {
        if i > 0 {
          assert name[1..][i - 1] == name[i];
        }
      }
    } else {
      var j :| 1 <= j < |name| && name[j] == name[0] by {
        var k :| 0 <= k < |name[1..]| && name[1..][k] == name[0];
        assert name[k + 1] == name[0];
      }
      assert r[j] != cap[j];
    }
  }

  /** The name "aba": the oldest copy's getter is `getAbA` where the newer copies write `getAba`. */
  lemma RepeatedFirstCharacterExample()
    ensures AccessorSuffix("aba") == "AbA"
    ensures Capitalised("aba") == "Aba"
  {
    assert ToUpper('a') == 'A';
  }
}
