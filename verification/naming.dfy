/**
  The naming rules the three generator copies share: the DTO package, the
  four-way package-prefix rule of getDTOFieldPackage, the capitalised accessor
  suffix, and the lines every copy writes. Also Java's reading of a type
  reference, against which the prefix rule is proved right.
 */
module Naming {
  import opened Wrappers
  import opened JavaTypes
  import opened Strings

  /** getDTOPackage: the DTO of a class in `pkg` lives in the sub-package `dto`. */
  function DTOPackage(pkg: string): string {
    pkg + ".dto"
  }

  /**
    getDTOFieldPackage, once a copy has chosen the class `c` the rule applies to:
    nothing for a class without a package or in java.lang, nothing for a generated
    class in the containing class's package, the DTO package of a generated class
    in another package, and the class's own package otherwise; a non-empty prefix
    ends with the dot that joins it to the simple name.
   */
  function PackagePrefix(ctxPkg: string, list: seq<JClass>, c: JClass): (r: string)
    ensures r == "" <==>
      PackageOf(c) == None || PackageOf(c) == Some(JavaLang) || (c in list && PackageOf(c) == Some(ctxPkg))
    ensures r != "" ==> r[|r| - 1] == '.'
    ensures r != "" && c in list ==> r == DTOPackage(PackageOf(c).value) + "."
    ensures r != "" && c !in list ==> r == PackageOf(c).value + "."
  {
    match PackageOf(c)
    case None => ""
    case Some(p) =>
      if p == JavaLang then ""
      else if c in list then (if ctxPkg == p then "" else DTOPackage(p) + ".")
      else p + "."
  }

  /** The package directory below the output root: every dot of the DTO package becomes a separator. */
  function PackageDirectory(root: string, sep: char, pkg: string): string {
    root + [sep] + ReplaceChar(DTOPackage(pkg), '.', sep)
  }

  /** The file a class's DTO is written to. */
  function DTOFilePath(root: string, sep: char, d: ClassDecl): string {
    root + [sep] + ReplaceAll(DTOPackage(d.pkg), ".", [sep]) + [sep] + d.simple + "DTO.java"
  }

  /**
    The directory makeDTOPackage creates is the one getDTOClassFileWriter puts
    the file in (one uses the char form of String.replace, the other the string
    form), and it is the class's own package directory followed by `dto`.
   */
  lemma {:induction false} DTOFileInPackageDirectory(root: string, sep: char, d: ClassDecl)
    requires sep != '.'
    ensures DTOFilePath(root, sep, d) == PackageDirectory(root, sep, d.pkg) + [sep] + d.simple + "DTO.java"
    ensures PackageDirectory(root, sep, d.pkg) == root + [sep] + ReplaceAll(d.pkg, ".", [sep]) + [sep] + "dto"
  {
    ReplaceCharAgrees(DTOPackage(d.pkg), '.', sep);
    ReplaceCharTargetConcat(d.pkg, ".dto", '.', [sep]);
    assert ".dto" == ['.'] + "dto";
    ReplaceCharTargetConcat(['.'], "dto", '.', [sep]);
    ReplaceCharTargetAbsent("dto", '.', [sep]);
    assert ReplaceAll(['.'], ".", [sep]) == [sep] by {
      assert ['.'][..1] == ".";
    }
  }

  /**
    The accessor suffix of the two newer copies: the field name with only its
    first character upper-cased (a one-character name has an empty remainder).
   */
  function Capitalised(name: string): (r: string)
    requires name != []
    ensures |r| == |name| && r[0] == ToUpper(name[0]) && r[1..] == name[1..]
  {
    [ToUpper(name[0])] + (if |name| > 1 then name[1..] else "")
  }

  /** A field name starting with a lower-case letter is recovered from its accessor suffix. */
  lemma CapitalisedRecoversName(name: string)
    requires name != [] && 'a' <= name[0] <= 'z'
    ensures var r := Capitalised(name); [ToLower(r[0])] + r[1..] == name
  {
    assert name == [name[0]] + name[1..];
  }

  /** The header every copy writes, up to and including serialVersionUID; `stamp` is the formatted clock. */
  function HeaderText(d: ClassDecl, stamp: string): seq<string> {
    [ "package " + DTOPackage(d.pkg) + ";" + "\n\n",
      "import java.io.Serializable;\n\n",
      "/**\n",
      " * This class was generated by the DTO Maven Plugin.\n",
      " * " + stamp + "\n",
      " */\n",
      "public class " + d.simple + "DTO implements Serializable {\n\n",
      "\tprivate static final long serialVersionUID = 1L;\n\n" ]
  }

  /** The declaration of one DTO field whose type is written `typeText`. */
  function FieldText(d: ClassDecl, typeText: string, name: string): seq<string> {
    [ "\t/**\n",
      "\t * @see " + CanonicalName(d) + "#" + name + "\n",
      "\t */\n",
      "\tprivate " + typeText + " " + name + ";\n\n" ]
  }

  /** The getter `getter` returning the field `name`. */
  function GetterText(d: ClassDecl, typeText: string, getter: string, name: string): seq<string> {
    [ "\t/**\n",
      "\t * @see " + CanonicalName(d) + "#" + getter + "()\n",
      "\t */\n",
      "\tpublic " + typeText + " " + getter + "() {\n",
      "\t\treturn this." + name + ";\n",
      "\t}\n\n" ]
  }

  /** The setter `setter` assigning the field `name`; `erasedSimple` is the simple name of the source field's class. */
  function SetterText(d: ClassDecl, typeText: string, setter: string, name: string, erasedSimple: string): seq<string> {
    [ "\t/**\n",
      "\t * @see " + CanonicalName(d) + "#" + setter + "(" + erasedSimple + ")\n",
      "\t */\n",
      "\tpublic void " + setter + "(" + typeText + " " + name + ") {\n",
      "\t\tthis." + name + " = " + name + ";\n",
      "\t}\n\n" ]
  }

  /** The last line of a DTO. */
  const ClosingText: seq<string> := ["}"]

  /**
    The class a reference to `c` must name inside a DTO: the DTO of `c` when `c`
    is generated too, `c` itself otherwise.
   */
  function IntendedTarget(list: seq<JClass>, c: JClass): (Option<string>, string)
    requires c.Plain?
  {
    if c in list && c.pkg.Some? then (Some(DTOPackage(c.pkg.value)), c.simple + "DTO") else (c.pkg, c.simple)
  }

  /**
    A package name as the JDK reports it for a named package: dot-separated
    segments, none of them empty.
   */
  predicate PackageName(p: string) {
    p != [] && p[0] != '.' && p[|p| - 1] != '.' && forall i :: 0 <= i < |p| - 1 ==> !(p[i] == '.' && p[i + 1] == '.')
  }

  /** The DTO package of a named package is a named package too. */
  lemma DTOPackageName(p: string)
    requires PackageName(p)
    ensures PackageName(DTOPackage(p))
  {
    var q := DTOPackage(p);
    forall i | 0 <= i < |q| - 1 ensures !(q[i] == '.' && q[i + 1] == '.') {
      if i < |p| - 1 {
        assert q[i] == p[i] && q[i + 1] == p[i + 1];
      } else if i == |p| - 1 {
        assert q[i] == p[|p| - 1];
      }
    }
  }

  /**
    Java's reading of a type reference `text` written in package `from`: a
    qualified name names the class after its last dot in the package before it,
    which must be a package name; a simple name is looked up in `from` and in
    the implicitly imported java.lang, and a primitive's name has no package.
   */
  predicate Denotes(text: string, from: string, target: (Option<string>, string)) {
    var k := LastIndexOf(text, '.');
    if k >= 0 then PackageName(text[..k]) && target == (Some(text[..k]), text[k + 1..])
    else target.1 == text && (target.0 == Some(from) || target.0 == Some(JavaLang) || target.0 == None)
  }

  /**
    The prefix rule is right: written inside the DTO of a class in `ctxPkg`, the
    prefix, the simple name and (for a generated class) the suffix `DTO` name the
    intended class. A generated class must have a package other than java.lang
    (see GeneratedUnqualifiedNotDenoted); a class in the unnamed package is
    excluded (see UnnamedPackageNotDenoted).
   */
  lemma PrefixedNameDenotesTarget(ctxPkg: string, list: seq<JClass>, c: JClass)
    requires c.Plain? && '.' !in c.simple
    requires c.pkg.Some? ==> PackageName(c.pkg.value)
    requires c in list ==> c.pkg.Some? && c.pkg.value != JavaLang
    ensures Denotes(PackagePrefix(ctxPkg, list, c) + c.simple + (if c in list then "DTO" else ""),
                    DTOPackage(ctxPkg), IntendedTarget(list, c))
  {
    var name := c.simple + (if c in list then "DTO" else "");
    assert '.' !in name;
    var prefix := PackagePrefix(ctxPkg, list, c);
    assert prefix + c.simple + (if c in list then "DTO" else "") == prefix + name;
    if prefix == "" {
      assert prefix + name == name;
      assert LastIndexOf(name, '.') < 0;
    } else if c in list {
      DTOPackageName(c.pkg.value);
      QualifiedDenotes(DTOPackage(c.pkg.value), name, DTOPackage(ctxPkg));
    } else {
      assert c.pkg.Some? && name == c.simple;
      assert prefix + name == c.pkg.value + "." + name;
      assert IntendedTarget(list, c) == (Some(c.pkg.value), name);
      QualifiedDenotes(c.pkg.value, name, DTOPackage(ctxPkg));
    }
  }

  /** A dotted name `q.name` names `name` in package `q`. */
  lemma QualifiedDenotes(q: string, name: string, from: string)
    requires PackageName(q) && '.' !in name
    ensures Denotes(q + "." + name, from, (Some(q), name))
  {
    var text := q + "." + name;
    LastDotOfQualified(q, name);
    assert text[..|q|] == q;
    assert text[|q| + 1..] == name;
  }

  /**
    A class in the unnamed package, whose package name is empty: its prefix is
    a lone dot (or `.dto.` when it is generated), and the text written for it
    names no class at all: what comes before its last dot is no package name.
   */
  lemma UnnamedPackageNotDenoted(ctxPkg: string, list: seq<JClass>, simple: string)
    requires PackageName(ctxPkg) && '.' !in simple
    ensures var c := Plain(Some(""), simple);
      PackagePrefix(ctxPkg, list, c) == (if c in list then ".dto." else ".") &&
      var text := PackagePrefix(ctxPkg, list, c) + simple + (if c in list then "DTO" else "");
      LastIndexOf(text, '.') >= 0 && !PackageName(text[..LastIndexOf(text, '.')]) &&
      !Denotes(text, DTOPackage(ctxPkg), IntendedTarget(list, c))
  {
    var c := Plain(Some(""), simple);
    var name := simple + (if c in list then "DTO" else "");
    assert '.' !in name;
    var prefix := PackagePrefix(ctxPkg, list, c);
    if c in list {
      assert prefix == ".dto" + ".";
      LastDotOfQualified(".dto", name);
      assert (prefix + simple + "DTO") == ".dto" + "." + name;
      assert (".dto" + "." + name)[..4] == ".dto";
    } else {
      assert prefix == "" + ".";
      LastDotOfQualified("", name);
      assert (prefix + simple) == "" + "." + name;
      assert ("" + "." + name)[..0] == "";
    }
  }

  /**
    A generated class in java.lang (written from any other package) or without
    a package gets the empty prefix, so its DTO is written by the bare simple
    name plus `DTO`. Java reads that name in the DTO's own package, in
    java.lang or as a primitive, never as the DTO the rule means.
   */
  lemma GeneratedUnqualifiedNotDenoted(ctxPkg: string, list: seq<JClass>, c: JClass)
    requires c.Plain? && c in list && '.' !in c.simple
    requires c.pkg == None || (c.pkg == Some(JavaLang) && ctxPkg != JavaLang)
    ensures PackagePrefix(ctxPkg, list, c) == ""
    ensures !Denotes(PackagePrefix(ctxPkg, list, c) + c.simple + "DTO", DTOPackage(ctxPkg), IntendedTarget(list, c))
  {
    var text := c.simple + "DTO";
    assert "" + c.simple + "DTO" == text;
    assert '.' !in text;
    assert LastIndexOf(text, '.') < 0;
    if c.pkg.Some? {
      assert IntendedTarget(list, c).0 == Some(JavaLang + ".dto");
      assert JavaLang + ".dto" != JavaLang;
      assert JavaLang + ".dto" != DTOPackage(ctxPkg) by {
        assert DTOPackage(ctxPkg)[..|ctxPkg|] == ctxPkg;
        assert (JavaLang + ".dto")[..|JavaLang|] == JavaLang;
      }
    } else {
      assert |IntendedTarget(list, c).1| < |text|;
    }
  }
}
