/**
  The text makeDTOClass writes for one class, for each of the three copies:
  the header, one field block per kept field, a getter and a setter block per
  kept field, and the closing brace. The newer two copies keep the non-static
  fields, the oldest keeps every field.
 */
module DTOText {
  import opened Wrappers
  import opened JavaTypes
  import opened Strings
  import opened Naming
  import GeneratorV1
  import GeneratorV2
  import GeneratorV3

  /** The copy of DTOGeneratorImpl: dto-maven-plugin/.../generator (Oldest), dto-maven-plugin/.../impl (Middle), src/main/.../impl (Newest). */
  datatype Version = Oldest | Middle | Newest

  /** The type of a field as the copy writes it in a field, getter or setter block. */
  function TypeText(v: Version, ctxPkg: string, list: seq<JClass>, t: JType): string {
    match v
    case Oldest => GeneratorV1.TypeText(ctxPkg, list, t)
    case Middle => GeneratorV2.DTOType(ctxPkg, list, t)
    case Newest => GeneratorV3.DTOType(ctxPkg, list, t)
  }

  /** The part of an accessor name after `get`, `is` or `set`. */
  function AccessorSuffix(v: Version, name: string): string
    requires name != []
  {
    if v == Oldest then GeneratorV1.AccessorSuffix(name) else Capitalised(name)
  }

  /** The getter of a field: `is` for a primitive boolean, `get` otherwise. */
  function GetterName(v: Version, f: JField): string
    requires f.name != []
  {
    (if Erasure(f.genericType) == BooleanClass then "is" else "get") + AccessorSuffix(v, f.name)
  }

  /** The setter of a field. */
  function SetterName(v: Version, f: JField): string
    requires f.name != []
  {
    "set" + AccessorSuffix(v, f.name)
  }

  /** The copy writes blocks for the field: the oldest for every field, the newer two for non-static ones. */
  predicate Emitted(v: Version, f: JField) {
    v == Oldest || !f.isStatic
  }

  /** Java field names are never empty, so charAt(0) always succeeds. */
  predicate NamedFields(fs: seq<JField>) {
    forall i :: 0 <= i < |fs| ==> fs[i].name != []
  }

  /** The fields the copy writes blocks for, in declaration order. */
  function Kept(v: Version, fs: seq<JField>): (r: seq<JField>)
    ensures |r| <= |fs|
    ensures forall f :: f in r <==> f in fs && Emitted(v, f)
    ensures v == Oldest ==> r == fs
  {
    if fs == [] then []
    else (if Emitted(v, fs[0]) then [fs[0]] else []) + Kept(v, fs[1..])
  }

  /** makeDTOField's block. */
  function FieldBlock(v: Version, list: seq<JClass>, d: ClassDecl, f: JField): seq<string> {
    FieldText(d, TypeText(v, d.pkg, list, f.genericType), f.name)
  }

  /** makeDTOFieldGetter's block. */
  function GetterBlock(v: Version, list: seq<JClass>, d: ClassDecl, f: JField): seq<string>
    requires f.name != []
  {
    GetterText(d, TypeText(v, d.pkg, list, f.genericType), GetterName(v, f), f.name)
  }

  /** makeDTOFieldSetter's block; its comment names the source setter's parameter by the field's erased simple name. */
  function SetterBlock(v: Version, list: seq<JClass>, d: ClassDecl, f: JField): seq<string>
    requires f.name != []
  {
    SetterText(d, TypeText(v, d.pkg, list, f.genericType), SetterName(v, f), f.name, SimpleName(Erasure(f.genericType)))
  }

  /** The first loop of makeDTOClass: the field blocks of the kept fields, in order. */
  function FieldBlocks(v: Version, list: seq<JClass>, d: ClassDecl, fs: seq<JField>): seq<string> {
    if fs == [] then []
    else (if Emitted(v, fs[0]) then FieldBlock(v, list, d, fs[0]) else []) + FieldBlocks(v, list, d, fs[1..])
  }

  /** The second loop of makeDTOClass: the getter block then the setter block of each kept field, in order. */
  function AccessorBlocks(v: Version, list: seq<JClass>, d: ClassDecl, fs: seq<JField>): seq<string>
    requires NamedFields(fs)
  {
    if fs == [] then []
    else
      (if Emitted(v, fs[0]) then GetterBlock(v, list, d, fs[0]) + SetterBlock(v, list, d, fs[0]) else [])
      + AccessorBlocks(v, list, d, fs[1..])
  }

  /** Everything makeDTOClass writes for `d`, with `stamp` the formatted clock reading. */
  function ClassText(v: Version, list: seq<JClass>, d: ClassDecl, stamp: string): (r: seq<string>)
    requires NamedFields(d.fields)
    ensures |r| > |HeaderText(d, stamp)| && r[..|HeaderText(d, stamp)|] == HeaderText(d, stamp)
    ensures r[|r| - 1] == "}"
  {
    HeaderText(d, stamp) + FieldBlocks(v, list, d, d.fields) + AccessorBlocks(v, list, d, d.fields) + ClosingText
  }

  /** The declaration line of a field. */
  function DeclarationLine(v: Version, list: seq<JClass>, d: ClassDecl, f: JField): string {
    "\tprivate " + TypeText(v, d.pkg, list, f.genericType) + " " + f.name + ";\n\n"
  }

  /** Only the kept fields matter: four lines per kept field, as if the others were not declared. */
  lemma {:induction false} FieldBlocksOfKept(v: Version, list: seq<JClass>, d: ClassDecl, fs: seq<JField>)
    ensures FieldBlocks(v, list, d, fs) == FieldBlocks(v, list, d, Kept(v, fs))
    ensures |FieldBlocks(v, list, d, fs)| == 4 * |Kept(v, fs)|
  {
    if fs != [] {
      FieldBlocksOfKept(v, list, d, fs[1..]);
      var k := Kept(v, fs);
      if Emitted(v, fs[0]) {
        assert k == [fs[0]] + Kept(v, fs[1..]);
        assert k[0] == fs[0] && k[1..] == Kept(v, fs[1..]);
        assert FieldBlocks(v, list, d, k) == FieldBlock(v, list, d, fs[0]) + FieldBlocks(v, list, d, Kept(v, fs[1..]));
      } else {
        assert k == Kept(v, fs[1..]);
        assert FieldBlocks(v, list, d, fs) == FieldBlocks(v, list, d, fs[1..]);
      }
    }
  }

  /** Dropping the first field keeps the names non-empty. */
  lemma NamedTail(fs: seq<JField>)
    requires fs != [] && NamedFields(fs)
    ensures NamedFields(fs[1..])
  {
    forall i | 0 <= i < |fs[1..]| ensures fs[1..][i].name != [] {
      assert fs[1..][i] == fs[i + 1];
    }
  }

  /**
    One field of the first loop of makeDTOClass: when `written` followed by the
    blocks of the fields from `i` on is the whole, so is `written` with the
    block of field `i`, if it is kept, followed by the blocks of the fields after it.
   */
  lemma FieldBlocksStep(v: Version, list: seq<JClass>, d: ClassDecl, fs: seq<JField>, i: nat,
                        written: seq<string>, whole: seq<string>)
    requires i < |fs| && written + FieldBlocks(v, list, d, fs[i..]) == whole
    ensures (if Emitted(v, fs[i]) then written + FieldBlock(v, list, d, fs[i]) else written)
      + FieldBlocks(v, list, d, fs[i + 1..]) == whole
  {
    assert fs[i..][0] == fs[i] && fs[i..][1..] == fs[i + 1..];
  }

  /** One field of the second loop of makeDTOClass, as FieldBlocksStep for the getter and setter blocks. */
  lemma AccessorBlocksStep(v: Version, list: seq<JClass>, d: ClassDecl, fs: seq<JField>, i: nat,
                           written: seq<string>, whole: seq<string>)
    requires i < |fs| && NamedFields(fs[i..])
    requires written + AccessorBlocks(v, list, d, fs[i..]) == whole
    ensures fs[i].name != [] && NamedFields(fs[i + 1..])
    ensures (if Emitted(v, fs[i]) then written + GetterBlock(v, list, d, fs[i]) + SetterBlock(v, list, d, fs[i]) else written)
      + AccessorBlocks(v, list, d, fs[i + 1..]) == whole
  {
    assert fs[i..][0] == fs[i] && fs[i..][1..] == fs[i + 1..];
    NamedTail(fs[i..]);
  }

  /** The four parts makeDTOClass writes one after the other make up the class text. */
  lemma ClassTextAppended(v: Version, list: seq<JClass>, d: ClassDecl, stamp: string, base: seq<string>)
    requires NamedFields(d.fields)
    ensures base + HeaderText(d, stamp) + FieldBlocks(v, list, d, d.fields) + AccessorBlocks(v, list, d, d.fields) + ClosingText
      == base + ClassText(v, list, d, stamp)
  {
  }

  /** The kept fields are declared fields, so their names are non-empty too. */
  lemma KeptNamed(v: Version, fs: seq<JField>)
    requires NamedFields(fs)
    ensures NamedFields(Kept(v, fs))
  {
    var k := Kept(v, fs);
    forall i | 0 <= i < |k| ensures k[i].name != [] {
      assert k[i] in fs;
    }
  }

  /** Only the kept fields matter: twelve lines per kept field, as if the others were not declared. */
  lemma {:induction false} AccessorBlocksOfKept(v: Version, list: seq<JClass>, d: ClassDecl, fs: seq<JField>)
    requires NamedFields(fs) && NamedFields(Kept(v, fs))
    ensures AccessorBlocks(v, list, d, fs) == AccessorBlocks(v, list, d, Kept(v, fs))
    ensures |AccessorBlocks(v, list, d, fs)| == 12 * |Kept(v, fs)|
  {
    if fs != [] {
      NamedTail(fs);
      KeptNamed(v, fs[1..]);
      AccessorBlocksOfKept(v, list, d, fs[1..]);
      var rest := Kept(v, fs[1..]);
      var k := Kept(v, fs);
      if Emitted(v, fs[0]) {
        assert k == [fs[0]] + rest;
        assert k[0] == fs[0] && k[1..] == rest;
        assert AccessorBlocks(v, list, d, k) ==
          GetterBlock(v, list, d, fs[0]) + SetterBlock(v, list, d, fs[0]) + AccessorBlocks(v, list, d, rest);
      } else {
        assert k == rest;
      }
    }
  }

  /**
    The newer two copies write a class exactly as they would write it without
    its static fields; the oldest writes a field block and an accessor pair for
    every declared field.
   */
  lemma StaticFieldsSkipped(v: Version, list: seq<JClass>, d: ClassDecl, stamp: string)
    requires NamedFields(d.fields)
    ensures NamedFields(Kept(v, d.fields))
    ensures ClassText(v, list, d, stamp) == ClassText(v, list, d.(fields := Kept(v, d.fields)), stamp)
    ensures |ClassText(v, list, d, stamp)| == |HeaderText(d, stamp)| + 16 * |Kept(v, d.fields)| + 1
  {
    var e := d.(fields := Kept(v, d.fields));
    KeptNamed(v, d.fields);
    FieldBlocksOfKept(v, list, d, d.fields);
    AccessorBlocksOfKept(v, list, d, d.fields);
    assert HeaderText(e, stamp) == HeaderText(d, stamp);
    FieldBlocksSameClass(v, list, d, e, Kept(v, d.fields));
    AccessorBlocksSameClass(v, list, d, e, Kept(v, d.fields));
  }

  /** The blocks depend on the class only through its package and name. */
  lemma {:induction false} FieldBlocksSameClass(v: Version, list: seq<JClass>, d: ClassDecl, e: ClassDecl, fs: seq<JField>)
    requires d.pkg == e.pkg && d.simple == e.simple
    ensures FieldBlocks(v, list, d, fs) == FieldBlocks(v, list, e, fs)
  {
    if fs != [] {
      FieldBlocksSameClass(v, list, d, e, fs[1..]);
    }
  }

  /** The blocks depend on the class only through its package and name. */
  lemma {:induction false} AccessorBlocksSameClass(v: Version, list: seq<JClass>, d: ClassDecl, e: ClassDecl, fs: seq<JField>)
    requires d.pkg == e.pkg && d.simple == e.simple
    requires NamedFields(fs)
    ensures AccessorBlocks(v, list, d, fs) == AccessorBlocks(v, list, e, fs)
  {
    if fs != [] {
      NamedTail(fs);
      AccessorBlocksSameClass(v, list, d, e, fs[1..]);
    }
  }

  /** Every kept field is declared in the field blocks. */
  lemma {:induction false} DeclaredInFieldBlocks(v: Version, list: seq<JClass>, d: ClassDecl, fs: seq<JField>, i: nat)
    requires i < |fs| && Emitted(v, fs[i])
    ensures DeclarationLine(v, list, d, fs[i]) in FieldBlocks(v, list, d, fs)
  {
    if i == 0 {
      assert FieldBlock(v, list, d, fs[0])[3] == DeclarationLine(v, list, d, fs[0]);
    } else {
      assert fs[1..][i - 1] == fs[i];
      DeclaredInFieldBlocks(v, list, d, fs[1..], i - 1);
    }
  }

  /** Every kept field of the class is declared in its DTO, after the header and before any accessor. */
  lemma FieldDeclared(v: Version, list: seq<JClass>, d: ClassDecl, stamp: string, i: nat)
    requires NamedFields(d.fields)
    requires i < |d.fields| && Emitted(v, d.fields[i])
    ensures DeclarationLine(v, list, d, d.fields[i]) in FieldBlocks(v, list, d, d.fields)
    ensures DeclarationLine(v, list, d, d.fields[i]) in ClassText(v, list, d, stamp)
  {
    DeclaredInFieldBlocks(v, list, d, d.fields, i);
  }

  /** Accessor names from the tests: a one-letter field, a boolean field, an object field. */
  lemma AccessorNameExamples(v: Version)
    requires v != Oldest
    ensures GetterName(v, JField("a", ClassType(GeneratorV3.StringClass), false)) == "getA"
    ensures SetterName(v, JField("a", ClassType(GeneratorV3.StringClass), false)) == "setA"
    ensures GetterName(v, JField("attribut2", ClassType(BooleanClass), false)) == "isAttribut2"
    ensures GetterName(v, JField("bean", ClassType(GeneratorV3.Bean), false)) == "getBean"
  {
    assert ToUpper('a') == 'A' && ToUpper('b') == 'B';
  }

  /** The field line from the tests: a generated class of the same package is declared by its DTO's simple name. */
  lemma FieldLineExample(v: Version)
    requires v != Oldest
    ensures DeclarationLine(v, [GeneratorV3.Bean], ClassDecl(GeneratorV3.BeanPackage, "Bean2", []),
      JField("bean", ClassType(GeneratorV3.Bean), false)) == "\tprivate BeanDTO bean;\n\n"
  {
    var list := [GeneratorV3.Bean];
    assert GeneratorV3.Bean in list;
    assert TypeText(v, GeneratorV3.BeanPackage, list, ClassType(GeneratorV3.Bean)) == "BeanDTO";
    FieldLineText();
  }

  /** Supports FieldLineExample: the expected field line, piece by piece. */
  lemma FieldLineText()
    ensures "\tprivate " + "BeanDTO" + " " + "bean" + ";\n\n" == "\tprivate BeanDTO bean;\n\n"
  {
  }
}
