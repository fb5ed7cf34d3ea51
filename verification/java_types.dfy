/**
  What the generator learns about classes through Java reflection, as plain
  values: the class objects, the generic field types, the declared fields, and
  the JDK's own answers for simple names, packages and erasure.
 */
module JavaTypes {
  import opened Wrappers

  /**
    A java.lang.Class object: a named class or primitive (`pkg` is None for a
    primitive), or an array class over its component class.
   */
  datatype JClass = Plain(pkg: Option<string>, simple: string) | ArrayOf(component: JClass)

  /**
    A java.lang.reflect.Type as Field.getGenericType() reports it: a Class, or a
    ParameterizedType with its raw class and its actual type arguments.
   */
  datatype JType = ClassType(cls: JClass) | Parameterized(raw: JClass, args: seq<JType>)

  /** A java.lang.reflect.Field: its name, its generic type and whether it is static. */
  datatype JField = JField(name: string, genericType: JType, isStatic: bool)

  /**
    A top-level class handed to the generator: its package, its simple name and
    its declared fields in the order reflection reports them.
   */
  datatype ClassDecl = ClassDecl(pkg: string, simple: string, fields: seq<JField>) {
    /** The class object itself, the key of the membership list and of the writer map. */
    function AsClass(): JClass {
      Plain(Some(pkg), simple)
    }
  }

  /** The package whose classes need no qualification. */
  const JavaLang: string := "java.lang"

  /** boolean.class, the only type whose getter is named `is…`. */
  const BooleanClass: JClass := Plain(None, "boolean")

  /** Class.getSimpleName(): an array class's is its component's followed by "[]". */
  function SimpleName(c: JClass): string {
    match c
    case Plain(_, s) => s
    case ArrayOf(e) => SimpleName(e) + "[]"
  }

  /** Class.getPackage(): none for arrays and primitives. */
  function PackageOf(c: JClass): Option<string> {
    match c
    case Plain(p, _) => p
    case ArrayOf(_) => None
  }

  /** Field.getType(): the erasure of the field's generic type. */
  function Erasure(t: JType): JClass {
    match t
    case ClassType(c) => c
    case Parameterized(raw, _) => raw
  }

  /** Class.getCanonicalName() of a top-level class. */
  function CanonicalName(d: ClassDecl): string {
    if d.pkg == "" then d.simple else d.pkg + "." + d.simple
  }
}
