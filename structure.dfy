/** The structural model of one compiled class: what the rules read from an ASM
    ClassNode (name, super name, interfaces, fields, methods), with access flags
    as the JVM Specification defines them (sections 4.5 and 4.6). */
module Structure {
  import opened Wrappers
  import opened Text

  /** Access flags, kept as the 32-bit int ASM stores them. */
  type Access = bv32

  const ACC_PUBLIC: Access := 0x0001
  const ACC_PRIVATE: Access := 0x0002
  const ACC_PROTECTED: Access := 0x0004
  const ACC_STATIC: Access := 0x0008
  const ACC_FINAL: Access := 0x0010
  const ACC_ABSTRACT: Access := 0x0400

  /** The bit test `(access & flag) != 0` of the source. */
  predicate HasFlag(access: Access, flag: Access)
  {
    (access & flag) != 0
  }

  /** The special method names of the JVM (section 2.9): instance and class initialisers. */
  const CONSTRUCTOR_NAME := "<init>"
  const STATIC_INITIALIZER_NAME := "<clinit>"

  datatype Field = Field(name: string, desc: string, access: Access)

  datatype Method = Method(name: string, desc: string, access: Access)

  /** One class: `name` and `superName` are internal names such as "java/lang/Object";
      a missing super name (only java/lang/Object itself has none) is None. */
  datatype ClassModel = ClassModel(
    name: string,
    superName: Option<string>,
    interfaces: seq<string>,
    fields: seq<Field>,
    methods: seq<Method>)

  /** The part of an internal name after its last '/', or the whole name when it has none. */
  function SimpleClassName(internalName: string): (r: string)
    ensures |r| <= |internalName| && r == internalName[|internalName| - |r|..]
    ensures forall i :: 0 <= i < |r| ==> r[i] != '/'
    ensures |r| < |internalName| ==> internalName[|internalName| - |r| - 1] == '/'
  {
    var slash := LastIndexOf(internalName, '/');
    if slash >= 0 then internalName[slash + 1..] else internalName
  }

  /** A name after a package prefix that ends in '/' is its own simple name. */
  lemma SimpleNameAfterPackage(pkg: string, simple: string)
    requires |pkg| > 0 && pkg[|pkg| - 1] == '/' && '/' !in simple
    ensures SimpleClassName(pkg + simple) == simple
  {
    LastIndexOfAbsentSuffix(pkg, simple, '/');
    assert (pkg + simple)[|pkg|..] == simple;
  }

  /** ASM's Type.getObjectType(internalName).getClassName(): the dotted binary name. */
  function QualifiedName(internalName: string): (r: string)
    ensures |r| == |internalName|
    ensures forall i :: 0 <= i < |r| ==> r[i] != '/'
  {
    ReplaceChar(internalName, '/', '.')
  }

  /** ASM's rendering of descriptors, which this model does not interpret:
      typeName(d) is Type.getType(d).getClassName(), argumentTypes(d) the class names
      of Type.getArgumentTypes(d), returnType(d) that of Type.getReturnType(d). */
  datatype TypeRenderer = TypeRenderer(
    typeName: string -> string,
    argumentTypes: string -> seq<string>,
    returnType: string -> string)
}
