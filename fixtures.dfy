/** The two sample classes that ship with the linter, as the compiler lays them out,
    and what the four default rules report for them. TestBadClass breaks the naming
    conventions four times, defines equals without hashCode, and declares Runnable and
    Comparable without implementing them; GoodClass breaks nothing. */
module Fixtures {
  import opened Wrappers
  import opened Seqs
  import opened Structure
  import opened Violations
  import opened RuleRegistry
  import opened Text
  import NamingConventionRule
  import EqualsHashCodeRule
  import RedundantInterfaceRule
  import NonPublicConstructorRule

  const PACKAGE := "example/"
  const OBJECT := "java/lang/Object"
  const RUNNABLE := "java/lang/Runnable"
  const COMPARABLE := "java/lang/Comparable"

  /** The two JDK interfaces the samples declare, with their single abstract methods;
      any other name cannot be read. */
  function JdkInterfaces(name: string): Option<ClassModel>
  {
    if name == RUNNABLE then
      Some(ClassModel(RUNNABLE, Some(OBJECT), [], [], [Method("run", "()V", ACC_PUBLIC | ACC_ABSTRACT)]))
    else if name == COMPARABLE then
      Some(ClassModel(COMPARABLE, Some(OBJECT), [], [],
        [Method("compareTo", "(Ljava/lang/Object;)I", ACC_PUBLIC | ACC_ABSTRACT)]))
    else None
  }

  const BAD_FIELD := Field("BadFieldName", "I", ACC_PUBLIC)
  const UNDERSCORE_FIELD := Field("another_bad_field", "Ljava/lang/String;", ACC_PUBLIC)
  const GOOD_FIELD := Field("goodField", "I", ACC_PRIVATE)
  const COUNT_FIELD := Field("count", "I", ACC_PRIVATE)
  const NAME_CONSTANT := Field("DEFAULT_NAME", "Ljava/lang/String;", ACC_PRIVATE | ACC_STATIC | ACC_FINAL)

  /** The compiler's public no-argument constructor. */
  const DEFAULT_INIT := Method("<init>", "()V", ACC_PUBLIC)
  const BAD_METHOD := Method("BadMethod", "()V", ACC_PUBLIC)
  const WEIRD_METHOD := Method("do_Weird", "()V", ACC_PUBLIC)
  const NORMAL_METHOD := Method("normalMethod", "()V", ACC_PUBLIC)
  const EQUALS := Method("equals", "(Ljava/lang/Object;)Z", ACC_PUBLIC)
  const DO_WORK := Method("doWork", "()V", ACC_PUBLIC)
  const GET_COUNT := Method("getCount", "()I", ACC_PUBLIC)
  const RUN := Method("run", "()V", ACC_PUBLIC)
  const HASH_CODE := Method("hashCode", "()I", ACC_PUBLIC)

  /** TestBadClass: an abstract class with the compiler's public default constructor. */
  const TEST_BAD := ClassModel(PACKAGE + "TestBadClass", Some(OBJECT), [RUNNABLE, COMPARABLE],
    [BAD_FIELD, UNDERSCORE_FIELD, GOOD_FIELD],
    [DEFAULT_INIT, BAD_METHOD, WEIRD_METHOD, NORMAL_METHOD, EQUALS])

  /** GoodClass: a counter, a constant, and equals, hashCode and run. */
  const GOOD := ClassModel(PACKAGE + "GoodClass", Some(OBJECT), [RUNNABLE],
    [COUNT_FIELD, NAME_CONSTANT],
    [DEFAULT_INIT, DO_WORK, GET_COUNT, RUN, EQUALS, HASH_CODE])

  /** The four naming findings for TestBadClass, each naming the member as Class#member. */
  const BAD_FIELD_FINDING := Violation(FIELD, "TestBadClass" + "#" + "BadFieldName", NamingConventionRule.FIELD_MESSAGE)
  const UNDERSCORE_FIELD_FINDING :=
    Violation(FIELD, "TestBadClass" + "#" + "another_bad_field", NamingConventionRule.FIELD_MESSAGE)
  const BAD_METHOD_FINDING := Violation(METHOD, "TestBadClass" + "#" + "BadMethod", NamingConventionRule.METHOD_MESSAGE)
  const WEIRD_METHOD_FINDING := Violation(METHOD, "TestBadClass" + "#" + "do_Weird", NamingConventionRule.METHOD_MESSAGE)

  /** The FlatMap of a three-element list, element by element. */
  lemma FlatMapThree<T, U>(a: T, b: T, c: T, f: T -> seq<U>)
    ensures FlatMap([a, b, c], f) == f(a) + f(b) + f(c)
  {
    FlatMapCons(a, [b, c], f);
    FlatMapCons(b, [c], f);
    FlatMapCons(c, [], f);
    assert [a] + [b, c] == [a, b, c] && [b] + [c] == [b, c] && [c] + [] == [c];
  }

  lemma PlainNames()
    ensures '/' !in "TestBadClass" && '$' !in "TestBadClass"
    ensures '/' !in "GoodClass" && '$' !in "GoodClass"
  {
  }

  lemma TestBadSimpleName()
    ensures NamingConventionRule.NamingSimpleName(TEST_BAD.name) == "TestBadClass"
    ensures SimpleClassName(TEST_BAD.name) == "TestBadClass"
  {
    PlainNames();
    SimpleNameAfterPackage(PACKAGE, "TestBadClass");
    NamingConventionRule.NamingNameAfterPrefix(PACKAGE, "TestBadClass");
  }

  lemma GoodSimpleName()
    ensures NamingConventionRule.NamingSimpleName(GOOD.name) == "GoodClass"
  {
    PlainNames();
    NamingConventionRule.NamingNameAfterPrefix(PACKAGE, "GoodClass");
  }

  /** The names the naming rule rejects: an upper-case start, or an underscore. */
  lemma RejectedNames()
    ensures !NamingConventionRule.IsCamelCase(BAD_FIELD.name)
    ensures !NamingConventionRule.IsCamelCase(UNDERSCORE_FIELD.name)
    ensures !NamingConventionRule.IsCamelCase(BAD_METHOD.name)
    ensures !NamingConventionRule.IsCamelCase(WEIRD_METHOD.name)
  {
    assert UNDERSCORE_FIELD.name[7] == '_';
    assert WEIRD_METHOD.name[2] == '_';
  }

  lemma CamelNamesOfTestBad()
    ensures NamingConventionRule.IsCamelCase(GOOD_FIELD.name)
    ensures NamingConventionRule.IsCamelCase(NORMAL_METHOD.name)
    ensures NamingConventionRule.IsCamelCase(EQUALS.name)
  {
  }

  lemma CamelNamesOfGood()
    ensures NamingConventionRule.IsCamelCase(COUNT_FIELD.name)
    ensures NamingConventionRule.IsCamelCase(DO_WORK.name)
    ensures NamingConventionRule.IsCamelCase(GET_COUNT.name)
    ensures NamingConventionRule.IsCamelCase(RUN.name)
    ensures NamingConventionRule.IsCamelCase(HASH_CODE.name)
  {
  }

  lemma ClassNamesPascal()
    ensures NamingConventionRule.IsPascalCase("TestBadClass")
    ensures NamingConventionRule.IsPascalCase("GoodClass")
  {
  }

  lemma ConstantFlags()
    ensures NamingConventionRule.IsConstant(NAME_CONSTANT.access)
    ensures !NamingConventionRule.IsConstant(ACC_PUBLIC) && !NamingConventionRule.IsConstant(ACC_PRIVATE)
  {
  }

  lemma ConstantNameShape()
    ensures NamingConventionRule.ConstantCaseShape(NAME_CONSTANT.name)
  {
    var s := NAME_CONSTANT.name;
    forall i | 0 <= i < |s|
      ensures NamingConventionRule.IsUpperOrDigit(s[i]) || s[i] == '_'
    {
    }
    forall i | 0 <= i < |s| - 1
      ensures !(s[i] == '_' && s[i + 1] == '_')
    {
    }
  }

  /** DEFAULT_NAME is a constant and is written in upper snake case. */
  lemma ConstantNameAccepted()
    ensures NamingConventionRule.IsConstant(NAME_CONSTANT.access)
    ensures NamingConventionRule.IsConstantCase(NAME_CONSTANT.name)
  {
    ConstantFlags();
    ConstantNameShape();
    NamingConventionRule.ConstantCaseExactly(NAME_CONSTANT.name);
  }

  /** BadFieldName starts upper-case and another_bad_field holds underscores; both are
      reported with the field message, goodField is not. */
  lemma TestBadFieldFindings()
    ensures FlatMap(TEST_BAD.fields, NamingConventionRule.FieldChecker("TestBadClass"))
      == [BAD_FIELD_FINDING,
          UNDERSCORE_FIELD_FINDING]
  {
    var f := NamingConventionRule.FieldChecker("TestBadClass");
    FlatMapThree(BAD_FIELD, UNDERSCORE_FIELD, GOOD_FIELD, f);
    RejectedNames();
    CamelNamesOfTestBad();
    ConstantFlags();
    assert f(GOOD_FIELD) == [];
    assert f(BAD_FIELD) + f(UNDERSCORE_FIELD) + [] == f(BAD_FIELD) + f(UNDERSCORE_FIELD);
  }

  lemma ExemptInit()
    ensures NamingConventionRule.IsExemptMethod(DEFAULT_INIT)
  {
    assert StartsWith(DEFAULT_INIT.name, "<");
  }

  lemma TestBadMethodVerdicts()
    ensures NamingConventionRule.MethodVerdict("TestBadClass", DEFAULT_INIT) == []
    ensures NamingConventionRule.MethodVerdict("TestBadClass", NORMAL_METHOD) == []
    ensures NamingConventionRule.MethodVerdict("TestBadClass", EQUALS) == []
    ensures NamingConventionRule.MethodVerdict("TestBadClass", BAD_METHOD)
      == [BAD_METHOD_FINDING]
    ensures NamingConventionRule.MethodVerdict("TestBadClass", WEIRD_METHOD)
      == [WEIRD_METHOD_FINDING]
  {
    RejectedNames();
    CamelNamesOfTestBad();
    ExemptInit();
  }

  /** BadMethod and do_Weird are reported; the constructor is exempt. */
  lemma TestBadMethodFindings()
    ensures FlatMap(TEST_BAD.methods, NamingConventionRule.MethodChecker("TestBadClass"))
      == [BAD_METHOD_FINDING,
          WEIRD_METHOD_FINDING]
  {
    var f := NamingConventionRule.MethodChecker("TestBadClass");
    var rest := [WEIRD_METHOD, NORMAL_METHOD, EQUALS];
    FlatMapCons(DEFAULT_INIT, [BAD_METHOD] + rest, f);
    FlatMapCons(BAD_METHOD, rest, f);
    FlatMapThree(WEIRD_METHOD, NORMAL_METHOD, EQUALS, f);
    assert TEST_BAD.methods == [DEFAULT_INIT] + ([BAD_METHOD] + rest);
    TestBadMethodVerdicts();
    assert [] + (f(BAD_METHOD) + (f(WEIRD_METHOD) + [] + [])) == f(BAD_METHOD) + f(WEIRD_METHOD);
  }

  /** The naming rule's output for a class whose simple name is known. */
  lemma NamingSplit(c: ClassModel, simple: string)
    requires NamingConventionRule.NamingSimpleName(c.name) == simple
    ensures NamingConventionRule.NamingViolations(c)
      == NamingConventionRule.ClassVerdict(simple)
         + FlatMap(c.fields, NamingConventionRule.FieldChecker(simple))
         + FlatMap(c.methods, NamingConventionRule.MethodChecker(simple))
  {
  }

  /** The naming rule reports the two fields, then the two methods, and not the class. */
  lemma TestBadNaming()
    ensures NamingConventionRule.NamingViolations(TEST_BAD)
      == [BAD_FIELD_FINDING,
          UNDERSCORE_FIELD_FINDING,
          BAD_METHOD_FINDING,
          WEIRD_METHOD_FINDING]
  {
    TestBadSimpleName();
    NamingSplit(TEST_BAD, "TestBadClass");
    TestBadFieldFindings();
    TestBadMethodFindings();
    ClassNamesPascal();
    assert NamingConventionRule.ClassVerdict("TestBadClass") == [];
  }

  /** equals(Object) without hashCode() is reported once, naming the missing method. */
  lemma TestBadPairing()
    ensures EqualsHashCodeRule.PairingViolations(TEST_BAD)
      == [Violation(CLASS, "TestBadClass", EqualsHashCodeRule.MissingHashCodeMessage("TestBadClass"))]
  {
    TestBadSimpleName();
    assert EQUALS in TEST_BAD.methods && EqualsHashCodeRule.IsEqualsMethod(EQUALS);
    assert !EqualsHashCodeRule.DefinesHashCode(TEST_BAD.methods);
  }

  lemma RunnableVerdict()
    ensures RedundantInterfaceRule.InterfaceVerdict(TEST_BAD, JdkInterfaces, RUNNABLE)
      == [Violation(CLASS, "TestBadClass", RedundantInterfaceRule.RedundantMessage(RUNNABLE))]
  {
    TestBadSimpleName();
    RedundantInterfaceRule.InterfaceFlaggedIff(TEST_BAD, JdkInterfaces, RUNNABLE);
  }

  lemma ComparableVerdict()
    ensures RedundantInterfaceRule.InterfaceVerdict(TEST_BAD, JdkInterfaces, COMPARABLE)
      == [Violation(CLASS, "TestBadClass", RedundantInterfaceRule.RedundantMessage(COMPARABLE))]
  {
    TestBadSimpleName();
    RedundantInterfaceRule.InterfaceFlaggedIff(TEST_BAD, JdkInterfaces, COMPARABLE);
  }

  /** Neither run() nor compareTo(Object) is declared, so both interfaces are reported. */
  lemma TestBadRedundant()
    ensures RedundantInterfaceRule.RedundantViolations(TEST_BAD, JdkInterfaces)
      == [Violation(CLASS, "TestBadClass", RedundantInterfaceRule.RedundantMessage(RUNNABLE)),
          Violation(CLASS, "TestBadClass", RedundantInterfaceRule.RedundantMessage(COMPARABLE))]
  {
    var f := RedundantInterfaceRule.InterfaceChecker(TEST_BAD, JdkInterfaces);
    FlatMapCons(RUNNABLE, [COMPARABLE], f);
    FlatMapCons(COMPARABLE, [], f);
    assert [RUNNABLE] + [COMPARABLE] == TEST_BAD.interfaces && [COMPARABLE] + [] == [COMPARABLE];
    RunnableVerdict();
    ComparableVerdict();
  }

  /** The default constructor is public. */
  lemma TestBadConstructor()
    ensures NonPublicConstructorRule.ConstructorViolations(TEST_BAD) == []
  {
    NonPublicConstructorRule.ConstructorViolationIff(TEST_BAD);
    assert DEFAULT_INIT in TEST_BAD.methods && NonPublicConstructorRule.IsPublicConstructor(DEFAULT_INIT);
  }

  /** Linting TestBadClass with the default registry gives seven findings: four naming,
      one pairing, two redundant interfaces. */
  lemma TestBadFindings()
    ensures |LintClass(DEFAULT_RULES, TEST_BAD, JdkInterfaces)| == 7
  {
    DefaultLintClass(TEST_BAD, JdkInterfaces);
    TestBadNaming();
    TestBadPairing();
    TestBadRedundant();
    TestBadConstructor();
  }

  lemma GoodFieldsClean()
    ensures FlatMap(GOOD.fields, NamingConventionRule.FieldChecker("GoodClass")) == []
  {
    var f := NamingConventionRule.FieldChecker("GoodClass");
    CamelNamesOfGood();
    ConstantNameAccepted();
    assert f(COUNT_FIELD) == [] && f(NAME_CONSTANT) == [];
    FlatMapSilent(GOOD.fields, f);
  }

  lemma GoodMethodsClean()
    ensures FlatMap(GOOD.methods, NamingConventionRule.MethodChecker("GoodClass")) == []
  {
    var f := NamingConventionRule.MethodChecker("GoodClass");
    CamelNamesOfGood();
    CamelNamesOfTestBad();
    ExemptInit();
    assert f(DEFAULT_INIT) == [] && f(DO_WORK) == [] && f(GET_COUNT) == [];
    assert f(RUN) == [] && f(EQUALS) == [] && f(HASH_CODE) == [];
    FlatMapSilent(GOOD.methods, f);
  }

  lemma GoodNaming()
    ensures NamingConventionRule.NamingViolations(GOOD) == []
  {
    GoodSimpleName();
    NamingSplit(GOOD, "GoodClass");
    ClassNamesPascal();
    GoodFieldsClean();
    GoodMethodsClean();
  }

  /** GoodClass passes all four default rules. */
  lemma GoodClassClean()
    ensures LintClass(DEFAULT_RULES, GOOD, JdkInterfaces) == []
  {
    DefaultLintClass(GOOD, JdkInterfaces);
    GoodNaming();
    assert EQUALS in GOOD.methods && EqualsHashCodeRule.IsEqualsMethod(EQUALS);
    assert HASH_CODE in GOOD.methods && EqualsHashCodeRule.IsHashCodeMethod(HASH_CODE);
    var f := RedundantInterfaceRule.InterfaceChecker(GOOD, JdkInterfaces);
    FlatMapCons(RUNNABLE, [], f);
    assert [RUNNABLE] + [] == GOOD.interfaces;
    var abstractRun := Method("run", "()V", ACC_PUBLIC | ACC_ABSTRACT);
    assert RUN in GOOD.methods && abstractRun in JdkInterfaces(RUNNABLE).value.methods;
    assert RedundantInterfaceRule.IsAbstract(abstractRun) && RedundantInterfaceRule.Overrides(RUN, abstractRun);
    RedundantInterfaceRule.InterfaceFlaggedIff(GOOD, JdkInterfaces, RUNNABLE);
    NonPublicConstructorRule.ConstructorViolationIff(GOOD);
    assert DEFAULT_INIT in GOOD.methods && NonPublicConstructorRule.IsPublicConstructor(DEFAULT_INIT);
  }

  /** The naming rule also cuts at '$', so a nested class is judged by its own name,
      while the other rules keep the outer prefix. */
  lemma NestedClassNames()
    ensures NamingConventionRule.NamingSimpleName("a/Outer$" + "Inner") == "Inner"
    ensures SimpleClassName("a/" + "Outer$Inner") == "Outer$Inner"
  {
    assert '/' !in "Inner" && '$' !in "Inner" && '/' !in "Outer$Inner";
    NamingConventionRule.NamingNameAfterPrefix("a/Outer$", "Inner");
    SimpleNameAfterPackage("a/", "Outer$Inner");
  }
}
