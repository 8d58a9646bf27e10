/** NonPublicConstructorRule: flags a class none of whose constructors is public. */
module NonPublicConstructorRule {
  import opened Seqs
  import opened Structure
  import opened Violations

  const MESSAGE := "Class cannot be publicly constructed"

  /** Constructors are the methods named <init>; the class initialiser <clinit> is not one. */
  predicate IsConstructor(m: Method)
  {
    m.name == CONSTRUCTOR_NAME
  }

  predicate IsPublicConstructor(m: Method)
  {
    IsConstructor(m) && HasFlag(m.access, ACC_PUBLIC)
  }

  predicate HasPublic(constructors: seq<Method>)
  {
    exists k :: 0 <= k < |constructors| && HasFlag(constructors[k].access, ACC_PUBLIC)
  }

  /** The rule's output: one class violation, naming the class by its dotted name,
      when the class has no constructor or none of them is public. */
  function ConstructorViolations(c: ClassModel): seq<Violation>
  {
    var constructors := Filter(c.methods, IsConstructor);
    if constructors == [] || !HasPublic(constructors) then
      [Violation(CLASS, QualifiedName(c.name), MESSAGE)]
    else []
  }

  /** The violation is emitted exactly when no method is a public constructor; it is
      then the only item. */
  lemma ConstructorViolationIff(c: ClassModel)
    ensures ConstructorViolations(c) == [] <==> exists m :: m in c.methods && IsPublicConstructor(m)
    ensures ConstructorViolations(c) != []
      ==> ConstructorViolations(c) == [Violation(CLASS, QualifiedName(c.name), MESSAGE)]
  {
    var constructors := Filter(c.methods, IsConstructor);
    FilterMembers(c.methods, IsConstructor);
    if exists m :: m in c.methods && IsPublicConstructor(m) {
      var m :| m in c.methods && IsPublicConstructor(m);
      assert m in constructors;
    }
    if HasPublic(constructors) {
      var k :| 0 <= k < |constructors| && HasFlag(constructors[k].access, ACC_PUBLIC);
      assert constructors[k] in constructors;
    }
  }

  /** findConstructors. */
  method FindConstructors(c: ClassModel) returns (constructors: seq<Method>)
    ensures constructors == Filter(c.methods, IsConstructor)
  {
    constructors := [];
    for i := 0 to |c.methods|
      invariant constructors == Filter(c.methods[..i], IsConstructor)
    {
      var m := c.methods[i];
      assert c.methods[..i + 1] == c.methods[..i] + [m];
      FilterSnoc(c.methods[..i], m, IsConstructor);
      if m.name == CONSTRUCTOR_NAME {
        constructors := constructors + [m];
      }
    }
    assert c.methods[..|c.methods|] == c.methods;
  }

  /** hasPublicConstructor: returns at the first public one. */
  method HasPublicConstructor(constructors: seq<Method>) returns (found: bool)
    ensures found <==> HasPublic(constructors)
  {
    for i := 0 to |constructors|
      invariant forall k :: 0 <= k < i ==> !HasFlag(constructors[k].access, ACC_PUBLIC)
    {
      if HasFlag(constructors[i].access, ACC_PUBLIC) {
        return true;
      }
    }
    return false;
  }

  method Check(c: ClassModel) returns (violations: seq<Violation>)
    ensures violations == ConstructorViolations(c)
  {
    violations := [];
    var constructors := FindConstructors(c);
    var hasPublic := HasPublicConstructor(constructors);
    if |constructors| == 0 || !hasPublic {
      var className := QualifiedName(c.name);
      violations := violations + [Violation(CLASS, className, MESSAGE)];
    }
  }

  /** Adding one public constructor removes the violation, whatever else is declared. */
  lemma PublicConstructorSuffices(c: ClassModel, access: Access, desc: string)
    requires HasFlag(access, ACC_PUBLIC)
    ensures ConstructorViolations(c.(methods := c.methods + [Method(CONSTRUCTOR_NAME, desc, access)])) == []
  {
    var m := Method(CONSTRUCTOR_NAME, desc, access);
    assert m in c.methods + [m];
    ConstructorViolationIff(c.(methods := c.methods + [m]));
  }

  /** Only the constructors decide: methods with other names (<clinit> included) do not. */
  lemma OnlyConstructorsMatter(c: ClassModel, others: seq<Method>)
    requires forall m :: m in others ==> !IsConstructor(m)
    ensures ConstructorViolations(c.(methods := c.methods + others)) == ConstructorViolations(c)
  {
    var d := c.(methods := c.methods + others);
    ConstructorViolationIff(c);
    ConstructorViolationIff(d);
    if exists m :: m in d.methods && IsPublicConstructor(m) {
      var m :| m in d.methods && IsPublicConstructor(m);
      assert m in c.methods;
    }
  }
}
