/** EqualsHashCodeRule: a class must define both equals(Object) and hashCode(), or neither. */
module EqualsHashCodeRule {
  import opened Structure
  import opened Violations

  const EQUALS_DESC := "(Ljava/lang/Object;)Z"
  const HASHCODE_DESC := "()I"

  /** An instance method overriding Object.equals: exact name and descriptor. */
  predicate IsEqualsMethod(m: Method)
  {
    !HasFlag(m.access, ACC_STATIC) && m.name == "equals" && m.desc == EQUALS_DESC
  }

  /** An instance method overriding Object.hashCode: exact name and descriptor. */
  predicate IsHashCodeMethod(m: Method)
  {
    !HasFlag(m.access, ACC_STATIC) && m.name == "hashCode" && m.desc == HASHCODE_DESC
  }

  predicate DefinesEquals(methods: seq<Method>)
  {
    exists m :: m in methods && IsEqualsMethod(m)
  }

  predicate DefinesHashCode(methods: seq<Method>)
  {
    exists m :: m in methods && IsHashCodeMethod(m)
  }

  function MissingHashCodeMessage(simpleName: string): string
  {
    "Class " + simpleName + " defines equals(Object) but not hashCode()."
  }

  function MissingEqualsMessage(simpleName: string): string
  {
    "Class " + simpleName + " defines hashCode() but not equals(Object)."
  }

  /** The rule's output: one class violation exactly when one of the pair is missing,
      naming the missing one; nothing when both or neither are defined. */
  function PairingViolations(c: ClassModel): (r: seq<Violation>)
    ensures |r| <= 1
    ensures r != [] <==> DefinesEquals(c.methods) != DefinesHashCode(c.methods)
    ensures r != [] ==> r[0].target == CLASS && r[0].name == SimpleClassName(c.name)
    ensures r != [] && DefinesEquals(c.methods)
      ==> r[0].message == MissingHashCodeMessage(SimpleClassName(c.name))
    ensures r != [] && DefinesHashCode(c.methods)
      ==> r[0].message == MissingEqualsMessage(SimpleClassName(c.name))
  {
    var simpleName := SimpleClassName(c.name);
    var definesEquals := DefinesEquals(c.methods);
    var definesHashCode := DefinesHashCode(c.methods);
    if definesEquals && !definesHashCode then
      [Violation(CLASS, simpleName, MissingHashCodeMessage(simpleName))]
    else if definesHashCode && !definesEquals then
      [Violation(CLASS, simpleName, MissingEqualsMessage(simpleName))]
    else []
  }

  /** collectViolations: one pass over the methods setting two flags. */
  method CollectViolations(c: ClassModel) returns (violations: seq<Violation>)
    ensures violations == PairingViolations(c)
  {
    violations := [];
    var definesEquals := false;
    var definesHashCode := false;
    for i := 0 to |c.methods|
      invariant definesEquals <==> exists j :: 0 <= j < i && IsEqualsMethod(c.methods[j])
      invariant definesHashCode <==> exists j :: 0 <= j < i && IsHashCodeMethod(c.methods[j])
    {
      var m := c.methods[i];
      if HasFlag(m.access, ACC_STATIC) {
        continue;
      }
      if m.name == "equals" && m.desc == EQUALS_DESC {
        definesEquals := true;
      } else if m.name == "hashCode" && m.desc == HASHCODE_DESC {
        definesHashCode := true;
      }
    }
    var simpleName := SimpleClassName(c.name);
    if definesEquals && !definesHashCode {
      violations := violations + [Violation(CLASS, simpleName, MissingHashCodeMessage(simpleName))];
    } else if definesHashCode && !definesEquals {
      violations := violations + [Violation(CLASS, simpleName, MissingEqualsMessage(simpleName))];
    }
  }

  /** Only which methods occur matters: not their order, not their repetition. */
  lemma PairingIgnoresOrderAndRepetition(c: ClassModel, d: ClassModel)
    requires c.name == d.name
    requires forall m :: m in c.methods <==> m in d.methods
    ensures PairingViolations(c) == PairingViolations(d)
  {
  }

  /** Static methods never count, whatever their name and descriptor. */
  lemma PairingIgnoresStaticMethods(c: ClassModel, statics: seq<Method>)
    requires forall m :: m in statics ==> HasFlag(m.access, ACC_STATIC)
    ensures PairingViolations(c.(methods := c.methods + statics)) == PairingViolations(c)
  {
    var d := c.(methods := c.methods + statics);
    assert DefinesEquals(d.methods) == DefinesEquals(c.methods);
    assert DefinesHashCode(d.methods) == DefinesHashCode(c.methods);
  }

  /** An overload of equals or hashCode with another descriptor does not count. */
  lemma PairingIgnoresOverloads(c: ClassModel, m: Method)
    requires m.desc != EQUALS_DESC && m.desc != HASHCODE_DESC
    ensures PairingViolations(c.(methods := c.methods + [m])) == PairingViolations(c)
  {
    var d := c.(methods := c.methods + [m]);
    assert DefinesEquals(d.methods) == DefinesEquals(c.methods);
    assert DefinesHashCode(d.methods) == DefinesHashCode(c.methods);
  }
}
