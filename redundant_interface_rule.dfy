/** RedundantInterfaceRule: flags each declared interface that the class does not
    override any abstract method of. Interfaces are looked up through an injected
    resolver (the source reads them with ASM's ClassReader; null on IOException). */
module RedundantInterfaceRule {
  import opened Wrappers
  import opened Seqs
  import opened Text
  import opened Structure
  import opened Violations

  /** loadInterface: the structural model of an interface, or None when it cannot be read. */
  type Resolver = string -> Option<ClassModel>

  predicate IsAbstract(m: Method)
  {
    HasFlag(m.access, ACC_ABSTRACT)
  }

  /** A non-static class method with the same name and descriptor as the interface method. */
  predicate Overrides(classMethod: Method, interfaceMethod: Method)
  {
    !HasFlag(classMethod.access, ACC_STATIC)
    && interfaceMethod.name == classMethod.name && interfaceMethod.desc == classMethod.desc
  }

  predicate OverridesAny(classMethods: seq<Method>, interfaceMethods: seq<Method>)
  {
    exists i, j :: 0 <= i < |interfaceMethods| && 0 <= j < |classMethods|
      && Overrides(classMethods[j], interfaceMethods[i])
  }

  function RedundantMessage(interfaceName: string): string
  {
    "Interface " + ReplaceChar(interfaceName, '/', '.')
      + " is implemented but no interface methods are overridden."
  }

  /** What one declared interface contributes. */
  function InterfaceVerdict(c: ClassModel, resolve: Resolver, interfaceName: string): seq<Violation>
  {
    match resolve(interfaceName)
    case None => []
    case Some(interfaceNode) =>
      var abstractMethods := Filter(interfaceNode.methods, IsAbstract);
      if abstractMethods == [] || OverridesAny(c.methods, abstractMethods) then []
      else [Violation(CLASS, SimpleClassName(c.name), RedundantMessage(interfaceName))]
  }

  function InterfaceChecker(c: ClassModel, resolve: Resolver): string -> seq<Violation>
  {
    interfaceName => InterfaceVerdict(c, resolve, interfaceName)
  }

  /** The rule's output: the verdicts of the declared interfaces, in declaration order. */
  function RedundantViolations(c: ClassModel, resolve: Resolver): seq<Violation>
  {
    FlatMap(c.interfaces, InterfaceChecker(c, resolve))
  }

  /** collectAbstractMethods. */
  method CollectAbstractMethods(interfaceNode: ClassModel) returns (abstractMethods: seq<Method>)
    ensures abstractMethods == Filter(interfaceNode.methods, IsAbstract)
  {
    abstractMethods := [];
    for i := 0 to |interfaceNode.methods|
      invariant abstractMethods == Filter(interfaceNode.methods[..i], IsAbstract)
    {
      var m := interfaceNode.methods[i];
      assert interfaceNode.methods[..i + 1] == interfaceNode.methods[..i] + [m];
      FilterSnoc(interfaceNode.methods[..i], m, IsAbstract);
      if HasFlag(m.access, ACC_ABSTRACT) {
        abstractMethods := abstractMethods + [m];
      }
    }
    assert interfaceNode.methods[..|interfaceNode.methods|] == interfaceNode.methods;
  }

  /** overridesAny: a nested search that returns at the first match. */
  method OverridesAnyMethod(classMethods: seq<Method>, interfaceMethods: seq<Method>)
    returns (found: bool)
    ensures found <==> OverridesAny(classMethods, interfaceMethods)
  {
    for i := 0 to |interfaceMethods|
      invariant forall i', j ::
        (0 <= i' < i && 0 <= j < |classMethods| ==> !Overrides(classMethods[j], interfaceMethods[i']))
    {
      var interfaceMethod := interfaceMethods[i];
      for j := 0 to |classMethods|
        invariant forall j' :: 0 <= j' < j ==> !Overrides(classMethods[j'], interfaceMethod)
      {
        var classMethod := classMethods[j];
        if HasFlag(classMethod.access, ACC_STATIC) {
          continue;
        }
        if interfaceMethod.name == classMethod.name && interfaceMethod.desc == classMethod.desc {
          return true;
        }
      }
    }
    return false;
  }

  lemma InterfaceStep(c: ClassModel, resolve: Resolver, i: nat)
    requires i < |c.interfaces|
    ensures FlatMap(c.interfaces[..i + 1], InterfaceChecker(c, resolve))
      == FlatMap(c.interfaces[..i], InterfaceChecker(c, resolve))
         + InterfaceVerdict(c, resolve, c.interfaces[i])
  {
    assert c.interfaces[..i + 1] == c.interfaces[..i] + [c.interfaces[i]];
    FlatMapSnoc(c.interfaces[..i], c.interfaces[i], InterfaceChecker(c, resolve));
  }

  method Check(c: ClassModel, resolve: Resolver) returns (violations: seq<Violation>)
    ensures violations == RedundantViolations(c, resolve)
  {
    violations := [];
    var interfaces := c.interfaces;
    if |interfaces| == 0 {
      return;
    }
    var classMethods := c.methods;
    for i := 0 to |interfaces|
      invariant violations == FlatMap(interfaces[..i], InterfaceChecker(c, resolve))
    {
      InterfaceStep(c, resolve, i);
      var interfaceName := interfaces[i];
      var interfaceNode := resolve(interfaceName);
      if interfaceNode.None? {
        continue;
      }
      var abstractMethods := CollectAbstractMethods(interfaceNode.value);
      if |abstractMethods| == 0 {
        continue;
      }
      var overrides := OverridesAnyMethod(classMethods, abstractMethods);
      if !overrides {
        var simpleName := SimpleClassName(c.name);
        var readableInterface := ReplaceChar(interfaceName, '/', '.');
        violations := violations + [Violation(CLASS, simpleName,
          "Interface " + readableInterface + " is implemented but no interface methods are overridden.")];
      }
    }
    assert interfaces[..|interfaces|] == interfaces;
  }

  /** At most one violation per declared interface (repeated interfaces are not merged). */
  lemma RedundantCountBound(c: ClassModel, resolve: Resolver)
    ensures |RedundantViolations(c, resolve)| <= |c.interfaces|
  {
    FlatMapAtMostOne(c.interfaces, InterfaceChecker(c, resolve));
  }

  /** A class violation on this class's simple name that names one of its interfaces. */
  function RaisedFor(c: ClassModel): Violation -> bool
  {
    (v: Violation) => v.target == CLASS && v.name == SimpleClassName(c.name)
      && exists k :: 0 <= k < |c.interfaces| && v.message == RedundantMessage(c.interfaces[k])
  }

  /** Every violation is a class violation whose subject is the part of the class
      name after its last '/' and whose message names a declared interface. */
  lemma RedundantViolationsAreClassLevel(c: ClassModel, resolve: Resolver)
    ensures forall i :: 0 <= i < |RedundantViolations(c, resolve)| ==>
      var v := RedundantViolations(c, resolve)[i];
      v.target == CLASS && v.name == SimpleClassName(c.name)
      && exists k :: 0 <= k < |c.interfaces| && v.message == RedundantMessage(c.interfaces[k])
  {
    FlatMapAll(c.interfaces, InterfaceChecker(c, resolve), RaisedFor(c));
  }

  /** An interface is flagged exactly when it resolves, has an abstract method, and
      no non-static method declared on the class matches one of them by name and
      descriptor; an unresolvable or marker interface is skipped. */
  lemma InterfaceFlaggedIff(c: ClassModel, resolve: Resolver, interfaceName: string)
    ensures InterfaceVerdict(c, resolve, interfaceName) != []
      <==> resolve(interfaceName).Some?
           && (exists m :: m in resolve(interfaceName).value.methods && IsAbstract(m))
           && !(exists cm, im :: cm in c.methods && im in resolve(interfaceName).value.methods
                 && IsAbstract(im) && Overrides(cm, im))
  {
    if resolve(interfaceName).Some? {
      var ms := resolve(interfaceName).value.methods;
      SomeAbstractIff(ms);
      OverridesAbstractIff(c.methods, ms);
    }
  }

  /** The abstract methods of an interface are non-empty iff it declares one. */
  lemma SomeAbstractIff(ms: seq<Method>)
    ensures Filter(ms, IsAbstract) != [] <==> exists m :: m in ms && IsAbstract(m)
  {
    var abstractMethods := Filter(ms, IsAbstract);
    FilterMembers(ms, IsAbstract);
    if exists m :: m in ms && IsAbstract(m) {
      var m :| m in ms && IsAbstract(m);
      assert m in abstractMethods;
    }
    if abstractMethods != [] {
      assert abstractMethods[0] in abstractMethods;
    }
  }

  /** overridesAny over the abstract methods, stated on membership. */
  lemma OverridesAbstractIff(classMethods: seq<Method>, ms: seq<Method>)
    ensures OverridesAny(classMethods, Filter(ms, IsAbstract))
      <==> exists cm, im :: cm in classMethods && im in ms && IsAbstract(im) && Overrides(cm, im)
  {
    var abstractMethods := Filter(ms, IsAbstract);
    FilterMembers(ms, IsAbstract);
    if exists cm, im :: cm in classMethods && im in ms && IsAbstract(im) && Overrides(cm, im) {
      var cm, im :| cm in classMethods && im in ms && IsAbstract(im) && Overrides(cm, im);
      var i :| 0 <= i < |abstractMethods| && abstractMethods[i] == im;
      var j :| 0 <= j < |classMethods| && classMethods[j] == cm;
      assert OverridesAny(classMethods, abstractMethods);
    }
    if OverridesAny(classMethods, abstractMethods) {
      var i, j :| 0 <= i < |abstractMethods| && 0 <= j < |classMethods|
        && Overrides(classMethods[j], abstractMethods[i]);
      assert abstractMethods[i] in abstractMethods;
      assert classMethods[j] in classMethods;
    }
  }

  /** One interface: extra class methods can only turn a violation into none. */
  lemma VerdictShrinks(c: ClassModel, resolve: Resolver, extra: seq<Method>, interfaceName: string)
    ensures |InterfaceVerdict(c.(methods := c.methods + extra), resolve, interfaceName)|
      <= |InterfaceVerdict(c, resolve, interfaceName)|
  {
    var d := c.(methods := c.methods + extra);
    match resolve(interfaceName)
    case None =>
    case Some(interfaceNode) =>
      var abstractMethods := Filter(interfaceNode.methods, IsAbstract);
      if OverridesAny(c.methods, abstractMethods) {
        var i, j :| 0 <= i < |abstractMethods| && 0 <= j < |c.methods|
          && Overrides(c.methods[j], abstractMethods[i]);
        assert d.methods[j] == c.methods[j];
      }
  }

  /** Any list of interface names: extra class methods never lengthen the verdicts. */
  lemma {:induction false} VerdictsShrink(c: ClassModel, resolve: Resolver, extra: seq<Method>, names: seq<string>)
    ensures |FlatMap(names, InterfaceChecker(c.(methods := c.methods + extra), resolve))|
      <= |FlatMap(names, InterfaceChecker(c, resolve))|
    decreases |names|
  {
    if names != [] {
      VerdictsShrink(c, resolve, extra, names[..|names| - 1]);
      VerdictShrinks(c, resolve, extra, names[|names| - 1]);
    }
  }

  /** Declaring more methods on the class never adds redundant-interface violations. */
  lemma MoreMethodsNeverAddViolations(c: ClassModel, resolve: Resolver, extra: seq<Method>)
    ensures |RedundantViolations(c.(methods := c.methods + extra), resolve)|
      <= |RedundantViolations(c, resolve)|
  {
    VerdictsShrink(c, resolve, extra, c.interfaces);
  }
}
