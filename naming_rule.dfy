/** NamingConventionRule: PascalCase classes, lowerCamelCase fields and methods,
    UPPER_SNAKE_CASE constants; every pattern must match the whole name. */
module NamingConventionRule {
  import opened Text
  import opened Seqs
  import opened Structure
  import opened Violations

  const CLASS_MESSAGE := "Class names should be PascalCase"
  const CONSTANT_MESSAGE := "Constant fields should be UPPER_SNAKE_CASE"
  const FIELD_MESSAGE := "Field names should be lowerCamelCase"
  const METHOD_MESSAGE := "Method names should be lowerCamelCase"

  /** [A-Z][A-Za-z0-9]* */
  predicate IsPascalCase(s: string)
  {
    |s| >= 1 && IsAsciiUpper(s[0]) && forall i :: 1 <= i < |s| ==> IsAsciiAlnum(s[i])
  }

  /** [a-z][A-Za-z0-9]* */
  predicate IsCamelCase(s: string)
  {
    |s| >= 1 && IsAsciiLower(s[0]) && forall i :: 1 <= i < |s| ==> IsAsciiAlnum(s[i])
  }

  /** The regex class [A-Z0-9]. */
  predicate IsUpperOrDigit(c: char) { IsAsciiUpper(c) || IsAsciiDigit(c) }

  /** [A-Z0-9]*(?:_[A-Z0-9]+)*, which is the language (W | _W)* with W = [A-Z0-9]:
      read one letter or digit, or an underscore together with the one that follows it. */
  predicate MatchesConstantTail(s: string)
    decreases |s|
  {
    s == []
    || (IsUpperOrDigit(s[0]) && MatchesConstantTail(s[1..]))
    || (|s| >= 2 && s[0] == '_' && IsUpperOrDigit(s[1]) && MatchesConstantTail(s[2..]))
  }

  /** [A-Z][A-Z0-9]*(?:_[A-Z0-9]+)* */
  predicate IsConstantCase(s: string)
  {
    |s| >= 1 && IsAsciiUpper(s[0]) && MatchesConstantTail(s[1..])
  }

  /** UPPER_SNAKE_CASE in words: an upper-case first letter, then upper-case letters,
      digits and underscores, with no trailing and no doubled underscore. */
  predicate ConstantCaseShape(s: string)
  {
    |s| >= 1 && IsAsciiUpper(s[0]) && s[|s| - 1] != '_'
    && (forall i :: 0 <= i < |s| ==> IsUpperOrDigit(s[i]) || s[i] == '_')
    && (forall i :: 0 <= i < |s| - 1 ==> !(s[i] == '_' && s[i + 1] == '_'))
  }

  /** Every character is [A-Z0-9_] and every underscore is followed by [A-Z0-9]. */
  predicate TailShape(s: string)
  {
    (forall i :: 0 <= i < |s| ==> IsUpperOrDigit(s[i]) || s[i] == '_')
    && (forall i :: 0 <= i < |s| && s[i] == '_' ==> i + 1 < |s| && IsUpperOrDigit(s[i + 1]))
  }

  lemma {:induction false} TailShapeExactly(s: string)
    ensures MatchesConstantTail(s) <==> TailShape(s)
    decreases |s|
  {
    if s == [] {
    } else if IsUpperOrDigit(s[0]) {
      TailShapeExactly(s[1..]);
      assert TailShape(s) <==> TailShape(s[1..]) by {
        if TailShape(s[1..]) {
          forall i | 0 <= i < |s| && s[i] == '_'
            ensures i + 1 < |s| && IsUpperOrDigit(s[i + 1])
          {
            assert s[1..][i - 1] == s[i];
          }
        }
      }
    } else if s[0] == '_' && |s| >= 2 && IsUpperOrDigit(s[1]) {
      TailShapeExactly(s[2..]);
      assert TailShape(s) <==> TailShape(s[2..]) by {
        if TailShape(s[2..]) {
          forall i | 0 <= i < |s| && s[i] == '_'
            ensures i + 1 < |s| && IsUpperOrDigit(s[i + 1])
          {
            if i >= 2 { assert s[2..][i - 2] == s[i]; }
          }
        }
      }
    } else {
      assert !TailShape(s);
    }
  }

  /** CONSTANT_CASE accepts exactly the UPPER_SNAKE_CASE names: no leading, trailing
      or doubled underscore. */
  lemma ConstantCaseExactly(s: string)
    ensures IsConstantCase(s) <==> ConstantCaseShape(s)
  {
    if |s| >= 1 && IsAsciiUpper(s[0]) {
      var t := s[1..];
      TailShapeExactly(t);
      if TailShape(t) {
        assert s[|s| - 1] != '_' by {
          if |s| > 1 { assert s[|s| - 1] == t[|t| - 1]; }
        }
        forall i | 0 <= i < |s| - 1
          ensures !(s[i] == '_' && s[i + 1] == '_')
        {
          if i >= 1 { assert t[i - 1] == s[i] && t[i] == s[i + 1]; }
        }
      }
      if ConstantCaseShape(s) {
        forall i | 0 <= i < |t| && t[i] == '_'
          ensures i + 1 < |t| && IsUpperOrDigit(t[i + 1])
        {
          assert s[i + 1] == '_';
        }
      }
    }
  }

  /** A field is a constant when it is both static and final. */
  predicate IsConstant(access: Access)
  {
    HasFlag(access, ACC_STATIC) && HasFlag(access, ACC_FINAL)
  }

  /** This rule's simpleClassName: the part after the last '/' or '$' ("" for ""). */
  function NamingSimpleName(internalName: string): (r: string)
    ensures |r| <= |internalName| && r == internalName[|internalName| - |r|..]
    ensures forall i :: 0 <= i < |r| ==> r[i] != '/' && r[i] != '$'
    ensures |r| < |internalName| ==> internalName[|internalName| - |r| - 1] in {'/', '$'}
  {
    if internalName == [] then []
    else
      var slash := LastIndexOf(internalName, '/');
      var dollar := LastIndexOf(internalName, '$');
      var last := if slash > dollar then slash else dollar;
      if last >= 0 then internalName[last + 1..] else internalName
  }

  /** A name after a prefix that ends in '/' or '$' is its own simple name when it
      holds neither character. */
  lemma NamingNameAfterPrefix(prefix: string, simple: string)
    requires |prefix| > 0 && prefix[|prefix| - 1] in {'/', '$'}
    requires '/' !in simple && '$' !in simple
    ensures NamingSimpleName(prefix + simple) == simple
  {
    LastIndexOfAbsentSuffix(prefix, simple, '/');
    LastIndexOfAbsentSuffix(prefix, simple, '$');
    assert (prefix + simple)[|prefix|..] == simple;
  }

  predicate FieldFlagged(f: Field)
  {
    if IsConstant(f.access) then !IsConstantCase(f.name) else !IsCamelCase(f.name)
  }

  /** Constructors, static initialisers and synthetic lambda bodies are exempt. */
  predicate IsExemptMethod(m: Method)
  {
    StartsWith(m.name, "<") || StartsWith(m.name, "lambda$")
  }

  predicate MethodFlagged(m: Method)
  {
    !IsExemptMethod(m) && !IsCamelCase(m.name)
  }

  function FieldViolation(className: string, f: Field): Violation
  {
    Violation(FIELD, className + "#" + f.name,
      if IsConstant(f.access) then CONSTANT_MESSAGE else FIELD_MESSAGE)
  }

  function MethodViolation(className: string, m: Method): Violation
  {
    Violation(METHOD, className + "#" + m.name, METHOD_MESSAGE)
  }

  function ClassVerdict(simpleName: string): seq<Violation>
  {
    if IsPascalCase(simpleName) then [] else [Violation(CLASS, simpleName, CLASS_MESSAGE)]
  }

  /** What checkField adds for one field. */
  function FieldVerdict(className: string, f: Field): seq<Violation>
  {
    if FieldFlagged(f) then [FieldViolation(className, f)] else []
  }

  /** What checkMethod adds for one method. */
  function MethodVerdict(className: string, m: Method): seq<Violation>
  {
    if MethodFlagged(m) then [MethodViolation(className, m)] else []
  }

  function FieldChecker(className: string): Field -> seq<Violation>
  {
    f => FieldVerdict(className, f)
  }

  function MethodChecker(className: string): Method -> seq<Violation>
  {
    m => MethodVerdict(className, m)
  }

  function FieldViolationOf(className: string): Field -> Violation
  {
    f => FieldViolation(className, f)
  }

  function MethodViolationOf(className: string): Method -> Violation
  {
    m => MethodViolation(className, m)
  }

  /** The rule's output: the class verdict, then each field's, then each method's. */
  function NamingViolations(c: ClassModel): seq<Violation>
  {
    var simpleName := NamingSimpleName(c.name);
    ClassVerdict(simpleName) + FlatMap(c.fields, FieldChecker(simpleName))
      + FlatMap(c.methods, MethodChecker(simpleName))
  }

  method CheckField(violations: seq<Violation>, className: string, field: Field)
    returns (out: seq<Violation>)
    ensures out == violations + FieldVerdict(className, field)
  {
    out := violations;
    var isConstant := IsConstant(field.access);
    var valid := if isConstant then IsConstantCase(field.name) else IsCamelCase(field.name);
    if !valid {
      var message := if isConstant then CONSTANT_MESSAGE else FIELD_MESSAGE;
      out := out + [Violation(FIELD, className + "#" + field.name, message)];
    }
  }

  method CheckMethod(violations: seq<Violation>, className: string, method_: Method)
    returns (out: seq<Violation>)
    ensures out == violations + MethodVerdict(className, method_)
  {
    out := violations;
    if StartsWith(method_.name, "<") || StartsWith(method_.name, "lambda$") {
      return;
    }
    if !IsCamelCase(method_.name) {
      out := out + [Violation(METHOD, className + "#" + method_.name, METHOD_MESSAGE)];
    }
  }

  lemma FieldStep(fields: seq<Field>, i: nat, className: string)
    requires i < |fields|
    ensures FlatMap(fields[..i + 1], FieldChecker(className))
      == FlatMap(fields[..i], FieldChecker(className)) + FieldVerdict(className, fields[i])
  {
    assert fields[..i + 1] == fields[..i] + [fields[i]];
    FlatMapSnoc(fields[..i], fields[i], FieldChecker(className));
  }

  lemma MethodStep(methods: seq<Method>, i: nat, className: string)
    requires i < |methods|
    ensures FlatMap(methods[..i + 1], MethodChecker(className))
      == FlatMap(methods[..i], MethodChecker(className)) + MethodVerdict(className, methods[i])
  {
    assert methods[..i + 1] == methods[..i] + [methods[i]];
    FlatMapSnoc(methods[..i], methods[i], MethodChecker(className));
  }

  /** The field loop of check. */
  method CheckFields(violations: seq<Violation>, className: string, fields: seq<Field>)
    returns (out: seq<Violation>)
    ensures out == violations + FlatMap(fields, FieldChecker(className))
  {
    out := violations;
    for i := 0 to |fields|
      invariant out == violations + FlatMap(fields[..i], FieldChecker(className))
    {
      FieldStep(fields, i, className);
      AppendAssoc(violations, FlatMap(fields[..i], FieldChecker(className)), FieldVerdict(className, fields[i]));
      out := CheckField(out, className, fields[i]);
    }
    assert fields[..|fields|] == fields;
  }

  /** The method loop of check. */
  method CheckMethods(violations: seq<Violation>, className: string, methods: seq<Method>)
    returns (out: seq<Violation>)
    ensures out == violations + FlatMap(methods, MethodChecker(className))
  {
    out := violations;
    for i := 0 to |methods|
      invariant out == violations + FlatMap(methods[..i], MethodChecker(className))
    {
      MethodStep(methods, i, className);
      AppendAssoc(violations, FlatMap(methods[..i], MethodChecker(className)), MethodVerdict(className, methods[i]));
      out := CheckMethod(out, className, methods[i]);
    }
    assert methods[..|methods|] == methods;
  }

  method Check(c: ClassModel) returns (violations: seq<Violation>)
    ensures violations == NamingViolations(c)
  {
    violations := [];
    var classSimpleName := NamingSimpleName(c.name);
    if !IsPascalCase(classSimpleName) {
      violations := violations + [Violation(CLASS, classSimpleName, CLASS_MESSAGE)];
    }
    violations := CheckFields(violations, classSimpleName, c.fields);
    violations := CheckMethods(violations, classSimpleName, c.methods);
  }

  /** The output is: a class violation iff the simple name is not PascalCase; then one
      violation per flagged field in declaration order, subject "Simple#field" and the
      message of the policy it breaks; then one per flagged method, likewise. */
  lemma NamingShape(c: ClassModel)
    ensures var simpleName := NamingSimpleName(c.name);
      NamingViolations(c)
      == (if IsPascalCase(simpleName) then [] else [Violation(CLASS, simpleName, CLASS_MESSAGE)])
         + Map(Filter(c.fields, FieldFlagged), FieldViolationOf(simpleName))
         + Map(Filter(c.methods, MethodFlagged), MethodViolationOf(simpleName))
  {
    var simpleName := NamingSimpleName(c.name);
    FlatMapOptional(c.fields, FieldChecker(simpleName), FieldFlagged, FieldViolationOf(simpleName));
    FlatMapOptional(c.methods, MethodChecker(simpleName), MethodFlagged, MethodViolationOf(simpleName));
  }

  /** At most one violation for the class and for each field and method. */
  lemma NamingCountBound(c: ClassModel)
    ensures |NamingViolations(c)| <= 1 + |c.fields| + |c.methods|
  {
    var simpleName := NamingSimpleName(c.name);
    FlatMapAtMostOne(c.fields, FieldChecker(simpleName));
    FlatMapAtMostOne(c.methods, MethodChecker(simpleName));
  }

  function TargetRank(t: Target): nat
  {
    match t
    case CLASS => 0
    case FIELD => 1
    case METHOD => 2
  }

  predicate OnField(v: Violation) { v.target == FIELD }

  predicate OnMethod(v: Violation) { v.target == METHOD }

  /** Class, field and method blocks concatenated in that order are ordered by rank. */
  lemma BlocksOrdered(a: seq<Violation>, fs: seq<Violation>, ms: seq<Violation>)
    requires forall i :: 0 <= i < |a| ==> a[i].target == CLASS
    requires forall i :: 0 <= i < |fs| ==> fs[i].target == FIELD
    requires forall i :: 0 <= i < |ms| ==> ms[i].target == METHOD
    ensures var r := a + fs + ms;
      (forall i, j :: 0 <= i < j < |r| ==> TargetRank(r[i].target) <= TargetRank(r[j].target))
      && ((exists i :: 0 <= i < |r| && r[i].target == CLASS) <==> |a| > 0)
  {
    var r := a + fs + ms;
    forall i | 0 <= i < |r|
      ensures TargetRank(r[i].target) == (if i < |a| then 0 else if i < |a| + |fs| then 1 else 2)
    {
      if i < |a| {
        assert r[i] == a[i];
      } else if i < |a| + |fs| {
        assert r[i] == fs[i - |a|];
      } else {
        assert r[i] == ms[i - |a| - |fs|];
      }
    }
    if |a| > 0 {
      assert r[0].target == CLASS;
    }
  }

  /** The class violation, if any, comes first, then field violations, then method
      violations; only the first item can be the class violation. */
  lemma NamingOrder(c: ClassModel)
    ensures var r := NamingViolations(c);
      (forall i, j :: 0 <= i < j < |r| ==> TargetRank(r[i].target) <= TargetRank(r[j].target))
      && ((exists i :: 0 <= i < |r| && r[i].target == CLASS)
          <==> !IsPascalCase(NamingSimpleName(c.name)))
  {
    var simpleName := NamingSimpleName(c.name);
    FlatMapAll(c.fields, FieldChecker(simpleName), OnField);
    FlatMapAll(c.methods, MethodChecker(simpleName), OnMethod);
    BlocksOrdered(ClassVerdict(simpleName), FlatMap(c.fields, FieldChecker(simpleName)),
      FlatMap(c.methods, MethodChecker(simpleName)));
  }
}
