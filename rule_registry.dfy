/** The rules as one datatype with a check function (LintRule, RuleTemplate) and
    DefaultRuleRegistry, the ordered rule list. */
module RuleRegistry {
  import opened Wrappers
  import opened Seqs
  import opened Structure
  import opened Violations
  import NamingConventionRule
  import EqualsHashCodeRule
  import RedundantInterfaceRule
  import NonPublicConstructorRule

  datatype Rule = NamingConvention | EqualsHashCode | RedundantInterface | NonPublicConstructor

  const DEFAULT_RULES: seq<Rule> := [NamingConvention, EqualsHashCode, RedundantInterface, NonPublicConstructor]

  /** LintRule.check; the redundant-interface rule reads interfaces through `resolve`. */
  function CheckRule(rule: Rule, c: ClassModel, resolve: RedundantInterfaceRule.Resolver): seq<Violation>
  {
    match rule
    case NamingConvention => NamingConventionRule.NamingViolations(c)
    case EqualsHashCode => EqualsHashCodeRule.PairingViolations(c)
    case RedundantInterface => RedundantInterfaceRule.RedundantViolations(c, resolve)
    case NonPublicConstructor => NonPublicConstructorRule.ConstructorViolations(c)
  }

  /** Every rule's output concatenated in the order of `rules`: one class's findings. */
  function LintClass(rules: seq<Rule>, c: ClassModel, resolve: RedundantInterfaceRule.Resolver): seq<Violation>
  {
    if rules == [] then []
    else LintClass(rules[..|rules| - 1], c, resolve) + CheckRule(rules[|rules| - 1], c, resolve)
  }

  /** One more rule appends its own findings. */
  lemma LintClassStep(rules: seq<Rule>, j: nat, c: ClassModel, resolve: RedundantInterfaceRule.Resolver)
    requires j < |rules|
    ensures LintClass(rules[..j + 1], c, resolve) == LintClass(rules[..j], c, resolve) + CheckRule(rules[j], c, resolve)
  {
    assert rules[..j + 1][..j] == rules[..j];
  }

  /** The dynamic dispatch `rule.check(classNode)`; for the pairing rule the template
      method check delegates to collectViolations. */
  method RunRule(rule: Rule, c: ClassModel, resolve: RedundantInterfaceRule.Resolver)
    returns (violations: seq<Violation>)
    ensures violations == CheckRule(rule, c, resolve)
  {
    match rule
    case NamingConvention =>
      violations := NamingConventionRule.Check(c);
    case EqualsHashCode =>
      violations := EqualsHashCodeRule.CollectViolations(c);
    case RedundantInterface =>
      violations := RedundantInterfaceRule.Check(c, resolve);
    case NonPublicConstructor =>
      violations := NonPublicConstructorRule.Check(c);
  }

  /** Four rules' findings, in list order. */
  lemma LintClassOfFour(rules: seq<Rule>, c: ClassModel, resolve: RedundantInterfaceRule.Resolver,
    first: seq<Violation>, second: seq<Violation>, third: seq<Violation>, fourth: seq<Violation>)
    requires |rules| == 4
    requires CheckRule(rules[0], c, resolve) == first && CheckRule(rules[1], c, resolve) == second
    requires CheckRule(rules[2], c, resolve) == third && CheckRule(rules[3], c, resolve) == fourth
    ensures LintClass(rules, c, resolve) == first + second + third + fourth
  {
    LintClassStep(rules, 0, c, resolve);
    assert rules[..0] == [];
    assert LintClass(rules[..1], c, resolve) == first by {
      assert [] + first == first;
    }
    LintClassStep(rules, 1, c, resolve);
    LintClassStep(rules, 2, c, resolve);
    LintClassStep(rules, 3, c, resolve);
    assert rules[..4] == rules;
  }

  /** With the default registry a class's findings are the naming violations, then the
      pairing one, then the redundant interfaces, then the constructor one. */
  lemma DefaultLintClass(c: ClassModel, resolve: RedundantInterfaceRule.Resolver)
    ensures LintClass(DEFAULT_RULES, c, resolve)
      == NamingConventionRule.NamingViolations(c) + EqualsHashCodeRule.PairingViolations(c)
         + RedundantInterfaceRule.RedundantViolations(c, resolve)
         + NonPublicConstructorRule.ConstructorViolations(c)
  {
    assert DEFAULT_RULES[0] == NamingConvention && DEFAULT_RULES[1] == EqualsHashCode
      && DEFAULT_RULES[2] == RedundantInterface && DEFAULT_RULES[3] == NonPublicConstructor;
    LintClassOfFour(DEFAULT_RULES, c, resolve,
      NamingConventionRule.NamingViolations(c), EqualsHashCodeRule.PairingViolations(c),
      RedundantInterfaceRule.RedundantViolations(c, resolve), NonPublicConstructorRule.ConstructorViolations(c));
  }

  /** A class gets at most one finding for itself per rule, one per field, one per
      method and one per declared interface. */
  lemma DefaultLintClassBound(c: ClassModel, resolve: RedundantInterfaceRule.Resolver)
    ensures |LintClass(DEFAULT_RULES, c, resolve)|
      <= 3 + |c.fields| + |c.methods| + |c.interfaces|
  {
    DefaultLintClass(c, resolve);
    NamingConventionRule.NamingCountBound(c);
    RedundantInterfaceRule.RedundantCountBound(c, resolve);
  }

  class DefaultRuleRegistry {
    var rules: seq<Rule>

    /** Rules are only ever appended, so the four defaults stay in front. */
    ghost predicate Valid()
      reads this
    {
      |rules| >= 4 && rules[..4] == DEFAULT_RULES
    }

    constructor ()
      ensures Valid() && rules == DEFAULT_RULES
    {
      rules := [];
      rules := rules + [NamingConvention];
      rules := rules + [EqualsHashCode];
      rules := rules + [RedundantInterface];
      rules := rules + [NonPublicConstructor];
    }

    /** rules(): the current list, which the caller receives as an immutable value. */
    function Rules(): (r: seq<Rule>)
      requires Valid()
      reads this
      ensures |r| >= 4 && r[..4] == DEFAULT_RULES
    {
      rules
    }

    /** register: appends a rule at the end; a null rule (None) changes nothing. */
    method Register(rule: Option<Rule>)
      requires Valid()
      modifies this
      ensures Valid()
      ensures rules == old(rules) + (if rule.Some? then [rule.value] else [])
    {
      if rule.Some? {
        rules := rules + [rule.value];
      }
    }
  }
}
