/** LintApplication: runs a parsed command. Lint mode checks every target with every
    registered rule and hands one result per class to the reporter; UML mode prints a
    diagram per class; advice mode prints the advisor's answer on a design summary. */
module Application {
  import opened Wrappers
  import opened Seqs
  import opened Text
  import opened Structure
  import opened Violations
  import opened LintResults
  import opened RuleRegistry
  import opened Commands
  import opened Batches
  import opened CountLines
  import PlantUml
  import RedundantInterfaceRule

  /** readClassNode: the parsed class of a name, or None when reading it throws. */
  type Reader = string -> Option<ClassModel>

  /** LLMDesignAdvisor.analyzeDesign: the answer to a design summary, or None when the
      call throws (no API key, a non-2xx status, an I/O failure). */
  type Advisor = string -> Option<string>

  /** What Reporter.report receives: the class name and the result's findings. */
  datatype Report = Report(className: string, violations: seq<Violation>)

  /** The Reporter sink, recording every report in call order. */
  class Reporter {
    var reports: seq<Report>

    constructor ()
      ensures reports == []
    {
      reports := [];
    }

    /** Reporter.report, once per report, in order. */
    method ReportAll(more: seq<Report>)
      modifies this
      ensures reports == old(reports) + more
    {
      reports := reports + more;
    }
  }

  /** Standard output, as the lines printed with println. */
  class Console {
    var lines: seq<string>

    constructor ()
      ensures lines == []
    {
      lines := [];
    }

    /** println, once per line, in order. */
    method PrintLines(more: seq<string>)
      modifies this
      ensures lines == old(lines) + more
    {
      lines := lines + more;
    }
  }

  // ---------------------------------------------------------------------------
  // run: the dispatch on the mode

  datatype Runner = LintRunner | UmlRunner | AdviceRunner

  /** run's switch: nothing for a null command or mode, otherwise the mode's runner. */
  function Dispatch(command: Option<Command>): (r: Option<Runner>)
    ensures r.None? <==> command.None? || command.value.mode.None?
    ensures r == Some(UmlRunner) <==> command.Some? && command.value.mode == Some(UML)
    ensures r == Some(AdviceRunner) <==> command.Some? && command.value.mode == Some(ADVICE)
    ensures r == Some(LintRunner) <==> command.Some? && command.value.mode == Some(LINT)
  {
    if command.None? || command.value.mode.None? then None
    else match command.value.mode.value
      case UML => Some(UmlRunner)
      case ADVICE => Some(AdviceRunner)
      case LINT => Some(LintRunner)
  }

  // ---------------------------------------------------------------------------
  // What each runner does with one target

  /** The report for one target: every rule's findings, in registry order. */
  function LintProduce(rules: seq<Rule>, read: Reader, resolve: RedundantInterfaceRule.Resolver): string -> Option<Report>
  {
    target => if read(target).Some? then Some(Report(target, LintClass(rules, read(target).value, resolve))) else None
  }

  function UmlProduce(read: Reader, render: TypeRenderer): string -> Option<string>
  {
    target => if read(target).Some? then Some(PlantUml.Diagram(read(target).value, render)) else None
  }

  function AdviceProduce(read: Reader, render: TypeRenderer, advise: Advisor): string -> Option<string>
  {
    target => if read(target).Some? then advise(DesignSummary(read(target).value, render)) else None
  }

  lemma UmlStepAt(read: Reader, render: TypeRenderer, n: nat, i: nat, target: string)
    ensures Separated(UmlProduce(read, render), n)(i, target)
      == if read(target).Some?
         then Some([PlantUml.Diagram(read(target).value, render)] + (if i + 1 < n then [""] else []))
         else None
  {
  }

  lemma AdviceStepAt(read: Reader, render: TypeRenderer, advise: Advisor, n: nat, i: nat, target: string)
    ensures Separated(AdviceProduce(read, render, advise), n)(i, target)
      == if read(target).Some? && advise(DesignSummary(read(target).value, render)).Some?
         then Some([advise(DesignSummary(read(target).value, render)).value] + (if i + 1 < n then [""] else []))
         else None
  {
  }

  /** The inner loop of runLint: a fresh result receiving each rule's findings in turn. */
  method CheckClass(rules: seq<Rule>, c: ClassModel, resolve: RedundantInterfaceRule.Resolver)
    returns (result: LintResult)
    ensures fresh(result)
    ensures result.violations == LintClass(rules, c, resolve)
  {
    result := new LintResult();
    for j := 0 to |rules|
      invariant result.violations == LintClass(rules[..j], c, resolve)
    {
      var violations := RunRule(rules[j], c, resolve);
      LintClassStep(rules, j, c, resolve);
      result.AddAll(Some(violations));
    }
    assert rules[..|rules|] == rules;
  }

  /** Every target gets one report, in target order, holding all rules' findings in
      registry order, until the first target that cannot be read; that one and the
      ones after it get none. */
  lemma LintReportsPerTarget(targets: seq<string>, rules: seq<Rule>, read: Reader,
                             resolve: RedundantInterfaceRule.Resolver)
    ensures var o := Batch(targets, Single(LintProduce(rules, read, resolve)));
      && |o.outputs| <= |targets|
      && (forall i :: 0 <= i < |o.outputs| ==>
            read(targets[i]).Some?
            && o.outputs[i] == Report(targets[i], LintClass(rules, read(targets[i]).value, resolve)))
      && (o.failed.None? <==> forall i :: 0 <= i < |targets| ==> read(targets[i]).Some?)
      && (o.failed.None? ==> |o.outputs| == |targets|)
      && (o.failed.Some? ==>
            |o.outputs| < |targets| && read(targets[|o.outputs|]).None?
            && o.failed.value == targets[|o.outputs|])
  {
    var produce := LintProduce(rules, read, resolve);
    SingleBatch(targets, produce);
    assert forall t :: produce(t).Some? <==> read(t).Some?;
  }

  /** When every class can be read, the diagrams come out in target order, separated
      by single empty lines, with none after the last. */
  lemma UmlOutputShape(targets: seq<string>, read: Reader, render: TypeRenderer)
    requires forall i :: 0 <= i < |targets| ==> read(targets[i]).Some?
    ensures var o := Batch(targets, Separated(UmlProduce(read, render), |targets|));
      && o.failed.None?
      && |o.outputs| == (if targets == [] then 0 else 2 * |targets| - 1)
      && (forall i :: 0 <= i < |targets| ==> o.outputs[2 * i] == PlantUml.Diagram(read(targets[i]).value, render))
      && (forall i :: 0 <= i < |targets| - 1 ==> o.outputs[2 * i + 1] == "")
  {
    var produce := UmlProduce(read, render);
    var step := Separated(produce, |targets|);
    assert SucceedsBefore(targets, step, |targets|);
    BatchCompletes(targets, step);
    SeparatedCollected(targets, produce, |targets|);
  }

  // ---------------------------------------------------------------------------
  // buildDesignSummary and formatArgTypes

  /** formatArgTypes: "" for no arguments, otherwise the type names joined with ", ".
      The special case agrees with String.join, which also gives "" for no parts. */
  function FormatArgTypes(argTypes: seq<string>): (r: string)
    ensures r == Join(argTypes, ", ")
    ensures argTypes == [] ==> r == ""
  {
    if |argTypes| == 0 then "" else Join(argTypes, ", ")
  }

  predicate UserMethod(m: Method)
  {
    !StartsWith(m.name, "<")
  }

  function SuperclassName(c: ClassModel): string
  {
    if c.superName.Some? then QualifiedName(c.superName.value) else "java.lang.Object"
  }

  function InterfacesText(c: ClassModel): string
  {
    var interfaces := Map(c.interfaces, QualifiedName);
    if interfaces == [] then "None" else Join(interfaces, ", ")
  }

  function FieldEntry(render: TypeRenderer, f: Field): string
  {
    "  - " + f.name + " : " + render.typeName(f.desc) + "\n"
  }

  function MethodEntry(render: TypeRenderer, m: Method): string
  {
    "  - " + m.name + "(" + FormatArgTypes(render.argumentTypes(m.desc)) + ")" + " : "
    + render.returnType(m.desc) + "\n"
  }

  function FieldEntries(render: TypeRenderer): Field -> string
  {
    f => FieldEntry(render, f)
  }

  function MethodEntries(render: TypeRenderer): Method -> string
  {
    m => MethodEntry(render, m)
  }

  /** The first three lines: the class, its superclass and its interfaces. */
  function SummaryHead(c: ClassModel): string
  {
    "Class: " + QualifiedName(c.name) + "\n"
    + "Superclass: " + SuperclassName(c) + "\n"
    + "Interfaces: " + InterfacesText(c) + "\n"
  }

  function FieldsText(c: ClassModel, render: TypeRenderer): string
  {
    if c.fields == [] then "  - None\n" else FlatMap(c.fields, FieldEntries(render))
  }

  function MethodsText(c: ClassModel, render: TypeRenderer): string
  {
    var userMethods := Filter(c.methods, UserMethod);
    if userMethods == [] then "  - None\n" else FlatMap(userMethods, MethodEntries(render))
  }

  /** The summary buildDesignSummary writes. */
  function DesignSummary(c: ClassModel, render: TypeRenderer): string
  {
    SummaryHead(c) + "Fields:\n" + FieldsText(c, render) + "Methods:\n" + MethodsText(c, render)
  }

  method AppendFieldEntries(buffer: string, fields: seq<Field>, render: TypeRenderer) returns (r: string)
    ensures r == buffer + FlatMap(fields, FieldEntries(render))
  {
    r := buffer;
    for i := 0 to |fields|
      invariant r == buffer + FlatMap(fields[..i], FieldEntries(render))
    {
      var field := fields[i];
      FlatMapPrefixStep(fields, i, FieldEntries(render));
      var fieldType := render.typeName(field.desc);
      var line := "  - " + field.name + " : " + fieldType + "\n";
      AppendAssoc(buffer, FlatMap(fields[..i], FieldEntries(render)), line);
      r := r + line;
    }
    assert fields[..|fields|] == fields;
  }

  method AppendMethodEntries(buffer: string, methods: seq<Method>, render: TypeRenderer) returns (r: string)
    ensures r == buffer + FlatMap(methods, MethodEntries(render))
  {
    r := buffer;
    for i := 0 to |methods|
      invariant r == buffer + FlatMap(methods[..i], MethodEntries(render))
    {
      var method_ := methods[i];
      FlatMapPrefixStep(methods, i, MethodEntries(render));
      var returnType := render.returnType(method_.desc);
      var argTypes := FormatArgTypes(render.argumentTypes(method_.desc));
      var line := "  - " + method_.name + "(" + argTypes + ")" + " : " + returnType + "\n";
      AppendAssoc(buffer, FlatMap(methods[..i], MethodEntries(render)), line);
      r := r + line;
    }
    assert methods[..|methods|] == methods;
  }

  /** buildDesignSummary: a StringBuilder filled section by section. */
  method BuildDesignSummary(c: ClassModel, render: TypeRenderer) returns (r: string)
    ensures r == DesignSummary(c, render)
  {
    var name := QualifiedName(c.name);
    r := "Class: " + name + "\n";
    var superName := if c.superName.Some? then QualifiedName(c.superName.value) else "java.lang.Object";
    r := r + "Superclass: " + superName + "\n";
    var interfaces := Map(c.interfaces, QualifiedName);
    r := r + "Interfaces: " + (if interfaces == [] then "None" else Join(interfaces, ", ")) + "\n";
    assert r == SummaryHead(c);
    r := r + "Fields:\n";
    if c.fields == [] {
      r := r + "  - None\n";
    } else {
      r := AppendFieldEntries(r, c.fields, render);
    }
    r := r + "Methods:\n";
    var userMethods := Filter(c.methods, UserMethod);
    if userMethods == [] {
      r := r + "  - None\n";
    } else {
      r := AppendMethodEntries(r, userMethods, render);
    }
  }

  /** A class with no superclass, interfaces, fields or ordinary methods gets every default. */
  lemma SummaryDefaults(c: ClassModel, render: TypeRenderer)
    requires c.superName.None? && c.interfaces == [] && c.fields == []
    requires forall m :: m in c.methods ==> StartsWith(m.name, "<")
    ensures DesignSummary(c, render)
      == "Class: " + QualifiedName(c.name) + "\n"
         + "Superclass: " + "java.lang.Object" + "\n"
         + "Interfaces: " + "None" + "\n"
         + "Fields:\n" + "  - None\n"
         + "Methods:\n" + "  - None\n"
  {
    assert SuperclassName(c) == "java.lang.Object";
    assert InterfacesText(c) == "None";
    assert FieldsText(c, render) == "  - None\n";
    FilterNone(c.methods, UserMethod);
  }

  /** The summary leaves out <init> and <clinit>: it is the same for the class with only
      its ordinary methods. */
  lemma SummaryOmitsSpecialMethods(c: ClassModel, render: TypeRenderer)
    ensures DesignSummary(c.(methods := Filter(c.methods, UserMethod)), render) == DesignSummary(c, render)
  {
    FilterIdempotent(c.methods, UserMethod);
  }

  // ---------------------------------------------------------------------------
  // The application object

  class LintApplication {
    const ruleRegistry: DefaultRuleRegistry
    const reporter: Reporter
    const console: Console
    const read: Reader
    const resolve: RedundantInterfaceRule.Resolver
    const render: TypeRenderer
    const advise: Advisor

    constructor (ruleRegistry: DefaultRuleRegistry, reporter: Reporter, console: Console, read: Reader,
                 resolve: RedundantInterfaceRule.Resolver, render: TypeRenderer, advise: Advisor)
      ensures this.ruleRegistry == ruleRegistry && this.reporter == reporter && this.console == console
      ensures this.read == read && this.resolve == resolve && this.render == render && this.advise == advise
    {
      this.ruleRegistry := ruleRegistry;
      this.reporter := reporter;
      this.console := console;
      this.read := read;
      this.resolve := resolve;
      this.render := render;
      this.advise := advise;
    }

    /** One pass of runLint's loop: read the class and check it with every rule. */
    method LintTarget(rules: seq<Rule>, className: string) returns (out: Option<Report>)
      ensures out == LintProduce(rules, read, resolve)(className)
    {
      var classNode := read(className);
      if classNode.None? {
        return None;
      }
      var result := CheckClass(rules, classNode.value, resolve);
      return Some(Report(className, result.violations));
    }

    /** runLint: per target, a fresh result filled by every rule in registry order,
        then one report; a class that cannot be read aborts the batch. The reports
        are returned in the order they reach the reporter. */
    method RunLint(targets: seq<string>) returns (reports: seq<Report>, failed: Option<string>)
      requires ruleRegistry.Valid()
      ensures Batch(targets, Single(LintProduce(ruleRegistry.rules, read, resolve))) == Outcome(reports, failed)
    {
      var rules := ruleRegistry.Rules();
      ghost var step := Single(LintProduce(rules, read, resolve));
      reports := [];
      for i := 0 to |targets|
        invariant SucceedsBefore(targets, step, i)
        invariant reports == Collected(targets, step, i)
      {
        var out := LintTarget(rules, targets[i]);
        if out.None? {
          BatchFails(targets, step, i);
          return reports, Some(targets[i]);
        }
        CollectedStep(targets, step, i);
        reports := reports + [out.value];
      }
      BatchCompletes(targets, step);
      return reports, None;
    }

    /** One pass of runUml's loop: read the class and render its diagram, followed by
        an empty line unless it is the last of n. */
    method UmlTarget(i: nat, n: nat, className: string) returns (out: Option<seq<string>>)
      ensures out == Separated(UmlProduce(read, render), n)(i, className)
    {
      var classNode := read(className);
      UmlStepAt(read, render, n, i, className);
      if classNode.None? {
        return None;
      }
      var uml := PlantUml.GenerateClassDiagram(classNode.value, render);
      return Some([uml] + (if i < n - 1 then [""] else []));
    }

    /** runUml: per target, its diagram and, unless it is the last, an empty line; the
        lines are returned in the order they are printed. */
    method RunUml(targets: seq<string>) returns (lines: seq<string>, failed: Option<string>)
      ensures Batch(targets, Separated(UmlProduce(read, render), |targets|)) == Outcome(lines, failed)
    {
      ghost var step := Separated(UmlProduce(read, render), |targets|);
      lines := [];
      for i := 0 to |targets|
        invariant SucceedsBefore(targets, step, i)
        invariant lines == Collected(targets, step, i)
      {
        var out := UmlTarget(i, |targets|, targets[i]);
        if out.None? {
          BatchFails(targets, step, i);
          return lines, Some(targets[i]);
        }
        CollectedStep(targets, step, i);
        lines := lines + out.value;
      }
      BatchCompletes(targets, step);
      return lines, None;
    }

    /** One pass of runAdvice's loop: read the class, summarise it and ask the advisor;
        the answer is followed by an empty line unless it is the last of n. */
    method AdviceTarget(i: nat, n: nat, className: string) returns (out: Option<seq<string>>)
      ensures out == Separated(AdviceProduce(read, render, advise), n)(i, className)
    {
      var classNode := read(className);
      AdviceStepAt(read, render, advise, n, i, className);
      if classNode.None? {
        return None;
      }
      var summary := BuildDesignSummary(classNode.value, render);
      var feedback := advise(summary);
      if feedback.None? {
        return None;
      }
      return Some([feedback.value] + (if i < n - 1 then [""] else []));
    }

    /** runAdvice: per target, the advisor's answer on its design summary and, unless
        it is the last, an empty line; the lines are returned in printing order. */
    method RunAdvice(targets: seq<string>) returns (lines: seq<string>, failed: Option<string>)
      ensures Batch(targets, Separated(AdviceProduce(read, render, advise), |targets|)) == Outcome(lines, failed)
    {
      ghost var step := Separated(AdviceProduce(read, render, advise), |targets|);
      lines := [];
      for i := 0 to |targets|
        invariant SucceedsBefore(targets, step, i)
        invariant lines == Collected(targets, step, i)
      {
        var out := AdviceTarget(i, |targets|, targets[i]);
        if out.None? {
          BatchFails(targets, step, i);
          return lines, Some(targets[i]);
        }
        CollectedStep(targets, step, i);
        lines := lines + out.value;
      }
      BatchCompletes(targets, step);
      return lines, None;
    }

    /** run: a null command or mode does nothing; otherwise the mode's runner runs on
        the command's targets and only its own sink changes. */
    method Run(command: Option<Command>) returns (failed: Option<string>)
      requires ruleRegistry.Valid()
      modifies reporter, console
      ensures Dispatch(command).None? ==>
        failed.None? && reporter.reports == old(reporter.reports) && console.lines == old(console.lines)
      ensures Dispatch(command) == Some(LintRunner) ==>
        var o := Batch(command.value.targets, Single(LintProduce(ruleRegistry.rules, read, resolve)));
        reporter.reports == old(reporter.reports) + o.outputs && failed == o.failed
        && console.lines == old(console.lines)
      ensures Dispatch(command) == Some(UmlRunner) ==>
        var o := Batch(command.value.targets, Separated(UmlProduce(read, render), |command.value.targets|));
        console.lines == old(console.lines) + o.outputs && failed == o.failed
        && reporter.reports == old(reporter.reports)
      ensures Dispatch(command) == Some(AdviceRunner) ==>
        var o := Batch(command.value.targets, Separated(AdviceProduce(read, render, advise), |command.value.targets|));
        console.lines == old(console.lines) + o.outputs && failed == o.failed
        && reporter.reports == old(reporter.reports)
    {
      if command.None? || command.value.mode.None? {
        return None;
      }
      match command.value.mode.value
      case UML =>
        var lines;
        lines, failed := RunUml(command.value.targets);
        console.PrintLines(lines);
      case ADVICE =>
        var lines;
        lines, failed := RunAdvice(command.value.targets);
        console.PrintLines(lines);
      case LINT =>
        var reports;
        reports, failed := RunLint(command.value.targets);
        reporter.ReportAll(reports);
    }
  }
}
