# A model of the bytecode linter

This project models, in Dafny, the core of a small Java linter that reads compiled classes
with ASM and does three things with them:

- **lint**: every registered rule checks the class. The default registry holds four rules:
  - naming conventions;
  - equals/hashCode pairing;
  - redundant interfaces;
  - publicly constructible classes.

  Each class's findings are gathered in a `LintResult` and handed to a reporter.
- **uml**: a PlantUML class diagram is printed per class.
- **advice**: a plain-text design summary of the class is sent to a language-model advisor, and
  the advisor's answer is printed. The advisor builds a JSON request and reads the answer out of
  the JSON response with its own small string scanner.

A class as ASM presents it is the value `Structure.ClassModel`. It holds:

- the internal name;
- the superclass name, or none;
- the interface names;
- fields and methods, each with a name, a descriptor and access flags. The flags are a `bv32`
  tested with `&`, as in the source.

Rules and renderers are pure functions of that value. The loops of the source are methods,
each proved equal to the function that specifies it. Objects whose state the source changes
are classes: `LintResult`, `DefaultRuleRegistry`, the reporter, the console and
`LintApplication`.

Things outside the program's own code are parameters:

- Reading a class file is a `Reader` (`string -> Option<ClassModel>`). `None` stands for the
  `IOException`.
- Reading an interface for the redundant-interface rule is a `Resolver`.
- ASM's rendering of descriptors into Java type names is a `TypeRenderer`, which is left
  uninterpreted.
- The advisor's HTTP call is an `Advisor` (`string -> Option<string>`).

A run that meets an unreadable class stops there, as the code does. The runner then reports
which target failed, alongside what was produced before it.

Modules, one per source file plus shared helpers:

- `Seqs`, `Text` and `CountLines`: sequence, string and line-count helpers.
- `Structure`: the class model and the slash-based simple name.
- `Violations`;
- `NamingConventionRule`, `EqualsHashCodeRule`, `RedundantInterfaceRule`,
  `NonPublicConstructorRule`;
- `LintResults`, `RuleRegistry`, `Commands`, `LintCli`, `PlantUml`, `DesignAdvisor`;
- `Batches`: the per-target loops and where they stop.
- `Application`;
- `Fixtures`: the two sample classes shipped with the linter, and what the default rules
  report for them.

## Model

| member | source | states |
|---|---|---|
| Structure.SimpleClassName | src/main/java/example/PlantUmlGenerator.java:95-98 | The result is the suffix of the internal name after its last '/', so it holds no '/'. When it is shorter than the name, the character before it is '/'. |
| Structure.SimpleNameAfterPackage | src/main/java/example/EqualsHashCodeRule.java:45-48 | A package prefix ending in '/', followed by a slash-free name, yields that name. |
| Structure.QualifiedName | src/main/java/example/NonPublicConstructorRule.java:23 | The dotted class name keeps the length of the internal name and holds no '/'. |
| Violations.ParseTarget | src/main/java/example/Violation.java:8-12 | A target word is parsed back only to the enum constant whose name it is. |
| Violations.TargetWordParsed | src/main/java/example/Violation.java:36-39 | In toString, the target's name is followed by a space and a quote, and the first space falls right after it. |
| Violations.SubjectParsed | src/main/java/example/Violation.java:36-39 | For a subject without a quote, the quoted subject, the ": " and the message sit at fixed offsets of toString. |
| Violations.ToStringRoundTrip | src/main/java/example/Violation.java:36-39 | toString is injective: parsing it gives back target, name and message, for any name without a quote. |
| NamingConventionRule.TailShapeExactly | src/main/java/example/NamingConventionRule.java:20 | The recursive reading of the tail `[A-Z0-9]*(?:_[A-Z0-9]+)*` accepts exactly the strings of [A-Z0-9_] in which every underscore is followed by a letter or digit. |
| NamingConventionRule.ConstantCaseExactly | src/main/java/example/NamingConventionRule.java:20-88 | CONSTANT_CASE matches exactly the names that start upper-case and hold only [A-Z0-9_], with no trailing and no doubled underscore. |
| NamingConventionRule.NamingSimpleName | src/main/java/example/NamingConventionRule.java:68-76 | The result is the suffix after the last '/' or '$', so it holds neither. When it is shorter than the name, the character before it is '/' or '$'. |
| NamingConventionRule.NamingNameAfterPrefix | src/main/java/example/NamingConventionRule.java:68-76 | A prefix ending in '/' or '$', followed by a name free of both, yields that name. |
| NamingConventionRule.CheckField | src/main/java/example/NamingConventionRule.java:44-52 | Appends the field's verdict. A constant (static and final) is judged by CONSTANT_CASE and anything else by camel case. The message follows the same choice. |
| NamingConventionRule.CheckMethod | src/main/java/example/NamingConventionRule.java:54-62 | Appends the method's verdict. Names starting with "<" or "lambda$" are exempt, and any other name must be camel case. |
| NamingConventionRule.FieldStep | src/main/java/example/NamingConventionRule.java:33-35 | One more field in the loop adds exactly that field's verdict. |
| NamingConventionRule.MethodStep | src/main/java/example/NamingConventionRule.java:37-39 | One more method in the loop adds exactly that method's verdict. |
| NamingConventionRule.CheckFields | src/main/java/example/NamingConventionRule.java:33-35 | The field loop appends the verdicts of all fields in declaration order. |
| NamingConventionRule.CheckMethods | src/main/java/example/NamingConventionRule.java:37-39 | The method loop appends the verdicts of all methods in declaration order. |
| NamingConventionRule.Check | src/main/java/example/NamingConventionRule.java:22-42 | check returns the rule's specification NamingViolations: the class verdict, then the field verdicts, then the method verdicts. |
| NamingConventionRule.NamingShape | src/main/java/example/NamingConventionRule.java:22-62 | The output is a class violation exactly when the simple name is not PascalCase. It is followed by one violation per flagged field and then one per flagged method, each in order, named Class#member. |
| NamingConventionRule.NamingCountBound | src/main/java/example/NamingConventionRule.java:22-42 | At most one finding for the class plus one per field and one per method. |
| NamingConventionRule.BlocksOrdered | src/main/java/example/NamingConventionRule.java:27-39 | Class-, field- and method-level blocks joined in that order are sorted by target. A class finding is present exactly when the class block is non-empty. |
| NamingConventionRule.NamingOrder | src/main/java/example/NamingConventionRule.java:22-42 | The findings come class first, then fields, then methods. A class finding is present exactly when the simple name is not PascalCase. |
| EqualsHashCodeRule.PairingViolations | src/main/java/example/EqualsHashCodeRule.java:17-43 | At most one violation. There is one exactly when equals(Object) or hashCode() is defined without the other, among non-static methods with the exact descriptors. It is a class violation on the slash-based simple name, and its message names the missing method. |
| EqualsHashCodeRule.CollectViolations | src/main/java/example/EqualsHashCodeRule.java:17-43 | The loop over methods, skipping statics and setting the two flags, returns PairingViolations. |
| EqualsHashCodeRule.PairingIgnoresOrderAndRepetition | src/main/java/example/EqualsHashCodeRule.java:22-31 | The verdict depends only on the set of methods, not their order or repetition. |
| EqualsHashCodeRule.PairingIgnoresStaticMethods | src/main/java/example/EqualsHashCodeRule.java:23-25 | Adding static methods never changes the verdict. |
| EqualsHashCodeRule.PairingIgnoresOverloads | src/main/java/example/EqualsHashCodeRule.java:26-30 | Adding a method whose descriptor is neither equals' nor hashCode's never changes the verdict. |
| RedundantInterfaceRule.CollectAbstractMethods | src/main/java/example/RedundantInterfaceRule.java:63-72 | Returns the interface's methods carrying ACC_ABSTRACT, in order. |
| RedundantInterfaceRule.OverridesAnyMethod | src/main/java/example/RedundantInterfaceRule.java:74-86 | True exactly when some non-static class method has the name and descriptor of some interface method. |
| RedundantInterfaceRule.InterfaceStep | src/main/java/example/RedundantInterfaceRule.java:29-47 | One more interface in the loop adds exactly that interface's verdict. |
| RedundantInterfaceRule.Check | src/main/java/example/RedundantInterfaceRule.java:18-50 | check returns the verdicts of the declared interfaces in declaration order. An unreadable interface, or one without abstract methods, contributes nothing. |
| RedundantInterfaceRule.RedundantCountBound | src/main/java/example/RedundantInterfaceRule.java:29-47 | At most one finding per declared interface. |
| RedundantInterfaceRule.RedundantViolationsAreClassLevel | src/main/java/example/RedundantInterfaceRule.java:40-46 | Every finding is class-level, on the simple name, with the message naming one of the declared interfaces in dotted form. |
| RedundantInterfaceRule.InterfaceFlaggedIff | src/main/java/example/RedundantInterfaceRule.java:29-47 | An interface is reported iff it can be read, has an abstract method, and no non-static class method matches any of its abstract methods by name and descriptor. |
| RedundantInterfaceRule.SomeAbstractIff | src/main/java/example/RedundantInterfaceRule.java:35-38 | The collected abstract methods are non-empty iff the interface declares an abstract method. |
| RedundantInterfaceRule.OverridesAbstractIff | src/main/java/example/RedundantInterfaceRule.java:40 | overridesAny on the abstract methods holds iff some class method overrides some abstract method. |
| RedundantInterfaceRule.VerdictShrinks | src/main/java/example/RedundantInterfaceRule.java:29-47 | Adding methods to a class never adds a finding for a given interface. |
| RedundantInterfaceRule.VerdictsShrink | src/main/java/example/RedundantInterfaceRule.java:29-47 | Adding methods to a class never adds a finding over any list of interfaces. |
| RedundantInterfaceRule.MoreMethodsNeverAddViolations | src/main/java/example/RedundantInterfaceRule.java:18-50 | Adding methods to a class never increases the number of findings. |
| NonPublicConstructorRule.ConstructorViolationIff | src/main/java/example/NonPublicConstructorRule.java:16-29 | The output is empty iff some method is a public constructor. Otherwise it is exactly one class violation on the dotted class name with the fixed message. |
| NonPublicConstructorRule.FindConstructors | src/main/java/example/NonPublicConstructorRule.java:31-40 | Returns the methods named `<init>`, in order. |
| NonPublicConstructorRule.HasPublicConstructor | src/main/java/example/NonPublicConstructorRule.java:42-49 | True exactly when some constructor has ACC_PUBLIC. |
| NonPublicConstructorRule.Check | src/main/java/example/NonPublicConstructorRule.java:16-29 | check returns the rule's specification ConstructorViolations. |
| NonPublicConstructorRule.PublicConstructorSuffices | src/main/java/example/NonPublicConstructorRule.java:22 | Adding one public constructor always silences the rule. |
| NonPublicConstructorRule.OnlyConstructorsMatter | src/main/java/example/NonPublicConstructorRule.java:31-40 | Adding methods that are not constructors never changes the verdict. |
| LintResults.LintResult.constructor | src/main/java/example/LintResult.java:12 | A new result holds no violations. |
| LintResults.LintResult.AddAll | src/main/java/example/LintResult.java:14-18 | Appends the items in order, and a null list adds nothing. Earlier items are kept as they were. |
| LintResults.LintResult.HasErrors | src/main/java/example/LintResult.java:24-26 | True exactly when there is at least one violation. |
| RuleRegistry.LintClassStep | src/main/java/example/LintApplication.java:56-59 | Running one more rule appends exactly that rule's findings. |
| RuleRegistry.RunRule | src/main/java/example/LintApplication.java:57 | Dispatches rule.check to the rule's own check. |
| RuleRegistry.LintClassOfFour | src/main/java/example/LintApplication.java:56-59 | For a four-rule registry, the findings are the four rules' outputs concatenated in registry order. |
| RuleRegistry.DefaultLintClass | src/main/java/example/DefaultRuleRegistry.java:14-19 | With the default registry, a class's findings are naming, then pairing, then redundant interfaces, then the constructor rule. |
| RuleRegistry.DefaultLintClassBound | src/main/java/example/DefaultRuleRegistry.java:14-19 | The default rules report at most 3 + fields + methods + interfaces findings for a class. |
| RuleRegistry.DefaultRuleRegistry.constructor | src/main/java/example/DefaultRuleRegistry.java:14-19 | A new registry holds the four default rules in that order. |
| RuleRegistry.DefaultRuleRegistry.Rules | src/main/java/example/DefaultRuleRegistry.java:21-24 | The listed rules always begin with the four defaults. |
| RuleRegistry.DefaultRuleRegistry.Register | src/main/java/example/DefaultRuleRegistry.java:26-30 | Appends a rule at the end, and null is ignored. The defaults stay in front. |
| Commands.NewCommand | src/main/java/example/Command.java:15-18 | Keeps the mode, and stores a null target list as the empty list. |
| Commands.Of | src/main/java/example/Command.java:28-30 | Keeps the mode, and turns a null target array into the empty list. |
| LintCli.Parse | src/main/java/example/LintCli.java:21-36 | No arguments gives lint with no targets. "--llm" or "--advice" first gives advice on the remaining arguments, and "--uml" first gives uml on them. Anything else gives lint on all arguments, the first included. |
| LintCli.ParseRender | src/main/java/example/LintCli.java:21-36 | Every command parses back from its rendered arguments. A lint command is the exception when its first target looks like a flag. |
| PlantUml.VisibilitySymbol | src/main/java/example/PlantUmlGenerator.java:73-84 | One of + - # ~, and "+" exactly when ACC_PUBLIC is set. |
| PlantUml.VisibilityIdentifies | src/main/java/example/PlantUmlGenerator.java:73-84 | For flags with at most one visibility bit, the symbol identifies that bit. "~" means package-private. |
| PlantUml.ArgumentLabels | src/main/java/example/PlantUmlGenerator.java:88-91 | One label per argument type, the i-th reading "arg<i> : <type>". |
| PlantUml.ArgumentNamesDistinct | src/main/java/example/PlantUmlGenerator.java:90 | Different positions get different argument names. |
| PlantUml.FormatArguments | src/main/java/example/PlantUmlGenerator.java:86-93 | The loop joins the argument labels with ", ". |
| PlantUml.FormatArgumentsEmpty | src/main/java/example/PlantUmlGenerator.java:86-93 | The joined arguments are empty exactly when there are no arguments. |
| PlantUml.AppendFieldLines | src/main/java/example/PlantUmlGenerator.java:27-35 | Appends one field line per field, in order. |
| PlantUml.RenderMethod | src/main/java/example/PlantUmlGenerator.java:38-50 | Renders one method line. Methods whose name starts with "<" give nothing. |
| PlantUml.AppendMethodLines | src/main/java/example/PlantUmlGenerator.java:37-51 | Appends the method lines of all methods, in order. |
| PlantUml.AppendRealizations | src/main/java/example/PlantUmlGenerator.java:62-67 | Appends one realization edge per interface, in order. |
| PlantUml.GenerateClassDiagram | src/main/java/example/PlantUmlGenerator.java:20-71 | The builder's text equals the specification Diagram. |
| PlantUml.DiagramFrame | src/main/java/example/PlantUmlGenerator.java:22-69 | A diagram opens with "@startuml", then "class <simple name> {", and ends with "@enduml". |
| PlantUml.SpecialMethodsOmitted | src/main/java/example/PlantUmlGenerator.java:37-40 | Dropping the methods whose names start with "<" does not change the diagram. |
| PlantUml.PiecesSingleLine | src/main/java/example/PlantUmlGenerator.java:24-69 | No fixed piece of the diagram, and no visibility symbol, holds a line break. |
| PlantUml.ArgumentsSingleLine | src/main/java/example/PlantUmlGenerator.java:86-93 | The argument list holds no line break when the rendered types hold none. |
| PlantUml.HeaderLines | src/main/java/example/PlantUmlGenerator.java:24-25 | The header is exactly two lines. |
| PlantUml.FieldLinesCount | src/main/java/example/PlantUmlGenerator.java:27-35 | Exactly one line per field. |
| PlantUml.MethodLineCount | src/main/java/example/PlantUmlGenerator.java:37-51 | One line for a drawn method, none for a method whose name starts with "<". |
| PlantUml.MethodLinesCount | src/main/java/example/PlantUmlGenerator.java:37-51 | Exactly one line per method whose name does not start with "<". |
| PlantUml.EdgeLines | src/main/java/example/PlantUmlGenerator.java:55-60 | An inheritance edge line exactly when there is a superclass other than java/lang/Object. |
| PlantUml.RealizationLinesCount | src/main/java/example/PlantUmlGenerator.java:62-67 | Exactly one edge line per interface. |
| PlantUml.SectionsCount | src/main/java/example/PlantUmlGenerator.java:20-71 | The line count of the diagram is the sum over its seven sections. |
| PlantUml.SectionLines | src/main/java/example/PlantUmlGenerator.java:20-71 | The line count of each section. |
| PlantUml.DiagramLineCount | src/main/java/example/PlantUmlGenerator.java:20-71 | The diagram has 3 + fields + drawn methods + (1 if it has a non-Object superclass) + interfaces line breaks. |
| DesignAdvisor.ReplaceWithAppend | src/main/java/example/LLMDesignAdvisor.java:66-68 | String.replace of a single character distributes over concatenation. |
| DesignAdvisor.ReplaceWithSingle | src/main/java/example/LLMDesignAdvisor.java:66-68 | Replacing within a single character. |
| DesignAdvisor.EscapeOneChar | src/main/java/example/LLMDesignAdvisor.java:66-68 | The three chained replaces escape one character as EscapeChar does. |
| DesignAdvisor.EscapeJsonPerChar | src/main/java/example/LLMDesignAdvisor.java:66-68 | escapeJson is character by character. It maps backslash, quote and newline to their two-character escapes and keeps the rest. |
| DesignAdvisor.EscapeJsonAppend | src/main/java/example/LLMDesignAdvisor.java:66-68 | escapeJson distributes over concatenation. |
| DesignAdvisor.EscapeJsonPlain | src/main/java/example/LLMDesignAdvisor.java:66-68 | Text without backslash, quote or newline is unchanged. |
| DesignAdvisor.PlainCharsKept | src/main/java/example/LLMDesignAdvisor.java:66-68 | Character by character, plain text maps to itself. |
| DesignAdvisor.EscapeJsonSingleLine | src/main/java/example/LLMDesignAdvisor.java:66-68 | The escaped text holds no newline. |
| DesignAdvisor.DecodeFromSlice | src/main/java/example/LLMDesignAdvisor.java:119-156 | Reading from an index equals reading the suffix at that index. |
| DesignAdvisor.DecodeEscape | src/main/java/example/LLMDesignAdvisor.java:124-145 | Decodes the escapes n, r, t, quote, backslash and slash, and keeps any other escape as a backslash plus the character. |
| DesignAdvisor.ReadJsonString | src/main/java/example/LLMDesignAdvisor.java:119-156 | The loop returns the decoded text up to the first unescaped quote, or to the end of the body. |
| DesignAdvisor.DecodeEscaped | src/main/java/example/LLMDesignAdvisor.java:66-156 | Round trip: reading back an escaped text followed by a quote gives the text, whatever follows. |
| DesignAdvisor.DecodeEscapedChars | src/main/java/example/LLMDesignAdvisor.java:119-156 | The same round trip, character by character. |
| DesignAdvisor.ValueAfter | src/main/java/example/LLMDesignAdvisor.java:109-116 | Skips whitespace: it gives the index after an opening quote preceded only by whitespace, and -1 when the first non-whitespace character is not a quote or there is none. |
| DesignAdvisor.StringValueStart | src/main/java/example/LLMDesignAdvisor.java:100-117 | Gives -1 or a position just after a quote. That position lies after the first occurrence of the key. |
| DesignAdvisor.FindStringValueStart | src/main/java/example/LLMDesignAdvisor.java:100-117 | The scanning loop computes StringValueStart. |
| DesignAdvisor.StringValueOf | src/main/java/example/LLMDesignAdvisor.java:89-98 | A value is found exactly when the value start is found. |
| DesignAdvisor.ExtractStringContent | src/main/java/example/LLMDesignAdvisor.java:89-92 | Reads the string value of the first "content" key, or null. |
| DesignAdvisor.ExtractArrayContent | src/main/java/example/LLMDesignAdvisor.java:94-98 | Reads the string value of the first "text" key, or null. |
| DesignAdvisor.ExtractContentFromResponse | src/main/java/example/LLMDesignAdvisor.java:74-87 | The trimmed "content" value if there is one, else the trimmed "text" value, else the raw body. |
| DesignAdvisor.ResponseFallback | src/main/java/example/LLMDesignAdvisor.java:85-86 | A body without either key is returned unchanged. |
| DesignAdvisor.IndexOfAt | src/main/java/example/LLMDesignAdvisor.java:101 | indexOf finds the first occurrence. |
| DesignAdvisor.ContentValueAt | src/main/java/example/LLMDesignAdvisor.java:90-117 | In a body whose first quote opens `"content":"`, the value starts right after it. |
| DesignAdvisor.ResponseRoundTrip | src/main/java/example/LLMDesignAdvisor.java:66-92 | An answer escaped into a `"content"` field is read back as the trimmed answer. |
| DesignAdvisor.BuildRequestBody | src/main/java/example/LLMDesignAdvisor.java:50-64 | The request starts with the model and the system message, and then opens the user message's content. |
| DesignAdvisor.DecodePlain | src/main/java/example/LLMDesignAdvisor.java:146-153 | Plain text is copied through unchanged. |
| DesignAdvisor.InstructionPlain | src/main/java/example/LLMDesignAdvisor.java:58 | The fixed instruction needs no escaping. |
| DesignAdvisor.RequestTailDecodes | src/main/java/example/LLMDesignAdvisor.java:58-62 | The user content decodes to the instruction, a newline and the summary. |
| DesignAdvisor.RequestCarriesSummary | src/main/java/example/LLMDesignAdvisor.java:50-68 | Read back as a JSON string, the request's user content is the instruction, a newline and the design summary, exactly. |
| Batches.CollectedStep | src/main/java/example/LintApplication.java:51-88 | A successful target appends its output to what was collected. |
| Batches.BatchSucceeds | src/main/java/example/LintApplication.java:51-88 | While every target succeeds, the loop has collected their outputs in order. |
| Batches.BatchStaysFailed | src/main/java/example/LintApplication.java:51-88 | Once a target fails, the later targets are never processed. |
| Batches.BatchFails | src/main/java/example/LintApplication.java:51-88 | The first failing target ends the run: its name is reported, with the outputs of the targets before it. |
| Batches.BatchCompletes | src/main/java/example/LintApplication.java:51-88 | When every target succeeds, all outputs are produced and nothing fails. |
| Batches.FirstFailure | src/main/java/example/LintApplication.java:51-88 | When some target fails, there is a first one. |
| Batches.SingleCollected | src/main/java/example/LintApplication.java:51-63 | With one output per target, the k-th output belongs to the k-th target. |
| Batches.SeparatedCollected | src/main/java/example/LintApplication.java:65-88 | The outputs interleave with blank lines: output i sits at 2i, and a blank follows every output but the last. |
| Batches.SingleBatch | src/main/java/example/LintApplication.java:51-63 | The outputs match the targets one to one up to the first failure, and the run fails iff some target fails. |
| Application.Reporter.constructor | src/main/java/example/Reporter.java:6-9 | A new reporter has received nothing. |
| Application.Reporter.ReportAll | src/main/java/example/Reporter.java:8 | Records the reports in call order, each pairing a class name with its findings. |
| Application.Console.constructor | src/main/java/example/LintApplication.java:70 | A new console has printed nothing. |
| Application.Console.PrintLines | src/main/java/example/LintApplication.java:70-72 | Records printed lines in order. |
| Application.Dispatch | src/main/java/example/LintApplication.java:32-49 | No runner for a null command or mode. UML mode runs UML, ADVICE mode runs advice, and LINT runs lint. |
| Application.UmlStepAt | src/main/java/example/LintApplication.java:65-75 | One UML step prints the diagram, followed by a blank line unless it is the last target. A read failure stops the run. |
| Application.AdviceStepAt | src/main/java/example/LintApplication.java:77-88 | One advice step prints the advisor's answer on the summary, followed by a blank line unless it is the last target. A failure of either stops the run. |
| Application.CheckClass | src/main/java/example/LintApplication.java:54-59 | A fresh LintResult holding every registered rule's findings, in registry order. |
| Application.LintReportsPerTarget | src/main/java/example/LintApplication.java:51-63 | There is one report per target, in order, holding that class's findings. The run stops at the first unreadable target and names it. |
| Application.UmlOutputShape | src/main/java/example/LintApplication.java:65-75 | With all targets readable, the diagrams are printed in order with one blank line between consecutive ones. |
| Application.FormatArgTypes | src/main/java/example/LintApplication.java:144-151 | The types joined with ", ", and "" for none. |
| Application.AppendFieldEntries | src/main/java/example/LintApplication.java:119-122 | Appends one "  - name : type" line per field. |
| Application.AppendMethodEntries | src/main/java/example/LintApplication.java:132-137 | Appends one "  - name(args) : return" line per method. |
| Application.BuildDesignSummary | src/main/java/example/LintApplication.java:97-142 | The builder's text equals the specification DesignSummary. |
| Application.SummaryDefaults | src/main/java/example/LintApplication.java:97-142 | A bare class is described with java.lang.Object and "None" for interfaces, fields and methods. |
| Application.SummaryOmitsSpecialMethods | src/main/java/example/LintApplication.java:125-130 | Methods whose names start with "<" do not affect the summary. |
| Application.LintApplication.constructor | src/main/java/example/LintApplication.java:24-30 | Stores its collaborators. |
| Application.LintApplication.LintTarget | src/main/java/example/LintApplication.java:52-60 | Reads one class and lints it with every rule, or fails when reading fails. |
| Application.LintApplication.RunLint | src/main/java/example/LintApplication.java:51-63 | The lint loop computes the batch of per-class reports, stopping at the first unreadable class. |
| Application.LintApplication.UmlTarget | src/main/java/example/LintApplication.java:66-72 | One UML iteration. |
| Application.LintApplication.RunUml | src/main/java/example/LintApplication.java:65-75 | The UML loop computes the diagrams with blank separators, stopping at the first unreadable class. |
| Application.LintApplication.AdviceTarget | src/main/java/example/LintApplication.java:78-85 | One advice iteration. |
| Application.LintApplication.RunAdvice | src/main/java/example/LintApplication.java:77-88 | The advice loop computes the answers with blank separators, stopping at the first failure. |
| Application.LintApplication.Run | src/main/java/example/LintApplication.java:32-49 | A null command or mode does nothing. Otherwise the chosen mode's outputs go to the reporter (lint) or the console (uml, advice), the other sink is untouched, and the first failing target is returned. |
| Fixtures.TestBadSimpleName | src/main/java/example/TestBadClass.java:3 | Both simple-name functions give "TestBadClass" for example/TestBadClass. |
| Fixtures.RejectedNames | src/main/java/example/TestBadClass.java:5-16 | BadFieldName, another_bad_field, BadMethod and do_Weird are not camel case. |
| Fixtures.CamelNamesOfTestBad | src/main/java/example/TestBadClass.java:8-23 | goodField, normalMethod and equals are camel case. |
| Fixtures.CamelNamesOfGood | src/main/java/example/GoodClass.java:7-40 | count, doWork, getCount, run and hashCode are camel case. |
| Fixtures.ClassNamesPascal | src/main/java/example/GoodClass.java:5 | TestBadClass and GoodClass are PascalCase. |
| Fixtures.ConstantNameAccepted | src/main/java/example/GoodClass.java:8 | DEFAULT_NAME is a constant and is in upper snake case. |
| Fixtures.TestBadFieldFindings | src/main/java/example/TestBadClass.java:5-8 | The two bad fields are reported with the field message, in order. goodField is not reported. |
| Fixtures.TestBadMethodVerdicts | src/main/java/example/TestBadClass.java:10-25 | BadMethod and do_Weird are flagged. The constructor, normalMethod and equals are not. |
| Fixtures.TestBadMethodFindings | src/main/java/example/TestBadClass.java:10-25 | Exactly the two bad methods are reported, in order. |
| Fixtures.TestBadNaming | src/main/java/example/TestBadClass.java:3-25 | The naming rule reports the two fields and the two methods, and not the class. |
| Fixtures.TestBadPairing | src/main/java/example/TestBadClass.java:22-26 | equals without hashCode is reported once, naming the missing hashCode. |
| Fixtures.RunnableVerdict | src/main/java/example/TestBadClass.java:3 | Runnable is reported, since run() is not declared. |
| Fixtures.ComparableVerdict | src/main/java/example/TestBadClass.java:3 | Comparable is reported, since compareTo(Object) is not declared. |
| Fixtures.TestBadRedundant | src/main/java/example/TestBadClass.java:3 | Both interfaces are reported, in declaration order. |
| Fixtures.TestBadConstructor | src/main/java/example/TestBadClass.java:3 | The implicit public constructor satisfies the constructor rule. |
| Fixtures.TestBadFindings | src/main/java/example/TestBadClass.java:3-27 | The default registry reports seven findings for TestBadClass. |
| Fixtures.GoodFieldsClean | src/main/java/example/GoodClass.java:7-8 | No field of GoodClass is reported. |
| Fixtures.GoodMethodsClean | src/main/java/example/GoodClass.java:10-40 | No method of GoodClass is reported. |
| Fixtures.GoodNaming | src/main/java/example/GoodClass.java:5-41 | The naming rule reports nothing for GoodClass. |
| Fixtures.GoodClassClean | src/main/java/example/GoodClass.java:5-41 | The default registry reports nothing for GoodClass. |
| Fixtures.NestedClassNames | src/main/java/example/NamingConventionRule.java:68-76 | The naming rule judges a nested class by the part after '$'. The other rules keep Outer$Inner. |

## Left out

- Reading class files (ASM's ClassReader, its flags, and the ClassNode tree) is not modelled. A
  class is the `ClassModel` value, and reading is an injected `Reader` whose `None` is the
  IOException.
- Interface loading in RedundantInterfaceRule is the injected `Resolver`. Which interfaces are
  found on the class path is not modelled.
- ASM's `Type` rendering (getType, getArgumentTypes, getReturnType, getClassName on
  descriptors) is the uninterpreted `TypeRenderer`. `Type.getObjectType(name).getClassName()` on
  a class name is modelled as '/' replaced by '.', which is its result for non-array names.
- Structure.QualifiedName: array descriptors are not modelled. ASM renders them as `T[]`.
- The advisor's HTTP call and its inputs are not modelled: the API key from the environment,
  the URL, the status code handling, and the exceptions it throws. The call is the injected
  `Advisor`, whose `None` stands for any of those exceptions. The request-body builder, JSON
  escaping and response extraction are modelled.
- Console output and the reporter are sequences of records. The runners return their outputs
  as values, and `Run` delivers them to the reporter or console in one step. When a run fails
  midway, the model has the same outputs before the failure, but it does not model the
  interleaving in time.
- A null class name is not modelled. An empty one is covered.
- A null field, method or interface list is treated as empty, which is what the rules do for
  interfaces.
- MyFirstLinter, ConsoleReporter's formatting and LintCli.main's wiring are not part of this
  model.
- Only the four rule kinds can be registered. User-defined LintRule implementations are not
  modelled.
- An exception thrown for one class ends the whole batch, which is what the code does. A
  per-class isolation of failures is not what the code implements, so it is not modelled.
- The `default` branch of the mode switch in LintApplication.run cannot be reached once the mode
  is non-null, and is merged with LINT.
- Class access flags (abstract, interface) are not part of `ClassModel`, since no core rule reads
  them.
- DesignAdvisor.BuildRequestBody: its own contract only fixes the request's opening. The full
  content is stated by RequestCarriesSummary, and the closing `],"temperature":0.2}` is given by
  the function's text.
