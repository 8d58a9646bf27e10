/** PlantUmlGenerator: a PlantUML class diagram of one class, with its fields,
    its ordinary methods, its superclass edge and one realisation edge per interface. */
module PlantUml {
  import opened Wrappers
  import opened Seqs
  import opened Text
  import opened Structure
  import opened CountLines

  const OBJECT_CLASS := "java/lang/Object"

  /** UML visibility: public wins over private, private over protected; package otherwise. */
  function VisibilitySymbol(access: Access): (r: string)
    ensures |r| == 1 && r[0] in {'+', '-', '#', '~'}
    ensures r == "+" <==> HasFlag(access, ACC_PUBLIC)
  {
    if HasFlag(access, ACC_PUBLIC) then "+"
    else if HasFlag(access, ACC_PRIVATE) then "-"
    else if HasFlag(access, ACC_PROTECTED) then "#"
    else "~"
  }

  /** The JVM Specification (sections 4.5 and 4.6) allows at most one of
      ACC_PUBLIC, ACC_PRIVATE and ACC_PROTECTED on a field or method. */
  predicate WellFormedVisibility(access: Access)
  {
    (if HasFlag(access, ACC_PUBLIC) then 1 else 0)
    + (if HasFlag(access, ACC_PRIVATE) then 1 else 0)
    + (if HasFlag(access, ACC_PROTECTED) then 1 else 0) <= 1
  }

  /** On well-formed flags each symbol names exactly one visibility. */
  lemma VisibilityIdentifies(access: Access)
    requires WellFormedVisibility(access)
    ensures VisibilitySymbol(access) == "-" <==> HasFlag(access, ACC_PRIVATE)
    ensures VisibilitySymbol(access) == "#" <==> HasFlag(access, ACC_PROTECTED)
    ensures VisibilitySymbol(access) == "~"
      <==> !HasFlag(access, ACC_PUBLIC) && !HasFlag(access, ACC_PRIVATE) && !HasFlag(access, ACC_PROTECTED)
  {
  }

  /** The name given to the i-th parameter (counting from 0). */
  function ArgumentName(i: nat): string
  {
    "arg" + NatToString(i)
  }

  function ArgumentLabel(i: nat, typeName: string): string
  {
    ArgumentName(i) + " : " + typeName
  }

  /** The label of every parameter, in order. */
  function ArgumentLabels(argTypes: seq<string>): (r: seq<string>)
    ensures |r| == |argTypes|
    ensures forall i :: 0 <= i < |r| ==> r[i] == ArgumentLabel(i, argTypes[i])
  {
    seq(|argTypes|, i requires 0 <= i < |argTypes| => ArgumentLabel(i, argTypes[i]))
  }

  /** Parameters get distinct names. */
  lemma ArgumentNamesDistinct(i: nat, j: nat)
    requires i != j
    ensures ArgumentName(i) != ArgumentName(j)
  {
    if ArgumentName(i) == ArgumentName(j) {
      assert NatToString(i) == ArgumentName(i)[3..];
      assert NatToString(j) == ArgumentName(j)[3..];
      NatToStringRoundTrip(i);
      NatToStringRoundTrip(j);
    }
  }

  /** formatArguments: the labels "argI : T" joined with ", ". */
  method FormatArguments(argTypes: seq<string>) returns (r: string)
    ensures r == Join(ArgumentLabels(argTypes), ", ")
  {
    var args: seq<string> := [];
    for i := 0 to |argTypes|
      invariant |args| == i
      invariant forall k :: 0 <= k < i ==> args[k] == ArgumentLabel(k, argTypes[k])
    {
      args := args + [ArgumentLabel(i, argTypes[i])];
    }
    assert args == ArgumentLabels(argTypes);
    r := Join(args, ", ");
  }

  /** An empty parameter list, and only that, renders as "". */
  lemma FormatArgumentsEmpty(argTypes: seq<string>)
    ensures Join(ArgumentLabels(argTypes), ", ") == [] <==> argTypes == []
  {
    var labels := ArgumentLabels(argTypes);
    forall i | 0 <= i < |labels|
      ensures labels[i] != []
    {
      assert labels[i][0] == 'a';
    }
    JoinEmpty(labels, ", ");
  }

  /** Methods whose name starts with '<' (<init>, <clinit>) are not drawn. */
  predicate IsSpecialMethod(m: Method)
  {
    StartsWith(m.name, "<")
  }

  /** A method that gets a line of its own in the diagram. */
  predicate IsDrawnMethod(m: Method)
  {
    !IsSpecialMethod(m)
  }

  function FieldLine(render: TypeRenderer, f: Field): string
  {
    "  " + VisibilitySymbol(f.access) + f.name + " : " + render.typeName(f.desc) + "\n"
  }

  function MethodLine(render: TypeRenderer, m: Method): string
  {
    if IsSpecialMethod(m) then ""
    else
      "  " + VisibilitySymbol(m.access) + m.name
      + "(" + Join(ArgumentLabels(render.argumentTypes(m.desc)), ", ") + ") : "
      + render.returnType(m.desc) + "\n"
  }

  /** The generalisation edge, drawn unless the superclass is absent or java/lang/Object. */
  function InheritanceLine(simpleName: string, superName: Option<string>): string
  {
    if superName.Some? && superName.value != OBJECT_CLASS
    then simpleName + " --|> " + SimpleClassName(superName.value) + "\n"
    else ""
  }

  function RealizationLine(simpleName: string, iface: string): string
  {
    simpleName + " ..|> " + SimpleClassName(iface) + "\n"
  }

  function FieldLiner(render: TypeRenderer): Field -> string
  {
    f => FieldLine(render, f)
  }

  function MethodLiner(render: TypeRenderer): Method -> string
  {
    m => MethodLine(render, m)
  }

  function RealizationLiner(simpleName: string): string -> string
  {
    iface => RealizationLine(simpleName, iface)
  }

  function Header(c: ClassModel): string
  {
    "@startuml\n" + "class " + SimpleClassName(c.name) + " {\n"
  }

  /** The diagram text generateClassDiagram produces. */
  function Diagram(c: ClassModel, render: TypeRenderer): string
  {
    var simpleName := SimpleClassName(c.name);
    Header(c)
    + FlatMap(c.fields, FieldLiner(render))
    + FlatMap(c.methods, MethodLiner(render))
    + "}\n"
    + InheritanceLine(simpleName, c.superName)
    + FlatMap(c.interfaces, RealizationLiner(simpleName))
    + "@enduml"
  }

  /** The field loop of generateClassDiagram. */
  method AppendFieldLines(buffer: string, fields: seq<Field>, render: TypeRenderer) returns (r: string)
    ensures r == buffer + FlatMap(fields, FieldLiner(render))
  {
    r := buffer;
    for i := 0 to |fields|
      invariant r == buffer + FlatMap(fields[..i], FieldLiner(render))
    {
      var f := fields[i];
      FlatMapPrefixStep(fields, i, FieldLiner(render));
      var line := "  " + VisibilitySymbol(f.access) + f.name + " : " + render.typeName(f.desc) + "\n";
      AppendAssoc(buffer, FlatMap(fields[..i], FieldLiner(render)), line);
      r := r + line;
    }
    assert fields[..|fields|] == fields;
  }

  /** The text one method contributes: nothing for names starting with '<'. */
  method RenderMethod(m: Method, render: TypeRenderer) returns (line: string)
    ensures line == MethodLine(render, m)
  {
    line := "";
    if !StartsWith(m.name, "<") {
      var args := FormatArguments(render.argumentTypes(m.desc));
      var returnType := render.returnType(m.desc);
      line := "  " + VisibilitySymbol(m.access) + m.name + "(" + args + ") : " + returnType + "\n";
    }
  }

  /** The method loop of generateClassDiagram. */
  method AppendMethodLines(buffer: string, methods: seq<Method>, render: TypeRenderer) returns (r: string)
    ensures r == buffer + FlatMap(methods, MethodLiner(render))
  {
    r := buffer;
    for i := 0 to |methods|
      invariant r == buffer + FlatMap(methods[..i], MethodLiner(render))
    {
      FlatMapPrefixStep(methods, i, MethodLiner(render));
      var line := RenderMethod(methods[i], render);
      AppendAssoc(buffer, FlatMap(methods[..i], MethodLiner(render)), line);
      r := r + line;
    }
    assert methods[..|methods|] == methods;
  }

  /** The interface loop of generateClassDiagram. */
  method AppendRealizations(buffer: string, simpleName: string, interfaces: seq<string>) returns (r: string)
    ensures r == buffer + FlatMap(interfaces, RealizationLiner(simpleName))
  {
    r := buffer;
    for i := 0 to |interfaces|
      invariant r == buffer + FlatMap(interfaces[..i], RealizationLiner(simpleName))
    {
      FlatMapPrefixStep(interfaces, i, RealizationLiner(simpleName));
      var line := simpleName + " ..|> " + SimpleClassName(interfaces[i]) + "\n";
      AppendAssoc(buffer, FlatMap(interfaces[..i], RealizationLiner(simpleName)), line);
      r := r + line;
    }
    assert interfaces[..|interfaces|] == interfaces;
  }

  /** generateClassDiagram, appending to a buffer section by section. */
  method GenerateClassDiagram(c: ClassModel, render: TypeRenderer) returns (r: string)
    ensures r == Diagram(c, render)
  {
    var simpleName := SimpleClassName(c.name);
    r := "@startuml\n";
    r := r + "class " + simpleName + " {\n";
    assert r == Header(c);
    r := AppendFieldLines(r, c.fields, render);
    r := AppendMethodLines(r, c.methods, render);
    r := r + "}\n";
    ghost var closed := r;
    if c.superName.Some? && c.superName.value != OBJECT_CLASS {
      var edge := simpleName + " --|> " + SimpleClassName(c.superName.value) + "\n";
      r := r + edge;
    } else {
      assert r == closed + "";
    }
    assert r == closed + InheritanceLine(simpleName, c.superName);
    r := AppendRealizations(r, simpleName, c.interfaces);
    r := r + "@enduml";
  }

  /** The diagram opens with the class header and closes with "@enduml". */
  lemma DiagramFrame(c: ClassModel, render: TypeRenderer)
    ensures StartsWith(Diagram(c, render), "@startuml\nclass " + SimpleClassName(c.name) + " {\n")
    ensures |Diagram(c, render)| >= 7
    ensures Diagram(c, render)[|Diagram(c, render)| - 7..] == "@enduml"
  {
    var simpleName := SimpleClassName(c.name);
    var header := Header(c);
    assert header == "@startuml\nclass " + simpleName + " {\n";
    assert StartsWith(header, header);
    var withFields := header + FlatMap(c.fields, FieldLiner(render));
    StartsWithAppend(header, FlatMap(c.fields, FieldLiner(render)), header);
    var withMethods := withFields + FlatMap(c.methods, MethodLiner(render));
    StartsWithAppend(withFields, FlatMap(c.methods, MethodLiner(render)), header);
    var closed := withMethods + "}\n";
    StartsWithAppend(withMethods, "}\n", header);
    var withSuper := closed + InheritanceLine(simpleName, c.superName);
    StartsWithAppend(closed, InheritanceLine(simpleName, c.superName), header);
    var body := withSuper + FlatMap(c.interfaces, RealizationLiner(simpleName));
    StartsWithAppend(withSuper, FlatMap(c.interfaces, RealizationLiner(simpleName)), header);
    StartsWithAppend(body, "@enduml", header);
    var d := body + "@enduml";
    assert d == Diagram(c, render);
    assert d[|d| - 7..] == "@enduml";
  }

  /** Constructors and static initialisers contribute nothing. */
  lemma SpecialMethodsOmitted(c: ClassModel, render: TypeRenderer)
    ensures Diagram(c.(methods := Filter(c.methods, IsDrawnMethod)), render) == Diagram(c, render)
  {
    FlatMapDropSilent(c.methods, MethodLiner(render), IsDrawnMethod);
  }

  /** Every name and rendered type the diagram prints fits on one line. */
  predicate SingleLineNames(c: ClassModel, render: TypeRenderer)
  {
    && NoNewline(SimpleClassName(c.name))
    && (forall f :: f in c.fields ==> NoNewline(f.name) && NoNewline(render.typeName(f.desc)))
    && (forall m :: m in c.methods ==> NoNewline(m.name) && NoNewline(render.returnType(m.desc)))
    && (forall m, t :: m in c.methods && t in render.argumentTypes(m.desc) ==> NoNewline(t))
    && (c.superName.Some? ==> NoNewline(SimpleClassName(c.superName.value)))
    && (forall iface :: iface in c.interfaces ==> NoNewline(SimpleClassName(iface)))
  }

  /** The fixed pieces of text the generator prints contain no newline. */
  lemma PiecesSingleLine(access: Access)
    ensures NoNewline(VisibilitySymbol(access))
    ensures NoNewline("@startuml") && NoNewline("class ") && NoNewline(" {") && NoNewline("}")
    ensures NoNewline("  ") && NoNewline(" : ") && NoNewline("(") && NoNewline(") : ") && NoNewline(", ")
    ensures NoNewline(" --|> ") && NoNewline(" ..|> ") && NoNewline("@enduml")
  {
    NoNewlineChars(VisibilitySymbol(access));
    NoNewlineChars("@startuml");
    NoNewlineChars("class ");
    NoNewlineChars(" {");
    NoNewlineChars("}");
    NoNewlineChars("  ");
    NoNewlineChars(" : ");
    NoNewlineChars("(");
    NoNewlineChars(") : ");
    NoNewlineChars(", ");
    NoNewlineChars(" --|> ");
    NoNewlineChars(" ..|> ");
    NoNewlineChars("@enduml");
  }

  lemma ArgumentsSingleLine(argTypes: seq<string>)
    requires forall t :: t in argTypes ==> NoNewline(t)
    ensures NoNewline(Join(ArgumentLabels(argTypes), ", "))
  {
    var labels := ArgumentLabels(argTypes);
    forall i | 0 <= i < |labels|
      ensures NoNewline(labels[i])
    {
      assert argTypes[i] in argTypes;
      var name := ArgumentName(i) + " : ";
      assert forall k :: 0 <= k < |NatToString(i)| ==> IsAsciiDigit(NatToString(i)[k]);
      assert forall k :: 3 <= k < 3 + |NatToString(i)| ==> name[k] == NatToString(i)[k - 3];
      NoNewlineChars(name);
      NoNewlineConcat(name, argTypes[i]);
    }
    PiecesSingleLine(0);
    JoinNoNewline(labels, ", ");
  }

  lemma HeaderLines(c: ClassModel)
    requires NoNewline(SimpleClassName(c.name))
    ensures Count(Header(c), '\n') == 2
  {
    var simpleName := SimpleClassName(c.name);
    assert Header(c) == ("@startuml" + "\n") + ("class " + simpleName + " {" + "\n");
    PiecesSingleLine(0);
    NoNewlineConcat("class ", simpleName);
    NoNewlineConcat("class " + simpleName, " {");
    OneLine("@startuml");
    OneLine("class " + simpleName + " {");
    CountAppend("@startuml" + "\n", "class " + simpleName + " {" + "\n", '\n');
  }

  lemma FieldLinesCount(fields: seq<Field>, render: TypeRenderer)
    requires forall f :: f in fields ==> NoNewline(f.name) && NoNewline(render.typeName(f.desc))
    ensures Count(FlatMap(fields, FieldLiner(render)), '\n') == |fields|
  {
    forall f | f in fields
      ensures Count(FieldLiner(render)(f), '\n') == 1
    {
      var prefix := "  " + VisibilitySymbol(f.access);
      PiecesSingleLine(f.access);
      NoNewlineConcat("  ", VisibilitySymbol(f.access));
      NoNewlineConcat(prefix, f.name);
      NoNewlineConcat(prefix + f.name, " : ");
      NoNewlineConcat(prefix + f.name + " : ", render.typeName(f.desc));
      OneLine(prefix + f.name + " : " + render.typeName(f.desc));
    }
    CountFlatMap(fields, FieldLiner(render), (x: Field) => true);
    FilterAll(fields, (x: Field) => true);
  }

  lemma MethodLineCount(m: Method, render: TypeRenderer)
    requires NoNewline(m.name) && NoNewline(render.returnType(m.desc))
    requires forall t :: t in render.argumentTypes(m.desc) ==> NoNewline(t)
    ensures Count(MethodLine(render, m), '\n') == if IsSpecialMethod(m) then 0 else 1
  {
    if !IsSpecialMethod(m) {
      var args := Join(ArgumentLabels(render.argumentTypes(m.desc)), ", ");
      ArgumentsSingleLine(render.argumentTypes(m.desc));
      var prefix := "  " + VisibilitySymbol(m.access) + m.name;
      PiecesSingleLine(m.access);
      NoNewlineConcat("  ", VisibilitySymbol(m.access));
      NoNewlineConcat("  " + VisibilitySymbol(m.access), m.name);
      NoNewlineConcat(prefix, "(");
      NoNewlineConcat(prefix + "(", args);
      NoNewlineConcat(prefix + "(" + args, ") : ");
      NoNewlineConcat(prefix + "(" + args + ") : ", render.returnType(m.desc));
      OneLine(prefix + "(" + args + ") : " + render.returnType(m.desc));
    }
  }

  lemma MethodLinesCount(methods: seq<Method>, render: TypeRenderer)
    requires forall m :: m in methods ==> NoNewline(m.name) && NoNewline(render.returnType(m.desc))
    requires forall m, t :: m in methods && t in render.argumentTypes(m.desc) ==> NoNewline(t)
    ensures Count(FlatMap(methods, MethodLiner(render)), '\n') == |Filter(methods, IsDrawnMethod)|
  {
    forall m | m in methods
      ensures Count(MethodLiner(render)(m), '\n') == if !IsSpecialMethod(m) then 1 else 0
    {
      MethodLineCount(m, render);
    }
    CountFlatMap(methods, MethodLiner(render), IsDrawnMethod);
  }

  lemma EdgeLines(simpleName: string, superName: Option<string>)
    requires NoNewline(simpleName)
    requires superName.Some? ==> NoNewline(SimpleClassName(superName.value))
    ensures Count(InheritanceLine(simpleName, superName), '\n')
      == if superName.Some? && superName.value != OBJECT_CLASS then 1 else 0
  {
    if superName.Some? && superName.value != OBJECT_CLASS {
      PiecesSingleLine(0);
      NoNewlineConcat(simpleName, " --|> ");
      NoNewlineConcat(simpleName + " --|> ", SimpleClassName(superName.value));
      OneLine(simpleName + " --|> " + SimpleClassName(superName.value));
    }
  }

  lemma RealizationLinesCount(simpleName: string, interfaces: seq<string>)
    requires NoNewline(simpleName)
    requires forall iface :: iface in interfaces ==> NoNewline(SimpleClassName(iface))
    ensures Count(FlatMap(interfaces, RealizationLiner(simpleName)), '\n') == |interfaces|
  {
    forall iface | iface in interfaces
      ensures Count(RealizationLiner(simpleName)(iface), '\n') == 1
    {
      PiecesSingleLine(0);
      NoNewlineConcat(simpleName, " ..|> ");
      NoNewlineConcat(simpleName + " ..|> ", SimpleClassName(iface));
      OneLine(simpleName + " ..|> " + SimpleClassName(iface));
    }
    CountFlatMap(interfaces, RealizationLiner(simpleName), (x: string) => true);
    FilterAll(interfaces, (x: string) => true);
  }

  /** Line breaks of the seven sections of a diagram add up. */
  lemma SectionsCount(a: string, b: string, c: string, d: string, e: string, f: string, g: string)
    ensures Count(a + b + c + d + e + f + g, '\n')
      == Count(a, '\n') + Count(b, '\n') + Count(c, '\n') + Count(d, '\n')
         + Count(e, '\n') + Count(f, '\n') + Count(g, '\n')
  {
    CountAppend(a, b, '\n');
    CountAppend(a + b, c, '\n');
    CountAppend(a + b + c, d, '\n');
    CountAppend(a + b + c + d, e, '\n');
    CountAppend(a + b + c + d + e, f, '\n');
    CountAppend(a + b + c + d + e + f, g, '\n');
  }

  /** The line breaks of each section of the diagram, one section at a time. */
  lemma SectionLines(c: ClassModel, render: TypeRenderer)
    requires SingleLineNames(c, render)
    ensures Count(Header(c), '\n') == 2
    ensures Count(FlatMap(c.fields, FieldLiner(render)), '\n') == |c.fields|
    ensures Count(FlatMap(c.methods, MethodLiner(render)), '\n') == |Filter(c.methods, IsDrawnMethod)|
    ensures Count("}\n", '\n') == 1
    ensures Count(InheritanceLine(SimpleClassName(c.name), c.superName), '\n')
      == if c.superName.Some? && c.superName.value != OBJECT_CLASS then 1 else 0
    ensures Count(FlatMap(c.interfaces, RealizationLiner(SimpleClassName(c.name))), '\n') == |c.interfaces|
    ensures Count("@enduml", '\n') == 0
  {
    HeaderLines(c);
    FieldLinesCount(c.fields, render);
    MethodLinesCount(c.methods, render);
    PiecesSingleLine(0);
    OneLine("}");
    EdgeLines(SimpleClassName(c.name), c.superName);
    RealizationLinesCount(SimpleClassName(c.name), c.interfaces);
  }

  /** Line structure: the two header lines, one line per field, one per ordinary method,
      the closing brace, the inheritance edge when there is one, one line per interface,
      and "@enduml" without a trailing newline. */
  lemma DiagramLineCount(c: ClassModel, render: TypeRenderer)
    requires SingleLineNames(c, render)
    ensures Count(Diagram(c, render), '\n')
      == 3 + |c.fields| + |Filter(c.methods, IsDrawnMethod)|
         + (if c.superName.Some? && c.superName.value != OBJECT_CLASS then 1 else 0)
         + |c.interfaces|
  {
    var simpleName := SimpleClassName(c.name);
    var header := Header(c);
    var fieldText := FlatMap(c.fields, FieldLiner(render));
    var methodText := FlatMap(c.methods, MethodLiner(render));
    var edge := InheritanceLine(simpleName, c.superName);
    var ifaceText := FlatMap(c.interfaces, RealizationLiner(simpleName));
    SectionLines(c, render);
    SectionsCount(header, fieldText, methodText, "}\n", edge, ifaceText, "@enduml");
    assert Diagram(c, render) == header + fieldText + methodText + "}\n" + edge + ifaceText + "@enduml";
  }
}
