/** The interface renderer: package line, imports, the declaration with its
    extends list, the fields, the methods and the closing brace. Unlike the
    class renderer, everything the extends list collects is imported in the
    same build. */
module InterfaceDefinitions {
  import opened Wrappers
  import opened JStrings
  import opened Collections
  import opened Constants
  import opened Types
  import opened Modifiers
  import opened Annotations
  import opened Methods
  import opened MethodUtil
  import opened ImportNames
  import opened Headers
  import opened Definitions
  import ClassDefinitions

  // ---------------------------------------------------------------------------
  // The extends list
  // ---------------------------------------------------------------------------

  /** Each extended interface rendered with its generic values; undotted
      ClassType values render qualified. */
  function ExtendsTexts(interfaces: seq<ClassType>): (r: Result<seq<string>>)
    ensures r.Err? <==> exists i | 0 <= i < |interfaces| :: interfaces[i].name.None?
    ensures r.Ok? ==> |r.value| == |interfaces|
                      && forall i | 0 <= i < |interfaces| :: Ok(r.value[i]) == SuperTypeText(interfaces[i], true)
    decreases |interfaces|
  {
    if |interfaces| == 0 then Ok([])
    else
      var front := ExtendsTexts(interfaces[..|interfaces| - 1]);
      var last := SuperTypeText(interfaces[|interfaces| - 1], true);
      assert forall i | 0 <= i < |interfaces| - 1 :: interfaces[..|interfaces| - 1][i] == interfaces[i];
      if front.Err? || last.Err? then Err(NullPointerException) else Ok(front.value + [last.value])
  }

  /** The names rendering the extends list adds to the import set, interface
      by interface. */
  function ExtendsNames(interfaces: seq<ClassType>): seq<JString>
    decreases |interfaces|
  {
    if |interfaces| == 0 then []
    else ExtendsNames(interfaces[..|interfaces| - 1]) + SuperTypeImports(interfaces[|interfaces| - 1], true)
  }

  /** " extends " + the rendered interfaces joined by "," (no space), or
      nothing when that joined text is blank. */
  function ExtendsList(texts: seq<string>): (r: string)
    ensures |texts| == 0 ==> r == ""
  {
    var joined := Join(texts, COMMA);
    if IsBlank(joined) then "" else " extends " + joined
  }

  /** The annotation lines, each followed by a separator, then the access
      word + " interface " + name, the extends list and "{". */
  function InterfaceDeclaration(annotationLines: seq<string>, accessWord: string, className: JString,
                                extendsText: string): string {
    Terminated(annotationLines) + accessWord + SPACE + "interface" + SPACE + Show(className)
    + extendsText + "{"
  }

  /** The declaration line, or the error of rendering an annotation or an
      extended interface. */
  function InterfaceDeclarationLine(annotationTypes: seq<AnnotationType>, accessWord: string, className: JString,
                                    interfaces: seq<ClassType>): (r: Result<string>)
    ensures r.Err? <==> AllAnnotationLines(annotationTypes).Err? || ExtendsTexts(interfaces).Err?
  {
    var annotationLines :- AllAnnotationLines(annotationTypes);
    var texts :- ExtendsTexts(interfaces);
    Ok(InterfaceDeclaration(annotationLines, accessWord, className, ExtendsList(texts)))
  }

  /** The set grown from `s0`, the set after the extends list: the methods'
      names, the inherited names, then the shared ones. */
  function ImportsAfterExtends(s0: seq<string>, methods: Option<seq<MethodDefinition>>, interfaces: seq<ClassType>,
                               collected: seq<JString>): Result<seq<string>>
  {
    var s1 :- MethodsImports(methods, s0);
    var s2 :- TreeAddAll(s1, InheritedNames(interfaces));
    TreeAddAll(s2, collected)
  }

  /** The names the interface override of importClasses adds: each extended
      interface's full class name, then the full class names of its
      ClassType generic values. */
  function InheritedNames(interfaces: seq<ClassType>): seq<JString>
    decreases |interfaces|
  {
    if |interfaces| == 0 then []
    else
      var t := interfaces[|interfaces| - 1];
      InheritedNames(interfaces[..|interfaces| - 1]) + ([FullClassName(t)] + GenericClassNames(t.generics))
  }

  /** Every extended interface's full class name is among the inherited names. */
  lemma {:induction false} InheritedNamesCover(interfaces: seq<ClassType>, i: nat)
    requires i < |interfaces|
    ensures FullClassName(interfaces[i]) in InheritedNames(interfaces)
    ensures forall x | x in GenericClassNames(interfaces[i].generics) :: x in InheritedNames(interfaces)
    decreases |interfaces|
  {
    if i < |interfaces| - 1 {
      InheritedNamesCover(interfaces[..|interfaces| - 1], i);
    }
  }

  /** The output in section order: the package line, the import lines, the
      declaration, the field lines, the method lines and "}"; there is no
      accessor section. */
  function InterfaceLines(packageLine: string, importLines: seq<string>, declaration: string,
                          fieldLines: seq<string>, methodLines: seq<string>): seq<string> {
    [packageLine] + importLines + [declaration] + fieldLines + methodLines + ["}"]
  }

  /** The sections of the generated file, at their positions. */
  lemma InterfaceLinesLayout(packageLine: string, importLines: seq<string>, declaration: string,
                            fieldLines: seq<string>, methodLines: seq<string>)
    ensures var r := InterfaceLines(packageLine, importLines, declaration, fieldLines, methodLines);
            var i := 1 + |importLines|;
            var f := i + 1 + |fieldLines|;
            |r| == f + |methodLines| + 1
            && r[0] == packageLine && r[1..i] == importLines && r[i] == declaration
            && r[i + 1..f] == fieldLines && r[f..|r| - 1] == methodLines && r[|r| - 1] == "}"
  {
    var r := InterfaceLines(packageLine, importLines, declaration, fieldLines, methodLines);
    var i := 1 + |importLines|;
    var head := [packageLine] + importLines + [declaration];
    assert r[..|r| - 1] == head + fieldLines + methodLines;
    assert head[1..i] == importLines;
  }

  // ---------------------------------------------------------------------------
  // The builder
  // ---------------------------------------------------------------------------

  class InterfaceDefinitionBuilder {
    const base: DefinitionBuilder
    /** A LinkedList: appended, duplicates kept. */
    var interfacesExtends: seq<ClassType>
    /** null until the first addMethod(s). */
    var methods: Option<seq<MethodDefinition>>

    ghost predicate Valid()
      reads this, base
    {
      base.Valid() && (methods.Some? ==> Distinct(methods.value))
    }

    /** createInterfaceBuilder(packageDefinition, className). */
    constructor (packageDefinition: JString, className: JString)
      ensures Valid() && fresh(base)
      ensures base.packageDefinition == packageDefinition && base.className == className
      ensures base.modifiers == [] && base.classesTypeToImport == [] && base.annotationTypes == []
      ensures base.fields == None && base.classesToImport == [] && base.codeLines == []
      ensures interfacesExtends == [] && methods == None
    {
      base := new DefinitionBuilder(packageDefinition, className);
      interfacesExtends, methods := [], None;
    }

    method AddInterfaceExtend(t: ClassType) returns (self: InterfaceDefinitionBuilder)
      requires Valid()
      modifies this
      ensures self == this && Valid()
      ensures interfacesExtends == old(interfacesExtends) + [t] && methods == old(methods)
    {
      interfacesExtends := interfacesExtends + [t];
      self := this;
    }

    method AddMethod(m: MethodDefinition) returns (self: InterfaceDefinitionBuilder)
      requires Valid()
      modifies this
      ensures self == this && Valid()
      ensures methods == Some(Insert(if old(methods).None? then [] else old(methods).value, m))
      ensures interfacesExtends == old(interfacesExtends)
    {
      var current := if methods.None? then [] else methods.value;
      methods := Some(Insert(current, m));
      self := this;
    }

    method AddMethods(ms: seq<MethodDefinition>) returns (self: InterfaceDefinitionBuilder)
      requires Valid()
      modifies this
      ensures self == this && Valid()
      ensures methods == Some(InsertAll(if old(methods).None? then [] else old(methods).value, ms))
      ensures interfacesExtends == old(interfacesExtends)
    {
      var current := if methods.None? then [] else methods.value;
      methods := Some(InsertAll(current, ms));
      self := this;
    }

    /** The set once the extends list is rendered. */
    function RenderedSet(): Result<seq<string>>
      reads this, base
    {
      TreeAddAll(base.classesToImport, ExtendsNames(interfacesExtends))
    }

    /** The set when the import lines are emitted: the extends list's names,
        the methods' names, the inherited names, then the shared ones. */
    function ImportSet(): Result<seq<string>>
      reads this, base
    {
      var s0 :- RenderedSet();
      ImportsAfterExtends(s0, methods, interfacesExtends, base.Collected())
    }

    /** doBuildCode, as a function: everything collected is imported. */
    function Code(): (r: Result<ClassDefinitions.Output>)
      reads this, base
      ensures r.Ok? <==> AllAnnotationLines(base.annotationTypes).Ok? && ExtendsTexts(interfacesExtends).Ok?
                         && ImportSet().Ok?
      ensures r.Ok? ==> Ok(r.value.classesToImport) == ImportSet()
    {
      var declaration :- InterfaceDeclarationLine(base.annotationTypes, AccessWord(base.modifiers), base.className,
                                                  interfacesExtends);
      var imports :- ImportSet();
      var methodLines := if methods.None? then [] else ClassDefinitions.MethodCode(methods.value);
      Ok(ClassDefinitions.Output(
        InterfaceLines(PackageDeclaration(base.packageDefinition), ImportLines(imports, base.packageDefinition),
                       declaration, CreateFields(base.fields), methodLines),
        imports))
    }

    /** addInterfacesExtendsCode: renders every extended interface, adding the
        names of its generic values to the set as they are mapped. */
    method AddInterfacesExtendsCode() returns (r: Result<string>)
      requires Valid()
      modifies base
      ensures Valid()
      ensures r.Err? <==> ExtendsTexts(interfacesExtends).Err? || old(RenderedSet()).Err?
      ensures r.Ok? ==> r == Ok(ExtendsList(ExtendsTexts(interfacesExtends).value))
                        && Ok(base.classesToImport) == old(RenderedSet())
      ensures base.codeLines == old(base.codeLines) && base.modifiers == old(base.modifiers)
      ensures base.annotationTypes == old(base.annotationTypes) && base.classesTypeToImport == old(base.classesTypeToImport)
      ensures base.fields == old(base.fields)
    {
      var rendered := RenderInterfaces(interfacesExtends, base.classesToImport);
      if rendered.Err? {
        return Err(rendered.error);
      }
      var texts := rendered.value.0;
      TreeAddAllSorted(base.classesToImport, ExtendsNames(interfacesExtends));
      base.classesToImport := rendered.value.1;
      var code := Join(texts, COMMA);
      if IsBlank(code) {
        return Ok("");
      }
      return Ok(" extends " + code);
    }

    /** The interface override of importClasses. */
    method ImportClasses() returns (r: Result<()>)
      requires Valid()
      modifies base
      ensures Valid()
      ensures r.Err? <==> TreeAddAll(old(base.classesToImport), InheritedNames(interfacesExtends) + old(base.Collected())).Err?
      ensures r.Ok? ==> base.classesToImport == TreeAddAll(old(base.classesToImport), InheritedNames(interfacesExtends) + old(base.Collected())).value
                        && base.codeLines == old(base.codeLines) + ImportLines(base.classesToImport, base.packageDefinition)
      ensures base.modifiers == old(base.modifiers) && base.annotationTypes == old(base.annotationTypes)
      ensures base.classesTypeToImport == old(base.classesTypeToImport) && base.fields == old(base.fields)
    {
      TreeAddAllAppend(base.classesToImport, InheritedNames(interfacesExtends), base.Collected());
      var grown := AddInheritedNames(interfacesExtends, base.classesToImport);
      if grown.Err? {
        return Err(grown.error);
      }
      TreeAddAllSorted(base.classesToImport, InheritedNames(interfacesExtends));
      base.classesToImport := grown.value;
      r := base.ImportClasses();
    }

    /** The methods' lines, indented. */
    method CreateMethodCode(ms: seq<MethodDefinition>) returns (lines: seq<string>)
      ensures lines == ClassDefinitions.MethodCode(ms)
    {
      lines := [];
      var i := 0;
      while i < |ms|
        invariant 0 <= i <= |ms|
        invariant lines == ClassDefinitions.MethodCode(ms[..i])
      {
        assert ms[..i + 1][..i] == ms[..i];
        lines := lines + Indentation.IndentAll(ms[i].sourceLines, 1);
        i := i + 1;
      }
      assert ms[..i] == ms;
    }

    /** The declaration line: annotations, access word, name and the
        extends list, whose names join the imports. */
    method CreateDeclaration() returns (r: Result<string>)
      requires Valid()
      modifies base
      ensures Valid()
      ensures r.Err? <==> old(InterfaceDeclarationLine(base.annotationTypes, AccessWord(base.modifiers), base.className,
                                                       interfacesExtends)).Err?
                          || old(RenderedSet()).Err?
      ensures r.Ok? ==> r == old(InterfaceDeclarationLine(base.annotationTypes, AccessWord(base.modifiers), base.className,
                                                          interfacesExtends))
                        && Ok(base.classesToImport) == old(RenderedSet())
      ensures base.codeLines == old(base.codeLines) && base.modifiers == old(base.modifiers)
      ensures base.annotationTypes == old(base.annotationTypes) && base.classesTypeToImport == old(base.classesTypeToImport)
      ensures base.fields == old(base.fields)
    {
      var annotationLines := AllAnnotationLines(base.annotationTypes);
      if annotationLines.Err? {
        return Err(annotationLines.error);
      }
      var w := AccessWord(base.modifiers);
      var declaration := AppendTerminated("", annotationLines.value);
      assert declaration == Terminated(annotationLines.value);
      declaration := declaration + w + SPACE + "interface" + SPACE + Show(base.className);
      var extendsText := AddInterfacesExtendsCode();
      if extendsText.Err? {
        return Err(extendsText.error);
      }
      declaration := declaration + extendsText.value + "{";
      return Ok(declaration);
    }

    /** The methods' names, then the override of importClasses. */
    method ImportAll() returns (r: Result<()>)
      requires Valid()
      modifies base
      ensures Valid()
      ensures r.Err? <==> ImportsAfterExtends(old(base.classesToImport), methods, interfacesExtends, old(base.Collected())).Err?
      ensures r.Ok? ==> Ok(base.classesToImport)
                          == ImportsAfterExtends(old(base.classesToImport), methods, interfacesExtends, old(base.Collected()))
                        && base.codeLines == old(base.codeLines) + ImportLines(base.classesToImport, base.packageDefinition)
      ensures base.modifiers == old(base.modifiers) && base.annotationTypes == old(base.annotationTypes)
      ensures base.classesTypeToImport == old(base.classesTypeToImport) && base.fields == old(base.fields)
    {
      var fromMethods := ImportClassesFromMethods(methods, base.classesToImport);
      if fromMethods.Err? {
        return Err(fromMethods.error);
      }
      ImportsOnlyInsert(methods, base.classesToImport);
      base.classesToImport := fromMethods.value;
      TreeAddAllAppend(fromMethods.value, InheritedNames(interfacesExtends), base.Collected());
      r := ImportClasses();
    }

    /** The lines after the declaration: fields and methods. */
    method CreateBody() returns (fieldLines: seq<string>, methodCode: seq<string>)
      ensures fieldLines == CreateFields(base.fields)
      ensures methodCode == (if methods.None? then [] else ClassDefinitions.MethodCode(methods.value))
    {
      fieldLines := CreateFields(base.fields);
      methodCode := [];
      if methods.Some? {
        methodCode := CreateMethodCode(methods.value);
      }
    }

    /** doBuildCode. */
    method DoBuildCode() returns (r: Result<()>)
      requires Valid()
      modifies base
      ensures Valid()
      ensures r.Err? <==> old(Code()).Err?
      ensures r.Ok? ==> base.codeLines == old(Code()).value.codeLines
                        && base.classesToImport == old(Code()).value.classesToImport
      ensures base.modifiers == old(base.modifiers) && base.annotationTypes == old(base.annotationTypes)
      ensures base.classesTypeToImport == old(base.classesTypeToImport) && base.fields == old(base.fields)
    {
      ghost var expected := Code();
      base.codeLines := [PackageDeclaration(base.packageDefinition)];
      var declaration := CreateDeclaration();
      if declaration.Err? {
        return Err(declaration.error);
      }
      var imported := ImportAll();
      if imported.Err? {
        return Err(imported.error);
      }
      var fieldLines, methodCode := CreateBody();
      ghost var p := base.codeLines[0];
      ghost var importLines := base.codeLines[1..];
      base.codeLines := base.codeLines + [declaration.value] + fieldLines + methodCode + ["}"];
      assert base.codeLines == InterfaceLines(p, importLines, declaration.value, fieldLines, methodCode);
      return Ok(());
    }

    /** build(): doBuildCode, then the definition. */
    method Build() returns (r: Result<Definition>)
      requires Valid()
      modifies base
      ensures Valid()
      ensures r.Err? <==> old(Code()).Err? || CreatePackagePath(base.packageDefinition).Err?
      ensures r.Ok? ==> r.value.codeLines == old(Code()).value.codeLines && r.value.className == base.className
                        && r.value.modifiers == base.modifiers
                        && Ok(r.value.packagePath) == CreatePackagePath(base.packageDefinition)
    {
      var built := DoBuildCode();
      if built.Err? {
        return Err(built.error);
      }
      r := base.MakeDefinition();
    }
  }

  /** The stream over the extended interfaces: each one rendered, its
      generic values' names added to the set as it goes. */
  method RenderInterfaces(interfaces: seq<ClassType>, classesToImport: seq<string>)
    returns (r: Result<(seq<string>, seq<string>)>)
    ensures r.Err? <==> ExtendsTexts(interfaces).Err? || TreeAddAll(classesToImport, ExtendsNames(interfaces)).Err?
    ensures r.Ok? ==> Ok(r.value.0) == ExtendsTexts(interfaces)
                      && Ok(r.value.1) == TreeAddAll(classesToImport, ExtendsNames(interfaces))
  {
    var texts: seq<string> := [];
    var grown := classesToImport;
    var i := 0;
    while i < |interfaces|
      invariant 0 <= i <= |interfaces|
      invariant ExtendsTexts(interfaces[..i]) == Ok(texts)
      invariant TreeAddAll(classesToImport, ExtendsNames(interfaces[..i])) == Ok(grown)
    {
      var t := interfaces[i];
      assert interfaces[..i + 1][..i] == interfaces[..i];
      TreeAddAllAppend(classesToImport, ExtendsNames(interfaces[..i]), SuperTypeImports(t, true));
      var rendered := RenderSuperType(t, grown, true);
      if rendered.Err? {
        ExtendsPrefixFails(interfaces, i + 1, classesToImport);
        return Err(rendered.error);
      }
      texts := texts + [rendered.value.0];
      grown := rendered.value.1;
      i := i + 1;
    }
    assert interfaces[..i] == interfaces;
    return Ok((texts, grown));
  }

  /** The loop of the interface override of importClasses. */
  method AddInheritedNames(interfaces: seq<ClassType>, classesToImport: seq<string>) returns (r: Result<seq<string>>)
    ensures r == TreeAddAll(classesToImport, InheritedNames(interfaces))
  {
    var grown := classesToImport;
    var i := 0;
    while i < |interfaces|
      invariant 0 <= i <= |interfaces|
      invariant TreeAddAll(classesToImport, InheritedNames(interfaces[..i])) == Ok(grown)
    {
      var t := interfaces[i];
      assert interfaces[..i + 1][..i] == interfaces[..i];
      TreeAddAllAppend(classesToImport, InheritedNames(interfaces[..i]), [FullClassName(t)] + GenericClassNames(t.generics));
      var added := AddAllNames(grown, [FullClassName(t)] + GenericClassNames(t.generics));
      if added.Err? {
        InheritedPrefixFails(interfaces, i + 1, classesToImport);
        return Err(NullPointerException);
      }
      grown := added.value;
      i := i + 1;
    }
    assert interfaces[..i] == interfaces;
    return Ok(grown);
  }

  /** A failure on the first k interfaces' names is a failure on all. */
  lemma ExtendsPrefixFails(interfaces: seq<ClassType>, k: nat, s: seq<string>)
    requires 0 < k <= |interfaces|
    requires SuperTypeText(interfaces[k - 1], true).Err?
             || TreeAddAll(s, ExtendsNames(interfaces[..k])).Err?
    ensures ExtendsTexts(interfaces).Err? || TreeAddAll(s, ExtendsNames(interfaces)).Err?
  {
    if SuperTypeText(interfaces[k - 1], true).Err? {
      assert interfaces[k - 1].name.None?;
    } else {
      ExtendsNamesPrefix(interfaces, k);
    }
  }

  lemma {:induction false} ExtendsNamesPrefix(interfaces: seq<ClassType>, k: nat)
    requires k <= |interfaces|
    ensures forall x | x in ExtendsNames(interfaces[..k]) :: x in ExtendsNames(interfaces)
    decreases |interfaces|
  {
    if k < |interfaces| {
      var front := interfaces[..|interfaces| - 1];
      assert front[..k] == interfaces[..k];
      ExtendsNamesPrefix(front, k);
    } else {
      assert interfaces[..k] == interfaces;
    }
  }

  lemma InheritedPrefixFails(interfaces: seq<ClassType>, k: nat, s: seq<string>)
    requires k <= |interfaces|
    requires TreeAddAll(s, InheritedNames(interfaces[..k])).Err?
    ensures TreeAddAll(s, InheritedNames(interfaces)).Err?
  {
    InheritedNamesPrefix(interfaces, k);
  }

  lemma {:induction false} InheritedNamesPrefix(interfaces: seq<ClassType>, k: nat)
    requires k <= |interfaces|
    ensures forall x | x in InheritedNames(interfaces[..k]) :: x in InheritedNames(interfaces)
    decreases |interfaces|
  {
    if k < |interfaces| {
      var front := interfaces[..|interfaces| - 1];
      assert front[..k] == interfaces[..k];
      InheritedNamesPrefix(front, k);
    } else {
      assert interfaces[..k] == interfaces;
    }
  }

  // ---------------------------------------------------------------------------
  // What doBuildCode produces
  // ---------------------------------------------------------------------------

  /** Every name collected while rendering the extends list stays in the set
      until the import lines are emitted. */
  lemma ExtendsNamesInImportSet(b: InterfaceDefinitionBuilder, x: string)
    requires b.ImportSet().Ok? && Some(x) in ExtendsNames(b.interfacesExtends)
    ensures x in b.ImportSet().value
  {
    var s0 := b.RenderedSet().value;
    assert x in s0;
    var s1 := MethodsImports(b.methods, s0).value;
    assert x in s1 by {
      if b.methods.Some? {
        assert x in TreeAddAll(s0, MethodListNames(b.methods.value)).value;
      }
    }
    var s2 := TreeAddAll(s1, InheritedNames(b.interfacesExtends)).value;
    assert x in s2;
  }

  /** A name the extends list brings, unless it is skipped, gets its import
      line in the same build. */
  lemma ExtendsNamesImported(b: InterfaceDefinitionBuilder, x: string)
    requires b.Code().Ok? && Some(x) in ExtendsNames(b.interfacesExtends)
    requires !Skipped(x, b.base.packageDefinition)
    ensures ImportLine(x) in ImportLines(b.ImportSet().value, b.base.packageDefinition)
  {
    ExtendsNamesInImportSet(b, x);
    ImportLinesIff(b.ImportSet().value, b.base.packageDefinition, x);
  }

  /** Each extended interface's own full class name is imported, unless it is
      skipped. */
  lemma ExtendedInterfaceImported(b: InterfaceDefinitionBuilder, i: nat, x: string)
    requires b.Code().Ok? && i < |b.interfacesExtends| && FullClassName(b.interfacesExtends[i]) == Some(x)
    requires !Skipped(x, b.base.packageDefinition)
    ensures ImportLine(x) in ImportLines(b.ImportSet().value, b.base.packageDefinition)
  {
    InheritedNamesCover(b.interfacesExtends, i);
    var s0 := b.RenderedSet().value;
    var s1 := MethodsImports(b.methods, s0).value;
    assert x in TreeAddAll(s1, InheritedNames(b.interfacesExtends)).value;
    ImportLinesIff(b.ImportSet().value, b.base.packageDefinition, x);
  }

  /** Two rendered interfaces are separated by a bare comma. */
  lemma ExtendsTwo(a: string, c: string)
    requires !IsBlank(a)
    ensures ExtendsList([a, c]) == " extends " + a + "," + c
  {
    assert [a, c][1..] == [c];
    var joined := Join([a, c], COMMA);
    assert Join([c], COMMA) == c;
    assert joined == a + "," + c;
    var k :| 0 <= k < |a| && !IsWhitespace(a[k]);
    assert joined[k] == a[k];
  }

  /** Without annotations the declaration starts with the access word and
      a space: unlike a class, no line separator comes first. */
  lemma NoLeadingSeparator(w: string, className: JString, extendsText: string)
    ensures var d := InterfaceDeclaration([], w, className, extendsText);
            |d| > |w| && d[..|w|] == w && d[|w|] == ' '
  {
    var head := Terminated([]) + w + SPACE;
    assert Terminated([]) == "";
    assert head == w + SPACE;
    var d := InterfaceDeclaration([], w, className, extendsText);
    assert d == head + ("interface" + SPACE + Show(className) + extendsText + "{");
  }
}
