/** The class renderer: package line, imports, the class declaration, the
    fields, their accessors, the constructors (with the class name put in
    place of the placeholder), the methods and the closing brace. */
module ClassDefinitions {
  import opened Wrappers
  import opened Sequences
  import opened JStrings
  import opened Collections
  import opened Constants
  import opened Types
  import opened Modifiers
  import opened Indentation
  import opened Annotations
  import opened Fields
  import opened Methods
  import opened Constructors
  import opened MethodUtil
  import opened ImportNames
  import opened Headers
  import Members
  import opened Definitions

  // ---------------------------------------------------------------------------
  // The declaration line
  // ---------------------------------------------------------------------------

  /** " extends " + the rendered superclass, or nothing without one. */
  function ExtendsClause(classExtended: Option<ClassType>): (r: Result<string>)
    ensures classExtended.None? ==> r == Ok("")
    ensures classExtended.Some? ==> (r.Err? <==> classExtended.value.name.None?)
  {
    if classExtended.None? then Ok("")
    else
      var text :- SuperTypeText(classExtended.value, false);
      Ok(" extends " + text)
  }

  /** The names rendering the extends clause adds to the import set. */
  function ExtendsImports(classExtended: Option<ClassType>): seq<JString> {
    if classExtended.None? then [] else SuperTypeImports(classExtended.value, false)
  }

  function ClassNames(types: seq<ClassType>): (r: seq<string>)
    ensures |r| == |types| && forall i | 0 <= i < |types| :: r[i] == Show(ClassName(types[i]))
  {
    seq(|types|, i requires 0 <= i < |types| => Show(ClassName(types[i])))
  }

  /** " implements " + the interfaces' names joined by ", " + " ", or nothing
      when there are none. */
  function ImplementsClause(interfaces: seq<ClassType>): (r: string)
    ensures |interfaces| == 0 <==> r == ""
    ensures |interfaces| > 0 ==> |r| > 12 && r[..12] == " implements " && r[|r| - 1] == ' '
  {
    if |interfaces| == 0 then ""
    else
      var r := " implements " + Join(ClassNames(interfaces), COMMA_SPACE) + SPACE;
      assert r[..12] == " implements ";
      r
  }

  /** A line separator, each annotation line followed by a separator, then
      the access word + " class " + name, the extends and implements clauses
      and "{". */
  function ClassDeclaration(annotationLines: seq<string>, accessWord: string, className: JString,
                            extendsText: string, implementsText: string): string {
    LINE_SEPARATOR + Terminated(annotationLines) + accessWord + SPACE + "class" + SPACE
    + Show(className) + extendsText + implementsText + "{"
  }

  /** The declaration line, or the error of rendering an annotation or the
      superclass. */
  function ClassDeclarationLine(annotationTypes: seq<AnnotationType>, accessWord: string, className: JString,
                                classExtended: Option<ClassType>, interfaces: seq<ClassType>): (r: Result<string>)
    ensures r.Err? <==> AllAnnotationLines(annotationTypes).Err? || ExtendsClause(classExtended).Err?
  {
    var annotationLines :- AllAnnotationLines(annotationTypes);
    var extendsText :- ExtendsClause(classExtended);
    Ok(ClassDeclaration(annotationLines, accessWord, className, extendsText, ImplementsClause(interfaces)))
  }

  // ---------------------------------------------------------------------------
  // Accessors
  // ---------------------------------------------------------------------------

  function SetterBlock(f: FieldDefinition): seq<string> {
    var name := Show(f.fieldName);
    [GetIndentation(1) + "public void set" + Show(CapitalizeJ(f.fieldName)) + "(" + Show(f.GetFieldType()) + " " + name + "){",
     GetIndentation(2) + "this." + name + " = " + name + ";",
     GetIndentation(1) + "}" + LINE_SEPARATOR]
  }

  function GetterBlock(f: FieldDefinition): seq<string> {
    [GetIndentation(1) + "public " + Show(f.GetFieldType()) + " get" + Show(CapitalizeJ(f.fieldName)) + "(){",
     GetIndentation(2) + "return " + Show(f.fieldName) + ";",
     GetIndentation(1) + "}" + LINE_SEPARATOR]
  }

  /** The setter block (if flagged), then the getter block (if flagged). */
  function FieldAccessors(f: FieldDefinition): seq<string> {
    (if f.setter then SetterBlock(f) else []) + (if f.getter then GetterBlock(f) else [])
  }

  /** The accessor section: present only for a non-empty field list. */
  function AccessorLines(fields: Option<seq<FieldDefinition>>): seq<string> {
    if fields.Some? && |fields.value| > 0 then Accessors(fields.value) else []
  }

  /** createAccessors: field by field, in insertion order. */
  function Accessors(fields: seq<FieldDefinition>): seq<string>
    decreases |fields|
  {
    if |fields| == 0 then [] else Accessors(fields[..|fields| - 1]) + FieldAccessors(fields[|fields| - 1])
  }

  /** The number of accessor blocks the fields ask for. */
  function AccessorCount(fields: seq<FieldDefinition>): nat
    decreases |fields|
  {
    if |fields| == 0 then 0
    else AccessorCount(fields[..|fields| - 1])
         + (if fields[|fields| - 1].setter then 1 else 0) + (if fields[|fields| - 1].getter then 1 else 0)
  }

  /** Every accessor is a block of three lines. */
  lemma {:induction false} AccessorsAreBlocksOfThree(fields: seq<FieldDefinition>)
    ensures |Accessors(fields)| == 3 * AccessorCount(fields)
    decreases |fields|
  {
    if |fields| > 0 {
      AccessorsAreBlocksOfThree(fields[..|fields| - 1]);
    }
  }

  /** A field with both flags gets its setter block first, then its getter
      block; a field with neither gets none. Each block closes with an
      indented "}" that carries a trailing separator. */
  lemma AccessorBlocks(f: FieldDefinition)
    ensures f.setter && f.getter ==> FieldAccessors(f) == SetterBlock(f) + GetterBlock(f)
    ensures !f.setter && !f.getter ==> FieldAccessors(f) == []
    ensures SetterBlock(f)[2] == GetterBlock(f)[2] == "    }\n"
  {
    IndentationIsSpaces(1);
    assert GetIndentation(1) == "    ";
  }

  // ---------------------------------------------------------------------------
  // Constructor and method lines
  // ---------------------------------------------------------------------------

  /** StringUtils.replace with the class name; a null replacement leaves the
      line as it is. */
  function ReplaceToken(line: string, className: JString): string {
    if className.None? then line else Replace(line, CLASSNAME_PARAMETER, className.value)
  }

  function ReplaceTokens(lines: seq<string>, className: JString): (r: seq<string>)
    ensures |r| == |lines| && forall i | 0 <= i < |lines| :: r[i] == ReplaceToken(lines[i], className)
  {
    seq(|lines|, i requires 0 <= i < |lines| => ReplaceToken(lines[i], className))
  }

  /** Constructor by constructor: each line with the placeholder replaced,
      then indented once. */
  function ConstructorCode(constructors: seq<ConstructorDefinition>, className: JString): seq<string>
    decreases |constructors|
  {
    if |constructors| == 0 then []
    else ConstructorCode(constructors[..|constructors| - 1], className)
         + IndentAll(ReplaceTokens(constructors[|constructors| - 1].sourceLines, className), 1)
  }

  /** Method by method: each line indented once. */
  function MethodCode(methods: seq<MethodDefinition>): seq<string>
    decreases |methods|
  {
    if |methods| == 0 then [] else MethodCode(methods[..|methods| - 1]) + IndentAll(methods[|methods| - 1].sourceLines, 1)
  }

  /** The placeholder in a line is replaced by the class name, when nothing
      before it could start another placeholder and nothing after holds one. */
  lemma PlaceholderReplaced(before: string, after: string, className: string)
    requires '{' !in before && !Contains(after, CLASSNAME_PARAMETER)
    ensures ReplaceToken(before + CLASSNAME_PARAMETER + after, Some(className)) == before + className + after
  {
    ReplaceAfterPrefix(before, CLASSNAME_PARAMETER, after, className);
    ReplaceAbsent(after, CLASSNAME_PARAMETER, className);
  }

  /** Without a class name the placeholder stays. */
  lemma PlaceholderKeptWithoutName(line: string)
    ensures ReplaceToken(line, None) == line
  {
  }

  /** A public constructor's signature line, once placed in class Name, reads
      "public  Name(" + parameters + "){" (two spaces, as rendered). */
  lemma PublicConstructorLine(parameterList: string, className: string)
    requires '{' !in parameterList
    ensures ReplaceToken(ConstructorSignature([PUBLIC], parameterList) + "{", Some(className))
         == "public  " + className + "(" + parameterList + "){"
  {
    var before := Members.ModifierPrefix([PUBLIC]) + SPACE;
    WordsAreKeywords();
    assert before == "public  ";
    var after := "(" + parameterList + "){";
    var open := "(" + parameterList;
    assert ")" + "{" == "){";
    AppendAssoc(open, ")", "{");
    AppendAssoc(before + CLASSNAME_PARAMETER, open + ")", "{");
    AppendAssoc(before + CLASSNAME_PARAMETER, "(", parameterList);
    AppendAssoc(before + CLASSNAME_PARAMETER, open, ")");
    assert ConstructorSignature([PUBLIC], parameterList) + "{" == before + CLASSNAME_PARAMETER + after;
    NoPlaceholderIn(after);
    PlaceholderReplaced(before, after, className);
    AppendAssoc(before + className, open, "){");
    AppendAssoc(before + className, "(", parameterList);
  }

  /** A text whose only '{' is its last character holds no placeholder. */
  lemma NoPlaceholderIn(s: string)
    requires |s| > 0 && '{' !in s[..|s| - 1]
    ensures !Contains(s, CLASSNAME_PARAMETER)
  {
    forall j | 0 <= j <= |s| ensures !OccursAt(s, CLASSNAME_PARAMETER, j) {
      if j + |CLASSNAME_PARAMETER| <= |s| {
        assert s[j] in s[..|s| - 1];
        assert s[j..j + |CLASSNAME_PARAMETER|][0] == s[j];
      }
    }
    ContainsIff(s, CLASSNAME_PARAMETER);
  }

  // ---------------------------------------------------------------------------
  // The sections
  // ---------------------------------------------------------------------------

  /** The output in section order: the package line, the import lines, the
      declaration, the field lines, the accessors, the constructors, the
      methods and the closing "}". */
  function ClassLines(packageLine: string, importLines: seq<string>, declaration: string, fieldLines: seq<string>,
                      accessors: seq<string>, constructorLines: seq<string>, methodLines: seq<string>): seq<string> {
    [packageLine] + importLines + [declaration] + fieldLines + accessors + constructorLines + methodLines + ["}"]
  }

  /** The sections of the generated file, at their positions. */
  lemma ClassLinesLayout(packageLine: string, importLines: seq<string>, declaration: string, fieldLines: seq<string>,
                        accessors: seq<string>, constructorLines: seq<string>, methodLines: seq<string>)
    ensures var r := ClassLines(packageLine, importLines, declaration, fieldLines, accessors, constructorLines, methodLines);
            var i := 1 + |importLines|;
            var f := i + 1 + |fieldLines|;
            var a := f + |accessors|;
            var c := a + |constructorLines|;
            |r| == c + |methodLines| + 1
            && r[0] == packageLine && r[1..i] == importLines && r[i] == declaration
            && r[i + 1..f] == fieldLines && r[f..a] == accessors && r[a..c] == constructorLines
            && r[c..|r| - 1] == methodLines && r[|r| - 1] == "}"
  {
    var r := ClassLines(packageLine, importLines, declaration, fieldLines, accessors, constructorLines, methodLines);
    var i := 1 + |importLines|;
    var head := [packageLine] + importLines + [declaration];
    assert r[..|r| - 1] == head + fieldLines + accessors + constructorLines + methodLines;
    assert head[1..i] == importLines;
  }

  // ---------------------------------------------------------------------------
  // The builder
  // ---------------------------------------------------------------------------

  /** What doBuildCode leaves behind. */
  datatype Output = Output(codeLines: seq<string>, classesToImport: seq<string>)

  class ClassDefinitionBuilder {
    /** The inherited DefinitionBuilder part. */
    const base: DefinitionBuilder
    /** null until the first addMethod(s) / addConstructor. */
    var methods: Option<seq<MethodDefinition>>
    var constructors: Option<seq<ConstructorDefinition>>
    var interfacesImplements: seq<ClassType>
    var classExtended: Option<ClassType>

    ghost predicate Valid()
      reads this, base
    {
      base.Valid() && Distinct(interfacesImplements)
      && (methods.Some? ==> Distinct(methods.value)) && (constructors.Some? ==> Distinct(constructors.value))
    }

    /** createClassBuilder(packageDefinition, className). */
    constructor (packageDefinition: JString, className: JString)
      ensures Valid() && fresh(base)
      ensures base.packageDefinition == packageDefinition && base.className == className
      ensures base.modifiers == [] && base.classesTypeToImport == [] && base.annotationTypes == []
      ensures base.fields == None && base.classesToImport == [] && base.codeLines == []
      ensures methods == None && constructors == None && interfacesImplements == [] && classExtended == None
    {
      base := new DefinitionBuilder(packageDefinition, className);
      methods, constructors, interfacesImplements, classExtended := None, None, [], None;
    }

    method AddInterfaceImplements(t: ClassType) returns (self: ClassDefinitionBuilder)
      requires Valid()
      modifies this
      ensures self == this && Valid()
      ensures interfacesImplements == Insert(old(interfacesImplements), t)
      ensures methods == old(methods) && constructors == old(constructors) && classExtended == old(classExtended)
    {
      interfacesImplements := Insert(interfacesImplements, t);
      self := this;
    }

    method ClassExtended(t: Option<ClassType>) returns (self: ClassDefinitionBuilder)
      requires Valid()
      modifies this
      ensures self == this && Valid()
      ensures classExtended == t
      ensures methods == old(methods) && constructors == old(constructors)
      ensures interfacesImplements == old(interfacesImplements)
    {
      classExtended := t;
      self := this;
    }

    method AddMethod(m: MethodDefinition) returns (self: ClassDefinitionBuilder)
      requires Valid()
      modifies this
      ensures self == this && Valid()
      ensures methods == Some(Insert(if old(methods).None? then [] else old(methods).value, m))
      ensures constructors == old(constructors) && classExtended == old(classExtended)
      ensures interfacesImplements == old(interfacesImplements)
    {
      var current := if methods.None? then [] else methods.value;
      methods := Some(Insert(current, m));
      self := this;
    }

    method AddMethods(ms: seq<MethodDefinition>) returns (self: ClassDefinitionBuilder)
      requires Valid()
      modifies this
      ensures self == this && Valid()
      ensures methods == Some(InsertAll(if old(methods).None? then [] else old(methods).value, ms))
      ensures constructors == old(constructors) && classExtended == old(classExtended)
      ensures interfacesImplements == old(interfacesImplements)
    {
      var current := if methods.None? then [] else methods.value;
      methods := Some(InsertAll(current, ms));
      self := this;
    }

    method AddConstructor(c: ConstructorDefinition) returns (self: ClassDefinitionBuilder)
      requires Valid()
      modifies this
      ensures self == this && Valid()
      ensures constructors == Some(Insert(if old(constructors).None? then [] else old(constructors).value, c))
      ensures methods == old(methods) && classExtended == old(classExtended)
      ensures interfacesImplements == old(interfacesImplements)
    {
      var current := if constructors.None? then [] else constructors.value;
      constructors := Some(Insert(current, c));
      self := this;
    }

    /** The names the class override of importClasses adds before the shared
        ones: the implemented interfaces, then the superclass. */
    function OverrideNames(): seq<JString>
      reads this
    {
      FullClassNames(interfacesImplements) + (if classExtended.None? then [] else [FullClassName(classExtended.value)])
    }

    /** The import set when the import lines are emitted: the methods' names,
        the override's names, then the shared ones. */
    function ImportSet(): Result<seq<string>>
      reads this, base
    {
      var s1 :- MethodsImports(methods, base.classesToImport);
      var s2 :- TreeAddAll(s1, OverrideNames());
      TreeAddAll(s2, base.Collected())
    }


    /** doBuildCode, as a function. The names the extends clause collects join
        the set only after the import lines have been emitted. */
    function Code(): (r: Result<Output>)
      reads this, base
      ensures r.Ok? <==> ImportSet().Ok? && AllAnnotationLines(base.annotationTypes).Ok? && ExtendsClause(classExtended).Ok?
                         && TreeAddAll(ImportSet().value, ExtendsImports(classExtended)).Ok?
    {
      var imports :- ImportSet();
      var declaration :- ClassDeclarationLine(base.annotationTypes, AccessWord(base.modifiers), base.className,
                                              classExtended, interfacesImplements);
      var finalImports :- TreeAddAll(imports, ExtendsImports(classExtended));
      var p := PackageDeclaration(base.packageDefinition);
      var importLines := ImportLines(imports, base.packageDefinition);
      var ctors := if constructors.None? then [] else ConstructorCode(constructors.value, base.className);
      var ms := if methods.None? then [] else MethodCode(methods.value);
      Ok(Output(ClassLines(p, importLines, declaration, CreateFields(base.fields), AccessorLines(base.fields), ctors, ms),
                finalImports))
    }

    /** The class override of importClasses. */
    method ImportClasses() returns (r: Result<()>)
      requires Valid()
      modifies base
      ensures Valid()
      ensures r.Err? <==> TreeAddAll(old(base.classesToImport), OverrideNames() + base.Collected()).Err?
      ensures r.Ok? ==> base.classesToImport == TreeAddAll(old(base.classesToImport), OverrideNames() + base.Collected()).value
                        && base.codeLines == old(base.codeLines) + ImportLines(base.classesToImport, base.packageDefinition)
      ensures base.modifiers == old(base.modifiers) && base.annotationTypes == old(base.annotationTypes)
      ensures base.classesTypeToImport == old(base.classesTypeToImport) && base.fields == old(base.fields)
    {
      TreeAddAllAppend(base.classesToImport, OverrideNames(), base.Collected());
      var grown := AddAllNames(base.classesToImport, OverrideNames());
      if grown.Err? {
        return Err(grown.error);
      }
      TreeAddAllSorted(base.classesToImport, OverrideNames());
      base.classesToImport := grown.value;
      r := base.ImportClasses();
    }

    /** addClassExtendedToDeclaration: renders the extends clause and, while
        mapping the generic values, adds their names to the import set. */
    method AddClassExtendedToDeclaration() returns (r: Result<string>)
      requires Valid()
      modifies base
      ensures Valid()
      ensures r.Err? <==> ExtendsClause(classExtended).Err? || TreeAddAll(old(base.classesToImport), ExtendsImports(classExtended)).Err?
      ensures r.Ok? ==> r == ExtendsClause(classExtended)
                        && Ok(base.classesToImport) == TreeAddAll(old(base.classesToImport), ExtendsImports(classExtended))
      ensures base.codeLines == old(base.codeLines) && base.modifiers == old(base.modifiers)
      ensures base.annotationTypes == old(base.annotationTypes) && base.classesTypeToImport == old(base.classesTypeToImport)
      ensures base.fields == old(base.fields)
    {
      if classExtended.None? {
        return Ok("");
      }
      var rendered := RenderSuperType(classExtended.value, base.classesToImport, false);
      if rendered.Err? {
        return Err(rendered.error);
      }
      TreeAddAllSorted(base.classesToImport, ExtendsImports(classExtended));
      base.classesToImport := rendered.value.1;
      return Ok(" extends " + rendered.value.0);
    }

    /** createAccessors. */
    method CreateAccessors() returns (lines: seq<string>)
      requires base.fields.Some?
      ensures lines == Accessors(base.fields.value)
    {
      var fs := base.fields.value;
      lines := [];
      var i := 0;
      while i < |fs|
        invariant 0 <= i <= |fs|
        invariant lines == Accessors(fs[..i])
      {
        AccessorsStep(fs, i);
        var f := fs[i];
        ghost var before := lines;
        if f.setter {
          lines := lines + SetterBlock(f);
        }
        if f.getter {
          if f.setter {
            AppendAssoc(before, SetterBlock(f), GetterBlock(f));
          }
          lines := lines + GetterBlock(f);
        }
        assert lines == before + FieldAccessors(f);
        i := i + 1;
      }
      assert fs[..i] == fs;
    }

    /** The constructors' lines, placed in this class and indented. */
    method CreateConstructorCode(cs: seq<ConstructorDefinition>) returns (lines: seq<string>)
      ensures lines == ConstructorCode(cs, base.className)
    {
      lines := [];
      var i := 0;
      while i < |cs|
        invariant 0 <= i <= |cs|
        invariant lines == ConstructorCode(cs[..i], base.className)
      {
        assert cs[..i + 1][..i] == cs[..i];
        lines := lines + IndentAll(ReplaceTokens(cs[i].sourceLines, base.className), 1);
        i := i + 1;
      }
      assert cs[..i] == cs;
    }

    /** The methods' lines, indented. */
    method CreateMethodCode(ms: seq<MethodDefinition>) returns (lines: seq<string>)
      ensures lines == MethodCode(ms)
    {
      lines := [];
      var i := 0;
      while i < |ms|
        invariant 0 <= i <= |ms|
        invariant lines == MethodCode(ms[..i])
      {
        assert ms[..i + 1][..i] == ms[..i];
        lines := lines + IndentAll(ms[i].sourceLines, 1);
        i := i + 1;
      }
      assert ms[..i] == ms;
    }

    /** The first half of doBuildCode: the package line, then the imports of
        the methods, the overrides and the collected types. */
    method ImportAll() returns (r: Result<()>)
      requires Valid()
      modifies base
      ensures Valid()
      ensures r.Err? <==> old(ImportSet()).Err?
      ensures r.Ok? ==> Ok(base.classesToImport) == old(ImportSet())
                        && base.codeLines == [PackageDeclaration(base.packageDefinition)]
                                             + ImportLines(base.classesToImport, base.packageDefinition)
      ensures base.modifiers == old(base.modifiers) && base.annotationTypes == old(base.annotationTypes)
      ensures base.classesTypeToImport == old(base.classesTypeToImport) && base.fields == old(base.fields)
    {
      base.codeLines := [PackageDeclaration(base.packageDefinition)];
      var fromMethods := ImportClassesFromMethods(methods, base.classesToImport);
      if fromMethods.Err? {
        return Err(fromMethods.error);
      }
      ImportsOnlyInsert(methods, base.classesToImport);
      base.classesToImport := fromMethods.value;
      TreeAddAllAppend(fromMethods.value, OverrideNames(), base.Collected());
      r := ImportClasses();
    }

    /** The declaration line: annotations, access word, name, the extends
        clause (whose names join the imports) and the implements clause. */
    method CreateDeclaration() returns (r: Result<string>)
      requires Valid()
      modifies base
      ensures Valid()
      ensures r.Err? <==> old(ClassDeclarationLine(base.annotationTypes, AccessWord(base.modifiers), base.className,
                                                   classExtended, interfacesImplements)).Err?
                          || TreeAddAll(old(base.classesToImport), ExtendsImports(classExtended)).Err?
      ensures r.Ok? ==> r == old(ClassDeclarationLine(base.annotationTypes, AccessWord(base.modifiers), base.className,
                                                      classExtended, interfacesImplements))
                        && Ok(base.classesToImport) == TreeAddAll(old(base.classesToImport), ExtendsImports(classExtended))
      ensures base.codeLines == old(base.codeLines) && base.modifiers == old(base.modifiers)
      ensures base.annotationTypes == old(base.annotationTypes) && base.classesTypeToImport == old(base.classesTypeToImport)
      ensures base.fields == old(base.fields)
    {
      var annotationLines := AllAnnotationLines(base.annotationTypes);
      if annotationLines.Err? {
        return Err(annotationLines.error);
      }
      var w := AccessWord(base.modifiers);
      var declaration := AppendTerminated(LINE_SEPARATOR, annotationLines.value);
      declaration := declaration + w + SPACE + "class" + SPACE + Show(base.className);
      var extendsText := AddClassExtendedToDeclaration();
      if extendsText.Err? {
        return Err(extendsText.error);
      }
      declaration := declaration + extendsText.value + ImplementsClause(interfacesImplements) + "{";
      return Ok(declaration);
    }

    /** The lines after the declaration: fields, accessors, constructors and
        methods. */
    method CreateBody() returns (fieldLines: seq<string>, accessors: seq<string>, constructorCode: seq<string>,
                                 methodCode: seq<string>)
      ensures fieldLines == CreateFields(base.fields) && accessors == AccessorLines(base.fields)
      ensures constructorCode == (if constructors.None? then [] else ConstructorCode(constructors.value, base.className))
      ensures methodCode == (if methods.None? then [] else MethodCode(methods.value))
    {
      fieldLines := CreateFields(base.fields);
      accessors := [];
      if base.fields.Some? && |base.fields.value| > 0 {
        accessors := CreateAccessors();
      }
      constructorCode := [];
      if constructors.Some? {
        constructorCode := CreateConstructorCode(constructors.value);
      }
      methodCode := [];
      if methods.Some? {
        methodCode := CreateMethodCode(methods.value);
      }
    }

    /** doBuildCode: the package line, the method names and this builder's
        names added to the set, the import lines, the declaration, fields,
        accessors, constructors, methods and "}". */
    method DoBuildCode() returns (r: Result<()>)
      requires Valid()
      modifies base
      ensures Valid()
      ensures r.Err? <==> old(Code()).Err?
      ensures r.Ok? ==> base.codeLines == old(Code()).value.codeLines
                        && base.classesToImport == old(Code()).value.classesToImport
      ensures base.modifiers == old(base.modifiers) && base.annotationTypes == old(base.annotationTypes)
      ensures base.classesTypeToImport == old(base.classesTypeToImport) && base.fields == old(base.fields)
    {
      ghost var expected := Code();
      var imported := ImportAll();
      if imported.Err? {
        return Err(imported.error);
      }
      ghost var importLines := base.codeLines[1..];
      var declaration := CreateDeclaration();
      if declaration.Err? {
        return Err(declaration.error);
      }
      var fieldLines, accessors, constructorCode, methodCode := CreateBody();
      ghost var p := base.codeLines[0];
      base.codeLines := base.codeLines + [declaration.value] + fieldLines + accessors + constructorCode + methodCode + ["}"];
      assert base.codeLines == ClassLines(p, importLines, declaration.value, fieldLines, accessors, constructorCode, methodCode);
      return Ok(());
    }

    /** build(): doBuildCode, then the definition. */
    method Build() returns (r: Result<Definition>)
      requires Valid()
      modifies base
      ensures Valid()
      ensures r.Err? <==> old(Code()).Err? || CreatePackagePath(base.packageDefinition).Err?
      ensures r.Ok? ==> r.value.codeLines == old(Code()).value.codeLines && r.value.className == base.className
                        && r.value.modifiers == base.modifiers
                        && Ok(r.value.packagePath) == CreatePackagePath(base.packageDefinition)
    {
      var built := DoBuildCode();
      if built.Err? {
        return Err(built.error);
      }
      r := base.MakeDefinition();
    }
  }

  // ---------------------------------------------------------------------------
  // What doBuildCode produces
  // ---------------------------------------------------------------------------

  /** A name that only the extends clause brings, and that is not skipped,
      gets no import line in this build, yet it is in the set afterwards,
      so the next build of the same builder emits it. */
  lemma ExtendsImportsMissed(b: ClassDefinitionBuilder, x: string)
    requires b.Code().Ok?
    requires Some(x) in ExtendsImports(b.classExtended) && x !in b.ImportSet().value
    ensures ImportLine(x) !in ImportLines(b.ImportSet().value, b.base.packageDefinition)
    ensures x in b.Code().value.classesToImport
  {
    ImportLinesIff(b.ImportSet().value, b.base.packageDefinition, x);
  }

  /** A superclass without generics renders as its name; with generics the
      arguments follow between "<" and ">", joined by ", ". */
  lemma ExtendsClauseShape(t: ClassType)
    requires t.name.Some?
    ensures |t.generics| == 0 ==> ExtendsClause(Some(t)) == Ok(" extends " + t.name.value)
    ensures |t.generics| > 0 ==>
              ExtendsClause(Some(t)) == Ok(" extends " + t.name.value + "<" + Join(ArgumentTexts(t.generics, false), ", ") + ">")
  {
    if |t.generics| > 0 {
      var args := Join(ArgumentTexts(t.generics, false), ", ");
      assert SuperTypeText(t, false) == Ok(t.name.value + "<" + args + ">");
      assert " extends " + (t.name.value + "<" + args + ">") == " extends " + t.name.value + "<" + args + ">";
    }
  }

  /** One implemented interface: its simple name between " implements " and
      a trailing space. */
  lemma ImplementsOne(t: ClassType)
    ensures ImplementsClause([t]) == " implements " + Show(ClassName(t)) + " "
  {
    assert ClassNames([t]) == [Show(ClassName(t))];
    assert Join([Show(ClassName(t))], COMMA_SPACE) == Show(ClassName(t));
  }

  /** The accessors of two field lists, one after the other: field order is
      kept. */
  lemma {:induction false} AccessorsAppend(a: seq<FieldDefinition>, c: seq<FieldDefinition>)
    ensures Accessors(a + c) == Accessors(a) + Accessors(c)
    decreases |c|
  {
    if |c| == 0 {
      assert a + c == a;
    } else {
      var front := c[..|c| - 1];
      AccessorsLast(a, c);
      AccessorsAppend(a, front);
      AppendAssoc(Accessors(a), Accessors(front), FieldAccessors(c[|c| - 1]));
    }
  }

  /** One more field: its accessor blocks come last. */
  lemma AccessorsStep(fs: seq<FieldDefinition>, i: nat)
    requires i < |fs|
    ensures Accessors(fs[..i + 1]) == Accessors(fs[..i]) + FieldAccessors(fs[i])
  {
    assert fs[..i + 1][..i] == fs[..i];
  }

  /** Peeling the last field off a non-empty suffix. */
  lemma AccessorsLast(a: seq<FieldDefinition>, c: seq<FieldDefinition>)
    requires |c| > 0
    ensures Accessors(a + c) == Accessors(a + c[..|c| - 1]) + FieldAccessors(c[|c| - 1])
    ensures Accessors(c) == Accessors(c[..|c| - 1]) + FieldAccessors(c[|c| - 1])
  {
    assert (a + c)[..|a + c| - 1] == a + c[..|c| - 1];
    assert (a + c)[|a + c| - 1] == c[|c| - 1];
  }

  /** No flag, no accessor lines: the fields' lines alone precede the
      constructors. */
  lemma {:induction false} NoFlagsNoAccessors(fields: seq<FieldDefinition>)
    requires forall i | 0 <= i < |fields| :: !fields[i].setter && !fields[i].getter
    ensures Accessors(fields) == [] && AccessorCount(fields) == 0
    decreases |fields|
  {
    if |fields| > 0 {
      NoFlagsNoAccessors(fields[..|fields| - 1]);
    }
  }
}
