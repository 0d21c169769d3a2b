/** The state and the shared steps of the three unit builders (class,
    interface, record): package line, package path, field lines and the
    import resolver. The unit builders hold one of these and call into it. */
module Definitions {
  import opened Wrappers
  import opened Sequences
  import opened JStrings
  import opened Collections
  import opened Constants
  import opened Types
  import opened Modifiers
  import opened Indentation
  import opened Annotations
  import opened Fields
  import opened ImportNames

  /** "package %s;%n". */
  function PackageDeclaration(packageDefinition: JString): string {
    "package " + Show(packageDefinition) + ";" + LINE_SEPARATOR
  }

  /** The package line gives the package back. */
  lemma PackageDeclarationRoundTrip(packageDefinition: string)
    ensures var d := PackageDeclaration(Some(packageDefinition));
            |d| == |packageDefinition| + 10 && d[8..|d| - 2] == packageDefinition
            && d[..8] == "package " && d[|d| - 2..] == ";\n"
  {
  }

  /** Paths.get(first, more...): the path made of the non-empty names. */
  function PathOf(names: seq<string>): (r: seq<string>)
    ensures forall i | 0 <= i < |r| :: r[i] != ""
    ensures (forall i | 0 <= i < |names| :: names[i] != "") ==> r == names
    decreases |names|
  {
    if |names| == 0 then []
    else if names[0] == "" then PathOf(names[1..])
    else [names[0]] + PathOf(names[1..])
  }

  /** createPackagePath: split the package on literal dots; taking element 0
      of an empty split (a package made of dots only) is an
      ArrayIndexOutOfBoundsException, and a null package a null dereference. */
  function CreatePackagePath(packageDefinition: JString): (r: Result<seq<string>>)
    ensures packageDefinition.None? ==> r == Err(NullPointerException)
    ensures r.Err? && packageDefinition.Some? ==> r == Err(ArrayIndexOutOfBoundsException)
  {
    if packageDefinition.None? then Err(NullPointerException)
    else
      var parts := JavaSplit(packageDefinition.value, '.');
      if |parts| == 0 then Err(ArrayIndexOutOfBoundsException) else Ok(PathOf(parts))
  }

  /** A dotted package of non-empty names gives one path element per name. */
  lemma PackagePathOfNames(names: seq<string>)
    requires |names| > 0
    requires forall i | 0 <= i < |names| :: names[i] != "" && '.' !in names[i]
    ensures CreatePackagePath(Some(Join(names, "."))) == Ok(names)
  {
    var s := Join(names, ".");
    assert "." == ['.'];
    JoinSplitAll(names, '.');
    if |names| > 1 {
      assert s == names[0] + "." + Join(names[1..], ".");
      assert s[|names[0]|] == '.';
    } else {
      assert s == names[0];
    }
  }

  /** An empty package gives the empty path; one made of dots only fails. */
  lemma PackagePathEdgeCases()
    ensures CreatePackagePath(Some("")) == Ok([])
    ensures CreatePackagePath(Some(".")) == Err(ArrayIndexOutOfBoundsException)
  {
    assert RunLength(".", '.') == 0;
    assert "."[1..] == "";
    assert "."[..0] == "";
    assert SplitAll(".", '.') == ["", ""];
  }

  /** The source lines of the fields, field by field. */
  function FieldSourceLines(fields: seq<FieldDefinition>): seq<string>
    decreases |fields|
  {
    if |fields| == 0 then [] else FieldSourceLines(fields[..|fields| - 1]) + fields[|fields| - 1].sourceLines
  }

  /** createFields: every field's lines in insertion order, each prefixed by
      one indent; nothing when there are no fields. */
  function CreateFields(fields: Option<seq<FieldDefinition>>): (r: seq<string>)
    ensures fields.None? || |fields.value| == 0 ==> r == []
  {
    if fields.None? then [] else IndentAll(FieldSourceLines(fields.value), 1)
  }

  /** One more field adds its own lines, indented, at the end. */
  lemma CreateFieldsSnoc(fields: seq<FieldDefinition>, f: FieldDefinition)
    ensures CreateFields(Some(fields + [f])) == CreateFields(Some(fields)) + IndentAll(f.sourceLines, 1)
  {
    assert (fields + [f])[..|fields|] == fields;
    IndentAllConcat(FieldSourceLines(fields), f.sourceLines, 1);
  }

  /** Field class types with a non-blank package, by full class name. */
  function FieldClassNames(fields: seq<FieldDefinition>): seq<JString>
    decreases |fields|
  {
    if |fields| == 0 then []
    else
      var f := fields[0];
      var rest := FieldClassNames(fields[1..]);
      if f.classType.Some? && !IsBlankJ(f.classType.value.packageName) && !IsBlankJ(FullClassName(f.classType.value))
      then [FullClassName(f.classType.value)] + rest
      else rest
  }

  /** Field annotation classes, field by field. */
  function FieldAnnotationNames(fields: seq<FieldDefinition>): seq<JString>
    decreases |fields|
  {
    if |fields| == 0 then [] else AnnotationClassNames(fields[0].annotationTypes) + FieldAnnotationNames(fields[1..])
  }

  /** Everything the shared importClasses adds, in its order. */
  function CollectedNames(classesTypeToImport: seq<ClassType>, fields: Option<seq<FieldDefinition>>,
                          annotationTypes: seq<AnnotationType>): seq<JString> {
    FullClassNames(classesTypeToImport)
    + (if fields.None? then [] else FieldClassNames(fields.value) + FieldAnnotationNames(fields.value))
    + AnnotationClassNames(annotationTypes) + AttributeClassNames(annotationTypes)
  }

  /** A field's class type is imported only with a non-blank package. */
  lemma {:induction false} FieldClassNamesNeedPackage(fields: seq<FieldDefinition>, x: JString)
    requires x in FieldClassNames(fields)
    ensures exists i | 0 <= i < |fields| :: fields[i].classType.Some?
              && !IsBlankJ(fields[i].classType.value.packageName) && x == FullClassName(fields[i].classType.value)
    decreases |fields|
  {
    var f := fields[0];
    if !(f.classType.Some? && !IsBlankJ(f.classType.value.packageName) && !IsBlankJ(FullClassName(f.classType.value))
         && x == FullClassName(f.classType.value)) {
      FieldClassNamesNeedPackage(fields[1..], x);
      var i :| 0 <= i < |fields[1..]| && fields[1..][i].classType.Some?
               && !IsBlankJ(fields[1..][i].classType.value.packageName)
               && x == FullClassName(fields[1..][i].classType.value);
      assert fields[i + 1] == fields[1..][i];
    }
  }

  lemma {:induction false} FieldClassNamesCover(fields: seq<FieldDefinition>, k: nat)
    requires k < |fields| && fields[k].classType.Some? && !IsBlankJ(fields[k].classType.value.packageName)
    ensures FullClassName(fields[k].classType.value) in FieldClassNames(fields)
    decreases |fields|
  {
    if k > 0 {
      FieldClassNamesCover(fields[1..], k - 1);
    } else {
      var p := fields[0].classType.value.packageName.value;
      var n := FullClassName(fields[0].classType.value).value;
      var i :| 0 <= i < |p| && !IsWhitespace(p[i]);
      assert n[i] == p[i];
    }
  }

  /** The value build() returns. */
  datatype Definition = Definition(
    className: JString,
    modifiers: seq<Modifier>,
    packageDefinition: JString,
    packagePath: seq<string>,
    codeLines: seq<string>)

  /** The fields of the abstract DefinitionBuilder. */
  class DefinitionBuilder {
    const packageDefinition: JString
    const className: JString
    /** LinkedHashSets, in insertion order. */
    var modifiers: seq<Modifier>
    var classesTypeToImport: seq<ClassType>
    var annotationTypes: seq<AnnotationType>
    /** null until the first addField / addFields. */
    var fields: Option<seq<FieldDefinition>>
    /** The TreeSet: sorted, without duplicates. It is never cleared, so
        the names of one build stay for the next. */
    var classesToImport: seq<string>
    var codeLines: seq<string>

    ghost predicate Valid()
      reads this
    {
      Sorted(classesToImport) && Distinct(modifiers) && Distinct(classesTypeToImport)
      && Distinct(annotationTypes) && (fields.Some? ==> Distinct(fields.value))
    }

    constructor (packageDefinition: JString, className: JString)
      ensures Valid()
      ensures this.packageDefinition == packageDefinition && this.className == className
      ensures modifiers == [] && classesTypeToImport == [] && annotationTypes == []
      ensures fields == None && classesToImport == [] && codeLines == []
    {
      this.packageDefinition := packageDefinition;
      this.className := className;
      modifiers, classesTypeToImport, annotationTypes := [], [], [];
      fields, classesToImport, codeLines := None, [], [];
    }

    method AddClassToImport(c: ClassType)
      requires Valid()
      modifies this
      ensures Valid()
      ensures classesTypeToImport == Insert(old(classesTypeToImport), c)
      ensures modifiers == old(modifiers) && annotationTypes == old(annotationTypes) && fields == old(fields)
      ensures classesToImport == old(classesToImport) && codeLines == old(codeLines)
    {
      classesTypeToImport := Insert(classesTypeToImport, c);
    }

    method AddAnnotationType(a: AnnotationType)
      requires Valid()
      modifies this
      ensures Valid()
      ensures annotationTypes == Insert(old(annotationTypes), a)
      ensures modifiers == old(modifiers) && classesTypeToImport == old(classesTypeToImport) && fields == old(fields)
      ensures classesToImport == old(classesToImport) && codeLines == old(codeLines)
    {
      annotationTypes := Insert(annotationTypes, a);
    }

    method AddModifier(m: Modifier)
      requires Valid()
      modifies this
      ensures Valid()
      ensures modifiers == Insert(old(modifiers), m)
      ensures annotationTypes == old(annotationTypes) && classesTypeToImport == old(classesTypeToImport)
      ensures fields == old(fields) && classesToImport == old(classesToImport) && codeLines == old(codeLines)
    {
      modifiers := Insert(modifiers, m);
    }

    /** addField: creates the set on first use. */
    method AddField(f: FieldDefinition)
      requires Valid()
      modifies this
      ensures Valid()
      ensures fields == Some(Insert(if old(fields).None? then [] else old(fields).value, f))
      ensures modifiers == old(modifiers) && annotationTypes == old(annotationTypes)
      ensures classesTypeToImport == old(classesTypeToImport)
      ensures classesToImport == old(classesToImport) && codeLines == old(codeLines)
    {
      var current := if fields.None? then [] else fields.value;
      fields := Some(Insert(current, f));
    }

    /** addFields: creates the set on first use, then adds all in order. */
    method AddFields(fs: seq<FieldDefinition>)
      requires Valid()
      modifies this
      ensures Valid()
      ensures fields == Some(InsertAll(if old(fields).None? then [] else old(fields).value, fs))
      ensures modifiers == old(modifiers) && annotationTypes == old(annotationTypes)
      ensures classesTypeToImport == old(classesTypeToImport)
      ensures classesToImport == old(classesToImport) && codeLines == old(codeLines)
    {
      var current := if fields.None? then [] else fields.value;
      fields := Some(InsertAll(current, fs));
    }

    function Collected(): seq<JString>
      reads this
    {
      CollectedNames(classesTypeToImport, fields, annotationTypes)
    }

    /** The shared importClasses: add the collected names to the TreeSet,
        then append one import line per name that is not skipped, in the
        set's order. A null name is a NullPointerException. */
    method ImportClasses() returns (r: Result<()>)
      requires Valid()
      modifies this
      ensures Valid()
      ensures r.Err? <==> TreeAddAll(old(classesToImport), old(Collected())).Err?
      ensures r.Err? ==> r == Err(NullPointerException)
                         && classesToImport == old(classesToImport) && codeLines == old(codeLines)
      ensures r.Ok? ==> classesToImport == TreeAddAll(old(classesToImport), old(Collected())).value
                        && codeLines == old(codeLines) + ImportLines(classesToImport, packageDefinition)
      ensures modifiers == old(modifiers) && annotationTypes == old(annotationTypes)
      ensures classesTypeToImport == old(classesTypeToImport) && fields == old(fields)
    {
      var names := Collected();
      var grown := TreeAddAll(classesToImport, names);
      if grown.Err? {
        return Err(NullPointerException);
      }
      TreeAddAllSorted(classesToImport, names);
      var lines := AppendImportLines(codeLines, grown.value, packageDefinition);
      classesToImport := grown.value;
      codeLines := lines;
      return Ok(());
    }

    /** build() after doBuildCode: the unit's values, its code lines and the
        package path. */
    function MakeDefinition(): (r: Result<Definition>)
      reads this
      ensures r.Err? <==> CreatePackagePath(packageDefinition).Err?
      ensures r.Ok? ==> r.value.codeLines == codeLines && r.value.className == className
                        && r.value.modifiers == modifiers && r.value.packageDefinition == packageDefinition
                        && Ok(r.value.packagePath) == CreatePackagePath(packageDefinition)
    {
      var path :- CreatePackagePath(packageDefinition);
      Ok(Definition(className, modifiers, packageDefinition, path, codeLines))
    }
  }

  /** The loop of importClasses: one import line per name of `sorted` that
      is not skipped, appended to `start` in order. */
  method AppendImportLines(start: seq<string>, sorted: seq<string>, packageDefinition: JString)
    returns (lines: seq<string>)
    ensures lines == start + ImportLines(sorted, packageDefinition)
  {
    lines := start;
    var i := 0;
    while i < |sorted|
      invariant 0 <= i <= |sorted|
      invariant lines == start + ImportLines(sorted[..i], packageDefinition)
    {
      ImportLinesSnoc(sorted[..i], sorted[i], packageDefinition);
      assert sorted[..i + 1] == sorted[..i] + [sorted[i]];
      if !Skipped(sorted[i], packageDefinition) {
        AppendAssoc(start, ImportLines(sorted[..i], packageDefinition), [ImportLine(sorted[i])]);
        lines := lines + [ImportLine(sorted[i])];
      }
      i := i + 1;
    }
    assert sorted[..i] == sorted;
  }

  /** Appending one more set member appends its line unless it is skipped. */
  lemma {:induction false} ImportLinesSnoc(s: seq<string>, x: string, packageDefinition: JString)
    ensures ImportLines(s + [x], packageDefinition)
         == ImportLines(s, packageDefinition) + (if Skipped(x, packageDefinition) then [] else [ImportLine(x)])
  {
    ImportedNamesSnoc(s, x, packageDefinition);
  }

  lemma {:induction false} ImportedNamesSnoc(s: seq<string>, x: string, packageDefinition: JString)
    ensures ImportedNames(s + [x], packageDefinition)
         == ImportedNames(s, packageDefinition) + (if Skipped(x, packageDefinition) then [] else [x])
    decreases |s|
  {
    if |s| == 0 {
      assert s + [x] == [x];
      assert ([x])[1..] == [];
    } else {
      assert (s + [x])[0] == s[0];
      assert (s + [x])[1..] == s[1..] + [x];
      ImportedNamesSnoc(s[1..], x, packageDefinition);
    }
  }
}
