/** The record renderer: package line, imports, an empty line, the record
    header with one component per field, and the closing brace. */
module RecordDefinitions {
  import opened Wrappers
  import opened JStrings
  import opened Collections
  import opened Constants
  import opened Modifiers
  import opened Types
  import opened Fields
  import opened ImportNames
  import opened Definitions

  /** getFieldType() + " " + getFieldName(), a null printed as "null". */
  function Component(f: FieldDefinition): string {
    Show(f.GetFieldType()) + SPACE + Show(f.fieldName)
  }

  function Components(fields: seq<FieldDefinition>): (r: seq<string>)
    ensures |r| == |fields| && forall i | 0 <= i < |fields| :: r[i] == Component(fields[i])
  {
    seq(|fields|, i requires 0 <= i < |fields| => Component(fields[i]))
  }

  /** The component list between the parentheses: the components joined by
      ", ", nothing without fields. */
  function ComponentList(fields: Option<seq<FieldDefinition>>): (r: string)
    ensures fields.None? || |fields.value| == 0 ==> r == ""
  {
    if fields.None? then "" else Join(Components(fields.value), COMMA_SPACE)
  }

  /** The access word + " record " + name + "(" + components + ") {". */
  function RecordHeader(accessWord: string, className: JString, fields: Option<seq<FieldDefinition>>): string {
    accessWord + SPACE + "record " + Show(className) + "(" + ComponentList(fields) + ")" + " {"
  }

  class RecordDefinitionBuilder {
    const base: DefinitionBuilder

    ghost predicate Valid()
      reads this, base
    {
      base.Valid()
    }

    constructor (packageDefinition: JString, className: JString)
      ensures Valid() && fresh(base)
      ensures base.packageDefinition == packageDefinition && base.className == className
      ensures base.modifiers == [] && base.classesTypeToImport == [] && base.annotationTypes == []
      ensures base.fields == None && base.classesToImport == [] && base.codeLines == []
    {
      base := new DefinitionBuilder(packageDefinition, className);
    }

    /** doBuildCode: only the inherited importClasses adds to the set; the
        fields appear as components and nowhere else. */
    method DoBuildCode() returns (r: Result<()>)
      requires Valid()
      modifies base
      ensures Valid()
      ensures r.Err? <==> TreeAddAll(old(base.classesToImport), old(base.Collected())).Err?
      ensures r.Ok? ==> base.classesToImport == TreeAddAll(old(base.classesToImport), old(base.Collected())).value
                        && base.codeLines == [PackageDeclaration(base.packageDefinition)]
                                             + ImportLines(base.classesToImport, base.packageDefinition)
                                             + ["", RecordHeader(AccessWord(base.modifiers), base.className, base.fields), "}"]
      ensures base.modifiers == old(base.modifiers) && base.annotationTypes == old(base.annotationTypes)
      ensures base.classesTypeToImport == old(base.classesTypeToImport) && base.fields == old(base.fields)
    {
      base.codeLines := [PackageDeclaration(base.packageDefinition)];
      r := base.ImportClasses();
      if r.Err? {
        return;
      }
      var header := RecordHeader(AccessWord(base.modifiers), base.className, base.fields);
      base.codeLines := base.codeLines + ["", header, "}"];
    }

    /** build(): doBuildCode, then the definition. */
    method Build() returns (r: Result<Definition>)
      requires Valid()
      modifies base
      ensures Valid()
      ensures r.Err? <==> TreeAddAll(old(base.classesToImport), old(base.Collected())).Err?
                          || CreatePackagePath(base.packageDefinition).Err?
      ensures r.Ok? ==> r.value.codeLines == [PackageDeclaration(base.packageDefinition)]
                                             + ImportLines(base.classesToImport, base.packageDefinition)
                                             + ["", RecordHeader(AccessWord(base.modifiers), base.className, base.fields), "}"]
                        && Ok(r.value.packagePath) == CreatePackagePath(base.packageDefinition)
    {
      var built := DoBuildCode();
      if built.Err? {
        return Err(built.error);
      }
      r := base.MakeDefinition();
    }
  }

  /** Without fields (none added, or an empty set) the header ends in
      "() {": the parentheses are empty. */
  lemma EmptyRecordHeader(accessWord: string, className: JString, fields: Option<seq<FieldDefinition>>)
    requires fields.None? || |fields.value| == 0
    ensures var h := RecordHeader(accessWord, className, fields);
            |h| >= 4 && h[|h| - 4..] == "() {"
  {
    var front := accessWord + SPACE + "record " + Show(className);
    assert RecordHeader(accessWord, className, fields) == front + "() {";
  }

  /** Two fields render as two components, in insertion order, separated by
      ", ". */
  lemma TwoComponents(f: FieldDefinition, g: FieldDefinition)
    ensures ComponentList(Some([f, g])) == Component(f) + ", " + Component(g)
  {
    var cs := Components([f, g]);
    assert cs == [Component(f), Component(g)];
    assert cs[1..] == [Component(g)];
    assert Join(cs[1..], COMMA_SPACE) == Component(g);
    assert Join(cs, COMMA_SPACE) == Component(f) + COMMA_SPACE + Component(g);
  }

  /** A component names the field's class type when it has one with a name,
      its native type otherwise. */
  lemma ComponentType(f: FieldDefinition)
    ensures f.classType.Some? && f.classType.value.name.Some? ==>
              Component(f) == f.classType.value.name.value + " " + Show(f.fieldName)
    ensures f.classType.None? ==> Component(f) == Show(f.nativeType) + " " + Show(f.fieldName)
  {
  }

  /** The record output is exactly four lines more than its import lines. */
  lemma RecordLayout(b: RecordDefinitionBuilder, lines: seq<string>)
    requires lines == [PackageDeclaration(b.base.packageDefinition)]
                      + ImportLines(b.base.classesToImport, b.base.packageDefinition)
                      + ["", RecordHeader(AccessWord(b.base.modifiers), b.base.className, b.base.fields), "}"]
    ensures var n := |ImportLines(b.base.classesToImport, b.base.packageDefinition)|;
            |lines| == n + 4 && lines[n + 1] == "" && lines[|lines| - 1] == "}"
            && lines[1..n + 1] == ImportLines(b.base.classesToImport, b.base.packageDefinition)
  {
  }

  /** A field class type with a non-blank package reaches the import set
      through the shared importClasses, although the field renders no
      declaration of its own. */
  lemma FieldTypeImported(b: RecordDefinitionBuilder, k: nat)
    requires b.base.fields.Some? && k < |b.base.fields.value|
    requires b.base.fields.value[k].classType.Some? && !IsBlankJ(b.base.fields.value[k].classType.value.packageName)
    requires TreeAddAll(b.base.classesToImport, b.base.Collected()).Ok?
    ensures FullClassName(b.base.fields.value[k].classType.value).Some?
    ensures FullClassName(b.base.fields.value[k].classType.value).value
            in TreeAddAll(b.base.classesToImport, b.base.Collected()).value
  {
    var fs := b.base.fields.value;
    FieldClassNamesCover(fs, k);
    assert FullClassName(fs[k].classType.value) in b.base.Collected();
  }
}
