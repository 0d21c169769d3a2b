/** The names the import resolver collects, and the "import X;" lines it
    emits from the sorted set of collected names. A collected name is a
    JString: a null stands for a null that reaches the TreeSet, or for the
    null dereference that would have produced it. */
module ImportNames {
  import opened Wrappers
  import opened JStrings
  import opened Collections
  import opened Constants
  import opened Types
  import opened Annotations

  /** getFullClassName of each type, in order. */
  function FullClassNames(types: seq<ClassType>): (r: seq<JString>)
    ensures |r| == |types| && forall i | 0 <= i < |types| :: r[i] == FullClassName(types[i])
  {
    seq(|types|, i requires 0 <= i < |types| => FullClassName(types[i]))
  }

  /** The full class names of the ClassType values of a generics map, in map
      order; raw-string values contribute nothing. */
  function GenericClassNames(generics: seq<Entry<GenArg>>): seq<JString>
    decreases |generics|
  {
    if |generics| == 0 then []
    else match generics[0].value
      case T(c) => [FullClassName(c)] + GenericClassNames(generics[1..])
      case Raw(_) => GenericClassNames(generics[1..])
  }

  /** Every ClassType value of the map is among the collected names. */
  lemma {:induction false} GenericClassNamesCover(generics: seq<Entry<GenArg>>, i: nat)
    requires i < |generics| && generics[i].value.T?
    ensures FullClassName(generics[i].value.classType) in GenericClassNames(generics)
    decreases |generics|
  {
    if i > 0 {
      GenericClassNamesCover(generics[1..], i - 1);
    }
  }

  /** Nothing but the ClassType values is collected. */
  lemma {:induction false} GenericClassNamesOnly(generics: seq<Entry<GenArg>>, x: JString)
    requires x in GenericClassNames(generics)
    ensures exists i | 0 <= i < |generics| :: generics[i].value.T? && x == FullClassName(generics[i].value.classType)
    decreases |generics|
  {
    if generics[0].value.T? && x == FullClassName(generics[0].value.classType) {
    } else {
      GenericClassNamesOnly(generics[1..], x);
      var i :| 0 <= i < |generics[1..]| && generics[1..][i].value.T?
               && x == FullClassName(generics[1..][i].value.classType);
      assert generics[i + 1] == generics[1..][i];
    }
  }

  /** annotationType.getClassType().getFullClassName(): a missing class type is
      a null dereference. */
  function AnnotationClassName(a: AnnotationType): JString {
    if a.classType.None? then None else FullClassName(a.classType.value)
  }

  function AnnotationClassNames(annotations: seq<AnnotationType>): (r: seq<JString>)
    ensures |r| == |annotations| && forall i | 0 <= i < |annotations| :: r[i] == AnnotationClassName(annotations[i])
  {
    seq(|annotations|, i requires 0 <= i < |annotations| => AnnotationClassName(annotations[i]))
  }

  /** The full class names of the ClassType-valued attributes of each
      annotation, annotation by annotation, in map order. */
  function AttributeClassNames(annotations: seq<AnnotationType>): seq<JString>
    decreases |annotations|
  {
    if |annotations| == 0 then []
    else
      var last := annotations[|annotations| - 1];
      AttributeClassNames(annotations[..|annotations| - 1]) + ValueClassNames(last.attributes)
  }

  function ValueClassNames(attributes: seq<Entry<AttrValue>>): seq<JString>
    decreases |attributes|
  {
    if |attributes| == 0 then []
    else match attributes[0].value
      case Cls(c) => [FullClassName(c)] + ValueClassNames(attributes[1..])
      case _ => ValueClassNames(attributes[1..])
  }

  /** Every ClassType-valued attribute of every annotation is collected. */
  lemma {:induction false} AttributeClassNamesCover(annotations: seq<AnnotationType>, i: nat, k: nat)
    requires i < |annotations| && k < |annotations[i].attributes|
    requires annotations[i].attributes[k].value.Cls?
    ensures FullClassName(annotations[i].attributes[k].value.classType) in AttributeClassNames(annotations)
    decreases |annotations|
  {
    ValueClassNamesCover(annotations[i].attributes, k);
    if i < |annotations| - 1 {
      AttributeClassNamesCover(annotations[..|annotations| - 1], i, k);
    }
  }

  lemma {:induction false} ValueClassNamesCover(attributes: seq<Entry<AttrValue>>, k: nat)
    requires k < |attributes| && attributes[k].value.Cls?
    ensures FullClassName(attributes[k].value.classType) in ValueClassNames(attributes)
    decreases |attributes|
  {
    if k > 0 {
      ValueClassNamesCover(attributes[1..], k - 1);
    }
  }

  // ---------------------------------------------------------------------------
  // Emitting the import lines
  // ---------------------------------------------------------------------------

  /** A collected name is not imported when it is "Override", or when its
      text before the last "." (the whole name if it has no ".") equals the
      package being generated. */
  predicate Skipped(name: string, packageDefinition: JString) {
    name == "Override" || Some(SubstringBeforeLast(name, PERIOD)) == packageDefinition
  }

  /** The names that get an import line, in the set's order. */
  function ImportedNames(classesToImport: seq<string>, packageDefinition: JString): (r: seq<string>)
    ensures forall x :: x in r <==> x in classesToImport && !Skipped(x, packageDefinition)
    decreases |classesToImport|
  {
    if |classesToImport| == 0 then []
    else
      var rest := ImportedNames(classesToImport[1..], packageDefinition);
      if Skipped(classesToImport[0], packageDefinition) then rest else [classesToImport[0]] + rest
  }

  function ImportLine(name: string): string {
    "import " + name + ";"
  }

  /** One "import X;" line per imported name. */
  function ImportLines(classesToImport: seq<string>, packageDefinition: JString): (r: seq<string>)
    ensures |r| == |ImportedNames(classesToImport, packageDefinition)|
  {
    var names := ImportedNames(classesToImport, packageDefinition);
    seq(|names|, i requires 0 <= i < |names| => ImportLine(names[i]))
  }

  /** A line "import X;" determines X. */
  lemma ImportLineInjective(a: string, b: string)
    requires ImportLine(a) == ImportLine(b)
    ensures a == b
  {
    assert a == ImportLine(a)[7..|ImportLine(a)| - 1];
    assert b == ImportLine(b)[7..|ImportLine(b)| - 1];
  }

  /** There is an import line for X exactly when X was collected and is not
      skipped. */
  lemma ImportLinesIff(classesToImport: seq<string>, packageDefinition: JString, x: string)
    ensures ImportLine(x) in ImportLines(classesToImport, packageDefinition)
        <==> x in classesToImport && !Skipped(x, packageDefinition)
  {
    var names := ImportedNames(classesToImport, packageDefinition);
    var lines := ImportLines(classesToImport, packageDefinition);
    if ImportLine(x) in lines {
      var i :| 0 <= i < |lines| && lines[i] == ImportLine(x);
      ImportLineInjective(names[i], x);
    }
    if x in names {
      var i :| 0 <= i < |names| && names[i] == x;
      assert lines[i] == ImportLine(x);
    }
  }

  /** The imported names keep the TreeSet's sorted order. */
  lemma {:induction false} ImportedNamesSorted(classesToImport: seq<string>, packageDefinition: JString)
    requires Sorted(classesToImport)
    ensures Sorted(ImportedNames(classesToImport, packageDefinition))
    decreases |classesToImport|
  {
    if |classesToImport| > 0 {
      assert Sorted(classesToImport[1..]);
      ImportedNamesSorted(classesToImport[1..], packageDefinition);
      var rest := ImportedNames(classesToImport[1..], packageDefinition);
      if !Skipped(classesToImport[0], packageDefinition) {
        var r := [classesToImport[0]] + rest;
        forall i, j | 0 <= i < j < |r| ensures LexLess(r[i], r[j]) {
          if i == 0 {
            assert r[j] in classesToImport[1..];
          } else {
            assert r[i] == rest[i - 1] && r[j] == rest[j - 1];
          }
        }
      }
    }
  }

  /** A class of the generated package itself is never imported. */
  lemma SamePackageNotImported(packageName: string, name: string)
    requires |packageName| > 0 && '.' !in name
    ensures Skipped(packageName + "." + name, Some(packageName))
  {
    LastDotBefore(packageName, name);
  }

  /** A name without "." is compared whole with the package. */
  lemma UndottedNameComparedWhole(name: string)
    requires '.' !in name
    ensures SubstringBeforeLast(name, PERIOD) == name
  {
    forall j | 0 <= j <= |name| ensures !OccursAt(name, PERIOD, j) {
      if j < |name| {
        assert name[j] != '.';
      }
    }
  }
}
