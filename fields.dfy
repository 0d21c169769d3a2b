/** Field descriptors: a field renders as its annotation lines, one
    declaration line and an empty line. */
module Fields {
  import opened Wrappers
  import opened JStrings
  import opened Collections
  import opened Types
  import opened Modifiers
  import opened Annotations

  /** The type written in the declaration: a non-blank native type name
      wins; otherwise the class type's name, which fails on a null class. */
  function DeclaredType(nativeType: JString, classType: Option<ClassType>): (r: Result<string>)
    ensures !IsBlankJ(nativeType) ==> r == Ok(nativeType.value)
    ensures IsBlankJ(nativeType) ==> (r.Err? <==> classType.None?)
    ensures IsBlankJ(nativeType) && classType.Some? ==> r == Ok(Show(ClassName(classType.value)))
  {
    if IsBlankJ(nativeType) then
      if classType.None? then Err(NullPointerException) else Ok(Show(ClassName(classType.value)))
    else Ok(nativeType.value)
  }

  /** The text after the name: " = value" for a non-blank default, else nothing. */
  function DefaultPart(defaultValue: JString): (r: string)
    ensures IsBlankJ(defaultValue) <==> r == ""
  {
    if IsBlankJ(defaultValue) then "" else " = " + defaultValue.value
  }

  /** access word, a space, the type, a space, the name, the default and ";". */
  function DeclarationLine(modifiers: seq<Modifier>, nativeType: JString, classType: Option<ClassType>,
                           fieldName: JString, defaultValue: JString): (r: Result<string>)
    ensures r.Err? <==> DeclaredType(nativeType, classType).Err?
    ensures r.Ok? ==> |r.value| > 0 && r.value[|r.value| - 1] == ';'
  {
    var t :- DeclaredType(nativeType, classType);
    Ok(AccessWord(modifiers) + SPACE + t + SPACE + Show(fieldName) + DefaultPart(defaultValue) + ";")
  }

  /** createSourceLine, as a function: the annotation lines in order, the
      declaration line, and one empty line. */
  function FieldLines(annotations: seq<AnnotationType>, modifiers: seq<Modifier>, nativeType: JString,
                      classType: Option<ClassType>, fieldName: JString, defaultValue: JString): (r: Result<seq<string>>)
    ensures r.Err? <==> AllAnnotationLines(annotations).Err? || DeclaredType(nativeType, classType).Err?
    ensures r.Ok? ==> var a := AllAnnotationLines(annotations).value;
                      |r.value| == |a| + 2 && r.value[..|a|] == a && r.value[|a| + 1] == ""
                      && Ok(r.value[|a|]) == DeclarationLine(modifiers, nativeType, classType, fieldName, defaultValue)
  {
    var a :- AllAnnotationLines(annotations);
    var d :- DeclarationLine(modifiers, nativeType, classType, fieldName, defaultValue);
    Ok(a + [d, EMPTY])
  }

  /** A field without an access modifier is declared with a leading space. */
  lemma {:induction false} NoModifierLeadingSpace(modifiers: seq<Modifier>, nativeType: JString,
                                                 classType: Option<ClassType>, fieldName: JString, defaultValue: JString)
    requires forall m | m in ACCESS_MODIFIERS :: m !in modifiers
    requires DeclarationLine(modifiers, nativeType, classType, fieldName, defaultValue).Ok?
    ensures DeclarationLine(modifiers, nativeType, classType, fieldName, defaultValue).value[0] == ' '
  {
    DeclarationOrdersAreIterationOrders();
    assert AccessWord(modifiers) == "";
  }

  /** A plain declaration, spelled out: "private String name;" and, with a
      default, "private String name = value;". */
  lemma PrivateFieldDeclaration(nativeType: string, fieldName: string, defaultValue: JString)
    requires !IsBlank(nativeType)
    ensures DeclarationLine([PRIVATE], Some(nativeType), None, Some(fieldName), defaultValue)
         == Ok("private" + " " + nativeType + " " + fieldName + DefaultPart(defaultValue) + ";")
  {
    PrivateAccessWord();
    var t := DeclaredType(Some(nativeType), None);
    assert t == Ok(nativeType);
  }

  lemma PrivateAccessWord()
    ensures AccessWord([PRIVATE]) == "private"
  {
    assert PUBLIC !in [PRIVATE];
    assert FirstPresent(ACCESS_ORDER, [PRIVATE]) == FirstPresent(ACCESS_ORDER[1..], [PRIVATE]);
    assert ACCESS_ORDER[1..][0] == PRIVATE;
    WordsAreKeywords();
  }

  /** When both a native name and a class type are given, the declaration
      uses the native name while getFieldType reports the class name. */
  lemma TypePrecedenceDiffers(nativeType: string, classType: ClassType)
    requires !IsBlank(nativeType) && classType.name.Some? && classType.name.value != nativeType
    ensures DeclaredType(Some(nativeType), Some(classType)) == Ok(nativeType)
    ensures FieldType(Some(classType), Some(nativeType)) == classType.name
    ensures FieldType(Some(classType), Some(nativeType)) != Some(nativeType)
  {
  }

  /** getFieldType: Optional.ofNullable(classType).map(getClassName)
      .orElse(nativeType) — the class name when there is a class with a
      non-null name, the native name otherwise. */
  function FieldType(classType: Option<ClassType>, nativeType: JString): (r: JString)
    ensures classType.Some? && classType.value.name.Some? ==> r == classType.value.name
    ensures classType.None? || classType.value.name.None? ==> r == nativeType
  {
    match classType
    case Some(c) => if c.name.Some? then c.name else nativeType
    case None => nativeType
  }

  /** FieldDefinition: the values captured by build(). */
  class FieldDefinition {
    const annotationTypes: seq<AnnotationType>
    const defaultValue: JString
    const fieldName: JString
    const nativeType: JString
    const classType: Option<ClassType>
    const modifiers: seq<Modifier>
    const setter: bool
    const getter: bool
    const sourceLines: seq<string>

    constructor (s: FieldState, sourceLines: seq<string>)
      ensures StateOf() == s && this.sourceLines == sourceLines
    {
      annotationTypes := s.annotationTypes;
      defaultValue := s.defaultValue;
      fieldName := s.fieldName;
      nativeType := s.nativeType;
      classType := s.classType;
      modifiers := s.modifiers;
      setter := s.setter;
      getter := s.getter;
      this.sourceLines := sourceLines;
    }

    function StateOf(): FieldState {
      FieldState(fieldName, nativeType, annotationTypes, classType, modifiers, setter, getter, defaultValue)
    }

    function GetFieldType(): (r: JString)
      ensures r == FieldType(classType, nativeType)
    {
      FieldType(classType, nativeType)
    }
  }

  /** Everything a field builder holds. */
  datatype FieldState = FieldState(
    fieldName: JString,
    nativeType: JString,
    annotationTypes: seq<AnnotationType>,
    classType: Option<ClassType>,
    modifiers: seq<Modifier>,
    setter: bool,
    getter: bool,
    defaultValue: JString)

  ghost predicate ValidState(s: FieldState) {
    Distinct(s.annotationTypes) && Distinct(s.modifiers)
  }

  function LinesOf(s: FieldState): Result<seq<string>> {
    FieldLines(s.annotationTypes, s.modifiers, s.nativeType, s.classType, s.fieldName, s.defaultValue)
  }

  class FieldDefinitionBuilder {
    var fieldName: JString
    var nativeType: JString
    /** LinkedHashSets, in insertion order. */
    var annotationTypes: seq<AnnotationType>
    var classType: Option<ClassType>
    var modifiers: seq<Modifier>
    var setter: bool
    var getter: bool
    var defaultValue: JString

    function State(): FieldState
      reads this
    {
      FieldState(fieldName, nativeType, annotationTypes, classType, modifiers, setter, getter, defaultValue)
    }

    ghost predicate Valid()
      reads this
    {
      ValidState(State())
    }

    constructor ()
      ensures Valid()
      ensures State() == FieldState(None, None, [], None, [], false, false, None)
    {
      fieldName, nativeType, annotationTypes, classType := None, None, [], None;
      modifiers, setter, getter, defaultValue := [], false, false, None;
    }

    method FieldName(n: JString) returns (self: FieldDefinitionBuilder)
      modifies this
      ensures self == this && State() == old(State()).(fieldName := n)
    {
      fieldName := n;
      self := this;
    }

    method NativeType(t: JString) returns (self: FieldDefinitionBuilder)
      modifies this
      ensures self == this && State() == old(State()).(nativeType := t)
    {
      nativeType := t;
      self := this;
    }

    method ClassType(c: Option<ClassType>) returns (self: FieldDefinitionBuilder)
      modifies this
      ensures self == this && State() == old(State()).(classType := c)
    {
      classType := c;
      self := this;
    }

    method AddModifier(m: Modifier) returns (self: FieldDefinitionBuilder)
      requires Valid()
      modifies this
      ensures self == this && Valid()
      ensures State() == old(State()).(modifiers := Insert(old(modifiers), m))
    {
      modifiers := Insert(modifiers, m);
      self := this;
    }

    method AddAnnotationType(a: AnnotationType) returns (self: FieldDefinitionBuilder)
      requires Valid()
      modifies this
      ensures self == this && Valid()
      ensures State() == old(State()).(annotationTypes := Insert(old(annotationTypes), a))
    {
      annotationTypes := Insert(annotationTypes, a);
      self := this;
    }

    method Setter(b: bool) returns (self: FieldDefinitionBuilder)
      modifies this
      ensures self == this && State() == old(State()).(setter := b)
    {
      setter := b;
      self := this;
    }

    method Getter(b: bool) returns (self: FieldDefinitionBuilder)
      modifies this
      ensures self == this && State() == old(State()).(getter := b)
    {
      getter := b;
      self := this;
    }

    method DefaultValue(v: JString) returns (self: FieldDefinitionBuilder)
      modifies this
      ensures self == this && State() == old(State()).(defaultValue := v)
    {
      defaultValue := v;
      self := this;
    }

    /** createSourceLine: the annotation lines, then the declaration line
        appended piece by piece, then an empty line. */
    method CreateSourceLine() returns (r: Result<seq<string>>)
      ensures r == LinesOf(State())
    {
      var lines := CollectAnnotationLines(annotationTypes);
      if lines.Err? {
        return Err(NullPointerException);
      }
      var sourceLine := AccessWord(modifiers) + SPACE;
      if IsBlankJ(nativeType) {
        if classType.None? {
          return Err(NullPointerException);
        }
        sourceLine := sourceLine + Show(ClassName(classType.value));
      } else {
        sourceLine := sourceLine + nativeType.value;
      }
      sourceLine := sourceLine + SPACE + Show(fieldName);
      if !IsBlankJ(defaultValue) {
        assert sourceLine + " = " + defaultValue.value == sourceLine + DefaultPart(defaultValue);
        sourceLine := sourceLine + " = " + defaultValue.value;
      } else {
        assert sourceLine == sourceLine + DefaultPart(defaultValue);
      }
      sourceLine := sourceLine + ";";
      return Ok(lines.value + [sourceLine, EMPTY]);
    }

    /** build: a new definition with the builder's values and its lines. */
    method Build() returns (r: Result<FieldDefinition>)
      ensures r.Err? <==> LinesOf(State()).Err?
      ensures r.Ok? ==> fresh(r.value) && r.value.StateOf() == State()
                        && Ok(r.value.sourceLines) == LinesOf(State())
    {
      var lines := CreateSourceLine();
      if lines.Err? {
        return Err(lines.error);
      }
      var d := new FieldDefinition(State(), lines.value);
      return Ok(d);
    }
  }
}
