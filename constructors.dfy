/** Constructor descriptors. The class name is not known here: the
    signature carries the `{_CLASSNAME_}` placeholder, which the class
    builder replaces. */
module Constructors {
  import opened Wrappers
  import opened Sequences
  import opened JStrings
  import opened Collections
  import opened Constants
  import opened Modifiers
  import opened Indentation
  import opened Annotations
  import opened Parameters
  import opened Members

  /** [access word + " "] + " " + placeholder + "(" + parameters + ")". The
      extra space is always appended, so a constructor with an access word
      has two spaces before the placeholder, and one without has a leading
      space. */
  function ConstructorSignature(modifiers: seq<Modifier>, parameterList: string): string {
    ModifierPrefix(modifiers) + SPACE + CLASSNAME_PARAMETER + "(" + parameterList + ")"
  }

  /** Everything a constructor builder holds. */
  datatype ConstructorState = ConstructorState(
    modifiers: seq<Modifier>,
    parameters: seq<ParameterDefinition>,
    annotationTypes: seq<AnnotationType>,
    body: JString)

  ghost predicate ValidState(s: ConstructorState) {
    Distinct(s.modifiers) && Distinct(s.parameters) && Distinct(s.annotationTypes)
  }

  /** createSourceLines, as a function: the annotation lines, then the lines of
      the signature followed by the body block. */
  function ConstructorLines(s: ConstructorState): (r: Result<seq<string>>)
    ensures r.Err? <==> AllAnnotationLines(s.annotationTypes).Err? || ParameterList(s.parameters).Err?
    ensures r.Ok? ==> var a := AllAnnotationLines(s.annotationTypes).value;
                      |r.value| >= |a| && r.value[..|a|] == a
  {
    var a :- AllAnnotationLines(s.annotationTypes);
    var p :- ParameterList(s.parameters);
    var lines := a + JavaLines(ConstructorSignature(s.modifiers, p) + BlockText(s.body));
    assert lines[..|a|] == a;
    Ok(lines)
  }

  /** The placeholder is a single line. */
  lemma PlaceholderHasNoTerminator()
    ensures NoTerminator(CLASSNAME_PARAMETER)
  {
    NoTerminatorByMembership(CLASSNAME_PARAMETER);
  }

  /** The signature holds no line terminator when the parameter list holds
      none. */
  lemma SignatureHasNoTerminator(modifiers: seq<Modifier>, parameterList: string)
    requires NoTerminator(parameterList)
    ensures NoTerminator(ConstructorSignature(modifiers, parameterList))
  {
    var prefix := ModifierPrefix(modifiers);
    PrefixHasNoTerminator(modifiers);
    assert NoTerminator(SPACE) && NoTerminator("(") && NoTerminator(")");
    PlaceholderHasNoTerminator();
    NoTerminatorConcat(prefix, SPACE);
    NoTerminatorConcat(prefix + SPACE, CLASSNAME_PARAMETER);
    NoTerminatorConcat(prefix + SPACE + CLASSNAME_PARAMETER, "(");
    NoTerminatorConcat(prefix + SPACE + CLASSNAME_PARAMETER + "(", parameterList);
    NoTerminatorConcat(prefix + SPACE + CLASSNAME_PARAMETER + "(" + parameterList, ")");
  }

  /** A constructor is its annotation lines, the signature with "{", one
      indented line per body piece, "}" and an empty line. */
  lemma ConstructorLinesShape(s: ConstructorState)
    requires ConstructorLines(s).Ok?
    requires NoTerminator(ParameterList(s.parameters).value)
    requires s.body.Some? ==> '\r' !in s.body.value
    ensures ConstructorLines(s).value
         == AllAnnotationLines(s.annotationTypes).value
            + [ConstructorSignature(s.modifiers, ParameterList(s.parameters).value) + "{"]
            + IndentAll(BodyPieces(s.body), 1) + ["}", ""]
  {
    var a := AllAnnotationLines(s.annotationTypes).value;
    var sig := ConstructorSignature(s.modifiers, ParameterList(s.parameters).value);
    SignatureHasNoTerminator(s.modifiers, ParameterList(s.parameters).value);
    assert ConstructorLines(s).value == a + JavaLines(sig + BlockText(s.body));
    BlockLines(sig, s.body);
    ConcatAssoc(a, [sig + "{"], IndentAll(BodyPieces(s.body), 1), ["}", ""]);
  }

  /** The two spacings the signature takes: a public constructor gets two
      spaces before the placeholder, one without modifiers a leading space. */
  lemma SignatureSpacing(parameterList: string)
    ensures ConstructorSignature([PUBLIC], parameterList) == "public  {_CLASSNAME_}(" + parameterList + ")"
    ensures ConstructorSignature([], parameterList) == " {_CLASSNAME_}(" + parameterList + ")"
  {
    WordsAreKeywords();
    assert MethodAccessWord([PUBLIC]) == "public";
    assert ModifierPrefix([PUBLIC]) == "public ";
    assert "public " + SPACE + CLASSNAME_PARAMETER == "public  {_CLASSNAME_}";
    assert MethodAccessWord([]) == "";
    assert ModifierPrefix([]) + SPACE + CLASSNAME_PARAMETER == " {_CLASSNAME_}";
  }

  /** ConstructorDefinition: the values captured by build(). */
  class ConstructorDefinition {
    const state: ConstructorState
    const sourceLines: seq<string>

    constructor (state: ConstructorState, sourceLines: seq<string>)
      ensures this.state == state && this.sourceLines == sourceLines
    {
      this.state := state;
      this.sourceLines := sourceLines;
    }
  }

  class ConstructorDefinitionBuilder {
    /** LinkedHashSets, in insertion order. */
    var modifiers: seq<Modifier>
    var parameters: seq<ParameterDefinition>
    var annotationTypes: seq<AnnotationType>
    var body: JString

    function State(): ConstructorState
      reads this
    {
      ConstructorState(modifiers, parameters, annotationTypes, body)
    }

    ghost predicate Valid()
      reads this
    {
      ValidState(State())
    }

    constructor ()
      ensures Valid() && State() == ConstructorState([], [], [], None)
    {
      modifiers, parameters, annotationTypes, body := [], [], [], None;
    }

    method Body(b: JString) returns (self: ConstructorDefinitionBuilder)
      modifies this
      ensures self == this && State() == old(State()).(body := b)
    {
      body := b;
      self := this;
    }

    method AddModifier(m: Modifier) returns (self: ConstructorDefinitionBuilder)
      requires Valid()
      modifies this
      ensures self == this && Valid()
      ensures State() == old(State()).(modifiers := Insert(old(modifiers), m))
    {
      modifiers := Insert(modifiers, m);
      self := this;
    }

    method AddParameter(p: ParameterDefinition) returns (self: ConstructorDefinitionBuilder)
      requires Valid()
      modifies this
      ensures self == this && Valid()
      ensures State() == old(State()).(parameters := Insert(old(parameters), p))
    {
      parameters := Insert(parameters, p);
      self := this;
    }

    /** parameters(collection): addAll, in the collection's order. */
    method Parameters(ps: seq<ParameterDefinition>) returns (self: ConstructorDefinitionBuilder)
      requires Valid()
      modifies this
      ensures self == this && Valid()
      ensures State() == old(State()).(parameters := InsertAll(old(parameters), ps))
    {
      parameters := InsertAll(parameters, ps);
      self := this;
    }

    method AddAnnotationType(a: AnnotationType) returns (self: ConstructorDefinitionBuilder)
      requires Valid()
      modifies this
      ensures self == this && Valid()
      ensures State() == old(State()).(annotationTypes := Insert(old(annotationTypes), a))
    {
      annotationTypes := Insert(annotationTypes, a);
      self := this;
    }

    /** createSourceLines: annotation lines, then the signature and body
        appended into one text, split into lines at the end. */
    method CreateSourceLines() returns (r: Result<seq<string>>)
      ensures r == ConstructorLines(State())
    {
      var lines := CollectAnnotationLines(annotationTypes);
      if lines.Err? {
        return Err(NullPointerException);
      }
      var source := MethodAccessWord(modifiers);
      if |source| > 0 {
        source := source + SPACE;
      }
      assert source == ModifierPrefix(modifiers);
      source := source + SPACE + CLASSNAME_PARAMETER + "(";
      var params := ParameterList(parameters);
      if params.Err? {
        return Err(NullPointerException);
      }
      source := source + params.value + ")";
      assert source == ConstructorSignature(modifiers, params.value);
      source := AppendBlock(source, body);
      return Ok(lines.value + JavaLines(source));
    }

    /** build: a new definition with the builder's values and its lines. */
    method Build() returns (r: Result<ConstructorDefinition>)
      ensures r.Err? <==> ConstructorLines(State()).Err?
      ensures r.Ok? ==> fresh(r.value) && r.value.state == State()
                        && Ok(r.value.sourceLines) == ConstructorLines(State())
    {
      var lines := CreateSourceLines();
      if lines.Err? {
        return Err(lines.error);
      }
      var d := new ConstructorDefinition(State(), lines.value);
      return Ok(d);
    }
  }
}
