/** Method descriptors: annotation lines, then the signature and either ";"
    (abstract) or a body block, split into lines. */
module Methods {
  import opened Wrappers
  import opened Sequences
  import opened JStrings
  import opened Collections
  import opened Types
  import opened Modifiers
  import opened Indentation
  import opened Annotations
  import opened Parameters
  import opened Members

  /** The return type's full name, or "void" when there is none. */
  function ReturnTypeText(returnType: Option<JavaType>): string {
    if returnType.None? then "void" else Show(FullName(returnType.value))
  }

  /** [access word + " "] + return type + " " + name + "(" + parameters + ")". */
  function MethodSignature(modifiers: seq<Modifier>, returnType: Option<JavaType>, name: JString,
                           parameterList: string): string {
    ModifierPrefix(modifiers) + ReturnTypeText(returnType) + SPACE + Show(name) + "(" + parameterList + ")"
  }

  /** The whole text before it is split into lines: ";" after an abstract
      signature, the body block after any other. */
  function MethodText(signature: string, isAbstract: bool, body: JString): string {
    if isAbstract then signature + ";" else signature + BlockText(body)
  }

  /** Everything a method builder holds. */
  datatype MethodState = MethodState(
    name: JString,
    returnType: Option<JavaType>,
    modifiers: seq<Modifier>,
    parameters: seq<ParameterDefinition>,
    annotationTypes: seq<AnnotationType>,
    body: JString,
    isAbstract: bool)

  ghost predicate ValidState(s: MethodState) {
    Distinct(s.modifiers) && Distinct(s.parameters) && Distinct(s.annotationTypes)
  }

  /** createSourceLines, as a function: the annotation lines, then the lines of
      the method text. */
  function MethodLines(s: MethodState): (r: Result<seq<string>>)
    ensures r.Err? <==> AllAnnotationLines(s.annotationTypes).Err? || ParameterList(s.parameters).Err?
    ensures r.Ok? ==> var a := AllAnnotationLines(s.annotationTypes).value;
                      |r.value| >= |a| && r.value[..|a|] == a
  {
    var a :- AllAnnotationLines(s.annotationTypes);
    var p :- ParameterList(s.parameters);
    var lines := a + JavaLines(MethodText(MethodSignature(s.modifiers, s.returnType, s.name, p), s.isAbstract, s.body));
    assert lines[..|a|] == a;
    Ok(lines)
  }

  /** An abstract method is its annotation lines and one signature line
      ending with ";": no body is rendered. */
  lemma AbstractMethodLines(s: MethodState)
    requires s.isAbstract && MethodLines(s).Ok?
    requires NoTerminator(MethodSignature(s.modifiers, s.returnType, s.name, ParameterList(s.parameters).value))
    ensures MethodLines(s).value
         == AllAnnotationLines(s.annotationTypes).value
            + [MethodSignature(s.modifiers, s.returnType, s.name, ParameterList(s.parameters).value) + ";"]
  {
    var a := AllAnnotationLines(s.annotationTypes).value;
    var sig := MethodSignature(s.modifiers, s.returnType, s.name, ParameterList(s.parameters).value);
    assert MethodLines(s).value == a + JavaLines(sig + ";");
    assert NoTerminator(";");
    NoTerminatorConcat(sig, ";");
    LinesOfOne(sig + ";");
  }

  /** A concrete method is its annotation lines, the signature with "{", one
      indented line per body piece, "}" and an empty line. */
  lemma ConcreteMethodLines(s: MethodState)
    requires !s.isAbstract && MethodLines(s).Ok?
    requires NoTerminator(MethodSignature(s.modifiers, s.returnType, s.name, ParameterList(s.parameters).value))
    requires s.body.Some? ==> '\r' !in s.body.value
    ensures MethodLines(s).value
         == AllAnnotationLines(s.annotationTypes).value
            + [MethodSignature(s.modifiers, s.returnType, s.name, ParameterList(s.parameters).value) + "{"]
            + IndentAll(BodyPieces(s.body), 1) + ["}", ""]
  {
    var a := AllAnnotationLines(s.annotationTypes).value;
    var sig := MethodSignature(s.modifiers, s.returnType, s.name, ParameterList(s.parameters).value);
    assert MethodLines(s).value == a + JavaLines(sig + BlockText(s.body));
    BlockLines(sig, s.body);
    var lines := JavaLines(sig + BlockText(s.body));
    assert MethodLines(s).value == a + lines;
    ConcatAssoc(a, [sig + "{"], IndentAll(BodyPieces(s.body), 1), ["}", ""]);
  }

  /** A method without modifiers, return type or parameters renders as
      "void name(){" followed by its block. */
  lemma BareMethodSignature(name: string)
    ensures MethodSignature([], None, Some(name), "") == "void " + name + "()"
  {
    assert MethodAccessWord([]) == "";
  }

  /** With modifiers, only one word precedes the return type. */
  lemma SignatureHasOneModifierWord(modifiers: seq<Modifier>, returnType: Option<JavaType>, name: JString,
                                    parameterList: string)
    ensures var p := ModifierPrefix(modifiers);
            (p == "" || (p[|p| - 1] == ' ' && ' ' !in p[..|p| - 1]))
            && MethodSignature(modifiers, returnType, name, parameterList)[..|p|] == p
  {
    var p := ModifierPrefix(modifiers);
    if p != "" {
      SplitAtSeam(MethodAccessWord(modifiers), " ");
    }
    var s1 := p + ReturnTypeText(returnType);
    var s2 := s1 + SPACE;
    var s3 := s2 + Show(name);
    var s4 := s3 + "(";
    var s5 := s4 + parameterList;
    SplitAtSeam(p, ReturnTypeText(returnType));
    PrefixThroughAppend(s1, SPACE, |p|);
    PrefixThroughAppend(s2, Show(name), |p|);
    PrefixThroughAppend(s3, "(", |p|);
    PrefixThroughAppend(s4, parameterList, |p|);
    PrefixThroughAppend(s5, ")", |p|);
  }

  /** MethodDefinition: the values captured by build(). */
  class MethodDefinition {
    const state: MethodState
    const sourceLines: seq<string>

    constructor (state: MethodState, sourceLines: seq<string>)
      ensures this.state == state && this.sourceLines == sourceLines
    {
      this.state := state;
      this.sourceLines := sourceLines;
    }
  }

  class MethodDefinitionBuilder {
    var name: JString
    var returnType: Option<JavaType>
    /** LinkedHashSets, in insertion order. */
    var modifiers: seq<Modifier>
    var parameters: seq<ParameterDefinition>
    var annotationTypes: seq<AnnotationType>
    var body: JString
    var isAbstract: bool

    function State(): MethodState
      reads this
    {
      MethodState(name, returnType, modifiers, parameters, annotationTypes, body, isAbstract)
    }

    ghost predicate Valid()
      reads this
    {
      ValidState(State())
    }

    constructor ()
      ensures Valid() && State() == MethodState(None, None, [], [], [], None, false)
    {
      name, returnType, modifiers, parameters := None, None, [], [];
      annotationTypes, body, isAbstract := [], None, false;
    }

    method Name(n: JString) returns (self: MethodDefinitionBuilder)
      modifies this
      ensures self == this && State() == old(State()).(name := n)
    {
      name := n;
      self := this;
    }

    method Body(b: JString) returns (self: MethodDefinitionBuilder)
      modifies this
      ensures self == this && State() == old(State()).(body := b)
    {
      body := b;
      self := this;
    }

    method IsAbstract(b: bool) returns (self: MethodDefinitionBuilder)
      modifies this
      ensures self == this && State() == old(State()).(isAbstract := b)
    {
      isAbstract := b;
      self := this;
    }

    method ReturnClassType(t: Option<JavaType>) returns (self: MethodDefinitionBuilder)
      modifies this
      ensures self == this && State() == old(State()).(returnType := t)
    {
      returnType := t;
      self := this;
    }

    method AddModifier(m: Modifier) returns (self: MethodDefinitionBuilder)
      requires Valid()
      modifies this
      ensures self == this && Valid()
      ensures State() == old(State()).(modifiers := Insert(old(modifiers), m))
    {
      modifiers := Insert(modifiers, m);
      self := this;
    }

    method AddParameter(p: ParameterDefinition) returns (self: MethodDefinitionBuilder)
      requires Valid()
      modifies this
      ensures self == this && Valid()
      ensures State() == old(State()).(parameters := Insert(old(parameters), p))
    {
      parameters := Insert(parameters, p);
      self := this;
    }

    /** parameters(collection): addAll, in the collection's order. */
    method Parameters(ps: seq<ParameterDefinition>) returns (self: MethodDefinitionBuilder)
      requires Valid()
      modifies this
      ensures self == this && Valid()
      ensures State() == old(State()).(parameters := InsertAll(old(parameters), ps))
    {
      parameters := InsertAll(parameters, ps);
      self := this;
    }

    method AddAnnotationType(a: AnnotationType) returns (self: MethodDefinitionBuilder)
      requires Valid()
      modifies this
      ensures self == this && Valid()
      ensures State() == old(State()).(annotationTypes := Insert(old(annotationTypes), a))
    {
      annotationTypes := Insert(annotationTypes, a);
      self := this;
    }

    /** createSourceLines: the annotation lines, then the signature and the
        body appended into one text, which is split into lines at the end. */
    method CreateSourceLines() returns (r: Result<seq<string>>)
      ensures r == MethodLines(State())
    {
      var lines := CollectAnnotationLines(annotationTypes);
      if lines.Err? {
        return Err(NullPointerException);
      }
      var source := MethodAccessWord(modifiers);
      if |source| > 0 {
        source := source + SPACE;
      }
      assert source == ModifierPrefix(modifiers);
      if returnType.Some? {
        source := source + Show(FullName(returnType.value));
      } else {
        source := source + "void";
      }
      source := source + SPACE + Show(name) + "(";
      var params := ParameterList(parameters);
      if params.Err? {
        return Err(NullPointerException);
      }
      source := source + params.value + ")";
      assert source == MethodSignature(modifiers, returnType, name, params.value);
      if isAbstract {
        source := source + ";";
      } else {
        source := AppendBlock(source, body);
      }
      return Ok(lines.value + JavaLines(source));
    }

    /** build: a new definition with the builder's values and its lines. */
    method Build() returns (r: Result<MethodDefinition>)
      ensures r.Err? <==> MethodLines(State()).Err?
      ensures r.Ok? ==> fresh(r.value) && r.value.state == State()
                        && Ok(r.value.sourceLines) == MethodLines(State())
    {
      var lines := CreateSourceLines();
      if lines.Err? {
        return Err(lines.error);
      }
      var d := new MethodDefinition(State(), lines.value);
      return Ok(d);
    }
  }
}
