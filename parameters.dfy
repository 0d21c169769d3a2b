/** Method and constructor parameters: a name, a type and annotations,
    rendered once into the text that goes between the parentheses. */
module Parameters {
  import opened Wrappers
  import opened Sequences
  import opened JStrings
  import opened Collections
  import opened Types
  import opened Annotations

  /** An annotation's lines joined by single spaces, as String.join(" ", ...). */
  function InlineAnnotation(a: AnnotationType): (r: Result<string>)
    ensures r.Err? <==> a.classType.None?
  {
    var lines :- AnnotationLines(a.classType, a.attributes);
    Ok(Join(lines, SPACE))
  }

  /** getAnnotationSource: every annotation inline, in order,
      with nothing between them; fails when any annotation has no class. */
  function AnnotationSourceOf(annotations: seq<AnnotationType>): (r: Result<string>)
    ensures r.Err? <==> exists i | 0 <= i < |annotations| :: annotations[i].classType.None?
    ensures |annotations| == 0 ==> r == Ok("")
  {
    if |annotations| == 0 then Ok("")
    else
      var n := |annotations|;
      var init := AnnotationSourceOf(annotations[..n - 1]);
      var last := InlineAnnotation(annotations[n - 1]);
      assert forall i | 0 <= i < n - 1 :: annotations[..n - 1][i] == annotations[i];
      if init.Err? || last.Err? then Err(NullPointerException)
      else Ok(init.value + last.value)
  }

  /** The annotation part of a parameter's source: each annotation inline
      followed by one space. */
  function AnnotationPrefix(annotations: seq<AnnotationType>): (r: Result<string>)
    ensures r.Err? <==> exists i | 0 <= i < |annotations| :: annotations[i].classType.None?
    ensures |annotations| == 0 ==> r == Ok("")
  {
    if |annotations| == 0 then Ok("")
    else
      var n := |annotations|;
      var init := AnnotationPrefix(annotations[..n - 1]);
      var last := InlineAnnotation(annotations[n - 1]);
      assert forall i | 0 <= i < n - 1 :: annotations[..n - 1][i] == annotations[i];
      if init.Err? || last.Err? then Err(NullPointerException)
      else Ok(init.value + last.value + SPACE)
  }

  /** generateSourceCode: the annotation prefix, then, when the
      type is set, its full name, a space and the name. */
  function ParameterSource(annotations: seq<AnnotationType>, parameterType: Option<JavaType>,
                           parameterName: JString): (r: Result<string>)
    ensures r.Err? <==> AnnotationPrefix(annotations).Err?
    ensures r.Ok? && parameterType.None? ==> r.value == AnnotationPrefix(annotations).value
    ensures r.Ok? && parameterType.Some? ==>
              r.value == AnnotationPrefix(annotations).value + Show(FullName(parameterType.value)) + SPACE + Show(parameterName)
  {
    var prefix :- AnnotationPrefix(annotations);
    if parameterType.None? then Ok(prefix)
    else Ok(prefix + Show(FullName(parameterType.value)) + SPACE + Show(parameterName))
  }

  /** The annotation source of a concatenation is the concatenation: nothing
      is inserted between consecutive annotations. */
  lemma {:induction false} AnnotationSourceAppend(a: seq<AnnotationType>, b: seq<AnnotationType>)
    requires AnnotationSourceOf(a).Ok? && AnnotationSourceOf(b).Ok?
    ensures AnnotationSourceOf(a + b) == Ok(AnnotationSourceOf(a).value + AnnotationSourceOf(b).value)
    decreases |b|
  {
    if |b| == 0 {
      assert a + b == a;
      assert AnnotationSourceOf(a).value + "" == AnnotationSourceOf(a).value;
    } else {
      var n := |b|;
      assert (a + b)[..|a + b| - 1] == a + b[..n - 1];
      assert (a + b)[|a + b| - 1] == b[n - 1];
      assert AnnotationSourceOf(b[..n - 1]).Ok?;
      AnnotationSourceAppend(a, b[..n - 1]);
      var sa, sb := AnnotationSourceOf(a).value, AnnotationSourceOf(b[..n - 1]).value;
      var l := InlineAnnotation(b[n - 1]).value;
      assert AnnotationSourceOf(b).value == sb + l;
      assert AnnotationSourceOf(a + b).value == (sa + sb) + l;
      AppendAssoc(sa, sb, l);
    }
  }

  /** A single annotation without attributes contributes exactly "@Name". */
  lemma SingleMarkerAnnotation(a: AnnotationType, c: ClassType)
    requires a.classType == Some(c) && a.attributes == []
    ensures AnnotationSourceOf([a]) == Ok("@" + Show(c.name))
    ensures AnnotationPrefix([a]) == Ok("@" + Show(c.name) + " ")
  {
    assert [a][..0] == [];
    assert AnnotationLines(a.classType, a.attributes) == Ok([Header(c)]);
    assert Join([Header(c)], SPACE) == Header(c);
    assert InlineAnnotation(a) == Ok(Header(c));
    assert "" + Header(c) == Header(c);
  }

  /** ParameterDefinition: the values captured by build(). */
  class ParameterDefinition {
    const parameterName: JString
    const parameterType: Option<JavaType>
    const annotationTypes: seq<AnnotationType>
    const sourceCode: string

    constructor (parameterName: JString, parameterType: Option<JavaType>,
                 annotationTypes: seq<AnnotationType>, sourceCode: string)
      ensures this.parameterName == parameterName && this.parameterType == parameterType
      ensures this.annotationTypes == annotationTypes && this.sourceCode == sourceCode
    {
      this.parameterName := parameterName;
      this.parameterType := parameterType;
      this.annotationTypes := annotationTypes;
      this.sourceCode := sourceCode;
    }

    /** getAnnotationSource: appends each annotation's inline text. */
    method GetAnnotationSource() returns (r: Result<string>)
      ensures r == AnnotationSourceOf(annotationTypes)
    {
      var source := "";
      var i := 0;
      while i < |annotationTypes|
        invariant 0 <= i <= |annotationTypes|
        invariant AnnotationSourceOf(annotationTypes[..i]) == Ok(source)
      {
        assert annotationTypes[..i + 1][..i] == annotationTypes[..i];
        var lines := annotationTypes[i].CreateSourceLines();
        if lines.Err? {
          NoSourceAfterFailure(annotationTypes, i);
          return Err(NullPointerException);
        }
        source := source + Join(lines.value, SPACE);
        i := i + 1;
      }
      assert annotationTypes[..i] == annotationTypes;
      return Ok(source);
    }
  }

  /** One annotation without a class makes the whole source fail. */
  lemma NoSourceAfterFailure(annotations: seq<AnnotationType>, i: nat)
    requires i < |annotations| && annotations[i].classType.None?
    ensures AnnotationSourceOf(annotations).Err? && AnnotationPrefix(annotations).Err?
  {
  }

  class ParameterDefinitionBuilder {
    var parameterName: JString
    var parameterType: Option<JavaType>
    /** The LinkedHashSet of annotations (by identity), in insertion order. */
    var annotationTypes: seq<AnnotationType>

    ghost predicate Valid()
      reads this
    {
      Distinct(annotationTypes)
    }

    constructor ()
      ensures Valid() && parameterName.None? && parameterType.None? && annotationTypes == []
    {
      parameterName := None;
      parameterType := None;
      annotationTypes := [];
    }

    method ParameterName(n: JString) returns (self: ParameterDefinitionBuilder)
      modifies this
      ensures self == this && parameterName == n
      ensures parameterType == old(parameterType) && annotationTypes == old(annotationTypes)
    {
      parameterName := n;
      self := this;
    }

    method ParameterType(t: Option<JavaType>) returns (self: ParameterDefinitionBuilder)
      modifies this
      ensures self == this && parameterType == t
      ensures parameterName == old(parameterName) && annotationTypes == old(annotationTypes)
    {
      parameterType := t;
      self := this;
    }

    method AddAnnotation(a: AnnotationType) returns (self: ParameterDefinitionBuilder)
      requires Valid()
      modifies this
      ensures self == this && Valid()
      ensures annotationTypes == Insert(old(annotationTypes), a)
      ensures parameterName == old(parameterName) && parameterType == old(parameterType)
    {
      annotationTypes := Insert(annotationTypes, a);
      self := this;
    }

    /** generateSourceCode: appends each annotation inline plus a space, then
        the type's full name, a space and the name when the type is set. */
    method GenerateSourceCode() returns (r: Result<string>)
      ensures r == ParameterSource(annotationTypes, parameterType, parameterName)
    {
      var source := "";
      var i := 0;
      while i < |annotationTypes|
        invariant 0 <= i <= |annotationTypes|
        invariant AnnotationPrefix(annotationTypes[..i]) == Ok(source)
      {
        assert annotationTypes[..i + 1][..i] == annotationTypes[..i];
        var lines := annotationTypes[i].CreateSourceLines();
        if lines.Err? {
          NoSourceAfterFailure(annotationTypes, i);
          return Err(NullPointerException);
        }
        source := source + Join(lines.value, SPACE) + SPACE;
        i := i + 1;
      }
      assert annotationTypes[..i] == annotationTypes;
      if parameterType.Some? {
        source := source + Show(FullName(parameterType.value)) + SPACE + Show(parameterName);
      }
      return Ok(source);
    }

    /** build: a new definition holding the current name, type and
        annotations, with its source text computed now. */
    method Build() returns (r: Result<ParameterDefinition>)
      ensures r.Err? <==> ParameterSource(annotationTypes, parameterType, parameterName).Err?
      ensures r.Ok? ==> fresh(r.value)
                        && r.value.parameterName == parameterName
                        && r.value.parameterType == parameterType
                        && r.value.annotationTypes == annotationTypes
                        && Ok(r.value.sourceCode) == ParameterSource(annotationTypes, parameterType, parameterName)
    {
      var source := GenerateSourceCode();
      if source.Err? {
        return Err(source.error);
      }
      var d := new ParameterDefinition(parameterName, parameterType, annotationTypes, source.value);
      return Ok(d);
    }
  }

  /** With no annotations and a type, the source is "Type name". */
  lemma PlainParameterSource(t: JavaType, name: string)
    ensures ParameterSource([], Some(t), Some(name)) == Ok(Show(FullName(t)) + " " + name)
  {
    assert "" + Show(FullName(t)) + SPACE + Show(Some(name)) == Show(FullName(t)) + " " + name;
  }

  /** Without a type, the name does not appear: only the annotations do. */
  lemma UntypedParameterSource(annotations: seq<AnnotationType>, name: JString)
    ensures ParameterSource(annotations, None, name) == AnnotationPrefix(annotations)
  {
  }
}
