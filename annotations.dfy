/** Annotation descriptors and their builder. An annotation is rendered as
    "@Name" alone, or as "@Name(", one "key = value" line per attribute and
    a closing ")". */
module Annotations {
  import opened Wrappers
  import opened Sequences
  import opened JStrings
  import opened Collections
  import opened Types
  import opened Indentation

  /** An attribute value, by the runtime class the renderer tests for:
      a class type, an integral Number, a Boolean, null, or any other
      object shown through its string form. */
  datatype AttrValue = Cls(classType: ClassType) | Num(n: int) | Bool(b: bool) | Null | Str(s: string)

  /** A class type renders as its name + ".class", a number or boolean as its
      string form, anything else between double quotes, without escaping. */
  function ValueText(v: AttrValue): string {
    match v
    case Cls(c) => Show(ClassName(c)) + ".class"
    case Num(n) => IntToString(n)
    case Bool(b) => if b then "true" else "false"
    case Null => "\"null\""
    case Str(s) => "\"" + s + "\""
  }

  /** The renderings by kind: a class type with ".class", a boolean as a
      word, null and anything else between quotes. */
  lemma ValueTextCases(v: AttrValue)
    ensures v.Str? ==> ValueText(v) == "\"" + v.s + "\""
    ensures v.Null? ==> ValueText(v) == "\"null\""
    ensures v.Cls? ==> ValueText(v) == Show(v.classType.name) + ".class"
    ensures v.Bool? ==> ValueText(v) == (if v.b then "true" else "false")
  {
  }

  /** A rendered value determines the number it came from. */
  lemma NumberTextRoundTrip(n: int)
    ensures n >= 0 ==> ParseDigits(ValueText(Num(n))) == n
    ensures n < 0 ==> ValueText(Num(n))[0] == '-' && ParseDigits(ValueText(Num(n))[1..]) == -n
  {
    IntToStringRoundTrip(n);
  }

  /** A quoted value is the value between two quote characters. */
  lemma QuotedTextRoundTrip(s: string)
    ensures var t := ValueText(Str(s)); |t| == |s| + 2 && t[0] == '"' && t[|t| - 1] == '"' && t[1..|t| - 1] == s
  {
  }

  /** One attribute line before the trailing comma is added. */
  function AttributeText(e: Entry<AttrValue>): string {
    GetIndentation(1) + e.key + " = " + ValueText(e.value)
  }

  function Header(classType: ClassType): string {
    "@" + Show(ClassName(classType))
  }

  /** The intended rendering: the header alone when there are no attributes;
      otherwise "@Name(", every attribute line followed by a comma except the
      last one, and ")". A missing class type is a null dereference. */
  function AnnotationLines(classType: Option<ClassType>, attributes: seq<Entry<AttrValue>>): (r: Result<seq<string>>)
    ensures r.Err? <==> classType.None?
    ensures r.Ok? && |attributes| == 0 ==> r.value == [Header(classType.value)]
  {
    if classType.None? then Err(NullPointerException)
    else if |attributes| == 0 then Ok([Header(classType.value)])
    else
      Ok([Header(classType.value) + "("] + AttributeLines(attributes) + [")"])
  }

  /** Every attribute's line before any comma is added. */
  function AttributeTexts(attributes: seq<Entry<AttrValue>>): (r: seq<string>)
    ensures |r| == |attributes|
  {
    seq(|attributes|, i requires 0 <= i < |attributes| => AttributeText(attributes[i]))
  }

  /** The attribute lines: each followed by a comma except the last. */
  function AttributeLines(attributes: seq<Entry<AttrValue>>): (r: seq<string>)
    ensures |r| == |attributes|
  {
    CommaSeparated(AttributeTexts(attributes))
  }

  /** Lines each followed by a comma, except the last. */
  function CommaSeparated(texts: seq<string>): (r: seq<string>)
    ensures |r| == |texts|
  {
    var n := |texts|;
    seq(n, i requires 0 <= i < n => if i < n - 1 then texts[i] + "," else texts[i])
  }

  lemma CommaSeparatedAt(texts: seq<string>)
    ensures var r := CommaSeparated(texts);
            (forall i | 0 <= i < |texts| - 1 :: r[i] == texts[i] + ",")
            && (|texts| > 0 ==> r[|texts| - 1] == texts[|texts| - 1])
  {
  }

  /** Lines each followed by a comma, as the loop appends them. */
  function CommaTerminated(texts: seq<string>): (r: seq<string>)
    ensures |r| == |texts|
    ensures forall i | 0 <= i < |r| :: r[i] == texts[i] + ","
  {
    seq(|texts|, i requires 0 <= i < |texts| => texts[i] + ",")
  }

  /** The loop's step: one more text appends one more line. */
  lemma CommaTerminatedSnoc(texts: seq<string>, i: nat)
    requires i < |texts|
    ensures CommaTerminated(texts[..i + 1]) == CommaTerminated(texts[..i]) + [texts[i] + ","]
  {
    var a, b := CommaTerminated(texts[..i + 1]), CommaTerminated(texts[..i]) + [texts[i] + ","];
    assert |a| == |b|;
    forall j | 0 <= j < |a| ensures a[j] == b[j] {
      assert texts[..i + 1][j] == texts[j];
    }
  }

  /** Cutting the last line at its last comma and closing the parenthesis
      gives the intended rendering. */
  lemma StripLastComma(classType: ClassType, attributes: seq<Entry<AttrValue>>)
    requires |attributes| > 0
    ensures var lines := [Header(classType) + "("] + CommaTerminated(AttributeTexts(attributes));
            Ok(lines[|lines| - 1 := SubstringBeforeLast(lines[|lines| - 1], ",")] + [")"])
              == AnnotationLines(Some(classType), attributes)
  {
    StripLastCommaOf(Header(classType) + "(", AttributeTexts(attributes));
  }

  /** The same, for any head line and texts. */
  lemma StripLastCommaOf(head: string, texts: seq<string>)
    requires |texts| > 0
    ensures var lines := [head] + CommaTerminated(texts);
            lines[|lines| - 1 := SubstringBeforeLast(lines[|lines| - 1], ",")] == [head] + CommaSeparated(texts)
  {
    var n := |texts|;
    LastLineStripped(head, texts);
    UpdateAfterHead(head, CommaTerminated(texts), texts[n - 1]);
    StrippedBody(texts);
  }

  lemma LastLineStripped(head: string, texts: seq<string>)
    requires |texts| > 0
    ensures var lines := [head] + CommaTerminated(texts);
            |lines| == |texts| + 1 && SubstringBeforeLast(lines[|texts|], ",") == texts[|texts| - 1]
  {
    AfterHead(head, CommaTerminated(texts));
    BeforeLastOfSuffix(texts[|texts| - 1], ",");
  }

  /** Dropping the last comma turns the terminated lines into the separated ones. */
  lemma StrippedBody(texts: seq<string>)
    requires |texts| > 0
    ensures var n := |texts|;
            CommaTerminated(texts)[n - 1 := texts[n - 1]] == CommaSeparated(texts)
  {
  }

  /** AnnotationType: a class type and an attribute map, fixed when built. */
  class AnnotationType {
    const classType: Option<ClassType>
    const attributes: seq<Entry<AttrValue>>

    constructor (classType: Option<ClassType>, attributes: seq<Entry<AttrValue>>)
      ensures this.classType == classType && this.attributes == attributes
    {
      this.classType := classType;
      this.attributes := attributes;
    }

    /** createSourceLines: appends every attribute line with a trailing comma,
        then replaces the last line by its text before the last comma and
        closes the parenthesis. Only reads the attributes. */
    method CreateSourceLines() returns (r: Result<seq<string>>)
      ensures r == AnnotationLines(classType, attributes)
    {
      if classType.None? {
        return Err(NullPointerException);
      }
      var annotation := Header(classType.value);
      var lines: seq<string> := [];
      if |attributes| == 0 {
        lines := [annotation];
        assert Ok(lines) == AnnotationLines(classType, attributes);
      } else {
        lines := [annotation + "("];
        ghost var texts := AttributeTexts(attributes);
        var i := 0;
        while i < |attributes|
          invariant 0 <= i <= |attributes|
          invariant lines == [annotation + "("] + CommaTerminated(texts[..i])
        {
          assert texts[i] == AttributeText(attributes[i]);
          CommaTerminatedSnoc(texts, i);
          AppendAssoc([annotation + "("], CommaTerminated(texts[..i]), [texts[i] + ","]);
          lines := lines + [AttributeText(attributes[i]) + ","];
          i := i + 1;
        }
        assert texts[..i] == texts;
        assert lines == [Header(classType.value) + "("] + CommaTerminated(AttributeTexts(attributes));
        var last := SubstringBeforeLast(lines[|lines| - 1], ",");
        lines := lines[|lines| - 1 := last];
        lines := lines + [")"];
        StripLastComma(classType.value, attributes);
        assert Ok(lines) == AnnotationLines(classType, attributes);
      }
      return Ok(lines);
    }
  }

  /** With n attributes the annotation spans n + 2 lines: the opening
      header, the attribute lines in map order, ")"; every attribute line ends
      with a comma except the last one. */
  lemma AnnotationLinesShape(classType: ClassType, attributes: seq<Entry<AttrValue>>)
    requires |attributes| > 0
    ensures var lines := AnnotationLines(Some(classType), attributes).value;
            var n := |attributes|;
            |lines| == n + 2
            && lines[0] == Header(classType) + "("
            && lines[n + 1] == ")"
            && lines[n] == AttributeText(attributes[n - 1])
            && forall i | 0 <= i < n - 1 :: lines[i + 1] == AttributeText(attributes[i]) + ","
  {
    var n := |attributes|;
    var head := Header(classType) + "(";
    var texts := AttributeTexts(attributes);
    var body := AttributeLines(attributes);
    CommaSeparatedAt(texts);
    assert forall i | 0 <= i < n :: texts[i] == AttributeText(attributes[i]);
    var lines := [head] + body + [")"];
    assert AnnotationLines(Some(classType), attributes).value == lines;
    Bracketed(head, body, ")");
  }

  /** The lines of every annotation, one annotation after the other, as
      `annotationTypes.forEach(a -> lines.addAll(a.createSourceLines()))`
      collects them; fails when any annotation has no class. */
  function AllAnnotationLines(annotations: seq<AnnotationType>): (r: Result<seq<string>>)
    ensures r.Err? <==> exists i | 0 <= i < |annotations| :: annotations[i].classType.None?
    ensures |annotations| == 0 ==> r == Ok([])
  {
    if |annotations| == 0 then Ok([])
    else
      var n := |annotations|;
      var init := AllAnnotationLines(annotations[..n - 1]);
      assert forall i | 0 <= i < n - 1 :: annotations[..n - 1][i] == annotations[i];
      if init.Err? || annotations[n - 1].classType.None? then Err(NullPointerException)
      else Ok(init.value + AnnotationLines(annotations[n - 1].classType, annotations[n - 1].attributes).value)
  }

  /** The loop shared by every descriptor renderer: append each annotation's
      lines in set order. */
  method CollectAnnotationLines(annotations: seq<AnnotationType>) returns (r: Result<seq<string>>)
    ensures r == AllAnnotationLines(annotations)
  {
    var lines: seq<string> := [];
    var i := 0;
    while i < |annotations|
      invariant 0 <= i <= |annotations|
      invariant AllAnnotationLines(annotations[..i]) == Ok(lines)
    {
      assert annotations[..i + 1][..i] == annotations[..i];
      var more := annotations[i].CreateSourceLines();
      if more.Err? {
        assert AllAnnotationLines(annotations).Err?;
        return Err(NullPointerException);
      }
      lines := lines + more.value;
      i := i + 1;
    }
    assert annotations[..i] == annotations;
    return Ok(lines);
  }

  class AnnotationTypeBuilder {
    var classType: Option<ClassType>
    var attributes: seq<Entry<AttrValue>>

    ghost predicate Valid()
      reads this
    {
      DistinctKeys(attributes)
    }

    constructor ()
      ensures Valid() && classType.None? && attributes == []
    {
      classType := None;
      attributes := [];
    }

    method ClassType(c: Option<ClassType>) returns (self: AnnotationTypeBuilder)
      modifies this
      ensures self == this && classType == c && attributes == old(attributes)
    {
      classType := c;
      self := this;
    }

    /** addAttribute: Map.put; an existing name keeps its first position and
        takes the new value. */
    method AddAttribute(name: string, value: AttrValue) returns (self: AnnotationTypeBuilder)
      requires Valid()
      modifies this
      ensures self == this && Valid()
      ensures attributes == Put(old(attributes), name, value)
      ensures Get(attributes, name) == Some(value)
      ensures classType == old(classType)
    {
      PutDistinct(attributes, name, value);
      PutGet(attributes, name, value, name);
      attributes := Put(attributes, name, value);
      self := this;
    }

    /** build: a new annotation with the current class type and a copy of the
        attributes, so later addAttribute calls leave it unchanged. */
    method Build() returns (a: AnnotationType)
      ensures fresh(a)
      ensures a.classType == classType && a.attributes == attributes
    {
      a := new AnnotationType(classType, attributes);
    }
  }
}
