/** The pieces method and constructor descriptors render the same way: the
    parameter list between the parentheses and the body block. Both
    builders carry identical copies of this code. */
module Members {
  import opened Wrappers
  import opened Sequences
  import opened JStrings
  import opened Collections
  import opened Types
  import opened Indentation
  import opened Parameters
  import opened Modifiers

  // ---------------------------------------------------------------------------
  // The access word
  // ---------------------------------------------------------------------------

  /** The method access word, followed by a space when there is one. */
  function ModifierPrefix(modifiers: seq<Modifier>): (r: string)
    ensures r == "" <==> MethodAccessWord(modifiers) == ""
    ensures r == "" || (r == MethodAccessWord(modifiers) + " " && ' ' !in MethodAccessWord(modifiers))
  {
    var w := MethodAccessWord(modifiers);
    if |w| > 0 then w + SPACE else EMPTY
  }

  /** The prefix holds letters and a space, never a line terminator. */
  lemma PrefixHasNoTerminator(modifiers: seq<Modifier>)
    ensures NoTerminator(ModifierPrefix(modifiers))
  {
    var w := MethodAccessWord(modifiers);
    if w != "" {
      assert NoTerminator(w);
      assert NoTerminator(SPACE);
      NoTerminatorConcat(w, SPACE);
    }
  }

  // ---------------------------------------------------------------------------
  // insertParameters
  // ---------------------------------------------------------------------------

  /** The parameters that pass the `parameterName != null` filter, in order. */
  function NamedParameters(params: seq<ParameterDefinition>): (r: seq<ParameterDefinition>)
    ensures |r| <= |params|
    ensures forall i | 0 <= i < |r| :: r[i].parameterName.Some? && r[i] in params
    ensures forall p | p in params && p.parameterName.Some? :: p in r
  {
    if |params| == 0 then []
    else if params[0].parameterName.Some? then [params[0]] + NamedParameters(params[1..])
    else NamedParameters(params[1..])
  }

  /** String.format("%s %s %s", annotationSource, type full name or "", name). */
  function ParameterText(p: ParameterDefinition): (r: Result<string>)
    requires p.parameterName.Some?
    ensures r.Err? <==> AnnotationSourceOf(p.annotationTypes).Err?
  {
    var annotations :- AnnotationSourceOf(p.annotationTypes);
    var typeName := if p.parameterType.None? then EMPTY else Show(FullName(p.parameterType.value));
    Ok(annotations + SPACE + typeName + SPACE + p.parameterName.value)
  }

  function ParameterTexts(params: seq<ParameterDefinition>): (r: Result<seq<string>>)
    requires forall i | 0 <= i < |params| :: params[i].parameterName.Some?
    ensures r.Ok? ==> |r.value| == |params|
                      && forall i | 0 <= i < |params| :: Ok(r.value[i]) == ParameterText(params[i])
    ensures r.Err? <==> exists i | 0 <= i < |params| :: ParameterText(params[i]).Err?
  {
    if |params| == 0 then Ok([])
    else
      var head := ParameterText(params[0]);
      var tail := ParameterTexts(params[1..]);
      assert forall i | 1 <= i < |params| :: params[1..][i - 1] == params[i];
      if head.Err? || tail.Err? then Err(NullPointerException)
      else Ok([head.value] + tail.value)
  }

  /** insertParameters: the named parameters' texts joined by ","; nothing is
      written when that text is blank. */
  function ParameterList(params: seq<ParameterDefinition>): (r: Result<string>)
    ensures r.Ok? ==> r.value == "" || !IsBlank(r.value)
    ensures r.Ok? && |NamedParameters(params)| == 0 ==> r.value == ""
  {
    var texts :- ParameterTexts(NamedParameters(params));
    var joined := Join(texts, COMMA_TEXT);
    Ok(if IsBlank(joined) then EMPTY else joined)
  }

  const COMMA_TEXT: string := ","

  /** A parameter without a name contributes nothing, wherever it stands. */
  lemma {:induction false} UnnamedParameterSkipped(a: seq<ParameterDefinition>, p: ParameterDefinition,
                                                  b: seq<ParameterDefinition>)
    requires p.parameterName.None?
    ensures NamedParameters(a + [p] + b) == NamedParameters(a + b)
    decreases |a|
  {
    if |a| == 0 {
      assert a + [p] + b == [p] + b;
      assert (a + [p] + b)[1..] == b;
      assert a + b == b;
    } else {
      assert (a + [p] + b)[0] == a[0] && (a + [p] + b)[1..] == a[1..] + [p] + b;
      assert (a + b)[0] == a[0] && (a + b)[1..] == a[1..] + b;
      UnnamedParameterSkipped(a[1..], p, b);
    }
  }

  /** An unannotated parameter renders as " Type name": the format puts a
      space after the (empty) annotation source. */
  lemma PlainParameterText(p: ParameterDefinition, t: JavaType, name: string)
    requires p.parameterName == Some(name) && p.parameterType == Some(t) && p.annotationTypes == []
    ensures ParameterText(p) == Ok(" " + Show(FullName(t)) + " " + name)
  {
    assert AnnotationSourceOf(p.annotationTypes) == Ok("");
    assert "" + SPACE + Show(FullName(t)) + SPACE + name == " " + Show(FullName(t)) + " " + name;
  }

  /** Two parameters are separated by a bare comma. */
  lemma TwoParameters(p: ParameterDefinition, q: ParameterDefinition)
    requires p.parameterName.Some? && q.parameterName.Some?
    requires ParameterText(p).Ok? && ParameterText(q).Ok?
    ensures var s := ParameterText(p).value + "," + ParameterText(q).value;
            ParameterList([p, q]) == Ok(if IsBlank(s) then "" else s)
  {
    assert [p, q][1..] == [q];
    assert [q][1..] == [];
    assert NamedParameters([p, q]) == [p, q];
    var tp, tq := ParameterText(p).value, ParameterText(q).value;
    var r := ParameterTexts([p, q]);
    assert !(exists i | 0 <= i < 2 :: ParameterText([p, q][i]).Err?);
    assert r.Ok? && |r.value| == 2;
    assert Ok(r.value[0]) == ParameterText(p) && Ok(r.value[1]) == ParameterText(q);
    assert r.value == [tp, tq];
    assert [tp, tq][1..] == [tq];
    assert Join([tp, tq], COMMA_TEXT) == tp + "," + tq;
  }

  // ---------------------------------------------------------------------------
  // The body block
  // ---------------------------------------------------------------------------

  /** The body's non-empty pieces, split at the line separator; none when
      the body is blank. */
  function BodyPieces(body: JString): (r: seq<string>)
    ensures forall i | 0 <= i < |r| :: |r[i]| > 0 && '\n' !in r[i]
  {
    if IsBlankJ(body) then [] else Tokens(body.value, '\n')
  }

  /** Each piece with one indent and a line separator. */
  function IndentedPieces(pieces: seq<string>): string {
    if |pieces| == 0 then EMPTY
    else GetIndentation(1) + pieces[0] + LINE_SEPARATOR + IndentedPieces(pieces[1..])
  }

  lemma {:induction false} IndentedPiecesSnoc(pieces: seq<string>, x: string)
    ensures IndentedPieces(pieces + [x]) == IndentedPieces(pieces) + (GetIndentation(1) + x + LINE_SEPARATOR)
    decreases |pieces|
  {
    if |pieces| == 0 {
      assert pieces + [x] == [x];
      assert [x][1..] == [];
    } else {
      assert (pieces + [x])[0] == pieces[0];
      assert (pieces + [x])[1..] == pieces[1..] + [x];
      IndentedPiecesSnoc(pieces[1..], x);
    }
  }

  /** The opening brace ending the signature line. */
  const OPENING: string := "{" + LINE_SEPARATOR

  /** The closing brace and the empty line after a block. */
  const CLOSING: string := "}" + LINE_SEPARATOR + LINE_SEPARATOR

  /** "{", the indented body lines, "}" and an empty line, as one text. */
  function BlockText(body: JString): string {
    OPENING + IndentedPieces(BodyPieces(body)) + CLOSING
  }

  /** The loop of createSourceLines that appends the block to the signature. */
  method AppendBlock(source: string, body: JString) returns (r: string)
    ensures r == source + BlockText(body)
  {
    r := source + OPENING;
    ghost var start := r;
    var pieces: seq<string> := [];
    if !IsBlankJ(body) {
      pieces := Tokens(body.value, '\n');
    }
    var i := 0;
    while i < |pieces|
      invariant 0 <= i <= |pieces|
      invariant r == start + IndentedPieces(pieces[..i])
    {
      var piece := GetIndentation(1) + pieces[i] + LINE_SEPARATOR;
      IndentedPiecesSnoc(pieces[..i], pieces[i]);
      assert pieces[..i + 1] == pieces[..i] + [pieces[i]];
      AppendAssoc(start, IndentedPieces(pieces[..i]), piece);
      r := r + piece;
      i := i + 1;
    }
    assert pieces[..i] == pieces;
    r := r + CLOSING;
    ConcatAssoc(source, OPENING, IndentedPieces(pieces), CLOSING);
  }

  /** The text of a closing brace splits into "}" and an empty line. */
  lemma ClosingLines()
    ensures JavaLines(CLOSING) == ["}", ""]
  {
    assert CLOSING == "}" + LINE_SEPARATOR + ("" + LINE_SEPARATOR + "");
    LinesCons("}", "" + LINE_SEPARATOR + "");
    LinesCons("", "");
  }

  /** Indented pieces in front of any text split into one line per piece. */
  lemma {:induction false} PiecesLinesBefore(pieces: seq<string>, t: string)
    requires forall i | 0 <= i < |pieces| :: NoTerminator(pieces[i])
    ensures JavaLines(IndentedPieces(pieces) + t) == IndentAll(pieces, 1) + JavaLines(t)
    decreases |pieces|
  {
    if |pieces| == 0 {
      assert IndentedPieces(pieces) + t == t;
    } else {
      var line := GetIndentation(1) + pieces[0];
      IndentedNoTerminator(1, pieces[0]);
      var later := IndentedPieces(pieces[1..]);
      assert IndentedPieces(pieces) == (line + LINE_SEPARATOR) + later;
      AppendAssoc(line + LINE_SEPARATOR, later, t);
      LinesCons(line, later + t);
      PiecesLinesBefore(pieces[1..], t);
      IndentAllCons(pieces, 1);
      AppendAssoc([line], IndentAll(pieces[1..], 1), JavaLines(t));
    }
  }

  /** Splitting the indented pieces and the closing brace back into lines. */
  lemma PiecesLines(pieces: seq<string>)
    requires forall i | 0 <= i < |pieces| :: NoTerminator(pieces[i])
    ensures JavaLines(IndentedPieces(pieces) + CLOSING) == IndentAll(pieces, 1) + ["}", ""]
  {
    PiecesLinesBefore(pieces, CLOSING);
    ClosingLines();
  }

  /** A signature followed by the block splits into the signature with "{",
      one indented line per body piece, "}" and an empty line, provided
      nothing contains a carriage return of its own. */
  lemma BlockLines(signature: string, body: JString)
    requires NoTerminator(signature)
    requires body.Some? ==> '\r' !in body.value
    ensures JavaLines(signature + BlockText(body))
         == [signature + "{"] + IndentAll(BodyPieces(body), 1) + ["}", ""]
  {
    var pieces := BodyPieces(body);
    PiecesHaveNoTerminator(body);
    var rest := IndentedPieces(pieces) + CLOSING;
    BlockTextSplit(signature, body);
    assert NoTerminator("{");
    NoTerminatorConcat(signature, "{");
    LinesCons(signature + "{", rest);
    PiecesLines(pieces);
    AppendAssoc([signature + "{"], IndentAll(pieces, 1), ["}", ""]);
  }

  lemma BlockTextSplit(signature: string, body: JString)
    ensures signature + BlockText(body)
         == (signature + "{") + LINE_SEPARATOR + (IndentedPieces(BodyPieces(body)) + CLOSING)
  {
    var rest := IndentedPieces(BodyPieces(body)) + CLOSING;
    AppendAssoc(OPENING, IndentedPieces(BodyPieces(body)), CLOSING);
    AppendAssoc(signature, OPENING, rest);
    AppendAssoc(signature, "{", LINE_SEPARATOR);
  }

  lemma PiecesHaveNoTerminator(body: JString)
    requires body.Some? ==> '\r' !in body.value
    ensures forall i | 0 <= i < |BodyPieces(body)| :: NoTerminator(BodyPieces(body)[i])
  {
    var pieces := BodyPieces(body);
    forall i | 0 <= i < |pieces| ensures NoTerminator(pieces[i]) {
      TokenChars(body.value, '\n', i);
    }
  }

  /** Every character of a token comes from the split string. */
  lemma {:induction false} TokenChars(s: string, c: char, i: nat)
    requires i < |Tokens(s, c)|
    ensures forall ch | ch in Tokens(s, c)[i] :: ch in s
    decreases |s|
  {
    if s[0] == c {
      TokenChars(s[1..], c, i);
    } else {
      var k := RunLength(s, c);
      if i > 0 {
        TokenChars(s[k..], c, i - 1);
      }
    }
  }
}
