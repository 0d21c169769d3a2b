/** Rendering a super-type reference in a class's extends clause or an
    interface's extends list: the type's name, then its generic values
    between "<" and ">" joined by ", ". Each ClassType value is rebuilt as
    a package-less or dotted type whose full class name is collected, and a
    raw value that is a GENERAL_CLASSES key collects the qualified name. */
module Headers {
  import opened Wrappers
  import opened JStrings
  import opened Collections
  import opened Constants
  import opened Types

  /** The rebuilt type of a ClassType generic value. A dotted name is split
      at its last "."; an undotted one is kept (class extends) or replaced by
      the value's full class name (interface extends). */
  function ArgumentType(c: ClassType, qualifyUndotted: bool): (r: ClassType)
    ensures r.generics == []
  {
    var n := ClassName(c);
    if n.Some? && Contains(n.value, PERIOD)
    then ClassType(Some(SubstringBeforeLast(n.value, PERIOD)), Some(SubstringAfterLast(n.value, PERIOD)), [])
    else ClassType(None, if qualifyUndotted then FullClassName(c) else n, [])
  }

  /** The text one generic value renders as. */
  function ArgumentText(g: GenArg, qualifyUndotted: bool): string {
    match g
    case T(c) => Show(ClassName(ArgumentType(c, qualifyUndotted)))
    case Raw(s) => Show(s)
  }

  /** The names one generic value adds to the import set. A null raw value
      is looked up in GENERAL_CLASSES, whose Map.of table rejects a null key
      with a NullPointerException; the null it contributes here makes adding
      to the import set fail with that same error. */
  function ArgumentImports(g: GenArg, qualifyUndotted: bool): seq<JString> {
    match g
    case T(c) => [FullClassName(ArgumentType(c, qualifyUndotted))]
    case Raw(None) => [None]
    case Raw(Some(s)) => if s in GENERAL_CLASSES then [Some(GENERAL_CLASSES[s])] else []
  }

  function ArgumentTexts(generics: seq<Entry<GenArg>>, qualifyUndotted: bool): (r: seq<string>)
    ensures |r| == |generics|
    ensures forall i | 0 <= i < |generics| :: r[i] == ArgumentText(generics[i].value, qualifyUndotted)
  {
    seq(|generics|, i requires 0 <= i < |generics| => ArgumentText(generics[i].value, qualifyUndotted))
  }

  /** The names of all generic values, in map order. */
  function ArgumentsImports(generics: seq<Entry<GenArg>>, qualifyUndotted: bool): seq<JString>
    decreases |generics|
  {
    if |generics| == 0 then []
    else ArgumentsImports(generics[..|generics| - 1], qualifyUndotted)
         + ArgumentImports(generics[|generics| - 1].value, qualifyUndotted)
  }

  /** The rendered super-type: its class name (a null one is a null
      dereference in the StringBuilder constructor), plus the generic
      arguments when the type has any. */
  function SuperTypeText(t: ClassType, qualifyUndotted: bool): (r: Result<string>)
    ensures r.Err? <==> t.name.None?
    ensures r.Ok? && |t.generics| == 0 ==> r.value == t.name.value
  {
    if t.name.None? then Err(NullPointerException)
    else if |t.generics| == 0 then Ok(t.name.value)
    else Ok(t.name.value + LESS_THAN + Join(ArgumentTexts(t.generics, qualifyUndotted), COMMA_SPACE) + MORE_THAN)
  }

  /** The names rendering a super-type adds to the import set. */
  function SuperTypeImports(t: ClassType, qualifyUndotted: bool): seq<JString> {
    ArgumentsImports(t.generics, qualifyUndotted)
  }

  /** A dotted generic value renders as its text after the last "." and is
      imported under its own name when that name has a package part and no
      generic text. */
  lemma DottedArgument(c: ClassType, qualifyUndotted: bool)
    requires c.name.Some? && Contains(c.name.value, PERIOD)
    ensures ArgumentText(T(c), qualifyUndotted) == SubstringAfterLast(c.name.value, PERIOD)
    ensures '<' !in c.name.value && !IsBlank(SubstringBeforeLast(c.name.value, PERIOD))
            ==> ArgumentImports(T(c), qualifyUndotted) == [c.name]
  {
    var n := c.name.value;
    var a := ArgumentType(c, qualifyUndotted);
    if '<' !in n && !IsBlank(SubstringBeforeLast(n, PERIOD)) {
      SplitAtLastDot(n);
      var after := SubstringAfterLast(n, PERIOD);
      assert forall ch | ch in after :: ch in n;
      assert NameNoGeneric(a) == Some(after);
      assert FullClassName(a).value == SubstringBeforeLast(n, PERIOD) + "." + after;
    }
  }

  /** An undotted generic value of an interface's super-type renders as the
      value's full class name, package included. */
  lemma UndottedInterfaceArgument(c: ClassType)
    requires c.name.Some? && !Contains(c.name.value, PERIOD)
    ensures ArgumentText(T(c), true) == Show(FullClassName(c))
    ensures ArgumentText(T(c), false) == c.name.value
  {
  }

  /** A raw GENERAL_CLASSES key adds its qualified name; any other raw
      value adds nothing. Either way it renders as it is. */
  lemma RawArgument(s: string, qualifyUndotted: bool)
    ensures ArgumentText(Raw(Some(s)), qualifyUndotted) == s
    ensures s in GENERAL_CLASSES ==> ArgumentImports(Raw(Some(s)), qualifyUndotted) == [Some(GENERAL_CLASSES[s])]
    ensures s !in GENERAL_CLASSES ==> ArgumentImports(Raw(Some(s)), qualifyUndotted) == []
  {
  }

  /** A null generic value anywhere in a super-type makes rendering it fail
      with a NullPointerException, while its text would read "null". */
  lemma {:induction false} NullArgumentFails(t: ClassType, qualifyUndotted: bool, classesToImport: seq<string>, i: nat)
    requires i < |t.generics| && t.generics[i].value == Raw(None)
    ensures ArgumentText(t.generics[i].value, qualifyUndotted) == "null"
    ensures TreeAddAll(classesToImport, SuperTypeImports(t, qualifyUndotted)) == Err(NullPointerException)
  {
    ArgumentsGrow(t.generics, i, qualifyUndotted);
    assert None in ArgumentsImports(t.generics[..i + 1], qualifyUndotted);
    ArgumentsImportsPrefix(t.generics, i + 1, qualifyUndotted);
  }

  /** Rendering with a name: "<" opens only when there are generics. */
  lemma SuperTypeWithGenerics(t: ClassType, qualifyUndotted: bool)
    requires t.name.Some? && |t.generics| > 0
    ensures var r := SuperTypeText(t, qualifyUndotted).value;
            r[..|t.name.value| + 1] == t.name.value + "<" && r[|r| - 1] == '>'
  {
    var r := SuperTypeText(t, qualifyUndotted).value;
    assert r == t.name.value + "<" + (Join(ArgumentTexts(t.generics, qualifyUndotted), COMMA_SPACE) + ">");
  }

  // ---------------------------------------------------------------------------
  // Annotation lines inside a declaration
  // ---------------------------------------------------------------------------

  /** Each line followed by a line separator, as the declaration builders
      append the unit's annotation lines. */
  function Terminated(lines: seq<string>): string
    decreases |lines|
  {
    if |lines| == 0 then "" else lines[0] + LINE_SEPARATOR + Terminated(lines[1..])
  }

  lemma {:induction false} TerminatedSnoc(lines: seq<string>, x: string)
    ensures Terminated(lines + [x]) == Terminated(lines) + x + LINE_SEPARATOR
    decreases |lines|
  {
    if |lines| == 0 {
      assert lines + [x] == [x];
      assert [x][1..] == [];
    } else {
      assert (lines + [x])[0] == lines[0];
      assert (lines + [x])[1..] == lines[1..] + [x];
      TerminatedSnoc(lines[1..], x);
    }
  }

  /** Reading the terminated lines back with String.lines() gives them back,
      followed by the lines of whatever comes after. */
  lemma {:induction false} TerminatedLines(lines: seq<string>, rest: string)
    requires forall i | 0 <= i < |lines| :: NoTerminator(lines[i])
    ensures JavaLines(Terminated(lines) + rest) == lines + JavaLines(rest)
    decreases |lines|
  {
    if |lines| > 0 {
      var head, t := lines[0], Terminated(lines[1..]);
      var tail := t + rest;
      assert Terminated(lines) == head + LINE_SEPARATOR + t;
      assert Terminated(lines) + rest == head + LINE_SEPARATOR + tail;
      LinesCons(head, tail);
      TerminatedLines(lines[1..], rest);
      var after := JavaLines(rest);
      assert JavaLines(Terminated(lines) + rest) == [head] + JavaLines(tail);
      assert JavaLines(tail) == lines[1..] + after;
      assert [head] + (lines[1..] + after) == ([head] + lines[1..]) + after;
      assert lines == [head] + lines[1..];
    } else {
      assert Terminated(lines) + rest == rest;
    }
  }

  /** The loop that appends the lines one by one. */
  method AppendTerminated(text: string, lines: seq<string>) returns (r: string)
    ensures r == text + Terminated(lines)
  {
    r := text;
    var i := 0;
    while i < |lines|
      invariant 0 <= i <= |lines|
      invariant r == text + Terminated(lines[..i])
    {
      TerminatedSnoc(lines[..i], lines[i]);
      assert lines[..i + 1] == lines[..i] + [lines[i]];
      r := r + lines[i] + LINE_SEPARATOR;
      i := i + 1;
    }
    assert lines[..i] == lines;
  }

  // ---------------------------------------------------------------------------
  // Rendering while collecting
  // ---------------------------------------------------------------------------

  /** The stream over a super-type's generic values: each value's text, and
      its names added to the import set as it is mapped. */
  method MapArguments(generics: seq<Entry<GenArg>>, classesToImport: seq<string>, qualifyUndotted: bool)
    returns (texts: seq<string>, r: Result<seq<string>>)
    ensures r.Ok? ==> texts == ArgumentTexts(generics, qualifyUndotted)
    ensures r == TreeAddAll(classesToImport, ArgumentsImports(generics, qualifyUndotted))
  {
    texts := [];
    var acc := classesToImport;
    var i := 0;
    while i < |generics|
      invariant 0 <= i <= |generics|
      invariant texts == ArgumentTexts(generics[..i], qualifyUndotted)
      invariant TreeAddAll(classesToImport, ArgumentsImports(generics[..i], qualifyUndotted)) == Ok(acc)
    {
      var g := generics[i].value;
      ghost var before := ArgumentsImports(generics[..i], qualifyUndotted);
      var mine := ArgumentImports(g, qualifyUndotted);
      ArgumentsGrow(generics, i, qualifyUndotted);
      TreeAddAllAppend(classesToImport, before, mine);
      var added := AddAllNames(acc, mine);
      if added.Err? {
        assert None in ArgumentsImports(generics[..i + 1], qualifyUndotted);
        ArgumentsImportsPrefix(generics, i + 1, qualifyUndotted);
        return texts, Err(added.error);
      }
      acc := added.value;
      texts := texts + [ArgumentText(g, qualifyUndotted)];
      i := i + 1;
    }
    assert generics[..i] == generics;
    r := Ok(acc);
  }

  /** One more generic value: its text and its names come last. */
  lemma ArgumentsGrow(generics: seq<Entry<GenArg>>, i: nat, qualifyUndotted: bool)
    requires i < |generics|
    ensures ArgumentsImports(generics[..i + 1], qualifyUndotted)
         == ArgumentsImports(generics[..i], qualifyUndotted) + ArgumentImports(generics[i].value, qualifyUndotted)
    ensures ArgumentTexts(generics[..i + 1], qualifyUndotted)
         == ArgumentTexts(generics[..i], qualifyUndotted) + [ArgumentText(generics[i].value, qualifyUndotted)]
  {
    assert generics[..i + 1][..i] == generics[..i];
  }

  /** The names of the first k generic values are among those of all. */
  lemma {:induction false} ArgumentsImportsPrefix(generics: seq<Entry<GenArg>>, k: nat, qualifyUndotted: bool)
    requires k <= |generics|
    ensures forall x | x in ArgumentsImports(generics[..k], qualifyUndotted) :: x in ArgumentsImports(generics, qualifyUndotted)
    decreases |generics|
  {
    if k < |generics| {
      var front := generics[..|generics| - 1];
      assert front[..k] == generics[..k];
      ArgumentsImportsPrefix(front, k, qualifyUndotted);
    } else {
      assert generics[..k] == generics;
    }
  }

  /** The StringBuilder over a super-type: its name (null is a null
      dereference), then its generic values, whose names are added to the
      import set while they are mapped. */
  method RenderSuperType(t: ClassType, classesToImport: seq<string>, qualifyUndotted: bool)
    returns (r: Result<(string, seq<string>)>)
    ensures r.Err? <==> SuperTypeText(t, qualifyUndotted).Err?
                        || TreeAddAll(classesToImport, SuperTypeImports(t, qualifyUndotted)).Err?
    ensures r.Ok? ==> Ok(r.value.0) == SuperTypeText(t, qualifyUndotted)
                      && Ok(r.value.1) == TreeAddAll(classesToImport, SuperTypeImports(t, qualifyUndotted))
  {
    if t.name.None? {
      return Err(NullPointerException);
    }
    var declaration := t.name.value;
    var grown := classesToImport;
    if |t.generics| > 0 {
      var texts, added := MapArguments(t.generics, classesToImport, qualifyUndotted);
      if added.Err? {
        return Err(added.error);
      }
      grown := added.value;
      declaration := declaration + LESS_THAN + Join(texts, COMMA_SPACE) + MORE_THAN;
    }
    return Ok((declaration, grown));
  }
}
