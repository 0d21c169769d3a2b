/** Indentation of generated lines: four spaces per level. */
module Indentation {
  import opened JStrings

  const SPACE_INDENT: nat := 4

  /** getIndentation(level): SPACE_INDENT * level spaces. */
  function GetIndentation(level: nat): (r: string)
    ensures |r| == SPACE_INDENT * level
  {
    RepeatSpace(SPACE_INDENT * level);
    Repeat(SPACE, SPACE_INDENT * level)
  }

  /** The indentation is made of spaces only. */
  lemma IndentationIsSpaces(level: nat)
    ensures forall i | 0 <= i < |GetIndentation(level)| :: GetIndentation(level)[i] == ' '
  {
    RepeatSpace(SPACE_INDENT * level);
  }

  /** Each indentation level adds the same four spaces in front. */
  lemma IndentationLevels(level: nat)
    ensures GetIndentation(level + 1) == GetIndentation(1) + GetIndentation(level)
  {
    var a, b, c := GetIndentation(level + 1), GetIndentation(1), GetIndentation(level);
    assert |a| == |b + c|;
    IndentationIsSpaces(level + 1);
    IndentationIsSpaces(1);
    IndentationIsSpaces(level);
    forall i | 0 <= i < |a| ensures a[i] == (b + c)[i] {
    }
  }

  /** An indented line splits back into its indentation and its text. */
  lemma IndentedText(level: nat, s: string)
    ensures (GetIndentation(level) + s)[SPACE_INDENT * level..] == s
    ensures (GetIndentation(level) + s)[..SPACE_INDENT * level] == GetIndentation(level)
  {
  }

  /** Every line of `lines` with `level` indentation prefixed, in order. */
  function IndentAll(lines: seq<string>, level: nat): (r: seq<string>)
    ensures |r| == |lines|
    ensures forall i | 0 <= i < |r| :: r[i] == GetIndentation(level) + lines[i]
  {
    seq(|lines|, i requires 0 <= i < |lines| => GetIndentation(level) + lines[i])
  }

  lemma IndentAllConcat(a: seq<string>, b: seq<string>, level: nat)
    ensures IndentAll(a + b, level) == IndentAll(a, level) + IndentAll(b, level)
  {
  }

  /** The first indented line and the rest. */
  lemma IndentAllCons(lines: seq<string>, level: nat)
    requires |lines| > 0
    ensures IndentAll(lines, level) == [GetIndentation(level) + lines[0]] + IndentAll(lines[1..], level)
  {
  }

  /** Indenting a line adds no line terminator. */
  lemma IndentedNoTerminator(level: nat, s: string)
    requires NoTerminator(s)
    ensures NoTerminator(GetIndentation(level) + s)
  {
    IndentationIsSpaces(level);
    var t := GetIndentation(level) + s;
    forall i | 0 <= i < |t| ensures !IsTerminator(t[i]) {
      if i >= |GetIndentation(level)| {
        assert t[i] == s[i - |GetIndentation(level)|];
      }
    }
  }
}
