/** The generator's shared string constants and the table that maps a few
    well-known short class names to their fully-qualified names. */
module Constants {
  import opened Wrappers

  /** The regular expression used to split a package name (a backslash
      followed by a dot, as in the Java source text). */
  const SEARCH_DOT: string := "\\."
  const SEMI_COLON: string := ";"
  const OPEN_BRACE: string := "{"
  const CLOSE_BRACE: string := "}"
  const PERIOD: string := "."
  /** The placeholder in constructor lines that the class renderer replaces
      by the class name. */
  const CLASSNAME_PARAMETER: string := "{_CLASSNAME_}"
  const LESS_THAN: string := "<"
  const MORE_THAN: string := ">"
  const COMMA: string := ","
  const COMMA_SPACE: string := ", "

  /** Short class names whose qualified name is imported automatically when
      they appear as raw generic arguments of a super-type. */
  const GENERAL_CLASSES: map<string, string> := map[
    "UUID" := "java.util.UUID",
    "LocalDate" := "java.time.LocalDate",
    "LocalDateTime" := "java.time.LocalDateTime",
    "Optional" := "java.util.Optional",
    "Stream" := "java.util.stream.Stream"
  ]

  /** The characters that have a special meaning in a Java regular expression. */
  predicate IsRegexMeta(c: char) {
    c in "\\.[]{}()<>*+-=!?^$|"
  }

  /** The literal text a regular expression matches when it consists only of
      escaped characters and plain non-meta characters; None for any other
      pattern (those are not literals). */
  function RegexLiteral(p: string): (r: Option<string>)
    ensures r.Some? ==> |r.value| <= |p|
    decreases |p|
  {
    if |p| == 0 then Some("")
    else if p[0] == '\\' then
      if |p| == 1 then None
      else
        match RegexLiteral(p[2..])
        case Some(rest) => Some([p[1]] + rest)
        case None => None
    else if IsRegexMeta(p[0]) then None
    else
      match RegexLiteral(p[1..])
      case Some(rest) => Some([p[0]] + rest)
      case None => None
  }

  /** SEARCH_DOT matches exactly one literal dot: splitting on it splits on
      "." and on nothing else. */
  lemma SearchDotIsLiteralDot()
    ensures RegexLiteral(SEARCH_DOT) == Some(PERIOD)
  {
    assert SEARCH_DOT[0] == '\\' && SEARCH_DOT[1] == '.';
    assert RegexLiteral(SEARCH_DOT[2..]) == Some("") by {
      assert SEARCH_DOT[2..] == "";
    }
    assert [SEARCH_DOT[1]] + "" == PERIOD;
  }

  /** GENERAL_CLASSES has exactly five keys, each mapped to its qualified name. */
  lemma GeneralClassesTable()
    ensures GENERAL_CLASSES.Keys == {"UUID", "LocalDate", "LocalDateTime", "Optional", "Stream"}
    ensures |GENERAL_CLASSES| == 5
    ensures GENERAL_CLASSES["UUID"] == "java.util.UUID"
    ensures GENERAL_CLASSES["LocalDate"] == "java.time.LocalDate"
    ensures GENERAL_CLASSES["LocalDateTime"] == "java.time.LocalDateTime"
    ensures GENERAL_CLASSES["Optional"] == "java.util.Optional"
    ensures GENERAL_CLASSES["Stream"] == "java.util.stream.Stream"
  {
  }

  /** The five keys are the only ones. */
  lemma GeneralClassesKeys(k: string)
    requires k in GENERAL_CLASSES
    ensures k == "UUID" || k == "LocalDate" || k == "LocalDateTime" || k == "Optional" || k == "Stream"
  {
  }

  /** Each qualified name is its package, ".", and the key. */
  lemma GeneralClassesByPackage()
    ensures GENERAL_CLASSES["UUID"] == "java.util" + PERIOD + "UUID"
    ensures GENERAL_CLASSES["Optional"] == "java.util" + PERIOD + "Optional"
    ensures GENERAL_CLASSES["Stream"] == "java.util.stream" + PERIOD + "Stream"
    ensures GENERAL_CLASSES["LocalDate"] == "java.time" + PERIOD + "LocalDate"
    ensures GENERAL_CLASSES["LocalDateTime"] == "java.time" + PERIOD + "LocalDateTime"
  {
  }

  /** A package name, ".", then a key ends with "." and that key. */
  lemma SuffixAfterPackage(pkg: string, k: string, q: string)
    requires q == pkg + PERIOD + k
    ensures |q| > |k| && q[|q| - |k| - 1..] == PERIOD + k
  {
    assert q == pkg + (PERIOD + k);
    assert q[|pkg|..] == PERIOD + k;
  }

  /** Every qualified name in GENERAL_CLASSES ends with "." and its key. */
  lemma GeneralClassesEndWithKey(k: string)
    requires k in GENERAL_CLASSES
    ensures |GENERAL_CLASSES[k]| > |k|
    ensures GENERAL_CLASSES[k][|GENERAL_CLASSES[k]| - |k| - 1..] == PERIOD + k
  {
    GeneralClassesKeys(k);
    GeneralClassesByPackage();
    var pkg := if k == "UUID" || k == "Optional" then "java.util"
               else if k == "Stream" then "java.util.stream"
               else "java.time";
    SuffixAfterPackage(pkg, k, GENERAL_CLASSES[k]);
  }

  /** The placeholder token and the two comma separators, as literal text. */
  lemma SeparatorConstants()
    ensures CLASSNAME_PARAMETER == OPEN_BRACE + "_CLASSNAME_" + CLOSE_BRACE
    ensures COMMA != COMMA_SPACE && COMMA_SPACE == COMMA + " "
    ensures '.' !in CLASSNAME_PARAMETER && CLASSNAME_PARAMETER[0] == '{'
  {
  }
}
