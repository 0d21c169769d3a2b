/** Java modifiers and the choice of the single access word a declaration
    renders. */
module Modifiers {

  datatype Modifier = PUBLIC | PRIVATE | PROTECTED | FINAL | ABSTRACT | STATIC

  /** The enum constant's name, as Java's name() returns it. */
  function Name(m: Modifier): string {
    match m
    case PUBLIC => "PUBLIC"
    case PRIVATE => "PRIVATE"
    case PROTECTED => "PROTECTED"
    case FINAL => "FINAL"
    case ABSTRACT => "ABSTRACT"
    case STATIC => "STATIC"
  }

  function LowerAscii(c: char): char {
    if 'A' <= c <= 'Z' then (c as int - 'A' as int + 'a' as int) as char else c
  }

  /** Lower-casing of an ASCII string. */
  function LowerCase(s: string): (r: string)
    ensures |r| == |s|
  {
    seq(|s|, i requires 0 <= i < |s| => LowerAscii(s[i]))
  }

  /** The word a modifier renders as, name().toLowerCase(); the lemma
      WordIsLowerCasedName shows the two agree. */
  function Word(m: Modifier): (r: string)
    ensures |r| > 0 && ' ' !in r
    ensures forall i | 0 <= i < |r| :: 'a' <= r[i] <= 'z'
  {
    match m
    case PUBLIC => "public"
    case PRIVATE => "private"
    case PROTECTED => "protected"
    case FINAL => "final"
    case ABSTRACT => "abstract"
    case STATIC => "static"
  }

  /** Each word is the lower-cased enum name. */
  lemma WordIsLowerCasedName(m: Modifier)
    ensures Word(m) == LowerCase(Name(m))
  {
    match m
    case PUBLIC => assert LowerCase("PUBLIC") == "public";
    case PRIVATE => assert LowerCase("PRIVATE") == "private";
    case PROTECTED => assert LowerCase("PROTECTED") == "protected";
    case FINAL => assert LowerCase("FINAL") == "final";
    case ABSTRACT => assert LowerCase("ABSTRACT") == "abstract";
    case STATIC => assert LowerCase("STATIC") == "static";
  }

  /** The six words, as they appear in generated Java source. */
  lemma WordsAreKeywords()
    ensures Word(PUBLIC) == "public" && Word(PRIVATE) == "private"
    ensures Word(PROTECTED) == "protected" && Word(FINAL) == "final"
    ensures Word(ABSTRACT) == "abstract" && Word(STATIC) == "static"
  {
  }

  /** Distinct modifiers render as distinct words. */
  lemma WordInjective(a: Modifier, b: Modifier)
    requires Word(a) == Word(b)
    ensures a == b
  {
    WordsAreKeywords();
  }

  const ACCESS_MODIFIERS: set<Modifier> := {PUBLIC, PRIVATE, PROTECTED}
  const METHOD_ACCESS_MODIFIERS: set<Modifier> := {PUBLIC, PRIVATE, PROTECTED, ABSTRACT, STATIC}

  /** A possible iteration order of a Java Set holding exactly `members`:
      each member once and nothing else. Set.of fixes no particular one. */
  predicate IsIterationOrder(order: seq<Modifier>, members: set<Modifier>) {
    (forall i, j | 0 <= i < j < |order| :: order[i] != order[j])
    && (forall m :: m in order <==> m in members)
  }

  /** The order in which the constants are listed in the source; the
      renderers use it as the iteration order. */
  const ACCESS_ORDER: seq<Modifier> := [PUBLIC, PRIVATE, PROTECTED]
  const METHOD_ACCESS_ORDER: seq<Modifier> := [PUBLIC, PRIVATE, PROTECTED, ABSTRACT, STATIC]

  lemma DeclarationOrdersAreIterationOrders()
    ensures IsIterationOrder(ACCESS_ORDER, ACCESS_MODIFIERS)
    ensures IsIterationOrder(METHOD_ACCESS_ORDER, METHOD_ACCESS_MODIFIERS)
  {
  }

  /** The loop of both source functions: walk `order` and return the word of
      the first modifier that `modifiers` contains, or "" if there is none. */
  function FirstPresent(order: seq<Modifier>, modifiers: seq<Modifier>): (r: string)
    ensures r == "" <==> (forall m | m in order :: m !in modifiers)
    ensures r != "" ==> exists m | m in order && m in modifiers :: r == Word(m)
    ensures r != "" ==> ' ' !in r
    ensures forall i | 0 <= i < |r| :: 'a' <= r[i] <= 'z'
  {
    if |order| == 0 then ""
    else if order[0] in modifiers then Word(order[0])
    else FirstPresent(order[1..], modifiers)
  }

  /** currentAccessModifier, for any iteration order of ACCESS_MODIFIERS:
      "" exactly when none of public, private, protected is present, and
      otherwise the word of one present access modifier. */
  function CurrentAccessModifier(modifiers: seq<Modifier>, order: seq<Modifier>): (r: string)
    requires IsIterationOrder(order, ACCESS_MODIFIERS)
    ensures r == "" <==> (forall m | m in ACCESS_MODIFIERS :: m !in modifiers)
    ensures r != "" ==> exists m | m in ACCESS_MODIFIERS && m in modifiers :: r == Word(m)
    ensures ' ' !in r
    ensures forall i | 0 <= i < |r| :: 'a' <= r[i] <= 'z'
  {
    FirstPresent(order, modifiers)
  }

  /** currentMethodAccessModifier, for any iteration order of
      METHOD_ACCESS_MODIFIERS. */
  function CurrentMethodAccessModifier(modifiers: seq<Modifier>, order: seq<Modifier>): (r: string)
    requires IsIterationOrder(order, METHOD_ACCESS_MODIFIERS)
    ensures r == "" <==> (forall m | m in METHOD_ACCESS_MODIFIERS :: m !in modifiers)
    ensures r != "" ==> exists m | m in METHOD_ACCESS_MODIFIERS && m in modifiers :: r == Word(m)
    ensures ' ' !in r
    ensures forall i | 0 <= i < |r| :: 'a' <= r[i] <= 'z'
  {
    FirstPresent(order, modifiers)
  }

  /** The access word the renderers use (declaration order). */
  function AccessWord(modifiers: seq<Modifier>): (r: string)
    ensures ' ' !in r
    ensures forall i | 0 <= i < |r| :: 'a' <= r[i] <= 'z'
  {
    DeclarationOrdersAreIterationOrders();
    CurrentAccessModifier(modifiers, ACCESS_ORDER)
  }

  /** The method access word the method renderer uses (declaration order). */
  function MethodAccessWord(modifiers: seq<Modifier>): (r: string)
    ensures ' ' !in r
    ensures forall i | 0 <= i < |r| :: 'a' <= r[i] <= 'z'
  {
    DeclarationOrdersAreIterationOrders();
    CurrentMethodAccessModifier(modifiers, METHOD_ACCESS_ORDER)
  }

  /** final, abstract and static are never the access word. */
  lemma AccessWordNeverOther(modifiers: seq<Modifier>, order: seq<Modifier>)
    requires IsIterationOrder(order, ACCESS_MODIFIERS)
    ensures CurrentAccessModifier(modifiers, order) in {"", "public", "private", "protected"}
  {
    var r := CurrentAccessModifier(modifiers, order);
    if r != "" {
      var m :| m in ACCESS_MODIFIERS && m in modifiers && r == Word(m);
      AccessModifierWord(m);
    }
  }

  lemma AccessModifierWord(m: Modifier)
    requires m in ACCESS_MODIFIERS
    ensures Word(m) in {"public", "private", "protected"}
  {
    assert m == PUBLIC || m == PRIVATE || m == PROTECTED;
  }

  /** final is never the method access word. */
  lemma MethodAccessWordNeverFinal(modifiers: seq<Modifier>, order: seq<Modifier>)
    requires IsIterationOrder(order, METHOD_ACCESS_MODIFIERS)
    ensures CurrentMethodAccessModifier(modifiers, order)
              in {"", "public", "private", "protected", "abstract", "static"}
  {
    var r := CurrentMethodAccessModifier(modifiers, order);
    if r != "" {
      var m :| m in METHOD_ACCESS_MODIFIERS && m in modifiers && r == Word(m);
      MethodAccessModifierWord(m);
    }
  }

  lemma MethodAccessModifierWord(m: Modifier)
    requires m in METHOD_ACCESS_MODIFIERS
    ensures Word(m) in {"public", "private", "protected", "abstract", "static"}
  {
    assert m != FINAL;
  }

  /** With at most one qualifying modifier present, the unspecified
      iteration order does not matter. */
  lemma {:induction false} FirstPresentUnique(o1: seq<Modifier>, o2: seq<Modifier>,
                                             members: set<Modifier>, modifiers: seq<Modifier>)
    requires IsIterationOrder(o1, members) && IsIterationOrder(o2, members)
    requires forall a, b | a in members && b in members && a in modifiers && b in modifiers :: a == b
    ensures FirstPresent(o1, modifiers) == FirstPresent(o2, modifiers)
  {
    var r1, r2 := FirstPresent(o1, modifiers), FirstPresent(o2, modifiers);
    if r1 != "" {
      var a :| a in o1 && a in modifiers && r1 == Word(a);
      assert r2 != "";
      var b :| b in o2 && b in modifiers && r2 == Word(b);
    } else {
      assert forall m | m in o2 :: m in o1;
    }
  }

  /** Every present qualifying modifier wins under some iteration order: the
      source's choice among several present modifiers is genuinely open. */
  lemma {:induction false} AnyPresentCanWin(members: set<Modifier>, modifiers: seq<Modifier>, m: Modifier)
    requires m in members && m in modifiers
    ensures exists order :: IsIterationOrder(order, members) && FirstPresent(order, modifiers) == Word(m)
  {
    var rest := OrderOf(members - {m});
    var order := [m] + rest;
    assert order[0] == m;
    assert IsIterationOrder(order, members);
  }

  /** Some iteration order of a set of modifiers. */
  ghost function OrderOf(s: set<Modifier>): (r: seq<Modifier>)
    ensures IsIterationOrder(r, s)
    decreases |s|
  {
    if s == {} then []
    else
      var x :| x in s;
      [x] + OrderOf(s - {x})
  }
}
