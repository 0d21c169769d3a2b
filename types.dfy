/** The type references the generator renders: a class type (package, raw
    name and ordered generic arguments), a native type (a bare name), and
    JavaType, the sum of the two. */
module Types {
  import opened Wrappers
  import opened JStrings
  import opened Collections

  /** A generic argument: a nested class type or a raw string, which may be
      null (the source reads every value that is not a ClassType as a
      String, and addGeneric accepts null). */
  datatype GenArg = T(classType: ClassType) | Raw(text: JString)

  /** ClassType. An empty `generics` stands for the null map: the builder only
      ever stores a non-empty map, and nothing removes entries. */
  datatype ClassType = ClassType(packageName: JString, name: JString, generics: seq<Entry<GenArg>>)

  datatype NativeType = NativeType(name: JString)

  datatype JavaType = Class(classType: ClassType) | Native(nativeType: NativeType)

  /** The name before its first "<", as the constructor stores it
      (substringBefore of a null name is null). */
  function NameNoGeneric(t: ClassType): (r: JString)
    ensures r.None? <==> t.name.None?
    ensures r.Some? ==> |r.value| <= |t.name.value| && r.value == t.name.value[..|r.value|]
    ensures r.Some? ==> '<' !in r.value
    ensures r.Some? && '<' !in t.name.value ==> r == t.name
  {
    match t.name
    case None => None
    case Some(n) =>
      var r := SubstringBefore(n, "<");
      NoCharBeforeFirst(n, '<', r);
      Some(r)
  }

  /** Nothing before the first occurrence of a one-character separator is
      that character; a string without it is left whole. */
  lemma NoCharBeforeFirst(s: string, c: char, r: string)
    requires r == SubstringBefore(s, [c])
    ensures c !in r
    ensures c !in s ==> r == s
  {
    if |s| > 0 {
      forall j | 0 <= j < |s| && !OccursAt(s, [c], j) ensures s[j] != c {
        assert s[j..j + 1] == [s[j]];
      }
      if c !in s {
        forall j | 0 <= j <= |s| ensures !OccursAt(s, [c], j) {
          if j < |s| {
            assert s[j..j + 1] == [s[j]];
          }
        }
      }
      forall j | 0 <= j < |r| ensures r[j] != c {
        assert !OccursAt(s, [c], j);
        assert r[j] == s[j];
      }
    }
  }

  /** createClassTypeWithPackageAndName: a type without generics. */
  function CreateClassTypeWithPackageAndName(packageName: JString, className: JString): (r: ClassType)
    ensures r.packageName == packageName && r.name == className
    ensures ClassNameWithGeneric(r) == className
  {
    ClassType(packageName, className, [])
  }

  /** getFullClassName: the name without generics, qualified by the package
      when the package is not blank (String.format prints a null name as
      "null"). */
  function FullClassName(t: ClassType): (r: JString)
    ensures IsBlankJ(t.packageName) ==> r == NameNoGeneric(t)
    ensures !IsBlankJ(t.packageName) ==>
              var p := t.packageName.value;
              r.Some? && |r.value| > |p| && r.value[..|p| + 1] == p + "."
              && r.value[|p| + 1..] == Show(NameNoGeneric(t))
    ensures r.Some? && !IsBlankJ(t.packageName) && t.name.Some? ==> '<' !in r.value[|t.packageName.value| + 1..]
  {
    if IsBlankJ(t.packageName) then NameNoGeneric(t)
    else
      var p := t.packageName.value;
      var r := p + "." + Show(NameNoGeneric(t));
      assert r[..|p| + 1] == p + ".";
      Some(r)
  }

  /** getClassName: the name exactly as given, generic text included. */
  function ClassName(t: ClassType): (r: JString)
    ensures r == t.name
  {
    t.name
  }

  /** getClassNameWithGeneric: without generics the plain name; otherwise
      name + "<" + the argument texts in map order joined by "," + ">". */
  function ClassNameWithGeneric(t: ClassType): (r: JString)
    ensures |t.generics| == 0 ==> r == t.name
    ensures |t.generics| > 0 ==> r.Some? && r.value == Show(t.name) + "<" + Join(ArgTexts(t), ",") + ">"
    decreases t, 1
  {
    if |t.generics| == 0 then t.name
    else Some(Show(t.name) + "<" + Join(ArgTexts(t), ",") + ">")
  }

  /** The rendered generic arguments of `t`, in map order. */
  function ArgTexts(t: ClassType): (r: seq<string>)
    ensures |r| == |t.generics|
    decreases t, 0
  {
    seq(|t.generics|, i requires 0 <= i < |t.generics| => ArgText(t.generics[i].value))
  }

  /** A nested class type renders recursively; a raw string as it is, and a
      null one as "null", as Collectors.joining appends it. */
  function ArgText(a: GenArg): string
    decreases a
  {
    match a
    case T(c) => Show(ClassNameWithGeneric(c))
    case Raw(s) => Show(s)
  }

  /** JavaType.getName. */
  function Name(j: JavaType): JString {
    match j
    case Class(c) => c.name
    case Native(n) => n.name
  }

  /** getFullName: a class type's name with its generics; a native type's
      bare name, exactly as constructed. */
  function FullName(j: JavaType): (r: JString)
    ensures j.Class? ==> r == ClassNameWithGeneric(j.classType)
    ensures j.Native? ==> r == j.nativeType.name == Name(j)
  {
    match j
    case Class(c) => ClassNameWithGeneric(c)
    case Native(n) => n.name
  }

  // ---------------------------------------------------------------------------
  // Properties of the rendering
  // ---------------------------------------------------------------------------

  /** A class type qualified and then split at its last dot gives back its
      package, provided the simple name has no dot of its own: this is what
      lets the import filter recognise same-package classes. */
  lemma {:induction false} FullClassNamePackage(t: ClassType)
    requires !IsBlankJ(t.packageName) && t.name.Some? && '.' !in t.name.value
    ensures FullClassName(t).Some?
    ensures SubstringBeforeLast(FullClassName(t).value, ".") == t.packageName.value
    ensures SubstringAfterLast(FullClassName(t).value, ".") == NameNoGeneric(t).value
  {
    var p := t.packageName.value;
    var n := NameNoGeneric(t).value;
    var s := FullClassName(t).value;
    assert s == p + "." + n;
    assert '.' !in n;
    LastDotBefore(p, n);
  }

  /** The last dot of p + "." + n is the one between them when n has no dot. */
  lemma LastDotBefore(p: string, n: string)
    requires '.' !in n && |p| > 0
    ensures SubstringBeforeLast(p + "." + n, ".") == p
    ensures SubstringAfterLast(p + "." + n, ".") == n
  {
    var s := p + "." + n;
    assert s[|p|..|p| + 1] == ".";
    assert OccursAt(s, ".", |p|);
    var k := LastIndexOf(s, ".");
    forall j | |p| < j <= |s| ensures !OccursAt(s, ".", j) {
      if j < |s| {
        assert s[j] == n[j - |p| - 1];
        assert s[j..j + 1] == [s[j]];
      }
    }
    assert k.Some? && k.value == |p|;
    assert s[..|p|] == p;
    assert s[|p| + 1..] == n;
  }

  function Count(s: string, c: char): nat
    decreases |s|
  {
    if |s| == 0 then 0 else (if s[0] == c then 1 else 0) + Count(s[1..], c)
  }

  lemma {:induction false} CountConcat(a: string, b: string, c: char)
    ensures Count(a + b, c) == Count(a, c) + Count(b, c)
    decreases |a|
  {
    if |a| > 0 {
      assert (a + b)[0] == a[0];
      assert (a + b)[1..] == a[1..] + b;
      CountConcat(a[1..], b, c);
    } else {
      assert a + b == b;
    }
  }

  lemma {:induction false} CountAbsent(s: string, c: char)
    requires c !in s
    ensures Count(s, c) == 0
    decreases |s|
  {
    if |s| > 0 {
      CountAbsent(s[1..], c);
    }
  }

  predicate Balanced(s: string) {
    Count(s, '<') == Count(s, '>')
  }

  predicate NoAngles(s: string) {
    '<' !in s && '>' !in s
  }

  /** Names and raw arguments, to any depth, carry no angle brackets. */
  predicate PlainNames(t: ClassType)
    decreases t
  {
    (t.name.None? || NoAngles(t.name.value))
    && forall i | 0 <= i < |t.generics| ::
         match t.generics[i].value
         case T(c) => PlainNames(c)
         case Raw(s) => s.None? || NoAngles(s.value)
  }

  lemma {:induction false} JoinBalanced(parts: seq<string>, sep: string)
    requires NoAngles(sep)
    requires forall i | 0 <= i < |parts| :: Balanced(parts[i])
    ensures Balanced(Join(parts, sep))
    decreases |parts|
  {
    if |parts| > 1 {
      JoinBalanced(parts[1..], sep);
      CountAbsent(sep, '<');
      CountAbsent(sep, '>');
      CountConcat(parts[0], sep, '<');
      CountConcat(parts[0], sep, '>');
      CountConcat(parts[0] + sep, Join(parts[1..], sep), '<');
      CountConcat(parts[0] + sep, Join(parts[1..], sep), '>');
    }
  }

  /** With plain names, every "<" the renderer writes is matched by a ">":
      nested generics come out balanced. */
  lemma {:induction false} GenericTextBalanced(t: ClassType)
    requires PlainNames(t)
    ensures Balanced(Show(ClassNameWithGeneric(t)))
    decreases t
  {
    CountAbsent(Show(t.name), '<');
    CountAbsent(Show(t.name), '>');
    if |t.generics| > 0 {
      var parts := ArgTexts(t);
      forall i | 0 <= i < |parts|
        ensures Balanced(parts[i])
      {
        assert parts[i] == ArgText(t.generics[i].value);
        match t.generics[i].value
        case T(c) =>
          GenericTextBalanced(c);
        case Raw(s) =>
          CountAbsent(Show(s), '<');
          CountAbsent(Show(s), '>');
      }
      JoinBalanced(parts, ",");
      var j := Join(parts, ",");
      CountConcat(Show(t.name), "<", '<');
      CountConcat(Show(t.name), "<", '>');
      CountConcat(Show(t.name) + "<", j, '<');
      CountConcat(Show(t.name) + "<", j, '>');
      CountConcat(Show(t.name) + "<" + j, ">", '<');
      CountConcat(Show(t.name) + "<" + j, ">", '>');
    }
  }
}
