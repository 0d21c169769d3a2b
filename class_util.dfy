/** The list of names the generator treats as native (primitive and boxed
    types and String) and a package-name helper. */
module ClassUtil {
  import opened Wrappers
  import opened JStrings

  const NATIVE_TYPES: seq<string> := [
    "byte", "Byte", "short", "Short", "int", "Integer", "long", "Long",
    "float", "Float", "double", "Double", "boolean", "Boolean", "char",
    "Character", "String"
  ]

  /** ArrayUtils.contains over NATIVE_TYPES: an exact, case-sensitive match
      of one of the listed names; a null name is not native. */
  predicate IsNative(className: JString) {
    className.Some? && className.value in NATIVE_TYPES
  }

  predicate IsNotNative(className: JString) {
    !IsNative(className)
  }

  /** The native list has 17 distinct names. */
  lemma NativeTypesDistinct()
    ensures |NATIVE_TYPES| == 17
    ensures forall i, j | 0 <= i < j < |NATIVE_TYPES| :: NATIVE_TYPES[i] != NATIVE_TYPES[j]
  {
  }

  /** isNotNative is the negation of isNative, and both agree with the list. */
  lemma NativeIff(className: JString)
    ensures IsNative(className) <==> exists i | 0 <= i < |NATIVE_TYPES| :: className == Some(NATIVE_TYPES[i])
    ensures IsNotNative(className) <==> !IsNative(className)
  {
    if IsNative(className) {
      var i :| 0 <= i < |NATIVE_TYPES| && NATIVE_TYPES[i] == className.value;
    }
  }

  /** A few names on the list. */
  lemma NativeExamples()
    ensures IsNative(Some("String")) && IsNative(Some("Integer")) && IsNative(Some("int"))
  {
    assert NATIVE_TYPES[16] == "String" && NATIVE_TYPES[5] == "Integer" && NATIVE_TYPES[4] == "int";
  }

  /** A few names off the list: the comparison is case-sensitive. */
  lemma NonNativeExamples()
    ensures !IsNative(Some("void")) && !IsNative(Some("Object")) && !IsNative(Some("string"))
    ensures !IsNative(None)
  {
    forall i | 0 <= i < |NATIVE_TYPES|
      ensures NATIVE_TYPES[i] != "void" && NATIVE_TYPES[i] != "Object" && NATIVE_TYPES[i] != "string"
    {
      // the six-letter names start with "d", "D" or "S"; the four-letter
      // names end in "e", "g" or "r"
      assert |NATIVE_TYPES[i]| == 6 ==> NATIVE_TYPES[i][0] in "dDS";
      assert |NATIVE_TYPES[i]| == 4 ==> NATIVE_TYPES[i][3] in "egr";
    }
  }

  /** removeClassFromPackage: the part of `packageName` before the first
      occurrence of "." + className, or the whole name when there is none. */
  function RemoveClassFromPackage(packageName: string, className: string): (r: string)
    ensures |r| <= |packageName| && r == packageName[..|r|]
    ensures IndexOf(packageName, PERIOD_TEXT + className).None? ==> r == packageName
    ensures IndexOf(packageName, PERIOD_TEXT + className).Some? ==>
              OccursAt(packageName, PERIOD_TEXT + className, |r|)
              && forall j | 0 <= j < |r| :: !OccursAt(packageName, PERIOD_TEXT + className, j)
  {
    SubstringBefore(packageName, PERIOD_TEXT + className)
  }

  const PERIOD_TEXT: string := "."

  /** A qualified name loses its trailing ".Class" part. */
  lemma RemoveTrailingClass(pkg: string, className: string)
    requires '.' !in pkg
    ensures RemoveClassFromPackage(pkg + "." + className, className) == pkg
  {
    var p := pkg + "." + className;
    var sep := PERIOD_TEXT + className;
    assert p[|pkg|..|pkg| + |sep|] == sep;
    assert OccursAt(p, sep, |pkg|);
    forall j | 0 <= j < |pkg|
      ensures !OccursAt(p, sep, j)
    {
      assert p[j] == pkg[j] != '.';
    }
  }
}
