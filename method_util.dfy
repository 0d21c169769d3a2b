/** importClassesFromMethods: the names a unit's methods contribute to the
    sorted set of classes to import. The caller's TreeSet is passed in and
    the grown set handed back. */
module MethodUtil {
  import opened Wrappers
  import opened JStrings
  import opened Collections
  import opened Types
  import opened ClassUtil
  import opened Annotations
  import opened Parameters
  import opened Methods
  import opened ImportNames

  /** A ClassType return type: its full class name, then those of its
      ClassType generic values. A native or missing return type: nothing. */
  function ReturnNames(returnType: Option<JavaType>): seq<JString> {
    match returnType
    case Some(Class(t)) => [FullClassName(t)] + GenericClassNames(t.generics)
    case _ => []
  }

  /** The name a parameter type is imported under: the full class name of a
      ClassType, getFullName of any other type. */
  function ParameterTypeName(j: JavaType): JString {
    match j
    case Class(t) => FullClassName(t)
    case Native(n) => FullName(j)
  }

  /** The parameter types that are set and whose name is not native, in order. */
  function ParameterTypeNames(parameters: seq<ParameterDefinition>): seq<JString>
    decreases |parameters|
  {
    if |parameters| == 0 then []
    else
      var p := parameters[0];
      var rest := ParameterTypeNames(parameters[1..]);
      if p.parameterType.Some? && IsNotNative(ParameterTypeName(p.parameterType.value))
      then [ParameterTypeName(p.parameterType.value)] + rest
      else rest
  }

  /** The classes of every parameter's annotations, parameter by parameter. */
  function ParameterAnnotationNames(parameters: seq<ParameterDefinition>): seq<JString>
    decreases |parameters|
  {
    if |parameters| == 0 then []
    else AnnotationClassNames(parameters[0].annotationTypes) + ParameterAnnotationNames(parameters[1..])
  }

  /** Everything one method contributes, in the order the source adds it. */
  function MethodNames(s: MethodState): seq<JString> {
    ReturnNames(s.returnType) + AnnotationClassNames(s.annotationTypes)
    + ParameterTypeNames(s.parameters) + ParameterAnnotationNames(s.parameters)
  }

  /** The contributions of all methods, method by method. */
  function MethodListNames(methods: seq<MethodDefinition>): seq<JString>
    decreases |methods|
  {
    if |methods| == 0 then []
    else MethodListNames(methods[..|methods| - 1]) + MethodNames(methods[|methods| - 1].state)
  }

  /** importClassesFromMethods, as a function: a null collection leaves the set
      as it is; otherwise every contributed name is added, and a null among
      them is a NullPointerException. */
  function MethodsImports(methods: Option<seq<MethodDefinition>>, classesToImport: seq<string>)
    : (r: Result<seq<string>>)
    ensures methods.None? ==> r == Ok(classesToImport)
    ensures methods.Some? ==> (r.Err? <==> None in MethodListNames(methods.value))
  {
    if methods.None? then Ok(classesToImport) else TreeAddAll(classesToImport, MethodListNames(methods.value))
  }

  /** Each method's names are among the names of the list. */
  lemma {:induction false} MethodNamesListed(methods: seq<MethodDefinition>, i: nat, x: JString)
    requires i < |methods| && x in MethodNames(methods[i].state)
    ensures x in MethodListNames(methods)
    decreases |methods|
  {
    if i < |methods| - 1 {
      var front := methods[..|methods| - 1];
      assert front[i] == methods[i];
      MethodNamesListed(front, i, x);
    }
  }

  /** The nested forEach loops: method by method, name by name. */
  method ImportClassesFromMethods(methods: Option<seq<MethodDefinition>>, classesToImport: seq<string>)
    returns (r: Result<seq<string>>)
    ensures r == MethodsImports(methods, classesToImport)
  {
    if methods.None? {
      return Ok(classesToImport);
    }
    var ms := methods.value;
    var acc := classesToImport;
    var i := 0;
    while i < |ms|
      invariant 0 <= i <= |ms|
      invariant TreeAddAll(classesToImport, MethodListNames(ms[..i])) == Ok(acc)
    {
      var names := MethodNames(ms[i].state);
      var grown := AddAllNames(acc, names);
      if grown.Err? {
        MethodNamesListed(ms, i, None);
        return Err(NullPointerException);
      }
      acc := grown.value;
      assert ms[..i + 1][..i] == ms[..i];
      assert MethodListNames(ms[..i + 1]) == MethodListNames(ms[..i]) + names;
      TreeAddAllAppend(classesToImport, MethodListNames(ms[..i]), names);
      i := i + 1;
    }
    assert ms[..|ms|] == ms;
    return Ok(acc);
  }

  // ---------------------------------------------------------------------------
  // What the import set gains
  // ---------------------------------------------------------------------------

  /** Names are only ever added: everything already in the set stays, the
      set stays sorted, and nothing else appears but contributed names. */
  lemma ImportsOnlyInsert(methods: Option<seq<MethodDefinition>>, classesToImport: seq<string>)
    requires Sorted(classesToImport)
    requires MethodsImports(methods, classesToImport).Ok?
    ensures var r := MethodsImports(methods, classesToImport).value;
            Sorted(r) && (forall x | x in classesToImport :: x in r)
            && (forall x | x in r && x !in classesToImport :: methods.Some? && Some(x) in MethodListNames(methods.value))
  {
    if methods.Some? {
      TreeAddAllSorted(classesToImport, MethodListNames(methods.value));
    }
  }

  /** The contributed names of method i end up in the set. */
  lemma MethodNamesImported(methods: seq<MethodDefinition>, classesToImport: seq<string>, i: nat, x: string)
    requires i < |methods| && Some(x) in MethodNames(methods[i].state)
    requires MethodsImports(Some(methods), classesToImport).Ok?
    ensures x in MethodsImports(Some(methods), classesToImport).value
  {
    MethodNamesListed(methods, i, Some(x));
  }

  /** A ClassType return type brings its full class name and the full class
      name of every ClassType generic value. */
  lemma ClassReturnTypeImported(methods: seq<MethodDefinition>, classesToImport: seq<string>, i: nat, t: ClassType)
    requires i < |methods| && methods[i].state.returnType == Some(Class(t))
    requires MethodsImports(Some(methods), classesToImport).Ok?
    ensures FullClassName(t).Some? && FullClassName(t).value in MethodsImports(Some(methods), classesToImport).value
    ensures forall k | 0 <= k < |t.generics| && t.generics[k].value.T? ::
              var c := t.generics[k].value.classType;
              FullClassName(c).Some? && FullClassName(c).value in MethodsImports(Some(methods), classesToImport).value
  {
    var r := MethodsImports(Some(methods), classesToImport).value;
    var names := MethodNames(methods[i].state);
    MethodNamesListed(methods, i, FullClassName(t));
    forall k | 0 <= k < |t.generics| && t.generics[k].value.T?
      ensures var c := t.generics[k].value.classType;
              FullClassName(c).Some? && FullClassName(c).value in r
    {
      var c := t.generics[k].value.classType;
      GenericClassNamesCover(t.generics, k);
      assert FullClassName(c) in names;
      MethodNamesListed(methods, i, FullClassName(c));
    }
  }

  /** A native return type contributes nothing: the method contributes what
      it would without a return type. */
  lemma NativeReturnTypeNotImported(s: MethodState, n: NativeType)
    ensures MethodNames(s.(returnType := Some(Native(n)))) == MethodNames(s.(returnType := None))
  {
  }

  /** The class of every method annotation is imported. */
  lemma MethodAnnotationImported(methods: seq<MethodDefinition>, classesToImport: seq<string>, i: nat, k: nat)
    requires i < |methods| && k < |methods[i].state.annotationTypes|
    requires MethodsImports(Some(methods), classesToImport).Ok?
    ensures var a := methods[i].state.annotationTypes[k];
            a.classType.Some? && FullClassName(a.classType.value).Some?
            && FullClassName(a.classType.value).value in MethodsImports(Some(methods), classesToImport).value
  {
    var a := methods[i].state.annotationTypes[k];
    assert AnnotationClassNames(methods[i].state.annotationTypes)[k] == AnnotationClassName(a);
    MethodNamesListed(methods, i, AnnotationClassName(a));
  }

  lemma {:induction false} ParameterTypeNamesCover(parameters: seq<ParameterDefinition>, k: nat)
    requires k < |parameters| && parameters[k].parameterType.Some?
    requires IsNotNative(ParameterTypeName(parameters[k].parameterType.value))
    ensures ParameterTypeName(parameters[k].parameterType.value) in ParameterTypeNames(parameters)
    decreases |parameters|
  {
    if k > 0 {
      ParameterTypeNamesCover(parameters[1..], k - 1);
    }
  }

  /** A parameter whose type name is native contributes nothing. */
  lemma {:induction false} NativeParameterNotImported(parameters: seq<ParameterDefinition>, x: JString)
    requires x in ParameterTypeNames(parameters)
    ensures IsNotNative(x)
    decreases |parameters|
  {
    var p := parameters[0];
    if !(p.parameterType.Some? && IsNotNative(ParameterTypeName(p.parameterType.value))
         && x == ParameterTypeName(p.parameterType.value)) {
      NativeParameterNotImported(parameters[1..], x);
    }
  }

  /** Every typed parameter whose type name is not native is imported. */
  lemma ParameterTypeImported(methods: seq<MethodDefinition>, classesToImport: seq<string>, i: nat, k: nat)
    requires i < |methods| && k < |methods[i].state.parameters|
    requires methods[i].state.parameters[k].parameterType.Some?
    requires IsNotNative(ParameterTypeName(methods[i].state.parameters[k].parameterType.value))
    requires MethodsImports(Some(methods), classesToImport).Ok?
    ensures var x := ParameterTypeName(methods[i].state.parameters[k].parameterType.value);
            x.Some? && x.value in MethodsImports(Some(methods), classesToImport).value
  {
    var x := ParameterTypeName(methods[i].state.parameters[k].parameterType.value);
    ParameterTypeNamesCover(methods[i].state.parameters, k);
    MethodNamesListed(methods, i, x);
  }

  /** The generic arguments of a parameter type are not imported: the name it
      contributes does not depend on them. */
  lemma ParameterGenericsNotImported(t: ClassType, generics: seq<Entry<GenArg>>)
    ensures ParameterTypeName(Class(t)) == ParameterTypeName(Class(t.(generics := generics)))
  {
  }

  lemma {:induction false} ParameterAnnotationNamesCover(parameters: seq<ParameterDefinition>, k: nat, m: nat)
    requires k < |parameters| && m < |parameters[k].annotationTypes|
    ensures AnnotationClassName(parameters[k].annotationTypes[m]) in ParameterAnnotationNames(parameters)
    decreases |parameters|
  {
    if k > 0 {
      ParameterAnnotationNamesCover(parameters[1..], k - 1, m);
    } else {
      assert AnnotationClassNames(parameters[0].annotationTypes)[m] == AnnotationClassName(parameters[0].annotationTypes[m]);
    }
  }

  /** The class of every parameter annotation is imported. */
  lemma ParameterAnnotationImported(methods: seq<MethodDefinition>, classesToImport: seq<string>,
                                    i: nat, k: nat, m: nat)
    requires i < |methods| && k < |methods[i].state.parameters|
    requires m < |methods[i].state.parameters[k].annotationTypes|
    requires MethodsImports(Some(methods), classesToImport).Ok?
    ensures var x := AnnotationClassName(methods[i].state.parameters[k].annotationTypes[m]);
            x.Some? && x.value in MethodsImports(Some(methods), classesToImport).value
  {
    var x := AnnotationClassName(methods[i].state.parameters[k].annotationTypes[m]);
    ParameterAnnotationNamesCover(methods[i].state.parameters, k, m);
    MethodNamesListed(methods, i, x);
  }
}
