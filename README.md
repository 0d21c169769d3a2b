# jgencode source generator, modelled in Dafny

jgencode builds Java source code in memory. A caller creates a class, interface or record builder and fills it with descriptors: fields, methods, constructors, annotations and parameters, and the class, native and annotation types they refer to. `build()` then renders the unit into a list of source lines: the package line, the sorted `import` lines, the declaration, the members and the closing brace.

This project models the `com.jgencode.gen` core of that generator in four parts.

- **Type model.** `ClassType` and its builder, `NativeType` and its builder, the native-name list and `removeClassFromPackage` of `ClassUtil`, the constants table (`GENERAL_CLASSES`, the `{_CLASSNAME_}` placeholder and the separators), and the single access word that `Modifier` picks.
- **Member descriptors.** The annotation, parameter, field, method and constructor builders. Each one renders its own lines inside `build()`.
- **Import resolver.** `DefinitionBuilder.importClasses`, the class and interface overrides of it, and `MethodUtil.importClassesFromMethods`. Together they collect fully qualified names into a sorted set, drop `Override` and same-package names, and emit the `import` lines.
- **Unit renderers.** `doBuildCode` of the class, interface and record builders, with the extends, implements and record-component headers, the generated accessors and the constructor-name substitution.

How Java's terms map onto Dafny:

- A nullable Java string is a `JString` (`Option<string>`), and `Show` renders null as `"null"`, the way `StringBuilder.append` and `String.format` do.
- A crash the Java code can reach is a `Result` error:
  - a `NullPointerException` when a null enters a `TreeSet` or a missing type is dereferenced;
  - an `ArrayIndexOutOfBoundsException` in `createPackagePath`.
- A `TreeSet<String>` is a strictly sorted sequence under `String.compareTo`.
- A `LinkedHashSet` or `LinkedHashMap` is a duplicate-free sequence in insertion order.
- A builder whose fields the Java code updates is a Dafny `class` with `modifies` clauses. Its fluent `return this` is an out-parameter equal to `this`.
- Each unit builder holds its shared `DefinitionBuilder` state as the field `base`.
- A built descriptor is a class with `const` fields, so two descriptors are told apart by reference, as `LinkedHashSet` does with Java objects that do not override `equals`.
- The line separator is fixed to `"\n"` and one indentation level to four spaces.
- `Set.of` iteration order is a parameter of the modifier functions, and their lemmas hold for every order.

Every rendering method with a loop or a `StringBuilder` is proved against a specification function of the builder's state, and lemmas about those functions state the output shapes the generator promises. The setters, the constructors and the other methods that change state have contracts written with `old`, `fresh` and `modifies`: they state the whole new state, and the invariants and the lemmas beside them carry the properties.

## Model

| member | source | states |
|---|---|---|
| JStrings.Show | jgencode/src/main/java/com/jgencode/gen/type/AnnotationType.java:70-72 | a non-null reference shows as its own text (null prints as "null", as StringBuilder.append and String.format do) |
| JStrings.IndexOfFrom | jgencode/src/main/java/com/jgencode/gen/util/ClassUtil.java:39 | String.indexOf from a start: the returned position holds an occurrence and none comes earlier; no result means no occurrence at all |
| JStrings.LastIndexOfUpTo | src/main/java/com/jgencode/gen/DefinitionBuilder.java:277 | String.lastIndexOf: the returned position holds an occurrence and none comes later; no result means no occurrence |
| JStrings.ContainsIff | src/main/java/com/jgencode/gen/ClassDefinitionBuilder.java:144 | StringUtils.contains holds exactly when the text occurs at some position |
| JStrings.SubstringBefore | jgencode/src/main/java/com/jgencode/gen/type/ClassType.java:40 | substringBefore is a prefix of the string, and the whole string exactly when the separator does not occur |
| JStrings.SubstringBeforeLast | src/main/java/com/jgencode/gen/DefinitionBuilder.java:277 | substringBeforeLast is a prefix of the string |
| JStrings.SubstringAfterLast | src/main/java/com/jgencode/gen/ClassDefinitionBuilder.java:145 | substringAfterLast is a suffix of the string |
| JStrings.BeforeLastOfSuffix | jgencode/src/main/java/com/jgencode/gen/type/AnnotationType.java:77 | a text that ends with the separator loses exactly that trailing separator |
| JStrings.SplitAtLastDot | src/main/java/com/jgencode/gen/ClassDefinitionBuilder.java:144-147 | for a dotted name, the text before the last "." + "." + the text after it gives the name back |
| JStrings.JoinSnoc | jgencode/src/main/java/com/jgencode/gen/InterfaceDefinitionBuilder.java:151 | joining one more part adds the separator and that part at the end |
| JStrings.RepeatSpace | src/main/java/com/jgencode/gen/DefinitionBuilder.java:87 | StringUtils.repeat of a space n times is n spaces |
| JStrings.Capitalize | src/main/java/com/jgencode/gen/ClassDefinitionBuilder.java:212 | capitalize keeps the length and every character after the first |
| JStrings.ReplaceAbsent | src/main/java/com/jgencode/gen/ClassDefinitionBuilder.java:116 | StringUtils.replace leaves a text without the search string unchanged |
| JStrings.NoOccurrenceInTail | src/main/java/com/jgencode/gen/ClassDefinitionBuilder.java:116 | a text without the search string has none in its tail either |
| JStrings.ReplaceAfterPrefix | src/main/java/com/jgencode/gen/ClassDefinitionBuilder.java:116 | when the prefix cannot start an occurrence, the first replacement is the one right after it and replacing continues after it |
| JStrings.Tokens | jgencode/src/main/java/com/jgencode/gen/MethodDefinitionBuilder.java:187 | StringUtils.split yields only non-empty pieces, none holding the separator |
| JStrings.RunLength | jgencode/src/main/java/com/jgencode/gen/MethodDefinitionBuilder.java:187 | the leading stretch without the separator ends at the first separator or at the end |
| JStrings.SplitAll | src/main/java/com/jgencode/gen/DefinitionBuilder.java:217 | every piece between separators, none holding the separator, at least one piece |
| JStrings.SplitAllJoin | src/main/java/com/jgencode/gen/DefinitionBuilder.java:217 | joining the pieces with the separator gives the string back |
| JStrings.JoinSplitAll | src/main/java/com/jgencode/gen/DefinitionBuilder.java:217 | splitting a join of separator-free pieces gives the pieces back |
| JStrings.RunOfFree | jgencode/src/main/java/com/jgencode/gen/MethodDefinitionBuilder.java:187 | the leading stretch of a separator-free prefix followed by a separator is that prefix |
| JStrings.DropTrailingEmpty | src/main/java/com/jgencode/gen/DefinitionBuilder.java:217 | String.split drops only trailing empty pieces and keeps the rest as a prefix |
| JStrings.JavaSplit | src/main/java/com/jgencode/gen/DefinitionBuilder.java:217 | String.split on one literal character gives the whole string when it does not occur, and never a piece holding it |
| JStrings.TokensOfRun | jgencode/src/main/java/com/jgencode/gen/MethodDefinitionBuilder.java:187 | a non-empty text without the separator splits into itself |
| JStrings.FirstTerminator | jgencode/src/main/java/com/jgencode/gen/MethodDefinitionBuilder.java:195 | the position of the first line terminator, with none before it |
| JStrings.JavaLines | jgencode/src/main/java/com/jgencode/gen/MethodDefinitionBuilder.java:195 | String.lines() yields lines without terminators |
| JStrings.NoTerminatorByMembership | jgencode/src/main/java/com/jgencode/gen/MethodDefinitionBuilder.java:195 | a text with neither newline nor carriage return has no terminator |
| JStrings.NoTerminatorConcat | jgencode/src/main/java/com/jgencode/gen/MethodDefinitionBuilder.java:195 | concatenating terminator-free texts adds no terminator |
| JStrings.LinesOfOne | jgencode/src/main/java/com/jgencode/gen/MethodDefinitionBuilder.java:195 | a non-empty terminator-free text is one line |
| JStrings.LinesCons | jgencode/src/main/java/com/jgencode/gen/MethodDefinitionBuilder.java:195 | a terminator-free text followed by a newline becomes the first line, the rest splits on its own |
| JStrings.LexIrreflexive | src/main/java/com/jgencode/gen/DefinitionBuilder.java:66 | the TreeSet order never puts a string before itself |
| JStrings.LexTransitive | src/main/java/com/jgencode/gen/DefinitionBuilder.java:66 | the TreeSet order is transitive |
| JStrings.LexTotal | src/main/java/com/jgencode/gen/DefinitionBuilder.java:66 | any two different strings are ordered one way or the other |
| JStrings.LexAsymmetric | src/main/java/com/jgencode/gen/DefinitionBuilder.java:66 | no two strings are each before the other |
| JStrings.ParseNatToString | jgencode/src/main/java/com/jgencode/gen/type/AnnotationType.java:70 | the decimal digits of a natural number read back as that number |
| JStrings.IntToStringRoundTrip | jgencode/src/main/java/com/jgencode/gen/type/AnnotationType.java:70 | Integer.toString loses nothing: a non-negative number reads back, a negative one is "-" followed by its magnitude |
| Constants.RegexLiteral | src/main/java/com/camucode/gen/util/Constants.java:33 | an escape-only pattern matches a literal text no longer than the pattern |
| Constants.SearchDotIsLiteralDot | src/main/java/com/camucode/gen/util/Constants.java:33 | SEARCH_DOT matches exactly one literal "." and nothing else |
| Constants.GeneralClassesTable | src/main/java/com/camucode/gen/util/Constants.java:64-66 | GENERAL_CLASSES has exactly the five keys UUID, LocalDate, LocalDateTime, Optional and Stream, each mapped to its qualified name |
| Constants.GeneralClassesKeys | src/main/java/com/camucode/gen/util/Constants.java:64-66 | no key beyond those five |
| Constants.GeneralClassesByPackage | src/main/java/com/camucode/gen/util/Constants.java:64-66 | every qualified name is its package, "." and the key |
| Constants.SuffixAfterPackage | src/main/java/com/camucode/gen/util/Constants.java:64-66 | a package, "." and a key end with "." and that key |
| Constants.GeneralClassesEndWithKey | src/main/java/com/camucode/gen/util/Constants.java:64-66 | every GENERAL_CLASSES value ends with "." followed by its key |
| Constants.SeparatorConstants | src/main/java/com/camucode/gen/util/Constants.java:39-60 | CLASSNAME_PARAMETER is "{" + "_CLASSNAME_" + "}" and holds no dot; COMMA and COMMA_SPACE differ, COMMA_SPACE being COMMA plus a space |
| Modifiers.LowerCase | src/main/java/com/camucode/gen/values/Modifier.java:36 | lower-casing keeps the length |
| Modifiers.Word | src/main/java/com/camucode/gen/values/Modifier.java:36 | every modifier word is a non-empty string of lowercase letters |
| Modifiers.WordIsLowerCasedName | src/main/java/com/camucode/gen/values/Modifier.java:36 | each word is the lower-cased enum constant name |
| Modifiers.WordsAreKeywords | src/main/java/com/camucode/gen/values/Modifier.java:27 | the six words are the Java keywords public, private, protected, final, abstract, static |
| Modifiers.WordInjective | src/main/java/com/camucode/gen/values/Modifier.java:27 | different modifiers render as different words |
| Modifiers.DeclarationOrdersAreIterationOrders | src/main/java/com/camucode/gen/values/Modifier.java:28-31 | the listing order of each Set.of is one of its possible iteration orders |
| Modifiers.FirstPresent | src/main/java/com/camucode/gen/values/Modifier.java:33-40 | the search returns "" exactly when no member of the order is present, and otherwise the word of a present member |
| Modifiers.CurrentAccessModifier | src/main/java/com/camucode/gen/values/Modifier.java:33-40 | for any iteration order: "" exactly when none of PUBLIC, PRIVATE, PROTECTED is present, otherwise the lower-cased name of one that is; one word, no space |
| Modifiers.CurrentMethodAccessModifier | src/main/java/com/camucode/gen/values/Modifier.java:42-49 | for any iteration order: "" exactly when none of PUBLIC, PRIVATE, PROTECTED, ABSTRACT, STATIC is present, otherwise the word of one present; one word |
| Modifiers.AccessWord | src/main/java/com/camucode/gen/values/Modifier.java:33-40 | the access word the renderers use is a single lowercase word |
| Modifiers.MethodAccessWord | src/main/java/com/camucode/gen/values/Modifier.java:42-49 | the method access word is a single lowercase word |
| Modifiers.AccessWordNeverOther | src/main/java/com/camucode/gen/values/Modifier.java:28-40 | currentAccessModifier is "", "public", "private" or "protected"; never final, abstract or static |
| Modifiers.AccessModifierWord | src/main/java/com/camucode/gen/values/Modifier.java:28 | the access modifiers' words are public, private and protected |
| Modifiers.MethodAccessWordNeverFinal | src/main/java/com/camucode/gen/values/Modifier.java:29-31 | currentMethodAccessModifier is never "final" |
| Modifiers.MethodAccessModifierWord | src/main/java/com/camucode/gen/values/Modifier.java:29-31 | FINAL is not among the method access modifiers |
| Modifiers.FirstPresentUnique | src/main/java/com/camucode/gen/values/Modifier.java:34 | with at most one qualifying modifier present, every iteration order gives the same word |
| Modifiers.AnyPresentCanWin | src/main/java/com/camucode/gen/values/Modifier.java:34 | every present qualifying modifier is the answer under some iteration order, so the choice among several is open |
| Modifiers.OrderOf | src/main/java/com/camucode/gen/values/Modifier.java:28-31 | every set of modifiers has an iteration order |
| ClassUtil.NativeTypesDistinct | jgencode/src/main/java/com/jgencode/gen/util/ClassUtil.java:30 | the native list holds 17 distinct names |
| ClassUtil.NativeIff | jgencode/src/main/java/com/jgencode/gen/util/ClassUtil.java:47-58 | isNative holds exactly when the name equals a listed one; isNotNative is its negation |
| ClassUtil.NativeExamples | jgencode/src/main/java/com/jgencode/gen/util/ClassUtil.java:30 | "String", "Integer" and "int" are native |
| ClassUtil.NonNativeExamples | jgencode/src/main/java/com/jgencode/gen/util/ClassUtil.java:30 | "void", "Object" and "string" (case matters) and null are not native |
| ClassUtil.RemoveClassFromPackage | jgencode/src/main/java/com/jgencode/gen/util/ClassUtil.java:38-40 | removeClassFromPackage is a prefix of the package: the whole package when "." + class does not occur, otherwise exactly the text before its first occurrence |
| ClassUtil.RemoveTrailingClass | jgencode/src/main/java/com/jgencode/gen/util/ClassUtil.java:38-40 | an undotted package followed by "." + class gives the package back |
| Collections.Keys | src/main/java/com/camucode/gen/type/ClassTypeBuilder.java:29 | the keys of the ordered map, entry by entry |
| Collections.Values | jgencode/src/main/java/com/jgencode/gen/type/ClassType.java:88-92 | the values of the ordered map in map order |
| Collections.KeysAppend | src/main/java/com/camucode/gen/type/ClassTypeBuilder.java:29 | appending an entry appends its key |
| Collections.Get | src/main/java/com/camucode/gen/type/ClassTypeBuilder.java:29 | Map.get finds a value exactly when the key is present, and returns the value of an entry with that key |
| Collections.Put | src/main/java/com/camucode/gen/type/ClassTypeBuilder.java:45-48 | LinkedHashMap.put: an existing key keeps the key order, a new key is appended with its value |
| Collections.PutGet | src/main/java/com/camucode/gen/type/ClassTypeBuilder.java:45-48 | after put the key maps to the new value and every other key to its old value |
| Collections.PutDistinct | src/main/java/com/camucode/gen/type/ClassTypeBuilder.java:29 | put keeps the keys distinct |
| Collections.PutKeepsPosition | src/main/java/com/camucode/gen/type/ClassTypeBuilder.java:29 | replacing a key's value leaves the entry at its original position and changes nothing else |
| Collections.Insert | src/main/java/com/jgencode/gen/DefinitionBuilder.java:191-194 | LinkedHashSet.add: the element is present, nothing else joins, the old elements keep their order in front, no duplicates appear, and an element already present changes nothing |
| Collections.InsertAll | src/main/java/com/jgencode/gen/DefinitionBuilder.java:227-230 | addAll on an insertion-ordered set: exactly the old and the new elements, old ones first in place, no duplicates |
| Collections.TreeInsert | src/main/java/com/jgencode/gen/DefinitionBuilder.java:66 | TreeSet.add: the members are the old ones and the new one |
| Collections.TreeInsertSorted | src/main/java/com/jgencode/gen/DefinitionBuilder.java:66 | TreeSet.add keeps the set sorted without duplicates, and a member already present changes nothing |
| Collections.TreeAdd | src/main/java/com/jgencode/gen/DefinitionBuilder.java:66 | adding null to the TreeSet is a NullPointerException; any other name is inserted |
| Collections.TreeAddAll | src/main/java/com/jgencode/gen/DefinitionBuilder.java:249-251 | TreeSet.addAll fails exactly when a null is among the names; otherwise the members are the old ones and the added names |
| Collections.TreeAddAllSorted | src/main/java/com/jgencode/gen/DefinitionBuilder.java:66 | addAll keeps the TreeSet sorted |
| Collections.TreeAddAllAppend | src/main/java/com/jgencode/gen/DefinitionBuilder.java:249-271 | adding two lists one after the other is adding their concatenation |
| Collections.TreeAddAllSnoc | src/main/java/com/jgencode/gen/DefinitionBuilder.java:266-267 | adding one more name after a list, with the failure carried through |
| Collections.AddAllNames | src/main/java/com/jgencode/gen/util/MethodUtil.java:61 | the element-by-element loop of addAll computes TreeAddAll |
| Collections.TreeAddAllPresent | src/main/java/com/jgencode/gen/DefinitionBuilder.java:66 | adding names already present leaves the TreeSet unchanged |
| Types.NameNoGeneric | jgencode/src/main/java/com/jgencode/gen/type/ClassType.java:40 | the stored name is a prefix of the given name containing no "<", the whole name when it had none, and null exactly for a null name |
| Types.NoCharBeforeFirst | jgencode/src/main/java/com/jgencode/gen/type/ClassType.java:40 | substringBefore a one-character separator never contains that character |
| Types.CreateClassTypeWithPackageAndName | jgencode/src/main/java/com/jgencode/gen/type/ClassType.java:49-51 | a type with the given package and name and null generics, so its name with generics is its plain name |
| Types.FullClassName | jgencode/src/main/java/com/jgencode/gen/type/ClassType.java:65-70 | getFullClassName is the name without generics, prefixed by package + "." exactly when the package is non-blank; the class part holds no "<" |
| Types.ClassName | jgencode/src/main/java/com/jgencode/gen/type/ClassType.java:76-78 | getClassName returns the constructed name unchanged, generic text included |
| Types.ClassNameWithGeneric | jgencode/src/main/java/com/jgencode/gen/type/ClassType.java:84-93 | with null generics the plain name; otherwise name + "<" + the argument texts in map order joined by "," + ">", a null raw value reading "null" |
| Types.ArgTexts | jgencode/src/main/java/com/jgencode/gen/type/ClassType.java:88-92 | one argument text per generic value |
| Types.FullName | jgencode/src/main/java/com/jgencode/gen/type/ClassType.java:107-110 | getFullName of a class type is its name with generics; of a native type, its name exactly as constructed (src/main/java/com/jgencode/gen/type/NativeType.java:31-34) |
| Types.FullClassNamePackage | jgencode/src/main/java/com/jgencode/gen/type/ClassType.java:65-70 | a qualified name split at its last "." gives back its package and its simple name when that has no dot |
| Types.LastDotBefore | src/main/java/com/jgencode/gen/DefinitionBuilder.java:277 | the last dot of package + "." + undotted name is the one between them |
| Types.CountConcat | jgencode/src/main/java/com/jgencode/gen/type/ClassType.java:88-92 | character counts add up over concatenation |
| Types.CountAbsent | jgencode/src/main/java/com/jgencode/gen/type/ClassType.java:88-92 | an absent character counts zero |
| Types.JoinBalanced | jgencode/src/main/java/com/jgencode/gen/type/ClassType.java:88-92 | joining texts with balanced angle brackets gives a balanced text |
| Types.GenericTextBalanced | jgencode/src/main/java/com/jgencode/gen/type/ClassType.java:84-93 | for plain names, every "<" the recursive rendering writes has its matching ">" at every depth |
| TypeBuilders.ClassTypeBuilder.PackageName | src/main/java/com/camucode/gen/type/ClassTypeBuilder.java:35-38 | packageName sets the package, leaves the rest and returns the same builder |
| TypeBuilders.ClassTypeBuilder.ClassName | src/main/java/com/camucode/gen/type/ClassTypeBuilder.java:40-43 | className sets the name, leaves the rest and returns the same builder |
| TypeBuilders.ClassTypeBuilder.AddGeneric | src/main/java/com/camucode/gen/type/ClassTypeBuilder.java:45-48 | addGeneric is LinkedHashMap.put: the key maps to the new value, every other key keeps its value, the key order follows first insertion |
| TypeBuilders.ClassTypeBuilder.Build | src/main/java/com/camucode/gen/type/ClassTypeBuilder.java:50-56 | the built type has the last package and name set and the builder's entries; with none added its generics stay null and its name with generics is the plain name |
| TypeBuilders.ClassTypeBuilder.constructor | src/main/java/com/camucode/gen/type/ClassTypeBuilder.java:31-33 | a new builder has no package, no name and no generics |
| TypeBuilders.NativeTypeBuilder.Name | src/main/java/com/jgencode/gen/type/NativeTypeBuilder.java:43-46 | name() stores the name and returns the same builder |
| TypeBuilders.NativeTypeBuilder.Build | src/main/java/com/jgencode/gen/type/NativeTypeBuilder.java:52-54 | the built native type's full name is the last name given, null when none was |
| TypeBuilders.NativeTypeBuilder.constructor | src/main/java/com/jgencode/gen/type/NativeTypeBuilder.java:24 | a new builder has a null name |
| TypeBuilders.AddGenericTwice | src/main/java/com/camucode/gen/type/ClassTypeBuilder.java:45-48 | setting a key twice keeps the first position and the second value |
| Indentation.GetIndentation | src/main/java/com/jgencode/gen/DefinitionBuilder.java:86-88 | getIndentation(level) is 4 times level characters long |
| Indentation.IndentationIsSpaces | src/main/java/com/jgencode/gen/DefinitionBuilder.java:86-88 | the indentation holds only spaces |
| Indentation.IndentationLevels | src/main/java/com/jgencode/gen/DefinitionBuilder.java:79 | each level adds the same four spaces |
| Indentation.IndentedText | src/main/java/com/jgencode/gen/DefinitionBuilder.java:86-88 | an indented line splits back into its indentation and its text |
| Indentation.IndentAll | src/main/java/com/jgencode/gen/DefinitionBuilder.java:240-241 | every line in order, with the indentation prefixed |
| Indentation.IndentAllConcat | src/main/java/com/jgencode/gen/DefinitionBuilder.java:236-243 | indenting a concatenation indents each part |
| Indentation.IndentAllCons | src/main/java/com/jgencode/gen/DefinitionBuilder.java:236-243 | the first indented line and the rest |
| Indentation.IndentedNoTerminator | jgencode/src/main/java/com/jgencode/gen/MethodDefinitionBuilder.java:189 | indenting a line adds no line terminator |
| Annotations.ValueTextCases | jgencode/src/main/java/com/jgencode/gen/type/AnnotationType.java:66-73 | a class value renders as its class name + ".class", a boolean as true or false, a string and a null between double quotes without escaping |
| Annotations.NumberTextRoundTrip | jgencode/src/main/java/com/jgencode/gen/type/AnnotationType.java:69-70 | a number's text reads back as that number |
| Annotations.QuotedTextRoundTrip | jgencode/src/main/java/com/jgencode/gen/type/AnnotationType.java:72 | a quoted value is exactly two quote characters around the value |
| Annotations.AnnotationLines | jgencode/src/main/java/com/jgencode/gen/type/AnnotationType.java:58-82 | rendering fails exactly without a class type; with no attributes it is the single header line "@" + class name |
| Annotations.AttributeTexts | jgencode/src/main/java/com/jgencode/gen/type/AnnotationType.java:74 | one text per attribute |
| Annotations.AttributeLines | jgencode/src/main/java/com/jgencode/gen/type/AnnotationType.java:65-78 | one line per attribute |
| Annotations.CommaSeparated | jgencode/src/main/java/com/jgencode/gen/type/AnnotationType.java:76-78 | one line per text |
| Annotations.CommaSeparatedAt | jgencode/src/main/java/com/jgencode/gen/type/AnnotationType.java:76-78 | every text but the last is followed by ",", the last one is bare |
| Annotations.CommaTerminated | jgencode/src/main/java/com/jgencode/gen/type/AnnotationType.java:74 | every text followed by "," |
| Annotations.CommaTerminatedSnoc | jgencode/src/main/java/com/jgencode/gen/type/AnnotationType.java:65-75 | one more attribute appends one more comma-terminated line |
| Annotations.StripLastComma | jgencode/src/main/java/com/jgencode/gen/type/AnnotationType.java:63-80 | the forEach that adds a comma after every attribute line, then cutting the last line at its last comma and adding ")", gives exactly the intended lines |
| Annotations.StripLastCommaOf | jgencode/src/main/java/com/jgencode/gen/type/AnnotationType.java:76-78 | cutting the last comma-terminated line at its last comma leaves the separated lines |
| Annotations.LastLineStripped | jgencode/src/main/java/com/jgencode/gen/type/AnnotationType.java:76-78 | the last line loses exactly its trailing comma |
| Annotations.StrippedBody | jgencode/src/main/java/com/jgencode/gen/type/AnnotationType.java:76-78 | restoring the last text turns terminated lines into separated ones |
| Annotations.AnnotationType.CreateSourceLines | jgencode/src/main/java/com/jgencode/gen/type/AnnotationType.java:58-82 | the list-building method computes exactly AnnotationLines, without changing the annotation |
| Annotations.AnnotationLinesShape | jgencode/src/main/java/com/jgencode/gen/type/AnnotationType.java:60-80 | with n attributes: n + 2 lines, "@Name(" first, ")" last, the attribute lines in map order each ending with "," except the last |
| Annotations.AllAnnotationLines | src/main/java/com/jgencode/gen/DefinitionBuilder.java:266 | all annotations' lines one after the other; fails exactly when some annotation has no class type; empty for none |
| Annotations.CollectAnnotationLines | src/main/java/com/jgencode/gen/FieldDefinitionBuilder.java:163 | the forEach over the annotations computes AllAnnotationLines |
| Annotations.AnnotationType.constructor | src/main/java/com/jgencode/gen/type/AnnotationTypeBuilder.java:67-72 | the annotation holds the class type and attributes it was built with |
| Annotations.AnnotationTypeBuilder.constructor | src/main/java/com/jgencode/gen/type/AnnotationTypeBuilder.java:37-39 | a new builder has no class type and no attributes |
| Annotations.AnnotationTypeBuilder.ClassType | src/main/java/com/jgencode/gen/type/AnnotationTypeBuilder.java:45-48 | classType is last-write-wins and returns the same builder |
| Annotations.AnnotationTypeBuilder.AddAttribute | src/main/java/com/jgencode/gen/type/AnnotationTypeBuilder.java:57-60 | addAttribute is Map.put: the name maps to the new value, an existing name keeps its first position |
| Annotations.AnnotationTypeBuilder.Build | src/main/java/com/jgencode/gen/type/AnnotationTypeBuilder.java:67-72 | a fresh annotation with the current class type and a copy of the attributes in insertion order, so later addAttribute calls do not reach it |
| Parameters.InlineAnnotation | src/main/java/com/jgencode/gen/ParameterDefinition.java:80 | an annotation's lines joined by spaces; fails exactly without a class type |
| Parameters.AnnotationSourceOf | src/main/java/com/jgencode/gen/ParameterDefinition.java:78-83 | "" without annotations; fails exactly when an annotation has no class type |
| Parameters.AnnotationPrefix | src/main/java/com/jgencode/gen/ParameterDefinitionBuilder.java:95-98 | the annotations each inline and followed by a space; "" without annotations |
| Parameters.ParameterSource | src/main/java/com/jgencode/gen/ParameterDefinitionBuilder.java:94-103 | the annotation prefix, then, only when the type is set, its full name, a space and the name |
| Parameters.AnnotationSourceAppend | src/main/java/com/jgencode/gen/ParameterDefinition.java:78-83 | the source of consecutive annotations is the concatenation of their sources: nothing is inserted between them |
| Parameters.SingleMarkerAnnotation | src/main/java/com/jgencode/gen/ParameterDefinition.java:78-83 | one attribute-less annotation @X contributes exactly "@X" (and "@X " in a parameter's source) |
| Parameters.ParameterDefinition.GetAnnotationSource | src/main/java/com/jgencode/gen/ParameterDefinition.java:78-83 | the StringBuilder loop computes AnnotationSourceOf |
| Parameters.ParameterDefinition.constructor | src/main/java/com/jgencode/gen/ParameterDefinitionBuilder.java:83-92 | the definition holds the name, type, annotations and source code given |
| Parameters.NoSourceAfterFailure | src/main/java/com/jgencode/gen/ParameterDefinition.java:78-83 | one annotation without a class makes both the annotation source and the parameter source fail |
| Parameters.ParameterDefinitionBuilder.constructor | src/main/java/com/jgencode/gen/ParameterDefinitionBuilder.java:75-77 | a new builder has no name, no type, no annotations |
| Parameters.ParameterDefinitionBuilder.ParameterName | src/main/java/com/jgencode/gen/ParameterDefinitionBuilder.java:46-49 | parameterName is last-write-wins and returns the same builder |
| Parameters.ParameterDefinitionBuilder.ParameterType | src/main/java/com/jgencode/gen/ParameterDefinitionBuilder.java:56-59 | parameterType is last-write-wins and returns the same builder |
| Parameters.ParameterDefinitionBuilder.AddAnnotation | src/main/java/com/jgencode/gen/ParameterDefinitionBuilder.java:66-69 | addAnnotation inserts into the insertion-ordered set, duplicates ignored |
| Parameters.ParameterDefinitionBuilder.GenerateSourceCode | src/main/java/com/jgencode/gen/ParameterDefinitionBuilder.java:94-103 | the loop computes ParameterSource |
| Parameters.ParameterDefinitionBuilder.Build | src/main/java/com/jgencode/gen/ParameterDefinitionBuilder.java:83-92 | a fresh definition with the current name, type and annotations and its source computed once, now |
| Parameters.PlainParameterSource | src/main/java/com/jgencode/gen/ParameterDefinitionBuilder.java:94-103 | with no annotations and a type, the source is exactly type full name + " " + name |
| Parameters.UntypedParameterSource | src/main/java/com/jgencode/gen/ParameterDefinitionBuilder.java:99-101 | without a type the name does not appear: only the annotation part |
| Fields.DeclaredType | src/main/java/com/jgencode/gen/FieldDefinitionBuilder.java:168-172 | a non-blank native type wins; otherwise the class type's class name, and a null class type is a NullPointerException |
| Fields.DefaultPart | src/main/java/com/jgencode/gen/FieldDefinitionBuilder.java:175-178 | the default part is empty exactly when the default value is blank |
| Fields.DeclarationLine | src/main/java/com/jgencode/gen/FieldDefinitionBuilder.java:165-179 | the declaration fails exactly when the declared type does, and always ends with ";" |
| Fields.FieldLines | src/main/java/com/jgencode/gen/FieldDefinitionBuilder.java:161-183 | the annotation lines in order, exactly one declaration line, then one empty line; fails exactly when an annotation or the declared type does |
| Fields.NoModifierLeadingSpace | src/main/java/com/jgencode/gen/FieldDefinitionBuilder.java:166-167 | without an access modifier the declaration begins with a space |
| Fields.PrivateFieldDeclaration | src/main/java/com/jgencode/gen/FieldDefinitionBuilder.java:166-179 | a private field reads "private Type name;" or "private Type name = value;" |
| Fields.PrivateAccessWord | src/main/java/com/jgencode/gen/FieldDefinitionBuilder.java:166 | the access word of a private field is "private" |
| Fields.TypePrecedenceDiffers | src/main/java/com/jgencode/gen/FieldDefinitionBuilder.java:168-172 | with both a native name and a class type, the declaration uses the native name while getFieldType (src/main/java/com/jgencode/gen/FieldDefinitionBuilder.java:212-214) reports the class name |
| Fields.FieldType | src/main/java/com/jgencode/gen/FieldDefinitionBuilder.java:212-214 | getFieldType is the class type's name when there is one with a non-null name, the native type otherwise |
| Fields.FieldDefinition.GetFieldType | src/main/java/com/jgencode/gen/FieldDefinitionBuilder.java:212-214 | the getter agrees with FieldType on the captured values |
| Fields.FieldDefinition.constructor | src/main/java/com/jgencode/gen/FieldDefinitionBuilder.java:190-198 | the definition holds the captured values and lines |
| Fields.FieldDefinitionBuilder.constructor | src/main/java/com/jgencode/gen/FieldDefinitionBuilder.java:44-46 | a new builder holds nothing: no name, types, default, modifiers or annotations, both flags off |
| Fields.FieldDefinitionBuilder.FieldName | src/main/java/com/jgencode/gen/FieldDefinitionBuilder.java:68-71 | fieldName is last-write-wins, changes nothing else and returns the same builder |
| Fields.FieldDefinitionBuilder.NativeType | src/main/java/com/jgencode/gen/FieldDefinitionBuilder.java:78-81 | nativeType is last-write-wins and changes nothing else |
| Fields.FieldDefinitionBuilder.ClassType | src/main/java/com/jgencode/gen/FieldDefinitionBuilder.java:88-91 | classType is last-write-wins and changes nothing else |
| Fields.FieldDefinitionBuilder.AddModifier | src/main/java/com/jgencode/gen/FieldDefinitionBuilder.java:98-101 | addModifier inserts into the insertion-ordered set and changes nothing else |
| Fields.FieldDefinitionBuilder.AddAnnotationType | src/main/java/com/jgencode/gen/FieldDefinitionBuilder.java:108-111 | addAnnotationType inserts into the insertion-ordered set and changes nothing else |
| Fields.FieldDefinitionBuilder.Setter | src/main/java/com/jgencode/gen/FieldDefinitionBuilder.java:118-121 | the setter flag is last-write-wins |
| Fields.FieldDefinitionBuilder.Getter | src/main/java/com/jgencode/gen/FieldDefinitionBuilder.java:128-131 | the getter flag is last-write-wins |
| Fields.FieldDefinitionBuilder.DefaultValue | src/main/java/com/jgencode/gen/FieldDefinitionBuilder.java:138-141 | the default value is last-write-wins |
| Fields.FieldDefinitionBuilder.CreateSourceLine | src/main/java/com/jgencode/gen/FieldDefinitionBuilder.java:161-183 | the list and StringBuilder steps compute FieldLines of the builder's values |
| Fields.FieldDefinitionBuilder.Build | src/main/java/com/jgencode/gen/FieldDefinitionBuilder.java:147-159 | a fresh definition with the builder's values copied verbatim and its lines computed now; fails exactly when the lines do |
| Members.ModifierPrefix | jgencode/src/main/java/com/jgencode/gen/MethodDefinitionBuilder.java:169-172 | the method access word followed by a space, or nothing when there is no word |
| Members.PrefixHasNoTerminator | jgencode/src/main/java/com/jgencode/gen/MethodDefinitionBuilder.java:169-172 | the prefix holds no line terminator |
| Members.NamedParameters | jgencode/src/main/java/com/jgencode/gen/MethodDefinitionBuilder.java:204-205 | exactly the parameters with a non-null name, in order |
| Members.ParameterText | jgencode/src/main/java/com/jgencode/gen/MethodDefinitionBuilder.java:206-209 | one parameter's "%s %s %s" text fails exactly when its annotation source does |
| Members.ParameterTexts | jgencode/src/main/java/com/jgencode/gen/MethodDefinitionBuilder.java:204-210 | one text per parameter, failing exactly when one of them does |
| Members.ParameterList | jgencode/src/main/java/com/jgencode/gen/MethodDefinitionBuilder.java:200-214 | the parameter list is empty or non-blank, and empty when no parameter has a name |
| Members.UnnamedParameterSkipped | jgencode/src/main/java/com/jgencode/gen/MethodDefinitionBuilder.java:205 | a parameter without a name contributes nothing wherever it stands |
| Members.PlainParameterText | jgencode/src/main/java/com/jgencode/gen/MethodDefinitionBuilder.java:206-209 | an unannotated parameter renders as " Type name", with a leading space from the empty annotation source |
| Members.TwoParameters | jgencode/src/main/java/com/jgencode/gen/MethodDefinitionBuilder.java:210-213 | two parameters are joined by a bare ",", the result kept only when it is not blank |
| Members.BodyPieces | jgencode/src/main/java/com/jgencode/gen/MethodDefinitionBuilder.java:186-187 | the body's pieces are non-empty and hold no line separator |
| Members.IndentedPiecesSnoc | jgencode/src/main/java/com/jgencode/gen/MethodDefinitionBuilder.java:188-190 | one more body piece appends one more indented line |
| Members.AppendBlock | jgencode/src/main/java/com/jgencode/gen/MethodDefinitionBuilder.java:185-192 | the loop over the body pieces appends exactly the block text |
| Members.ClosingLines | jgencode/src/main/java/com/jgencode/gen/MethodDefinitionBuilder.java:192 | the closing text splits into "}" and one empty line |
| Members.PiecesLinesBefore | jgencode/src/main/java/com/jgencode/gen/MethodDefinitionBuilder.java:195 | the indented pieces split back into one line per piece |
| Members.PiecesLines | jgencode/src/main/java/com/jgencode/gen/MethodDefinitionBuilder.java:188-195 | the indented pieces and the closing text split into the indented pieces, "}" and "" |
| Members.BlockLines | jgencode/src/main/java/com/jgencode/gen/MethodDefinitionBuilder.java:185-195 | a signature and its block split into the signature with "{", one indented line per body piece, "}" and an empty line |
| Members.BlockTextSplit | jgencode/src/main/java/com/jgencode/gen/MethodDefinitionBuilder.java:185 | the block starts with "{" and a line separator |
| Members.PiecesHaveNoTerminator | jgencode/src/main/java/com/jgencode/gen/MethodDefinitionBuilder.java:187 | without carriage returns in the body, no piece holds a terminator |
| Members.TokenChars | jgencode/src/main/java/com/jgencode/gen/MethodDefinitionBuilder.java:187 | every character of a piece comes from the body |
| Methods.MethodLines | jgencode/src/main/java/com/jgencode/gen/MethodDefinitionBuilder.java:163-198 | the method's lines start with all annotation lines; they fail exactly when an annotation or the parameter list does |
| Methods.AbstractMethodLines | jgencode/src/main/java/com/jgencode/gen/MethodDefinitionBuilder.java:182-183 | an abstract method is its annotation lines and one signature line ending with ";", with no body |
| Methods.ConcreteMethodLines | jgencode/src/main/java/com/jgencode/gen/MethodDefinitionBuilder.java:184-195 | a concrete method is its annotation lines, the signature with "{", one indented line per non-empty body piece, "}" and an empty line |
| Methods.BareMethodSignature | jgencode/src/main/java/com/jgencode/gen/MethodDefinitionBuilder.java:173-177 | with no modifier, return type or parameters the signature is "void name()" |
| Methods.SignatureHasOneModifierWord | jgencode/src/main/java/com/jgencode/gen/MethodDefinitionBuilder.java:169-172 | at most one modifier word, followed by one space, starts the signature |
| Methods.MethodDefinition.constructor | jgencode/src/main/java/com/jgencode/gen/MethodDefinitionBuilder.java:149-161 | the definition holds the captured values and lines |
| Methods.MethodDefinitionBuilder.constructor | jgencode/src/main/java/com/jgencode/gen/MethodDefinitionBuilder.java:71-73 | a new builder holds nothing and is not abstract |
| Methods.MethodDefinitionBuilder.Name | jgencode/src/main/java/com/jgencode/gen/MethodDefinitionBuilder.java:80-83 | name is last-write-wins and changes nothing else |
| Methods.MethodDefinitionBuilder.Body | jgencode/src/main/java/com/jgencode/gen/MethodDefinitionBuilder.java:90-93 | body is last-write-wins and changes nothing else |
| Methods.MethodDefinitionBuilder.IsAbstract | jgencode/src/main/java/com/jgencode/gen/MethodDefinitionBuilder.java:100-103 | isAbstract is last-write-wins and changes nothing else |
| Methods.MethodDefinitionBuilder.ReturnClassType | jgencode/src/main/java/com/jgencode/gen/MethodDefinitionBuilder.java:110-113 | the return type is last-write-wins and changes nothing else |
| Methods.MethodDefinitionBuilder.AddModifier | jgencode/src/main/java/com/jgencode/gen/MethodDefinitionBuilder.java:120-123 | addModifier inserts into the insertion-ordered set |
| Methods.MethodDefinitionBuilder.AddParameter | jgencode/src/main/java/com/jgencode/gen/MethodDefinitionBuilder.java:130-133 | addParameter inserts into the insertion-ordered set |
| Methods.MethodDefinitionBuilder.Parameters | jgencode/src/main/java/com/jgencode/gen/MethodDefinitionBuilder.java:140-143 | parameters(collection) adds every element in the collection's order |
| Methods.MethodDefinitionBuilder.AddAnnotationType | jgencode/src/main/java/com/jgencode/gen/MethodDefinitionBuilder.java:221-224 | addAnnotationType inserts into the insertion-ordered set |
| Methods.MethodDefinitionBuilder.CreateSourceLines | jgencode/src/main/java/com/jgencode/gen/MethodDefinitionBuilder.java:163-198 | the StringBuilder steps and the split into lines compute MethodLines |
| Methods.MethodDefinitionBuilder.Build | jgencode/src/main/java/com/jgencode/gen/MethodDefinitionBuilder.java:149-161 | a fresh definition with the builder's values and its lines fixed now; fails exactly when the lines do |
| Constructors.ConstructorLines | src/main/java/com/jgencode/gen/ConstructorDefinitionBuilder.java:123-153 | the constructor's lines start with all annotation lines; they fail exactly when an annotation or the parameter list does |
| Constructors.PlaceholderHasNoTerminator | src/main/java/com/jgencode/gen/ConstructorDefinitionBuilder.java:134 | the placeholder is one line |
| Constructors.SignatureHasNoTerminator | src/main/java/com/jgencode/gen/ConstructorDefinitionBuilder.java:128-139 | the signature holds no terminator when the parameter list holds none |
| Constructors.ConstructorLinesShape | src/main/java/com/jgencode/gen/ConstructorDefinitionBuilder.java:126-150 | a constructor is its annotation lines, the signature with "{" (never ";"), one indented line per body piece, "}" and an empty line |
| Constructors.SignatureSpacing | src/main/java/com/jgencode/gen/ConstructorDefinitionBuilder.java:129-135 | a public constructor reads "public  {_CLASSNAME_}(...)" with two spaces; one without modifiers starts with a single space |
| Constructors.ConstructorDefinition.constructor | src/main/java/com/jgencode/gen/ConstructorDefinitionBuilder.java:110-121 | the definition holds the captured values and lines |
| Constructors.ConstructorDefinitionBuilder.constructor | src/main/java/com/jgencode/gen/ConstructorDefinitionBuilder.java:61-63 | a new builder holds nothing |
| Constructors.ConstructorDefinitionBuilder.Body | src/main/java/com/jgencode/gen/ConstructorDefinitionBuilder.java:71-74 | body is last-write-wins and changes nothing else |
| Constructors.ConstructorDefinitionBuilder.AddModifier | src/main/java/com/jgencode/gen/ConstructorDefinitionBuilder.java:81-84 | addModifier inserts into the insertion-ordered set |
| Constructors.ConstructorDefinitionBuilder.AddParameter | src/main/java/com/jgencode/gen/ConstructorDefinitionBuilder.java:91-94 | addParameter inserts into the insertion-ordered set |
| Constructors.ConstructorDefinitionBuilder.Parameters | src/main/java/com/jgencode/gen/ConstructorDefinitionBuilder.java:101-104 | parameters(collection) adds every element in order |
| Constructors.ConstructorDefinitionBuilder.AddAnnotationType | src/main/java/com/jgencode/gen/ConstructorDefinitionBuilder.java:176-179 | addAnnotationType inserts into the insertion-ordered set |
| Constructors.ConstructorDefinitionBuilder.CreateSourceLines | src/main/java/com/jgencode/gen/ConstructorDefinitionBuilder.java:123-153 | the StringBuilder steps and the split into lines compute ConstructorLines |
| Constructors.ConstructorDefinitionBuilder.Build | src/main/java/com/jgencode/gen/ConstructorDefinitionBuilder.java:110-121 | a fresh definition with the builder's values and its lines fixed now |
| MethodUtil.MethodsImports | src/main/java/com/jgencode/gen/util/MethodUtil.java:31-76 | a null method collection leaves the set as it is; otherwise it fails exactly when a contributed name is null |
| MethodUtil.MethodNamesListed | src/main/java/com/jgencode/gen/util/MethodUtil.java:37 | each method's names are among those of the whole collection |
| MethodUtil.ImportClassesFromMethods | src/main/java/com/jgencode/gen/util/MethodUtil.java:31-76 | the nested forEach loops compute MethodsImports |
| MethodUtil.ImportsOnlyInsert | src/main/java/com/jgencode/gen/util/MethodUtil.java:31-76 | names are only added: every old member stays, the set stays sorted, and every new member is a contributed name |
| MethodUtil.MethodNamesImported | src/main/java/com/jgencode/gen/util/MethodUtil.java:37-75 | every name a method contributes is in the set afterwards |
| MethodUtil.ClassReturnTypeImported | src/main/java/com/jgencode/gen/util/MethodUtil.java:38-48 | a ClassType return type adds its full class name and that of every ClassType generic value |
| MethodUtil.NativeReturnTypeNotImported | src/main/java/com/jgencode/gen/util/MethodUtil.java:38 | a native return type contributes what no return type would |
| MethodUtil.MethodAnnotationImported | src/main/java/com/jgencode/gen/util/MethodUtil.java:49-50 | the class of every method annotation is added |
| MethodUtil.ParameterTypeNamesCover | src/main/java/com/jgencode/gen/util/MethodUtil.java:52-59 | every set parameter type with a non-native name is collected |
| MethodUtil.NativeParameterNotImported | src/main/java/com/jgencode/gen/util/MethodUtil.java:58 | every collected parameter type name is non-native |
| MethodUtil.ParameterTypeImported | src/main/java/com/jgencode/gen/util/MethodUtil.java:52-62 | every set parameter type whose name is not native is added, under its full class name or full name |
| MethodUtil.ParameterGenericsNotImported | src/main/java/com/jgencode/gen/util/MethodUtil.java:56 | a parameter type's name does not depend on its generics, so they are not added |
| MethodUtil.ParameterAnnotationNamesCover | src/main/java/com/jgencode/gen/util/MethodUtil.java:65-69 | every parameter annotation's class is collected |
| MethodUtil.ParameterAnnotationImported | src/main/java/com/jgencode/gen/util/MethodUtil.java:65-73 | the class of every parameter annotation is added |
| ImportNames.FullClassNames | src/main/java/com/jgencode/gen/DefinitionBuilder.java:249-251 | the full class name of every registered type, in order |
| ImportNames.GenericClassNamesCover | src/main/java/com/jgencode/gen/util/MethodUtil.java:41-46 | the full class name of every ClassType generic value is collected |
| ImportNames.GenericClassNamesOnly | src/main/java/com/jgencode/gen/util/MethodUtil.java:44 | only ClassType generic values are collected; raw strings contribute nothing |
| ImportNames.AnnotationClassNames | src/main/java/com/jgencode/gen/DefinitionBuilder.java:266-267 | the full class name of every unit annotation's class, in order |
| ImportNames.AttributeClassNamesCover | src/main/java/com/jgencode/gen/DefinitionBuilder.java:268-271 | every ClassType-valued attribute of every unit annotation is collected |
| ImportNames.ValueClassNamesCover | src/main/java/com/jgencode/gen/DefinitionBuilder.java:269-271 | every ClassType attribute value of one annotation is collected |
| ImportNames.ImportedNames | src/main/java/com/jgencode/gen/DefinitionBuilder.java:273-279 | a name is imported exactly when it is in the set and is neither "Override" nor a name whose text before the last "." equals the package |
| ImportNames.ImportLines | src/main/java/com/jgencode/gen/DefinitionBuilder.java:280 | one "import X;" line per imported name |
| ImportNames.ImportLineInjective | src/main/java/com/jgencode/gen/DefinitionBuilder.java:280 | an import line determines its name |
| ImportNames.ImportLinesIff | src/main/java/com/jgencode/gen/DefinitionBuilder.java:273-280 | "import X;" is emitted exactly when X is in the set and not skipped |
| ImportNames.ImportedNamesSorted | src/main/java/com/jgencode/gen/DefinitionBuilder.java:66 | the import lines follow the TreeSet's sorted order |
| ImportNames.SamePackageNotImported | src/main/java/com/jgencode/gen/DefinitionBuilder.java:276-279 | a class of the package being generated is never imported |
| ImportNames.UndottedNameComparedWhole | src/main/java/com/jgencode/gen/DefinitionBuilder.java:277 | a name without "." is compared whole with the package |
| Definitions.PackageDeclarationRoundTrip | src/main/java/com/jgencode/gen/DefinitionBuilder.java:104-106 | the package line is "package " + package + ";" + a line separator, and the package can be read back from it |
| Definitions.PathOf | src/main/java/com/jgencode/gen/DefinitionBuilder.java:216-220 | Paths.get keeps the non-empty names in order |
| Definitions.CreatePackagePath | src/main/java/com/jgencode/gen/DefinitionBuilder.java:216-220 | a null package is a NullPointerException; any other failure is an ArrayIndexOutOfBoundsException |
| Definitions.PackagePathOfNames | src/main/java/com/jgencode/gen/DefinitionBuilder.java:216-220 | a package of non-empty dotless names joined by "." gives exactly those names back as the path |
| Definitions.PackagePathEdgeCases | src/main/java/com/jgencode/gen/DefinitionBuilder.java:216-220 | an empty package gives the empty path, a package of dots only gives an ArrayIndexOutOfBoundsException |
| Definitions.CreateFields | src/main/java/com/jgencode/gen/DefinitionBuilder.java:236-243 | no field lines when there are no fields |
| Definitions.CreateFieldsSnoc | src/main/java/com/jgencode/gen/DefinitionBuilder.java:236-243 | each field adds its own lines, indented once, after those of the fields before it |
| Definitions.FieldClassNamesNeedPackage | src/main/java/com/jgencode/gen/DefinitionBuilder.java:254-258 | a field's class type is collected only when it is non-null with a non-blank package |
| Definitions.FieldClassNamesCover | src/main/java/com/jgencode/gen/DefinitionBuilder.java:254-258 | every such field class type is collected |
| Definitions.DefinitionBuilder.constructor | src/main/java/com/jgencode/gen/DefinitionBuilder.java:95-98 | a new unit builder holds the package and name given and nothing else |
| Definitions.DefinitionBuilder.AddClassToImport | src/main/java/com/jgencode/gen/DefinitionBuilder.java:145-148 | addClassToImport inserts into the insertion-ordered set and changes nothing else |
| Definitions.DefinitionBuilder.AddAnnotationType | src/main/java/com/jgencode/gen/DefinitionBuilder.java:155-158 | addAnnotationType inserts and changes nothing else |
| Definitions.DefinitionBuilder.AddModifier | src/main/java/com/jgencode/gen/DefinitionBuilder.java:191-194 | addModifier inserts and changes nothing else |
| Definitions.DefinitionBuilder.AddField | src/main/java/com/jgencode/gen/DefinitionBuilder.java:165-168 | addField creates the set on first use and inserts |
| Definitions.DefinitionBuilder.AddFields | src/main/java/com/jgencode/gen/DefinitionBuilder.java:227-230 | addFields creates the set on first use and adds all in order |
| Definitions.DefinitionBuilder.ImportClasses | src/main/java/com/jgencode/gen/DefinitionBuilder.java:248-281 | importClasses adds every collected name to the TreeSet, then appends one import line per name not skipped, in sorted order; a null name is a NullPointerException |
| Definitions.DefinitionBuilder.MakeDefinition | src/main/java/com/jgencode/gen/DefinitionBuilder.java:200-209 | build() returns the class name, modifiers, package and code lines, with the package path; it fails exactly when the path does |
| Definitions.AppendImportLines | src/main/java/com/jgencode/gen/DefinitionBuilder.java:273-280 | the filter-and-emit loop appends exactly ImportLines |
| Definitions.ImportLinesSnoc | src/main/java/com/jgencode/gen/DefinitionBuilder.java:273-280 | one more set member appends its line unless it is skipped |
| Definitions.ImportedNamesSnoc | src/main/java/com/jgencode/gen/DefinitionBuilder.java:273-279 | one more set member is imported unless it is skipped |
| Headers.ArgumentType | src/main/java/com/jgencode/gen/ClassDefinitionBuilder.java:141-152 | the rebuilt type of a generic value has no generics |
| Headers.ArgumentTexts | src/main/java/com/jgencode/gen/ClassDefinitionBuilder.java:140-163 | one text per generic value, in map order |
| Headers.SuperTypeText | src/main/java/com/jgencode/gen/ClassDefinitionBuilder.java:136-166 | rendering a super-type fails exactly on a null name; without generics it is the name |
| Headers.DottedArgument | src/main/java/com/jgencode/gen/ClassDefinitionBuilder.java:144-156 | a dotted generic value renders as its text after the last "." and is imported under its own name |
| Headers.UndottedInterfaceArgument | jgencode/src/main/java/com/jgencode/gen/InterfaceDefinitionBuilder.java:129-131 | an undotted generic value of an interface's super-type renders as its full class name; in a class's extends clause it keeps its name |
| Headers.RawArgument | src/main/java/com/jgencode/gen/ClassDefinitionBuilder.java:158-161 | a raw value renders as it is; a GENERAL_CLASSES key adds its qualified name, any other adds nothing |
| Headers.NullArgumentFails | src/main/java/com/jgencode/gen/ClassDefinitionBuilder.java:158-161 | a null generic value of a super-type makes the lookup in GENERAL_CLASSES, which rejects a null key, fail with a NullPointerException, so rendering the extends clause (and the interface extends list, InterfaceDefinitionBuilder.java:141-144) fails; its text would read "null" |
| Headers.SuperTypeWithGenerics | src/main/java/com/jgencode/gen/ClassDefinitionBuilder.java:137-166 | with generics the rendering is the name, "<", the arguments and ">" |
| Headers.TerminatedSnoc | src/main/java/com/jgencode/gen/ClassDefinitionBuilder.java:93-97 | one more annotation line appends the line and a separator |
| Headers.TerminatedLines | src/main/java/com/jgencode/gen/ClassDefinitionBuilder.java:93-97 | reading separator-terminated lines back with String.lines() gives them back first |
| Headers.AppendTerminated | src/main/java/com/jgencode/gen/ClassDefinitionBuilder.java:93-97 | the loop over the annotation lines appends exactly the terminated lines |
| Headers.MapArguments | src/main/java/com/jgencode/gen/ClassDefinitionBuilder.java:140-163 | the stream over the generic values gives their texts and adds their names to the TreeSet as it maps |
| Headers.ArgumentsGrow | src/main/java/com/jgencode/gen/ClassDefinitionBuilder.java:140-163 | one more generic value: its text and its names come last |
| Headers.ArgumentsImportsPrefix | src/main/java/com/jgencode/gen/ClassDefinitionBuilder.java:140-163 | the names of the first k generic values are among those of all |
| Headers.RenderSuperType | src/main/java/com/jgencode/gen/ClassDefinitionBuilder.java:136-166 | rendering a super-type gives SuperTypeText and the set grown by its names, failing exactly when either does |
| ClassDefinitions.ExtendsClause | src/main/java/com/jgencode/gen/ClassDefinitionBuilder.java:131-170 | no superclass gives no extends clause; with one, rendering fails exactly when its name is null |
| ClassDefinitions.ClassNames | src/main/java/com/jgencode/gen/ClassDefinitionBuilder.java:179 | the simple class name of every implemented interface, in order |
| ClassDefinitions.ImplementsClause | src/main/java/com/jgencode/gen/ClassDefinitionBuilder.java:172-183 | the implements clause is empty exactly without interfaces; otherwise it starts with " implements " and ends with one space |
| ClassDefinitions.ClassDeclarationLine | src/main/java/com/jgencode/gen/ClassDefinitionBuilder.java:92-104 | the declaration fails exactly when an annotation or the superclass cannot be rendered |
| ClassDefinitions.AccessorsAreBlocksOfThree | src/main/java/com/jgencode/gen/ClassDefinitionBuilder.java:207-228 | every accessor is a block of three lines |
| ClassDefinitions.AccessorBlocks | src/main/java/com/jgencode/gen/ClassDefinitionBuilder.java:211-225 | a field with both flags gets its setter block then its getter block, one with neither none; each block closes with "    }" and a trailing separator |
| ClassDefinitions.ReplaceTokens | src/main/java/com/jgencode/gen/ClassDefinitionBuilder.java:115-116 | every constructor line with the placeholder replaced, in order |
| ClassDefinitions.PlaceholderReplaced | src/main/java/com/jgencode/gen/ClassDefinitionBuilder.java:116 | the placeholder in a line becomes the class name |
| ClassDefinitions.PlaceholderKeptWithoutName | src/main/java/com/jgencode/gen/ClassDefinitionBuilder.java:116 | with a null class name the line is left as it is |
| ClassDefinitions.PublicConstructorLine | src/main/java/com/jgencode/gen/ClassDefinitionBuilder.java:114-120 | a public constructor's first line, placed in the class, reads "public  Name(parameters){" with two spaces |
| ClassDefinitions.NoPlaceholderIn | src/main/java/com/jgencode/gen/ClassDefinitionBuilder.java:116 | a text whose only "{" is its last character holds no placeholder |
| ClassDefinitions.ClassLinesLayout | src/main/java/com/jgencode/gen/ClassDefinitionBuilder.java:86-128 | the output holds, in order: the package line, the import lines, the declaration, the field lines, the accessors, the constructors, the methods and "}" |
| ClassDefinitions.ClassDefinitionBuilder.constructor | src/main/java/com/jgencode/gen/DefinitionBuilder.java:116-118 | a new class builder holds the package and name and nothing else |
| ClassDefinitions.ClassDefinitionBuilder.AddInterfaceImplements | src/main/java/com/jgencode/gen/ClassDefinitionBuilder.java:191-194 | addInterfaceImplements inserts into the insertion-ordered set and changes nothing else |
| ClassDefinitions.ClassDefinitionBuilder.ClassExtended | src/main/java/com/jgencode/gen/ClassDefinitionBuilder.java:202-205 | classExtended is last-write-wins |
| ClassDefinitions.ClassDefinitionBuilder.AddMethod | src/main/java/com/jgencode/gen/ClassDefinitionBuilder.java:256-260 | addMethod creates the set on first use and inserts |
| ClassDefinitions.ClassDefinitionBuilder.AddMethods | src/main/java/com/jgencode/gen/ClassDefinitionBuilder.java:230-235 | addMethods creates the set on first use and adds all in order |
| ClassDefinitions.ClassDefinitionBuilder.AddConstructor | src/main/java/com/jgencode/gen/ClassDefinitionBuilder.java:243-248 | addConstructor creates the set on first use and inserts |
| ClassDefinitions.ClassDefinitionBuilder.Code | src/main/java/com/jgencode/gen/ClassDefinitionBuilder.java:85-129 | the class rendering succeeds exactly when the imports, the annotations, the extends clause and the extends clause's names all do |
| ClassDefinitions.ClassDefinitionBuilder.ImportClasses | src/main/java/com/jgencode/gen/ClassDefinitionBuilder.java:67-79 | the override adds the implemented interfaces' and the superclass's full names, then does the shared importClasses |
| ClassDefinitions.ClassDefinitionBuilder.AddClassExtendedToDeclaration | src/main/java/com/jgencode/gen/ClassDefinitionBuilder.java:131-170 | renders the extends clause and adds its generic values' names to the TreeSet; nothing else changes |
| ClassDefinitions.ClassDefinitionBuilder.CreateAccessors | src/main/java/com/jgencode/gen/ClassDefinitionBuilder.java:207-228 | the loop over the fields computes Accessors: per field in insertion order, setter block before getter block |
| ClassDefinitions.ClassDefinitionBuilder.CreateConstructorCode | src/main/java/com/jgencode/gen/ClassDefinitionBuilder.java:114-120 | every constructor line with the placeholder replaced by the class name and indented once |
| ClassDefinitions.ClassDefinitionBuilder.CreateMethodCode | src/main/java/com/jgencode/gen/ClassDefinitionBuilder.java:122-126 | every method line indented once |
| ClassDefinitions.ClassDefinitionBuilder.ImportAll | src/main/java/com/jgencode/gen/ClassDefinitionBuilder.java:88-91 | the package line, the methods' names and the import lines, before the declaration is rendered |
| ClassDefinitions.ClassDefinitionBuilder.CreateDeclaration | src/main/java/com/jgencode/gen/ClassDefinitionBuilder.java:92-104 | the declaration line, with the extends clause's names joining the TreeSet |
| ClassDefinitions.ClassDefinitionBuilder.CreateBody | src/main/java/com/jgencode/gen/ClassDefinitionBuilder.java:108-126 | the field lines, the accessors only for a non-empty field set, the constructors and the methods |
| ClassDefinitions.ClassDefinitionBuilder.DoBuildCode | src/main/java/com/jgencode/gen/ClassDefinitionBuilder.java:85-129 | doBuildCode produces exactly the lines and the TreeSet of Code, failing exactly when it does |
| ClassDefinitions.ClassDefinitionBuilder.Build | src/main/java/com/jgencode/gen/DefinitionBuilder.java:200-209 | build() returns the lines doBuildCode produced together with the name, modifiers and package path |
| ClassDefinitions.ExtendsImportsMissed | src/main/java/com/jgencode/gen/ClassDefinitionBuilder.java:91-102 | a name only the extends clause brings gets no import line in this build, yet is in the TreeSet afterwards, so the next build of the same builder imports it |
| ClassDefinitions.ExtendsClauseShape | src/main/java/com/jgencode/gen/ClassDefinitionBuilder.java:136-168 | " extends " + the superclass name, plus "<" + the arguments joined by ", " + ">" when it has generics |
| ClassDefinitions.ImplementsOne | src/main/java/com/jgencode/gen/ClassDefinitionBuilder.java:176-182 | one interface gives " implements " + its simple name + " " |
| ClassDefinitions.AccessorsAppend | src/main/java/com/jgencode/gen/ClassDefinitionBuilder.java:210-226 | the accessors of two field lists follow each other: field order is kept |
| ClassDefinitions.AccessorsStep | src/main/java/com/jgencode/gen/ClassDefinitionBuilder.java:210-226 | one more field's accessor blocks come last |
| ClassDefinitions.AccessorsLast | src/main/java/com/jgencode/gen/ClassDefinitionBuilder.java:210-226 | peeling the last field off a field list |
| ClassDefinitions.NoFlagsNoAccessors | src/main/java/com/jgencode/gen/ClassDefinitionBuilder.java:211-219 | fields without setter or getter flags produce no accessor lines |
| InterfaceDefinitions.ExtendsTexts | jgencode/src/main/java/com/jgencode/gen/InterfaceDefinitionBuilder.java:116-151 | one rendered text per extended interface, in list order; fails exactly when one has a null name |
| InterfaceDefinitions.ExtendsList | jgencode/src/main/java/com/jgencode/gen/InterfaceDefinitionBuilder.java:151-154 | no extends list without extended interfaces |
| InterfaceDefinitions.InterfaceDeclarationLine | jgencode/src/main/java/com/jgencode/gen/InterfaceDefinitionBuilder.java:88-98 | the declaration fails exactly when an annotation or an extended interface cannot be rendered |
| InterfaceDefinitions.InheritedNamesCover | jgencode/src/main/java/com/jgencode/gen/InterfaceDefinitionBuilder.java:68-77 | each extended interface's full name and those of its ClassType generic values are collected |
| InterfaceDefinitions.InterfaceLinesLayout | jgencode/src/main/java/com/jgencode/gen/InterfaceDefinitionBuilder.java:84-112 | the output holds, in order: the package line, the import lines, the declaration, the field lines, the methods and "}", with no accessors |
| InterfaceDefinitions.InterfaceDefinitionBuilder.constructor | jgencode/src/main/java/com/jgencode/gen/InterfaceDefinitionBuilder.java:49-51 | a new interface builder holds the package and name and nothing else |
| InterfaceDefinitions.InterfaceDefinitionBuilder.AddInterfaceExtend | jgencode/src/main/java/com/jgencode/gen/InterfaceDefinitionBuilder.java:58-61 | addInterfaceExtend appends to the list: duplicates kept, order preserved |
| InterfaceDefinitions.InterfaceDefinitionBuilder.AddMethod | jgencode/src/main/java/com/jgencode/gen/InterfaceDefinitionBuilder.java:170-174 | addMethod creates the set on first use and inserts |
| InterfaceDefinitions.InterfaceDefinitionBuilder.AddMethods | jgencode/src/main/java/com/jgencode/gen/InterfaceDefinitionBuilder.java:157-163 | addMethods creates the set on first use and adds all in order |
| InterfaceDefinitions.InterfaceDefinitionBuilder.Code | jgencode/src/main/java/com/jgencode/gen/InterfaceDefinitionBuilder.java:83-113 | the interface rendering succeeds exactly when the annotations, the extended interfaces and the imports do, and leaves the TreeSet the import lines were emitted from |
| InterfaceDefinitions.InterfaceDefinitionBuilder.AddInterfacesExtendsCode | jgencode/src/main/java/com/jgencode/gen/InterfaceDefinitionBuilder.java:115-155 | the extends list, with the generic values' names added to the TreeSet while mapping |
| InterfaceDefinitions.InterfaceDefinitionBuilder.ImportClasses | jgencode/src/main/java/com/jgencode/gen/InterfaceDefinitionBuilder.java:63-81 | the override adds the extended interfaces' names, then does the shared importClasses |
| InterfaceDefinitions.InterfaceDefinitionBuilder.CreateMethodCode | jgencode/src/main/java/com/jgencode/gen/InterfaceDefinitionBuilder.java:106-110 | every method line indented once |
| InterfaceDefinitions.InterfaceDefinitionBuilder.CreateDeclaration | jgencode/src/main/java/com/jgencode/gen/InterfaceDefinitionBuilder.java:88-98 | the declaration line, with the extends list's names joining the TreeSet first |
| InterfaceDefinitions.InterfaceDefinitionBuilder.ImportAll | jgencode/src/main/java/com/jgencode/gen/InterfaceDefinitionBuilder.java:100-102 | the methods' names, then the override of importClasses |
| InterfaceDefinitions.InterfaceDefinitionBuilder.CreateBody | jgencode/src/main/java/com/jgencode/gen/InterfaceDefinitionBuilder.java:104-110 | the field lines and the indented method lines |
| InterfaceDefinitions.InterfaceDefinitionBuilder.DoBuildCode | jgencode/src/main/java/com/jgencode/gen/InterfaceDefinitionBuilder.java:83-113 | doBuildCode produces exactly the lines and the TreeSet of Code, failing exactly when it does |
| InterfaceDefinitions.InterfaceDefinitionBuilder.Build | src/main/java/com/jgencode/gen/DefinitionBuilder.java:200-209 | build() returns the lines doBuildCode produced together with the name, modifiers and package path |
| InterfaceDefinitions.RenderInterfaces | jgencode/src/main/java/com/jgencode/gen/InterfaceDefinitionBuilder.java:116-151 | the stream over the extended interfaces gives their texts and grows the TreeSet by their names |
| InterfaceDefinitions.AddInheritedNames | jgencode/src/main/java/com/jgencode/gen/InterfaceDefinitionBuilder.java:68-77 | the loop of the override adds exactly the inherited names |
| InterfaceDefinitions.ExtendsPrefixFails | jgencode/src/main/java/com/jgencode/gen/InterfaceDefinitionBuilder.java:116-151 | a failure on the first interfaces is a failure of the whole list |
| InterfaceDefinitions.ExtendsNamesPrefix | jgencode/src/main/java/com/jgencode/gen/InterfaceDefinitionBuilder.java:116-151 | the names of the first interfaces are among those of all |
| InterfaceDefinitions.InheritedPrefixFails | jgencode/src/main/java/com/jgencode/gen/InterfaceDefinitionBuilder.java:68-77 | a failure on the first interfaces' inherited names is a failure of all |
| InterfaceDefinitions.InheritedNamesPrefix | jgencode/src/main/java/com/jgencode/gen/InterfaceDefinitionBuilder.java:68-77 | the inherited names of the first interfaces are among those of all |
| InterfaceDefinitions.ExtendsNamesInImportSet | jgencode/src/main/java/com/jgencode/gen/InterfaceDefinitionBuilder.java:97-103 | every name the extends list collects is in the TreeSet when the import lines are emitted |
| InterfaceDefinitions.ExtendsNamesImported | jgencode/src/main/java/com/jgencode/gen/InterfaceDefinitionBuilder.java:97-103 | every such name that is not skipped gets its import line in the same build |
| InterfaceDefinitions.ExtendedInterfaceImported | jgencode/src/main/java/com/jgencode/gen/InterfaceDefinitionBuilder.java:68-79 | each extended interface's full class name gets its import line unless it is skipped |
| InterfaceDefinitions.ExtendsTwo | jgencode/src/main/java/com/jgencode/gen/InterfaceDefinitionBuilder.java:151-153 | two extended interfaces are joined by a bare "," |
| InterfaceDefinitions.NoLeadingSeparator | jgencode/src/main/java/com/jgencode/gen/InterfaceDefinitionBuilder.java:88-98 | without annotations the declaration starts with the access word and a space, with no leading separator |
| RecordDefinitions.Components | src/main/java/com/jgencode/gen/RecordDefinitionBuilder.java:51 | one component per field: its getFieldType, a space and its name |
| RecordDefinitions.ComponentList | src/main/java/com/jgencode/gen/RecordDefinitionBuilder.java:49-53 | no components without fields |
| RecordDefinitions.RecordDefinitionBuilder.constructor | src/main/java/com/jgencode/gen/RecordDefinitionBuilder.java:37-39 | a new record builder holds the package and name and nothing else |
| RecordDefinitions.RecordDefinitionBuilder.DoBuildCode | src/main/java/com/jgencode/gen/RecordDefinitionBuilder.java:42-58 | exactly the package line, the import lines, one empty line, the header access word + " record " + name + "(" + components + ") {" and "}"; only the shared importClasses touches the TreeSet |
| RecordDefinitions.RecordDefinitionBuilder.Build | src/main/java/com/jgencode/gen/DefinitionBuilder.java:200-209 | build() returns those lines and the package path |
| RecordDefinitions.EmptyRecordHeader | src/main/java/com/jgencode/gen/RecordDefinitionBuilder.java:48-56 | without fields the header ends in "() {" |
| RecordDefinitions.TwoComponents | src/main/java/com/jgencode/gen/RecordDefinitionBuilder.java:51-52 | two fields give two components in insertion order joined by ", " |
| RecordDefinitions.ComponentType | src/main/java/com/jgencode/gen/RecordDefinitionBuilder.java:51 | a component names the field's class type when it has a named one, its native type otherwise |
| RecordDefinitions.RecordLayout | src/main/java/com/jgencode/gen/RecordDefinitionBuilder.java:43-58 | the record output is its import lines plus four lines: package line first, the empty line after the imports, "}" last |
| RecordDefinitions.FieldTypeImported | src/main/java/com/jgencode/gen/RecordDefinitionBuilder.java:45 | a field class type with a non-blank package is imported through the shared importClasses, though the field renders no declaration |

## Left out

- Writing the rendered lines to disk (`JavaFileBuilder`) is file-system I/O and is not modelled. The model stops at the `Definition` value.
- slf4j logging has no effect on the output. It is left out.
- `DefinitionBuilderWithMethods` only declares method signatures and has no behaviour of its own.
- The `com.camucode.gen` tree is an earlier snapshot whose builders do not compile against one another. The model uses only three of its files: `Constants`, `Modifier` and `ClassTypeBuilder`. The jgencode code imports all three, under the jgencode package names.
- The camucode `ClassUtil.isNative` looks a name up on the class path by reflection (`Class.forName`). That is a foreign call, and it is left out.
- TypeBuilders.ClassTypeBuilder.Build: the model stores a value. In Java the built type shares the builder's generic map, so a later `addGeneric` shows through the built type. The model does not capture that aliasing.
- Methods.MethodDefinitionBuilder.Build, Constructors.ConstructorDefinitionBuilder.Build, Fields.FieldDefinitionBuilder.Build, Parameters.ParameterDefinitionBuilder.Build: the built descriptors hold the builder's own sets in Java. The model copies them at `build()`, so later changes to the builder do not show through an earlier descriptor.
- When a `NullPointerException` escapes part-way through a `TreeSet.addAll` loop, Java leaves the names already added in the set. The model's error result leaves the builder's set unchanged.
- The `LinkedHashSet<ClassType>` of implemented interfaces compares `ClassType` values structurally in the model. Java compares references here, so two equal but distinct ClassType objects would both be kept.
- Case conversion (`toLowerCase` in `Modifier`, `capitalize` for accessor names) covers ASCII letters only.
- `String.compareTo` is modelled on Dafny characters, that is code points. Java compares UTF-16 code units, and the two orders differ only beyond the Basic Multilingual Plane.
- A generic value that is neither a `ClassType` nor a `String` makes Java throw a `ClassCastException`. The model's generic argument type cannot hold such a value.
- A null key in a generic or attribute map is not representable: the keys are plain strings.
- Annotation attribute numbers are integers. Floating-point values and their `toString` forms are not modelled.
- `System.lineSeparator()` is fixed to `"\n"`.
- A `java.nio.file.Path` is a sequence of its name elements.
- The getters of `ParameterDefinition`, `FieldDefinition` and the other descriptors are their `const` fields, so they have no separate members.
- Modifiers.AccessWord, Modifiers.MethodAccessWord: the renderers fix the `Set.of` iteration order to the order in which the constants are declared. Java leaves that order unspecified, so with several access modifiers present the word Java renders may differ; Modifiers.CurrentAccessModifier and Modifiers.CurrentMethodAccessModifier state what holds under every order.
- ClassDefinitions.ClassDefinitionBuilder.AddInterfaceImplements, ClassDefinitions.ClassDefinitionBuilder.AddMethod, ClassDefinitions.ClassDefinitionBuilder.AddMethods, ClassDefinitions.ClassDefinitionBuilder.AddConstructor, InterfaceDefinitions.InterfaceDefinitionBuilder.AddInterfaceExtend, InterfaceDefinitions.InterfaceDefinitionBuilder.AddMethod, InterfaceDefinitions.InterfaceDefinitionBuilder.AddMethods, Definitions.DefinitionBuilder.AddField, Definitions.DefinitionBuilder.AddFields, Definitions.DefinitionBuilder.AddAnnotationType, Definitions.DefinitionBuilder.AddClassToImport, Methods.MethodDefinitionBuilder.AddParameter, Constructors.ConstructorDefinitionBuilder.AddParameter, Methods.MethodDefinitionBuilder.AddAnnotationType, Fields.FieldDefinitionBuilder.AddAnnotationType, Constructors.ConstructorDefinitionBuilder.AddAnnotationType, Parameters.ParameterDefinitionBuilder.AddAnnotation: their arguments are non-null references. Java stores a null element as well, and the build that later dereferences it throws a NullPointerException; the model cannot express that element, so it does not capture that failure.
