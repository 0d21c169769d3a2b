/** The fluent builders of class types and native types. Each setter
    overwrites one field and returns the builder itself. */
module TypeBuilders {
  import opened Wrappers
  import opened JStrings
  import opened Collections
  import opened Types

  class ClassTypeBuilder {
    var packageName: JString
    var className: JString
    /** The LinkedHashMap of generic arguments, in first-insertion order. */
    var generics: seq<Entry<GenArg>>

    ghost predicate Valid()
      reads this
    {
      DistinctKeys(generics)
    }

    constructor ()
      ensures Valid()
      ensures packageName == None && className == None && generics == []
    {
      packageName := None;
      className := None;
      generics := [];
    }

    method PackageName(p: JString) returns (self: ClassTypeBuilder)
      modifies this
      ensures self == this
      ensures packageName == p && className == old(className) && generics == old(generics)
    {
      packageName := p;
      self := this;
    }

    method ClassName(n: JString) returns (self: ClassTypeBuilder)
      modifies this
      ensures self == this
      ensures className == n && packageName == old(packageName) && generics == old(generics)
    {
      className := n;
      self := this;
    }

    /** addGeneric: Map.put on the ordered map. A key already present takes
        the new value in its old position; a new key goes last. */
    method AddGeneric(key: string, value: GenArg) returns (self: ClassTypeBuilder)
      requires Valid()
      modifies this
      ensures self == this && Valid()
      ensures generics == Put(old(generics), key, value)
      ensures Get(generics, key) == Some(value)
      ensures forall k | k != key :: Get(generics, k) == Get(old(generics), k)
      ensures packageName == old(packageName) && className == old(className)
    {
      PutDistinct(generics, key, value);
      forall k | k != key ensures Get(Put(generics, key, value), k) == Get(generics, k) {
        PutGet(generics, key, value, k);
      }
      PutGet(generics, key, value, key);
      generics := Put(generics, key, value);
      self := this;
    }

    /** build: a class type with the current package and name; its generics
        are the builder's entries, and stay null (empty) when none was added. */
    method Build() returns (t: ClassType)
      ensures t.packageName == packageName && t.name == className
      ensures t.generics == generics
      ensures |generics| == 0 ==> ClassNameWithGeneric(t) == className
      ensures |generics| > 0 ==> ClassNameWithGeneric(t).Some?
    {
      t := ClassType(packageName, className, generics);
    }
  }

  class NativeTypeBuilder {
    var name: JString

    constructor ()
      ensures name == None
    {
      name := None;
    }

    method Name(n: JString) returns (self: NativeTypeBuilder)
      modifies this
      ensures self == this && name == n
    {
      name := n;
      self := this;
    }

    /** build: a native type whose full name is the last name given (null
        when none was). The builder is left as it was. */
    method Build() returns (t: NativeType)
      ensures FullName(Native(t)) == name
      ensures name.None? ==> t.name.None?
    {
      t := NativeType(name);
    }
  }

  /** Setting a key twice keeps the first position and the second value. */
  lemma {:induction false} AddGenericTwice(m: seq<Entry<GenArg>>, k: string, v1: GenArg, v2: GenArg)
    requires DistinctKeys(m)
    ensures Keys(Put(Put(m, k, v1), k, v2)) == Keys(Put(m, k, v1))
    ensures Get(Put(Put(m, k, v1), k, v2), k) == Some(v2)
  {
    var m1 := Put(m, k, v1);
    if k !in Keys(m) {
      assert Keys(m1) == Keys(m) + [k] by {
        assert m1 == m + [Entry(k, v1)];
        KeysAppend(m, Entry(k, v1));
      }
    }
    assert k in Keys(m1);
    PutGet(m1, k, v2, k);
  }

}
