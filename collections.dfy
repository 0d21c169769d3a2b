/** The three Java collections the generator keeps its state in, as values:
    an insertion-ordered map (LinkedHashMap), an insertion-ordered set
    (LinkedHashSet, LinkedList) and a sorted set of strings (TreeSet<String>). */
module Collections {
  import opened Wrappers
  import opened JStrings
  import opened Sequences

  // ---------------------------------------------------------------------------
  // LinkedHashMap<String, V>: entries in first-insertion order
  // ---------------------------------------------------------------------------

  datatype Entry<V> = Entry(key: string, value: V)

  function Keys<V>(m: seq<Entry<V>>): (r: seq<string>)
    ensures |r| == |m| && forall i | 0 <= i < |m| :: r[i] == m[i].key
  {
    if |m| == 0 then [] else [m[0].key] + Keys(m[1..])
  }

  function Values<V>(m: seq<Entry<V>>): (r: seq<V>)
    ensures |r| == |m| && forall i | 0 <= i < |m| :: r[i] == m[i].value
  {
    seq(|m|, i requires 0 <= i < |m| => m[i].value)
  }

  /** Appending an entry appends its key. */
  lemma {:induction false} KeysAppend<V>(m: seq<Entry<V>>, e: Entry<V>)
    ensures Keys(m + [e]) == Keys(m) + [e.key]
  {
    assert |Keys(m + [e])| == |Keys(m) + [e.key]|;
    forall i | 0 <= i < |m| + 1 ensures Keys(m + [e])[i] == (Keys(m) + [e.key])[i] {
    }
  }

  predicate DistinctKeys<V>(m: seq<Entry<V>>) {
    forall i, j | 0 <= i < j < |m| :: m[i].key != m[j].key
  }

  /** Map.get: the value of the first entry with key `k`. */
  function Get<V>(m: seq<Entry<V>>, k: string): (r: Option<V>)
    ensures r.None? <==> k !in Keys(m)
    ensures r.Some? ==> exists i | 0 <= i < |m| :: m[i] == Entry(k, r.value)
  {
    if |m| == 0 then None
    else if m[0].key == k then Some(m[0].value)
    else
      assert Keys(m) == [m[0].key] + Keys(m[1..]);
      var r := Get(m[1..], k);
      assert r.Some? ==> exists i | 0 <= i < |m[1..]| :: m[1..][i] == Entry(k, r.value);
      r
  }

  /** LinkedHashMap.put: an existing key keeps its position and takes the
      new value (PutGet); a new key is appended. */
  function Put<V>(m: seq<Entry<V>>, k: string, v: V): (r: seq<Entry<V>>)
    ensures k in Keys(m) ==> Keys(r) == Keys(m)
    ensures k !in Keys(m) ==> r == m + [Entry(k, v)]
  {
    if |m| == 0 then [Entry(k, v)]
    else if m[0].key == k then
      [Entry(k, v)] + m[1..]
    else
      var rest := Put(m[1..], k, v);
      assert ([m[0]] + rest)[1..] == rest;
      [m[0]] + rest
  }

  /** After put, the key maps to the new value and every other key to what
      it mapped to before. */
  lemma {:induction false} PutGet<V>(m: seq<Entry<V>>, k: string, v: V, k': string)
    ensures Get(Put(m, k, v), k) == Some(v)
    ensures k' != k ==> Get(Put(m, k, v), k') == Get(m, k')
  {
    if |m| > 0 && m[0].key != k {
      PutGet(m[1..], k, v, k');
    }
  }

  /** put keeps the keys distinct. */
  lemma PutDistinct<V>(m: seq<Entry<V>>, k: string, v: V)
    requires DistinctKeys(m)
    ensures DistinctKeys(Put(m, k, v))
  {
    var r := Put(m, k, v);
    if k in Keys(m) {
      assert Keys(r) == Keys(m);
      forall i, j | 0 <= i < j < |r| ensures r[i].key != r[j].key {
        assert Keys(r)[i] == Keys(m)[i] && Keys(r)[j] == Keys(m)[j];
      }
    }
  }

  /** Replacing the value of a key never moves it: with distinct keys, the
      position of every key is the same before and after. */
  lemma {:induction false} PutKeepsPosition<V>(m: seq<Entry<V>>, k: string, v: V, i: nat)
    requires DistinctKeys(m) && i < |m| && m[i].key == k
    ensures Put(m, k, v) == m[i := Entry(k, v)]
  {
    UpdateThroughHead(m, i, Entry(k, v));
    if i > 0 {
      assert m[0].key != k;
      var tail := m[1..];
      assert forall a | 0 <= a < |tail| :: tail[a] == m[a + 1];
      assert DistinctKeys(tail);
      PutKeepsPosition(tail, k, v, i - 1);
    }
  }

  // ---------------------------------------------------------------------------
  // LinkedHashSet (identity or value equality): members in first-insertion order
  // ---------------------------------------------------------------------------

  predicate Distinct<T(==)>(s: seq<T>) {
    forall i, j | 0 <= i < j < |s| :: s[i] != s[j]
  }

  /** Set.add on an insertion-ordered set: a new member goes last, an existing
      one leaves the set as it was. */
  function Insert<T(==)>(s: seq<T>, x: T): (r: seq<T>)
    ensures x in r && (forall y | y in s :: y in r) && (forall y | y in r :: y in s || y == x)
    ensures |s| <= |r| && r[..|s|] == s
    ensures Distinct(s) ==> Distinct(r)
    ensures x in s ==> r == s
  {
    if x in s then s else s + [x]
  }

  /** Adding members one after the other. */
  function InsertAll<T(==)>(s: seq<T>, xs: seq<T>): (r: seq<T>)
    ensures (forall y | y in s :: y in r) && (forall y | y in xs :: y in r)
    ensures forall y | y in r :: y in s || y in xs
    ensures |s| <= |r| && r[..|s|] == s
    ensures Distinct(s) ==> Distinct(r)
    decreases |xs|
  {
    if |xs| == 0 then s else InsertAll(Insert(s, xs[0]), xs[1..])
  }

  // ---------------------------------------------------------------------------
  // TreeSet<String>: strictly increasing under String.compareTo
  // ---------------------------------------------------------------------------

  predicate Sorted(s: seq<string>) {
    forall i, j | 0 <= i < j < |s| :: LexLess(s[i], s[j])
  }

  /** TreeSet.add: the new member is placed at its position in the order;
      a member already present changes nothing. */
  function TreeInsert(s: seq<string>, x: string): (r: seq<string>)
    ensures forall y :: y in r <==> y in s || y == x
    decreases |s|
  {
    if |s| == 0 then [x]
    else if x == s[0] then s
    else if LexLess(x, s[0]) then [x] + s
    else
      [s[0]] + TreeInsert(s[1..], x)
  }

  lemma {:induction false} TreeInsertSorted(s: seq<string>, x: string)
    requires Sorted(s)
    ensures Sorted(TreeInsert(s, x))
    ensures x in s ==> TreeInsert(s, x) == s
    decreases |s|
  {
    if |s| > 0 && x != s[0] {
      if LexLess(x, s[0]) {
        forall j | 2 <= j < |s| + 1
          ensures LexLess(([x] + s)[0], ([x] + s)[j])
        {
          LexTransitive(x, s[0], s[j - 1]);
        }
        if x in s {
          var k :| 0 < k < |s| && s[k] == x;
          LexAsymmetric(x, s[0]);
        }
      } else {
        LexTotal(x, s[0]);
        TreeInsertSorted(s[1..], x);
        var r := [s[0]] + TreeInsert(s[1..], x);
        forall j | 1 <= j < |r|
          ensures LexLess(r[0], r[j])
        {
          assert r[j] in s[1..] || r[j] == x;
        }
        if x in s {
          assert x in s[1..];
          assert s == [s[0]] + s[1..];
        }
      }
    }
  }

  /** TreeSet.add of a reference: null is refused with a NullPointerException. */
  function TreeAdd(s: seq<string>, x: JString): (r: Result<seq<string>>)
    ensures x.None? <==> r.Err?
    ensures r.Ok? ==> r.value == TreeInsert(s, x.value)
  {
    if x.None? then Err(NullPointerException) else Ok(TreeInsert(s, x.value))
  }

  /** TreeSet.addAll of a list, element by element: the first null is
      refused with a NullPointerException. */
  function TreeAddAll(s: seq<string>, xs: seq<JString>): (r: Result<seq<string>>)
    ensures r.Err? <==> None in xs
    ensures r.Err? ==> r == Err(NullPointerException)
    ensures r.Ok? ==> forall y :: y in r.value <==> y in s || Some(y) in xs
    decreases |xs|
  {
    if |xs| == 0 then Ok(s)
    else
      var t :- TreeAdd(s, xs[0]);
      TreeAddAll(t, xs[1..])
  }

  /** The set stays sorted. */
  lemma {:induction false} TreeAddAllSorted(s: seq<string>, xs: seq<JString>)
    requires Sorted(s)
    ensures TreeAddAll(s, xs).Ok? ==> Sorted(TreeAddAll(s, xs).value)
    decreases |xs|
  {
    if |xs| > 0 && xs[0].Some? {
      TreeInsertSorted(s, xs[0].value);
      TreeAddAllSorted(TreeInsert(s, xs[0].value), xs[1..]);
    }
  }

  /** Adding two lists one after the other is adding their concatenation. */
  lemma {:induction false} TreeAddAllAppend(s: seq<string>, a: seq<JString>, b: seq<JString>)
    ensures TreeAddAll(s, a + b)
         == if TreeAddAll(s, a).Err? then Err(NullPointerException) else TreeAddAll(TreeAddAll(s, a).value, b)
    decreases |a|
  {
    if |a| == 0 {
      assert a + b == b;
    } else {
      assert (a + b)[0] == a[0];
      assert (a + b)[1..] == a[1..] + b;
      if a[0].Some? {
        TreeAddAllAppend(TreeInsert(s, a[0].value), a[1..], b);
      }
    }
  }

  /** Adding one more name after a list. */
  lemma TreeAddAllSnoc(s: seq<string>, xs: seq<JString>, x: JString)
    ensures TreeAddAll(s, xs + [x])
         == if TreeAddAll(s, xs).Err? then Err(NullPointerException) else TreeAdd(TreeAddAll(s, xs).value, x)
  {
    TreeAddAllAppend(s, xs, [x]);
  }

  /** TreeSet.addAll as a loop that adds one name at a time. */
  method AddAllNames(s: seq<string>, xs: seq<JString>) returns (r: Result<seq<string>>)
    ensures r == TreeAddAll(s, xs)
  {
    var acc := s;
    var i := 0;
    while i < |xs|
      invariant 0 <= i <= |xs|
      invariant TreeAddAll(s, xs[..i]) == Ok(acc)
    {
      TreeAddAllSnoc(s, xs[..i], xs[i]);
      assert xs[..i + 1] == xs[..i] + [xs[i]];
      if xs[i].None? {
        TreeAddAllAppend(s, xs[..i + 1], xs[i + 1..]);
        assert xs[..i + 1] + xs[i + 1..] == xs;
        return Err(NullPointerException);
      }
      acc := TreeInsert(acc, xs[i].value);
      i := i + 1;
    }
    assert xs[..i] == xs;
    return Ok(acc);
  }

  /** Adding names the sorted set already holds leaves it as it is. */
  lemma {:induction false} TreeAddAllPresent(s: seq<string>, xs: seq<JString>)
    requires Sorted(s)
    requires forall i | 0 <= i < |xs| :: xs[i].Some? && xs[i].value in s
    ensures TreeAddAll(s, xs) == Ok(s)
    decreases |xs|
  {
    if |xs| > 0 {
      TreeInsertSorted(s, xs[0].value);
      TreeAddAllPresent(s, xs[1..]);
    }
  }
}
