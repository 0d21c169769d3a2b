/** The pieces of java.lang.String and of Apache commons-lang StringUtils that
    the generator relies on, as pure functions over `string` (a sequence of
    chars).  A Java reference that may be null is a `JString`. */
module JStrings {
  import opened Wrappers
  import opened Sequences

  /** A Java String reference: None is null. */
  type JString = Option<string>

  const SPACE: string := " "
  const EMPTY: string := ""
  /** System.lineSeparator(), fixed to a Unix newline. */
  const LINE_SEPARATOR: string := "\n"

  /** String conversion as done by StringBuilder.append and String.format("%s"):
      null prints as "null". */
  function Show(s: JString): (r: string)
    ensures s.Some? ==> r == s.value
  {
    if s.None? then "null" else s.value
  }

  // ---------------------------------------------------------------------------
  // Blank tests (StringUtils.isBlank / isNotBlank use Character.isWhitespace)
  // ---------------------------------------------------------------------------

  /** Character.isWhitespace: the Unicode space, line and paragraph separators
      except the non-breaking ones, plus the ASCII controls TAB..CR and FS..US. */
  predicate IsWhitespace(c: char) {
    || c == ' '
    || ('\t' <= c <= '\r')
    || ('\U{1C}' <= c <= '\U{1F}')
    || c == '\U{1680}'
    || ('\U{2000}' <= c <= '\U{2006}')
    || ('\U{2008}' <= c <= '\U{200A}')
    || c == '\U{2028}' || c == '\U{2029}' || c == '\U{205F}' || c == '\U{3000}'
  }

  predicate IsBlank(s: string) {
    forall i | 0 <= i < |s| :: IsWhitespace(s[i])
  }

  /** StringUtils.isBlank on a reference: null, empty or whitespace only. */
  predicate IsBlankJ(s: JString) {
    s.None? || IsBlank(s.value)
  }

  // ---------------------------------------------------------------------------
  // Searching
  // ---------------------------------------------------------------------------

  predicate OccursAt(s: string, sub: string, i: nat) {
    i + |sub| <= |s| && s[i..i + |sub|] == sub
  }

  /** String.indexOf(sub, from): the first occurrence at or after `from`. */
  function IndexOfFrom(s: string, sub: string, from: nat): (r: Option<nat>)
    requires from <= |s|
    ensures r.Some? ==> from <= r.value <= |s| && OccursAt(s, sub, r.value)
    ensures r.Some? ==> forall j | from <= j < r.value :: !OccursAt(s, sub, j)
    ensures r.None? ==> forall j | from <= j <= |s| :: !OccursAt(s, sub, j)
    decreases |s| - from
  {
    if OccursAt(s, sub, from) then Some(from)
    else if from == |s| then None
    else IndexOfFrom(s, sub, from + 1)
  }

  function IndexOf(s: string, sub: string): Option<nat> {
    IndexOfFrom(s, sub, 0)
  }

  /** String.lastIndexOf(sub, upto): the last occurrence at or before `upto`. */
  function LastIndexOfUpTo(s: string, sub: string, upto: nat): (r: Option<nat>)
    requires upto <= |s|
    ensures r.Some? ==> r.value <= upto && OccursAt(s, sub, r.value)
    ensures r.Some? ==> forall j | r.value < j <= upto :: !OccursAt(s, sub, j)
    ensures r.None? ==> forall j | 0 <= j <= upto :: !OccursAt(s, sub, j)
  {
    if OccursAt(s, sub, upto) then Some(upto)
    else if upto == 0 then None
    else LastIndexOfUpTo(s, sub, upto - 1)
  }

  function LastIndexOf(s: string, sub: string): Option<nat> {
    LastIndexOfUpTo(s, sub, |s|)
  }

  /** StringUtils.contains. */
  predicate Contains(s: string, sub: string) {
    IndexOf(s, sub).Some?
  }

  lemma ContainsIff(s: string, sub: string)
    ensures Contains(s, sub) <==> exists j :: 0 <= j <= |s| && OccursAt(s, sub, j)
  {
    if Contains(s, sub) {
      assert OccursAt(s, sub, IndexOf(s, sub).value);
    }
  }

  // ---------------------------------------------------------------------------
  // Substrings (StringUtils.substringBefore / substringBeforeLast / substringAfterLast)
  // ---------------------------------------------------------------------------

  function SubstringBefore(s: string, sep: string): (r: string)
    ensures |r| <= |s| && r == s[..|r|]
    ensures |s| > 0 && |sep| > 0 ==> (r == s <==> IndexOf(s, sep).None?)
  {
    if |s| == 0 then s
    else if |sep| == 0 then EMPTY
    else match IndexOf(s, sep)
      case None => s
      case Some(k) => assert OccursAt(s, sep, k); s[..k]
  }

  function SubstringBeforeLast(s: string, sep: string): (r: string)
    ensures |r| <= |s| && r == s[..|r|]
  {
    if |s| == 0 || |sep| == 0 then s
    else match LastIndexOf(s, sep)
      case None => s
      case Some(k) => s[..k]
  }

  function SubstringAfterLast(s: string, sep: string): (r: string)
    ensures |r| <= |s| && r == s[|s| - |r|..]
  {
    if |s| == 0 then s
    else if |sep| == 0 then EMPTY
    else match LastIndexOf(s, sep)
      case None => EMPTY
      case Some(k) => s[k + |sep|..]
  }

  /** A string that ends with `sep` loses exactly that trailing `sep`. */
  lemma BeforeLastOfSuffix(x: string, sep: string)
    requires |sep| > 0
    ensures SubstringBeforeLast(x + sep, sep) == x
  {
    var s := x + sep;
    assert s[|x|..|x| + |sep|] == sep;
    assert OccursAt(s, sep, |x|);
    var r := LastIndexOf(s, sep);
    assert r.Some? && r.value >= |x|;
  }

  /** Breaking a dotted name at its last dot and joining it again gives the name back. */
  lemma SplitAtLastDot(s: string)
    requires Contains(s, ".")
    ensures SubstringBeforeLast(s, ".") + "." + SubstringAfterLast(s, ".") == s
  {
    var k := LastIndexOf(s, ".");
    assert IndexOf(s, ".").Some?;
    assert OccursAt(s, ".", IndexOf(s, ".").value);
    assert k.Some?;
    assert s[k.value..k.value + 1] == ".";
    assert s == s[..k.value] + "." + s[k.value + 1..];
  }

  // ---------------------------------------------------------------------------
  // Joining, repeating, capitalizing, replacing
  // ---------------------------------------------------------------------------

  /** String.join / Collectors.joining. */
  function Join(parts: seq<string>, sep: string): string {
    if |parts| == 0 then EMPTY
    else if |parts| == 1 then parts[0]
    else parts[0] + sep + Join(parts[1..], sep)
  }

  lemma {:induction false} JoinSnoc(parts: seq<string>, x: string, sep: string)
    requires |parts| > 0
    ensures Join(parts + [x], sep) == Join(parts, sep) + sep + x
  {
    if |parts| == 1 {
      assert parts + [x] == [parts[0], x];
    } else {
      assert (parts + [x])[1..] == parts[1..] + [x];
      JoinSnoc(parts[1..], x, sep);
    }
  }

  /** StringUtils.repeat. */
  function Repeat(s: string, n: nat): string {
    if n == 0 then EMPTY else s + Repeat(s, n - 1)
  }

  lemma {:induction false} RepeatSpace(n: nat)
    ensures |Repeat(SPACE, n)| == n
    ensures forall i | 0 <= i < n :: Repeat(SPACE, n)[i] == ' '
  {
    if n > 0 {
      RepeatSpace(n - 1);
    }
  }

  /** Character.toTitleCase on the ASCII letters. */
  function TitleCase(c: char): char {
    if 'a' <= c <= 'z' then (c as int - 'a' as int + 'A' as int) as char else c
  }

  /** StringUtils.capitalize: the first character title-cased, the rest unchanged. */
  function Capitalize(s: string): (r: string)
    ensures |r| == |s| && (|s| > 0 ==> r[1..] == s[1..])
  {
    if |s| == 0 then s else [TitleCase(s[0])] + s[1..]
  }

  function CapitalizeJ(s: JString): JString {
    if s.None? then None else Some(Capitalize(s.value))
  }

  /** StringUtils.replace(text, search, replacement): every occurrence, left to
      right and without overlap. An empty search string changes nothing. */
  function Replace(text: string, search: string, replacement: string): string
    decreases |text|
  {
    if |search| == 0 || |text| < |search| then text
    else if text[..|search|] == search then replacement + Replace(text[|search|..], search, replacement)
    else [text[0]] + Replace(text[1..], search, replacement)
  }

  /** A text without `search` is left as it is. */
  lemma {:induction false} ReplaceAbsent(text: string, search: string, replacement: string)
    requires !Contains(text, search)
    ensures Replace(text, search, replacement) == text
    decreases |text|
  {
    if |search| != 0 && |text| >= |search| {
      assert !OccursAt(text, search, 0);
      assert text[..|search|] != search;
      NoOccurrenceInTail(text, search);
      ReplaceAbsent(text[1..], search, replacement);
    }
  }

  lemma NoOccurrenceInTail(text: string, search: string)
    requires |text| > 0 && !Contains(text, search)
    ensures !Contains(text[1..], search)
  {
    if Contains(text[1..], search) {
      var j := IndexOf(text[1..], search).value;
      assert OccursAt(text[1..], search, j);
      assert text[j + 1..j + 1 + |search|] == text[1..][j..j + |search|];
      assert OccursAt(text, search, j + 1);
      assert false;
    }
  }

  /** When the prefix cannot start an occurrence (it never contains the first
      character of `search`), the first occurrence is the one right after it. */
  lemma {:induction false} ReplaceAfterPrefix(p: string, search: string, rest: string, replacement: string)
    requires |search| > 0 && search[0] !in p
    ensures Replace(p + search + rest, search, replacement)
         == p + replacement + Replace(rest, search, replacement)
    decreases |p|
  {
    var tail := search + rest;
    AppendAssoc(p, search, rest);
    if |p| == 0 {
      assert p + tail == tail;
      SplitAtSeam(search, rest);
    } else {
      var text := p + tail;
      HeadOfAppend(p, tail);
      assert text[..|search|][0] == p[0] != search[0];
      var later := p[1..] + tail;
      assert Replace(text, search, replacement) == [p[0]] + Replace(later, search, replacement);
      ReplaceAfterPrefix(p[1..], search, rest, replacement);
      AppendAssoc(p[1..], search, rest);
      var r := Replace(rest, search, replacement);
      assert Replace(later, search, replacement) == p[1..] + replacement + r;
      AppendAssoc([p[0]], p[1..] + replacement, r);
      AppendAssoc([p[0]], p[1..], replacement);
    }
  }

  // ---------------------------------------------------------------------------
  // Splitting (StringUtils.split by one separator char, String.lines)
  // ---------------------------------------------------------------------------

  /** StringUtils.split(s, c): the maximal non-empty runs without `c`, in order. */
  function Tokens(s: string, c: char): (r: seq<string>)
    ensures forall i | 0 <= i < |r| :: |r[i]| > 0 && c !in r[i]
    decreases |s|
  {
    if |s| == 0 then []
    else if s[0] == c then Tokens(s[1..], c)
    else
      var k := RunLength(s, c);
      [s[..k]] + Tokens(s[k..], c)
  }

  /** The length of the leading run of characters other than `c`. */
  function RunLength(s: string, c: char): (k: nat)
    ensures k <= |s| && (k < |s| ==> s[k] == c)
    ensures forall j | 0 <= j < k :: s[j] != c
  {
    if |s| == 0 || s[0] == c then 0 else 1 + RunLength(s[1..], c)
  }

  /** Every piece between consecutive `c`s, empty ones included: the split a
      regular expression for the single literal character `c` performs before
      Java drops trailing empty pieces. */
  function SplitAll(s: string, c: char): (r: seq<string>)
    ensures |r| > 0
    ensures forall i | 0 <= i < |r| :: c !in r[i]
    decreases |s|
  {
    var k := RunLength(s, c);
    if k == |s| then [s] else [s[..k]] + SplitAll(s[k + 1..], c)
  }

  /** Joining the pieces with `c` gives the string back. */
  lemma {:induction false} SplitAllJoin(s: string, c: char)
    ensures Join(SplitAll(s, c), [c]) == s
    decreases |s|
  {
    var k := RunLength(s, c);
    if k < |s| {
      var rest := SplitAll(s[k + 1..], c);
      SplitAllJoin(s[k + 1..], c);
      assert SplitAll(s, c) == [s[..k]] + rest;
      assert s == s[..k] + [c] + s[k + 1..];
    }
  }

  /** Splitting a join of `c`-free pieces gives the pieces back. */
  lemma {:induction false} JoinSplitAll(parts: seq<string>, c: char)
    requires |parts| > 0
    requires forall i | 0 <= i < |parts| :: c !in parts[i]
    ensures SplitAll(Join(parts, [c]), c) == parts
    decreases |parts|
  {
    var s := Join(parts, [c]);
    if |parts| == 1 {
      RunOfFree(parts[0], [], c);
      assert parts[0] + [] == parts[0];
    } else {
      var tail := Join(parts[1..], [c]);
      assert s == parts[0] + ([c] + tail);
      RunOfFree(parts[0], [c] + tail, c);
      assert s[..|parts[0]|] == parts[0];
      assert s[|parts[0]| + 1..] == tail;
      JoinSplitAll(parts[1..], c);
      assert parts == [parts[0]] + parts[1..];
    }
  }

  /** The leading run of a `c`-free prefix followed by `c` (or nothing) is that
      prefix. */
  lemma {:induction false} RunOfFree(a: string, b: string, c: char)
    requires c !in a && (|b| > 0 ==> b[0] == c)
    ensures RunLength(a + b, c) == |a|
    decreases |a|
  {
    if |a| > 0 {
      assert (a + b)[1..] == a[1..] + b;
      RunOfFree(a[1..], b, c);
    }
  }

  /** The pieces without the trailing empty ones. */
  function DropTrailingEmpty(parts: seq<string>): (r: seq<string>)
    ensures |r| <= |parts| && r == parts[..|r|]
    ensures |r| > 0 ==> r[|r| - 1] != ""
    ensures forall i | |r| <= i < |parts| :: parts[i] == ""
  {
    if |parts| == 0 then []
    else if parts[|parts| - 1] == "" then DropTrailingEmpty(parts[..|parts| - 1])
    else parts
  }

  /** String.split(regex, 0) for a regex matching exactly the character `c`:
      the whole string when `c` does not occur, else the pieces without the
      trailing empty ones (so a string of separators only gives none). */
  function JavaSplit(s: string, c: char): (r: seq<string>)
    ensures c !in s ==> r == [s]
    ensures forall i | 0 <= i < |r| :: c !in r[i]
  {
    if c !in s then [s] else DropTrailingEmpty(SplitAll(s, c))
  }

  /** A non-empty string without the separator is one token. */
  lemma TokensOfRun(s: string, c: char)
    requires |s| > 0 && c !in s
    ensures Tokens(s, c) == [s]
  {
    var k := RunLength(s, c);
    assert k == |s|;
    assert s[..k] == s;
  }

  predicate IsTerminator(ch: char) {
    ch == '\n' || ch == '\r'
  }

  predicate NoTerminator(s: string) {
    forall i | 0 <= i < |s| :: !IsTerminator(s[i])
  }

  /** The index of the first line terminator, or |s| when there is none. */
  function FirstTerminator(s: string): (k: nat)
    ensures k <= |s| && (k < |s| ==> IsTerminator(s[k]))
    ensures forall j | 0 <= j < k :: !IsTerminator(s[j])
  {
    if |s| == 0 || IsTerminator(s[0]) then 0 else 1 + FirstTerminator(s[1..])
  }

  /** String.lines(): split at "\n", "\r" and "\r\n"; a final terminator does
      not open an empty last line. */
  function JavaLines(s: string): (r: seq<string>)
    ensures forall i | 0 <= i < |r| :: NoTerminator(r[i])
    decreases |s|
  {
    if |s| == 0 then []
    else
      var k := FirstTerminator(s);
      if k == |s| then [s]
      else
        var next := if s[k] == '\r' && k + 1 < |s| && s[k + 1] == '\n' then k + 2 else k + 1;
        [s[..k]] + JavaLines(s[next..])
  }

  /** A string holding neither '\n' nor '\r' holds no terminator. */
  lemma NoTerminatorByMembership(s: string)
    requires '\n' !in s && '\r' !in s
    ensures NoTerminator(s)
  {
  }

  /** Concatenating terminator-free strings adds no terminator. */
  lemma NoTerminatorConcat(a: string, b: string)
    requires NoTerminator(a) && NoTerminator(b)
    ensures NoTerminator(a + b)
  {
    forall i | 0 <= i < |a + b| ensures !IsTerminator((a + b)[i]) {
      if i >= |a| {
        assert (a + b)[i] == b[i - |a|];
      }
    }
  }

  /** A non-empty string without terminators is one line. */
  lemma LinesOfOne(a: string)
    requires |a| > 0 && NoTerminator(a)
    ensures JavaLines(a) == [a]
  {
    assert FirstTerminator(a) == |a|;
  }

  /** A terminator-free prefix followed by "\n" becomes the first line. */
  lemma LinesCons(a: string, b: string)
    requires NoTerminator(a)
    ensures JavaLines(a + LINE_SEPARATOR + b) == [a] + JavaLines(b)
  {
    var s := a + LINE_SEPARATOR + b;
    var k := FirstTerminator(s);
    assert IsTerminator(s[|a|]);
    assert forall j | 0 <= j < |a| :: s[j] == a[j];
    assert k == |a|;
    assert s[..k] == a;
    assert s[k + 1..] == b;
  }

  // ---------------------------------------------------------------------------
  // Ordering (String.compareTo, the order of a TreeSet<String>)
  // ---------------------------------------------------------------------------

  /** Lexicographic order on characters; a proper prefix comes first. */
  predicate LexLess(a: string, b: string)
    decreases |a|
  {
    if |a| == 0 then |b| > 0
    else if |b| == 0 then false
    else if a[0] != b[0] then a[0] < b[0]
    else LexLess(a[1..], b[1..])
  }

  lemma {:induction false} LexIrreflexive(a: string)
    ensures !LexLess(a, a)
    decreases |a|
  {
    if |a| > 0 {
      LexIrreflexive(a[1..]);
    }
  }

  lemma {:induction false} LexTransitive(a: string, b: string, c: string)
    requires LexLess(a, b) && LexLess(b, c)
    ensures LexLess(a, c)
    decreases |a|
  {
    if |a| > 0 && |b| > 0 && |c| > 0 && a[0] == b[0] && b[0] == c[0] {
      LexTransitive(a[1..], b[1..], c[1..]);
    }
  }

  lemma {:induction false} LexTotal(a: string, b: string)
    requires a != b
    ensures LexLess(a, b) || LexLess(b, a)
    decreases |a|
  {
    if |a| > 0 && |b| > 0 && a[0] == b[0] {
      assert a == [a[0]] + a[1..] && b == [b[0]] + b[1..];
      LexTotal(a[1..], b[1..]);
    }
  }

  lemma {:induction false} LexAsymmetric(a: string, b: string)
    requires LexLess(a, b)
    ensures !LexLess(b, a)
    decreases |a|
  {
    if |a| > 0 && |b| > 0 && a[0] == b[0] {
      LexAsymmetric(a[1..], b[1..]);
    }
  }

  // ---------------------------------------------------------------------------
  // Numbers (the string form of an integral java.lang.Number)
  // ---------------------------------------------------------------------------

  function DigitChar(d: nat): char
    requires d < 10
  {
    "0123456789"[d]
  }

  /** Integer.toString / Long.toString: decimal digits, "-" for negatives. */
  function NatToString(n: nat): string
    decreases n
  {
    if n < 10 then [DigitChar(n)] else NatToString(n / 10) + [DigitChar(n % 10)]
  }

  function IntToString(n: int): string {
    if n < 0 then "-" + NatToString(-n) else NatToString(n)
  }

  /** Reads decimal digits back; the inverse used to state that the number
      text loses nothing. */
  function ParseDigits(s: string): int
    decreases |s|
  {
    if |s| == 0 then 0 else ParseDigits(s[..|s| - 1]) * 10 + (s[|s| - 1] as int - '0' as int)
  }

  lemma {:induction false} ParseNatToString(n: nat)
    ensures ParseDigits(NatToString(n)) == n
    decreases n
  {
    if n >= 10 {
      var s := NatToString(n);
      assert s[..|s| - 1] == NatToString(n / 10);
      ParseNatToString(n / 10);
    }
  }

  lemma IntToStringRoundTrip(n: int)
    ensures n >= 0 ==> ParseDigits(IntToString(n)) == n
    ensures n < 0 ==> IntToString(n)[0] == '-' && ParseDigits(IntToString(n)[1..]) == -n
  {
    ParseNatToString(if n < 0 then -n else n);
    if n < 0 {
      assert IntToString(n)[1..] == NatToString(-n);
    }
  }
}
