/** JavaScript string primitives the application relies on, stated over
    `string` (= seq<char>).  Case mapping is the ASCII part of
    `toUpperCase`/`toLowerCase`; `\s` and `trim()` use the exact ECMAScript
    WhiteSpace + LineTerminator set. */
module Js {

  datatype Option<+T> = None | Some(value: T)

  /** JavaScript truthiness of an optional string: absent (undefined/null) and
      "" are both falsy. */
  predicate Truthy(x: Option<string>)
  {
    x.Some? && x.value != ""
  }

  /** `x || d` for an optional string. */
  function Or(x: Option<string>, d: string): string
  {
    if Truthy(x) then x.value else d
  }

  // ---------------------------------------------------------------- characters

  /** ECMAScript WhiteSpace and LineTerminator: what `\s` matches and what
      `trim()` strips. */
  predicate IsSpace(c: char)
  {
    var n := c as int;
    n == 0x09 || n == 0x0A || n == 0x0B || n == 0x0C || n == 0x0D || n == 0x20
    || n == 0xA0 || n == 0x1680 || (0x2000 <= n <= 0x200A)
    || n == 0x2028 || n == 0x2029 || n == 0x202F || n == 0x205F
    || n == 0x3000 || n == 0xFEFF
  }

  /** LineTerminator: the characters a regex `.` does not match. */
  predicate IsLineTerminator(c: char)
  {
    c == '\n' || c == '\r' || c as int == 0x2028 || c as int == 0x2029
  }

  predicate IsUpperAscii(c: char) { 'A' <= c <= 'Z' }
  predicate IsLowerAscii(c: char) { 'a' <= c <= 'z' }
  predicate IsLetterAscii(c: char) { IsUpperAscii(c) || IsLowerAscii(c) }
  predicate IsDigitAscii(c: char) { '0' <= c <= '9' }

  /** Regex `\w`. */
  predicate IsWordChar(c: char)
  {
    IsLetterAscii(c) || IsDigitAscii(c) || c == '_'
  }

  function UpperChar(c: char): (u: char)
    ensures !IsLowerAscii(u)
    ensures IsLowerAscii(c) || u == c
  {
    if IsLowerAscii(c) then (c as int - 32) as char else c
  }

  function LowerChar(c: char): (l: char)
    ensures !IsUpperAscii(l)
    ensures IsUpperAscii(c) || l == c
  {
    if IsUpperAscii(c) then (c as int + 32) as char else c
  }

  // ------------------------------------------------------------------ case

  function Upper(s: string): (u: string)
    ensures |u| == |s|
    ensures forall i :: 0 <= i < |s| ==> u[i] == UpperChar(s[i])
  {
    seq(|s|, i requires 0 <= i < |s| => UpperChar(s[i]))
  }

  function Lower(s: string): (l: string)
    ensures |l| == |s|
    ensures forall i :: 0 <= i < |s| ==> l[i] == LowerChar(s[i])
  {
    seq(|s|, i requires 0 <= i < |s| => LowerChar(s[i]))
  }

  lemma LowerIdempotent(s: string)
    ensures Lower(Lower(s)) == Lower(s)
  {
    assert forall i :: 0 <= i < |s| ==> LowerChar(LowerChar(s[i])) == LowerChar(s[i]);
  }

  /** Lower-casing distributes over concatenation. */
  lemma LowerAppend(a: string, b: string)
    ensures Lower(a + b) == Lower(a) + Lower(b)
  {
  }

  // --------------------------------------------------------------- searching

  /** Index of the first `c` in `s`, or |s| when there is none. */
  function FirstIndex(s: string, c: char): (k: nat)
    ensures k <= |s|
    ensures k < |s| ==> s[k] == c
    ensures forall j :: 0 <= j < k ==> s[j] != c
  {
    if s == [] then 0
    else if s[0] == c then 0
    else 1 + FirstIndex(s[1..], c)
  }

  /** Number of occurrences of `c` in `s`. */
  function Count(s: string, c: char): nat
  {
    if s == [] then 0 else (if s[0] == c then 1 else 0) + Count(s[1..], c)
  }

  lemma {:induction false} CountAppend(a: string, b: string, c: char)
    ensures Count(a + b, c) == Count(a, c) + Count(b, c)
  {
    if a == [] {
      assert a + b == b;
    } else {
      assert (a + b)[1..] == a[1..] + b;
      CountAppend(a[1..], b, c);
    }
  }

  lemma {:induction false} CountZero(s: string, c: char)
    ensures Count(s, c) == 0 <==> c !in s
  {
    if s != [] {
      CountZero(s[1..], c);
      assert s == [s[0]] + s[1..];
    }
  }

  /** Two strings with `c` at the same positions hold it equally often. */
  lemma {:induction false} CountSamePositions(a: string, b: string, c: char)
    requires |a| == |b|
    requires forall i :: 0 <= i < |a| ==> (a[i] == c <==> b[i] == c)
    ensures Count(a, c) == Count(b, c)
  {
    if a != [] {
      CountSamePositions(a[1..], b[1..], c);
    }
  }

  /** `s.includes(sub)`. */
  predicate Contains(s: string, sub: string)
  {
    exists i | 0 <= i <= |s| - |sub| :: OccursAt(s, sub, i)
  }

  /** `sub` occurs in `s` starting at index `i`. */
  predicate OccursAt(s: string, sub: string, i: int)
  {
    0 <= i <= |s| - |sub| && s[i..i + |sub|] == sub
  }

  // ------------------------------------------------------------- replacing

  /** `s.replace(/a/g, b)` for single characters. */
  function ReplaceAll(s: string, a: char, b: char): (r: string)
    ensures |r| == |s|
    ensures forall i :: 0 <= i < |s| ==> r[i] == (if s[i] == a then b else s[i])
  {
    seq(|s|, i requires 0 <= i < |s| => if s[i] == a then b else s[i])
  }

  /** Replacing distributes over concatenation. */
  lemma ReplaceAllAppend(x: string, y: string, a: char, b: char)
    ensures ReplaceAll(x + y, a, b) == ReplaceAll(x, a, b) + ReplaceAll(y, a, b)
  {
  }

  /** A string without the character is left as it is. */
  lemma ReplaceAllNone(x: string, a: char, b: char)
    requires a !in x
    ensures ReplaceAll(x, a, b) == x
  {
  }

  /** `s.replace('a', 'b')`: a string pattern replaces the first match only. */
  function ReplaceFirst(s: string, a: char, b: char): (r: string)
    ensures |r| == |s|
  {
    var k := FirstIndex(s, a);
    if k == |s| then s else s[..k] + [b] + s[k + 1..]
  }

  /** Replacing the first `a` by another character removes one `a`. */
  lemma {:induction false} ReplaceFirstCount(s: string, a: char, b: char)
    requires a != b
    ensures Count(ReplaceFirst(s, a, b), a) == if a in s then Count(s, a) - 1 else 0
  {
    var k := FirstIndex(s, a);
    if k < |s| {
      var pre, rest := s[..k], s[k + 1..];
      CountZero(pre, a);
      assert s == pre + ([a] + rest);
      assert ReplaceFirst(s, a, b) == pre + ([b] + rest);
      CountAppend(pre, [a] + rest, a);
      CountAppend(pre, [b] + rest, a);
      CountCons(a, rest, a);
      CountCons(b, rest, a);
    } else {
      CountZero(s, a);
    }
  }

  lemma CountCons(x: char, rest: string, c: char)
    ensures Count([x] + rest, c) == (if x == c then 1 else 0) + Count(rest, c)
  {
    assert ([x] + rest)[1..] == rest;
  }

  /** `s.replace(/\b\w/g, l => l.toUpperCase())`: a word character that starts
      the string or follows a non-word character is upper-cased. */
  function CapitalizeWords(s: string): (r: string)
    ensures |r| == |s|
  {
    seq(|s|, i requires 0 <= i < |s| =>
      if IsWordChar(s[i]) && (i == 0 || !IsWordChar(s[i - 1])) then UpperChar(s[i]) else s[i])
  }

  /** Position `i` of `s` starts a word in the sense of `\b\w`. */
  predicate WordStart(s: string, i: int)
    requires 0 <= i < |s|
  {
    IsWordChar(s[i]) && (i == 0 || !IsWordChar(s[i - 1]))
  }

  /** What `\b\w` capitalisation does at each position: a word start is
      upper-cased (and is still a word start afterwards), every other character
      is kept, and `_` neither appears nor disappears. */
  lemma CapitalizeWordsShape(s: string)
    ensures var r := CapitalizeWords(s);
      forall i :: 0 <= i < |s| ==>
        && (WordStart(s, i) ==> r[i] == UpperChar(s[i]) && WordStart(r, i) && !IsLowerAscii(r[i]))
        && (!WordStart(s, i) ==> r[i] == s[i] && !WordStart(r, i))
        && (r[i] == '_' <==> s[i] == '_')
  {
    forall i | 0 <= i < |s|
      ensures var r := CapitalizeWords(s);
        && (WordStart(s, i) ==> r[i] == UpperChar(s[i]) && WordStart(r, i) && !IsLowerAscii(r[i]))
        && (!WordStart(s, i) ==> r[i] == s[i] && !WordStart(r, i))
        && (r[i] == '_' <==> s[i] == '_')
    {
      CapitalizeWordsAt(s, i);
    }
  }

  lemma CapitalizeWordsAt(s: string, i: int)
    requires 0 <= i < |s|
    ensures var r := CapitalizeWords(s);
      && (WordStart(s, i) ==> r[i] == UpperChar(s[i]) && WordStart(r, i) && !IsLowerAscii(r[i]))
      && (!WordStart(s, i) ==> r[i] == s[i] && !WordStart(r, i))
      && (r[i] == '_' <==> s[i] == '_')
  {
    var r := CapitalizeWords(s);
    UpperKeepsWordChar(s[i]);
    if i > 0 {
      UpperKeepsWordChar(s[i - 1]);
      assert IsWordChar(r[i - 1]) == IsWordChar(s[i - 1]);
    }
  }

  /** Capitalisation works word by word across a space. */
  lemma CapitalizeSpace(a: string, b: string)
    ensures CapitalizeWords(a + " " + b) == CapitalizeWords(a) + " " + CapitalizeWords(b)
  {
    var s := a + " " + b;
    var r := CapitalizeWords(s);
    var t := CapitalizeWords(a) + " " + CapitalizeWords(b);
    forall i | 0 <= i < |s|
      ensures r[i] == t[i]
    {
      if i < |a| {
        assert s[i] == a[i];
        if i > 0 {
          assert s[i - 1] == a[i - 1];
        }
      } else if i > |a| {
        var j := i - |a| - 1;
        assert s[i] == b[j];
        if j > 0 {
          assert s[i - 1] == b[j - 1];
        }
      }
    }
  }

  /** A single word of word characters has only its first character
      upper-cased. */
  lemma CapitalizeWord(w: string)
    requires w != [] && forall i :: 0 <= i < |w| ==> IsWordChar(w[i])
    ensures CapitalizeWords(w) == [UpperChar(w[0])] + w[1..]
  {
  }

  /** A lower-case word capitalised, stated against its expected text. */
  lemma WordCapitalised(w: string, expected: string)
    requires w != [] && forall i :: 0 <= i < |w| ==> IsWordChar(w[i])
    requires |expected| == |w| && expected[0] == UpperChar(w[0]) && expected[1..] == w[1..]
    ensures CapitalizeWords(w) == expected
  {
    CapitalizeWord(w);
    assert expected == [expected[0]] + expected[1..];
  }

  lemma UpperKeepsWordChar(c: char)
    ensures IsWordChar(UpperChar(c)) == IsWordChar(c)
    ensures UpperChar(c) == '_' <==> c == '_'
  {
  }

  // ------------------------------------------------------------------ trim

  function TrimStart(s: string): (r: string)
    ensures |r| <= |s| && r == s[|s| - |r|..]
    ensures r == [] || !IsSpace(r[0])
  {
    if s != [] && IsSpace(s[0]) then TrimStart(s[1..]) else s
  }

  /** TrimStart drops whitespace only. */
  lemma {:induction false} TrimStartSpaces(s: string)
    ensures forall i :: 0 <= i < |s| - |TrimStart(s)| ==> IsSpace(s[i])
  {
    if s != [] && IsSpace(s[0]) {
      TrimStartSpaces(s[1..]);
      forall i | 1 <= i < |s| - |TrimStart(s)|
        ensures IsSpace(s[i])
      {
        assert s[i] == s[1..][i - 1];
      }
    }
  }

  function TrimEnd(s: string): (r: string)
    ensures |r| <= |s| && r == s[..|r|]
    ensures r == [] || !IsSpace(r[|r| - 1])
  {
    if s != [] && IsSpace(s[|s| - 1]) then TrimEnd(s[..|s| - 1]) else s
  }

  /** TrimEnd drops whitespace only. */
  lemma {:induction false} TrimEndSpaces(s: string)
    ensures forall i :: |TrimEnd(s)| <= i < |s| ==> IsSpace(s[i])
  {
    if s != [] && IsSpace(s[|s| - 1]) {
      TrimEndSpaces(s[..|s| - 1]);
      forall i | |TrimEnd(s)| <= i < |s| - 1
        ensures IsSpace(s[i])
      {
        assert s[i] == s[..|s| - 1][i];
      }
    }
  }

  /** `s.trim()`. */
  function Trim(s: string): (r: string)
  {
    TrimEnd(TrimStart(s))
  }

  /** `!s.trim()`: nothing but whitespace (see BlankIffTrimEmpty). */
  predicate Blank(s: string)
  {
    forall k :: 0 <= k < |s| ==> IsSpace(s[k])
  }

  /** The trimmed string is the slice of `s` after the leading whitespace,
      with only whitespace around it and none at its own ends. */
  lemma TrimShape(s: string)
    ensures var i := |s| - |TrimStart(s)|; var r := Trim(s);
      && i + |r| <= |s| && r == s[i..i + |r|]
      && (forall k :: 0 <= k < i ==> IsSpace(s[k]))
      && (forall k :: i + |r| <= k < |s| ==> IsSpace(s[k]))
      && (r == [] || (!IsSpace(r[0]) && !IsSpace(r[|r| - 1])))
  {
    TrimSlice(s);
    TrimTail(s);
    TrimStartSpaces(s);
    if Trim(s) != [] {
      assert Trim(s)[0] == TrimStart(s)[0];
    }
  }

  lemma TrimSlice(s: string)
    ensures var i := |s| - |TrimStart(s)|; var r := Trim(s);
      i + |r| <= |s| && r == s[i..i + |r|]
  {
    var t := TrimStart(s);
    var r := TrimEnd(t);
    var i := |s| - |t|;
    assert t == s[i..];
    assert r == t[..|r|];
  }

  lemma TrimTail(s: string)
    ensures var i := |s| - |TrimStart(s)|;
      forall k :: i + |Trim(s)| <= k < |s| ==> IsSpace(s[k])
  {
    var t := TrimStart(s);
    var r := TrimEnd(t);
    var i := |s| - |t|;
    TrimEndSpaces(t);
    forall k | i + |r| <= k < |s|
      ensures IsSpace(s[k])
    {
      assert s[k] == t[k - i];
    }
  }

  /** Blank is what `!s.trim()` tests: trimming leaves the empty string. */
  lemma BlankIffTrimEmpty(s: string)
    ensures Blank(s) <==> Trim(s) == ""
  {
    TrimShape(s);
    if Blank(s) {
      assert TrimStart(s) == [];
    }
  }

  // ----------------------------------------------------------- split / join

  /** `s.split(sep)` for a one-character separator: the pieces between
      separators, including empty ones; never an empty list. */
  function Split(s: string, sep: char): (parts: seq<string>)
    ensures |parts| >= 1
    ensures forall p | p in parts :: sep !in p
    decreases |s|
  {
    var k := FirstIndex(s, sep);
    if k == |s| then [s] else [s[..k]] + Split(s[k + 1..], sep)
  }

  /** `parts.join(sep)`. */
  function Join(parts: seq<string>, sep: char): string
  {
    if parts == [] then ""
    else if |parts| == 1 then parts[0]
    else parts[0] + [sep] + Join(parts[1..], sep)
  }

  /** Joining the pieces of a split restores the string. */
  lemma {:induction false} JoinSplit(s: string, sep: char)
    ensures Join(Split(s, sep), sep) == s
    decreases |s|
  {
    var k := FirstIndex(s, sep);
    if k < |s| {
      var rest := s[k + 1..];
      assert Split(s, sep) == [s[..k]] + Split(rest, sep);
      JoinSplit(rest, sep);
      JoinCons(s[..k], Split(rest, sep), sep);
      calc {
        Join(Split(s, sep), sep);
        s[..k] + [sep] + Join(Split(rest, sep), sep);
        s[..k] + [sep] + rest;
        { assert s == s[..k] + [sep] + rest; }
        s;
      }
    }
  }

  /** Joining a list with a head puts the separator after the head. */
  lemma JoinCons(head: string, tail: seq<string>, sep: char)
    requires tail != []
    ensures Join([head] + tail, sep) == head + [sep] + Join(tail, sep)
  {
    assert ([head] + tail)[1..] == tail;
  }

  /** A split yields one more piece than there are separators. */
  lemma {:induction false} SplitCount(s: string, sep: char)
    ensures |Split(s, sep)| == Count(s, sep) + 1
    decreases |s|
  {
    var k := FirstIndex(s, sep);
    CountZero(s[..k], sep);
    if k == |s| {
      assert s[..k] == s;
    } else {
      var rest := s[k + 1..];
      SplitCount(rest, sep);
      assert s == s[..k] + ([sep] + rest);
      CountAppend(s[..k], [sep] + rest, sep);
      assert ([sep] + rest)[1..] == rest;
      assert Count([sep] + rest, sep) == 1 + Count(rest, sep);
    }
  }

  /** `s.split(sep)[0]`: the text before the first separator. */
  function BeforeFirst(s: string, sep: char): (r: string)
    ensures r == Split(s, sep)[0]
    ensures sep !in r && r <= s
  {
    s[..FirstIndex(s, sep)]
  }

  /** Splitting a string that holds no separator gives the string itself. */
  lemma SplitNone(s: string, sep: char)
    requires sep !in s
    ensures Split(s, sep) == [s]
  {
    assert FirstIndex(s, sep) == |s|;
  }

  /** Splitting after a separator-free head peels the head off. */
  lemma SplitAfter(a: string, b: string, sep: char)
    requires sep !in a
    ensures Split(a + [sep] + b, sep) == [a] + Split(b, sep)
  {
    var s := a + [sep] + b;
    assert s[|a|] == sep;
    var k := FirstIndex(s, sep);
    assert k == |a|;
    assert s[..k] == a && s[k + 1..] == b;
  }

  // ------------------------------------------------------------ substrings

  /** `s.replace(pat, '')` for a non-empty string pattern: the first
      occurrence of `pat` is removed. */
  function RemoveFirst(s: string, pat: string): (r: string)
    requires pat != []
    ensures r == s || |r| + |pat| == |s|
    decreases |s|
  {
    if |s| < |pat| then s
    else if s[..|pat|] == pat then s[|pat|..]
    else [s[0]] + RemoveFirst(s[1..], pat)
  }

  /** A leading occurrence of the pattern is the one removed. */
  lemma RemoveFirstPrefix(pat: string, t: string)
    requires pat != []
    ensures RemoveFirst(pat + t, pat) == t
  {
    assert (pat + t)[..|pat|] == pat;
    assert (pat + t)[|pat|..] == t;
  }
}
