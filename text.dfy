/**
 * The JavaScript string operations the core relies on: `trim`, `toLowerCase`,
 * `split(',')`, `join(',')`, and a case-insensitive substring test.
 */
module Text {

  /** ECMAScript WhiteSpace and LineTerminator code points, the set `String.prototype.trim` strips. */
  predicate IsSpace(c: char)
  {
    c == '\t' || c == '\n' || c == '\U{B}' || c == '\U{C}' || c == '\r' || c == ' '
    || c == '\U{A0}' || c == '\U{1680}' || ('\U{2000}' <= c <= '\U{200A}')
    || c == '\U{2028}' || c == '\U{2029}' || c == '\U{202F}' || c == '\U{205F}'
    || c == '\U{3000}' || c == '\U{FEFF}'
  }

  /** No whitespace at either end. */
  predicate IsTrimmed(s: string)
  {
    s == [] || (!IsSpace(s[0]) && !IsSpace(s[|s| - 1]))
  }

  function TrimStart(s: string): (r: string)
    ensures |r| <= |s| && r == s[|s| - |r|..]
    ensures r == [] || !IsSpace(r[0])
    ensures forall k :: 0 <= k < |s| - |r| ==> IsSpace(s[k])
  {
    if |s| > 0 && IsSpace(s[0]) then TrimStart(s[1..]) else s
  }

  function TrimEnd(s: string): (r: string)
    ensures |r| <= |s| && r == s[..|r|]
    ensures r == [] || !IsSpace(r[|r| - 1])
    ensures forall k :: |r| <= k < |s| ==> IsSpace(s[k])
  {
    if |s| > 0 && IsSpace(s[|s| - 1]) then TrimEnd(s[..|s| - 1]) else s
  }

  /** `String.prototype.trim`: the input with the whitespace at both ends removed. */
  function Trim(s: string): (r: string)
    ensures IsTrimmed(r)
    ensures exists a :: TrimmedFrom(s, r, a)
  {
    var t := TrimStart(s);
    var r := TrimEnd(t);
    var a := |s| - |t|;
    assert TrimmedFrom(s, r, a);
    r
  }

  /** `r` is the run of `s` starting at `a`, and everything around it is whitespace. */
  predicate TrimmedFrom(s: string, r: string, a: int)
  {
    && 0 <= a <= |s| - |r| && r == s[a..a + |r|]
    && (forall k :: 0 <= k < a ==> IsSpace(s[k]))
    && (forall k :: a + |r| <= k < |s| ==> IsSpace(s[k]))
  }

  lemma {:induction false} TrimOfTrimmed(s: string)
    requires IsTrimmed(s)
    ensures Trim(s) == s
  {
    assert TrimStart(s) == s;
    assert TrimEnd(s) == s;
  }

  /** Only an all-whitespace string trims to the empty string. */
  lemma TrimEmptyIffAllSpace(s: string)
    ensures Trim(s) == [] <==> forall k :: 0 <= k < |s| ==> IsSpace(s[k])
  {
    if Trim(s) != [] {
      var r := Trim(s);
      var a :| TrimmedFrom(s, r, a);
      assert s[a] == r[0];
    }
  }

  /** Trimming never introduces a character. */
  lemma TrimKeepsAbsent(x: string, c: char)
    requires c !in x
    ensures c !in Trim(x)
  {
    var t := Trim(x);
    var a :| TrimmedFrom(x, t, a);
    forall j | 0 <= j < |t| ensures t[j] != c {
      assert t[j] == x[a + j];
    }
  }

  /** `toLowerCase` on one character, for the ASCII letters. */
  function LowerChar(c: char): char
  {
    if 'A' <= c <= 'Z' then (c as int + 32) as char else c
  }

  predicate HasNoUpper(s: string)
  {
    forall k :: 0 <= k < |s| ==> !('A' <= s[k] <= 'Z')
  }

  function ToLower(s: string): (r: string)
    ensures |r| == |s|
    ensures HasNoUpper(r)
  {
    seq(|s|, k requires 0 <= k < |s| => LowerChar(s[k]))
  }

  lemma ToLowerOfLower(s: string)
    requires HasNoUpper(s)
    ensures ToLower(s) == s
  {
  }

  /** Lower-casing never introduces a character other than a lower-case letter. */
  lemma ToLowerKeepsAbsent(s: string, c: char)
    requires c !in s && !('a' <= c <= 'z')
    ensures c !in ToLower(s)
  {
    var l := ToLower(s);
    forall k | 0 <= k < |l| ensures l[k] != c {
      assert l[k] == LowerChar(s[k]);
    }
  }

  /** Lower-casing never changes whether a character is whitespace, so it keeps a trimmed string trimmed. */
  lemma ToLowerKeepsTrimmed(s: string)
    requires IsTrimmed(s)
    ensures IsTrimmed(ToLower(s))
  {
  }

  /** Index of the first `sep` in `s`, or `|s|` when there is none. */
  function IndexOf(s: string, sep: char): (i: nat)
    ensures i <= |s|
    ensures i < |s| ==> s[i] == sep
    ensures forall k :: 0 <= k < i ==> s[k] != sep
  {
    if s == [] then 0
    else if s[0] == sep then 0
    else 1 + IndexOf(s[1..], sep)
  }

  /** `Array.prototype.join(sep)`. */
  function Join(parts: seq<string>, sep: char): string
  {
    if parts == [] then []
    else if |parts| == 1 then parts[0]
    else parts[0] + [sep] + Join(parts[1..], sep)
  }

  /** `String.prototype.split(sep)` for a one-character separator. */
  function Split(s: string, sep: char): (r: seq<string>)
    ensures |r| >= 1
    ensures forall p :: p in r ==> sep !in p
    ensures Join(r, sep) == s
    decreases |s|
  {
    var i := IndexOf(s, sep);
    if i == |s| then [s]
    else
      var rest := Split(s[i + 1..], sep);
      assert s == s[..i] + [sep] + s[i + 1..];
      [s[..i]] + rest
  }

  /** Splitting a joined list gives the list back, when no part contains the separator. */
  lemma {:induction false} SplitJoin(parts: seq<string>, sep: char)
    requires |parts| >= 1
    requires forall p :: p in parts ==> sep !in p
    ensures Split(Join(parts, sep), sep) == parts
  {
    assert parts[0] in parts;
    if |parts| == 1 {
      assert IndexOf(parts[0], sep) == |parts[0]|;
    } else {
      var j := Join(parts, sep);
      var head := parts[0];
      assert j == head + [sep] + Join(parts[1..], sep);
      assert IndexOf(j, sep) == |head| by {
        assert forall k :: 0 <= k < |head| ==> j[k] == head[k];
        assert j[|head|] == sep;
        IndexOfFirst(j, sep, |head|);
      }
      assert j[|head| + 1..] == Join(parts[1..], sep);
      assert j[..|head|] == head;
      SplitJoin(parts[1..], sep);
    }
  }

  lemma IndexOfFirst(s: string, sep: char, i: nat)
    requires i < |s| && s[i] == sep
    requires forall k :: 0 <= k < i ==> s[k] != sep
    ensures IndexOf(s, sep) == i
  {
  }

  /** Number of times `c` occurs in `s`. */
  function Occurrences(s: string, c: char): nat
  {
    if s == [] then 0 else (if s[0] == c then 1 else 0) + Occurrences(s[1..], c)
  }

  lemma {:induction false} OccurrencesAppend(a: string, b: string, c: char)
    ensures Occurrences(a + b, c) == Occurrences(a, c) + Occurrences(b, c)
  {
    if a == [] {
      assert a + b == b;
    } else {
      assert (a + b)[1..] == a[1..] + b;
      OccurrencesAppend(a[1..], b, c);
    }
  }

  lemma {:induction false} OccurrencesAbsent(s: string, c: char)
    requires c !in s
    ensures Occurrences(s, c) == 0
  {
    if s != [] {
      OccurrencesAbsent(s[1..], c);
    }
  }

  /** `split` yields one more piece than there are separators. */
  lemma {:induction false} SplitCount(s: string, sep: char)
    ensures |Split(s, sep)| == Occurrences(s, sep) + 1
    decreases |s|
  {
    var i := IndexOf(s, sep);
    if i == |s| {
      OccurrencesAbsent(s, sep);
    } else {
      assert s == s[..i] + ([sep] + s[i + 1..]);
      OccurrencesAppend(s[..i], [sep] + s[i + 1..], sep);
      OccurrencesAbsent(s[..i], sep);
      OccurrencesAppend([sep], s[i + 1..], sep);
      assert Occurrences([sep], sep) == 1;
      SplitCount(s[i + 1..], sep);
    }
  }

  /** `term` occurs as a contiguous run inside `text`. */
  predicate Contains(text: string, term: string)
  {
    exists i | 0 <= i <= |text| - |term| :: OccursAt(text, term, i)
  }

  predicate OccursAt(text: string, term: string, i: int)
  {
    0 <= i <= |text| - |term| && text[i..i + |term|] == term
  }

  /** A case-insensitive `$regex` match of a plain term (no metacharacters). */
  predicate ContainsIgnoringCase(text: string, term: string)
  {
    Contains(ToLower(text), ToLower(term))
  }

  lemma ContainsItself(s: string)
    ensures ContainsIgnoringCase(s, s)
  {
    var l := ToLower(s);
    assert OccursAt(l, l, 0);
  }

  /** Two search terms that agree after lower-casing select the same texts. */
  lemma ContainsIgnoringCaseOfTerm(text: string, t1: string, t2: string)
    requires ToLower(t1) == ToLower(t2)
    ensures ContainsIgnoringCase(text, t1) == ContainsIgnoringCase(text, t2)
  {
  }
}
