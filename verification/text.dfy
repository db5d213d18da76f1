/**
 * Character and string primitives the backend and frontend rely on: Python's
 * `lower`, `isupper`, `in` and `count`, and JavaScript's `split`, `trim`.
 * Case mapping is modelled on ASCII letters; other scripts are left as they are.
 */
module Text {

  predicate IsUpperLetter(c: char) { 'A' <= c <= 'Z' }

  predicate IsLowerLetter(c: char) { 'a' <= c <= 'z' }

  predicate IsDigit(c: char) { '0' <= c <= '9' }

  function LowerChar(c: char): (r: char)
    ensures IsUpperLetter(c) ==> IsLowerLetter(r) && r as int == c as int + 32
    ensures !IsUpperLetter(c) ==> r == c
    ensures !IsUpperLetter(r)
  {
    if IsUpperLetter(c) then (c as int + 32) as char else c
  }

  /** Python `str.lower()`. */
  function Lower(s: string): (r: string)
    ensures |r| == |s|
    ensures forall i :: 0 <= i < |s| ==> r[i] == LowerChar(s[i])
  {
    seq(|s|, i requires 0 <= i < |s| => LowerChar(s[i]))
  }

  /** Lower-casing twice is lower-casing once. */
  lemma LowerIdempotent(s: string)
    ensures Lower(Lower(s)) == Lower(s)
  {
  }

  /** Python `str.isupper()`: at least one cased character and no lower-case one. */
  predicate IsUpperCase(s: string) {
    (exists i :: 0 <= i < |s| && IsUpperLetter(s[i]))
    && (forall i :: 0 <= i < |s| ==> !IsLowerLetter(s[i]))
  }

  /** `sub` occurs in `s` starting at index `i`. */
  predicate MatchesAt(s: string, sub: string, i: int) {
    0 <= i <= |s| - |sub| && s[i..i + |sub|] == sub
  }

  /** Python `sub in s`. */
  predicate Contains(s: string, sub: string) {
    exists i | 0 <= i <= |s| :: MatchesAt(s, sub, i)
  }

  /** Python `s.count(sub)` for a non-empty `sub`: non-overlapping matches, scanned left to right. */
  function CountOccurrences(s: string, sub: string): (r: nat)
    requires |sub| > 0
    ensures r > 0 ==> Contains(s, sub)
    decreases |s|
  {
    if |s| < |sub| then 0
    else if s[..|sub|] == sub then
      assert MatchesAt(s, sub, 0);
      1 + CountOccurrences(s[|sub|..], sub)
    else
      var rest := CountOccurrences(s[1..], sub);
      assert rest > 0 ==> Contains(s, sub) by {
        if rest > 0 {
          var i :| 0 <= i <= |s[1..]| && MatchesAt(s[1..], sub, i);
          assert 0 <= i <= |s| - 1 - |sub| && s[1..][i..i + |sub|] == sub;
          assert s[1..][i..i + |sub|] == s[i + 1..i + 1 + |sub|];
          assert MatchesAt(s, sub, i + 1);
        }
      }
      rest
  }

  /** JavaScript WhiteSpace and LineTerminator code points, the set `String.prototype.trim` strips. */
  predicate IsSpace(c: char) {
    c == '\t' || c == '\n' || c == '\U{B}' || c == '\U{C}' || c == '\r' || c == ' '
    || c == '\U{A0}' || c == '\U{1680}' || ('\U{2000}' <= c <= '\U{200A}')
    || c == '\U{2028}' || c == '\U{2029}' || c == '\U{202F}' || c == '\U{205F}'
    || c == '\U{3000}' || c == '\U{FEFF}'
  }

  function TrimStart(s: string): (r: string)
    ensures |r| <= |s| && r == s[|s| - |r|..]
    ensures r == [] || !IsSpace(r[0])
    ensures forall i :: 0 <= i < |s| - |r| ==> IsSpace(s[i])
  {
    if |s| > 0 && IsSpace(s[0]) then TrimStart(s[1..]) else s
  }

  function TrimEnd(s: string): (r: string)
    ensures |r| <= |s| && r == s[..|r|]
    ensures r == [] || !IsSpace(r[|r| - 1])
    ensures forall i :: |r| <= i < |s| ==> IsSpace(s[i])
  {
    if |s| > 0 && IsSpace(s[|s| - 1]) then TrimEnd(s[..|s| - 1]) else s
  }

  /** `r` is `s` from index `i` on with only blanks cut at either end. */
  predicate StrippedFrom(s: string, r: string, i: int) {
    && 0 <= i <= |s| - |r|
    && r == s[i..i + |r|]
    && (forall k :: 0 <= k < i ==> IsSpace(s[k]))
    && (forall k :: i + |r| <= k < |s| ==> IsSpace(s[k]))
  }

  /** `r` is `s` with some leading and some trailing blanks cut, and nothing else. */
  predicate BlanksCutFrom(s: string, r: string) {
    exists i | 0 <= i <= |s| :: StrippedFrom(s, r, i)
  }

  /**
   * JavaScript `s.trim()`: only blanks are cut, and at both ends the cut goes
   * up to the first character that is not one.
   */
  function Trim(s: string): (r: string)
    ensures BlanksCutFrom(s, r)
    ensures r == [] || (!IsSpace(r[0]) && !IsSpace(r[|r| - 1]))
    ensures Contains(s, r)
    ensures forall c :: c in r ==> c in s
    ensures s == [] || (!IsSpace(s[0]) && !IsSpace(s[|s| - 1])) ==> r == s
  {
    TrimMaximal(s);
    var t := TrimStart(s);
    var u := TrimEnd(t);
    TrimInside(s, t, u);
    TrimKeepsClean(s);
    u
  }

  /** The blanks cut from the front, then from the back, are exactly those around the result. */
  lemma TrimMaximal(s: string)
    ensures BlanksCutFrom(s, TrimEnd(TrimStart(s)))
  {
    var t := TrimStart(s);
    TrimStripsBlanks(s, t, TrimEnd(t));
  }

  /** Stripping a suffix of a suffix leaves an infix. */
  lemma TrimInside(s: string, t: string, u: string)
    requires |t| <= |s| && t == s[|s| - |t|..]
    requires |u| <= |t| && u == t[..|u|]
    ensures Contains(s, u)
    ensures forall c :: c in u ==> c in s
  {
    var k := |s| - |t|;
    assert s[k..k + |u|] == u;
    assert MatchesAt(s, u, k);
    forall c | c in u
      ensures c in s
    {
      var i :| 0 <= i < |u| && u[i] == c;
      assert s[k + i] == c;
    }
  }

  /** Blanks cut from the front and then from the back leave an infix with blanks only around it. */
  lemma TrimStripsBlanks(s: string, t: string, u: string)
    requires |t| <= |s| && t == s[|s| - |t|..]
    requires forall k :: 0 <= k < |s| - |t| ==> IsSpace(s[k])
    requires |u| <= |t| && u == t[..|u|]
    requires forall k :: |u| <= k < |t| ==> IsSpace(t[k])
    ensures StrippedFrom(s, u, |s| - |t|)
  {
    var i := |s| - |t|;
    assert s[i..i + |u|] == u;
    forall k | i + |u| <= k < |s|
      ensures IsSpace(s[k])
    {
      assert s[k] == t[k - i];
    }
  }

  /** Text with no blank at either end is left as it is. */
  lemma TrimKeepsClean(s: string)
    ensures s == [] || (!IsSpace(s[0]) && !IsSpace(s[|s| - 1])) ==> TrimEnd(TrimStart(s)) == s
  {
    if s != [] && !IsSpace(s[0]) && !IsSpace(s[|s| - 1]) {
      assert TrimStart(s) == s;
    }
  }

  /** Number of occurrences of a single character. */
  function CountChar(s: string, c: char): (r: nat)
    ensures r <= |s|
  {
    if s == [] then 0 else (if s[0] == c then 1 else 0) + CountChar(s[1..], c)
  }

  /** Index of the first occurrence of `c`, which must be present. */
  function IndexOf(s: string, c: char): (r: nat)
    requires c in s
    ensures r < |s| && s[r] == c && c !in s[..r]
  {
    if s[0] == c then 0 else 1 + IndexOf(s[1..], c)
  }

  /** JavaScript `s.split(sep)` for a one-character separator. */
  function Split(s: string, sep: char): (r: seq<string>)
    ensures |r| > 0
    ensures forall k :: 0 <= k < |r| ==> sep !in r[k]
    decreases |s|
  {
    if sep !in s then [s]
    else
      var i := IndexOf(s, sep);
      [s[..i]] + Split(s[i + 1..], sep)
  }

  /** JavaScript `pieces.join(sep)`, the inverse of `Split`. */
  function Join(pieces: seq<string>, sep: char): string
    requires |pieces| > 0
  {
    if |pieces| == 1 then pieces[0] else pieces[0] + [sep] + Join(pieces[1..], sep)
  }

  lemma CountCharAppend(a: string, b: string, c: char)
    ensures CountChar(a + b, c) == CountChar(a, c) + CountChar(b, c)
  {
    if a == [] {
      assert a + b == b;
    } else {
      assert (a + b)[1..] == a[1..] + b;
      CountCharAppend(a[1..], b, c);
    }
  }

  lemma NotInCountZero(s: string, c: char)
    requires c !in s
    ensures CountChar(s, c) == 0
  {
    if s != [] {
      assert c !in s[1..];
      NotInCountZero(s[1..], c);
    }
  }

  /** Splitting yields one more piece than there are separators. */
  lemma {:induction false} SplitCount(s: string, sep: char)
    ensures |Split(s, sep)| == CountChar(s, sep) + 1
    decreases |s|
  {
    if sep !in s {
      NotInCountZero(s, sep);
    } else {
      var i := IndexOf(s, sep);
      assert s == s[..i] + [sep] + s[i + 1..];
      CountCharAppend(s[..i] + [sep], s[i + 1..], sep);
      CountCharAppend(s[..i], [sep], sep);
      NotInCountZero(s[..i], sep);
      SplitCount(s[i + 1..], sep);
    }
  }

  /** Joining the pieces of a split with the same separator gives back the input. */
  lemma {:induction false} JoinSplit(s: string, sep: char)
    ensures Join(Split(s, sep), sep) == s
    decreases |s|
  {
    if sep in s {
      var i := IndexOf(s, sep);
      var rest := Split(s[i + 1..], sep);
      assert Split(s, sep) == [s[..i]] + rest;
      assert ([s[..i]] + rest)[1..] == rest;
      JoinSplit(s[i + 1..], sep);
      assert s == s[..i] + [sep] + s[i + 1..];
    }
  }

  /** The first occurrence is the one with no earlier occurrence. */
  lemma IndexOfUnique(s: string, c: char, j: nat)
    requires j < |s| && s[j] == c && c !in s[..j]
    ensures IndexOf(s, c) == j
  {
  }

  /** Splitting at the first separator: the piece before it, then the split of the rest. */
  lemma SplitAt(s: string, sep: char, i: nat)
    requires i < |s| && s[i] == sep && sep !in s[..i]
    ensures Split(s, sep) == [s[..i]] + Split(s[i + 1..], sep)
  {
    assert sep in s;
    IndexOfUnique(s, sep, i);
  }

  /** Splitting `a + sep + b` splits `a` and `b` separately. */
  lemma {:induction false} SplitAppend(a: string, b: string, sep: char)
    ensures Split(a + [sep] + b, sep) == Split(a, sep) + Split(b, sep)
    decreases |a|
  {
    if sep !in a {
      SplitAppendFirst(a, b, sep);
    } else {
      var i := IndexOf(a, sep);
      var rest := a[i + 1..];
      SplitAppendStep(a, b, sep, i);
      SplitAppend(rest, b, sep);
      Associative([a[..i]], Split(rest, sep), Split(b, sep));
    }
  }

  // Two sequence identities stated over an abstract element type, so that
  // proofs about lists of strings need not look inside the strings.
  lemma Associative<T>(p: seq<T>, q: seq<T>, r: seq<T>)
    ensures p + (q + r) == (p + q) + r
  {
  }

  lemma HeadTail<T>(s: seq<T>)
    requires |s| > 0
    ensures [s[0]] + s[1..] == s
  {
  }

  lemma SplitAppendFirst(a: string, b: string, sep: char)
    requires sep !in a
    ensures Split(a + [sep] + b, sep) == Split(a, sep) + Split(b, sep)
  {
    var s := a + [sep] + b;
    assert s[..|a|] == a;
    assert s[|a| + 1..] == b;
    SplitAt(s, sep, |a|);
  }

  lemma SplitAppendStep(a: string, b: string, sep: char, i: nat)
    requires i < |a| && a[i] == sep && sep !in a[..i]
    ensures Split(a + [sep] + b, sep) == [a[..i]] + Split(a[i + 1..] + [sep] + b, sep)
    ensures Split(a, sep) == [a[..i]] + Split(a[i + 1..], sep)
  {
    var s := a + [sep] + b;
    assert s[..i] == a[..i];
    assert s[i + 1..] == a[i + 1..] + [sep] + b;
    SplitAt(s, sep, i);
    SplitAt(a, sep, i);
  }

  /** Splitting a join whose pieces avoid the separator gives back the pieces. */
  lemma {:induction false} SplitJoin(pieces: seq<string>, sep: char)
    requires |pieces| > 0
    requires forall k :: 0 <= k < |pieces| ==> sep !in pieces[k]
    ensures Split(Join(pieces, sep), sep) == pieces
    decreases |pieces|
  {
    if |pieces| == 1 {
      assert Join(pieces, sep) == pieces[0];
      assert Split(pieces[0], sep) == [pieces[0]];
    } else {
      var tail := pieces[1..];
      assert forall k :: 0 <= k < |tail| ==> sep !in tail[k] by {
        forall k | 0 <= k < |tail|
          ensures sep !in tail[k]
        {
          assert tail[k] == pieces[k + 1];
        }
      }
      SplitJoin(tail, sep);
      assert Join(pieces, sep) == pieces[0] + [sep] + Join(tail, sep);
      SplitAppend(pieces[0], Join(tail, sep), sep);
      assert Split(pieces[0], sep) == [pieces[0]];
      HeadTail(pieces);
    }
  }
}
