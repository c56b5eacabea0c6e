/**
 * The Python string operations the arena relies on, restricted to ASCII: lower-casing,
 * whitespace splitting (`str.split()`), substring and prefix tests, slicing with an
 * ellipsis, single-character replacement and `str.title()`.
 */
module Text {
  /** The ASCII whitespace characters that `str.split()` separates on, the four separators 0x1C..0x1F included. */
  predicate IsSpace(c: char)
  {
    c == ' ' || c == '\t' || c == '\n' || c == '\r' || c == '\U{0B}' || c == '\U{0C}'
    || c == '\U{1C}' || c == '\U{1D}' || c == '\U{1E}' || c == '\U{1F}'
  }

  predicate IsUpper(c: char) { 'A' <= c <= 'Z' }

  predicate IsLower(c: char) { 'a' <= c <= 'z' }

  predicate IsLetter(c: char) { IsUpper(c) || IsLower(c) }

  function LowerChar(c: char): (r: char)
    ensures !IsUpper(r)
    ensures IsSpace(r) <==> IsSpace(c)
    ensures !IsUpper(c) ==> r == c
  {
    if IsUpper(c) then (c as int + 32) as char else c
  }

  function UpperChar(c: char): (r: char)
    ensures !IsLower(r)
    ensures IsLetter(r) <==> IsLetter(c)
    ensures !IsLower(c) ==> r == c
  {
    if IsLower(c) then (c as int - 32) as char else c
  }

  /** `s.lower()`. */
  function Lower(s: string): (r: string)
    ensures |r| == |s|
    ensures forall i :: 0 <= i < |s| ==> r[i] == LowerChar(s[i])
  {
    seq(|s|, i requires 0 <= i < |s| => LowerChar(s[i]))
  }

  /** `s.upper()`. */
  function Upper(s: string): (r: string)
    ensures |r| == |s|
    ensures forall i :: 0 <= i < |s| ==> r[i] == UpperChar(s[i])
  {
    seq(|s|, i requires 0 <= i < |s| => UpperChar(s[i]))
  }

  /** Lower-casing twice is lower-casing once. */
  lemma LowerIdempotent(s: string)
    ensures Lower(Lower(s)) == Lower(s)
  {
    assert forall i :: 0 <= i < |s| ==> LowerChar(LowerChar(s[i])) == LowerChar(s[i]);
  }

  // ---------------------------------------------------------------- splitting

  /** `s` without its leading whitespace. */
  function DropSpaces(s: string): (r: string)
    ensures |r| <= |s| && r == s[|s| - |r|..]
    ensures r != [] ==> !IsSpace(r[0])
    ensures forall i :: 0 <= i < |s| - |r| ==> IsSpace(s[i])
  {
    if s == [] || !IsSpace(s[0]) then s else DropSpaces(s[1..])
  }

  /** Every character of `s` is whitespace (the empty text included). */
  predicate Blank(s: string)
  {
    forall c :: c in s ==> IsSpace(c)
  }

  /** `s.strip()`: leading and trailing whitespace removed. */
  function Strip(s: string): (r: string)
    ensures |r| <= |s|
    ensures r == [] <==> Blank(s)
    ensures r != [] ==> !IsSpace(r[0]) && !IsSpace(r[|r| - 1])
    decreases |s|
  {
    if s != [] && IsSpace(s[0]) then
      assert forall c :: c in s ==> c == s[0] || c in s[1..];
      Strip(s[1..])
    else if s != [] && IsSpace(s[|s| - 1]) then
      assert forall c :: c in s ==> c == s[|s| - 1] || c in s[..|s| - 1];
      Strip(s[..|s| - 1])
    else
      assert s != [] ==> s[0] in s;
      s
  }

  /** The stripped text is the part of `s` between a blank prefix and a blank suffix. */
  lemma {:induction false} StripIsInfix(s: string) returns (i: nat, j: nat)
    ensures i <= j <= |s| && Strip(s) == s[i..j]
    ensures forall k :: 0 <= k < i ==> IsSpace(s[k])
    ensures forall k :: j <= k < |s| ==> IsSpace(s[k])
    decreases |s|
  {
    if s != [] && IsSpace(s[0]) {
      var i', j' := StripIsInfix(s[1..]);
      i, j := StripFront(s, s[1..], i', j');
    } else if s != [] && IsSpace(s[|s| - 1]) {
      i, j := StripIsInfix(s[..|s| - 1]);
      StripBack(s, s[..|s| - 1], i, j);
    } else {
      i, j := 0, |s|;
    }
  }

  /** The step of StripIsInfix that drops a leading space. */
  lemma StripFront(s: string, t: string, i': nat, j': nat) returns (i: nat, j: nat)
    requires s != [] && IsSpace(s[0]) && t == s[1..]
    requires i' <= j' <= |t| && Strip(t) == t[i'..j']
    requires forall k :: 0 <= k < i' ==> IsSpace(t[k])
    requires forall k :: j' <= k < |t| ==> IsSpace(t[k])
    ensures i == i' + 1 && j == j' + 1 && Strip(s) == s[i..j]
    ensures forall k :: 0 <= k < i ==> IsSpace(s[k])
    ensures forall k :: j <= k < |s| ==> IsSpace(s[k])
  {
    i, j := i' + 1, j' + 1;
    assert t[i'..j'] == s[i..j];
    assert forall k :: 1 <= k < |s| ==> t[k - 1] == s[k];
  }

  /** The step of StripIsInfix that drops a trailing space. */
  lemma StripBack(s: string, t: string, i: nat, j: nat)
    requires s != [] && !IsSpace(s[0]) && IsSpace(s[|s| - 1]) && t == s[..|s| - 1]
    requires i <= j <= |t| && Strip(t) == t[i..j]
    requires forall k :: 0 <= k < i ==> IsSpace(t[k])
    requires forall k :: j <= k < |t| ==> IsSpace(t[k])
    ensures Strip(s) == s[i..j]
    ensures forall k :: 0 <= k < i ==> IsSpace(s[k])
    ensures forall k :: j <= k < |s| ==> IsSpace(s[k])
  {
    assert t[i..j] == s[i..j];
    forall k | j <= k < |s| ensures IsSpace(s[k]) {
      if k < |t| {
        assert IsSpace(t[k]) && t[k] == s[k];
      }
    }
  }

  /** Stripping a stripped text changes nothing. */
  lemma StripIdempotent(s: string)
    ensures Strip(Strip(s)) == Strip(s)
  {
  }

  /** The longest prefix of `s` without whitespace. */
  function TakeWord(s: string): (r: string)
    ensures |r| <= |s| && r == s[..|r|]
    ensures forall c :: c in r ==> !IsSpace(c)
    ensures |r| < |s| ==> IsSpace(s[|r|])
  {
    if s == [] || IsSpace(s[0]) then [] else [s[0]] + TakeWord(s[1..])
  }

  /** A non-empty text without whitespace. */
  predicate IsWord(w: string)
  {
    w != [] && forall c :: c in w ==> !IsSpace(c)
  }

  /** `s.split()`: the maximal runs of non-whitespace characters, in order. */
  function Words(s: string): (ws: seq<string>)
    ensures forall w :: w in ws ==> IsWord(w)
    decreases |s|
  {
    var t := DropSpaces(s);
    if t == [] then []
    else
      var w := TakeWord(t);
      assert w != [] by { assert !IsSpace(t[0]); }
      var rest := Words(t[|w|..]);
      assert IsWord(w);
      assert forall x :: x in [w] + rest ==> x == w || x in rest;
      [w] + rest
  }

  /** A text has no words exactly when it is all whitespace. */
  lemma {:induction false} NoWordsIffBlank(s: string)
    ensures Words(s) == [] <==> forall c :: c in s ==> IsSpace(c)
  {
    var t := DropSpaces(s);
    if t == [] {
      forall c | c in s ensures IsSpace(c) {
        var i :| 0 <= i < |s| && s[i] == c;
      }
    } else {
      assert t[0] in s && !IsSpace(t[0]);
    }
  }

  /** The number of whitespace-separated words, `len(s.split())`. */
  function WordCount(s: string): nat { |Words(s)| }

  /** The set of words of `s`, `set(s.split())`. */
  function WordSet(s: string): (ws: set<string>)
    ensures ws == {} <==> Words(s) == []
  {
    var ws := set w | w in Words(s);
    assert Words(s) != [] ==> Words(s)[0] in ws;
    ws
  }

  // ---------------------------------------------------------------- searching

  predicate StartsWith(s: string, prefix: string)
  {
    |prefix| <= |s| && s[..|prefix|] == prefix
  }

  /** `sub in s` for strings. */
  predicate Contains(s: string, sub: string)
    decreases |s|
  {
    StartsWith(s, sub) || (s != [] && Contains(s[1..], sub))
  }

  /** `sub` occurs in `s` at index `i`. */
  predicate OccursAt(s: string, sub: string, i: int)
  {
    0 <= i <= |s| - |sub| && s[i..i + |sub|] == sub
  }

  /** `Contains` holds exactly when `sub` occurs at some index of `s`. */
  lemma {:induction false} ContainsAt(s: string, sub: string)
    ensures Contains(s, sub) <==> exists i :: OccursAt(s, sub, i)
    decreases |s|
  {
    if s == [] {
      if sub == [] {
        assert OccursAt(s, sub, 0);
      }
    } else {
      ContainsAt(s[1..], sub);
      if StartsWith(s, sub) {
        assert OccursAt(s, sub, 0);
      } else if Contains(s[1..], sub) {
        var j :| OccursAt(s[1..], sub, j);
        assert s[1..][j..j + |sub|] == s[j + 1..j + 1 + |sub|];
        assert OccursAt(s, sub, j + 1);
      }
      if exists i :: OccursAt(s, sub, i) {
        var i :| OccursAt(s, sub, i);
        if i > 0 {
          assert s[1..][i - 1..i - 1 + |sub|] == s[i..i + |sub|];
          assert OccursAt(s[1..], sub, i - 1);
        }
      }
    }
  }

  /** A one-character needle is contained exactly when that character occurs. */
  lemma ContainsChar(s: string, c: char)
    ensures Contains(s, [c]) <==> c in s
  {
    ContainsAt(s, [c]);
    if c in s {
      var i :| 0 <= i < |s| && s[i] == c;
      assert OccursAt(s, [c], i);
    }
    if Contains(s, [c]) {
      var i :| OccursAt(s, [c], i);
      assert s[i] == c;
    }
  }

  // ---------------------------------------------------------------- slicing

  /** Python's `s[:n]` for n >= 0. */
  function PrefixOf(s: string, n: nat): (r: string)
    ensures |r| == if |s| < n then |s| else n
    ensures r == s[..|r|]
  {
    if |s| <= n then s else s[..n]
  }

  /** A title made from a text: its first 50 characters, followed by "..." when the text is longer. */
  function Abbreviate(content: string): (title: string)
    ensures |content| <= 50 ==> title == content
    ensures |content| > 50 ==> |title| == 53 && title[..50] == content[..50] && title[50..] == "..."
  {
    if |content| > 50 then content[..50] + "..." else content
  }

  // ---------------------------------------------------------------- replacing

  /** `s.replace(c, r)` for a one-character pattern `c`. */
  function ReplaceChar(s: string, c: char, r: string): (t: string)
    ensures c !in r ==> c !in t
    ensures forall d :: d in t ==> d in s || d in r
  {
    if s == [] then []
    else (if s[0] == c then r else [s[0]]) + ReplaceChar(s[1..], c, r)
  }

  /** Replacing a character by a single character keeps the length and changes exactly its positions. */
  lemma {:induction false} ReplaceCharAt(s: string, c: char, r: char)
    ensures |ReplaceChar(s, c, [r])| == |s|
    ensures forall i :: 0 <= i < |s| ==> ReplaceChar(s, c, [r])[i] == if s[i] == c then r else s[i]
  {
    if s != [] {
      ReplaceCharAt(s[1..], c, r);
      assert forall i :: 1 <= i < |s| ==> s[1..][i - 1] == s[i];
    }
  }

  /** `str.title()`: a letter following a non-letter is upper-cased, every other letter lower-cased. */
  function TitleCase(s: string, afterLetter: bool): (r: string)
    ensures |r| == |s|
  {
    if s == [] then []
    else
      var c := if !IsLetter(s[0]) then s[0] else if afterLetter then LowerChar(s[0]) else UpperChar(s[0]);
      [c] + TitleCase(s[1..], IsLetter(s[0]))
  }

  /**
   * What `str.title()` does to each character: a non-letter is kept, a letter that starts a
   * word is upper-cased and any other letter lower-cased.
   */
  lemma {:induction false} TitleCaseRules(s: string, afterLetter: bool)
    ensures forall i :: 0 <= i < |s| && !IsLetter(s[i]) ==> TitleCase(s, afterLetter)[i] == s[i]
    ensures forall i :: 0 <= i < |s| && IsLetter(s[i]) && StartsWord(s, i, afterLetter) ==>
              TitleCase(s, afterLetter)[i] == UpperChar(s[i])
    ensures forall i :: 0 <= i < |s| && IsLetter(s[i]) && !StartsWord(s, i, afterLetter) ==>
              TitleCase(s, afterLetter)[i] == LowerChar(s[i])
  {
    if s != [] {
      var r, rest := TitleCase(s, afterLetter), TitleCase(s[1..], IsLetter(s[0]));
      TitleCaseRules(s[1..], IsLetter(s[0]));
      StartsWordShift(s, afterLetter);
      assert forall i :: 1 <= i < |s| ==> r[i] == rest[i - 1] && s[1..][i - 1] == s[i];
    }
  }

  /** A letter at `i` starts a word when no letter comes right before it. */
  predicate StartsWord(s: string, i: nat, afterLetter: bool)
    requires i < |s|
  {
    if i == 0 then !afterLetter else !IsLetter(s[i - 1])
  }

  /** Dropping the first character keeps, for every later letter, whether it starts a word. */
  lemma StartsWordShift(s: string, afterLetter: bool)
    requires s != []
    ensures forall i :: 1 <= i < |s| ==> StartsWord(s[1..], i - 1, IsLetter(s[0])) == StartsWord(s, i, afterLetter)
  {
  }

  function Title(s: string): string { TitleCase(s, false) }

  // ---------------------------------------------------------------- numbers

  /** `str(n)` for a natural number: its decimal digits, without leading zeros. */
  function NatToString(n: nat): (r: string)
    ensures |r| >= 1
    ensures forall c :: c in r ==> '0' <= c <= '9'
    decreases n
  {
    var d := [(('0' as int) + n % 10) as char];
    if n < 10 then d else NatToString(n / 10) + d
  }

  /** Different numbers are written differently. */
  lemma {:induction false} NatToStringInjective(m: nat, n: nat)
    requires NatToString(m) == NatToString(n)
    ensures m == n
    decreases m
  {
    var sm, sn := NatToString(m), NatToString(n);
    if m < 10 && n < 10 {
      assert sm[0] == sn[0];
    } else if m >= 10 && n >= 10 {
      assert sm[..|sm| - 1] == NatToString(m / 10) && sn[..|sn| - 1] == NatToString(n / 10);
      NatToStringInjective(m / 10, n / 10);
      assert sm[|sm| - 1] == sn[|sn| - 1];
    }
  }

  // ---------------------------------------------------------------- ordering

  /** Python's `a < b` on strings: lexicographic by character code, a proper prefix first. */
  predicate LexLess(a: string, b: string)
    decreases |a|
  {
    b != [] && (a == [] || a[0] < b[0] || (a[0] == b[0] && LexLess(a[1..], b[1..])))
  }

  /** The string order is irreflexive, asymmetric, transitive and total on distinct strings. */
  lemma {:induction false} LexOrder(a: string, b: string, c: string)
    ensures !LexLess(a, a)
    ensures LexLess(a, b) ==> !LexLess(b, a)
    ensures a != b ==> LexLess(a, b) || LexLess(b, a)
    ensures LexLess(a, b) && LexLess(b, c) ==> LexLess(a, c)
    decreases |a|
  {
    if a != [] && b != [] && c != [] {
      LexOrder(a[1..], b[1..], c[1..]);
      if a != b && a[0] == b[0] {
        assert a == [a[0]] + a[1..] && b == [b[0]] + b[1..];
      }
    } else if a != [] && b != [] {
      LexOrder(a[1..], b[1..], []);
      if a != b && a[0] == b[0] {
        assert a == [a[0]] + a[1..] && b == [b[0]] + b[1..];
      }
    } else if a != [] {
      LexOrder(a[1..], [], []);
    }
  }

  /** Strictly increasing in the string order; in particular without duplicates. */
  predicate StrictlySorted(s: seq<string>)
  {
    forall i, j :: 0 <= i < j < |s| ==> LexLess(s[i], s[j])
  }

  /** Inserts a new string at its place in a strictly sorted sequence. */
  function InsertSorted(x: string, s: seq<string>): (r: seq<string>)
    requires StrictlySorted(s) && x !in s
    ensures StrictlySorted(r)
    ensures forall y :: y in r <==> y == x || y in s
    ensures |r| == |s| + 1
  {
    if s == [] then [x]
    else
      LexOrder(x, s[0], s[0]);
      if LexLess(x, s[0]) then
        forall j | 0 <= j < |s| ensures LexLess(x, s[j]) {
          LexOrder(x, s[0], s[j]);
        }
        [x] + s
      else
        var rest := InsertSorted(x, s[1..]);
        assert forall y :: y in rest ==> LexLess(s[0], y) by {
          forall y | y in rest ensures LexLess(s[0], y) {
            if y != x {
              var j :| 1 <= j < |s| && s[j] == y;
            }
          }
        }
        [s[0]] + rest
  }

  /** The strings of `s` once each, in increasing order. */
  function SortedStrings(s: seq<string>): (r: seq<string>)
    ensures StrictlySorted(r)
    ensures forall y :: y in r <==> y in s
    ensures |r| <= |s|
    ensures (forall i, j :: 0 <= i < j < |s| ==> s[i] != s[j]) ==> |r| == |s|
  {
    if s == [] then []
    else
      var last := s[|s| - 1];
      var r := SortedStrings(s[..|s| - 1]);
      assert s == s[..|s| - 1] + [last];
      if last in r then r else InsertSorted(last, r)
  }

  /** `sorted(xs)` for a set of strings: its elements once each, in increasing order. */
  method SortedSet(xs: set<string>) returns (s: seq<string>)
    ensures StrictlySorted(s)
    ensures forall y :: y in s <==> y in xs
  {
    s := [];
    var rest := xs;
    while rest != {}
      invariant StrictlySorted(s)
      invariant forall y :: y in s <==> y in xs && y !in rest
      invariant rest <= xs
      decreases |rest|
    {
      var x :| x in rest;
      s := InsertSorted(x, s);
      rest := rest - {x};
    }
  }
}
