/** String helpers shared by the models: ASCII lower-casing, plain substring
    search, JavaScript's `trim`, `Array.prototype.join` and
    `String.prototype.split` with a one-character separator. */
module Text {

  /** `toLowerCase` on one character, restricted to the ASCII letters. */
  function LowerChar(c: char): char
  {
    if 'A' <= c <= 'Z' then (c as int + 32) as char else c
  }

  /** `s.toLowerCase()` for ASCII text. */
  function Lower(s: string): (r: string)
    ensures |r| == |s|
    ensures forall i :: 0 <= i < |s| ==> r[i] == LowerChar(s[i])
  {
    seq(|s|, i requires 0 <= i < |s| => LowerChar(s[i]))
  }

  /** No character of `s` is an ASCII capital. */
  predicate IsLower(s: string)
  {
    forall i :: 0 <= i < |s| ==> !('A' <= s[i] <= 'Z')
  }

  /** Lower-casing leaves no capital behind and a second pass changes nothing. */
  lemma LowerIsLower(s: string)
    ensures IsLower(Lower(s))
    ensures Lower(Lower(s)) == Lower(s)
  {
  }

  /** Text that holds no capital is its own lower case. */
  lemma LowerOfLower(s: string)
    requires IsLower(s)
    ensures Lower(s) == s
  {
  }

  /** Lower-casing distributes over concatenation. */
  lemma LowerConcat(a: string, b: string)
    ensures Lower(a + b) == Lower(a) + Lower(b)
  {
  }

  /** `w` occurs in `s` starting at index `i`. */
  predicate MatchesAt(s: string, w: string, i: int)
  {
    0 <= i && i + |w| <= |s| && forall k :: 0 <= k < |w| ==> s[i + k] == w[k]
  }

  /** `s.includes(w)`, and equally a regular expression made of the literal `w`. */
  predicate Contains(s: string, w: string)
  {
    exists i :: 0 <= i <= |s| - |w| && MatchesAt(s, w, i)
  }

  /** A regular expression `(w0|w1|...)` of literal alternatives matches `s`. */
  predicate ContainsAny(s: string, words: seq<string>)
  {
    exists k :: 0 <= k < |words| && Contains(s, words[k])
  }

  lemma ContainsAt(s: string, w: string, i: int)
    requires MatchesAt(s, w, i)
    ensures Contains(s, w)
  {
  }

  lemma ContainsAnyAt(s: string, words: seq<string>, k: int)
    requires 0 <= k < |words| && Contains(s, words[k])
    ensures ContainsAny(s, words)
  {
  }

  /** A word holding a character that `s` lacks does not occur in `s`. */
  lemma NotContainsChar(s: string, w: string, k: int)
    requires 0 <= k < |w| && w[k] !in s
    ensures !Contains(s, w)
  {
  }

  /** A word holding two neighbouring characters that never stand side by
      side in `s` does not occur in `s`. */
  lemma NotContainsPair(s: string, w: string, k: int)
    requires 0 <= k && k + 1 < |w|
    requires forall i :: 0 <= i && i + 1 < |s| ==> !(s[i] == w[k] && s[i + 1] == w[k + 1])
    ensures !Contains(s, w)
  {
    forall i | 0 <= i <= |s| - |w|
      ensures !MatchesAt(s, w, i)
    {
      assert !(s[i + k] == w[k] && s[i + k + 1] == w[k + 1]);
    }
  }

  /** An occurrence inside a piece of a text is an occurrence in the text. */
  lemma ContainsInfix(x: string, a: string, y: string, w: string)
    requires Contains(a, w)
    ensures Contains(x + a + y, w)
  {
    var i :| 0 <= i <= |a| - |w| && MatchesAt(a, w, i);
    assert MatchesAt(x + a + y, w, |x| + i);
  }

  /** Lower-casing a whole text keeps every occurrence found in the lower case
      of one of its pieces. */
  lemma LowerInfix(x: string, a: string, y: string, w: string)
    requires Contains(Lower(a), w)
    ensures Contains(Lower(x + a + y), w)
  {
    LowerConcat(x + a, y);
    LowerConcat(x, a);
    ContainsInfix(Lower(x), Lower(a), Lower(y), w);
  }

  /** The characters JavaScript's `trim` removes: WhiteSpace and LineTerminator
      of section 12.2 and 12.3 of ECMA-262. */
  predicate IsJsSpace(c: char)
  {
    var n := c as int;
    n == 0x09 || n == 0x0A || n == 0x0B || n == 0x0C || n == 0x0D || n == 0x20 ||
    n == 0xA0 || n == 0x1680 || (0x2000 <= n <= 0x200A) || n == 0x2028 ||
    n == 0x2029 || n == 0x202F || n == 0x205F || n == 0x3000 || n == 0xFEFF
  }

  function TrimStart(s: string): string
  {
    if s != [] && IsJsSpace(s[0]) then TrimStart(s[1..]) else s
  }

  function TrimEnd(s: string): string
  {
    if s != [] && IsJsSpace(s[|s| - 1]) then TrimEnd(s[..|s| - 1]) else s
  }

  /** `s.trim()`. */
  function Trim(s: string): string
  {
    TrimEnd(TrimStart(s))
  }

  /** `TrimStart` drops a prefix made of white space and stops at the first
      other character. */
  lemma {:induction false} TrimStartSpec(s: string)
    ensures var r := TrimStart(s);
            |r| <= |s| && r == s[|s| - |r|..] && (r == [] || !IsJsSpace(r[0])) &&
            forall i :: 0 <= i < |s| - |r| ==> IsJsSpace(s[i])
  {
    if s != [] && IsJsSpace(s[0]) {
      TrimStartSpec(s[1..]);
      forall i | 1 <= i < |s| ensures s[i] == s[1..][i - 1] {
      }
    }
  }

  /** `TrimEnd` drops a suffix made of white space and stops at the last
      other character. */
  lemma {:induction false} TrimEndSpec(s: string)
    ensures var r := TrimEnd(s);
            |r| <= |s| && r == s[..|r|] && (r == [] || !IsJsSpace(r[|r| - 1])) &&
            forall i :: |r| <= i < |s| ==> IsJsSpace(s[i])
  {
    if s != [] && IsJsSpace(s[|s| - 1]) {
      TrimEndSpec(s[..|s| - 1]);
      forall i | 0 <= i < |s| - 1 ensures s[i] == s[..|s| - 1][i] {
      }
    }
  }

  /** `!s.trim()`: the text is empty or made only of white space. */
  predicate IsBlank(s: string)
  {
    forall i :: 0 <= i < |s| ==> IsJsSpace(s[i])
  }

  /** `trim` leaves nothing exactly of a blank text, and what it leaves of
      any other text neither starts nor ends with white space. */
  lemma TrimSpec(s: string)
    ensures Trim(s) == [] <==> IsBlank(s)
    ensures Trim(s) == [] || (!IsJsSpace(Trim(s)[0]) && !IsJsSpace(Trim(s)[|Trim(s)| - 1]))
  {
    var t := TrimStart(s);
    TrimStartSpec(s);
    TrimEndSpec(t);
    if IsBlank(s) {
      TrimStartOfBlank(s);
    }
    if Trim(s) == [] {
      assert t == [];
    }
    var r := TrimEnd(t);
    if r != [] {
      assert r[0] == t[0];
    }
  }

  lemma {:induction false} TrimStartOfBlank(s: string)
    requires IsBlank(s)
    ensures TrimStart(s) == []
  {
    if s != [] {
      assert IsBlank(s[1..]) by {
        forall i | 0 <= i < |s[1..]| ensures IsJsSpace(s[1..][i]) {
          assert s[1..][i] == s[i + 1];
        }
      }
      TrimStartOfBlank(s[1..]);
    }
  }

  /** `s.length` in JavaScript: UTF-16 code units, so a character outside the
      Basic Multilingual Plane counts twice. */
  function Utf16Length(s: string): (n: nat)
    ensures |s| <= n <= 2 * |s|
  {
    if s == [] then 0 else (if s[0] as int > 0xFFFF then 2 else 1) + Utf16Length(s[1..])
  }

  /** `parts.join(sep)`. */
  function Join(parts: seq<string>, sep: string): string
  {
    if |parts| == 0 then ""
    else if |parts| == 1 then parts[0]
    else parts[0] + sep + Join(parts[1..], sep)
  }

  /** Every part stands whole inside the joined text. */
  lemma {:induction false} JoinInfix(parts: seq<string>, sep: string, j: int)
    requires 0 <= j < |parts|
    ensures exists x, y :: Join(parts, sep) == x + parts[j] + y
  {
    if |parts| == 1 {
      assert Join(parts, sep) == "" + parts[j] + "";
    } else if j == 0 {
      assert Join(parts, sep) == "" + parts[0] + (sep + Join(parts[1..], sep));
    } else {
      JoinInfix(parts[1..], sep, j - 1);
      var x, y :| Join(parts[1..], sep) == x + parts[1..][j - 1] + y;
      assert Join(parts, sep) == (parts[0] + sep + x) + parts[j] + y;
    }
  }

  /** `xs.slice(-n)`: the last `n` elements, or all of them when there are fewer. */
  function TakeLast<T>(xs: seq<T>, n: nat): (r: seq<T>)
    ensures |r| == if |xs| < n then |xs| else n
    ensures xs == xs[..|xs| - |r|] + r
  {
    if |xs| <= n then xs else xs[|xs| - n..]
  }

  /** `s.split(c)` for a one-character separator: every separator ends a
      field, so `k` separators give `k + 1` fields, some of them empty. */
  function Split(s: string, c: char): (parts: seq<string>)
    ensures |parts| >= 1
  {
    if s == [] then [""]
    else
      var rest := Split(s[1..], c);
      if s[0] == c then [""] + rest
      else [[s[0]] + rest[0]] + rest[1..]
  }

  /** A text without the separator is a single field. */
  lemma {:induction false} SplitNoSeparator(t: string, c: char)
    requires c !in t
    ensures Split(t, c) == [t]
  {
    if t != [] {
      SplitNoSeparator(t[1..], c);
      assert [t[0]] + t[1..] == t;
    }
  }

  /** A separator-free first field is split off whole, with the rest split on its own. */
  lemma {:induction false} SplitFirstField(a: string, b: string, c: char)
    requires c !in a
    ensures Split(a + [c] + b, c) == [a] + Split(b, c)
  {
    if a == [] {
      assert (a + [c] + b)[1..] == b;
    } else {
      SplitFirstField(a[1..], b, c);
      assert (a + [c] + b)[1..] == a[1..] + [c] + b;
      assert [a[0]] + a[1..] == a;
    }
  }

  lemma JoinPrefixFirst(h: string, rest: seq<string>, sep: string)
    requires |rest| >= 1
    ensures Join([h + rest[0]] + rest[1..], sep) == h + Join(rest, sep)
  {
    var parts := [h + rest[0]] + rest[1..];
    if |rest| > 1 {
      assert parts[1..] == rest[1..];
    }
  }

  /** Splitting and joining back with the same separator gives the text back. */
  lemma {:induction false} JoinSplit(s: string, c: char)
    ensures Join(Split(s, c), [c]) == s
  {
    if s != [] {
      var rest := Split(s[1..], c);
      JoinSplit(s[1..], c);
      if s[0] == c {
        assert ([""] + rest)[1..] == rest;
      } else {
        JoinPrefixFirst([s[0]], rest, [c]);
      }
      assert [s[0]] + s[1..] == s;
    }
  }
}
