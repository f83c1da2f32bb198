/**
 * The Python string builtins the prompt assembler relies on: `str.isspace`
 * (per character), `str.strip()`, `str.split()` (no separator argument),
 * `" ".join(...)` and list slicing `xs[:n]`.
 */
module Text {

  /** Python's whitespace test (`str.isspace` on one code point): the ASCII
      separators and control whitespace plus the Unicode space characters. */
  predicate IsSpace(c: char) {
    var n := c as int;
    || n == 0x20
    || 0x09 <= n <= 0x0D
    || 0x1C <= n <= 0x1F
    || n == 0x85 || n == 0xA0 || n == 0x1680
    || 0x2000 <= n <= 0x200A
    || n == 0x2028 || n == 0x2029 || n == 0x202F || n == 0x205F || n == 0x3000
  }

  predicate AllSpace(s: string) {
    forall k :: 0 <= k < |s| ==> IsSpace(s[k])
  }

  predicate NoSpace(s: string) {
    forall k :: 0 <= k < |s| ==> !IsSpace(s[k])
  }

  /** A token that `str.split()` can produce: non-empty and free of whitespace. */
  predicate IsWord(w: string) {
    |w| > 0 && NoSpace(w)
  }

  predicate AllWords(ws: seq<string>) {
    forall i :: 0 <= i < |ws| ==> IsWord(ws[i])
  }

  /** Neither end of `s` is whitespace. */
  predicate Stripped(s: string) {
    s == [] || (!IsSpace(s[0]) && !IsSpace(s[|s| - 1]))
  }

  /** Every whitespace character of `s` is a plain space standing between two
      non-whitespace characters: tokens are separated by exactly one space and
      there is none at either end. */
  predicate SingleSpaced(s: string) {
    forall k :: 0 <= k < |s| && IsSpace(s[k]) ==>
      s[k] == ' ' && 0 < k < |s| - 1 && !IsSpace(s[k - 1]) && !IsSpace(s[k + 1])
  }

  // ---------------------------------------------------------------- strip

  /** `s.lstrip()`: drops the leading whitespace. */
  function TrimStart(s: string): (r: string)
    ensures |r| <= |s|
    ensures r == [] || !IsSpace(r[0])
  {
    if |s| > 0 && IsSpace(s[0]) then TrimStart(s[1..]) else s
  }

  /** `s.rstrip()`: drops the trailing whitespace. */
  function TrimEnd(s: string): (r: string)
    ensures |r| <= |s|
    ensures r == [] || !IsSpace(r[|r| - 1])
  {
    if |s| > 0 && IsSpace(s[|s| - 1]) then TrimEnd(s[..|s| - 1]) else s
  }

  /** `s.strip()`. */
  function Strip(s: string): string {
    TrimEnd(TrimStart(s))
  }

  /** How many whitespace characters `str.strip()` removes from the front. */
  function LeadingSpace(s: string): nat {
    |s| - |TrimStart(s)|
  }

  /** `lstrip` removes a whitespace prefix and keeps the rest as it is. */
  lemma {:induction false} TrimStartSuffix(s: string)
    ensures TrimStart(s) == s[LeadingSpace(s)..]
    ensures AllSpace(s[..LeadingSpace(s)])
  {
    if |s| > 0 && IsSpace(s[0]) {
      TrimStartSuffix(s[1..]);
      assert s[1..][LeadingSpace(s[1..])..] == s[LeadingSpace(s)..];
      assert forall k :: 1 <= k < LeadingSpace(s) ==> s[k] == s[1..][..LeadingSpace(s[1..])][k - 1];
    }
  }

  /** `rstrip` removes a whitespace suffix and keeps the rest as it is. */
  lemma {:induction false} TrimEndPrefix(s: string)
    ensures TrimEnd(s) == s[..|TrimEnd(s)|]
    ensures AllSpace(s[|TrimEnd(s)|..])
  {
    if |s| > 0 && IsSpace(s[|s| - 1]) {
      var r := TrimEnd(s[..|s| - 1]);
      TrimEndPrefix(s[..|s| - 1]);
      assert s[..|s| - 1][..|r|] == s[..|r|];
      assert forall k :: |r| <= k < |s| - 1 ==> s[k] == s[..|s| - 1][|r|..][k - |r|];
    }
  }

  /** `str.strip()` keeps exactly the part of `s` between a whitespace prefix
      and a whitespace suffix, interior characters untouched, and leaves no
      whitespace at either end. */
  lemma StripSpec(s: string)
    ensures Stripped(Strip(s))
    ensures LeadingSpace(s) + |Strip(s)| <= |s|
    ensures Strip(s) == s[LeadingSpace(s)..LeadingSpace(s) + |Strip(s)|]
    ensures AllSpace(s[..LeadingSpace(s)]) && AllSpace(s[LeadingSpace(s) + |Strip(s)|..])
  {
    var t := TrimStart(s);
    var r := TrimEnd(t);
    TrimStartSuffix(s);
    TrimEndPrefix(t);
    assert t[|r|..] == s[LeadingSpace(s) + |r|..];
    assert r != [] ==> r[0] == t[0];
  }

  lemma {:induction false} TrimStartOfSpacePrefix(a: string, t: string)
    requires AllSpace(a)
    requires t == [] || !IsSpace(t[0])
    ensures TrimStart(a + t) == t
  {
    if a != [] {
      assert (a + t)[1..] == a[1..] + t;
      TrimStartOfSpacePrefix(a[1..], t);
    } else {
      assert a + t == t;
    }
  }

  lemma {:induction false} TrimEndOfSpaceSuffix(t: string, b: string)
    requires AllSpace(b)
    requires t == [] || !IsSpace(t[|t| - 1])
    ensures TrimEnd(t + b) == t
  {
    if b != [] {
      assert (t + b)[..|t + b| - 1] == t + b[..|b| - 1];
      TrimEndOfSpaceSuffix(t, b[..|b| - 1]);
    } else {
      assert t + b == t;
    }
  }

  /** `str.strip()` is characterised by its result: whatever sits between a
      whitespace prefix and a whitespace suffix, with no whitespace at its own
      ends, is what `strip` returns. */
  lemma StripCharacterisation(a: string, m: string, b: string)
    requires AllSpace(a) && AllSpace(b) && Stripped(m)
    ensures Strip(a + m + b) == m
  {
    if m == [] {
      assert a + m + b == a + b + m;
      TrimStartOfSpacePrefix(a + b, m);
    } else {
      assert a + m + b == a + (m + b);
      TrimStartOfSpacePrefix(a, m + b);
      TrimEndOfSpaceSuffix(m, b);
    }
  }

  /** Stripping twice is stripping once. */
  lemma StripIdempotent(s: string)
    ensures Strip(Strip(s)) == Strip(s)
  {
    var r := Strip(s);
    StripSpec(s);
    assert r == [] + r + [];
    StripCharacterisation([], r, []);
  }

  // ---------------------------------------------------------------- split

  /** Length of the run of non-whitespace characters at the front of `s`. */
  function WordEnd(s: string): (k: nat)
    ensures k <= |s|
  {
    if |s| == 0 || IsSpace(s[0]) then 0 else 1 + WordEnd(s[1..])
  }

  /** The first token runs up to the first whitespace character or the end. */
  lemma {:induction false} WordEndSpec(s: string)
    ensures NoSpace(s[..WordEnd(s)])
    ensures WordEnd(s) == |s| || IsSpace(s[WordEnd(s)])
  {
    if |s| > 0 && !IsSpace(s[0]) {
      var k := WordEnd(s[1..]);
      WordEndSpec(s[1..]);
      assert forall j :: 1 <= j < k + 1 ==> s[j] == s[1..][..k][j - 1];
    }
  }

  /** `s.split()`: the maximal runs of non-whitespace characters, in order. */
  function Split(s: string): seq<string>
    decreases |s|
  {
    var t := TrimStart(s);
    if t == [] then []
    else
      var k := WordEnd(t);
      [t[..k]] + Split(t[k..])
  }

  /** Every piece `str.split()` returns is a non-empty, whitespace-free token. */
  lemma {:induction false} SplitWords(s: string)
    ensures AllWords(Split(s))
    decreases |s|
  {
    var t := TrimStart(s);
    if t != [] {
      var k := WordEnd(t);
      WordEndSpec(t);
      SplitWords(t[k..]);
    }
  }

  /** `" ".join(ws)`. */
  function Join(ws: seq<string>): string {
    if |ws| == 0 then ""
    else if |ws| == 1 then ws[0]
    else ws[0] + " " + Join(ws[1..])
  }

  /** `xs[:n]` for a non-negative `n`. */
  function Prefix<T>(xs: seq<T>, n: nat): (r: seq<T>)
    ensures |r| == if |xs| <= n then |xs| else n
    ensures r == xs[..|r|]
  {
    if |xs| <= n then xs else xs[..n]
  }

  /** A whitespace-free prefix followed by whitespace (or nothing) is exactly the first token. */
  lemma {:induction false} WordEndOfWord(w: string, rest: string)
    requires NoSpace(w)
    requires rest == [] || IsSpace(rest[0])
    ensures WordEnd(w + rest) == |w|
  {
    if w == [] {
      assert w + rest == rest;
    } else {
      assert (w + rest)[1..] == w[1..] + rest;
      WordEndOfWord(w[1..], rest);
    }
  }

  /** Whitespace appended after a string does not lengthen its first token. */
  lemma {:induction false} WordEndAppend(t: string, b: string)
    requires AllSpace(b)
    ensures WordEnd(t + b) == WordEnd(t)
  {
    if t == [] {
      assert t + b == b;
    } else if !IsSpace(t[0]) {
      assert (t + b)[1..] == t[1..] + b;
      WordEndAppend(t[1..], b);
    }
  }

  lemma SplitSkipsLeadingSpace(s: string)
    ensures Split(TrimStart(s)) == Split(s)
  {
    var t := TrimStart(s);
    assert t == [] + t;
    TrimStartOfSpacePrefix([], t);
  }

  lemma TrimStartAppend(s: string, b: string)
    requires AllSpace(b)
    ensures TrimStart(s) == [] ==> TrimStart(s + b) == []
    ensures TrimStart(s) != [] ==> TrimStart(s + b) == TrimStart(s) + b
  {
    var t := TrimStart(s);
    TrimStartSuffix(s);
    var a := s[..LeadingSpace(s)];
    assert s == a + t;
    if t == [] {
      assert AllSpace(s + b);
      assert s + b == (s + b) + [];
      TrimStartOfSpacePrefix(s + b, []);
    } else {
      assert s + b == a + (t + b);
      TrimStartOfSpacePrefix(a, t + b);
    }
  }

  /** One step of `Split` on a string that still holds a token. */
  lemma SplitStep(s: string)
    requires TrimStart(s) != []
    ensures var t := TrimStart(s); var k := WordEnd(t);
      Split(s) == [t[..k]] + Split(t[k..])
  {
  }

  /** Trailing whitespace produces no token. */
  lemma {:induction false} SplitIgnoresTrailingSpace(s: string, b: string)
    requires AllSpace(b)
    ensures Split(s + b) == Split(s)
    decreases |s|
  {
    var t := TrimStart(s);
    TrimStartAppend(s, b);
    if t != [] {
      var k := WordEnd(t);
      WordEndAppend(t, b);
      SplitStep(s);
      SplitStep(s + b);
      assert (t + b)[..k] == t[..k];
      assert (t + b)[k..] == t[k..] + b;
      SplitIgnoresTrailingSpace(t[k..], b);
    }
  }

  /** Splitting a stripped string gives the same tokens as splitting the
      original: `s.strip().split() == s.split()`. */
  lemma SplitStrip(s: string)
    ensures Split(Strip(s)) == Split(s)
  {
    var t := TrimStart(s);
    var r := TrimEnd(t);
    TrimEndPrefix(t);
    assert t == r + t[|r|..];
    SplitIgnoresTrailingSpace(r, t[|r|..]);
    SplitSkipsLeadingSpace(s);
  }

  /** A token followed by whitespace (or nothing) is the first piece of the split. */
  lemma SplitWordThen(w: string, rest: string)
    requires IsWord(w)
    requires rest == [] || IsSpace(rest[0])
    ensures Split(w + rest) == [w] + Split(rest)
  {
    var s := w + rest;
    assert s[0] == w[0];
    assert TrimStart(s) == s;
    WordEndOfWord(w, rest);
    SplitStep(s);
    assert s[..|w|] == w && s[|w|..] == rest;
  }

  /** A leading space produces no token. */
  lemma SplitSpaceThen(j: string)
    ensures Split(" " + j) == Split(j)
  {
    assert (" " + j)[1..] == j;
    assert TrimStart(" " + j) == TrimStart(j);
  }

  /** A token followed by one space splits into that token and the split of the rest. */
  lemma SplitWordSpace(w: string, j: string)
    requires IsWord(w)
    ensures Split(w + " " + j) == [w] + Split(j)
  {
    assert w + " " + j == w + (" " + j);
    SplitWordThen(w, " " + j);
    SplitSpaceThen(j);
  }

  // ---------------------------------------------------------------- join

  /** Joining tokens with single spaces and splitting again gives the tokens back. */
  lemma {:induction false} SplitJoin(ws: seq<string>)
    requires AllWords(ws)
    ensures Split(Join(ws)) == ws
  {
    if |ws| == 1 {
      assert ws[0] + [] == ws[0];
      SplitWordThen(ws[0], []);
    } else if |ws| > 1 {
      JoinShape(ws[1..]);
      SplitWordSpace(ws[0], Join(ws[1..]));
      SplitJoin(ws[1..]);
    }
  }

  /** A join of tokens is non-empty exactly when there are tokens, and starts
      and ends with the first and last token's outer characters. */
  lemma {:induction false} JoinShape(ws: seq<string>)
    requires AllWords(ws)
    ensures (Join(ws) == []) == (ws == [])
    ensures ws != [] ==> Join(ws)[0] == ws[0][0]
    ensures ws != [] ==> Join(ws)[|Join(ws)| - 1] == ws[|ws| - 1][|ws[|ws| - 1]| - 1]
  {
    if |ws| == 1 {
      assert IsWord(ws[0]);
    } else if |ws| > 1 {
      var rest := ws[1..];
      assert AllWords(rest) by {
        forall i | 0 <= i < |rest| ensures IsWord(rest[i]) {
          assert rest[i] == ws[i + 1];
        }
      }
      JoinShape(rest);
      assert IsWord(ws[0]);
      assert Join(ws) == ws[0] + " " + Join(rest);
      assert rest[|rest| - 1] == ws[|ws| - 1];
    }
  }

  /** `" ".join` of tokens separates them by exactly one space and adds no
      whitespace at either end. */
  lemma {:induction false} JoinSingleSpaced(ws: seq<string>)
    requires AllWords(ws)
    ensures SingleSpaced(Join(ws))
    ensures Stripped(Join(ws))
  {
    JoinShape(ws);
    if |ws| > 1 {
      var w, j := ws[0], Join(ws[1..]);
      JoinSingleSpaced(ws[1..]);
      JoinShape(ws[1..]);
      var s := w + " " + j;
      forall k | 0 <= k < |s| && IsSpace(s[k])
        ensures s[k] == ' ' && 0 < k < |s| - 1 && !IsSpace(s[k - 1]) && !IsSpace(s[k + 1])
      {
        if k < |w| {
          assert false;
        } else if k > |w| {
          assert s[k] == j[k - |w| - 1];
          assert s[k - 1] == (if k - 1 == |w| then ' ' else j[k - |w| - 2]);
          assert s[k + 1] == j[k - |w|];
        }
      }
    }
  }
}
