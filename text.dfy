/**
 * The Foundation string operations the core relies on, on strings modelled as
 * sequences of Unicode scalars: character sets, trimming, splitting into lines,
 * finding a character, and lower-casing.
 */
module Text {
  import opened Wrappers

  /** `CharacterSet.whitespaces`: the horizontal tab and the Unicode space separators (category Zs). */
  const Whitespaces: set<char> := {
    '\t', ' ', '\U{00A0}', '\U{1680}',
    '\U{2000}', '\U{2001}', '\U{2002}', '\U{2003}', '\U{2004}', '\U{2005}',
    '\U{2006}', '\U{2007}', '\U{2008}', '\U{2009}', '\U{200A}',
    '\U{202F}', '\U{205F}', '\U{3000}'
  }

  /** `CharacterSet.newlines`: U+000A to U+000D, NEL, LINE SEPARATOR and PARAGRAPH SEPARATOR. */
  const Newlines: set<char> := {'\n', '\U{000B}', '\U{000C}', '\r', '\U{0085}', '\U{2028}', '\U{2029}'}

  /** The two quote characters stripped from a configuration value. */
  const Quotes: set<char> := {'"', '\''}

  /** No character of `s` belongs to `cs`. */
  predicate Avoids(s: string, cs: set<char>) {
    forall i :: 0 <= i < |s| ==> s[i] !in cs
  }

  /** Every character of `s` belongs to `cs`. */
  predicate AllIn(s: string, cs: set<char>) {
    forall i :: 0 <= i < |s| ==> s[i] in cs
  }

  /** Drops the longest prefix made of characters of `cs`. */
  function TrimStart(s: string, cs: set<char>): (r: string)
    ensures |r| <= |s|
  {
    if s == [] || s[0] !in cs then s else TrimStart(s[1..], cs)
  }

  /** Drops the longest suffix made of characters of `cs`. */
  function TrimEnd(s: string, cs: set<char>): (r: string)
    ensures |r| <= |s|
  {
    if s == [] || s[|s| - 1] !in cs then s else TrimEnd(s[..|s| - 1], cs)
  }

  /**
   * `String.trimmingCharacters(in: cs)`: removes every leading and every
   * trailing character that belongs to `cs`.
   */
  function Trim(s: string, cs: set<char>): string {
    TrimEnd(TrimStart(s, cs), cs)
  }

  /** The front trim is a suffix, starts outside `cs`, and what it drops lies inside `cs`. */
  lemma {:induction false} TrimStartFacts(s: string, cs: set<char>)
    ensures var r := TrimStart(s, cs);
      && r == s[|s| - |r|..]
      && (r == [] || r[0] !in cs)
      && AllIn(s[..|s| - |r|], cs)
    decreases |s|
  {
    if s != [] && s[0] in cs {
      var t := s[1..];
      TrimStartFacts(t, cs);
      var r := TrimStart(t, cs);
      assert t[|t| - |r|..] == s[|s| - |r|..];
      forall i | 0 < i < |s| - |r|
        ensures s[i] in cs
      {
        assert s[i] == t[..|t| - |r|][i - 1];
      }
    }
  }

  /** The back trim is a prefix, ends outside `cs`, and what it drops lies inside `cs`. */
  lemma {:induction false} TrimEndFacts(s: string, cs: set<char>)
    ensures var r := TrimEnd(s, cs);
      && r == s[..|r|]
      && (r == [] || r[|r| - 1] !in cs)
      && AllIn(s[|r|..], cs)
    decreases |s|
  {
    if s != [] && s[|s| - 1] in cs {
      var t := s[..|s| - 1];
      TrimEndFacts(t, cs);
      var r := TrimEnd(t, cs);
      assert t[..|r|] == s[..|r|];
      forall i | 0 <= i < |s| - |r|
        ensures s[|r|..][i] in cs
      {
        if i < |s| - 1 - |r| {
          assert s[|r|..][i] == t[|r|..][i];
        }
      }
    }
  }

  /** Trimming keeps a contiguous middle part and drops only characters of `cs` around it. */
  lemma TrimMiddle(s: string, cs: set<char>)
    ensures var r := Trim(s, cs);
      var p := |s| - |TrimStart(s, cs)|;
      && p + |r| <= |s|
      && r == s[p..p + |r|]
      && AllIn(s[..p], cs)
      && AllIn(s[p + |r|..], cs)
  {
    var front := TrimStart(s, cs);
    var r := TrimEnd(front, cs);
    TrimStartFacts(s, cs);
    TrimEndFacts(front, cs);
    var p := |s| - |front|;
    assert front == s[p..];
    assert r == s[p..p + |r|];
    assert front[|r|..] == s[p + |r|..];
  }

  /** A trimmed string neither starts nor ends inside `cs`, and is empty exactly when all of `s` is inside `cs`. */
  lemma TrimEnds(s: string, cs: set<char>)
    ensures var r := Trim(s, cs);
      && (r == [] || (r[0] !in cs && r[|r| - 1] !in cs))
      && (r == [] <==> AllIn(s, cs))
      && (Avoids(s, cs) ==> r == s)
  {
    var front := TrimStart(s, cs);
    var r := TrimEnd(front, cs);
    TrimStartFacts(s, cs);
    TrimEndFacts(front, cs);
    if r != [] {
      assert r[0] == front[0];
    }
    assert front[0..] == front;
    AllInExcludes(front[|r|..], cs, if front == [] then '\0' else front[0]);
    if r == [] {
      assert s[..|s| - |front|] == s;
    }
    if front != [] {
      assert s[|s| - |front|] == front[0];
    }
    if Avoids(s, cs) && s != [] {
      assert front == s;
      assert s[|s| - 1] !in cs;
    }
  }

  /**
   * Trimming keeps one contiguous middle part of the string: what it drops
   * before and after that part lies inside `cs`, and the part neither starts
   * nor ends inside `cs`. The result is empty exactly when every character was
   * inside `cs`, and a string with no character of `cs` is left as it is.
   */
  lemma TrimFacts(s: string, cs: set<char>)
    ensures var r := Trim(s, cs);
      var p := |s| - |TrimStart(s, cs)|;
      && p + |r| <= |s|
      && r == s[p..p + |r|]
      && AllIn(s[..p], cs)
      && AllIn(s[p + |r|..], cs)
      && (r == [] || (r[0] !in cs && r[|r| - 1] !in cs))
      && (r == [] <==> AllIn(s, cs))
      && (Avoids(s, cs) ==> r == s)
  {
    TrimMiddle(s, cs);
    TrimEnds(s, cs);
  }

  /** A string that neither starts nor ends inside `cs` is left as it is. */
  lemma TrimUntouched(s: string, cs: set<char>)
    requires s == [] || (s[0] !in cs && s[|s| - 1] !in cs)
    ensures Trim(s, cs) == s
  {
  }

  /** Trimming removes one enclosing pair of `cs` characters around a text that does not start or end inside `cs`. */
  lemma TrimEnclosed(c: char, v: string, cs: set<char>)
    requires c in cs
    requires v == [] || (v[0] !in cs && v[|v| - 1] !in cs)
    ensures Trim([c] + v + [c], cs) == v
  {
    var s := [c] + v + [c];
    assert s[1..] == v + [c];
    if v == [] {
      assert TrimStart(s, cs) == TrimStart([c], cs);
      assert [c][1..] == [];
    } else {
      assert TrimStart(v + [c], cs) == v + [c];
      assert (v + [c])[..|v|] == v;
      assert TrimEnd(v + [c], cs) == TrimEnd(v, cs) == v;
    }
  }

  lemma TrimStartIdempotent(s: string, cs: set<char>)
    ensures TrimStart(TrimStart(s, cs), cs) == TrimStart(s, cs)
  {
    TrimStartFacts(s, cs);
  }

  lemma TrimEndIdempotent(s: string, cs: set<char>)
    ensures TrimEnd(TrimEnd(s, cs), cs) == TrimEnd(s, cs)
  {
    TrimEndFacts(s, cs);
  }

  /** A non-empty end-trimmed string keeps its first character. */
  lemma {:induction false} TrimEndKeepsHead(s: string, cs: set<char>)
    requires s != [] && TrimEnd(s, cs) != []
    ensures TrimEnd(s, cs) == [s[0]] + TrimEnd(s[1..], cs)
    decreases |s|
  {
    if s[|s| - 1] !in cs {
      if |s| > 1 {
        assert s[1..][|s[1..]| - 1] == s[|s| - 1];
      }
      assert [s[0]] + s[1..] == s;
    } else {
      var s' := s[..|s| - 1];
      TrimEndKeepsHead(s', cs);
      assert s'[1..] == s[1..][..|s[1..]| - 1];
    }
  }

  /** Trimming the front and trimming the back commute. */
  lemma {:induction false} TrimStartEndCommute(s: string, cs: set<char>)
    ensures TrimStart(TrimEnd(s, cs), cs) == TrimEnd(TrimStart(s, cs), cs)
    decreases |s|
  {
    if s == [] {
    } else if s[0] !in cs {
      var back := TrimEnd(s, cs);
      TrimEndFacts(s, cs);
      if back != [] {
        assert back[0] == s[0];
      }
    } else {
      TrimStartEndCommute(s[1..], cs);
      var back := TrimEnd(s, cs);
      if back == [] {
        TrimEndFacts(s, cs);
        assert AllIn(s[1..], cs) by {
          assert s[1..] == s[|back|..][1..];
        }
        TrimEnds(s[1..], cs);
      } else {
        TrimEndKeepsHead(s, cs);
        assert ([s[0]] + TrimEnd(s[1..], cs))[1..] == TrimEnd(s[1..], cs);
      }
    }
  }

  /** Trimming the back first makes no difference to a full trim. */
  lemma TrimAfterTrimEnd(s: string, cs: set<char>)
    ensures Trim(TrimEnd(s, cs), cs) == Trim(s, cs)
  {
    TrimStartEndCommute(TrimEnd(s, cs), cs);
    TrimEndIdempotent(s, cs);
    TrimStartEndCommute(s, cs);
  }

  /** Trimming the front first makes no difference to a full trim. */
  lemma TrimAfterTrimStart(s: string, cs: set<char>)
    ensures Trim(TrimStart(s, cs), cs) == Trim(s, cs)
  {
    TrimStartIdempotent(s, cs);
  }

  /** The front trim stops at the first character outside `cs`, whatever follows it. */
  lemma {:induction false} TrimStartAppend(a: string, b: string, cs: set<char>)
    requires b != [] && b[0] !in cs
    ensures TrimStart(a + b, cs) == TrimStart(a, cs) + b
    decreases |a|
  {
    if a == [] {
      assert a + b == b;
    } else if a[0] in cs {
      assert (a + b)[1..] == a[1..] + b;
      TrimStartAppend(a[1..], b, cs);
    }
  }

  /** The back trim stops at the last character outside `cs`, whatever precedes it. */
  lemma {:induction false} TrimEndPrepend(a: string, b: string, cs: set<char>)
    requires a != [] && a[|a| - 1] !in cs
    ensures TrimEnd(a + b, cs) == a + TrimEnd(b, cs)
    decreases |b|
  {
    if b == [] {
      assert a + b == a;
    } else if b[|b| - 1] in cs {
      assert (a + b)[..|a + b| - 1] == a + b[..|b| - 1];
      TrimEndPrepend(a, b[..|b| - 1], cs);
    }
  }

  /**
   * Trimming a string that has a character `c` outside `cs` trims the text
   * before `c` at the front only and the text after it at the back only.
   */
  lemma TrimAround(a: string, c: char, b: string, cs: set<char>)
    requires c !in cs
    ensures Trim(a + [c] + b, cs) == TrimStart(a, cs) + [c] + TrimEnd(b, cs)
  {
    assert a + [c] + b == a + ([c] + b);
    TrimStartAppend(a, [c] + b, cs);
    var front := TrimStart(a, cs);
    assert front + ([c] + b) == (front + [c]) + b;
    assert (front + [c])[|front|] == c;
    TrimEndPrepend(front + [c], b, cs);
  }

  /** A string made of characters of `cs` holds no character outside it. */
  lemma AllInExcludes(s: string, cs: set<char>, c: char)
    ensures AllIn(s, cs) && c !in cs ==> c !in s
  {
  }

  /** A character is in a concatenation exactly when it is in one of the parts. */
  lemma InConcat(a: string, b: string, c: char)
    ensures c in a + b <==> c in a || c in b
  {
    if c in a + b {
      var i :| 0 <= i < |a + b| && (a + b)[i] == c;
      if i >= |a| {
        assert b[i - |a|] == c;
      }
    }
    if c in b {
      var i :| 0 <= i < |b| && b[i] == c;
      assert (a + b)[|a| + i] == c;
    }
  }

  /** A suffix of a string holds no character the string does not. */
  lemma SuffixAvoids(s: string, k: nat, c: char)
    requires k <= |s| && c !in s
    ensures c !in s[k..]
  {
    forall i | 0 <= i < |s[k..]|
      ensures s[k..][i] != c
    {
      assert s[k..][i] == s[k + i];
    }
  }

  /** A character outside `cs` survives trimming exactly when it was in the string. */
  lemma TrimKeeps(s: string, cs: set<char>, c: char)
    requires c !in cs
    ensures c in Trim(s, cs) <==> c in s
  {
    var front := TrimStart(s, cs);
    var r := TrimEnd(front, cs);
    TrimStartFacts(s, cs);
    TrimEndFacts(front, cs);
    var dropped, kept := s[..|s| - |front|], front[|r|..];
    assert s == dropped + front;
    assert front == r + kept;
    AllInExcludes(dropped, cs, c);
    AllInExcludes(kept, cs, c);
    InConcat(dropped, front, c);
    InConcat(r, kept, c);
  }

  /**
   * `String.components(separatedBy: seps)`: the pieces between separator
   * characters.
   */
  function Split(s: string, seps: set<char>): (r: seq<string>)
    ensures |r| >= 1
    decreases |s|
  {
    if s == [] then [""]
    else
      var rest := Split(s[1..], seps);
      if s[0] in seps then [""] + rest
      else [[s[0]] + rest[0]] + rest[1..]
  }

  /** The number of characters of `s` that belong to `cs`. */
  function CountIn(s: string, cs: set<char>): nat
    decreases |s|
  {
    if s == [] then 0 else (if s[0] in cs then 1 else 0) + CountIn(s[1..], cs)
  }

  /** No piece holds a separator, and there is one more piece than there are separators. */
  lemma {:induction false} SplitPieces(s: string, seps: set<char>)
    ensures |Split(s, seps)| == CountIn(s, seps) + 1
    ensures forall i :: 0 <= i < |Split(s, seps)| ==> Avoids(Split(s, seps)[i], seps)
    decreases |s|
  {
    if s != [] {
      SplitPieces(s[1..], seps);
      var rest := Split(s[1..], seps);
      if s[0] !in seps {
        assert Avoids(rest[0], seps);
        assert Avoids([s[0]] + rest[0], seps);
        assert forall i :: 1 <= i < |Split(s, seps)| ==> Split(s, seps)[i] == rest[i];
      }
    }
  }

  /** A string without separators is a single piece. */
  lemma {:induction false} SplitWithoutSeparator(s: string, seps: set<char>)
    requires Avoids(s, seps)
    ensures Split(s, seps) == [s]
    decreases |s|
  {
    if s != [] {
      SplitWithoutSeparator(s[1..], seps);
      assert [s[0]] + s[1..] == s;
    }
  }

  /** Splitting at a separator splits the text before it and the text after it separately. */
  lemma {:induction false} SplitConcat(a: string, c: char, b: string, seps: set<char>)
    requires c in seps
    ensures Split(a + [c] + b, seps) == Split(a, seps) + Split(b, seps)
    decreases |a|
  {
    if a == [] {
      assert (a + [c] + b)[1..] == b;
    } else {
      var s := a + [c] + b;
      assert s[0] == a[0];
      assert s[1..] == a[1..] + [c] + b;
      SplitConcat(a[1..], c, b, seps);
      var front := Split(a[1..], seps);
      var rest := front + Split(b, seps);
      assert Split(s, seps) == if a[0] in seps then [""] + rest else [[a[0]] + rest[0]] + rest[1..];
      if a[0] !in seps {
        assert rest[0] == front[0];
        assert rest[1..] == front[1..] + Split(b, seps);
      }
    }
  }

  /** The text before the first separator is the first piece; the rest splits on its own. */
  lemma SplitAtSeparator(a: string, c: char, b: string, seps: set<char>)
    requires Avoids(a, seps) && c in seps
    ensures Split(a + [c] + b, seps) == [a] + Split(b, seps)
  {
    SplitConcat(a, c, b, seps);
    SplitWithoutSeparator(a, seps);
  }

  /** `firstIndex(of: c)`: the position of the first `c`, if any. */
  function FirstIndex(s: string, c: char): (r: Option<nat>)
    ensures r.None? <==> c !in s
    ensures r.Some? ==> r.value < |s| && s[r.value] == c && c !in s[..r.value]
  {
    if s == [] then None
    else if s[0] == c then Some(0)
    else
      match FirstIndex(s[1..], c)
      case None => None
      case Some(i) =>
        assert s[..i + 1] == [s[0]] + s[1..][..i];
        Some(i + 1)
  }

  /** The first `c` of `p + [c] + q` is the one after `p` when `p` holds none. */
  lemma FirstIndexAfter(p: string, c: char, q: string)
    requires c !in p
    ensures FirstIndex(p + [c] + q, c) == Some(|p|)
  {
    var s := p + [c] + q;
    assert s[|p|] == c;
    assert forall k :: 0 <= k < |p| ==> s[k] == p[k];
  }

  /** ASCII lower-casing of one character. */
  function LowerChar(c: char): char {
    if 'A' <= c <= 'Z' then (c as int + 32) as char else c
  }

  /** `String.lowercased()`, restricted to the ASCII letters. */
  function Lower(s: string): (r: string)
    ensures |r| == |s|
    ensures forall i :: 0 <= i < |s| ==> r[i] == LowerChar(s[i])
  {
    seq(|s|, i requires 0 <= i < |s| => LowerChar(s[i]))
  }
}
