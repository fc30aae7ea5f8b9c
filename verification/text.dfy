/** String operations of Python 2's `str` that the generator relies on:
    `split` on one character, `rstrip()` with no argument, repetition `s * n`,
    and the prefix/suffix/substring tests used to state properties. */
module Text {

  predicate StartsWith(s: string, p: string) {
    |p| <= |s| && s[..|p|] == p
  }

  predicate EndsWith(s: string, t: string) {
    |t| <= |s| && s[|s| - |t|..] == t
  }

  /** `t in s`: `t` occurs somewhere in `s`. */
  predicate Contains(s: string, t: string)
    decreases |s|
  {
    StartsWith(s, t) || (s != [] && Contains(s[1..], t))
  }

  /** Python 2 `str.isspace` on one character: space, tab, newline, carriage return, vertical tab, form feed. */
  predicate IsSpace(c: char) {
    c == ' ' || c == '\t' || c == '\n' || c == '\r' || c == '\U{0B}' || c == '\U{0C}'
  }

  /** `s.rstrip()`: the longest prefix of `s` that does not end in whitespace. */
  function RStrip(s: string): (r: string)
    ensures StartsWith(s, r)
    ensures r == [] || !IsSpace(r[|r| - 1])
    ensures forall i :: |r| <= i < |s| ==> IsSpace(s[i])
  {
    if s == [] || !IsSpace(s[|s| - 1]) then s else RStrip(s[..|s| - 1])
  }

  /** `s * n`. */
  function Repeat(s: string, n: nat): (r: string)
    ensures |r| == n * |s|
    ensures forall ch :: ch in r ==> ch in s
  {
    if n == 0 then "" else Repeat(s, n - 1) + s
  }

  /** `s.split(c)` for a one-character separator: the pieces between the occurrences of `c`. */
  function Split(s: string, c: char): (parts: seq<string>)
    ensures |parts| >= 1
    ensures forall i :: 0 <= i < |parts| ==> c !in parts[i]
    decreases |s|
  {
    if s == [] then [""]
    else
      var rest := Split(s[1..], c);
      if s[0] == c then [""] + rest else [[s[0]] + rest[0]] + rest[1..]
  }

  /** `c.join(parts)`: the inverse of `Split`. */
  function Join(parts: seq<string>, c: char): string
    requires |parts| >= 1
    decreases |parts|
  {
    if |parts| == 1 then parts[0] else parts[0] + [c] + Join(parts[1..], c)
  }

  /** Joining the pieces of a split gives back the original text. */
  lemma {:induction false} JoinSplit(s: string, c: char)
    ensures Join(Split(s, c), c) == s
    decreases |s|
  {
    if s != [] {
      var rest := Split(s[1..], c);
      JoinSplit(s[1..], c);
      if s[0] == c {
        assert Split(s, c)[1..] == rest;
      } else if |rest| == 1 {
        assert rest[0] == s[1..];
      } else {
        var parts := Split(s, c);
        assert parts[1..] == rest[1..];
        assert Join(rest, c) == rest[0] + [c] + Join(rest[1..], c);
        assert s == [s[0]] + s[1..];
      }
    }
  }

  /** A piece without the separator, followed by anything, is the start of the first piece. */
  lemma {:induction false} SplitPrefix(p: string, t: string, c: char)
    requires c !in p
    ensures Split(p + t, c) == [p + Split(t, c)[0]] + Split(t, c)[1..]
    decreases |p|
  {
    var q := Split(t, c);
    if p != [] {
      assert (p + t)[1..] == p[1..] + t;
      SplitPrefix(p[1..], t, c);
      var r := Split(p[1..] + t, c);
      assert (p + t)[0] == p[0] && p[0] != c;
      assert Split(p + t, c) == [[p[0]] + r[0]] + r[1..];
      assert [p[0]] + r[0] == p + q[0];
      assert r[1..] == q[1..];
    } else {
      assert p + t == t && p + q[0] == q[0];
      assert [q[0]] + q[1..] == q;
    }
  }

  /** Splitting at a separator splits the two sides independently. */
  lemma {:induction false} SplitAtSeparator(a: string, b: string, c: char)
    ensures Split(a + [c] + b, c) == Split(a, c) + Split(b, c)
    decreases |a|
  {
    var s := a + [c] + b;
    if a == [] {
      assert s == [c] + b;
      SplitStep(s, c, b);
    } else {
      assert s[1..] == a[1..] + [c] + b;
      SplitAtSeparator(a[1..], b, c);
      SplitStep(s, c, s[1..]);
      SplitStep(a, c, a[1..]);
      var ra, rb := Split(a[1..], c), Split(b, c);
      if a[0] != c {
        ConsAppend([a[0]] + ra[0], ra[1..], rb);
      }
    }
  }

  lemma ConsAppend(h: string, t: seq<string>, u: seq<string>)
    ensures ([h] + t) + u == [h] + (t + u)
  {
  }

  /** One step of `Split`, on a text whose tail is `t`. */
  lemma SplitStep(s: string, c: char, t: string)
    requires s != [] && t == s[1..]
    ensures s[0] == c ==> Split(s, c) == [""] + Split(t, c)
    ensures s[0] != c ==> Split(s, c) == [[s[0]] + Split(t, c)[0]] + Split(t, c)[1..]
  {
  }

  /** A text without the separator is a single piece. */
  lemma {:induction false} SplitNone(s: string, c: char)
    requires c !in s
    ensures Split(s, c) == [s]
  {
    SplitPrefix(s, "", c);
    assert s + "" == s;
  }

  /** Splitting a join gives back the pieces, as long as no piece holds the separator. */
  lemma {:induction false} SplitJoin(parts: seq<string>, c: char)
    requires |parts| >= 1
    requires forall i :: 0 <= i < |parts| ==> c !in parts[i]
    ensures Split(Join(parts, c), c) == parts
    decreases |parts|
  {
    if |parts| == 1 {
      SplitNone(parts[0], c);
    } else {
      SplitJoin(parts[1..], c);
      SplitAtSeparator(parts[0], Join(parts[1..], c), c);
      SplitNone(parts[0], c);
    }
  }

  /** The first piece is a prefix of the text, and is the whole text or stops at a separator. */
  lemma {:induction false} SplitFirst(s: string, c: char)
    ensures StartsWith(s, Split(s, c)[0])
    ensures |Split(s, c)[0]| < |s| ==> s[|Split(s, c)[0]|] == c
    decreases |s|
  {
    if s != [] && s[0] != c {
      SplitFirst(s[1..], c);
    }
  }

  /** The last piece is a suffix of the text, and is the whole text or follows a separator. */
  lemma {:induction false} SplitLast(s: string, c: char)
    ensures EndsWith(s, Last(Split(s, c)))
    ensures |Last(Split(s, c))| < |s| ==> s[|s| - |Last(Split(s, c))| - 1] == c
    decreases |s|, 1
  {
    if s != [] {
      var rest := Split(s[1..], c);
      if s[0] != c && |rest| == 1 {
        JoinSplit(s[1..], c);
        assert Split(s, c) == [[s[0]] + rest[0]];
        assert [s[0]] + s[1..] == s;
      } else {
        SplitLastStep(s, c);
      }
    }
  }

  /** When the text splits into more than one piece, the last one is the last piece of its tail. */
  lemma SplitLastStep(s: string, c: char)
    requires s != [] && (s[0] == c || |Split(s[1..], c)| > 1)
    ensures EndsWith(s, Last(Split(s, c)))
    ensures |Last(Split(s, c))| < |s| ==> s[|s| - |Last(Split(s, c))| - 1] == c
    decreases |s|, 0
  {
    SplitLast(s[1..], c);
    var rest := Split(s[1..], c);
    var last := Last(rest);
    assert Last(Split(s, c)) == last;
    SuffixOfTail(s, last);
    if s[0] != c && |last| == |s| - 1 {
      assert last == s[1..];
      SplitNone(s[1..], c);
      assert false;
    }
  }

  function Last(parts: seq<string>): string
    requires |parts| >= 1
  {
    parts[|parts| - 1]
  }

  /** A suffix of the tail of a non-empty text is a suffix of the text. */
  lemma SuffixOfTail(s: string, t: string)
    requires s != [] && EndsWith(s[1..], t)
    ensures EndsWith(s, t)
    ensures |t| < |s| - 1 ==> s[|s| - |t| - 1] == s[1..][|s| - 1 - |t| - 1]
  {
    assert s[|s| - |t|..] == s[1..][|s| - 1 - |t|..];
  }

  // ---------------------------------------------------------------------------
  // Prefix, suffix and substring facts

  lemma PrefixOfConcat(a: string, b: string)
    ensures StartsWith(a + b, a)
  {
    assert (a + b)[..|a|] == a;
  }

  lemma PrefixGrow(a: string, b: string, p: string)
    requires StartsWith(a, p)
    ensures StartsWith(a + b, p)
  {
    assert (a + b)[..|p|] == a[..|p|];
  }

  lemma ConcatPrefix(a: string, b: string, c: string)
    ensures StartsWith(a + (b + c), a + b)
  {
    assert a + (b + c) == (a + b) + c;
    PrefixOfConcat(a + b, c);
  }

  lemma SuffixOfConcat(a: string, b: string)
    ensures EndsWith(a + b, b)
  {
    assert (a + b)[|a|..] == b;
  }

  lemma EndsWithTrans(s: string, t: string, u: string)
    requires EndsWith(s, t) && EndsWith(t, u)
    ensures EndsWith(s, u)
  {
    assert s[|s| - |u|..] == t[|t| - |u|..];
  }

  /** Two suffixes of the same length are equal. */
  lemma SameSuffix(s: string, t: string, u: string)
    requires EndsWith(s, t) && EndsWith(s, u) && |t| == |u|
    ensures t == u
  {
  }

  /** A common suffix can be taken off both sides of `EndsWith`. */
  lemma CancelSuffix(w: string, a: string, t: string)
    ensures EndsWith(w + t, a + t) <==> EndsWith(w, a)
  {
    if EndsWith(w + t, a + t) {
      assert w[|w| - |a|..] == (w + t)[|w + t| - |a + t|..][..|a|];
    }
    if EndsWith(w, a) {
      assert (w + t)[|w + t| - |a + t|..] == w[|w| - |a|..] + t;
    }
  }

  lemma ContainsSuffix(a: string, t: string)
    ensures Contains(a + t, t)
    decreases |a|
  {
    if a == [] {
      assert (a + t)[..|t|] == t;
    } else {
      assert (a + t)[1..] == a[1..] + t;
      ContainsSuffix(a[1..], t);
    }
  }

  lemma ContainsGrowRight(a: string, b: string, t: string)
    requires Contains(a, t)
    ensures Contains(a + b, t)
    decreases |a|
  {
    if StartsWith(a, t) {
      PrefixGrow(a, b, t);
    } else {
      assert (a + b)[1..] == a[1..] + b;
      ContainsGrowRight(a[1..], b, t);
    }
  }

  lemma ContainsGrowLeft(a: string, b: string, t: string)
    requires Contains(b, t)
    ensures Contains(a + b, t)
    decreases |a|
  {
    if a == [] {
      assert a + b == b;
    } else {
      assert (a + b)[1..] == a[1..] + b;
      ContainsGrowLeft(a[1..], b, t);
    }
  }

  lemma PrefixTrans(s: string, t: string, u: string)
    requires StartsWith(s, t) && StartsWith(t, u)
    ensures StartsWith(s, u)
  {
    assert s[..|u|] == t[..|u|];
  }

  /* The three lemmas below state regroupings Dafny knows for sequences. A proof calls them
     as hints, to hand the solver the one rewrite it needs where the terms around it carry
     long string literals; without them the header lemmas that use them are not stable
     across solver seeds. */

  /** Empty pieces drop out of a concatenation. */
  lemma DropEmpty(x: string, e1: string, i: string, e2: string)
    requires e1 == [] && e2 == []
    ensures x + e1 + i + e2 == x + i
  {
  }

  /** A bracketed pair inside a concatenation, followed by an empty piece. */
  lemma FlattenPair(x: string, s: string, a: string, b: string, e: string)
    requires e == []
    ensures x + s + (a + b) + e == x + s + a + b
  {
  }

  /** Concatenation regrouped to the left. */
  lemma Regroup(x: string, y: string, z: string)
    ensures x + (y + z) == x + y + z
  {
  }
}
