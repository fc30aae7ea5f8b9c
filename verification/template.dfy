/** Python 2.7's `string.Template.safe_substitute` over a mapping of attribute values.
    A `$` introduces a placeholder: `$$` is a literal `$`; `$id` and `${id}` name an
    identifier (`[_a-z][_a-z0-9]*`, matched ignoring ASCII case); any other `$` is
    left as it is. A named placeholder whose key is in the mapping becomes the value
    formatted with `%s`; one whose key is missing is left verbatim. */
module Template {
  import opened Config
  import opened Text

  predicate IsIdentStart(ch: char) {
    ch == '_' || ('a' <= ch <= 'z') || ('A' <= ch <= 'Z')
  }

  predicate IsIdentChar(ch: char) {
    IsIdentStart(ch) || ('0' <= ch <= '9')
  }

  /** A text the identifier pattern matches as a whole. */
  predicate IsIdentifier(s: string) {
    s != [] && IsIdentStart(s[0]) && forall i :: 1 <= i < |s| ==> IsIdentChar(s[i])
  }

  /** The length of the longest run of identifier characters at the start of `s`. */
  function IdentCharsLength(s: string): (n: nat)
    ensures n <= |s|
    ensures forall i :: 0 <= i < n ==> IsIdentChar(s[i])
    ensures n < |s| ==> !IsIdentChar(s[n])
    decreases |s|
  {
    if s == [] || !IsIdentChar(s[0]) then 0 else 1 + IdentCharsLength(s[1..])
  }

  /** The length of the identifier the pattern matches at the start of `s` (greedy), or 0. */
  function IdentLength(s: string): (n: nat)
    ensures n <= |s|
    ensures n > 0 ==> IsIdentifier(s[..n]) && (n == |s| || !IsIdentChar(s[n]))
    ensures n == 0 ==> s == [] || !IsIdentStart(s[0])
  {
    if s == [] || !IsIdentStart(s[0]) then 0 else IdentCharsLength(s)
  }

  /** The text a named placeholder turns into: the formatted value, or the placeholder itself. */
  function Lookup(key: string, placeholder: string, m: map<string, Value>): string {
    if key in m then Fmt(m[key]) else placeholder
  }

  /** The replacement for the placeholder at the start of `t` and how many characters it spans. */
  function Placeholder(t: string, m: map<string, Value>): (p: (string, nat))
    requires t != [] && t[0] == '$'
    ensures 1 <= p.1 <= |t|
  {
    if |t| >= 2 && t[1] == '$' then ("$", 2)
    else
      var n := IdentLength(t[1..]);
      if n > 0 then (Lookup(t[1..1 + n], t[..1 + n], m), 1 + n)
      else if |t| >= 2 && t[1] == '{' then
        var k := IdentLength(t[2..]);
        if k > 0 && 2 + k < |t| && t[2 + k] == '}' then (Lookup(t[2..2 + k], t[..3 + k], m), 3 + k)
        else ("$", 1)
      else ("$", 1)
  }

  /** `Template(t).safe_substitute(m)`: text is copied, each placeholder replaced, scanning left to right. */
  function SafeSubstitute(t: string, m: map<string, Value>): string
    decreases |t|
  {
    if t == [] then ""
    else if t[0] != '$' then [t[0]] + SafeSubstitute(t[1..], m)
    else
      var p := Placeholder(t, m);
      p.0 + SafeSubstitute(t[p.1..], m)
  }

  /** Text before the first `$` is copied unchanged. */
  lemma {:induction false} SubstitutePlain(p: string, t: string, m: map<string, Value>)
    requires '$' !in p
    ensures SafeSubstitute(p + t, m) == p + SafeSubstitute(t, m)
    decreases |p|
  {
    if p == [] {
      assert p + t == t;
    } else {
      assert (p + t)[0] == p[0] && (p + t)[1..] == p[1..] + t;
      SubstitutePlain(p[1..], t, m);
      assert [p[0]] + (p[1..] + SafeSubstitute(t, m)) == p + SafeSubstitute(t, m);
    }
  }

  /** A template without `$` is returned unchanged, whatever the mapping. */
  lemma SubstituteNoDollar(t: string, m: map<string, Value>)
    requires '$' !in t
    ensures SafeSubstitute(t, m) == t
  {
    SubstitutePlain(t, "", m);
    assert t + "" == t;
  }

  /** The placeholder `${key}`. */
  function Braced(key: string): string {
    "${" + key + "}"
  }

  /** `${key}` becomes the value of `key` when the mapping has it, and stays verbatim when it does not. */
  lemma SubstituteBraced(key: string, rest: string, m: map<string, Value>)
    requires IsIdentifier(key)
    ensures SafeSubstitute(Braced(key) + rest, m) ==
            (if key in m then Fmt(m[key]) else Braced(key)) + SafeSubstitute(rest, m)
  {
    var t := "${" + key + "}" + rest;
    assert t[0] == '$' && t[1] == '{';
    assert t[2..] == key + ("}" + rest);
    IdentLengthOf(key, "}" + rest);
    var k := |key|;
    assert t[2 + k] == '}';
    assert t[2..2 + k] == key;
    assert t[..3 + k] == "${" + key + "}";
    assert t[3 + k..] == rest;
  }

  /** `$key` becomes the value of `key` when the mapping has it, and stays verbatim when it does not,
      provided the next character cannot extend the identifier. */
  lemma SubstituteNamed(key: string, rest: string, m: map<string, Value>)
    requires IsIdentifier(key)
    requires rest == [] || !IsIdentChar(rest[0])
    ensures SafeSubstitute("$" + key + rest, m) ==
            (if key in m then Fmt(m[key]) else "$" + key) + SafeSubstitute(rest, m)
  {
    var t := "$" + key + rest;
    assert t[1..] == key + rest;
    IdentLengthOf(key, rest);
    var k := |key|;
    assert t[1..1 + k] == key;
    assert t[..1 + k] == "$" + key;
    assert t[1 + k..] == rest;
  }

  /** `$$` is a literal dollar sign. */
  lemma SubstituteEscaped(rest: string, m: map<string, Value>)
    ensures SafeSubstitute("$$" + rest, m) == "$" + SafeSubstitute(rest, m)
  {
    assert ("$$" + rest)[2..] == rest;
  }

  /** An identifier followed by a character that cannot extend it is matched exactly. */
  lemma IdentLengthOf(key: string, s: string)
    requires IsIdentifier(key)
    requires s == [] || !IsIdentChar(s[0])
    ensures IdentLength(key + s) == |key|
  {
    IdentCharsOf(key, s);
  }

  lemma {:induction false} IdentCharsOf(key: string, s: string)
    requires forall i :: 0 <= i < |key| ==> IsIdentChar(key[i])
    requires s == [] || !IsIdentChar(s[0])
    ensures IdentCharsLength(key + s) == |key|
    decreases |key|
  {
    if key == [] {
      assert key + s == s;
    } else {
      assert (key + s)[0] == key[0] && (key + s)[1..] == key[1..] + s;
      IdentCharsOf(key[1..], s);
    }
  }

  /** A skeleton can be substituted in two parts split after a line break: no placeholder
      reaches across a line end. */
  lemma {:induction false} SubstituteSplit(p: string, t: string, m: map<string, Value>)
    requires p == [] || p[|p| - 1] == '\n'
    ensures SafeSubstitute(p + t, m) == SafeSubstitute(p, m) + SafeSubstitute(t, m)
    decreases |p|, 1
  {
    if p == [] {
      assert p + t == t;
    } else {
      SubstituteSplitLine(p, t, m);
    }
  }

  lemma {:induction false} SubstituteSplitLine(p: string, t: string, m: map<string, Value>)
    requires p != [] && p[|p| - 1] == '\n'
    ensures SafeSubstitute(p + t, m) == SafeSubstitute(p, m) + SafeSubstitute(t, m)
    decreases |p|, 0
  {
    var step := SplitStep(p, t, m);
    var r := p[step.1..];
    SubstituteSplit(r, t, m);
    Regroup(step.0, SafeSubstitute(r, m), SafeSubstitute(t, m));
  }

  /** One scanning step over `p + t` consumes the same characters of `p` and emits the same text
      as over `p` alone, and leaves a remainder of `p` that is empty or ends with a line break. */
  lemma SplitStep(p: string, t: string, m: map<string, Value>) returns (step: (string, nat))
    requires p != [] && p[|p| - 1] == '\n'
    ensures 1 <= step.1 <= |p|
    ensures p[step.1..] == [] || p[step.1..][|p[step.1..]| - 1] == '\n'
    ensures SafeSubstitute(p, m) == step.0 + SafeSubstitute(p[step.1..], m)
    ensures SafeSubstitute(p + t, m) == step.0 + SafeSubstitute(p[step.1..] + t, m)
  {
    assert (p + t)[0] == p[0];
    if p[0] != '$' {
      step := ([p[0]], 1);
    } else {
      PlaceholderLocal(p, t, m);
      step := Placeholder(p, m);
    }
    assert (p + t)[step.1..] == p[step.1..] + t;
  }

  /** A placeholder starting in a text that ends with a line break is decided within that text. */
  lemma PlaceholderLocal(p: string, t: string, m: map<string, Value>)
    requires p != [] && p[0] == '$' && p[|p| - 1] == '\n'
    ensures Placeholder(p + t, m) == Placeholder(p, m)
  {
    var u := p + t;
    assert |p| >= 2 && u[1] == p[1];
    assert u[1..] == p[1..] + t;
    IdentLocal(p[1..], t);
    var n := IdentLength(p[1..]);
    if n > 0 {
      assert u[1..1 + n] == p[1..1 + n] && u[..1 + n] == p[..1 + n];
    } else if p[1] == '{' {
      assert |p| >= 3;
      assert u[2..] == p[2..] + t;
      IdentLocal(p[2..], t);
      var k := IdentLength(p[2..]);
      if k > 0 {
        assert 2 + k < |p| && u[2 + k] == p[2 + k];
        assert u[2..2 + k] == p[2..2 + k] && u[..3 + k] == p[..3 + k];
      }
    }
  }

  /** The identifier at the start of a text that ends with a line break stops before its end. */
  lemma IdentLocal(s: string, t: string)
    requires s != [] && s[|s| - 1] == '\n'
    ensures IdentLength(s + t) == IdentLength(s) < |s|
  {
    assert (s + t)[0] == s[0];
    IdentCharsLocal(s, t);
  }

  lemma {:induction false} IdentCharsLocal(s: string, t: string)
    requires s != [] && s[|s| - 1] == '\n'
    ensures IdentCharsLength(s + t) == IdentCharsLength(s) < |s|
    decreases |s|
  {
    assert (s + t)[0] == s[0];
    if IsIdentChar(s[0]) {
      assert |s| >= 2;
      assert (s + t)[1..] == s[1..] + t;
      IdentCharsLocal(s[1..], t);
    }
  }

  /** A line `p + placeholder + rest` substituted after whole lines `pre`: the lines before it
      are substituted on their own, whatever the line turns into follows them. */
  lemma SubstituteAfterLines(pre: string, p: string, ph: string, rest: string, out: string, m: map<string, Value>)
    requires pre == [] || pre[|pre| - 1] == '\n'
    requires SafeSubstitute(p + ph + rest, m) == out + SafeSubstitute(rest, m)
    ensures SafeSubstitute(pre + p + ph + rest, m) == SafeSubstitute(pre, m) + out + SafeSubstitute(rest, m)
  {
    assert pre + p + ph + rest == pre + (p + ph + rest);
    SubstituteSplit(pre, p + ph + rest, m);
    Regroup(SafeSubstitute(pre, m), out, SafeSubstitute(rest, m));
  }
}
