/** EnvExpander.expand: one left-to-right gsub of the pattern
      \$([a-zA-Z_]+[a-zA-Z0-9_]*)|\$\{([a-zA-Z_]+[a-zA-Z0-9_]*)\}
    over the message, replacing each match by ENV[name] and, when the name is
    unset, by the matched text itself. */
module EnvExpansion {
  import opened Outcomes
  import opened ResourceData

  /** The environment: variable name to value. An unset name is absent. */
  type Env = map<string, string>

  predicate IsNameStart(c: char) {
    ('a' <= c <= 'z') || ('A' <= c <= 'Z') || c == '_'
  }

  predicate IsNameChar(c: char) {
    IsNameStart(c) || ('0' <= c <= '9')
  }

  /** Length of the longest prefix of `s` made of name characters (the greedy
      `[a-zA-Z0-9_]*` part of the pattern). */
  function NameCharsLen(s: string): (n: nat)
    ensures n <= |s|
    ensures forall i :: 0 <= i < n ==> IsNameChar(s[i])
    ensures n < |s| ==> !IsNameChar(s[n])
  {
    if |s| == 0 || !IsNameChar(s[0]) then 0 else 1 + NameCharsLen(s[1..])
  }

  /** A word of the language [a-zA-Z_][a-zA-Z0-9_]* */
  predicate IsName(s: string) {
    |s| > 0 && IsNameStart(s[0]) && forall i :: 1 <= i < |s| ==> IsNameChar(s[i])
  }

  /** NameCharsLen stops exactly at the end of a run of name characters. */
  lemma {:induction false} NameCharsLenOf(x: string, rest: string)
    requires forall i :: 0 <= i < |x| ==> IsNameChar(x[i])
    requires rest == [] || !IsNameChar(rest[0])
    ensures NameCharsLen(x + rest) == |x|
  {
    if x != [] {
      assert (x + rest)[1..] == x[1..] + rest;
      NameCharsLenOf(x[1..], rest);
    } else {
      assert x + rest == rest;
    }
  }

  /** One match of the pattern: `$name` (bare) or `${name}` (braced). */
  datatype Token = Token(name: string, braced: bool)

  /** The reference `$name`. */
  function Bare(name: string): string {
    "$" + name
  }

  /** The reference `${name}`. */
  function Braced(name: string): string {
    "${" + name + "}"
  }

  /** The text a token was matched from; this is `$&` in the source. */
  function Text(t: Token): string {
    if t.braced then Braced(t.name) else Bare(t.name)
  }

  /** True when the text of `t` is a prefix of `s`. */
  predicate StartsWith(s: string, t: Token) {
    |Text(t)| <= |s| && s[..|Text(t)|] == Text(t)
  }

  /** The match of the pattern anchored at the start of `s`, if there is one:
      the bare alternative is tried first and takes the longest name. */
  function MatchAt(s: string): (m: Option<Token>)
    ensures m.Some? ==> IsName(m.value.name) && StartsWith(s, m.value)
    ensures m.Some? && !m.value.braced ==>
      |Text(m.value)| == |s| || !IsNameChar(s[|Text(m.value)|])
  {
    if |s| >= 2 && s[0] == '$' && IsNameStart(s[1]) then
      var n := 1 + NameCharsLen(s[2..]);
      var t := Token(s[1..1 + n], false);
      assert forall i :: 1 <= i < n ==> t.name[i] == s[2..][i - 1];
      assert Text(t) == s[..1 + n];
      Some(t)
    else if |s| >= 3 && s[0] == '$' && s[1] == '{' && IsNameStart(s[2])
      && 3 + NameCharsLen(s[3..]) < |s| && s[3 + NameCharsLen(s[3..])] == '}' then
      var n := 1 + NameCharsLen(s[3..]);
      var t := Token(s[2..2 + n], true);
      assert forall i :: 1 <= i < n ==> t.name[i] == s[3..][i - 1];
      assert Text(t) == s[..3 + n];
      Some(t)
    else
      None
  }

  /** Every braced token and every bare token whose name cannot be extended
      is exactly what MatchAt finds at the start of `s`; together with the
      ensures of MatchAt, no `$` that begins a token is ever skipped. */
  lemma MatchComplete(s: string, t: Token)
    requires IsName(t.name) && StartsWith(s, t)
    requires !t.braced ==> |Text(t)| == |s| || !IsNameChar(s[|Text(t)|])
    ensures MatchAt(s) == Some(t)
  {
    var k := |t.name|;
    if t.braced {
      assert s[..k + 3] == Braced(t.name);
      assert s[0] == '$' && s[1] == '{' && s[2] == t.name[0] && s[k + 2] == '}';
      assert s[3..] == t.name[1..] + s[k + 2..];
      NameCharsLenOf(t.name[1..], s[k + 2..]);
      assert s[2..k + 2] == t.name;
    } else {
      assert s[..k + 1] == Bare(t.name);
      assert s[0] == '$' && s[1] == t.name[0];
      assert s[2..] == t.name[1..] + s[k + 1..];
      NameCharsLenOf(t.name[1..], s[k + 1..]);
      assert s[1..k + 1] == t.name;
    }
  }

  /** No fallback to a shorter name: whenever `$name` starts `s`, the scan
      matches a bare token whose name extends `name`. */
  lemma LongestName(s: string, name: string)
    requires IsName(name) && StartsWith(s, Token(name, false))
    ensures MatchAt(s).Some? && !MatchAt(s).value.braced
    ensures |name| <= |MatchAt(s).value.name|
    ensures MatchAt(s).value.name[..|name|] == name
  {
    assert s[..|name| + 1] == Bare(name);
    assert s[0] == '$' && s[1] == name[0];
    var rest := s[2..];
    forall i | 0 <= i < |name| - 1
      ensures IsNameChar(rest[i])
    {
      assert rest[i] == s[..|name| + 1][i + 2] == name[i + 1];
    }
    var n := NameCharsLen(rest);
    assert |name| - 1 <= n;
    assert MatchAt(s).value.name == s[1..2 + n];
    assert s[1..2 + n][..|name|] == s[1..|name| + 1] == name;
  }

  /** What replaces a match: the value when the name is set (possibly empty),
      the matched text verbatim otherwise (`ENV[$1 || $2] || $&`). */
  function Replacement(env: Env, t: Token): string {
    if t.name in env then env[t.name] else Text(t)
  }

  /** EnvExpander.expand. A match is replaced and scanning resumes after it, so
      replacement text is never scanned again; elsewhere one character is
      copied and scanning moves on. */
  function Expand(s: string, env: Env): string
    decreases |s|
  {
    if s == [] then []
    else
      match MatchAt(s)
      case Some(t) => Replacement(env, t) + Expand(s[|Text(t)|..], env)
      case None => [s[0]] + Expand(s[1..], env)
  }

  /** The names of all tokens the scan matches in `s`. */
  function Refs(s: string): set<string>
    decreases |s|
  {
    if s == [] then {}
    else
      match MatchAt(s)
      case Some(t) => {t.name} + Refs(s[|Text(t)|..])
      case None => Refs(s[1..])
  }

  /** EnvExpander.expand on whatever value the message is: a String is
      scanned by `gsub`; nil or a boolean has no `gsub`, so NoMethodError. */
  function ExpandValue(message: Value, env: Env): (r: Result<string>)
    ensures r.Success? <==> message.Str?
    ensures r.Success? ==> r.value == Expand(message.s, env)
    ensures r.Failure? ==> r.error == NoMethodError("gsub")
  {
    if message.Str? then Success(Expand(message.s, env)) else Failure(NoMethodError("gsub"))
  }

  /** A character other than `$` begins no match and is copied. */
  lemma ExpandPlainChar(s: string, env: Env)
    requires s != [] && s[0] != '$'
    ensures Expand(s, env) == [s[0]] + Expand(s[1..], env)
  {
    assert MatchAt(s).None?;
  }

  /** Text without `$` is copied unchanged and does not disturb the scan of
      what follows it. */
  lemma {:induction false} ExpandLiteralPrefix(a: string, b: string, env: Env)
    requires '$' !in a
    ensures Expand(a + b, env) == a + Expand(b, env)
    decreases |a|
  {
    if a != [] {
      var s := a + b;
      assert s[0] == a[0] && s[1..] == a[1..] + b;
      ExpandPlainChar(s, env);
      ExpandLiteralPrefix(a[1..], b, env);
      assert a == [a[0]] + a[1..];
    } else {
      assert a + b == b;
    }
  }

  /** `$name` followed by a non-name character (or by nothing) is replaced as a
      whole, and scanning resumes right after it. */
  lemma ExpandBare(name: string, rest: string, env: Env)
    requires IsName(name)
    requires rest == [] || !IsNameChar(rest[0])
    ensures Expand(Bare(name) + rest, env) == Replacement(env, Token(name, false)) + Expand(rest, env)
  {
    var s := Bare(name) + rest;
    var t := Token(name, false);
    assert s[..|Text(t)|] == Text(t);
    MatchComplete(s, t);
    assert s[|Text(t)|..] == rest;
  }

  /** `${name}` is replaced as a whole, whatever follows it. */
  lemma ExpandBraced(name: string, rest: string, env: Env)
    requires IsName(name)
    ensures Expand(Braced(name) + rest, env) == Replacement(env, Token(name, true)) + Expand(rest, env)
  {
    var s := Braced(name) + rest;
    var t := Token(name, true);
    assert s[..|Text(t)|] == Text(t);
    MatchComplete(s, t);
    assert s[|Text(t)|..] == rest;
  }

  /** A `$` that begins no token (not followed by a name, nor by `{name}`) is
      copied verbatim and scanning continues with the next character. */
  lemma ExpandStrayDollar(rest: string, env: Env)
    requires forall t: Token :: IsName(t.name) ==> !StartsWith("$" + rest, t)
    ensures Expand("$" + rest, env) == "$" + Expand(rest, env)
  {
    assert ("$" + rest)[1..] == rest;
  }

  /** A string is the concatenation of its matched token and what follows. */
  lemma SplitAtMatch(s: string)
    requires MatchAt(s).Some?
    ensures s == Text(MatchAt(s).value) + s[|Text(MatchAt(s).value)|..]
  {
  }

  /** References to unset names are left exactly as written, braces included:
      the expansion is the identity when no referenced name is set. */
  lemma {:induction false} ExpandUnset(s: string, env: Env)
    requires forall n :: n in Refs(s) ==> n !in env
    ensures Expand(s, env) == s
    decreases |s|
  {
    if s != [] {
      match MatchAt(s)
      case Some(t) =>
        SplitAtMatch(s);
        ExpandUnset(s[|Text(t)|..], env);
      case None =>
        ExpandUnset(s[1..], env);
        assert s == [s[0]] + s[1..];
    }
  }

  /** Against an empty environment the message is unchanged. */
  lemma ExpandEmptyEnv(s: string)
    ensures Expand(s, map[]) == s
  {
    ExpandUnset(s, map[]);
  }

  /** The expansion reads the environment only at the names the scan matches. */
  lemma {:induction false} ExpandAgree(s: string, e1: Env, e2: Env)
    requires forall n :: n in Refs(s) ==> (n in e1 <==> n in e2)
    requires forall n :: n in Refs(s) && n in e1 ==> e1[n] == e2[n]
    ensures Expand(s, e1) == Expand(s, e2)
    decreases |s|
  {
    if s != [] {
      match MatchAt(s)
      case Some(t) =>
        ExpandAgree(s[|Text(t)|..], e1, e2);
      case None =>
        ExpandAgree(s[1..], e1, e2);
    }
  }

  /** A message that does not start with `$` keeps its first character. */
  lemma ExpandKeepsFirst(s: string, env: Env)
    requires s != [] && s[0] != '$'
    ensures Expand(s, env) != [] && Expand(s, env)[0] == s[0]
  {
  }

  /** Text without `$` expands to itself. */
  lemma ExpandNoDollar(s: string, env: Env)
    requires '$' !in s
    ensures Expand(s, env) == s
  {
    ExpandLiteralPrefix(s, [], env);
    assert s + [] == s;
  }

  /** One reference between a literal prefix and the rest of the message. */
  lemma ExpandAround(pre: string, t: Token, post: string, env: Env)
    requires '$' !in pre && IsName(t.name)
    requires !t.braced ==> post == [] || !IsNameChar(post[0])
    ensures Expand(pre + (Text(t) + post), env) == pre + (Replacement(env, t) + Expand(post, env))
  {
    if t.braced {
      ExpandBraced(t.name, post, env);
    } else {
      ExpandBare(t.name, post, env);
    }
    ExpandLiteralPrefix(pre, Text(t) + post, env);
  }

  /** A braced reference at the end of the text. */
  lemma ExpandLastBraced(e: string, env: Env)
    requires IsName(e)
    ensures Expand(Braced(e), env) == Replacement(env, Token(e, true))
  {
    ExpandBraced(e, [], env);
    assert Braced(e) + [] == Braced(e);
  }

  /** A bare reference ended by literal text without `$`. */
  lemma ExpandBareSegment(x: string, l: string, rest: string, env: Env)
    requires IsName(x) && l != [] && '$' !in l && !IsNameChar(l[0])
    ensures Expand(Bare(x) + (l + rest), env) == Replacement(env, Token(x, false)) + (l + Expand(rest, env))
  {
    ExpandBare(x, l + rest, env);
    ExpandLiteralPrefix(l, rest, env);
  }

  /** Bare-name expansion over three references joined by a separator. */
  lemma ExpandThreeBare(x: string, y: string, z: string, sep: string, env: Env)
    requires IsName(x) && IsName(y) && IsName(z)
    requires sep != [] && '$' !in sep && !IsNameChar(sep[0])
    ensures Expand(Bare(x) + (sep + (Bare(y) + (sep + Bare(z)))), env)
         == Replacement(env, Token(x, false)) +
            (sep + (Replacement(env, Token(y, false)) + (sep + Replacement(env, Token(z, false)))))
  {
    ExpandLastBare(z, env);
    ExpandBareSegment(y, sep, Bare(z), env);
    ExpandBareSegment(x, sep, Bare(y) + (sep + Bare(z)), env);
  }

  /** A bare reference at the end of the text. */
  lemma ExpandLastBare(z: string, env: Env)
    requires IsName(z)
    ensures Expand(Bare(z), env) == Replacement(env, Token(z, false))
  {
    ExpandBare(z, [], env);
    assert Bare(z) + [] == Bare(z);
  }

  // Cases from the resource's unit tests, for any variable name and value.

  /** "foo $X $X bar" with X set expands both references. */
  lemma ExpandBareTwice(x: string, v: string)
    requires IsName(x)
    ensures Expand("foo " + (Bare(x) + (" " + (Bare(x) + " bar"))), map[x := v])
         == "foo " + (v + (" " + (v + " bar")))
  {
    var env, t := map[x := v], Token(x, false);
    ExpandNoDollar(" bar", env);
    ExpandAround(" ", t, " bar", env);
    ExpandAround("foo ", t, " " + (Bare(x) + " bar"), env);
  }

  /** "foo ${X} ${X} bar" with X set expands both references. */
  lemma ExpandBracedTwice(x: string, v: string)
    requires IsName(x)
    ensures Expand("foo " + (Braced(x) + (" " + (Braced(x) + " bar"))), map[x := v])
         == "foo " + (v + (" " + (v + " bar")))
  {
    var env, t := map[x := v], Token(x, true);
    ExpandNoDollar(" bar", env);
    ExpandAround(" ", t, " bar", env);
    ExpandAround("foo ", t, " " + (Braced(x) + " bar"), env);
  }

  /** "foo $X ${X} bar": both syntaxes in one message. */
  lemma ExpandMixedSyntax(x: string, v: string)
    requires IsName(x)
    ensures Expand("foo " + (Bare(x) + (" " + (Braced(x) + " bar"))), map[x := v])
         == "foo " + (v + (" " + (v + " bar")))
  {
    var env := map[x := v];
    ExpandNoDollar(" bar", env);
    ExpandAround(" ", Token(x, true), " bar", env);
    ExpandAround("foo ", Token(x, false), " " + (Braced(x) + " bar"), env);
  }

  /** "foo ${X} bar" and "foo $X bar" with X unset are left as written. */
  lemma ExpandUnsetReference(x: string, env: Env)
    requires IsName(x) && x !in env
    ensures Expand("foo " + (Braced(x) + " bar"), env) == "foo " + (Braced(x) + " bar")
    ensures Expand("foo " + (Bare(x) + " bar"), env) == "foo " + (Bare(x) + " bar")
  {
    ExpandNoDollar(" bar", env);
    ExpandAround("foo ", Token(x, true), " bar", env);
    ExpandAround("foo ", Token(x, false), " bar", env);
  }

  /** A variable set to the empty string is replaced by the empty string, not
      left as written: only an unset variable falls back to `$&`. */
  lemma ExpandEmptyValue(x: string)
    requires IsName(x)
    ensures Expand("foo " + (Braced(x) + " bar"), map[x := ""]) == "foo " + ("" + " bar")
  {
    var env := map[x := ""];
    ExpandNoDollar(" bar", env);
    ExpandAround("foo ", Token(x, true), " bar", env);
  }

  /** A value is inserted as it is: `$y` inside the value of `x` is not
      expanded again, even though `y` is set. */
  lemma ExpandNotRescanned(x: string, y: string, w: string)
    requires IsName(x) && IsName(y) && x != y
    ensures Expand(Bare(x), map[x := Bare(y), y := w]) == Bare(y)
  {
    var env := map[x := Bare(y), y := w];
    ExpandAround([], Token(x, false), [], env);
    assert [] + (Bare(x) + []) == Bare(x);
  }

  /** No fallback to a shorter prefix of the name: with only `x` set,
      `$xy` (xy a longer name) stays as written. */
  lemma ExpandNoShorterName(x: string, y: string, v: string)
    requires IsName(x) && IsName(x + y) && y != []
    ensures Expand(Bare(x + y), map[x := v]) == Bare(x + y)
  {
    assert x + y != x;
    ExpandAround([], Token(x + y, false), [], map[x := v]);
    assert [] + (Bare(x + y) + []) == Bare(x + y);
  }
}
