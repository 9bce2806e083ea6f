/**
 `wildcardMatch` (packages/policy/src/policy-engine.ts, scope.ts and
 packages/integrations/intercept-gateway/src/match-replace.ts): a glob is escaped, its
 stars are expanded, and the result is compiled as a regular expression. The module
 gives the grammar and matching of the expressions that arise (sections 22.2.1 and
 22.2.2 of ECMA-262, without the u and m flags) and proves the compiler correct.
 */
module Globs {
  import opened Prelude

  predicate IsSyntaxCharacter(c: char) {
    c in "^$\\.*+?()[]{}|"
  }

  predicate IsLineTerminator(c: char) {
    c as int == 0x0A || c as int == 0x0D || c as int == 0x2028 || c as int == 0x2029
  }

  // ---------------------------------------------------------------- regular expressions

  datatype Atom = Char(c: char) | Dot

  datatype Term = Start | End | One(atom: Atom) | Many(atom: Atom)

  /** The atom at the front of a pattern, and the pattern after it. */
  function ReadAtom(src: string): (r: Option<(Atom, string)>)
    ensures r.Some? ==> |r.value.1| < |src|
  {
    if src == [] then None
    else if src[0] == '.' then Some((Dot, src[1..]))
    else if src[0] == '\\' then
      if |src| > 1 && IsSyntaxCharacter(src[1]) then Some((Char(src[1]), src[2..])) else None
    else if IsSyntaxCharacter(src[0]) then None
    else Some((Char(src[0]), src[1..]))
  }

  /** The terms of a pattern without groups, classes, alternatives and other quantifiers than `*`. */
  function ReadTerms(src: string): Option<seq<Term>>
    decreases |src|
  {
    if src == [] then Some([])
    else if src[0] == '^' || src[0] == '$' then
      match ReadTerms(src[1..])
      case None => None
      case Some(ts) => Some([if src[0] == '^' then Start else End] + ts)
    else
      match ReadAtom(src)
      case None => None
      case Some((atom, rest)) =>
        var starred := rest != [] && rest[0] == '*';
        match ReadTerms(if starred then rest[1..] else rest)
        case None => None
        case Some(ts) => Some([if starred then Many(atom) else One(atom)] + ts)
  }

  predicate Fits(atom: Atom, c: char) {
    match atom
    case Char(d) => c == d
    case Dot => !IsLineTerminator(c)
  }

  /** The terms match some part of `s` that starts at `i`. */
  predicate MatchAt(ts: seq<Term>, s: string, i: nat)
    requires i <= |s|
    decreases |ts|, |s| - i
  {
    if ts == [] then true
    else match ts[0]
      case Start => i == 0 && MatchAt(ts[1..], s, i)
      case End => i == |s| && MatchAt(ts[1..], s, i)
      case One(atom) => i < |s| && Fits(atom, s[i]) && MatchAt(ts[1..], s, i + 1)
      case Many(atom) =>
        || MatchAt(ts[1..], s, i)
        || (i < |s| && Fits(atom, s[i]) && MatchAt(ts, s, i + 1))
  }

  /** `new RegExp(src).test(s)`: the pattern may match at any position. */
  predicate Test(src: string, s: string) {
    var ts := ReadTerms(src);
    ts.Some? && exists i | 0 <= i <= |s| :: MatchAt(ts.value, s, i)
  }

  // ---------------------------------------------------------------- the compiler

  /** The characters the compiler escapes: every syntax character but `*`. */
  predicate IsMeta(c: char) { c in ".+?^${}()|[]\\" }

  /** `pattern.replace(/[.+?^${}()|[\]\\]/g, "\\$&")` */
  function EscapeMeta(pattern: string): string {
    if pattern == [] then []
    else (if IsMeta(pattern[0]) then "\\" + [pattern[0]] else [pattern[0]]) + EscapeMeta(pattern[1..])
  }

  /** `s.replaceAll("*", ".*")` */
  function ExpandStars(s: string): string {
    if s == [] then []
    else (if s[0] == '*' then ".*" else [s[0]]) + ExpandStars(s[1..])
  }

  predicate WildcardMatch(pattern: string, value: string) {
    Test("^" + ExpandStars(EscapeMeta(pattern)) + "$", value)
  }

  // ---------------------------------------------------------------- what a glob means

  /** Every star stands for a run of characters other than line terminators; the rest is literal. */
  ghost predicate GlobMatch(pattern: string, value: string)
    decreases |pattern|
  {
    if pattern == [] then value == []
    else if pattern[0] == '*' then
      exists k | 0 <= k <= |value| ::
        (forall j | 0 <= j < k :: !IsLineTerminator(value[j])) && GlobMatch(pattern[1..], value[k..])
    else value != [] && value[0] == pattern[0] && GlobMatch(pattern[1..], value[1..])
  }

  // ---------------------------------------------------------------- correctness

  function GlobTerm(c: char): Term {
    if c == '*' then Many(Dot) else One(Char(c))
  }

  function GlobTerms(pattern: string): seq<Term> {
    if pattern == [] then [End] else [GlobTerm(pattern[0])] + GlobTerms(pattern[1..])
  }

  function CompiledChar(c: char): string {
    if c == '*' then ".*" else if IsMeta(c) then "\\" + [c] else [c]
  }

  lemma ExpandFirst(c: char, rest: string)
    ensures ExpandStars([c] + rest) == (if c == '*' then ".*" else [c]) + ExpandStars(rest)
  {
    assert ([c] + rest)[1..] == rest;
  }

  lemma CompiledFirst(pattern: string)
    requires pattern != []
    ensures ExpandStars(EscapeMeta(pattern)) == CompiledChar(pattern[0]) + ExpandStars(EscapeMeta(pattern[1..]))
  {
    var c, rest := pattern[0], EscapeMeta(pattern[1..]);
    assert !IsMeta('*');
    hide IsMeta, ExpandStars;
    ExpandFirst(c, rest);
    if IsMeta(c) {
      ExpandFirst('\\', [c] + rest);
      Associate("\\", [c], rest);
      Associate("\\", [c], ExpandStars(rest));
    }
  }

  /** The compiled text is read back as one term for each character of the glob. */
  lemma {:induction false} ReadCompiled(pattern: string)
    ensures var src := ExpandStars(EscapeMeta(pattern)) + "$";
      src[0] != '*' && ReadTerms(src) == Some(GlobTerms(pattern))
  {
    if pattern == [] {
      assert ExpandStars(EscapeMeta(pattern)) + "$" == "$" && "$"[1..] == "";
      var none: seq<Term> := [];
      assert [End] + none == [End];
    } else {
      var c, rest := pattern[0], ExpandStars(EscapeMeta(pattern[1..])) + "$";
      CompiledFirst(pattern);
      ReadCompiled(pattern[1..]);
      var src := CompiledChar(c) + rest;
      assert ExpandStars(EscapeMeta(pattern)) + "$" == src;
      ReadCompiledChar(c, rest);
    }
  }

  lemma ReadCompiledChar(c: char, rest: string)
    requires rest != [] && rest[0] != '*' && ReadTerms(rest).Some?
    ensures var src := CompiledChar(c) + rest;
      src[0] != '*' && ReadTerms(src) == Some([GlobTerm(c)] + ReadTerms(rest).value)
  {
    var src := CompiledChar(c) + rest;
    if c == '*' {
      assert src[1..][0] == '*' && src[1..][1..] == rest;
    } else if IsMeta(c) {
      assert IsSyntaxCharacter(c);
      assert src[1] == c && src[2..] == rest;
    } else {
      assert !IsSyntaxCharacter(c);
      assert src[1..] == rest;
    }
  }

  lemma {:induction false} TermsMatchGlob(pattern: string, s: string, i: nat)
    requires i <= |s|
    ensures MatchAt(GlobTerms(pattern), s, i) <==> GlobMatch(pattern, s[i..])
    decreases |pattern|, |s| - i
  {
    var ts := GlobTerms(pattern);
    if pattern == [] {
      assert MatchAt(ts[1..], s, i);
    } else {
      assert ts[1..] == GlobTerms(pattern[1..]);
      TermsMatchGlob(pattern[1..], s, i);
      if pattern[0] != '*' {
        if i < |s| {
          TermsMatchGlob(pattern[1..], s, i + 1);
          assert s[i..][1..] == s[i + 1..];
        }
      } else {
        if i < |s| { TermsMatchGlob(pattern, s, i + 1); }
        StarStep(pattern, s, i);
      }
    }
  }

  /** A star either stops here or takes one character that is no line terminator. */
  lemma StarStep(pattern: string, s: string, i: nat)
    requires pattern != [] && pattern[0] == '*' && i <= |s|
    ensures GlobMatch(pattern, s[i..]) <==>
      GlobMatch(pattern[1..], s[i..]) || (i < |s| && !IsLineTerminator(s[i]) && GlobMatch(pattern, s[i + 1..]))
  {
    var t := s[i..];
    assert t[0..] == t;
    if GlobMatch(pattern, t) && !GlobMatch(pattern[1..], t) {
      var k :| 0 <= k <= |t| && (forall j | 0 <= j < k :: !IsLineTerminator(t[j])) && GlobMatch(pattern[1..], t[k..]);
      var u := s[i + 1..];
      assert t[k..] == u[k - 1..];
      assert forall j | 0 <= j < k - 1 :: u[j] == t[j + 1];
    }
    if i < |s| && !IsLineTerminator(s[i]) && GlobMatch(pattern, s[i + 1..]) {
      var u := s[i + 1..];
      var k :| 0 <= k <= |u| && (forall j | 0 <= j < k :: !IsLineTerminator(u[j])) && GlobMatch(pattern[1..], u[k..]);
      assert t[k + 1..] == u[k..];
      forall j | 0 <= j < k + 1 ensures !IsLineTerminator(t[j]) {
        if j > 0 { assert t[j] == u[j - 1]; }
      }
    }
  }

  /** The compiled expression accepts exactly what the glob means. */
  lemma WildcardMatchIsGlob(pattern: string, value: string)
    ensures WildcardMatch(pattern, value) <==> GlobMatch(pattern, value)
  {
    var body := ExpandStars(EscapeMeta(pattern)) + "$";
    var src := "^" + ExpandStars(EscapeMeta(pattern)) + "$";
    assert src == "^" + body && src[1..] == body;
    ReadCompiled(pattern);
    var ts := [Start] + GlobTerms(pattern);
    assert ts[1..] == GlobTerms(pattern);
    assert ReadTerms(src) == Some(ts);
    forall i: nat | i <= |value| ensures MatchAt(ts, value, i) <==> i == 0 && GlobMatch(pattern, value) {
      TermsMatchGlob(pattern, value, i);
      assert value[0..] == value;
    }
    if GlobMatch(pattern, value) { assert MatchAt(ts, value, 0); }
  }

  lemma {:induction false} GlobMatchesItself(s: string)
    ensures GlobMatch(s, s)
  {
    if s != [] {
      GlobMatchesItself(s[1..]);
      if s[0] == '*' { assert s[1..] == s[1..][0..]; }
    }
  }

  /** Every string, used as a pattern, matches itself. */
  lemma MatchesItself(s: string)
    ensures WildcardMatch(s, s)
  {
    GlobMatchesItself(s);
    WildcardMatchIsGlob(s, s);
  }

  /** A literal prefix followed by one star matches every continuation without line terminators. */
  lemma {:induction false} PrefixStar(prefix: string, rest: string)
    requires '*' !in prefix && forall j | 0 <= j < |rest| :: !IsLineTerminator(rest[j])
    ensures WildcardMatch(prefix + "*", prefix + rest)
  {
    GlobPrefixStar(prefix, rest);
    WildcardMatchIsGlob(prefix + "*", prefix + rest);
  }

  lemma {:induction false} GlobPrefixStar(prefix: string, rest: string)
    requires '*' !in prefix && forall j | 0 <= j < |rest| :: !IsLineTerminator(rest[j])
    ensures GlobMatch(prefix + "*", prefix + rest)
  {
    var p, v := prefix + "*", prefix + rest;
    if prefix == [] {
      assert p == "*" && v == rest;
      assert v[|v|..] == [] && p[1..] == [];
      assert GlobMatch(p[1..], v[|v|..]);
    } else {
      assert p[1..] == prefix[1..] + "*" && v[1..] == prefix[1..] + rest;
      GlobPrefixStar(prefix[1..], rest);
    }
  }
}
