/**
 * The two JavaScript string operations the core relies on:
 * `String.prototype.includes` (all endpoint matching) and
 * `String.prototype.replaceAll` with a string pattern (the login-response
 * rewrite), including the `$`-patterns that `replaceAll` expands in its
 * replacement string.
 */
module Text {

  /** `sub` occurs in `s` starting at index `i`. */
  predicate MatchesAt(s: string, sub: string, i: nat) {
    i + |sub| <= |s| && s[i..i + |sub|] == sub
  }

  /** `s.includes(sub)`: some index of `s` starts an occurrence of `sub`. */
  predicate Contains(s: string, sub: string) {
    exists i: nat | i <= |s| :: MatchesAt(s, sub, i)
  }

  /** A key contained in the middle of a string is found there, whatever surrounds it. */
  lemma ContainsInfix(prefix: string, sub: string, suffix: string)
    ensures Contains(prefix + sub + suffix, sub)
  {
    var s := prefix + sub + suffix;
    assert s[|prefix|..|prefix| + |sub|] == sub;
    assert MatchesAt(s, sub, |prefix|);
  }

  /** The empty string is contained in every string (`"abc".includes("")` is true). */
  lemma ContainsEmpty(s: string)
    ensures Contains(s, "")
  {
    assert MatchesAt(s, "", 0);
  }

  /** A string is never contained in a strictly shorter one. */
  lemma NotContainedInShorter(s: string, sub: string)
    requires |s| < |sub|
    ensures !Contains(s, sub)
  {
  }

  predicate NoDollar(template: string) {
    '$' !in template
  }

  /**
   * The replacement text for one match, as `replaceAll` computes it for a
   * string pattern: `$$` gives `$`, `$&` the matched text, `` $` `` the text
   * before the match and `$'` the text after it; every other character,
   * including a `$` followed by anything else, is copied as is (with a string
   * pattern there are no capture groups, so `$1` and `$<` stay literal).
   */
  function Substitution(template: string, s: string, pos: nat, matched: string): (r: string)
    requires pos <= |s|
    ensures NoDollar(template) ==> r == template
    decreases |template|
  {
    if |template| >= 2 && template[0] == '$' && template[1] == '$' then
      "$" + Substitution(template[2..], s, pos, matched)
    else if |template| >= 2 && template[0] == '$' && template[1] == '&' then
      matched + Substitution(template[2..], s, pos, matched)
    else if |template| >= 2 && template[0] == '$' && template[1] == '`' then
      s[..pos] + Substitution(template[2..], s, pos, matched)
    else if |template| >= 2 && template[0] == '$' && template[1] == '\'' then
      var tail := if pos + |matched| <= |s| then pos + |matched| else |s|;
      s[tail..] + Substitution(template[2..], s, pos, matched)
    else if template == [] then
      []
    else
      [template[0]] + Substitution(template[1..], s, pos, matched)
  }

  /**
   * `s.replaceAll(pattern, template)`: the occurrences of `pattern` are found
   * left to right, each search resuming after the previous match, and each
   * is replaced by its `Substitution`. An empty pattern matches at every
   * position, before each character and at the end.
   */
  function ReplaceAll(s: string, pattern: string, template: string): (r: string)
    ensures pattern != [] && !Contains(s, pattern) ==> r == s
  {
    NoMatchReplacesNothing(s, pattern, template);
    ReplaceRest(s, s, pattern, template)
  }

  /** A text with no occurrence of a non-empty pattern comes out of `replaceAll` as it went in. */
  lemma NoMatchReplacesNothing(s: string, pattern: string, template: string)
    ensures pattern != [] && !Contains(s, pattern) ==> ReplaceRest(s, s, pattern, template) == s
  {
    if pattern != [] && !Contains(s, pattern) {
      NoMatchIsCopied(s, s, pattern, template);
    }
  }

  /**
   * The result of `replaceAll` on `whole` for its unsearched suffix `rest`;
   * the current position is `|whole| - |rest|`, which `$``  and `$'` need.
   */
  function ReplaceRest(whole: string, rest: string, pattern: string, template: string): string
    requires |rest| <= |whole|
    decreases |rest|
  {
    if pattern == [] then ReplaceEmpty(whole, rest, template)
    else if |rest| < |pattern| then rest
    else if rest[..|pattern|] == pattern then
      Substitution(template, whole, |whole| - |rest|, pattern) + ReplaceRest(whole, rest[|pattern|..], pattern, template)
    else [rest[0]] + ReplaceRest(whole, rest[1..], pattern, template)
  }

  /** An empty pattern matches before every character of `rest` and at its end. */
  function ReplaceEmpty(whole: string, rest: string, template: string): string
    requires |rest| <= |whole|
    decreases |rest|
  {
    Substitution(template, whole, |whole| - |rest|, [])
    + if rest == [] then [] else [rest[0]] + ReplaceEmpty(whole, rest[1..], template)
  }

  /** An occurrence at the start of `rest` is substituted and the search resumes after it. */
  lemma ReplaceRestMatch(whole: string, rest: string, pattern: string, template: string)
    requires |rest| <= |whole| && pattern != [] && |pattern| <= |rest| && rest[..|pattern|] == pattern
    ensures ReplaceRest(whole, rest, pattern, template)
            == Substitution(template, whole, |whole| - |rest|, pattern)
               + ReplaceRest(whole, rest[|pattern|..], pattern, template)
  {
  }

  /** No occurrence at the start of `rest`: its first character is copied. */
  lemma ReplaceRestSkip(whole: string, rest: string, pattern: string, template: string)
    requires |rest| <= |whole| && pattern != [] && |pattern| <= |rest| && rest[..|pattern|] != pattern
    ensures ReplaceRest(whole, rest, pattern, template) == [rest[0]] + ReplaceRest(whole, rest[1..], pattern, template)
  {
  }

  /** Where no occurrence starts in `prefix + x` before `x`, the text up to `x` is copied as is. */
  lemma {:induction false} SkipUnmatched(whole: string, prefix: string, x: string, pattern: string, template: string)
    requires |prefix + x| <= |whole| && pattern != []
    requires forall j: nat | j < |prefix| :: !MatchesAt(prefix + x, pattern, j)
    ensures ReplaceRest(whole, prefix + x, pattern, template) == prefix + ReplaceRest(whole, x, pattern, template)
    decreases |prefix|
  {
    var r := prefix + x;
    if prefix == [] {
      assert r == x;
    } else if |r| < |pattern| {
      assert ReplaceRest(whole, r, pattern, template) == r;
      assert ReplaceRest(whole, x, pattern, template) == x;
    } else {
      assert !MatchesAt(r, pattern, 0);
      ReplaceRestSkip(whole, r, pattern, template);
      NoMatchInTail(prefix, x, pattern);
      SkipUnmatched(whole, prefix[1..], x, pattern, template);
      assert r[1..] == prefix[1..] + x;
      calc {
        ReplaceRest(whole, r, pattern, template);
        [r[0]] + ReplaceRest(whole, prefix[1..] + x, pattern, template);
        [prefix[0]] + (prefix[1..] + ReplaceRest(whole, x, pattern, template));
        ([prefix[0]] + prefix[1..]) + ReplaceRest(whole, x, pattern, template);
        { assert [prefix[0]] + prefix[1..] == prefix; }
        prefix + ReplaceRest(whole, x, pattern, template);
      }
    }
  }

  /** Dropping the first character keeps the absence of occurrences in the shorter prefix. */
  lemma NoMatchInTail(prefix: string, x: string, pattern: string)
    requires prefix != []
    requires forall j: nat | j < |prefix| :: !MatchesAt(prefix + x, pattern, j)
    ensures forall j: nat | j < |prefix[1..]| :: !MatchesAt(prefix[1..] + x, pattern, j)
  {
    var r := prefix + x;
    assert r[1..] == prefix[1..] + x;
    forall j: nat | j < |prefix[1..]|
      ensures !MatchesAt(prefix[1..] + x, pattern, j)
    {
      assert !MatchesAt(r, pattern, j + 1);
      if j + |pattern| <= |r[1..]| {
        assert r[1..][j..j + |pattern|] == r[j + 1..j + 1 + |pattern|];
      }
    }
  }

  /** A text without an occurrence of a non-empty pattern is copied unchanged. */
  lemma NoMatchIsCopied(whole: string, rest: string, pattern: string, template: string)
    requires |rest| <= |whole| && pattern != [] && !Contains(rest, pattern)
    ensures ReplaceRest(whole, rest, pattern, template) == rest
  {
    assert rest + [] == rest;
    forall j: nat | j < |rest|
      ensures !MatchesAt(rest + [], pattern, j)
    {
      assert !MatchesAt(rest, pattern, j);
    }
    SkipUnmatched(whole, rest, [], pattern, template);
  }

  /** With a `$`-free replacement, the whole string does not matter, only the part still to search. */
  lemma {:induction false} WholeIrrelevant(w1: string, w2: string, rest: string, pattern: string, template: string)
    requires |rest| <= |w1| && |rest| <= |w2| && pattern != [] && NoDollar(template)
    ensures ReplaceRest(w1, rest, pattern, template) == ReplaceRest(w2, rest, pattern, template)
    decreases |rest|
  {
    if |rest| < |pattern| {
    } else if rest[..|pattern|] == pattern {
      WholeIrrelevant(w1, w2, rest[|pattern|..], pattern, template);
    } else {
      WholeIrrelevant(w1, w2, rest[1..], pattern, template);
    }
  }

  /**
   * The leftmost occurrence is replaced and the search resumes right after
   * it: when `pattern` first occurs in `prefix + pattern + rest` at the end of
   * `prefix`, the result is `prefix`, then the replacement, then the result
   * for `rest` alone.
   */
  lemma ReplaceFirstOccurrence(prefix: string, pattern: string, rest: string, template: string)
    requires pattern != [] && NoDollar(template)
    requires forall j: nat | j < |prefix| :: !MatchesAt(prefix + pattern + rest, pattern, j)
    ensures ReplaceAll(prefix + pattern + rest, pattern, template)
            == prefix + template + ReplaceAll(rest, pattern, template)
  {
    var s := prefix + pattern + rest;
    var x := pattern + rest;
    assert s == prefix + x;
    SkipUnmatched(s, prefix, x, pattern, template);
    assert x[..|pattern|] == pattern && x[|pattern|..] == rest;
    ReplaceRestMatch(s, x, pattern, template);
    WholeIrrelevant(s, rest, rest, pattern, template);
    calc {
      ReplaceAll(s, pattern, template);
      ReplaceRest(s, s, pattern, template);
      prefix + ReplaceRest(s, x, pattern, template);
      prefix + (template + ReplaceRest(s, rest, pattern, template));
      prefix + (template + ReplaceAll(rest, pattern, template));
      prefix + template + ReplaceAll(rest, pattern, template);
    }
  }

  /** `"$&"` stands for the matched text. */
  lemma MatchTemplate(whole: string, pos: nat, matched: string)
    requires pos <= |whole|
    ensures Substitution("$&", whole, pos, matched) == matched
  {
    assert "$&"[2..] == [];
  }

  /** Replacing every occurrence by the matched text itself (`"$&"`) changes nothing. */
  lemma {:induction false} ReplaceByMatchIsIdentity(whole: string, rest: string, pattern: string)
    requires |rest| <= |whole| && pattern != []
    ensures ReplaceRest(whole, rest, pattern, "$&") == rest
    decreases |rest|
  {
    var n := |pattern|;
    if |rest| < n {
    } else if rest[..n] == pattern {
      ReplaceRestMatch(whole, rest, pattern, "$&");
      MatchTemplate(whole, |whole| - |rest|, pattern);
      ReplaceByMatchIsIdentity(whole, rest[n..], pattern);
      calc {
        ReplaceRest(whole, rest, pattern, "$&");
        pattern + ReplaceRest(whole, rest[n..], pattern, "$&");
        rest[..n] + rest[n..];
        { assert rest[..n] + rest[n..] == rest; }
        rest;
      }
    } else {
      ReplaceRestSkip(whole, rest, pattern, "$&");
      ReplaceByMatchIsIdentity(whole, rest[1..], pattern);
      assert [rest[0]] + rest[1..] == rest;
    }
  }

  /** Replacing a `$`-free pattern by itself changes nothing. */
  lemma {:induction false} ReplaceByPatternIsIdentity(whole: string, rest: string, pattern: string)
    requires |rest| <= |whole| && pattern != [] && NoDollar(pattern)
    ensures ReplaceRest(whole, rest, pattern, pattern) == rest
    decreases |rest|
  {
    var n := |pattern|;
    if |rest| < n {
    } else if rest[..n] == pattern {
      ReplaceRestMatch(whole, rest, pattern, pattern);
      ReplaceByPatternIsIdentity(whole, rest[n..], pattern);
      assert rest[..n] + rest[n..] == rest;
    } else {
      ReplaceRestSkip(whole, rest, pattern, pattern);
      ReplaceByPatternIsIdentity(whole, rest[1..], pattern);
      assert [rest[0]] + rest[1..] == rest;
    }
  }

  /** Number of occurrences that `replaceAll` replaces (non-overlapping, leftmost first). */
  function Occurrences(s: string, pattern: string): nat
    requires pattern != []
    decreases |s|
  {
    if |s| < |pattern| then 0
    else if s[..|pattern|] == pattern then 1 + Occurrences(s[|pattern|..], pattern)
    else Occurrences(s[1..], pattern)
  }

  /** Proof step for `ReplaceLength`: one more occurrence adds one more `d`. */
  lemma MulSucc(n: int, d: int)
    ensures (1 + n) * d == d + n * d
  {
  }

  /** Each replaced occurrence changes the length by the replacement's length minus the pattern's. */
  lemma {:induction false} ReplaceLength(whole: string, rest: string, pattern: string, template: string)
    requires |rest| <= |whole| && pattern != [] && NoDollar(template)
    ensures |ReplaceRest(whole, rest, pattern, template)|
            == |rest| + Occurrences(rest, pattern) * (|template| - |pattern|)
    decreases |rest|
  {
    var n := |pattern|;
    var d := |template| - n;
    if |rest| < n {
    } else if rest[..n] == pattern {
      ReplaceRestMatch(whole, rest, pattern, template);
      ReplaceLength(whole, rest[n..], pattern, template);
      MulSucc(Occurrences(rest[n..], pattern), d);
    } else {
      ReplaceRestSkip(whole, rest, pattern, template);
      ReplaceLength(whole, rest[1..], pattern, template);
    }
  }
}
