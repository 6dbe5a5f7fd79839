/** Artifact-name globs: the greedy matcher against what a glob means. */
module Glob {
  import opened Prelude

  /** What a glob means: `*` stands for any run of characters, anything else for itself. */
  predicate Matches(pattern: string, name: string) {
    if pattern == "" then name == ""
    else if pattern[0] == '*' then exists k: nat | k <= |name| :: Matches(pattern[1..], name[k..])
    else name != "" && name[0] == pattern[0] && Matches(pattern[1..], name[1..])
  }

  /** `str::split('*')`. */
  function Split(pattern: string): (parts: seq<string>)
    ensures parts != []
    ensures forall i :: 0 <= i < |parts| ==> '*' !in parts[i]
  {
    if pattern == "" then [""]
    else
      var rest := Split(pattern[1..]);
      if pattern[0] == '*' then [""] + rest else [[pattern[0]] + rest[0]] + rest[1..]
  }

  predicate StartsWith(s: string, prefix: string) {
    |prefix| <= |s| && s[..|prefix|] == prefix
  }

  /** The leftmost occurrence of `part` in `s`, if there is one. */
  ghost predicate IsLeftmost(s: string, part: string, at: Option<nat>) {
    match at
    case Some(i) => OccursAt(s, part, i) && forall j: nat | j < i :: !OccursAt(s, part, j)
    case None => forall j: nat :: !OccursAt(s, part, j)
  }

  /** `str::find` with a string. */
  method Find(s: string, part: string) returns (at: Option<nat>)
    ensures IsLeftmost(s, part, at)
  {
    var i := 0;
    while i + |part| <= |s|
      invariant forall j: nat | j < i :: !OccursAt(s, part, j)
    {
      if s[i..i + |part|] == part {
        return Some(i);
      }
      i := i + 1;
    }
    at := None;
  }

  /** The literal parts occur in `s` in order, each after an arbitrary gap, and the last one
      ends it. */
  predicate Chain(parts: seq<string>, s: string)
    requires parts != []
  {
    if |parts| == 1 then EndsWith(s, parts[0])
    else exists k: nat | k <= |s| :: OccursAt(s, parts[0], k) && Chain(parts[1..], s[k + |parts[0]|..])
  }

  /** A chain found in a tail of `s` is found in `s`: the first gap only grows. */
  lemma {:induction false} ChainGrows(parts: seq<string>, s: string, d: nat)
    requires parts != [] && d <= |s| && Chain(parts, s[d..])
    ensures Chain(parts, s)
  {
    var t := s[d..];
    if |parts| == 1 {
      assert t[|t| - |parts[0]|..] == s[|s| - |parts[0]|..];
    } else {
      var k: nat :| k <= |t| && OccursAt(t, parts[0], k) && Chain(parts[1..], t[k + |parts[0]|..]);
      assert s[d + k..d + k + |parts[0]|] == t[k..k + |parts[0]|];
      assert OccursAt(s, parts[0], d + k) && t[k + |parts[0]|..] == s[d + k + |parts[0]|..];
    }
  }

  /** Taking the leftmost occurrence loses nothing. */
  lemma LeftmostSuffices(parts: seq<string>, s: string, at: Option<nat>)
    requires |parts| > 1 && IsLeftmost(s, parts[0], at)
    ensures at.Some? ==> at.value + |parts[0]| <= |s|
    ensures Chain(parts, s) <==> at.Some? && Chain(parts[1..], s[at.value + |parts[0]|..])
  {
    if Chain(parts, s) {
      var k: nat :| k <= |s| && OccursAt(s, parts[0], k) && Chain(parts[1..], s[k + |parts[0]|..]);
      var i := at.value;
      var tail := s[i + |parts[0]|..];
      assert tail[k - i..] == s[k + |parts[0]|..];
      ChainGrows(parts[1..], tail, k - i);
    }
  }

  /** The first part begins `s`, and what follows the first `*` is a chain. */
  predicate Anchored(parts: seq<string>, s: string)
    requires parts != []
  {
    if |parts| == 1 then s == parts[0]
    else StartsWith(s, parts[0]) && Chain(parts[1..], s[|parts[0]|..])
  }

  lemma StarMeansChain(parts: seq<string>, s: string)
    requires parts != []
    ensures Chain(parts, s) <==> exists k: nat | k <= |s| :: Anchored(parts, s[k..])
  {
    if |parts| == 1 {
      if EndsWith(s, parts[0]) {
        assert Anchored(parts, s[|s| - |parts[0]|..]);
      }
    } else {
      forall k: nat | k <= |s|
        ensures Anchored(parts, s[k..]) <==> OccursAt(s, parts[0], k) && Chain(parts[1..], s[k + |parts[0]|..])
      {
        if k + |parts[0]| <= |s| {
          assert s[k..][..|parts[0]|] == s[k..k + |parts[0]|];
          assert s[k..][|parts[0]|..] == s[k + |parts[0]|..];
        }
      }
      if Chain(parts, s) {
        var k: nat :| k <= |s| && OccursAt(s, parts[0], k) && Chain(parts[1..], s[k + |parts[0]|..]);
        assert Anchored(parts, s[k..]);
      }
    }
  }

  lemma LiteralFirst(c: char, parts: seq<string>, s: string)
    requires parts != []
    ensures Anchored([[c] + parts[0]] + parts[1..], s) <==> s != "" && s[0] == c && Anchored(parts, s[1..])
  {
    var parts' := [[c] + parts[0]] + parts[1..];
    assert parts'[1..] == parts[1..];
    if s != "" {
      assert s == [s[0]] + s[1..];
      if |parts[0]| < |s| {
        assert s[..|parts'[0]|] == [s[0]] + s[1..][..|parts[0]|];
        assert s[|parts'[0]|..] == s[1..][|parts[0]|..];
      }
    }
  }

  /** The meaning of a glob in terms of its literal parts. */
  lemma {:induction false} MatchesIsAnchored(pattern: string, name: string)
    ensures Matches(pattern, name) <==> Anchored(Split(pattern), name)
    decreases |pattern|
  {
    hide Anchored, Chain;
    if pattern == "" {
      assert Anchored([""], name) <==> name == "" by { EmptyPattern(name); }
    } else {
      var rest := Split(pattern[1..]);
      if pattern[0] == '*' {
        forall k: nat | k <= |name|
          ensures Matches(pattern[1..], name[k..]) <==> Anchored(rest, name[k..])
        {
          MatchesIsAnchored(pattern[1..], name[k..]);
        }
        StarMeansChain(rest, name);
        StarFirst(rest, name);
      } else {
        LiteralFirst(pattern[0], rest, name);
        if name != "" {
          MatchesIsAnchored(pattern[1..], name[1..]);
        }
      }
    }
  }

  lemma EmptyPattern(s: string)
    ensures Anchored([""], s) <==> s == ""
  {
  }

  lemma StarFirst(parts: seq<string>, s: string)
    requires parts != []
    ensures Anchored([""] + parts, s) <==> Chain(parts, s)
  {
    assert ([""] + parts)[1..] == parts && s[0..] == s && s[..0] == "";
  }

  /** A pattern without `*` is its own only part. */
  lemma {:induction false} SoloPart(pattern: string)
    ensures |Split(pattern)| == 1 ==> Split(pattern)[0] == pattern
  {
    if pattern != "" && pattern[0] != '*' {
      SoloPart(pattern[1..]);
      assert pattern == [pattern[0]] + pattern[1..];
    }
  }

  lemma EmptyIsLeftmost(s: string)
    ensures IsLeftmost(s, "", Some(0))
  {
    assert s[0..0] == "";
  }

  lemma AnchoredStart(parts: seq<string>, s: string)
    requires |parts| > 1
    ensures Anchored(parts, s) <==> StartsWith(s, parts[0]) && Chain(parts[1..], s[|parts[0]|..])
  {
  }

  /** One interior part: go on behind its leftmost occurrence. */
  lemma InteriorPart(parts: seq<string>, i: nat, rest: string, at: Option<nat>)
    requires i + 1 < |parts| && IsLeftmost(rest, parts[i], at)
    ensures at.Some? ==> at.value + |parts[i]| <= |rest|
    ensures Chain(parts[i..], rest) <==> at.Some? && Chain(parts[i + 1..], rest[at.value + |parts[i]|..])
  {
    hide IsLeftmost, Chain;
    assert parts[i..][1..] == parts[i + 1..] && parts[i..][0] == parts[i];
    LeftmostSuffices(parts[i..], rest, at);
  }

  lemma LastPart(parts: seq<string>, rest: string)
    requires parts != []
    ensures Chain(parts[|parts| - 1..], rest) <==> EndsWith(rest, parts[|parts| - 1])
  {
  }

  /** The greedy matcher answers exactly what the glob means, for every pattern and name. */
  method GlobMatch(pattern: string, name: string) returns (r: bool)
    ensures r == Matches(pattern, name)
  {
    hide Matches, Anchored, EndsWith, Chain, IsLeftmost;
    var parts := Split(pattern);
    MatchesIsAnchored(pattern, name);
    SoloPart(pattern);
    if |parts| == 1 {
      assert Anchored(parts, name) <==> name == parts[0] by { AnchoredSolo(parts, name); }
      return pattern == name;
    }
    AnchoredStart(parts, name);
    var rest := name;
    if !StartsWith(rest, parts[0]) {
      return false;
    }
    rest := rest[|parts[0]|..];
    var i := 1;
    while i < |parts| - 1
      invariant 1 <= i <= |parts| - 1
      invariant Matches(pattern, name) <==> Chain(parts[i..], rest)
    {
      var part := parts[i];
      if part == "" {
        EmptyIsLeftmost(rest);
        InteriorPart(parts, i, rest, Some(0));
        assert rest[0..] == rest;
      } else {
        var at := Find(rest, part);
        InteriorPart(parts, i, rest, at);
        if at.None? {
          return false;
        }
        rest := rest[at.value + |part|..];
      }
      i := i + 1;
    }
    LastPart(parts, rest);
    r := EndsWith(rest, parts[|parts| - 1]);
  }

  lemma AnchoredSolo(parts: seq<string>, s: string)
    requires |parts| == 1
    ensures Anchored(parts, s) <==> s == parts[0]
  {
  }
}
