/**
 * The exclusion test: a path is excluded when some pattern of the list
 * matches it, case-insensitively. The patterns are tried in order and the
 * first match ends the test, so a later pattern is never compiled.
 *
 * The regular-expression engine is a parameter: `compiles(p)` says whether
 * `new RegExp(p, 'i')` accepts `p`, and `matches(p, text)` whether the
 * compiled pattern finds a match in `text`, ignoring case.
 */
module Exclusion {
  import opened Outcomes

  datatype RegexEngine = RegexEngine(compiles: string -> bool, matches: (string, string) -> bool)

  /** The outcome of `exclude(name, listReg)`, pattern by pattern. */
  function Excludes(name: string, listReg: seq<string>, engine: RegexEngine): Result<bool>
  {
    if listReg == [] then Ok(false)
    else if !engine.compiles(listReg[0]) then Err(InvalidPattern(listReg[0]))
    else if engine.matches(listReg[0], name) then Ok(true)
    else Excludes(name, listReg[1..], engine)
  }

  /** The loop of `exclude`, which returns as soon as a pattern matches. */
  method Exclude(name: string, listReg: seq<string>, engine: RegexEngine) returns (r: Result<bool>)
    ensures r == Excludes(name, listReg, engine)
  {
    for i := 0 to |listReg|
      invariant Excludes(name, listReg[i..], engine) == Excludes(name, listReg, engine)
    {
      var exp := listReg[i];
      if !engine.compiles(exp) {
        return Err(InvalidPattern(exp));
      }
      if engine.matches(exp, name) {
        return Ok(true);
      }
      assert listReg[i..][1..] == listReg[i + 1..];
    }
    return Ok(false);
  }

  predicate AllCompile(listReg: seq<string>, engine: RegexEngine)
  {
    forall i :: 0 <= i < |listReg| ==> engine.compiles(listReg[i])
  }

  /** With well-formed patterns, a path is excluded iff some pattern matches it; the empty list excludes nothing. */
  lemma {:induction false} ExcludesIffSomeMatch(name: string, listReg: seq<string>, engine: RegexEngine)
    requires AllCompile(listReg, engine)
    ensures Excludes(name, listReg, engine) == Ok(exists i :: 0 <= i < |listReg| && engine.matches(listReg[i], name))
  {
    if listReg != [] && !engine.matches(listReg[0], name) {
      ExcludesIffSomeMatch(name, listReg[1..], engine);
      if exists i :: 0 <= i < |listReg| && engine.matches(listReg[i], name) {
        var i :| 0 <= i < |listReg| && engine.matches(listReg[i], name);
        assert listReg[1..][i - 1] == listReg[i];
      }
    }
  }

  /** The first matching pattern decides: whatever follows it, even an invalid pattern, is never looked at. */
  lemma {:induction false} ExcludesStopsAtFirstMatch(name: string, listReg: seq<string>, engine: RegexEngine, k: nat)
    requires k < |listReg|
    requires forall j :: 0 <= j < k ==> engine.compiles(listReg[j]) && !engine.matches(listReg[j], name)
    requires engine.compiles(listReg[k]) && engine.matches(listReg[k], name)
    ensures Excludes(name, listReg, engine) == Ok(true)
  {
    if k > 0 {
      ExcludesStopsAtFirstMatch(name, listReg[1..], engine, k - 1);
    }
  }

  /**
   * The test fails only on the first pattern that does not compile, and only
   * when no pattern before it matched.
   */
  lemma {:induction false} ExcludesFailsOnFirstBadPattern(name: string, listReg: seq<string>, engine: RegexEngine)
    requires Excludes(name, listReg, engine).Err?
    ensures exists k :: (0 <= k < |listReg| && !engine.compiles(listReg[k])
                          && Excludes(name, listReg, engine).error == InvalidPattern(listReg[k])
                          && forall j :: 0 <= j < k ==> engine.compiles(listReg[j]) && !engine.matches(listReg[j], name))
  {
    if engine.compiles(listReg[0]) {
      ExcludesFailsOnFirstBadPattern(name, listReg[1..], engine);
      var k :| 0 <= k < |listReg[1..]| && !engine.compiles(listReg[1..][k])
        && Excludes(name, listReg[1..], engine).error == InvalidPattern(listReg[1..][k])
        && forall j :: 0 <= j < k ==> engine.compiles(listReg[1..][j]) && !engine.matches(listReg[1..][j], name);
      assert forall j :: 0 < j < k + 1 ==> listReg[j] == listReg[1..][j - 1];
    } else {
      assert !engine.compiles(listReg[0]);
    }
  }

  /**
   * The first pattern that does not compile, reached before any match, makes
   * the test fail with that pattern.
   */
  lemma {:induction false} FirstBadPatternFails(name: string, listReg: seq<string>, engine: RegexEngine, k: nat)
    requires k < |listReg|
    requires forall j :: 0 <= j < k ==> engine.compiles(listReg[j]) && !engine.matches(listReg[j], name)
    requires !engine.compiles(listReg[k])
    ensures Excludes(name, listReg, engine) == Err(InvalidPattern(listReg[k]))
  {
    if k > 0 {
      FirstBadPatternFails(name, listReg[1..], engine, k - 1);
    }
  }

  /** ASCII case folding, as the 'i' flag applies it to letters. */
  function Lower(c: char): char
  {
    if 'A' <= c <= 'Z' then (c as int + 32) as char else c
  }

  predicate StartsWithIgnoringCase(text: string, pat: string)
  {
    |pat| <= |text| && forall j :: 0 <= j < |pat| ==> Lower(text[j]) == Lower(pat[j])
  }

  /** Case-insensitive substring search: what the regex engine does with a pattern of plain ASCII letters, digits and '/'. */
  function ContainsIgnoringCase(text: string, pat: string): (r: bool)
    ensures r <==> exists i :: 0 <= i <= |text| && StartsWithIgnoringCase(text[i..], pat)
  {
    if StartsWithIgnoringCase(text, pat) then
      assert text[0..] == text;
      true
    else if text == [] then false
    else
      var r := ContainsIgnoringCase(text[1..], pat);
      assert forall i :: 1 <= i <= |text| ==> text[i..] == text[1..][i - 1..];
      r
  }

  /** The engine restricted to literal patterns: every pattern compiles and matches as a substring. */
  const LiteralEngine := RegexEngine(_ => true, (pattern, text) => ContainsIgnoringCase(text, pattern))
}
