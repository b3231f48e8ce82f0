/**
 * The parts of java.lang.String the back end relies on: trim(), isEmpty()
 * after trim, toLowerCase(), equalsIgnoreCase(), endsWith() and contains().
 * Case mapping covers ASCII letters only.
 */
module Strings {
  import opened Common

  /** String.trim() removes every leading and trailing char whose code is at most U+0020. */
  predicate IsTrimmable(c: char) { c <= ' ' }

  function TrimStart(s: string): (r: string)
    ensures |r| <= |s| && r == s[|s| - |r|..]
    ensures forall i :: 0 <= i < |s| - |r| ==> IsTrimmable(s[i])
    ensures r != [] ==> !IsTrimmable(r[0])
  {
    if s != [] && IsTrimmable(s[0]) then TrimStart(s[1..]) else s
  }

  function TrimEnd(s: string): (r: string)
    ensures |r| <= |s| && r == s[..|r|]
    ensures forall i :: |r| <= i < |s| ==> IsTrimmable(s[i])
    ensures r != [] ==> !IsTrimmable(r[|r| - 1])
  {
    if s != [] && IsTrimmable(s[|s| - 1]) then TrimEnd(s[..|s| - 1]) else s
  }

  /** String.trim(): the longest infix that neither starts nor ends with a trimmable char. */
  function Trim(s: string): (r: string)
    ensures |r| <= |TrimStart(s)| <= |s|
    ensures r != [] ==> !IsTrimmable(r[0]) && !IsTrimmable(r[|r| - 1])
    ensures var k := |s| - |TrimStart(s)|; r == s[k..k + |r|]
  {
    TrimEnd(TrimStart(s))
  }

  /** s.trim().isEmpty() */
  predicate IsBlank(s: string) { Trim(s) == [] }

  /** Blank means nothing but trimmable chars. */
  lemma {:induction false} BlankIffAllTrimmable(s: string)
    ensures IsBlank(s) <==> forall i :: 0 <= i < |s| ==> IsTrimmable(s[i])
  {
    var t := TrimStart(s);
    if t != [] {
      assert !IsTrimmable(s[|s| - |t|]);
      assert TrimEnd(t) != [] by {
        assert !IsTrimmable(t[0]);
      }
    }
  }

  /** A null or blank argument: the guard `x == null || x.trim().isEmpty()`. */
  predicate NullOrBlank(o: Option<string>) { o.None? || IsBlank(o.value) }

  function LowerChar(c: char): char
  {
    if 'A' <= c <= 'Z' then (c as int + 32) as char else c
  }

  /** String.toLowerCase(), ASCII letters only. */
  function ToLower(s: string): (r: string)
    ensures |r| == |s|
    ensures forall i :: 0 <= i < |s| ==> r[i] == LowerChar(s[i])
  {
    seq(|s|, i requires 0 <= i < |s| => LowerChar(s[i]))
  }

  predicate EqualsIgnoreCase(a: string, b: string) { ToLower(a) == ToLower(b) }

  predicate StartsWith(s: string, prefix: string) { |prefix| <= |s| && s[..|prefix|] == prefix }

  predicate EndsWith(s: string, suffix: string) { |suffix| <= |s| && s[|s| - |suffix|..] == suffix }

  /** String.contains(sub): sub occurs at some position of s. */
  predicate Contains(s: string, sub: string)
  {
    StartsWith(s, sub) || (s != [] && Contains(s[1..], sub))
  }

  /** A string that neither starts nor ends with a trimmable char is its own trim. */
  lemma TrimSinBordes(s: string)
    requires s != [] ==> !IsTrimmable(s[0]) && !IsTrimmable(s[|s| - 1])
    ensures Trim(s) == s
  {
  }

  /** Lower-casing twice is lower-casing once. */
  lemma ToLowerIdempotente(s: string)
    ensures ToLower(ToLower(s)) == ToLower(s)
  {
  }

  /** Lower-casing never creates or removes a trimmable char at either end. */
  lemma ToLowerSinBordes(s: string)
    requires s != [] ==> !IsTrimmable(s[0]) && !IsTrimmable(s[|s| - 1])
    ensures Trim(ToLower(s)) == ToLower(s)
  {
    TrimSinBordes(ToLower(s));
  }
}
