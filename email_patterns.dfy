/**
 * The two email patterns of the front end. The login form tests the
 * unanchored `\S+@\S+\.\S+`: somewhere in the input, non-space characters, an
 * `@`, non-space characters, a `.`, and a non-space character. The waitlist
 * form tests the anchored `^[^\s@]+@[^\s@]+\.[^\s@]+$`. Each is given as an
 * executable scanner whose contract is the pattern's reading, and the anchored
 * one is also characterised in plain terms (one `@`, no whitespace, a local
 * part, and a dot inside the domain).
 */
module EmailPatterns {
  import opened Text

  // ---- the login pattern \S+@\S+\.\S+ ----

  /**
   * From index `i` on, a run of non-space characters reaches a `.` that is
   * followed by a non-space character.
   */
  function DotAhead(s: string, i: nat): (b: bool)
    requires i <= |s|
    ensures b <==> exists d :: i <= d && d + 1 < |s| && s[d] == '.' && NoSpace(s[i..d]) && !IsSpace(s[d + 1])
    decreases |s| - i
  {
    if i == |s| || IsSpace(s[i]) then
      assert forall d :: i <= d < |s| ==> s[i..d] == [] || s[i..d][0] == s[i];
      false
    else if s[i] == '.' && i + 1 < |s| && !IsSpace(s[i + 1]) then
      assert NoSpace(s[i..i]);
      true
    else
      var r := DotAhead(s, i + 1);
      assert forall d :: i + 1 <= d <= |s| && NoSpace(s[i + 1..d]) ==> NoSpace(s[i..d]);
      assert forall d :: i < d <= |s| && NoSpace(s[i..d]) ==> NoSpace(s[i + 1..d]);
      r
  }

  /** The login pattern matches with its `@` at index `a` and its `.` at index `d`. */
  ghost predicate LoginMatchAt(s: string, a: int, d: int) {
    0 < a && a + 1 < d && d + 1 < |s| && s[a] == '@' && s[d] == '.'
    && !IsSpace(s[a - 1]) && NoSpace(s[a + 1..d]) && !IsSpace(s[d + 1])
  }

  /** Some `@` at or after index `k` starts a match of the login pattern. */
  function MatchFrom(s: string, k: nat): (b: bool)
    requires k <= |s|
    ensures b <==> exists a, d :: k <= a && LoginMatchAt(s, a, d)
    decreases |s| - k
  {
    if k == |s| then false
    else
      var here := s[k] == '@' && 0 < k && !IsSpace(s[k - 1]) && k + 1 < |s| && !IsSpace(s[k + 1]) && DotAhead(s, k + 2);
      if here then
        var d :| k + 2 <= d && d + 1 < |s| && s[d] == '.' && NoSpace(s[k + 2..d]) && !IsSpace(s[d + 1]);
        assert s[k + 1..d] == [s[k + 1]] + s[k + 2..d];
        assert LoginMatchAt(s, k, d);
        true
      else
        var rest := MatchFrom(s, k + 1);
        assert forall d :: LoginMatchAt(s, k, d) ==> d >= k + 2 && s[k + 1..d][0] == s[k + 1] && s[k + 2..d] == s[k + 1..d][1..];
        rest
  }

  /** `/\S+@\S+\.\S+/.test(s)`. */
  function LoginPattern(s: string): (b: bool)
    ensures b <==> exists a, d :: LoginMatchAt(s, a, d)
  {
    MatchFrom(s, 0)
  }

  /** Input the login pattern accepts is never blank, so the form's `trim()` check adds nothing. */
  lemma LoginPatternIsNotBlank(s: string)
    requires LoginPattern(s)
    ensures Trim(s) != ""
  {
    var a, d :| LoginMatchAt(s, a, d);
    TrimEmptyIffAllSpace(s);
    assert !IsSpace(s[a]);
  }

  // ---- the waitlist pattern ^[^\s@]+@[^\s@]+\.[^\s@]+$ ----

  /** A non-empty run of characters that are neither whitespace nor `@`. */
  predicate Plain(t: string) {
    t != [] && forall i :: 0 <= i < |t| ==> !IsSpace(t[i]) && t[i] != '@'
  }

  /** The anchored pattern, read structurally: `@` at `a`, `.` at `d`, three plain runs around them. */
  ghost predicate WaitlistMatchAt(s: string, a: int, d: int) {
    0 <= a < d < |s| && s[a] == '@' && s[d] == '.'
    && Plain(s[..a]) && Plain(s[a + 1..d]) && Plain(s[d + 1..])
  }

  /** A `.` with at least one character on each side. */
  predicate InnerDot(t: string) {
    exists p :: 0 < p < |t| - 1 && t[p] == '.'
  }

  /**
   * `^[^\s@]+@[^\s@]+\.[^\s@]+$` as the waitlist form tests it: no
   * whitespace, exactly one `@` with something before it, and a domain with a
   * `.` that is neither its first nor its last character.
   */
  function WaitlistPattern(s: string): (b: bool)
    ensures b ==> NoSpace(s) && '@' in s
    ensures b <==> exists a, d :: WaitlistMatchAt(s, a, d)
  {
    var local := BeforeFirst(s, '@');
    var ok := NoSpace(s) && 0 < |local| < |s| && '@' !in s[|local| + 1..] && InnerDot(s[|local| + 1..]);
    if ok then
      var a := |local|;
      var domain := s[a + 1..];
      var p :| 0 < p < |domain| - 1 && domain[p] == '.';
      assert s[..a] == local;
      assert s[a + 1..a + 1 + p] == domain[..p];
      assert s[a + 1 + p + 1..] == domain[p + 1..];
      assert WaitlistMatchAt(s, a, a + 1 + p);
      true
    else
      WaitlistMatchIsSplit(s, local);
      false
  }

  /** Any structural match splits the input at its first (and only) `@`. */
  lemma WaitlistMatchIsSplit(s: string, local: string)
    requires local == BeforeFirst(s, '@')
    ensures (exists a, d :: WaitlistMatchAt(s, a, d)) ==>
              NoSpace(s) && 0 < |local| < |s| && '@' !in s[|local| + 1..] && InnerDot(s[|local| + 1..])
  {
    if a, d :| WaitlistMatchAt(s, a, d) {
      FirstAtIndex(s, a);
      MatchHasNoSpace(s, a, d);
      MatchDomain(s, a, d);
    }
  }

  lemma PlainHasNoAt(t: string)
    requires Plain(t)
    ensures '@' !in t && NoSpace(t)
  {
  }

  /** `BeforeFirst` stops at the first `@`. */
  lemma FirstAtIndex(s: string, a: nat)
    requires a < |s| && s[a] == '@' && '@' !in s[..a]
    ensures |BeforeFirst(s, '@')| == a
  {
  }

  lemma MatchHasNoSpace(s: string, a: int, d: int)
    requires WaitlistMatchAt(s, a, d)
    ensures NoSpace(s) && '@' !in s[..a]
  {
    PlainHasNoAt(s[..a]);
    forall i | 0 <= i < |s| ensures !IsSpace(s[i]) {
      if i < a { assert s[i] == s[..a][i]; }
      else if a < i < d { assert s[i] == s[a + 1..d][i - a - 1]; }
      else if d < i { assert s[i] == s[d + 1..][i - d - 1]; }
    }
  }

  lemma MatchDomain(s: string, a: int, d: int)
    requires WaitlistMatchAt(s, a, d)
    ensures '@' !in s[a + 1..] && InnerDot(s[a + 1..])
  {
    var domain := s[a + 1..];
    assert domain == s[a + 1..d] + [s[d]] + s[d + 1..];
    PlainHasNoAt(s[a + 1..d]);
    PlainHasNoAt(s[d + 1..]);
    assert domain[d - a - 1] == '.';
  }

  /** Every address the waitlist accepts also passes the login form's pattern. */
  lemma WaitlistImpliesLogin(s: string)
    requires WaitlistPattern(s)
    ensures LoginPattern(s)
  {
    var a, d :| WaitlistMatchAt(s, a, d);
    assert s[a - 1] == s[..a][a - 1];
    assert s[d + 1] == s[d + 1..][0];
    PlainHasNoAt(s[a + 1..d]);
    assert LoginMatchAt(s, a, d);
  }

  /** The login pattern is unanchored: it accepts input the waitlist refuses. */
  lemma LoginPatternIsLooser()
    ensures LoginPattern(" x@y.z") && !WaitlistPattern(" x@y.z")
    ensures LoginPattern("a@b@c.d") && !WaitlistPattern("a@b@c.d")
  {
    assert LoginMatchAt(" x@y.z", 2, 4);
    assert IsSpace(" x@y.z"[0]);
    assert LoginMatchAt("a@b@c.d", 3, 5);
    var s := "a@b@c.d";
    assert BeforeFirst(s, '@') == "a";
    assert s[2..][1] == '@';
  }
}
