/** The email rule shared by the sign-up, login and forgot-password forms:
    an unanchored test of the regular expression `\S+@\S+\.\S+`. */
module EmailRule {
  import opened JsText

  /** A character matched by `\S`. */
  predicate NonSpace(c: char)
  {
    !IsWhitespace(c)
  }

  /** s[lo..hi] is a (possibly empty) run of `\S` characters. */
  ghost predicate NonSpaceRun(s: string, lo: int, hi: int)
  {
    0 <= lo <= hi <= |s| && forall k :: lo <= k < hi ==> NonSpace(s[k])
  }

  /** s[a..e] is a match of `\S+@\S+\.\S+`: s[a..b] is the first `\S+`,
      the `@` is at b, s[b+1..c] is the second `\S+`, the `.` is at c and
      s[c+1..e] is the last `\S+`. */
  ghost predicate MatchAt(s: string, a: int, b: int, c: int, e: int)
  {
    && 0 <= a < b && b + 1 < c && c + 1 < e <= |s|
    && NonSpaceRun(s, a, b) && s[b] == '@'
    && NonSpaceRun(s, b + 1, c) && s[c] == '.'
    && NonSpaceRun(s, c + 1, e)
  }

  /** The unanchored regex test: the pattern matches somewhere in s. */
  ghost predicate EmailPattern(s: string)
  {
    exists a, b, c, e :: MatchAt(s, a, b, c, e)
  }

  /** A shortest match around the `@` at b and the `.` at c: one `\S` before
      the `@`, a `\S` run up to the `.`, and one `\S` after it. */
  ghost predicate Core(s: string, b: int, c: int)
  {
    && 0 < b && b + 1 < c && c + 1 < |s|
    && NonSpace(s[b - 1]) && s[b] == '@'
    && NonSpaceRun(s, b + 1, c) && s[c] == '.'
    && NonSpace(s[c + 1])
  }

  /** Scans s from index i for the `.` that closes the middle `\S+` run;
      the caller has checked that the characters between the `@` and i are `\S`. */
  function DotFrom(s: string, i: nat): bool
    decreases |s| - i
  {
    if i + 1 >= |s| then false
    else if s[i] == '.' && NonSpace(s[i + 1]) then true
    else if NonSpace(s[i]) then DotFrom(s, i + 1)
    else false
  }

  /** Scans s from index b for an `@` that starts a match. */
  function AtFrom(s: string, b: nat): bool
    decreases |s| - b
  {
    if b + 1 >= |s| then false
    else (0 < b && s[b] == '@' && NonSpace(s[b - 1]) && NonSpace(s[b + 1]) && DotFrom(s, b + 2))
         || AtFrom(s, b + 1)
  }

  /** The executable email test; it agrees with the regular expression on every string. */
  function IsEmail(s: string): (r: bool)
    ensures r <==> EmailPattern(s)
  {
    AtFromIsCore(s, 0);
    PatternIsCore(s);
    AtFrom(s, 0)
  }

  lemma {:induction false} DotFromIsCore(s: string, b: int, i: nat)
    requires 0 < b && b + 2 <= i
    requires NonSpaceRun(s, b + 1, i)
    requires NonSpace(s[b - 1]) && s[b] == '@'
    ensures DotFrom(s, i) <==> exists c :: i <= c && Core(s, b, c)
    decreases |s| - i
  {
    if i + 1 >= |s| {
      assert forall c :: i <= c ==> !Core(s, b, c);
    } else if s[i] == '.' && NonSpace(s[i + 1]) {
      assert Core(s, b, i);
    } else if NonSpace(s[i]) {
      DotFromIsCore(s, b, i + 1);
      assert !Core(s, b, i);
    } else {
      forall c | i <= c ensures !Core(s, b, c) {
        assert !NonSpace(s[i]);
      }
    }
  }

  lemma {:induction false} AtFromIsCore(s: string, b0: nat)
    ensures AtFrom(s, b0) <==> exists b, c :: b0 <= b && Core(s, b, c)
    decreases |s| - b0
  {
    if b0 + 1 >= |s| {
      assert forall b, c :: b0 <= b ==> !Core(s, b, c);
    } else {
      AtFromIsCore(s, b0 + 1);
      var here := 0 < b0 && s[b0] == '@' && NonSpace(s[b0 - 1]) && NonSpace(s[b0 + 1]);
      if here {
        DotFromIsCore(s, b0, b0 + 2);
      }
      if exists c :: Core(s, b0, c) {
        var c :| Core(s, b0, c);
        assert here;
        if b0 + 2 < c {
          assert NonSpaceRun(s, b0 + 1, b0 + 2);
        }
      }
    }
  }

  /** Every match contains a shortest one, and a shortest one is a match. */
  lemma PatternIsCore(s: string)
    ensures EmailPattern(s) <==> exists b, c :: Core(s, b, c)
  {
    if EmailPattern(s) {
      var a, b, c, e :| MatchAt(s, a, b, c, e);
      assert Core(s, b, c);
    }
    if exists b, c :: Core(s, b, c) {
      var b, c :| Core(s, b, c);
      assert MatchAt(s, b - 1, b, c, c + 2);
    }
  }

  /** Examples: `a@b.co` is accepted; the empty string, `abc` and `a@b` are not. */
  lemma EmailExamples()
    ensures EmailPattern("a@b.co")
    ensures !EmailPattern("") && !EmailPattern("abc") && !EmailPattern("a@b")
  {
    assert MatchAt("a@b.co", 0, 1, 3, 6);
    assert !IsEmail("abc");
    assert !IsEmail("a@b");
  }
}
