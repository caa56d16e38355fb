/** Sanitising of the commentary text (utils/ai_doctor.py, `clean_text`):
    strip surrounding whitespace, then delete every run of asterisks. */
module Text {

  /** Python's `str.isspace()` on one character, the set `str.strip()` removes. */
  predicate IsSpace(c: char) {
    || c == ' '
    || ('\t' <= c <= '\r')
    || ('\U{1C}' <= c <= '\U{1F}')
    || c == '\U{85}' || c == '\U{A0}' || c == '\U{1680}'
    || ('\U{2000}' <= c <= '\U{200A}')
    || c == '\U{2028}' || c == '\U{2029}' || c == '\U{202F}' || c == '\U{205F}' || c == '\U{3000}'
  }

  /** Neither begins nor ends with whitespace. */
  predicate Bare(s: string) {
    s == [] || (!IsSpace(s[0]) && !IsSpace(s[|s| - 1]))
  }

  /** Whitespace only. */
  predicate AllSpace(s: string) {
    forall i :: 0 <= i < |s| ==> IsSpace(s[i])
  }

  /** The length of the run of whitespace that begins `s`. */
  function LeadingSpaces(s: string): (n: nat)
    ensures n <= |s|
    ensures forall i :: 0 <= i < n ==> IsSpace(s[i])
    ensures n == |s| || !IsSpace(s[n])
  {
    if |s| > 0 && IsSpace(s[0]) then 1 + LeadingSpaces(s[1..]) else 0
  }

  /** `str.lstrip()`: the suffix left after dropping leading whitespace. */
  function StripLeft(s: string): (r: string)
    ensures |r| <= |s|
    ensures forall i :: 0 <= i < |r| ==> r[i] == s[|s| - |r| + i]
    ensures forall i :: 0 <= i < |s| - |r| ==> IsSpace(s[i])
    ensures r == [] || !IsSpace(r[0])
  {
    s[LeadingSpaces(s)..]
  }

  /** `str.rstrip()`: the prefix left after dropping trailing whitespace. */
  function StripRight(s: string): (r: string)
    ensures |r| <= |s|
    ensures forall i :: 0 <= i < |r| ==> r[i] == s[i]
    ensures forall i :: |r| <= i < |s| ==> IsSpace(s[i])
    ensures r == [] || !IsSpace(r[|r| - 1])
  {
    if |s| > 0 && IsSpace(s[|s| - 1]) then StripRight(s[..|s| - 1]) else s
  }

  /** `str.strip()`. */
  function Strip(s: string): (r: string)
    ensures Bare(r)
    ensures |r| <= |s|
  {
    StripRight(StripLeft(s))
  }

  /** `re.sub(r"\*+", "", s)`: deleting every run of '*' deletes every '*'. */
  function RemoveStars(s: string): (r: string)
    ensures '*' !in r
    ensures |r| <= |s|
  {
    if s == [] then []
    else
      assert s == [s[0]] + s[1..];
      (if s[0] == '*' then [] else [s[0]]) + RemoveStars(s[1..])
  }

  /** `clean_text`: strip, then delete the asterisks. */
  function CleanText(t: string): (r: string)
    ensures '*' !in r
    ensures |r| <= |t|
  {
    RemoveStars(Strip(t))
  }

  // ---------------------------------------------------------------------
  // Stripping

  lemma {:induction false} StripLeftPadded(a: string, m: string)
    requires AllSpace(a)
    requires m == [] || !IsSpace(m[0])
    ensures StripLeft(a + m) == m
    decreases |a|
  {
    if a == [] {
      assert a + m == m;
    } else {
      assert (a + m)[1..] == a[1..] + m;
      StripLeftPadded(a[1..], m);
    }
  }

  lemma {:induction false} StripRightPadded(m: string, b: string)
    requires AllSpace(b)
    requires m == [] || !IsSpace(m[|m| - 1])
    ensures StripRight(m + b) == m
    decreases |b|
  {
    if b == [] {
      assert m + b == m;
    } else {
      assert (m + b)[..|m + b| - 1] == m + b[..|b| - 1];
      StripRightPadded(m, b[..|b| - 1]);
    }
  }

  /** `strip` removes exactly the surrounding whitespace and nothing else. */
  lemma StripOfPadded(a: string, m: string, b: string)
    requires AllSpace(a) && AllSpace(b) && Bare(m)
    ensures Strip(a + m + b) == m
  {
    assert a + m + b == a + (m + b);
    if m == [] {
      assert a + m + b == (a + b) + [];
      assert AllSpace(a + b);
      StripLeftPadded(a + b, []);
    } else {
      StripLeftPadded(a, m + b);
      StripRightPadded(m, b);
    }
  }

  /** A bare string is left as it is by `strip`. */
  lemma StripBare(s: string)
    requires Bare(s)
    ensures Strip(s) == s
  {
    StripOfPadded([], s, []);
    assert [] + s + [] == s;
  }

  // ---------------------------------------------------------------------
  // Asterisk removal

  /** Removal keeps every other character in order: it distributes over concatenation. */
  lemma {:induction false} RemoveStarsAppend(a: string, b: string)
    ensures RemoveStars(a + b) == RemoveStars(a) + RemoveStars(b)
    decreases |a|
  {
    if a == [] {
      assert a + b == b;
    } else {
      var head: string := if a[0] == '*' then [] else [a[0]];
      assert (a + b)[0] == a[0];
      assert (a + b)[1..] == a[1..] + b;
      assert RemoveStars(a + b) == head + RemoveStars(a[1..] + b);
      RemoveStarsAppend(a[1..], b);
      assert RemoveStars(a) == head + RemoveStars(a[1..]);
      assert head + (RemoveStars(a[1..]) + RemoveStars(b)) == (head + RemoveStars(a[1..])) + RemoveStars(b);
    }
  }

  /** Removal deletes every '*' and keeps every other character as often as it occurs. */
  lemma {:induction false} RemoveStarsCounts(s: string)
    ensures multiset(RemoveStars(s)) == multiset(s)['*' := 0]
    decreases |s|
  {
    if s != [] {
      assert s == [s[0]] + s[1..];
      RemoveStarsCounts(s[1..]);
    }
  }

  /** Text without '*' is unchanged by the removal. */
  lemma {:induction false} RemoveStarsNoStars(s: string)
    requires '*' !in s
    ensures RemoveStars(s) == s
    decreases |s|
  {
    if s != [] {
      assert s == [s[0]] + s[1..];
      RemoveStarsNoStars(s[1..]);
    }
  }

  /** Removing '*' on its own is idempotent. */
  lemma RemoveStarsIdempotent(s: string)
    ensures RemoveStars(RemoveStars(s)) == RemoveStars(s)
  {
    RemoveStarsNoStars(RemoveStars(s));
  }

  // ---------------------------------------------------------------------
  // clean_text

  /** `clean_text(t)` is `strip(t)` with every '*' removed: the core of `t`
      between its surrounding whitespace, asterisks deleted. */
  lemma CleanTextOfPadded(a: string, m: string, b: string)
    requires AllSpace(a) && AllSpace(b) && Bare(m)
    ensures CleanText(a + m + b) == RemoveStars(m)
  {
    StripOfPadded(a, m, b);
  }

  /** Text with no '*' and no surrounding whitespace is returned unchanged. */
  lemma CleanTextFixesClean(t: string)
    requires '*' !in t && Bare(t)
    ensures CleanText(t) == t
  {
    StripBare(t);
    RemoveStarsNoStars(t);
  }

  /** Cleaning twice equals cleaning once whenever the first result has no
      surrounding whitespace. */
  lemma CleanTextIdempotentWhenBare(t: string)
    requires Bare(CleanText(t))
    ensures CleanText(CleanText(t)) == CleanText(t)
  {
    CleanTextFixesClean(CleanText(t));
  }

  /** The first cleaning of "* a": the string is already bare, so only '*' goes. */
  lemma CleanStarSpaceA()
    ensures CleanText("* a") == " a"
  {
    var once: string := " a";
    assert Bare("* a");
    StripBare("* a");
    assert "* a" == ['*'] + once;
    RemoveStarsNoStars(once);
  }

  /** The second cleaning: the exposed leading space is stripped. */
  lemma CleanSpaceA()
    ensures CleanText(" a") == "a"
  {
    assert " a" == [' '] + "a" + [];
    assert AllSpace([' ']);
    StripOfPadded([' '], "a", []);
    RemoveStarsNoStars("a");
  }

  /** Not idempotent in general: deleting a leading '*' can expose whitespace. */
  lemma CleanTextNotIdempotent()
    ensures CleanText("* a") == " a"
    ensures CleanText(CleanText("* a")) == "a"
  {
    CleanStarSpaceA();
    CleanSpaceA();
  }
}
