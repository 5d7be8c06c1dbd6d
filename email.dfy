/**
 * The e-mail check every form applies: `/^[^\s@]+@[^\s@]+\.[^\s@]+$/.test(email)`, and what it
 * means for the shape of an address.
 */
module Email {

  import opened Text

  /** The character class `[^\s@]`. */
  predicate IsAddressChar(c: char) {
    !IsWhitespace(c) && c != '@'
  }

  /** `s` is made of `[^\s@]` characters only (the runs `[^\s@]+` once they are known to be non-empty). */
  predicate AllAddressChars(s: string) {
    forall i | 0 <= i < |s| :: IsAddressChar(s[i])
  }

  /** The pattern matches the whole of `s`: a non-empty run, an `@` at index `i`, a non-empty run, a
      `.` at index `j`, a non-empty run. The middle run may itself hold dots, so `j` is any dot that
      leaves a non-empty run on each side. */
  predicate MatchesPattern(s: string) {
    exists i, j | 0 < i && i + 1 < j < |s| - 1 ::
      s[i] == '@' && s[j] == '.'
      && AllAddressChars(s[..i]) && AllAddressChars(s[i + 1..j]) && AllAddressChars(s[j + 1..])
  }

  /** How many times `c` occurs in `s`. */
  function Count(s: string, c: char): (n: nat) {
    if s == [] then 0 else (if s[0] == c then 1 else 0) + Count(s[1..], c)
  }

  /** A domain with a `.` that is neither its first nor its last character. */
  predicate HasInnerDot(d: string) {
    exists j | 0 < j < |d| - 1 :: d[j] == '.'
  }

  /** The shape of an accepted address stated without the pattern: exactly one `@`, no white space,
      a non-empty local part before the `@`, and a domain after it with an inner dot. */
  ghost predicate WellFormedAddress(s: string) {
    && Count(s, '@') == 1
    && (forall m | 0 <= m < |s| :: !IsWhitespace(s[m]))
    && exists k | 0 < k < |s| :: s[k] == '@' && HasInnerDot(s[k + 1..])
  }

  lemma {:induction false} CountConcat(a: string, b: string, c: char)
    ensures Count(a + b, c) == Count(a, c) + Count(b, c)
  {
    if a == [] {
      assert a + b == b;
    } else {
      assert (a + b)[1..] == a[1..] + b;
      CountConcat(a[1..], b, c);
    }
  }

  lemma {:induction false} CountZero(s: string, c: char)
    ensures Count(s, c) == 0 <==> forall m | 0 <= m < |s| :: s[m] != c
  {
    if s != [] {
      CountZero(s[1..], c);
      assert forall m | 1 <= m < |s| :: s[m] == s[1..][m - 1];
    }
  }

  /** `c` at index `i` and nowhere else: it occurs once. */
  lemma CountOnlyAt(s: string, c: char, i: int)
    requires 0 <= i < |s| && s[i] == c
    requires forall m | 0 <= m < |s| && m != i :: s[m] != c
    ensures Count(s, c) == 1
  {
    assert s == s[..i] + ([s[i]] + s[i + 1..]);
    CountConcat(s[..i], [s[i]] + s[i + 1..], c);
    CountConcat([s[i]], s[i + 1..], c);
    CountZero(s[..i], c);
    CountZero(s[i + 1..], c);
  }

  /** An occurrence once counted once is the only one. */
  lemma CountOneIsUnique(s: string, c: char, k: int, m: int)
    requires Count(s, c) == 1
    requires 0 <= k < |s| && s[k] == c
    requires 0 <= m < |s| && m != k
    ensures s[m] != c
  {
    var lo, hi := if k < m then k else m, if k < m then m else k;
    assert s == s[..hi] + s[hi..];
    CountConcat(s[..hi], s[hi..], c);
    CountZero(s[..hi], c);
    CountZero(s[hi..], c);
    assert s[..hi][lo] == s[lo];
    assert s[hi..][0] == s[hi];
  }

  /** The pattern accepts exactly the well-formed addresses. */
  lemma PatternCharacterization(s: string)
    ensures MatchesPattern(s) <==> WellFormedAddress(s)
  {
    if MatchesPattern(s) {
      PatternIsWellFormed(s);
    }
    if WellFormedAddress(s) {
      WellFormedMatchesPattern(s);
    }
  }

  lemma PatternIsWellFormed(s: string)
    requires MatchesPattern(s)
    ensures WellFormedAddress(s)
  {
    var i, j :| 0 < i && i + 1 < j < |s| - 1 && s[i] == '@' && s[j] == '.'
      && AllAddressChars(s[..i]) && AllAddressChars(s[i + 1..j]) && AllAddressChars(s[j + 1..]);
    var local, mid, tail := s[..i], s[i + 1..j], s[j + 1..];
    forall m | 0 <= m < |s| && m != i ensures IsAddressChar(s[m]) {
      if m < i {
        assert s[m] == local[m];
      } else if m < j {
        assert s[m] == mid[m - i - 1];
      } else if m > j {
        assert s[m] == tail[m - j - 1];
      }
    }
    CountOnlyAt(s, '@', i);
    var d := s[i + 1..];
    assert d[j - i - 1] == '.';
    assert HasInnerDot(d);
  }

  lemma WellFormedMatchesPattern(s: string)
    requires WellFormedAddress(s)
    ensures MatchesPattern(s)
  {
    var k :| 0 < k < |s| && s[k] == '@' && HasInnerDot(s[k + 1..]);
    var d := s[k + 1..];
    var j' :| 0 < j' < |d| - 1 && d[j'] == '.';
    var j := k + 1 + j';
    assert s[j] == '.';
    forall m | 0 <= m < |s| && m != k ensures IsAddressChar(s[m]) {
      CountOneIsUnique(s, '@', k, m);
    }
    var local, mid, tail := s[..k], s[k + 1..j], s[j + 1..];
    assert AllAddressChars(local) by {
      forall m | 0 <= m < |local| ensures IsAddressChar(local[m]) {
        assert local[m] == s[m];
      }
    }
    assert AllAddressChars(mid) by {
      forall m | 0 <= m < |mid| ensures IsAddressChar(mid[m]) {
        assert mid[m] == s[k + 1 + m];
      }
    }
    assert AllAddressChars(tail) by {
      forall m | 0 <= m < |tail| ensures IsAddressChar(tail[m]) {
        assert tail[m] == s[j + 1 + m];
      }
    }
    assert 0 < k && k + 1 < j < |s| - 1;
  }
}
