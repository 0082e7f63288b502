/**
 * The email test used by both donation forms and the contact form:
 * `/^[^\s@]+@[^\s@]+\.[^\s@]+$/.test(s)`.
 */
module EmailPattern {
  import opened JsText

  /** A member of the character class `[^\s@]`. */
  predicate InClass(c: char)
  {
    !IsJsWhitespace(c) && c != '@'
  }

  /** Every character of `s` is in `[^\s@]`. */
  predicate AllInClass(s: string)
  {
    forall k :: 0 <= k < |s| ==> InClass(s[k])
  }

  /** The regular expression, read off its structure: `s` is `a + "@" + b + "." + c` with
      `a`, `b`, `c` non-empty runs of `[^\s@]`, the '@' at `i` and the '.' at `j`. The
      pattern backtracks over which '.' ends `b`, so any such split is a match. */
  predicate MatchesEmailPattern(s: string)
  {
    exists i, j | 0 < i < j < |s| ::
      i + 1 < j && j + 1 < |s| && s[i] == '@' && s[j] == '.' &&
      AllInClass(s[..i]) && AllInClass(s[i + 1..j]) && AllInClass(s[j + 1..])
  }

  /** `s[i]` is the only '@' in `s`. */
  predicate OnlyAtSignAt(s: string, i: int)
  {
    0 <= i < |s| && s[i] == '@' && forall k :: 0 <= k < |s| && k != i ==> s[k] != '@'
  }

  /** The domain has a '.' that is neither its first nor its last character. */
  predicate HasInnerDot(d: string)
  {
    exists j | 0 < j < |d| - 1 :: d[j] == '.'
  }

  /** The shape of an accepted address, feature by feature: no white space, exactly one '@',
      a non-empty local part before it, and a domain after it with an inner '.'. */
  predicate HasEmailShape(s: string)
  {
    && (forall k :: 0 <= k < |s| ==> !IsJsWhitespace(s[k]))
    && exists i | 0 <= i < |s| :: OnlyAtSignAt(s, i) && i > 0 && HasInnerDot(s[i + 1..])
  }

  /** A string split as the pattern demands has the shape: the only '@' is the one between
      the local part and the domain, and the separating '.' lies strictly inside the domain. */
  lemma ShapeOfSplit(s: string, i: int, j: int)
    requires 0 < i < j < |s| && i + 1 < j && j + 1 < |s| && s[i] == '@' && s[j] == '.'
    requires AllInClass(s[..i]) && AllInClass(s[i + 1..j]) && AllInClass(s[j + 1..])
    ensures HasEmailShape(s)
  {
    var a, b, c := s[..i], s[i + 1..j], s[j + 1..];
    forall k | 0 <= k < |s| && k != i ensures InClass(s[k]) || s[k] == '.' {
      if k < i {
        assert a[k] == s[k];
      } else if k < j {
        assert b[k - i - 1] == s[k];
      } else if k > j {
        assert c[k - j - 1] == s[k];
      }
    }
    assert OnlyAtSignAt(s, i);
    assert s[i + 1..][j - i - 1] == '.';
  }

  /** A string of that shape splits as the pattern demands, at its '@' and at an inner '.'
      of its domain. */
  lemma SplitOfShape(s: string, i: int, p: int)
    requires OnlyAtSignAt(s, i) && i > 0
    requires forall k :: 0 <= k < |s| ==> !IsJsWhitespace(s[k])
    requires 0 < p < |s[i + 1..]| - 1 && s[i + 1..][p] == '.'
    ensures MatchesEmailPattern(s)
  {
    var j := i + 1 + p;
    assert s[j] == s[i + 1..][p];
    var a, b, c := s[..i], s[i + 1..j], s[j + 1..];
    forall k | 0 <= k < |a| ensures InClass(a[k]) { assert a[k] == s[k]; }
    forall k | 0 <= k < |b| ensures InClass(b[k]) { assert b[k] == s[i + 1 + k]; }
    forall k | 0 <= k < |c| ensures InClass(c[k]) { assert c[k] == s[j + 1 + k]; }
  }

  /** The pattern accepts exactly the strings of that shape. */
  lemma EmailPatternIffShape(s: string)
    ensures MatchesEmailPattern(s) <==> HasEmailShape(s)
  {
    if MatchesEmailPattern(s) {
      var i, j :| 0 < i < j < |s| && i + 1 < j && j + 1 < |s| && s[i] == '@' && s[j] == '.' &&
        AllInClass(s[..i]) && AllInClass(s[i + 1..j]) && AllInClass(s[j + 1..]);
      ShapeOfSplit(s, i, j);
    }
    if HasEmailShape(s) {
      var i :| 0 <= i < |s| && OnlyAtSignAt(s, i) && i > 0 && HasInnerDot(s[i + 1..]);
      var p :| 0 < p < |s[i + 1..]| - 1 && s[i + 1..][p] == '.';
      SplitOfShape(s, i, p);
    }
  }
}
