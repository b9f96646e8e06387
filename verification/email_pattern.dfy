/**
 * The address pattern of the user model, `/^[^\s@]+@[^\s@]+\.[^\s@]+$/`
 * without flags: a non-empty run, `@`, a non-empty run, a literal dot and a
 * non-empty run, where a run contains neither white space nor `@`. Anchored
 * at both ends, it must cover the whole string.
 */
module EmailPattern {
  import opened JsValues

  /** A character of the class `[^\s@]`. */
  predicate AddressChar(c: char)
  {
    !IsWhitespace(c) && c != '@'
  }

  /** `[^\s@]+`: a non-empty run of address characters. */
  predicate AddressRun(s: string)
  {
    s != [] && forall k :: 0 <= k < |s| ==> AddressChar(s[k])
  }

  /** `s` matches the pattern: it splits at an `@` and a later dot into three runs. */
  predicate MatchesEmail(s: string)
  {
    exists i, j :: 0 <= i < j < |s| && s[i] == '@' && s[j] == '.'
      && AddressRun(s[..i]) && AddressRun(s[i + 1..j]) && AddressRun(s[j + 1..])
  }

  /**
   * The same language described without the pattern: no white space, exactly
   * one `@`, not first, and a dot after it that is neither right after the
   * `@` nor last.
   */
  predicate AddressShape(s: string)
  {
    && (forall k :: 0 <= k < |s| ==> !IsWhitespace(s[k]))
    && exists i :: 0 < i < |s| && s[i] == '@' && (forall k :: 0 <= k < |s| && k != i ==> s[k] != '@')
        && exists j :: i + 1 < j < |s| - 1 && s[j] == '.'
  }

  /** The pattern accepts exactly the strings of `AddressShape`. */
  lemma MatchesIffShape(s: string)
    ensures MatchesEmail(s) <==> AddressShape(s)
  {
    if MatchesEmail(s) {
      var i, j :| 0 <= i < j < |s| && s[i] == '@' && s[j] == '.'
        && AddressRun(s[..i]) && AddressRun(s[i + 1..j]) && AddressRun(s[j + 1..]);
      MatchHasShape(s, i, j);
    }
    if AddressShape(s) {
      var i :| 0 < i < |s| && s[i] == '@' && (forall k :: 0 <= k < |s| && k != i ==> s[k] != '@')
        && exists j :: i + 1 < j < |s| - 1 && s[j] == '.';
      var j :| i + 1 < j < |s| - 1 && s[j] == '.';
      ShapeMatches(s, i, j);
    }
  }

  lemma MatchHasShape(s: string, i: nat, j: nat)
    requires i < j < |s| && s[i] == '@' && s[j] == '.'
    requires AddressRun(s[..i]) && AddressRun(s[i + 1..j]) && AddressRun(s[j + 1..])
    ensures AddressShape(s)
  {
    forall k | 0 <= k < |s| && k != i && k != j
      ensures AddressChar(s[k])
    {
      if k < i {
        assert s[..i][k] == s[k];
      } else if k < j {
        assert s[i + 1..j][k - i - 1] == s[k];
      } else {
        assert s[j + 1..][k - j - 1] == s[k];
      }
    }
    assert |s[i + 1..j]| > 0 && |s[j + 1..]| > 0;
  }

  lemma ShapeMatches(s: string, i: nat, j: nat)
    requires 0 < i && i + 1 < j < |s| - 1 && s[i] == '@' && s[j] == '.'
    requires forall k :: 0 <= k < |s| ==> !IsWhitespace(s[k])
    requires forall k :: 0 <= k < |s| && k != i ==> s[k] != '@'
    ensures MatchesEmail(s)
  {
    assert AddressRun(s[..i]) by {
      forall k | 0 <= k < i ensures AddressChar(s[..i][k]) {
        assert s[..i][k] == s[k];
      }
    }
    var domain, top := s[i + 1..j], s[j + 1..];
    assert AddressRun(domain) by {
      forall k | 0 <= k < |domain| ensures AddressChar(domain[k]) {
        assert domain[k] == s[i + 1 + k];
      }
    }
    assert AddressRun(top) by {
      forall k | 0 <= k < |top| ensures AddressChar(top[k]) {
        assert top[k] == s[j + 1 + k];
      }
    }
  }

  /** A string of white space only, empty or not, never matches. */
  lemma BlankNeverMatches(s: string)
    requires AllWhitespace(s)
    ensures !MatchesEmail(s)
  {
    MatchesIffShape(s);
    if s != [] {
      assert IsWhitespace(s[0]);
    }
  }
}
