/**
 * The signup wizards' e-mail check `/^[^\s@]+@[^\s@]+\.[^\s@]+$/`, stated as
 * a predicate on strings, and its characterisation in plain conditions.
 */
module Email {
  import opened JsText

  /** A character of the class `[^\s@]`. */
  predicate SegmentChar(c: char) {
    !IsWhitespace(c) && c != '@'
  }

  /** A string matched by `[^\s@]+`. */
  predicate Segment(s: string) {
    |s| > 0 && forall k :: 0 <= k < |s| ==> SegmentChar(s[k])
  }

  /** The whole string splits as segment, '@', segment, '.', segment. */
  predicate MatchesEmailRegex(s: string) {
    exists i, j :: 0 < i && i + 1 < j && j + 1 < |s| && s[i] == '@' && s[j] == '.'
      && Segment(s[..i]) && Segment(s[i + 1..j]) && Segment(s[j + 1..])
  }

  predicate NoWhitespace(s: string) {
    forall k :: 0 <= k < |s| ==> !IsWhitespace(s[k])
  }

  /** The only '@' in `s` is the one at position `i`. */
  predicate OnlyAtSignAt(s: string, i: int) {
    forall k :: 0 <= k < |s| && s[k] == '@' ==> k == i
  }

  /** Some '.' in `t` has text on both sides. */
  predicate HasInnerDot(t: string) {
    exists j :: 0 < j < |t| - 1 && t[j] == '.'
  }

  /** No whitespace, exactly one '@' with text before it, and after it a '.'
      with text on both sides. */
  predicate IsValidEmail(s: string) {
    NoWhitespace(s)
    && exists i :: 0 < i < |s| && s[i] == '@' && OnlyAtSignAt(s, i) && HasInnerDot(s[i + 1..])
  }

  /** The regular expression accepts exactly the strings of the characterisation. */
  lemma EmailRegexCharacterization(s: string)
    ensures MatchesEmailRegex(s) <==> IsValidEmail(s)
  {
    if MatchesEmailRegex(s) {
      var i, j :| 0 < i && i + 1 < j && j + 1 < |s| && s[i] == '@' && s[j] == '.'
        && Segment(s[..i]) && Segment(s[i + 1..j]) && Segment(s[j + 1..]);
      RegexToCharacterization(s, i, j);
    }
    if IsValidEmail(s) {
      var i :| 0 < i < |s| && s[i] == '@' && OnlyAtSignAt(s, i) && HasInnerDot(s[i + 1..]);
      var t := s[i + 1..];
      var d :| 0 < d < |t| - 1 && t[d] == '.';
      CharacterizationToRegex(s, i, i + 1 + d);
    }
  }

  lemma RegexToCharacterization(s: string, i: int, j: int)
    requires 0 < i && i + 1 < j && j + 1 < |s| && s[i] == '@' && s[j] == '.'
    requires Segment(s[..i]) && Segment(s[i + 1..j]) && Segment(s[j + 1..])
    ensures IsValidEmail(s)
  {
    forall k | 0 <= k < |s|
      ensures !IsWhitespace(s[k]) && (s[k] == '@' ==> k == i)
    {
      if k < i {
        assert s[k] == s[..i][k];
      } else if i < k < j {
        assert s[k] == s[i + 1..j][k - i - 1];
      } else if k > j {
        assert s[k] == s[j + 1..][k - j - 1];
      }
    }
    var t := s[i + 1..];
    assert t[j - i - 1] == '.';
    assert HasInnerDot(t);
  }

  lemma CharacterizationToRegex(s: string, i: int, j: int)
    requires NoWhitespace(s) && 0 < i < |s| && s[i] == '@' && OnlyAtSignAt(s, i)
    requires i + 1 < j && j + 1 < |s| && s[j] == '.'
    ensures MatchesEmailRegex(s)
  {
    assert Segment(s[..i]) by {
      forall k | 0 <= k < i ensures SegmentChar(s[..i][k]) {
        assert s[..i][k] == s[k];
      }
    }
    var domain := s[i + 1..j];
    assert Segment(domain) by {
      forall k | 0 <= k < |domain| ensures SegmentChar(domain[k]) {
        assert domain[k] == s[i + 1 + k];
      }
    }
    var suffix := s[j + 1..];
    assert Segment(suffix) by {
      forall k | 0 <= k < |suffix| ensures SegmentChar(suffix[k]) {
        assert suffix[k] == s[j + 1 + k];
      }
    }
  }

  /** A typical address passes the check. */
  lemma EmailAccepted()
    ensures MatchesEmailRegex("pat@clinic.com")
  {
    var s := "pat@clinic.com";
    assert s[..3] == "pat" && s[4..10] == "clinic" && s[11..] == "com";
    assert Segment("pat") && Segment("clinic") && Segment("com");
    assert s[3] == '@' && s[10] == '.' && Segment(s[..3]) && Segment(s[3 + 1..10]) && Segment(s[10 + 1..]);
  }

  /** An address without a dot after the '@', or with two '@', fails it. */
  lemma EmailRejected()
    ensures !MatchesEmailRegex("pat@clinic")
    ensures !MatchesEmailRegex("pat@@clinic.com")
  {
    var n := "pat@clinic";
    EmailRegexCharacterization(n);
    assert forall i :: 0 < i < |n| && n[i] == '@' ==> i == 3;
    assert !HasInnerDot(n[4..]);
    var d := "pat@@clinic.com";
    EmailRegexCharacterization(d);
    assert d[3] == '@' && d[4] == '@';
  }
}
