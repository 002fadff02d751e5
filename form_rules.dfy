/** Rules shared by the sign-in and registration forms: an input counts as
    missing when it is blank after trimming, and the email shape
    `^[^\s@]+@[^\s@]+\.[^\s@]+$` is applied to the untrimmed input. */
module FormRules {
  import opened Wrappers
  import opened Text

  /** `!value.trim()` */
  predicate Blank(s: string) {
    AllSpace(s)
  }

  /** A run of the pattern's `[^\s@]+`: non-empty, no whitespace, no '@'. */
  ghost predicate Segment(s: string) {
    |s| > 0 && forall k :: 0 <= k < |s| ==> !IsSpace(s[k]) && s[k] != '@'
  }

  /** The meaning of the email pattern: three such runs joined by '@' and '.'. */
  ghost predicate MatchesEmailPattern(s: string) {
    exists a, b, c :: Segment(a) && Segment(b) && Segment(c) && s == a + "@" + b + "." + c
  }

  /** The email test by positions: one '@' after at least one character, a
      '.' at least two characters after it and before the last character, and
      no whitespace and no other '@' anywhere. */
  predicate IsEmailShape(s: string) {
    exists i, j | 0 < i && i + 1 < j < |s| - 1 ::
      s[i] == '@' && s[j] == '.' &&
      forall k | 0 <= k < |s| && k != i :: !IsSpace(s[k]) && s[k] != '@'
  }

  lemma ShapeMatchesPattern(s: string)
    requires IsEmailShape(s)
    ensures MatchesEmailPattern(s)
  {
    var i, j :| 0 < i && i + 1 < j < |s| - 1 && s[i] == '@' && s[j] == '.' &&
      forall k | 0 <= k < |s| && k != i :: !IsSpace(s[k]) && s[k] != '@';
    var a, b, c := s[..i], s[i + 1..j], s[j + 1..];
    assert s == a + "@" + b + "." + c;
    assert Segment(a) by {
      forall k | 0 <= k < |a| ensures !IsSpace(a[k]) && a[k] != '@' {
        assert a[k] == s[k];
      }
    }
    assert Segment(b) by {
      forall k | 0 <= k < |b| ensures !IsSpace(b[k]) && b[k] != '@' {
        assert b[k] == s[i + 1 + k];
      }
    }
    assert Segment(c) by {
      forall k | 0 <= k < |c| ensures !IsSpace(c[k]) && c[k] != '@' {
        assert c[k] == s[j + 1 + k];
      }
    }
  }

  lemma PatternHasShape(s: string)
    requires MatchesEmailPattern(s)
    ensures IsEmailShape(s)
  {
    var a, b, c :| Segment(a) && Segment(b) && Segment(c) && s == a + "@" + b + "." + c;
    var i, j := |a|, |a| + 1 + |b|;
    assert s[i] == '@' && s[j] == '.';
    forall k | 0 <= k < |s| && k != i ensures !IsSpace(s[k]) && s[k] != '@' {
      if k < i {
        assert s[k] == a[k];
      } else if k < j {
        assert s[k] == b[k - i - 1];
      } else if k > j {
        assert s[k] == c[k - j - 1];
      }
    }
    assert 0 < i && i + 1 < j < |s| - 1;
  }

  /** The positional test decides exactly the email pattern. */
  lemma EmailShapeIff(s: string)
    ensures IsEmailShape(s) <==> MatchesEmailPattern(s)
  {
    if IsEmailShape(s) {
      ShapeMatchesPattern(s);
    }
    if MatchesEmailPattern(s) {
      PatternHasShape(s);
    }
  }

  /** A well-shaped email is never blank. */
  lemma EmailShapeNotBlank(s: string)
    requires IsEmailShape(s)
    ensures !Blank(s)
  {
    var i, j :| 0 < i && i + 1 < j < |s| - 1 && s[i] == '@' && s[j] == '.' &&
      forall k | 0 <= k < |s| && k != i :: !IsSpace(s[k]) && s[k] != '@';
    assert !IsSpace(s[0]);
  }

  /** The email field's rule chain, the same on both forms. */
  function EmailError(email: string): (r: Option<string>)
    ensures r == Some("Email is required") <==> Blank(email)
    ensures r == None <==> MatchesEmailPattern(email)
    ensures r.Some? ==> r.value == "Email is required" || r.value == "Please enter a valid email address"
  {
    EmailShapeIff(email);
    if Blank(email) then Some("Email is required")
    else if !IsEmailShape(email) then Some("Please enter a valid email address")
    else
      EmailShapeNotBlank(email);
      None
  }

  predicate HasLower(s: string) { exists k | 0 <= k < |s| :: IsLower(s[k]) }
  predicate HasUpper(s: string) { exists k | 0 <= k < |s| :: IsUpper(s[k]) }
  predicate HasDigit(s: string) { exists k | 0 <= k < |s| :: IsDigit(s[k]) }

  /** A string with a letter or digit in it is not blank. */
  lemma LetterNotBlank(s: string)
    requires HasLower(s) || HasUpper(s) || HasDigit(s)
    ensures !Blank(s)
  {
  }
}
