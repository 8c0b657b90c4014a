/**
 * The password strength meter: a length score and a character-class score
 * are counted up, then a cascade of tests maps them to a rating from 1
 * ("Weak") to 4 ("Very Strong"). Passwords of at most five characters get no
 * rating. Writing the rating into the page is not modelled; the result is the
 * rating, or `None` where the page is blanked.
 */
module PasswordStrength {
  import opened Wrappers

  predicate IsUpper(c: char) { 'A' <= c <= 'Z' }
  predicate IsLower(c: char) { 'a' <= c <= 'z' }
  predicate IsDigit(c: char) { '0' <= c <= '9' }

  /** The characters a regular-expression `.` does not match. */
  predicate IsLineTerminator(c: char)
  {
    c == '\n' || c == '\r' || c == '\U{2028}' || c == '\U{2029}'
  }

  /** `/[A-Z]/` matches somewhere. */
  predicate HasUpper(s: string) { exists i :: 0 <= i < |s| && IsUpper(s[i]) }
  /** `/[a-z]/` matches somewhere. */
  predicate HasLower(s: string) { exists i :: 0 <= i < |s| && IsLower(s[i]) }
  /** `/\d+/` matches somewhere. */
  predicate HasDigit(s: string) { exists i :: 0 <= i < |s| && IsDigit(s[i]) }

  /**
   * `/.[…]/` matches somewhere: a character of the class with, just before
   * it, a character that is not a line terminator.
   */
  predicate HasSpecial(s: string, specials: set<char>)
  {
    exists i :: 1 <= i < |s| && s[i] in specials && !IsLineTerminator(s[i - 1])
  }

  /**
   * The class `[!,@,#,$,%,^,&,*,?,_,~,-,(,)]` as a regular expression reads
   * it: the commas are members, and `,-,` is the range from ',' to ',', so
   * '-' is not a member.
   */
  const SpecialsAsWritten: set<char> :=
    {'!', ',', '@', '#', '$', '%', '^', '&', '*', '?', '_', '~', '(', ')'}

  /** The fourteen characters the class lists between its separating commas. */
  const Specials: set<char> :=
    {'!', '@', '#', '$', '%', '^', '&', '*', '?', '_', '~', '-', '(', ')'}

  /** The class as listed, without its separators. */
  const ListedSpecials: string := "!@#$%^&*?_~-()"

  /** `passwordscore`: one point for any length, one above 8, one for 8 to 12, two above 12. */
  function LengthScore(n: nat): (r: int)
    ensures n > 5 ==> 1 <= r <= 4
    ensures n > 5 ==> (r == 1 <==> n <= 7) && (r == 2 <==> n == 8) &&
                      (r == 3 <==> 9 <= n <= 12) && (r == 4 <==> n > 12)
  {
    (if n > 0 then 1 else 0) + (if n > 8 then 1 else 0) +
    (if 8 <= n <= 12 then 1 else 0) + (if n > 12 then 2 else 0)
  }

  /** All four character classes occur. */
  predicate AllClasses(s: string, specials: set<char>)
  {
    HasUpper(s) && HasLower(s) && HasDigit(s) && HasSpecial(s, specials)
  }

  /** `charscore`: one point per character class that occurs. */
  function CharScore(s: string, specials: set<char>): (r: int)
    ensures 0 <= r <= 4
    ensures r == 4 <==> AllClasses(s, specials)
  {
    (if HasUpper(s) then 1 else 0) + (if HasLower(s) then 1 else 0) +
    (if HasDigit(s) then 1 else 0) + (if HasSpecial(s, specials) then 1 else 0)
  }

  /** The cascade from the two scores to the rating. */
  function Rating(passwordScore: int, charScore: int): (r: int)
    ensures 1 <= r <= 4
    ensures r == 4 <==> passwordScore == 4 && charScore == 4
    ensures r == 3 <==> passwordScore == 3 && charScore == 4
    ensures 1 <= passwordScore <= 4 && charScore <= 4 ==>
              (r == 2 <==> passwordScore >= 3 && charScore == 3)
    ensures passwordScore <= 2 ==> r == 1
  {
    if 0 < passwordScore < 2 && charScore <= 3 then 1
    else if passwordScore == 3 && charScore == 4 then 3
    else if passwordScore == 4 && charScore == 4 then 4
    else if passwordScore > 2 && charScore >= 3 then 2
    else 1
  }

  /** The rating with the given special-character class, `None` for at most five characters. */
  function ScoreWith(password: string, specials: set<char>): (r: Option<int>)
    ensures r.Some? <==> |password| > 5
    ensures r.Some? ==> 1 <= r.value <= 4
    ensures r == Some(4) <==> |password| > 12 && AllClasses(password, specials)
    ensures r == Some(3) <==> 9 <= |password| <= 12 && AllClasses(password, specials)
    ensures r == Some(2) <==> |password| >= 9 && CharScore(password, specials) == 3
    ensures 6 <= |password| <= 8 ==> r == Some(1)
  {
    if |password| > 5 then Some(Rating(LengthScore(|password|), CharScore(password, specials)))
    else None
  }

  /** The rating the meter shows, with the special characters it lists. */
  function Score(password: string): (r: Option<int>)
    ensures r.Some? <==> |password| > 5
    ensures r == Some(4) <==> |password| > 12 && HasUpper(password) && HasLower(password) &&
                              HasDigit(password) && HasSpecial(password, Specials)
    ensures r == Some(3) <==> 9 <= |password| <= 12 && HasUpper(password) && HasLower(password) &&
                              HasDigit(password) && HasSpecial(password, Specials)
  {
    ScoreWith(password, Specials)
  }

  /** The rating the meter's pattern actually computes. */
  function ScoreAsWritten(password: string): (r: Option<int>)
    ensures r.Some? <==> |password| > 5
    ensures r == Some(4) <==> |password| > 12 && HasUpper(password) && HasLower(password) &&
                              HasDigit(password) && HasSpecial(password, SpecialsAsWritten)
    ensures r == Some(3) <==> 9 <= |password| <= 12 && HasUpper(password) && HasLower(password) &&
                              HasDigit(password) && HasSpecial(password, SpecialsAsWritten)
  {
    ScoreWith(password, SpecialsAsWritten)
  }

  /**
   * The two readings of the class differ only in ',' and '-': a password
   * with neither is rated the same by both.
   */
  lemma ScoresAgreeWithoutCommaOrHyphen(password: string)
    requires ',' !in password && '-' !in password
    ensures Score(password) == ScoreAsWritten(password)
  {
    forall i | 0 <= i < |password|
      ensures password[i] in Specials <==> password[i] in SpecialsAsWritten
    {
      assert password[i] != ',' && password[i] != '-';
    }
    assert HasSpecial(password, Specials) == HasSpecial(password, SpecialsAsWritten);
  }

  /** The meter, counting its two scores up step by step. */
  method PasswordStrengthScore(password: string) returns (score: Option<int>)
    ensures score == Score(password)
  {
    var n := |password|;
    if n > 5 {
      var charscore, passwordscore := 0, 0;
      if n > 0 {
        passwordscore := passwordscore + 1;
      }
      if n > 8 {
        passwordscore := passwordscore + 1;
      }
      if n >= 8 && n <= 12 {
        passwordscore := passwordscore + 1;
      }
      if n > 12 {
        passwordscore := passwordscore + 2;
      }
      if HasUpper(password) {
        charscore := charscore + 1;
      }
      if HasLower(password) {
        charscore := charscore + 1;
      }
      if HasDigit(password) {
        charscore := charscore + 1;
      }
      if HasSpecial(password, Specials) {
        charscore := charscore + 1;
      }
      var rating;
      if passwordscore > 0 && passwordscore < 2 && charscore <= 3 {
        rating := 1;
      } else if passwordscore == 3 && charscore == 4 {
        rating := 3;
      } else if passwordscore == 4 && charscore == 4 {
        rating := 4;
      } else if passwordscore > 2 && charscore >= 3 {
        rating := 2;
      } else {
        rating := 1;
      }
      score := Some(rating);
    } else {
      score := None;
    }
  }

  /**
   * As written, a trailing '-' earns no special-character point: a twelve
   * character password with all four listed classes is rated "Medium"
   * instead of "Strong".
   */
  lemma HyphenIgnoredAsWritten()
    ensures ScoreAsWritten("Abcdefghij1-") == Some(2)
    ensures Score("Abcdefghij1-") == Some(3)
  {
    var s := "Abcdefghij1-";
    assert IsUpper(s[0]) && IsLower(s[1]) && IsDigit(s[10]);
    assert s[11] in Specials && !IsLineTerminator(s[10]);
    assert !HasSpecial(s, SpecialsAsWritten) by {
      forall i | 1 <= i < |s| ensures s[i] !in SpecialsAsWritten {
      }
    }
  }

  /** As written, a ',' earns the special-character point. */
  lemma CommaCountsAsWritten()
    ensures ScoreAsWritten("Abcdefghij1,") == Some(3)
    ensures Score("Abcdefghij1,") == Some(2)
  {
    var s := "Abcdefghij1,";
    assert IsUpper(s[0]) && IsLower(s[1]) && IsDigit(s[10]);
    assert s[11] in SpecialsAsWritten && !IsLineTerminator(s[10]);
    assert !HasSpecial(s, Specials) by {
      forall i | 1 <= i < |s| ensures s[i] !in Specials {
      }
    }
  }

  /**
   * With the class as listed, each listed character after a first character
   * earns the special-character point, and the separator ',' does not.
   */
  lemma ListedCharacterCounts(s: string, i: nat)
    requires 1 <= i < |s| && s[i] in ListedSpecials && !IsLineTerminator(s[i - 1])
    ensures HasSpecial(s, Specials)
    ensures forall c :: c in Specials <==> c in ListedSpecials
    ensures ',' !in Specials
  {
    assert s[i] in Specials;
  }
}
