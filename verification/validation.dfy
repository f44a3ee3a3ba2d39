/**
  `ValidationUtils` (src/utils/ValidationUtils.ts): the e-mail and phone
  number checks, each a regular-expression test on the whole string.

  The e-mail pattern `^[^\s@]+@[^\s@]+\.[^\s@]+$` is given as the language
  it denotes (`EmailPattern`) and as a direct check (`ValidateEmail`); the two
  are proved to agree. `\s` is the JavaScript whitespace class and `\d` the
  ASCII digits.
*/
module Validation {
  import Seqs

  /** The characters JavaScript's `\s` matches. */
  predicate IsJsWhitespace(c: char)
  {
    || c == '\t' || c == '\n' || c == '\U{000B}' || c == '\U{000C}' || c == '\r' || c == ' '
    || c == '\U{00A0}' || c == '\U{1680}' || ('\U{2000}' <= c <= '\U{200A}')
    || c == '\U{2028}' || c == '\U{2029}' || c == '\U{202F}' || c == '\U{205F}'
    || c == '\U{3000}' || c == '\U{FEFF}'
  }

  /** A run `[^\s@]+`: at least one character, none of them whitespace or '@'. */
  ghost predicate Segment(x: string)
  {
    |x| > 0 && forall k | 0 <= k < |x| :: !IsJsWhitespace(x[k]) && x[k] != '@'
  }

  /**
    The strings `^[^\s@]+@[^\s@]+\.[^\s@]+$` matches: a run, '@' at `i`, a run,
    '.' at `j`, a run. (`[^\s@]` admits '.', so `j` may be any dot that leaves
    a run on both sides.)
  */
  ghost predicate EmailPattern(s: string)
  {
    exists i, j | 0 < i && i + 1 < j < |s| - 1 ::
      s[i] == '@' && s[j] == '.' && Segment(s[..i]) && Segment(s[i + 1..j]) && Segment(s[j + 1..])
  }

  predicate NoWhitespace(s: string)
  {
    forall k | 0 <= k < |s| :: !IsJsWhitespace(s[k])
  }

  /**
    `validateEmail`: no whitespace; a first '@' after at least one
    character and no second '@'; a '.' after the '@' with at least one
    character on each side of it.
  */
  predicate ValidateEmail(s: string)
  {
    var at := Seqs.FirstIndex(s, c => c == '@');
    && NoWhitespace(s)
    && at > 0
    && '@' !in s[at + 1..]
    && at + 2 < |s|
    && '.' in s[at + 2..|s| - 1]
  }

  /** The check accepts exactly the strings the e-mail pattern matches. */
  lemma ValidateEmailIsPattern(s: string)
    ensures ValidateEmail(s) <==> EmailPattern(s)
  {
    if ValidateEmail(s) {
      ValidEmailMatches(s);
    }
    if EmailPattern(s) {
      var i, j :| 0 < i && i + 1 < j < |s| - 1 &&
        s[i] == '@' && s[j] == '.' && Segment(s[..i]) && Segment(s[i + 1..j]) && Segment(s[j + 1..]);
      PatternIsValid(s, i, j);
    }
  }

  lemma ValidEmailMatches(s: string)
    requires ValidateEmail(s)
    ensures EmailPattern(s)
  {
    var i := Seqs.FirstIndex(s, c => c == '@');
    var k :| 0 <= k < |s[i + 2..|s| - 1]| && s[i + 2..|s| - 1][k] == '.';
    var j := i + 2 + k;
    assert s[j] == '.';
    assert forall m | 0 <= m < i :: s[..i][m] == s[m] && s[m] != '@';
    assert Segment(s[..i]);
    assert forall m | i + 1 <= m < |s| :: s[m] in s[i + 1..];
    assert Segment(s[i + 1..j]);
    assert Segment(s[j + 1..]);
  }

  lemma PatternIsValid(s: string, i: int, j: int)
    requires 0 < i && i + 1 < j < |s| - 1
    requires s[i] == '@' && s[j] == '.' && Segment(s[..i]) && Segment(s[i + 1..j]) && Segment(s[j + 1..])
    ensures ValidateEmail(s)
  {
    forall m | 0 <= m < |s|
      ensures !IsJsWhitespace(s[m])
      ensures m != i ==> s[m] != '@'
    {
      if m < i {
        assert s[m] == s[..i][m];
      } else if i < m < j {
        assert s[m] == s[i + 1..j][m - i - 1];
      } else if j < m {
        assert s[m] == s[j + 1..][m - j - 1];
      }
    }
    var at := Seqs.FirstIndex(s, c => c == '@');
    assert at == i;
    assert s[at + 2..|s| - 1][j - at - 2] == '.';
  }

  /** The empty string is not an e-mail address. */
  lemma EmailRejectsEmpty()
    ensures !ValidateEmail("")
  {
  }

  /** A string without '@' is not an e-mail address. */
  lemma EmailRejectsNoAt(s: string)
    requires '@' !in s
    ensures !ValidateEmail(s)
  {
  }

  /** "a@b" has no dot after the '@'. */
  lemma EmailRejectsNoDot()
    ensures !ValidateEmail("a@b")
  {
    ValidateEmailIsPattern("a@b");
  }

  /** "a@.b" has nothing between the '@' and the dot. */
  lemma EmailRejectsDotAfterAt()
    ensures !ValidateEmail("a@.b")
  {
    ValidateEmailIsPattern("a@.b");
  }

  /** "a@b." has nothing after the dot. */
  lemma EmailRejectsTrailingDot()
    ensures !ValidateEmail("a@b.")
  {
    ValidateEmailIsPattern("a@b.");
  }

  /** "a@b.c" is accepted. */
  lemma EmailAcceptsShortest()
    ensures ValidateEmail("a@b.c")
  {
    var s := "a@b.c";
    assert Segment(s[..1]) by {
      assert |s[..1]| == 1 && s[..1][0] == 'a';
    }
    assert Segment(s[2..3]) by {
      assert |s[2..3]| == 1 && s[2..3][0] == 'b';
    }
    assert Segment(s[4..]) by {
      assert |s[4..]| == 1 && s[4..][0] == 'c';
    }
    PatternIsValid(s, 1, 3);
  }

  /** A string with a second '@' is never accepted. */
  lemma EmailRejectsSecondAt(s: string, i: int, j: int)
    requires 0 <= i < j < |s| && s[i] == '@' && s[j] == '@'
    ensures !ValidateEmail(s)
  {
  }

  /** `\d`, `\s`, '+', '-', '(' and ')': the characters a phone number may hold. */
  predicate IsPhoneChar(c: char)
  {
    ('0' <= c <= '9') || IsJsWhitespace(c) || c == '+' || c == '-' || c == '(' || c == ')'
  }

  /** Every character of `s` may appear in a phone number, checked from the front. */
  function AllPhoneChars(s: string): (r: bool)
    ensures r <==> forall k | 0 <= k < |s| :: IsPhoneChar(s[k])
  {
    if s == [] then true
    else IsPhoneChar(s[0]) && AllPhoneChars(s[1..])
  }

  /** `validatePhoneNumber`: 8 to 20 characters, each a digit, whitespace, '+', '-', '(' or ')'. */
  predicate ValidatePhoneNumber(s: string)
  {
    8 <= |s| <= 20 && AllPhoneChars(s)
  }

  /** Whatever its characters, a string of 7 or fewer, or of 21 or more, is rejected. */
  lemma PhoneRejectsLength(s: string)
    requires |s| <= 7 || |s| >= 21
    ensures !ValidatePhoneNumber(s)
  {
  }

  /** A phone number with one character outside the class is rejected, whatever its length. */
  lemma PhoneRejectsCharacter(s: string, k: int)
    requires 0 <= k < |s| && !IsPhoneChar(s[k])
    ensures !ValidatePhoneNumber(s)
  {
  }

  /** "+44 1234-5678" is accepted. */
  lemma PhoneAcceptsExample()
    ensures ValidatePhoneNumber("+44 1234-5678")
  {
    var s := "+44 1234-5678";
    assert forall k | 0 <= k < |s| :: IsPhoneChar(s[k]);
  }
}
