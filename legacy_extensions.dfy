/**
 * The email check of the older Extensions.swift. It spells out the same
 * pattern as Utilities/Extensions.swift, so everything proved there about
 * the accepted strings carries over.
 */
module LegacyExtensions {
  import opened Wrappers
  import opened Pattern
  import Extensions

  /** The pattern "[A-Z0-9a-z._%+-]+@[A-Za-z0-9.-]+\.[A-Za-z]{2,64}". */
  const EmailRegex: Regex := [
    Piece(CharClass([('A', 'Z'), ('0', '9'), ('a', 'z'), ('.', '.'), ('_', '_'), ('%', '%'), ('+', '+'), ('-', '-')]), 1, None),
    Piece(CharClass([('@', '@')]), 1, Some(1)),
    Piece(CharClass([('A', 'Z'), ('a', 'z'), ('0', '9'), ('.', '.'), ('-', '-')]), 1, None),
    Piece(CharClass([('.', '.')]), 1, Some(1)),
    Piece(CharClass([('A', 'Z'), ('a', 'z')]), 2, Some(64))
  ]

  /** isValidEmail: the whole string matches the email pattern. */
  predicate IsValidEmail(s: string) {
    Matches(EmailRegex, s)
  }

  /** The two email checks accept the same strings. */
  lemma AgreesWithUtilities(s: string)
    ensures IsValidEmail(s) <==> Extensions.IsValidEmail(s)
  {
    assert EmailRegex == Extensions.EmailRegex;
  }

  /** A string is accepted exactly when it splits as a local part, '@', a
      domain, '.' and 2 to 64 letters. */
  lemma IsValidEmailShape(s: string)
    ensures IsValidEmail(s) <==> exists at, dot :: Extensions.EmailSplit(s, at, dot)
  {
    AgreesWithUtilities(s);
    Extensions.IsValidEmailShape(s);
  }

  /** Every accepted string holds exactly one '@'. */
  lemma ValidEmailOneAt(s: string)
    ensures IsValidEmail(s) ==> multiset(s)['@'] == 1
  {
    AgreesWithUtilities(s);
    if IsValidEmail(s) {
      Extensions.ValidEmailOneAt(s);
    }
  }

  /** The assertions of the email validation test. */
  lemma EmailValidationTest()
    ensures IsValidEmail("test@example.com")
    ensures !IsValidEmail("invalid-email")
    ensures !IsValidEmail("")
  {
    AgreesWithUtilities("test@example.com");
    AgreesWithUtilities("invalid-email");
    AgreesWithUtilities("");
    Extensions.EmailAcceptsExample();
    Extensions.EmailRejectsExamples();
  }
}
