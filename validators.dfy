/** The username rules of `src/validators.js`: normalisation (trim, then
    lower-case) and the check against `/^[A-Za-z0-9_]{3,16}$/` of the trimmed
    input. */
module Validators {
  import opened Strings

  /** The argument as JavaScript sees it: a string, or any other value. */
  datatype Input = Str(s: string) | NotString

  /** A character of the class `[A-Za-z0-9_]`. */
  predicate UsernameChar(c: char) {
    'A' <= c <= 'Z' || 'a' <= c <= 'z' || '0' <= c <= '9' || c == '_'
  }

  /** Every character of `t` is in the class. */
  predicate UsernameChars(t: string) {
    t == [] || (UsernameChar(t[0]) && UsernameChars(t[1..]))
  }

  /** The anchored pattern `^[A-Za-z0-9_]{3,16}$` matches all of `t`. */
  predicate UsernamePattern(t: string) {
    3 <= |t| <= 16 && UsernameChars(t)
  }

  /** `normalizeUsername`: a string is trimmed and lower-cased, anything else
      becomes the empty string. */
  function NormalizeUsername(x: Input): (r: string)
    ensures x.NotString? ==> r == ""
    ensures x.Str? ==> |r| <= |x.s|
    ensures forall i :: 0 <= i < |r| ==> !('A' <= r[i] <= 'Z')
  {
    match x
    case Str(s) => ToLower(Trim(s))
    case NotString => ""
  }

  /** `validateUsername`: an empty or non-string input is refused; otherwise
      the trimmed string must match the pattern. */
  function ValidateUsername(x: Input): (r: bool)
    ensures r ==> x.Str? && x.s != []
    ensures r ==> 3 <= |Trim(x.s)| <= 16
  {
    match x
    case Str(s) => s != [] && UsernamePattern(Trim(s))
    case NotString => false
  }

  /** The class test holds of `t` exactly when it holds of each character. */
  lemma {:induction false} UsernameCharsAt(t: string)
    ensures UsernameChars(t) <==> forall i :: 0 <= i < |t| ==> UsernameChar(t[i])
  {
    if t != [] {
      UsernameCharsAt(t[1..]);
      assert forall i :: 1 <= i < |t| ==> t[1..][i - 1] == t[i];
    }
  }

  lemma LowerCharWhitespace(c: char)
    ensures IsWhitespace(LowerChar(c)) <==> IsWhitespace(c)
  {
  }

  lemma {:induction false} TrimStartToLower(s: string)
    ensures TrimStart(ToLower(s)) == ToLower(TrimStart(s))
  {
    if s != [] {
      LowerCharWhitespace(s[0]);
      assert ToLower(s)[1..] == ToLower(s[1..]);
      if IsWhitespace(s[0]) {
        TrimStartToLower(s[1..]);
      }
    }
  }

  lemma {:induction false} TrimEndToLower(s: string)
    ensures TrimEnd(ToLower(s)) == ToLower(TrimEnd(s))
  {
    if s != [] {
      LowerCharWhitespace(s[|s| - 1]);
      assert ToLower(s)[..|s| - 1] == ToLower(s[..|s| - 1]);
      if IsWhitespace(s[|s| - 1]) {
        TrimEndToLower(s[..|s| - 1]);
      }
    }
  }

  /** Trimming and lower-casing commute. */
  lemma TrimToLower(s: string)
    ensures Trim(ToLower(s)) == ToLower(Trim(s))
  {
    TrimStartToLower(s);
    TrimEndToLower(TrimStart(s));
  }

  lemma ToLowerIdempotent(s: string)
    ensures ToLower(ToLower(s)) == ToLower(s)
  {
  }

  /** Normalising a normalised name changes nothing. */
  lemma NormalizeIdempotent(x: Input)
    ensures NormalizeUsername(Str(NormalizeUsername(x))) == NormalizeUsername(x)
  {
    if x.Str? {
      var t := Trim(x.s);
      TrimToLower(t);
      TrimIdempotent(x.s);
      ToLowerIdempotent(t);
    }
  }

  /** Surrounding whitespace never changes the verdict (a blank string is
      refused either way). */
  lemma ValidateIgnoresEdges(s: string)
    ensures ValidateUsername(Str(s)) == ValidateUsername(Str(Trim(s)))
  {
    TrimIdempotent(s);
  }

  lemma {:induction false} LowerKeepsChars(t: string)
    requires UsernameChars(t)
    ensures UsernameChars(ToLower(t))
  {
    if t != [] {
      LowerKeepsChars(t[1..]);
      assert ToLower(t)[1..] == ToLower(t[1..]);
    }
  }

  lemma TrimFixesLower(t: string)
    requires TrimStart(t) == t && TrimEnd(t) == t
    ensures TrimStart(ToLower(t)) == ToLower(t) && TrimEnd(ToLower(t)) == ToLower(t)
  {
    TrimStartToLower(t);
    TrimEndToLower(t);
  }

  /** A valid name stays valid, and keeps its length, once normalised. */
  lemma NormalizeKeepsValid(x: Input)
    requires ValidateUsername(x)
    ensures ValidateUsername(Str(NormalizeUsername(x)))
    ensures |NormalizeUsername(x)| == |Trim(x.s)|
  {
    var t := Trim(x.s);
    TrimToLower(t);
    TrimmedFixes(x.s);
    TrimFixesLower(t);
    LowerKeepsChars(t);
  }

  /** For a string with no whitespace at either end the verdict is the
      pattern's, stated character by character. */
  lemma ValidateTrimmed(x: Input)
    requires x.Str? && TrimStart(x.s) == x.s && TrimEnd(x.s) == x.s
    ensures ValidateUsername(x) <==> 3 <= |x.s| <= 16 && forall i :: 0 <= i < |x.s| ==> UsernameChar(x.s[i])
  {
    UsernameCharsAt(x.s);
  }

  /** Three characters is the shortest accepted name. */
  lemma AcceptsThree()
    ensures ValidateUsername(Str("abc"))
  {
    TrimFixes("abc");
    ValidateTrimmed(Str("abc"));
  }

  lemma RejectsTwo()
    ensures !ValidateUsername(Str("ab"))
  {
    TrimFixes("ab");
    ValidateTrimmed(Str("ab"));
  }

  /** Seventeen characters is too many. */
  lemma RejectsSeventeen()
    ensures !ValidateUsername(Str("1startsWithNumber"))
  {
    TrimFixes("1startsWithNumber");
    ValidateTrimmed(Str("1startsWithNumber"));
  }

  /** `-` is outside the class. */
  lemma RejectsDash()
    ensures !ValidateUsername(Str("bad-char!"))
  {
    TrimFixes("bad-char!");
    ValidateTrimmed(Str("bad-char!"));
    assert !UsernameChar("bad-char!"[3]);
  }

  /** As written, the pattern admits capitals: the name the tests expect
      to be refused is accepted. */
  lemma AcceptsUppercase()
    ensures ValidateUsername(Str("UPPERCASE"))
  {
    ValidateJoined("UPPERCASE", "UPPER", "CASE");
  }

  /** Two runs of the class, the first not starting and the second not
      ending with whitespace, make a valid name of 3 to 16 characters. */
  lemma ValidateJoined(s: string, a: string, b: string)
    requires s == a + b && a != [] && b != [] && 3 <= |s| <= 16
    requires UsernameChars(a) && UsernameChars(b)
    ensures ValidateUsername(Str(s))
  {
    UsernameCharsAt(a);
    UsernameCharsAt(b);
    assert (a + b)[0] == a[0] && (a + b)[|a + b| - 1] == b[|b| - 1];
    TrimFixes(a + b);
    CharsConcat(a, b);
  }

  /** The class test holds of a concatenation when it holds of both parts. */
  lemma {:induction false} CharsConcat(a: string, b: string)
    requires UsernameChars(a) && UsernameChars(b)
    ensures UsernameChars(a + b)
  {
    if a != [] {
      CharsConcat(a[1..], b);
      assert (a + b)[0] == a[0] && (a + b)[1..] == a[1..] + b;
    } else {
      assert a + b == b;
    }
  }

  /** The test's 12-character `long_name_16` is accepted. */
  lemma AcceptsSixteen()
    ensures ValidateUsername(Str("long_name_16"))
  {
    IntendedAcceptsSixteen();
    IntendedIsStricter(Str("long_name_16"));
  }

  lemma RejectsTooLong()
    ensures !ValidateUsername(Str("toolongusernameoverlimit"))
  {
    TrimFixes("toolongusernameoverlimit");
  }

  /** As written, the pattern admits a leading digit. */
  lemma AcceptsLeadingDigit()
    ensures ValidateUsername(Str("1abc"))
  {
    TrimFixes("1abc");
    ValidateTrimmed(Str("1abc"));
  }

  /** A character allowed after the first one of a lower-case name. */
  predicate LowerUsernameChar(c: char) {
    'a' <= c <= 'z' || '0' <= c <= '9' || c == '_'
  }

  predicate LowerUsernameChars(t: string) {
    t == [] || (LowerUsernameChar(t[0]) && LowerUsernameChars(t[1..]))
  }

  /** The rule the design states: 3 to 16 characters, a lower-case letter
      first and lower-case letters, digits or `_` after it. */
  function IntendedUsername(x: Input): (r: bool)
    ensures r ==> x.Str? && 3 <= |Trim(x.s)| <= 16 && 'a' <= Trim(x.s)[0] <= 'z'
  {
    match x
    case Str(s) =>
      var t := Trim(s);
      3 <= |t| <= 16 && 'a' <= t[0] <= 'z' && LowerUsernameChars(t)
    case NotString => false
  }

  lemma {:induction false} LowerCharsAreChars(t: string)
    requires LowerUsernameChars(t)
    ensures UsernameChars(t) && ToLower(t) == t
  {
    if t != [] {
      LowerCharsAreChars(t[1..]);
    }
  }

  /** The intended rule is stricter than the pattern, and a name it accepts
      is its own normal form. */
  lemma IntendedIsStricter(x: Input)
    requires IntendedUsername(x)
    ensures ValidateUsername(x)
    ensures NormalizeUsername(x) == Trim(x.s)
  {
    LowerCharsAreChars(Trim(x.s));
  }

  lemma IntendedTrimmed(x: Input)
    requires x.Str? && TrimStart(x.s) == x.s && TrimEnd(x.s) == x.s
    ensures IntendedUsername(x) <==>
      3 <= |x.s| <= 16 && 'a' <= x.s[0] <= 'z' && forall i :: 0 <= i < |x.s| ==> LowerUsernameChar(x.s[i])
  {
    LowerCharsAt(x.s);
  }

  lemma {:induction false} LowerCharsAt(t: string)
    ensures LowerUsernameChars(t) <==> forall i :: 0 <= i < |t| ==> LowerUsernameChar(t[i])
  {
    if t != [] {
      LowerCharsAt(t[1..]);
      assert forall i :: 1 <= i < |t| ==> t[1..][i - 1] == t[i];
    }
  }

  /** The intended rule refuses capitals. */
  lemma IntendedRejectsUppercase()
    ensures !IntendedUsername(Str("UPPERCASE"))
  {
    TrimFixes("UPPERCASE");
    IntendedTrimmed(Str("UPPERCASE"));
  }

  /** The intended rule refuses a leading digit. */
  lemma IntendedRejectsLeadingDigit()
    ensures !IntendedUsername(Str("1abc"))
  {
    TrimFixes("1abc");
    IntendedTrimmed(Str("1abc"));
  }

  /** The intended rule accepts the names the tests accept. */
  lemma IntendedAcceptsPlayer()
    ensures IntendedUsername(Str("player1"))
  {
    TrimFixes("player1");
    IntendedTrimmed(Str("player1"));
  }

  lemma IntendedAcceptsHero()
    ensures IntendedUsername(Str("hero_123"))
  {
    TrimFixes("hero_123");
    assert LowerUsernameChars("hero_123");
  }

  lemma IntendedAcceptsThree()
    ensures IntendedUsername(Str("abc"))
  {
    TrimFixes("abc");
    IntendedTrimmed(Str("abc"));
  }

  lemma IntendedAcceptsSixteen()
    ensures IntendedUsername(Str("long_name_16"))
  {
    IntendedJoined("long_name_16", "long_", "name_16");
  }

  /** A lower-case letter followed by runs of `[a-z0-9_]`: the corrected
      rule accepts it when it has 3 to 16 characters. */
  lemma IntendedJoined(s: string, a: string, b: string)
    requires s == a + b && a != [] && b != [] && 3 <= |s| <= 16 && 'a' <= a[0] <= 'z'
    requires LowerUsernameChars(a) && LowerUsernameChars(b)
    ensures IntendedUsername(Str(s))
  {
    LowerCharsAt(b);
    assert (a + b)[0] == a[0] && (a + b)[|a + b| - 1] == b[|b| - 1];
    TrimFixes(a + b);
    LowerCharsConcat(a, b);
  }

  /** The lower-case class test holds of a concatenation when it holds of both parts. */
  lemma {:induction false} LowerCharsConcat(a: string, b: string)
    requires LowerUsernameChars(a) && LowerUsernameChars(b)
    ensures LowerUsernameChars(a + b)
  {
    if a != [] {
      LowerCharsConcat(a[1..], b);
      assert (a + b)[0] == a[0] && (a + b)[1..] == a[1..] + b;
    } else {
      assert a + b == b;
    }
  }
}
