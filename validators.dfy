/** The field rules of the sign-in and sign-up forms: each regular expression as written
    (a `Pattern` value), a direct reading of what it accepts, and a lemma that the two agree;
    the "required, then format" rule that turns a field into at most one error; and the
    upload check on a chosen file's type and size. */
module Validators {
  import opened Common
  import opened Pattern

  const Required := "Required field *"

  const Domain := "@unisabana.edu.co"

  /** The format messages the two sign-up forms share. */
  const OnlyLetters := "Only letters allowed *"
  const EmailMessage := "Must end with @unisabana.edu.co *"
  const PhoneMessage := "Must start with 3 and have 10 digits *"
  const PasswordMessage := "8 chars, 1 uppercase, 1 number, 1 symbol *"

  /** The avatar messages the two sign-up forms share. */
  const ImageTypeMessage := "Formato no soportado. Usa JPG o PNG. *"
  const ImageSizeMessage := "Archivo muy grande. Máx 2MB. *"

  /** /^[A-Za-zÁÉÍÓÚáéíóúÑñ\s]+$/ */
  const NameRegex := [Rep(NameChar, 1, None)]
  /** /^0{4}\d{6}$/ */
  const DriverIdRegex := [Lit("0000"), Rep(Digit, 6, Some(6))]
  /** /^\d{5}$/ */
  const PassengerIdRegex := [Rep(Digit, 5, Some(5))]
  /** /^[A-Za-z0-9._%+-]+@unisabana\.edu\.co$/ */
  const EmailRegex := [Rep(EmailLocal, 1, None), Lit(Domain)]
  /** /^3\d{9}$/ */
  const PhoneRegex := [Lit("3"), Rep(Digit, 9, Some(9))]
  /** /^(?=.*[A-Z])(?=.*\d)(?=.*[symbols]).{8,}$/ */
  const PasswordRegex := [Ahead(Upper), Ahead(Digit), Ahead(Symbol), Rep(AnyButNewline, 8, None)]
  /** /^[A-Z]{3}\d{3}$/i */
  const PlateRegex := [Rep(Letter, 3, Some(3)), Rep(Digit, 3, Some(3))]

  predicate IsName(s: string) {
    |s| >= 1 && forall k :: 0 <= k < |s| ==> IsNameChar(s[k])
  }

  /** "0000" followed by six digits. */
  predicate IsDriverId(s: string) {
    |s| == 10 && s[..4] == "0000" && AllDigits(s[4..])
  }

  /** Exactly five digits. */
  predicate IsPassengerId(s: string) {
    |s| == 5 && AllDigits(s)
  }

  /** A non-empty local part of `[A-Za-z0-9._%+-]` then exactly the university domain. */
  predicate IsInstitutionalEmail(s: string) {
    |s| > |Domain| && s[|s| - |Domain|..] == Domain
    && forall k :: 0 <= k < |s| - |Domain| ==> IsEmailLocalChar(s[k])
  }

  /** "3" followed by nine digits. */
  predicate IsPhone(s: string) {
    |s| == 10 && s[0] == '3' && AllDigits(s[1..])
  }

  /** At least eight UTF-16 code units (a character outside the Basic Multilingual Plane
      counts twice), none a line terminator, with an ASCII upper-case letter, a digit and a
      listed symbol somewhere. */
  predicate IsStrongPassword(s: string) {
    && UnitLength(s) >= 8
    && (forall k :: 0 <= k < |s| ==> !IsLineTerminator(s[k]))
    && (exists k :: 0 <= k < |s| && IsAsciiUpper(s[k]))
    && (exists k :: 0 <= k < |s| && IsDigit(s[k]))
    && (exists k :: 0 <= k < |s| && IsPasswordSymbol(s[k]))
  }

  /** Three ASCII letters of either case, then three digits. */
  predicate IsPlate(s: string) {
    |s| == 6 && (forall k :: 0 <= k < 3 ==> IsAsciiLetter(s[k]))
    && (forall k :: 3 <= k < 6 ==> IsDigit(s[k]))
  }

  lemma NameRegexMeaning(s: string)
    ensures Matches(NameRegex, s) <==> IsName(s)
  {
    MatchesAtLeast(NameChar, 1, s);
    if AllIn(s, NameChar) {
      ClassUnits(s, NameChar);
    }
  }

  lemma PassengerIdRegexMeaning(s: string)
    ensures Matches(PassengerIdRegex, s) <==> IsPassengerId(s)
  {
    MatchesExactly(Digit, 5, s);
    if AllIn(s, Digit) {
      ClassUnits(s, Digit);
    }
  }

  lemma DriverIdRegexMeaning(s: string)
    ensures Matches(DriverIdRegex, s) <==> IsDriverId(s)
  {
    var rest := DriverIdRegex[1..];
    assert rest == [Rep(Digit, 6, Some(6))];
    if |s| >= 4 {
      MatchesExactly(Digit, 6, s[4..]);
      if AllIn(s[4..], Digit) {
        ClassUnits(s[4..], Digit);
      }
    }
  }

  lemma PhoneRegexMeaning(s: string)
    ensures Matches(PhoneRegex, s) <==> IsPhone(s)
  {
    var rest := PhoneRegex[1..];
    assert rest == [Rep(Digit, 9, Some(9))];
    if |s| >= 1 {
      MatchesExactly(Digit, 9, s[1..]);
      if AllIn(s[1..], Digit) {
        ClassUnits(s[1..], Digit);
      }
      if s[0] == '3' {
        assert s[..1] == "3";
      }
    }
  }

  lemma EmailRegexMeaning(s: string)
    ensures Matches(EmailRegex, s) <==> IsInstitutionalEmail(s)
  {
    var tail := EmailRegex[1..];
    assert tail == [Lit(Domain)];
    assert tail[1..] == [];
    if IsInstitutionalEmail(s) {
      var n := |s| - |Domain|;
      assert s[n..][..|Domain|] == Domain && s[n..][|Domain|..] == [];
      MatchesLiteral(Domain, s[n..]);
      assert AllIn(s[..n], EmailLocal);
    }
    if Matches(EmailRegex, s) {
      var n :| 0 <= n <= |s| && 1 <= UnitLength(s[..n]) && AllIn(s[..n], EmailLocal)
               && Matches(tail, s[n..]);
      assert n != 0 by {
        assert s[..0] == [];
      }
      MatchesLiteral(Domain, s[n..]);
      assert s[|s| - |Domain|..] == s[n..];
      forall k | 0 <= k < |s| - |Domain| ensures IsEmailLocalChar(s[k]) {
        assert s[..n][k] == s[k];
      }
    }
  }

  lemma PlateRegexMeaning(s: string)
    ensures Matches(PlateRegex, s) <==> IsPlate(s)
  {
    if IsPlate(s) {
      PlateMatches(s);
    }
    if Matches(PlateRegex, s) {
      MatchedPlate(s);
    }
  }

  lemma PlateMatches(s: string)
    requires IsPlate(s)
    ensures Matches(PlateRegex, s)
  {
    var tail := PlateRegex[1..];
    assert tail == [Rep(Digit, 3, Some(3))];
    MatchesExactly(Digit, 3, s[3..]);
    assert AllIn(s[..3], Letter);
    ClassUnits(s[..3], Letter);
    ClassUnits(s[3..], Digit);
  }

  lemma MatchedPlate(s: string)
    requires Matches(PlateRegex, s)
    ensures IsPlate(s)
  {
    var tail := PlateRegex[1..];
    assert tail == [Rep(Digit, 3, Some(3))];
    var n :| 0 <= n <= |s| && 3 <= UnitLength(s[..n]) <= 3 && AllIn(s[..n], Letter)
             && Matches(tail, s[n..]);
    ClassUnits(s[..n], Letter);
    MatchesExactly(Digit, 3, s[n..]);
    ClassUnits(s[n..], Digit);
    forall k | 0 <= k < 3 ensures IsAsciiLetter(s[k]) {
      assert s[..n][k] == s[k];
    }
    forall k | 3 <= k < 6 ensures IsDigit(s[k]) {
      assert s[3..][k - 3] == s[k];
    }
  }

  /** A look-ahead for class `k` holds on a string without line terminators exactly when
      some character of the string is in `k`. */
  lemma AheadOnSingleLine(s: string, k: CharClass)
    requires AllIn(s, AnyButNewline)
    ensures AheadHolds(s, k) <==> exists j :: 0 <= j < |s| && InClass(s[j], k)
  {
    if j :| 0 <= j < |s| && InClass(s[j], k) {
      assert AllIn(s[..j], AnyButNewline);
    }
  }

  lemma PasswordRegexMeaning(s: string)
    ensures Matches(PasswordRegex, s) <==> IsStrongPassword(s)
  {
    var p1, p2, p3 := PasswordRegex[1..], PasswordRegex[2..], PasswordRegex[3..];
    assert p1[1..] == p2 && p2[1..] == p3;
    assert p3 == [Rep(AnyButNewline, 8, None)];
    assert Matches(PasswordRegex, s) <==> AheadHolds(s, Upper) && Matches(p1, s);
    assert Matches(p1, s) <==> AheadHolds(s, Digit) && Matches(p2, s);
    assert Matches(p2, s) <==> AheadHolds(s, Symbol) && Matches(p3, s);
    MatchesAtLeast(AnyButNewline, 8, s);
    if Matches(p3, s) || IsStrongPassword(s) {
      LookAheadsOnSingleLine(s);
    }
  }

  /** The password's three look-aheads on a string without line terminators. */
  lemma LookAheadsOnSingleLine(s: string)
    requires AllIn(s, AnyButNewline)
    ensures AheadHolds(s, Upper) <==> exists j :: 0 <= j < |s| && IsAsciiUpper(s[j])
    ensures AheadHolds(s, Digit) <==> exists j :: 0 <= j < |s| && IsDigit(s[j])
    ensures AheadHolds(s, Symbol) <==> exists j :: 0 <= j < |s| && IsPasswordSymbol(s[j])
  {
    AheadOnSingleLine(s, Upper);
    AheadOnSingleLine(s, Digit);
    AheadOnSingleLine(s, Symbol);
  }

  /** The length rule counts code units as JavaScript does: four letters, digits or
      symbols and three emoji make ten units and pass, while seven characters of the Basic
      Multilingual Plane do not. */
  lemma PasswordCountsCodeUnits()
    ensures IsStrongPassword("Aa1!\U{1F600}\U{1F600}\U{1F600}")
    ensures !IsStrongPassword("Aa1!xyz")
  {
    EmojiPasswordStrong("Aa1!\U{1F600}\U{1F600}\U{1F600}");
    SevenUnitsWeak("Aa1!xyz");
  }

  lemma SevenUnitsWeak(s: string)
    requires s == "Aa1!xyz"
    ensures !IsStrongPassword(s)
  {
    UnitLengthBmp(s);
  }

  lemma EmojiPasswordStrong(s: string)
    requires s == "Aa1!\U{1F600}\U{1F600}\U{1F600}"
    ensures IsStrongPassword(s)
  {
    EmojiUnits(s);
    forall k | 0 <= k < |s| ensures !IsLineTerminator(s[k]) {
    }
    assert IsAsciiUpper(s[0]) && IsDigit(s[2]) && IsPasswordSymbol(s[3]);
  }

  lemma EmojiUnits(s: string)
    requires s == "Aa1!\U{1F600}\U{1F600}\U{1F600}"
    ensures UnitLength(s) == 10
  {
    assert s[6..][1..] == [] && UnitLength(s[6..]) == 2;
    assert s[5..][1..] == s[6..] && UnitLength(s[5..]) == 4;
    assert s[4..][1..] == s[5..] && UnitLength(s[4..]) == 6;
    assert s[3..][1..] == s[4..] && UnitLength(s[3..]) == 7;
    assert s[2..][1..] == s[3..] && UnitLength(s[2..]) == 8;
    assert s[1..][1..] == s[2..] && UnitLength(s[1..]) == 9;
  }

  /** The sign-up forms' rule for one field: a value that is empty after trimming gets
      `Required` and its format is not checked; otherwise a failed format check gets the
      field's own message; otherwise there is no error. */
  function FieldError(value: string, formatOk: bool, formatMessage: string): (e: Option<string>)
    ensures e.None? <==> !Blank(value) && formatOk
    ensures Blank(value) ==> e == Some(Required)
    ensures !Blank(value) && !formatOk ==> e == Some(formatMessage)
  {
    TrimEmpty(value);
    if Trim(value) == "" then Some(Required)
    else if !formatOk then Some(formatMessage)
    else None
  }

  // ---------------------------------------------------------------------------
  // Uploads: avatars (JPEG/PNG) and car documents (JPEG/PNG/PDF), at most 2 MB.

  /** A chosen file: its name, MIME type and size in bytes. */
  datatype File = File(name: string, mime: string, size: nat)

  const MaxUploadBytes: nat := 2 * 1024 * 1024

  const ImageTypes := ["image/jpeg", "image/png", "image/jpg"]

  const DocumentTypes := ImageTypes + ["application/pdf"]

  datatype UploadVerdict = NoFile | UnsupportedType | TooLarge | Acceptable(file: File)

  /** The type is checked before the size, so an oversized file of a wrong type is reported
      as a type error. */
  function CheckUpload(file: Option<File>, allowed: seq<string>): (v: UploadVerdict)
    ensures v == NoFile <==> file.None?
    ensures v == UnsupportedType <==> file.Some? && file.value.mime !in allowed
    ensures v == TooLarge <==> file.Some? && file.value.mime in allowed && file.value.size > MaxUploadBytes
    ensures v.Acceptable? <==> file.Some? && file.value.mime in allowed && file.value.size <= MaxUploadBytes
    ensures v.Acceptable? ==> v.file == file.value
  {
    match file
    case None => NoFile
    case Some(f) =>
      if f.mime !in allowed then UnsupportedType
      else if f.size > MaxUploadBytes then TooLarge
      else Acceptable(f)
  }

  /** The 2 MB limit is inclusive: a file of exactly 2 097 152 bytes passes, one byte more
      does not. */
  lemma UploadLimitInclusive(name: string, mime: string)
    requires mime in ImageTypes
    ensures CheckUpload(Some(File(name, mime, 2097152)), ImageTypes).Acceptable?
    ensures CheckUpload(Some(File(name, mime, 2097153)), ImageTypes) == TooLarge
  {
  }
}
