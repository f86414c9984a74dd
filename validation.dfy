/** The input validation and formatting library of the payment and sign-up
    forms (src/utils/validation.ts). Every regular expression of the source is
    stated here as the language it matches, and each validator is proved to
    decide exactly that language. */
module Validation {
  import opened Lists
  import opened Text

  /** The first `n` elements of `s` (`s.slice(0, n)`). */
  function Take<T>(s: seq<T>, n: nat): (r: seq<T>)
    ensures |r| == if |s| <= n then |s| else n
    ensures r == s[..|r|]
  {
    if |s| <= n then s else s[..n]
  }

  // ---------------------------------------------------------------- sanitizeInput

  predicate IsNotAngleBracket(c: char) {
    c != '<' && c != '>'
  }

  /** `sanitizeInput(input, maxLength)`: trim, drop every '<' and '>', keep at most
      `maxLength` characters. */
  function SanitizeInput(input: string, maxLength: nat): (r: string)
    ensures |r| <= maxLength
    ensures '<' !in r && '>' !in r
    ensures IsSubsequence(r, Trim(input))
    ensures |r| == maxLength || r == Filter(Trim(input), IsNotAngleBracket)
  {
    var cleaned := Filter(Trim(input), IsNotAngleBracket);
    FilterIsSubsequence(Trim(input), IsNotAngleBracket);
    PrefixIsSubsequence(cleaned, |Take(cleaned, maxLength)|);
    SubsequenceTransitive(Take(cleaned, maxLength), cleaned, Trim(input));
    Take(cleaned, maxLength)
  }

  lemma {:induction false} PrefixIsSubsequence<T>(s: seq<T>, n: nat)
    requires n <= |s|
    ensures IsSubsequence(s[..n], s)
    decreases |s|
  {
    if n > 0 {
      PrefixIsSubsequence(s[1..], n - 1);
      assert s[..n][1..] == s[1..][..n - 1];
    }
  }

  lemma {:induction false} SubsequenceTransitive<T>(a: seq<T>, b: seq<T>, c: seq<T>)
    requires IsSubsequence(a, b) && IsSubsequence(b, c)
    ensures IsSubsequence(a, c)
    decreases |c|
  {
    if a != [] {
      assert b != [] && c != [];
      if b[0] == c[0] && IsSubsequence(b[1..], c[1..]) {
        if a[0] == b[0] && IsSubsequence(a[1..], b[1..]) {
          SubsequenceTransitive(a[1..], b[1..], c[1..]);
        } else {
          SubsequenceTransitive(a, b[1..], c[1..]);
        }
      } else {
        SubsequenceTransitive(a, b, c[1..]);
      }
    }
  }

  // ---------------------------------------------------------------- validateEmail

  /** The character class `[^\s@]`, for every character of `t`. */
  predicate NoSpaceNoAt(t: string) {
    forall k :: 0 <= k < |t| ==> !IsWhitespace(t[k]) && t[k] != '@'
  }

  /** `s` splits as local part, '@', domain name, '.', top-level part, each part
      a non-empty run of `[^\s@]`: the language of `/^[^\s@]+@[^\s@]+\.[^\s@]+$/`. */
  ghost predicate SplitsAsEmail(s: string, i: nat, j: nat) {
    0 < i && i + 1 < j && j + 1 < |s| && s[i] == '@' && s[j] == '.' &&
    NoSpaceNoAt(s[..i]) && NoSpaceNoAt(s[i + 1..j]) && NoSpaceNoAt(s[j + 1..])
  }

  ghost predicate MatchesEmailPattern(s: string) {
    exists i: nat, j: nat :: SplitsAsEmail(s, i, j)
  }

  /** The index of the first `c` in `s`, or `|s|` when there is none. */
  function IndexOf(s: string, c: char): (k: nat)
    ensures k <= |s| && (k < |s| ==> s[k] == c)
    ensures forall i :: 0 <= i < k ==> s[i] != c
    decreases |s|
  {
    if s == [] then 0 else if s[0] == c then 0 else 1 + IndexOf(s[1..], c)
  }

  /** One left-to-right scan: no whitespace anywhere, a single '@' that is not
      first, and a '.' strictly inside the text after it. */
  predicate ScanEmail(email: string) {
    var at := IndexOf(email, '@');
    0 < at < |email| &&
    (forall k :: 0 <= k < |email| ==> !IsWhitespace(email[k]) && (email[k] == '@' ==> k == at)) &&
    (exists j :: at + 1 < j < |email| - 1 && email[j] == '.')
  }

  lemma ScanEmailMatchesPattern(email: string)
    ensures ScanEmail(email) <==> MatchesEmailPattern(email)
  {
    if ScanEmail(email) {
      ScanGivesPattern(email);
    }
    if MatchesEmailPattern(email) {
      PatternGivesScan(email);
    }
  }

  lemma ScanGivesPattern(email: string)
    requires ScanEmail(email)
    ensures MatchesEmailPattern(email)
  {
    var at := IndexOf(email, '@');
    var j :| at + 1 < j < |email| - 1 && email[j] == '.';
    forall k | 0 <= k < at
      ensures !IsWhitespace(email[..at][k]) && email[..at][k] != '@'
    {
      assert email[..at][k] == email[k];
    }
    var middle, last := email[at + 1..j], email[j + 1..];
    forall k | 0 <= k < |middle|
      ensures !IsWhitespace(middle[k]) && middle[k] != '@'
    {
      assert middle[k] == email[at + 1 + k];
    }
    forall k | 0 <= k < |last|
      ensures !IsWhitespace(last[k]) && last[k] != '@'
    {
      assert last[k] == email[j + 1 + k];
    }
    assert SplitsAsEmail(email, at, j);
  }

  lemma PatternGivesScan(email: string)
    requires MatchesEmailPattern(email)
    ensures ScanEmail(email)
  {
    var i: nat, j: nat :| SplitsAsEmail(email, i, j);
    var at := IndexOf(email, '@');
    assert at <= i;
    forall k | 0 <= k < |email|
      ensures !IsWhitespace(email[k]) && (email[k] == '@' ==> k == i)
    {
      if k < i {
        assert email[k] == email[..i][k];
      } else if i < k < j {
        assert email[k] == email[i + 1..j][k - i - 1];
      } else if k > j {
        assert email[k] == email[j + 1..][k - j - 1];
      }
    }
    assert at == i;
    assert at + 1 < j < |email| - 1 && email[j] == '.';
  }

  /** `validateEmail`; `ScanEmailMatchesPattern` states that it accepts
      exactly the language of the pattern. */
  function ValidateEmail(email: string): (r: bool)
    ensures r ==> |email| >= 5
  {
    ScanEmail(email)
  }

  /** What an accepted address looks like: one '@', not first, no whitespace,
      and a '.' with characters on both sides in the part after the '@'. */
  lemma ValidEmailShape(email: string)
    requires ValidateEmail(email)
    ensures forall k :: 0 <= k < |email| ==> !IsWhitespace(email[k])
    ensures var at := IndexOf(email, '@');
      0 < at < |email| &&
      (forall k :: 0 <= k < |email| && email[k] == '@' ==> k == at) &&
      exists j :: at + 1 < j < |email| - 1 && email[j] == '.'
  {
    ScanEmailMatchesPattern(email);
  }

  // ---------------------------------------------------------------- validatePassword

  /** The character class `[!@#$%^&*]`. */
  predicate IsSpecialChar(c: char) {
    c in "!@#$%^&*"
  }

  datatype PasswordCheck = PasswordCheck(isValid: bool, hasMinLength: bool, hasNumber: bool, hasSpecialChar: bool)

  /** `validatePassword`: at least eight characters, an ASCII digit and one of `!@#$%^&*`. */
  function ValidatePassword(password: string): (r: PasswordCheck)
    ensures r.hasMinLength <==> |password| >= 8
    ensures r.hasNumber <==> exists k :: 0 <= k < |password| && IsDigit(password[k])
    ensures r.hasSpecialChar <==> exists k :: 0 <= k < |password| && password[k] in "!@#$%^&*"
    ensures r.isValid <==> r.hasMinLength && r.hasNumber && r.hasSpecialChar
  {
    var hasMinLength := |password| >= 8;
    var hasNumber := Any(password, IsDigit);
    var hasSpecialChar := Any(password, IsSpecialChar);
    PasswordCheck(hasMinLength && hasNumber && hasSpecialChar, hasMinLength, hasNumber, hasSpecialChar)
  }

  // ---------------------------------------------------------------- validateCardNumber (Luhn)

  /** Whether the digit at index `k` of an `n`-digit number is doubled: every second
      digit counted from the right, the rightmost (check) digit not doubled. */
  predicate Doubled(n: nat, k: nat)
    requires k < n
  {
    (n - 1 - k) % 2 == 1
  }

  /** A digit's contribution to the Luhn sum: doubled ones lose 9 when above 9. */
  function LuhnWeight(d: nat, doubled: bool): (w: nat)
    requires d < 10
    ensures w < 10
  {
    if doubled then (if 2 * d > 9 then 2 * d - 9 else 2 * d) else d
  }

  /** The Luhn sum of a string of ASCII digits (ISO/IEC 7812-1, Annex B). */
  function LuhnSum(s: string): nat
    requires AllDigits(s)
    decreases |s|
  {
    if s == [] then 0 else LuhnWeight(DigitValue(s[0]), Doubled(|s|, 0)) + LuhnSum(s[1..])
  }

  /** The specification of `validateCardNumber`: after removing whitespace, 13 to 19
      ASCII digits whose Luhn sum is a multiple of 10. */
  predicate CardNumberValid(cardNumber: string) {
    var digits := StripWhitespace(cardNumber);
    13 <= |digits| <= 19 && AllDigits(digits) && LuhnSum(digits) % 10 == 0
  }

  /** `validateCardNumber`: the loop runs from the rightmost digit, doubling every
      second one. */
  method ValidateCardNumber(cardNumber: string) returns (ok: bool)
    ensures ok <==> CardNumberValid(cardNumber)
  {
    var digits := StripWhitespace(cardNumber);
    if |digits| < 13 || |digits| > 19 {
      return false;
    }
    if !AllDigits(digits) {
      return false;
    }
    var sum := 0;
    var isEven := false;
    var i := |digits| - 1;
    while i >= 0
      invariant -1 <= i < |digits|
      invariant sum == LuhnSum(digits[i + 1..])
      invariant isEven <==> (|digits| - 1 - i) % 2 == 1
    {
      var digit := DigitValue(digits[i]);
      if isEven {
        digit := digit * 2;
        if digit > 9 {
          digit := digit - 9;
        }
      }
      assert digit == LuhnWeight(DigitValue(digits[i]), isEven);
      LuhnStep(digits, i, isEven);
      sum := sum + digit;
      isEven := !isEven;
      i := i - 1;
    }
    assert digits[0..] == digits;
    return sum % 10 == 0;
  }

  /** One step of the right-to-left loop: the digit at `i` adds its weight,
      and the next digit to the left has the other parity. */
  lemma LuhnStep(s: string, i: nat, isEven: bool)
    requires AllDigits(s) && i < |s| && (isEven <==> (|s| - 1 - i) % 2 == 1)
    ensures LuhnSum(s[i..]) == LuhnWeight(DigitValue(s[i]), isEven) + LuhnSum(s[i + 1..])
    ensures !isEven <==> (|s| - 1 - (i - 1)) % 2 == 1
  {
    assert s[i..][1..] == s[i + 1..];
    assert |s[i..]| - 1 - 0 == |s| - 1 - i;
  }

  /** Changing one digit changes the Luhn sum by the difference of that digit's weights. */
  lemma {:induction false} LuhnSumUpdate(s: string, k: nat, c: char)
    requires AllDigits(s) && k < |s| && IsDigit(c)
    ensures AllDigits(s[k := c])
    ensures LuhnSum(s[k := c]) - LuhnSum(s) ==
            LuhnWeight(DigitValue(c), Doubled(|s|, k)) - LuhnWeight(DigitValue(s[k]), Doubled(|s|, k))
    decreases |s|
  {
    var t := s[k := c];
    if k > 0 {
      LuhnSumUpdate(s[1..], k - 1, c);
      assert t[1..] == s[1..][k - 1 := c];
    } else {
      assert t[1..] == s[1..];
    }
  }

  lemma LuhnWeightInjective(a: nat, b: nat, doubled: bool)
    requires a < 10 && b < 10 && a != b
    ensures LuhnWeight(a, doubled) != LuhnWeight(b, doubled)
  {
  }

  /** The Luhn check catches every single-digit error: if a number passes, the same
      number with any one digit replaced by a different digit fails. */
  lemma LuhnDetectsSingleDigitError(s: string, k: nat, c: char)
    requires AllDigits(s) && k < |s| && IsDigit(c) && c != s[k]
    ensures AllDigits(s[k := c])
    ensures LuhnSum(s) % 10 == 0 ==> LuhnSum(s[k := c]) % 10 != 0
  {
    LuhnSumUpdate(s, k, c);
    var wNew: int := LuhnWeight(DigitValue(c), Doubled(|s|, k));
    var wOld: int := LuhnWeight(DigitValue(s[k]), Doubled(|s|, k));
    assert DigitValue(c) != DigitValue(s[k]) by {
      assert DigitChar(DigitValue(c)) == c && DigitChar(DigitValue(s[k])) == s[k];
    }
    LuhnWeightInjective(DigitValue(c), DigitValue(s[k]), Doubled(|s|, k));
    if LuhnSum(s) % 10 == 0 {
      NonzeroShiftLeavesMultiple(LuhnSum(s), LuhnSum(s[k := c]), wNew - wOld);
    }
  }

  /** Moving a multiple of ten by less than ten, but not by zero, leaves the
      multiples of ten. */
  lemma NonzeroShiftLeavesMultiple(x: int, y: int, delta: int)
    requires x % 10 == 0 && y - x == delta && -10 < delta < 10 && delta != 0
    ensures y % 10 != 0
  {
    var q := x / 10;
    assert y == 10 * q + delta;
  }

  // ---------------------------------------------------------------- validateExpiry

  /** `n` (below 100) written with exactly two digits. */
  function TwoDigits(n: nat): (s: string)
    requires n < 100
    ensures |s| == 2 && AllDigits(s)
  {
    [DigitChar(n / 10), DigitChar(n % 10)]
  }

  /** `s` is month `mm` and year `yy` written as MM/YY. */
  ghost predicate RendersExpiry(s: string, mm: nat, yy: nat) {
    mm < 100 && yy < 100 && s == TwoDigits(mm) + "/" + TwoDigits(yy)
  }

  /** The card expires no earlier than the current month: (year, month) is not
      lexicographically before (currentYear, currentMonth). */
  predicate NotBefore(year: int, month: int, currentYear: int, currentMonth: int) {
    year > currentYear || (year == currentYear && month >= currentMonth)
  }

  function TwoDigitValue(a: char, b: char): (n: nat)
    requires IsDigit(a) && IsDigit(b)
    ensures n < 100
  {
    DigitValue(a) * 10 + DigitValue(b)
  }

  /** `validateExpiry`, with the clock's current year and month (1-12) as
      parameters; `ValidateExpiryMeaning` states what it accepts. */
  function ValidateExpiry(expiry: string, currentYear: int, currentMonth: int): (r: bool)
    ensures r ==> |expiry| == 5 && expiry[2] == '/'
  {
    if !(|expiry| == 5 && IsDigit(expiry[0]) && IsDigit(expiry[1]) && expiry[2] == '/' &&
         IsDigit(expiry[3]) && IsDigit(expiry[4])) then
      false
    else
      var month := TwoDigitValue(expiry[0], expiry[1]);
      var year := TwoDigitValue(expiry[3], expiry[4]) + 2000;
      if month < 1 || month > 12 then false
      else if year < currentYear then false
      else if year == currentYear && month < currentMonth then false
      else true
  }

  /** The expiry check accepts exactly the MM/YY renderings of a month 1-12
      of a year 20YY that is not before the current month. */
  lemma ValidateExpiryMeaning(expiry: string, currentYear: int, currentMonth: int)
    ensures ValidateExpiry(expiry, currentYear, currentMonth) <==>
            exists mm: nat, yy: nat :: RendersExpiry(expiry, mm, yy) &&
              1 <= mm <= 12 && NotBefore(2000 + yy, mm, currentYear, currentMonth)
  {
    if |expiry| == 5 && IsDigit(expiry[0]) && IsDigit(expiry[1]) && expiry[2] == '/' &&
       IsDigit(expiry[3]) && IsDigit(expiry[4]) {
      ExpiryParse(expiry);
    } else {
      assert forall mm: nat, yy: nat :: !RendersExpiry(expiry, mm, yy);
    }
  }

  /** The MM/YY text determines its month and year, and every such text is a rendering. */
  lemma ExpiryParse(s: string)
    requires |s| == 5 && IsDigit(s[0]) && IsDigit(s[1]) && s[2] == '/' && IsDigit(s[3]) && IsDigit(s[4])
    ensures RendersExpiry(s, TwoDigitValue(s[0], s[1]), TwoDigitValue(s[3], s[4]))
    ensures forall mm: nat, yy: nat :: RendersExpiry(s, mm, yy) ==>
              mm == TwoDigitValue(s[0], s[1]) && yy == TwoDigitValue(s[3], s[4])
  {
    forall mm: nat, yy: nat | RendersExpiry(s, mm, yy)
      ensures mm == TwoDigitValue(s[0], s[1]) && yy == TwoDigitValue(s[3], s[4])
    {
      assert s[0] == DigitChar(mm / 10) && s[1] == DigitChar(mm % 10);
      assert s[3] == DigitChar(yy / 10) && s[4] == DigitChar(yy % 10);
    }
    var mm := TwoDigitValue(s[0], s[1]);
    var yy := TwoDigitValue(s[3], s[4]);
    assert mm / 10 == DigitValue(s[0]) && mm % 10 == DigitValue(s[1]);
    assert yy / 10 == DigitValue(s[3]) && yy % 10 == DigitValue(s[4]);
  }

  // ---------------------------------------------------------------- CVC and names

  /** `validateCVC`: `/^\d{3,4}$/`. */
  function ValidateCVC(cvc: string): (r: bool)
    ensures r <==> (|cvc| == 3 || |cvc| == 4) && AllDigits(cvc)
  {
    3 <= |cvc| <= 4 && AllDigits(cvc)
  }

  predicate IsCardholderChar(c: char) {
    IsAsciiLetter(c) || IsWhitespace(c)
  }

  /** `[A-Za-z\s]*`, read one character at a time. */
  predicate CardholderChars(s: string) {
    s == [] || (IsCardholderChar(s[0]) && CardholderChars(s[1..]))
  }

  lemma {:induction false} CardholderCharsEverywhere(s: string)
    ensures CardholderChars(s) <==> forall k :: 0 <= k < |s| ==> IsCardholderChar(s[k])
  {
    if s != [] {
      CardholderCharsEverywhere(s[1..]);
      assert forall k :: 1 <= k < |s| ==> s[k] == s[1..][k - 1];
    }
  }

  /** `validateCardholderName`: the trimmed name is 2 to 26 ASCII letters or whitespace. */
  function ValidateCardholderName(name: string): (r: bool)
    ensures r <==> 2 <= |Trim(name)| <= 26 && forall k :: 0 <= k < |Trim(name)| ==> IsCardholderChar(Trim(name)[k])
  {
    var t := Trim(name);
    CardholderCharsEverywhere(t);
    2 <= |t| <= 26 && CardholderChars(t)
  }

  predicate IsKoreanNameChar(c: char) {
    IsHangulSyllable(c) || IsAsciiLetter(c) || IsWhitespace(c)
  }

  /** `validateKoreanName`: the trimmed name is 2 to 50 Hangul syllables, ASCII letters or whitespace. */
  function ValidateKoreanName(name: string): (r: bool)
    ensures r <==> 2 <= |Trim(name)| <= 50 && forall k :: 0 <= k < |Trim(name)| ==> IsKoreanNameChar(Trim(name)[k])
  {
    var t := Trim(name);
    FilterFixpoint(t, IsKoreanNameChar);
    2 <= |t| <= 50 && Filter(t, IsKoreanNameChar) == t
  }

  /** A sequence equals its filtered self exactly when every element passes. */
  lemma {:induction false} FilterFixpoint<T>(s: seq<T>, p: T -> bool)
    ensures Filter(s, p) == s <==> forall k :: 0 <= k < |s| ==> p(s[k])
  {
    if forall k :: 0 <= k < |s| ==> p(s[k]) {
      FilterAllPass(s, p);
    }
  }

  // ---------------------------------------------------------------- formatCardNumber

  /** `digits.match(/.{1,4}/g).join(" ")`: groups of four separated by single spaces. */
  function GroupByFour(d: string): (r: string)
    ensures d == [] ==> r == []
    ensures d != [] ==> |r| == |d| + (|d| - 1) / 4
    decreases |d|
  {
    if |d| <= 4 then d else d[..4] + " " + GroupByFour(d[4..])
  }

  /** Spaces sit exactly at every fifth position; everything else is a digit. */
  predicate GroupedLayout(r: string) {
    forall i :: 0 <= i < |r| ==> (r[i] == ' ' <==> i % 5 == 4) && (r[i] == ' ' || IsDigit(r[i]))
  }

  lemma {:induction false} GroupByFourLayout(d: string)
    requires AllDigits(d)
    ensures GroupedLayout(GroupByFour(d))
    decreases |d|
  {
    var r := GroupByFour(d);
    if |d| > 4 {
      var rest := GroupByFour(d[4..]);
      GroupByFourLayout(d[4..]);
      assert r == d[..4] + " " + rest;
      forall i | 0 <= i < |r|
        ensures (r[i] == ' ' <==> i % 5 == 4) && (r[i] == ' ' || IsDigit(r[i]))
      {
        if i < 4 {
          assert r[i] == d[i] && IsDigit(d[i]) && i % 5 == i;
        } else if i > 4 {
          assert r[i] == rest[i - 5];
          assert (i - 5) % 5 == i % 5;
        }
      }
    }
  }

  /** The grouping only inserts spaces: keeping the digits gives back the input. */
  lemma {:induction false} GroupByFourDigits(d: string)
    requires AllDigits(d)
    ensures KeepDigits(GroupByFour(d)) == d
    decreases |d|
  {
    if |d| <= 4 {
      FilterAllPass(d, IsDigit);
    } else {
      var rest := GroupByFour(d[4..]);
      GroupByFourDigits(d[4..]);
      FilterConcat(d[..4] + " ", rest, IsDigit);
      FilterConcat(d[..4], " ", IsDigit);
      FilterAllPass(d[..4], IsDigit);
      assert d[..4] + d[4..] == d;
    }
  }

  /** `formatCardNumber`: the first sixteen digits typed, grouped by four. */
  function FormatCardNumber(value: string): (r: string)
    ensures KeepDigits(r) == Take(KeepDigits(value), 16)
    ensures forall i :: 0 <= i < |r| ==> (r[i] == ' ' <==> i % 5 == 4)
    ensures forall i :: 0 <= i < |r| ==> r[i] == ' ' || IsDigit(r[i])
    ensures |r| <= 19
    ensures var d := |Take(KeepDigits(value), 16)|; |r| == if d == 0 then 0 else d + (d - 1) / 4
  {
    var digits := Take(KeepDigits(value), 16);
    GroupByFourLayout(digits);
    GroupByFourDigits(digits);
    GroupByFour(digits)
  }

  /** Removing the spaces from a formatted card number gives back exactly its digits,
      which is what `validateCardNumber` reads. */
  lemma FormattedCardNumberStrips(value: string)
    ensures StripWhitespace(FormatCardNumber(value)) == Take(KeepDigits(value), 16)
  {
    var r := FormatCardNumber(value);
    FilterCongruent(r, IsNotWhitespace, IsDigit);
  }

  lemma FormatCardNumberIdempotent(value: string)
    ensures FormatCardNumber(FormatCardNumber(value)) == FormatCardNumber(value)
  {
    var r := FormatCardNumber(value);
    assert Take(KeepDigits(r), 16) == KeepDigits(r);
  }

  // ---------------------------------------------------------------- formatExpiry

  /** `formatExpiry`: the first four digits typed, with '/' after the month once
      two digits are there. */
  function FormatExpiry(value: string): (r: string)
    ensures |r| <= 5
    ensures KeepDigits(r) == Take(KeepDigits(value), 4)
    ensures |KeepDigits(value)| >= 2 ==> |r| >= 3 && r[2] == '/'
    ensures |KeepDigits(value)| < 2 ==> r == KeepDigits(value)
    ensures forall i :: 0 <= i < |r| && i != 2 ==> IsDigit(r[i])
    ensures var d := |Take(KeepDigits(value), 4)|; |r| == d + (if d >= 2 then 1 else 0)
  {
    var digits := Take(KeepDigits(value), 4);
    if |digits| >= 2 then
      ExpiryDigits(digits);
      digits[..2] + "/" + digits[2..]
    else
      digits
  }

  lemma ExpiryDigits(digits: string)
    requires AllDigits(digits) && 2 <= |digits|
    ensures KeepDigits(digits[..2] + "/" + digits[2..]) == digits
  {
    var month, year := digits[..2], digits[2..];
    KeepDigitsAcrossSlash(month, year);
    assert month + year == digits;
  }

  /** The slash drops out, and digits on both sides of it stay. */
  lemma KeepDigitsAcrossSlash(month: string, year: string)
    requires AllDigits(month) && AllDigits(year)
    ensures KeepDigits(month + "/" + year) == month + year
  {
    calc {
      KeepDigits(month + "/" + year);
    == { FilterConcat(month + "/", year, IsDigit); }
      KeepDigits(month + "/") + KeepDigits(year);
    == { FilterConcat(month, "/", IsDigit); }
      KeepDigits(month) + KeepDigits("/") + KeepDigits(year);
    == { FilterAllPass(month, IsDigit); FilterAllPass(year, IsDigit); }
      month + KeepDigits("/") + year;
    == { assert KeepDigits("/") == []; }
      month + year;
    }
  }

  lemma FormatExpiryIdempotent(value: string)
    ensures FormatExpiry(FormatExpiry(value)) == FormatExpiry(value)
  {
    var r := FormatExpiry(value);
    assert Take(KeepDigits(r), 4) == KeepDigits(r);
  }

  /** Once four digits are typed, the formatted text has the MM/YY shape
      `validateExpiry` parses. */
  lemma FormattedExpiryShape(value: string)
    requires |KeepDigits(value)| >= 4
    ensures var r := FormatExpiry(value);
      |r| == 5 && IsDigit(r[0]) && IsDigit(r[1]) && r[2] == '/' && IsDigit(r[3]) && IsDigit(r[4])
  {
    var digits := Take(KeepDigits(value), 4);
    assert FormatExpiry(value) == digits[..2] + "/" + digits[2..];
  }

  // ---------------------------------------------------------------- truncateText

  /** `truncateText`: unchanged when it fits, else the first `maxLength` characters and "...". */
  function TruncateText(text: string, maxLength: nat): (r: string)
    ensures |text| <= maxLength ==> r == text
    ensures |text| > maxLength ==> |r| == maxLength + 3 && r[..maxLength] == text[..maxLength] && r[maxLength..] == "..."
  {
    if |text| <= maxLength then text else text[..maxLength] + "..."
  }

  lemma TruncateTextIdempotent(text: string, maxLength: nat)
    ensures TruncateText(TruncateText(text, maxLength), maxLength) == TruncateText(text, maxLength)
  {
  }
}
