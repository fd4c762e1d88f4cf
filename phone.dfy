/**
 * The Kenyan phone-number normaliser that both forms run on every keystroke
 * (`handlePhoneChange`): keep only the ASCII digits, turn one leading national
 * trunk `0` into the country code `254`, and keep at most 12 characters.
 */
module PhoneFormat {

  /** The longest phone number a form keeps, and the only length it submits. */
  const MaxLength: nat := 12

  const CountryCode: string := "254"

  /** The JavaScript class `\d` (without the `u` flag) matches the ASCII digits only. */
  predicate IsDigit(c: char) {
    '0' <= c <= '9'
  }

  predicate AllDigits(s: string) {
    forall i :: 0 <= i < |s| ==> IsDigit(s[i])
  }

  /** `value.replace(/\D/g, "")`: drop every character that is not a digit, keeping order. */
  function StripNonDigits(value: string): (d: string)
    ensures AllDigits(d)
    ensures |d| <= |value|
  {
    if value == [] then []
    else (if IsDigit(value[0]) then [value[0]] else []) + StripNonDigits(value[1..])
  }

  /** `if (formatted.startsWith("0")) formatted = "254" + formatted.slice(1)` */
  function ReplaceTrunkZero(d: string): string {
    if |d| > 0 && d[0] == '0' then CountryCode + d[1..] else d
  }

  /** `if (formatted.length > 12) formatted = formatted.slice(0, 12)` */
  function Truncate(f: string): string {
    if |f| > MaxLength then f[..MaxLength] else f
  }

  /** What `handlePhoneChange(value)` stores as the form's phone number. */
  function Normalize(value: string): (r: string)
    ensures AllDigits(r)
    ensures |r| <= MaxLength
    ensures r == [] || r[0] != '0'
  {
    Truncate(ReplaceTrunkZero(StripNonDigits(value)))
  }

  /** The strings a form's phone field can hold: digits only, at most 12, no leading `0`. */
  predicate WellFormed(p: string) {
    AllDigits(p) && |p| <= MaxLength && (p == [] || p[0] != '0')
  }

  function Min(a: int, b: int): int {
    if a <= b then a else b
  }

  /** Stripping keeps a string that is already all digits. */
  lemma {:induction false} StripDigitsUnchanged(d: string)
    requires AllDigits(d)
    ensures StripNonDigits(d) == d
  {
    if d != [] {
      assert AllDigits(d[1..]) by {
        forall i | 0 <= i < |d[1..]| ensures IsDigit(d[1..][i]) {
          assert d[1..][i] == d[i + 1];
        }
      }
      StripDigitsUnchanged(d[1..]);
      assert IsDigit(d[0]);
      assert [d[0]] + d[1..] == d;
    }
  }

  /** A single character survives the strip exactly when it is a digit; otherwise it is dropped. */
  lemma StripSingle(c: char)
    ensures StripNonDigits([c]) == if IsDigit(c) then [c] else []
  {
    assert [c][1..] == [];
  }

  /** Stripping works character by character, so it distributes over concatenation. */
  lemma {:induction false} StripConcat(a: string, b: string)
    ensures StripNonDigits(a + b) == StripNonDigits(a) + StripNonDigits(b)
  {
    if a != [] {
      assert (a + b)[0] == a[0];
      assert (a + b)[1..] == a[1..] + b;
      StripConcat(a[1..], b);
    } else {
      assert a + b == b;
    }
  }

  /**
   * A leading trunk `0` in the digits becomes `254`, followed by the remaining
   * digits; the whole is cut at 12 characters.
   */
  lemma TrunkZeroBecomesCountryCode(value: string)
    requires var d := StripNonDigits(value); |d| > 0 && d[0] == '0'
    ensures var d, r := StripNonDigits(value), Normalize(value);
      |r| == Min(MaxLength, |d| + 2) && r[..3] == "254" && r[3..] == d[1..|r| - 2]
  {
  }

  /** Without a leading `0` the result is the first (up to) 12 digits of the input. */
  lemma NoTrunkZeroKeepsDigits(value: string)
    requires var d := StripNonDigits(value); d == [] || d[0] != '0'
    ensures var d, r := StripNonDigits(value), Normalize(value);
      |r| == Min(MaxLength, |d|) && r == d[..|r|]
  {
  }

  /** Normalising never changes a well-formed phone number. */
  lemma NormalizeFixesWellFormed(p: string)
    requires WellFormed(p)
    ensures Normalize(p) == p
  {
    StripDigitsUnchanged(p);
  }

  /** Idempotence: normalising a normalised value returns it unchanged. */
  lemma NormalizeIdempotent(value: string)
    ensures Normalize(Normalize(value)) == Normalize(value)
  {
    NormalizeFixesWellFormed(Normalize(value));
  }

  /** The values a phone field can take are exactly the well-formed strings. */
  lemma WellFormedIsImage(p: string)
    ensures WellFormed(p) <==> exists value :: Normalize(value) == p
  {
    if WellFormed(p) {
      NormalizeFixesWellFormed(p);
    }
  }

  /**
   * A full 12-character number needs 12 digits in the input, or 10 when the
   * first is a trunk `0` (which the three digits of `254` replace).
   */
  lemma FullLengthNeedsDigits(value: string)
    ensures var d := StripNonDigits(value);
      |Normalize(value)| == MaxLength <==> |d| >= (if |d| > 0 && d[0] == '0' then 10 else 12)
  {
  }

  /** "0712345678" becomes "254712345678", a full-length number. */
  lemma ExampleTrunkZero()
    ensures Normalize("0712345678") == "254712345678"
  {
  }

  /** "12" stays "12": accepted while typing but too short to submit. */
  lemma ExampleShort()
    ensures Normalize("12") == "12"
    ensures |Normalize("12")| < MaxLength
  {
  }
}
