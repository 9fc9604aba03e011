/** `normalize_identity`: the form under which an identity is stored and looked up. */
module Identities {
  import opened Text

  datatype IdentityType = Phone | Email | Instagram | Telegram | WhatsApp | WebChat | External

  /** ASCII case folding. */
  function FoldChar(c: char): char { if 'A' <= c <= 'Z' then c - 'A' + 'a' else c }

  function CaseFold(s: string): (r: string)
    ensures |r| == |s| && forall i :: 0 <= i < |s| ==> r[i] == FoldChar(s[i])
  {
    seq(|s|, i requires 0 <= i < |s| => FoldChar(s[i]))
  }

  predicate IsDigit(c: char) { '0' <= c <= '9' }

  /** `re.sub(r"\D", "", value)`. */
  function Digits(s: string): (r: string)
    ensures forall c :: c in r ==> IsDigit(c)
  {
    if s == [] then [] else (if IsDigit(s[0]) then [s[0]] else []) + Digits(s[1..])
  }

  function Normalize(kind: IdentityType, raw: string): string {
    var value := Strip(raw);
    if kind.Phone? then
      if (value != [] && value[0] == '+') || 9 <= |Digits(value)| then "+" + Digits(value) else Digits(value)
    else CaseFold(value)
  }

  // ----- a normal form -----

  lemma {:induction false} DigitsOfDigits(s: string)
    requires forall c :: c in s ==> IsDigit(c)
    ensures Digits(s) == s
  {
    if s != [] {
      assert s[0] in s && forall c :: c in s[1..] ==> c in s;
      DigitsOfDigits(s[1..]);
    }
  }

  predicate Trimmed(s: string) { s == [] || (!IsSpace(s[0]) && !IsSpace(s[|s| - 1])) }

  lemma TrimmedStays(s: string)
    requires Trimmed(s)
    ensures Strip(s) == s
  {
  }

  /** What `strip` leaves is trimmed. */
  lemma StripTrims(s: string)
    ensures Trimmed(Strip(s))
  {
    assert RStrip(LStrip(s)) != [] ==> RStrip(LStrip(s))[0] == LStrip(s)[0];
  }

  lemma FoldTwice(s: string)
    ensures CaseFold(CaseFold(s)) == CaseFold(s)
    ensures Trimmed(s) ==> Trimmed(CaseFold(s))
  {
  }

  /** Digits are trimmed. */
  lemma DigitsAreNormal(digits: string)
    requires forall c :: c in digits ==> IsDigit(c)
    ensures Digits(digits) == digits && Strip(digits) == digits
  {
    DigitsOfDigits(digits);
    assert digits != [] ==> digits[0] in digits && digits[|digits| - 1] in digits;
    TrimmedStays(digits);
  }

  /** With a plus sign before them they are trimmed, too, and keep their digits. */
  lemma PlusDigitsAreNormal(value: string, digits: string)
    requires value == "+" + digits && forall c :: c in digits ==> IsDigit(c)
    ensures Digits(value) == digits && Strip(value) == value
  {
    DigitsOfDigits(digits);
    assert value[0] == '+' && value[1..] == digits;
    if digits != [] { assert value[|value| - 1] == digits[|digits| - 1] && digits[|digits| - 1] in digits; }
    TrimmedStays(value);
  }

  lemma PlusDigitsNormalize(digits: string)
    requires forall c :: c in digits ==> IsDigit(c)
    ensures Normalize(Phone, "+" + digits) == "+" + digits
  {
    var value := "+" + digits;
    PlusDigitsAreNormal(value, digits);
    assert value[0] == '+';
  }

  lemma FewDigitsNormalize(digits: string)
    requires |digits| < 9 && forall c :: c in digits ==> IsDigit(c)
    ensures Normalize(Phone, digits) == digits
  {
    DigitsAreNormal(digits);
    assert digits != [] ==> digits[0] in digits;
  }

  lemma PhoneIsNormal(raw: string)
    ensures Normalize(Phone, Normalize(Phone, raw)) == Normalize(Phone, raw)
  {
    var digits := Digits(Strip(raw));
    PlusDigitsNormalize(digits);
    if |digits| < 9 { FewDigitsNormalize(digits); }
  }

  /** Normalizing is done once and for all: a normalized value is its own normal form, so looking one up finds its own row. */
  lemma NormalizeIsIdempotent(kind: IdentityType, raw: string)
    ensures Normalize(kind, Normalize(kind, raw)) == Normalize(kind, raw)
  {
    if kind.Phone? {
      PhoneIsNormal(raw);
    } else {
      StripTrims(raw);
      FoldTwice(Strip(raw));
      TrimmedStays(CaseFold(Strip(raw)));
    }
  }

  /** Whether a phone number is taken as international. */
  predicate International(raw: string) { (Strip(raw) != [] && Strip(raw)[0] == '+') || 9 <= |Digits(Strip(raw))| }

  /** Two phone numbers are one identity exactly when they have the same digits and are both international or both not. */
  lemma SamePhoneIff(a: string, b: string)
    ensures Normalize(Phone, a) == Normalize(Phone, b)
      <==> Digits(Strip(a)) == Digits(Strip(b)) && International(a) == International(b)
  {
    var da, db := Digits(Strip(a)), Digits(Strip(b));
    assert ("+" + da)[1..] == da && ("+" + db)[1..] == db;
    assert da != [] ==> IsDigit(da[0]);
    assert db != [] ==> IsDigit(db[0]);
    assert ("+" + da)[0] == '+' && ("+" + db)[0] == '+';
  }
}
