/**
 * bcrypt and jsonwebtoken, reduced to the facts the backend relies on.
 *
 * The real functions are cryptographic; here each one is a small concrete function whose
 * defining laws (a hash verifies against its own plaintext only; a signed token verifies to
 * the id it was signed for) are proved as lemmas below. Salt randomness, signatures and
 * wall-clock expiry are not modelled: a token that has expired is one that belongs to the
 * caller-supplied set `expired`.
 */
module Crypto {
  import opened Wrappers
  import Text

  /** The bcrypt prefix for cost factor 10 (`bcrypt.genSalt(10)`). */
  const HashPrefix := "$2b$10$"

  /** `bcrypt.hash(password, salt)`. */
  function Hash(password: string): string {
    HashPrefix + password
  }

  /** `bcrypt.compare(password, digest)` for a defined digest. */
  predicate Compare(password: string, digest: string) {
    digest == Hash(password)
  }

  /** A password verifies against its own hash, and only against it. */
  lemma CompareHash(password: string, other: string)
    ensures Compare(password, Hash(password))
    ensures Compare(other, Hash(password)) <==> other == password
  {
    if Compare(other, Hash(password)) {
      assert other == Hash(other)[|HashPrefix|..] == Hash(password)[|HashPrefix|..] == password;
    }
  }

  /** The stored digest is never the plaintext itself. */
  lemma HashIsNotPlaintext(password: string)
    ensures Hash(password) != password
    ensures |Hash(password)| >= 7
  {
  }

  // ---------------------------------------------------------------------------------
  // Decimal text, used for the `userId` claim and for casting path parameters to ids

  function DigitChar(d: nat): char
    requires d < 10
  {
    ('0' as int + d) as char
  }

  predicate IsDigit(c: char) {
    '0' <= c <= '9'
  }

  function DigitValue(c: char): nat
    requires IsDigit(c)
  {
    c as int - '0' as int
  }

  /** The decimal spelling of `n`, without leading zeros. */
  function DecimalText(n: nat): (r: string)
    ensures |r| >= 1
    ensures forall k :: 0 <= k < |r| ==> IsDigit(r[k])
  {
    if n < 10 then [DigitChar(n)] else DecimalText(n / 10) + [DigitChar(n % 10)]
  }

  function DigitsValue(s: string): nat
    requires forall k :: 0 <= k < |s| ==> IsDigit(s[k])
  {
    if s == [] then 0 else DigitsValue(s[..|s| - 1]) * 10 + DigitValue(s[|s| - 1])
  }

  /** Reads a non-empty string of decimal digits; anything else is not an id. */
  function ParseDecimal(s: string): Option<nat> {
    if s != [] && forall k | 0 <= k < |s| :: IsDigit(s[k]) then Some(DigitsValue(s)) else None
  }

  lemma {:induction false} DigitsValueOfDecimal(n: nat)
    ensures DigitsValue(DecimalText(n)) == n
  {
    if n >= 10 {
      var s := DecimalText(n);
      assert s[..|s| - 1] == DecimalText(n / 10);
      DigitsValueOfDecimal(n / 10);
    }
  }

  /** Parsing undoes printing. */
  lemma ParseDecimalText(n: nat)
    ensures ParseDecimal(DecimalText(n)) == Some(n)
  {
    DigitsValueOfDecimal(n);
  }

  // ---------------------------------------------------------------------------------
  // Tokens

  const TokenPrefix := "jwt."

  /** `jwt.sign({ userId }, JWT_SECRET, { expiresIn })`. */
  function Sign(userId: nat): (token: string)
    ensures token != ""
  {
    TokenPrefix + DecimalText(userId)
  }

  /** `jwt.verify(token, JWT_SECRET)`: the `userId` claim, or None for a malformed, forged or
      expired token (the three are deliberately indistinguishable). Only the exact spelling
      `Sign` issues for the claimed id verifies; with no secret modelled, that spelling is all
      that is checked. */
  function Verify(token: string, expired: set<string>): Option<nat> {
    if token in expired || !Text.StartsWith(token, TokenPrefix) then None
    else
      var claim := ParseDecimal(token[|TokenPrefix|..]);
      if claim.Some? && Sign(claim.value) == token then claim else None
  }

  /** A token that has not expired verifies to the id it was signed for. */
  lemma VerifySign(userId: nat, expired: set<string>)
    ensures Sign(userId) !in expired ==> Verify(Sign(userId), expired) == Some(userId)
    ensures Sign(userId) in expired ==> Verify(Sign(userId), expired) == None
  {
    var t := Sign(userId);
    assert t[|TokenPrefix|..] == DecimalText(userId);
    ParseDecimalText(userId);
  }

  /** A token verifies only if it was issued for the id it names and has not expired. */
  lemma VerifyOnlyIssued(token: string, expired: set<string>)
    ensures Verify(token, expired).Some? ==>
              token == Sign(Verify(token, expired).value) && token !in expired
  {
  }

  /** Tokens signed for different users differ. */
  lemma SignInjective(a: nat, b: nat)
    ensures Sign(a) == Sign(b) ==> a == b
  {
    VerifySign(a, {});
    VerifySign(b, {});
  }
}
