/**
 * The secure-payload helpers (lib/encryption.ts): the validity check of a
 * decrypted payload, and the deterministic part of decryptData, namely the
 * split of the decoded bytes into salt, IV and ciphertext and the
 * key-derivation password. Base64 decoding, PBKDF2 / AES-GCM, TextDecoder
 * and JSON.parse are engine calls and come in as the fields of Crypto.
 */
module Encryption {
  import opened Wrappers
  import opened Json

  type byte = x: int | 0 <= x < 256

  /** Bytes [0, 16) are the PBKDF2 salt, [16, 28) the AES-GCM IV, the rest the ciphertext. */
  const SaltEnd: nat := 16
  const IvEnd: nat := 28
  /** The fixed tail of the key-derivation password. */
  const PasswordSuffix: string := "_health_share_secure"
  /** The one message every failure of decryptData surfaces with. */
  const DecryptFailureMessage: string := "データの復号化に失敗しました。無効なデータまたは期限切れです。"

  // ---------------------------------------------------------------------
  // Byte layout

  /** An index clamped to a length, as typed-array slice does for non-negative bounds. */
  function ClampIndex(i: nat, n: nat): nat {
    if i < n then i else n
  }

  /** Uint8Array.prototype.slice(begin, end) for non-negative bounds. */
  function Slice(s: seq<byte>, begin: nat, end: nat): (r: seq<byte>)
    ensures |r| == (if ClampIndex(begin, |s|) <= ClampIndex(end, |s|) then ClampIndex(end, |s|) - ClampIndex(begin, |s|) else 0)
    ensures forall k :: 0 <= k < |r| ==> r[k] == s[ClampIndex(begin, |s|) + k]
    ensures |r| <= |s|
    ensures ClampIndex(begin, |s|) <= ClampIndex(end, |s|) ==>
      r == s[ClampIndex(begin, |s|)..ClampIndex(end, |s|)]
    ensures ClampIndex(end, |s|) < ClampIndex(begin, |s|) ==> r == []
  {
    var lo, hi := ClampIndex(begin, |s|), ClampIndex(end, |s|);
    if lo <= hi then s[lo..hi] else []
  }

  datatype Parts = Parts(salt: seq<byte>, iv: seq<byte>, ciphertext: seq<byte>)

  /**
   * combined.slice(0, 16), combined.slice(16, 28), combined.slice(28): the
   * three parts concatenate back to the input; short inputs give shorter
   * or empty parts.
   */
  function SplitCombined(combined: seq<byte>): (p: Parts)
    ensures p.salt + p.iv + p.ciphertext == combined
    ensures |p.salt| == ClampIndex(SaltEnd, |combined|)
    ensures |p.iv| == ClampIndex(IvEnd, |combined|) - ClampIndex(SaltEnd, |combined|)
    ensures |combined| >= IvEnd ==> |p.salt| == 16 && |p.iv| == 12 && |p.ciphertext| == |combined| - 28
    ensures |combined| <= IvEnd ==> p.ciphertext == []
  {
    var p := Parts(Slice(combined, 0, SaltEnd), Slice(combined, SaltEnd, IvEnd), Slice(combined, IvEnd, |combined|));
    assert p.salt + p.iv + p.ciphertext == combined by {
      var a, b := ClampIndex(SaltEnd, |combined|), ClampIndex(IvEnd, |combined|);
      assert combined == combined[..a] + combined[a..b] + combined[b..];
    }
    p
  }

  /** Splitting a 16-byte salt, a 12-byte IV and a ciphertext laid end to end gives them back. */
  lemma SplitOfLaidOut(salt: seq<byte>, iv: seq<byte>, ciphertext: seq<byte>)
    requires |salt| == 16 && |iv| == 12
    ensures SplitCombined(salt + iv + ciphertext) == Parts(salt, iv, ciphertext)
  {
    var combined := salt + iv + ciphertext;
    var p := SplitCombined(combined);
    assert p.salt == combined[..16] == salt;
    assert p.iv == combined[16..28] == iv;
    assert p.ciphertext == combined[28..] == ciphertext;
  }

  // ---------------------------------------------------------------------
  // Password

  function DigitChar(d: nat): char
    requires d < 10
  {
    "0123456789"[d]
  }

  predicate IsDigit(c: char) {
    '0' <= c <= '9'
  }

  predicate AllDigits(s: string) {
    forall i :: 0 <= i < |s| ==> IsDigit(s[i])
  }

  /** The decimal digits of n, most significant first, without leading zeros. */
  function DecimalDigits(n: nat): (r: string)
    ensures |r| >= 1 && AllDigits(r)
    ensures |r| > 1 ==> r[0] != '0'
    decreases n
  {
    if n < 10 then [DigitChar(n)] else DecimalDigits(n / 10) + [DigitChar(n % 10)]
  }

  /** How a template literal writes an integral number (below 10^21, where JavaScript switches to exponents). */
  function IntToText(i: int): (r: string)
    ensures |r| >= 1
    ensures r[0] == '-' <==> i < 0
    ensures i >= 0 ==> AllDigits(r)
    ensures i < 0 ==> AllDigits(r[1..]) && |r| >= 2
  {
    if i < 0 then "-" + DecimalDigits(-i) else DecimalDigits(i)
  }

  /** `${timestamp}`: the number from parseInt, or NaN when the parameter was not numeric. */
  function TimestampText(timestamp: Option<int>): (r: string)
    ensures ParseInteger(r) == timestamp
  {
    match timestamp
    case Some(i) => IntTextRoundTrip(i); IntToText(i)
    case None => "NaN"
  }

  /** `${userId}_${timestamp}_health_share_secure` */
  function Password(userId: string, timestamp: Option<int>): (r: string)
    ensures |r| == |userId| + 1 + |TimestampText(timestamp)| + |PasswordSuffix|
    ensures r[..|userId|] == userId && r[|userId|] == '_'
    ensures r[|r| - |PasswordSuffix|..] == PasswordSuffix
  {
    userId + "_" + TimestampText(timestamp) + PasswordSuffix
  }

  /** The value of a string of digits. */
  function DigitsValue(s: string): nat
    requires AllDigits(s)
    decreases |s|
  {
    if |s| == 0 then 0 else DigitsValue(s[..|s| - 1]) * 10 + ((s[|s| - 1] as int) - ('0' as int))
  }

  /** A reference reading of an integer written in decimal, with an optional minus sign. */
  function ParseInteger(s: string): Option<int> {
    if |s| > 1 && s[0] == '-' && AllDigits(s[1..]) then Some(0 - DigitsValue(s[1..]))
    else if |s| > 0 && AllDigits(s) then Some(DigitsValue(s))
    else None
  }

  lemma {:induction false} DigitsRoundTrip(n: nat)
    ensures DigitsValue(DecimalDigits(n)) == n
    decreases n
  {
    var r := DecimalDigits(n);
    if n >= 10 {
      DigitsRoundTrip(n / 10);
      assert r[..|r| - 1] == DecimalDigits(n / 10);
    }
  }

  /** Reading back what IntToText wrote gives the number. */
  lemma IntTextRoundTrip(i: int)
    ensures ParseInteger(IntToText(i)) == Some(i)
  {
    var s := IntToText(i);
    if i < 0 {
      var digits := DecimalDigits(-i);
      DigitsRoundTrip(-i);
      assert s[1..] == digits;
      assert |s| > 1 && s[0] == '-';
    } else {
      DigitsRoundTrip(i);
      assert IsDigit(s[0]);
    }
  }

  /** The timestamp field of a password made for `userId`: what lies between its "_" and the suffix. */
  function TimestampField(password: string, userId: string): string
    requires |userId| + 1 + |PasswordSuffix| <= |password|
  {
    password[|userId| + 1..|password| - |PasswordSuffix|]
  }

  /** The password of a user determines the timestamp it was built from; a NaN timestamp reads as no number. */
  lemma PasswordTimestampRoundTrip(userId: string, timestamp: Option<int>)
    ensures |userId| + 1 + |PasswordSuffix| <= |Password(userId, timestamp)|
    ensures ParseInteger(TimestampField(Password(userId, timestamp), userId)) == timestamp
  {
    var p := Password(userId, timestamp);
    assert TimestampField(p, userId) == TimestampText(timestamp);
  }

  /** So the passwords of one user for two distinct timestamps differ. */
  lemma PasswordInjective(userId: string, t1: Option<int>, t2: Option<int>)
    requires Password(userId, t1) == Password(userId, t2)
    ensures t1 == t2
  {
    PasswordTimestampRoundTrip(userId, t1);
    PasswordTimestampRoundTrip(userId, t2);
  }

  // ---------------------------------------------------------------------
  // Decryption

  /**
   * The decrypted payload, as far as validateSecureData and the loader read
   * it; None is a missing field. The encrypting side writes strings for
   * the ids and integer milliseconds for the times.
   */
  datatype SecurePayload = SecurePayload(
    userId: Option<string>,
    timestamp: Option<int>,
    expiresAt: Option<int>,
    sessionId: Option<string>,
    data: Option<Json>)

  /** The engine calls decryptData makes; each is None where the call throws. */
  datatype Crypto = Crypto(
    atob: string -> Option<seq<byte>>,
    // PBKDF2 (SHA-256, 100000 iterations) key from the password and salt, then AES-GCM with the IV
    decrypt: (string, seq<byte>, seq<byte>, seq<byte>) -> Option<seq<byte>>,
    // TextDecoder: replaces malformed input, never throws
    utf8Decode: seq<byte> -> string,
    parsePayload: string -> Option<SecurePayload>)

  /**
   * decryptData: every failure, at whichever step, is the same error with
   * the fixed message; a payload comes out only when every step succeeds,
   * and then it is the parse of the decryption under Password(userId,
   * timestamp) of the split of the decoded bytes.
   */
  function DecryptData(encrypted: string, userId: string, timestamp: Option<int>, c: Crypto): (r: Result<SecurePayload>)
    ensures r.Err? ==> r.message == DecryptFailureMessage
    ensures r.Ok? <==>
      && c.atob(encrypted).Some?
      && var p := SplitCombined(c.atob(encrypted).value);
      && c.decrypt(Password(userId, timestamp), p.salt, p.iv, p.ciphertext).Some?
      && c.parsePayload(c.utf8Decode(c.decrypt(Password(userId, timestamp), p.salt, p.iv, p.ciphertext).value)).Some?
    ensures r.Ok? ==>
      var p := SplitCombined(c.atob(encrypted).value);
      var plain := c.decrypt(Password(userId, timestamp), p.salt, p.iv, p.ciphertext);
      r.value == c.parsePayload(c.utf8Decode(plain.value)).value
  {
    match c.atob(encrypted)
    case None => Err(DecryptFailureMessage)
    case Some(combined) =>
      var parts := SplitCombined(combined);
      var password := Password(userId, timestamp);
      match c.decrypt(password, parts.salt, parts.iv, parts.ciphertext)
      case None => Err(DecryptFailureMessage)
      case Some(plain) =>
        match c.parsePayload(c.utf8Decode(plain))
        case None => Err(DecryptFailureMessage)
        case Some(payload) => Ok(payload)
  }

  // ---------------------------------------------------------------------
  // Validation

  predicate TruthyTime(v: Option<int>) { v.Some? && v.value != 0 }

  /** The four required fields are all present and truthy. */
  predicate HasRequiredFields(d: SecurePayload) {
    IsTruthy(d.userId) && TruthyTime(d.timestamp) && TruthyTime(d.expiresAt) && IsTruthy(d.sessionId)
  }

  /** validateSecureData, with Date.now() as `now`. */
  function ValidateSecureData(d: SecurePayload, now: int): (ok: bool)
    ensures ok <==> HasRequiredFields(d) && d.timestamp.value <= now <= d.expiresAt.value
  {
    if !IsTruthy(d.userId) || !TruthyTime(d.timestamp) || !TruthyTime(d.expiresAt) || !IsTruthy(d.sessionId) then
      false
    else if now > d.expiresAt.value then
      false
    else if d.timestamp.value > now then
      false
    else
      true
  }

  /** A payload lacking any required field (or holding "" or 0 there) is rejected. */
  lemma MissingFieldRejected(d: SecurePayload, now: int)
    requires !IsTruthy(d.userId) || !TruthyTime(d.timestamp) || !TruthyTime(d.expiresAt) || !IsTruthy(d.sessionId)
    ensures !ValidateSecureData(d, now)
  {
  }

  /** Expiry: rejected once now is past expiresAt; at expiresAt itself it is still valid. */
  lemma ExpiryBoundary(d: SecurePayload, now: int)
    requires HasRequiredFields(d)
    ensures now > d.expiresAt.value ==> !ValidateSecureData(d, now)
    ensures d.timestamp.value <= now == d.expiresAt.value ==> ValidateSecureData(d, now)
  {
  }

  /** A timestamp in the future is rejected; one equal to now is not. */
  lemma FutureTimestampRejected(d: SecurePayload, now: int)
    requires HasRequiredFields(d)
    ensures d.timestamp.value > now ==> !ValidateSecureData(d, now)
    ensures now == d.timestamp.value <= d.expiresAt.value ==> ValidateSecureData(d, now)
  {
  }
}
