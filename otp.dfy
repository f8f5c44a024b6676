/**
 * The one-time-password flow of backend/server.py: send_otp stores a six-digit code per phone,
 * verify_otp checks it with an expiry and an attempt limit, register_with_otp consumes a
 * verification that is at most ten minutes old. The SMS gateway and the profiles table are
 * reduced to the booleans their calls return.
 */
module Otp {
  import opened Common

  const OTP_LIFETIME: int := 5 * MINUTE
  const VERIFICATION_WINDOW: int := 10 * MINUTE
  const MAX_ATTEMPTS: nat := 3

  const SEND_FAILED := HttpError(500, "Failed to send OTP")
  const OTP_NOT_FOUND := HttpError(400, "OTP not found or expired")
  const OTP_EXPIRED := HttpError(400, "OTP expired")
  const TOO_MANY_ATTEMPTS := HttpError(400, "Too many attempts")
  const INVALID_OTP := HttpError(400, "Invalid OTP")
  const NOT_VERIFIED := HttpError(400, "Phone not verified. Please verify OTP first.")
  const VERIFICATION_EXPIRED := HttpError(400, "OTP verification expired. Please verify again.")
  const USER_EXISTS := HttpError(400, "User already exists with this phone number")
  const PROFILE_NOT_CREATED := HttpError(500, "Failed to create user profile")

  /** An entry of otp_storage; verifiedAt is present exactly when the entry was marked verified. */
  datatype OtpRecord = OtpRecord(otp: string, expiresAt: int, attempts: nat, verifiedAt: Option<int>)

  function DigitChar(d: nat): char
    requires d < 10
  {
    ('0' as int + d) as char
  }

  /** str(n) for a natural number. */
  function Decimal(n: nat): (s: string)
    ensures |s| >= 1 && forall i :: 0 <= i < |s| ==> '0' <= s[i] <= '9'
  {
    if n < 10 then [DigitChar(n)] else Decimal(n / 10) + [DigitChar(n % 10)]
  }

  /** int(s) for a string of decimal digits. */
  function DecimalValue(s: string): nat
    requires forall i :: 0 <= i < |s| ==> '0' <= s[i] <= '9'
  {
    if |s| == 0 then 0 else DecimalValue(s[..|s| - 1]) * 10 + (s[|s| - 1] as int - '0' as int)
  }

  /** Reading back the digits of str(n) gives n: different codes never share a string. */
  lemma {:induction false} DecimalRoundTrip(n: nat)
    ensures DecimalValue(Decimal(n)) == n
  {
    if n >= 10 {
      DecimalRoundTrip(n / 10);
      var s := Decimal(n);
      assert s[..|s| - 1] == Decimal(n / 10);
    }
  }

  /** A code drawn from 100000..999999 is written with exactly six digits. */
  lemma SixDigitCode(code: nat)
    requires 100000 <= code <= 999999
    ensures |Decimal(code)| == 6
  {
    assert |Decimal(code / 100000)| == 1;
    assert |Decimal(code / 10000)| == 2;
    assert |Decimal(code / 1000)| == 3;
    assert |Decimal(code / 100)| == 4;
    assert |Decimal(code / 10)| == 5;
  }

  /** What a handler does to one phone's entry: its outcome and the entry left behind (None: deleted). */
  datatype OtpStep = OtpStep(outcome: Outcome, record: Option<OtpRecord>)

  /**
   * verify_otp on the entry for one phone. It succeeds exactly when the entry exists, has not
   * expired, has had fewer than three failed attempts and holds the token; expired and exhausted
   * entries are deleted; a wrong token costs one attempt; success stamps the verification time.
   */
  function VerifyOn(stored: Option<OtpRecord>, token: string, now: int): (r: OtpStep)
    ensures r.outcome == Pass <==>
      stored.Some? && now <= stored.value.expiresAt && stored.value.attempts < MAX_ATTEMPTS && stored.value.otp == token
    ensures r.record.None? <==> stored.None? || now > stored.value.expiresAt || stored.value.attempts >= MAX_ATTEMPTS
    ensures r.record.Some? ==>
      && r.record.value.otp == stored.value.otp && r.record.value.expiresAt == stored.value.expiresAt
      && r.record.value.attempts == stored.value.attempts + (if r.outcome == Pass then 0 else 1)
      && r.record.value.verifiedAt == (if r.outcome == Pass then Some(now) else stored.value.verifiedAt)
    ensures stored.None? ==> r.outcome == Fail(OTP_NOT_FOUND)
  {
    if stored.None? then OtpStep(Fail(OTP_NOT_FOUND), None)
    else
      var data := stored.value;
      if now > data.expiresAt then OtpStep(Fail(OTP_EXPIRED), None)
      else if data.attempts >= MAX_ATTEMPTS then OtpStep(Fail(TOO_MANY_ATTEMPTS), None)
      else if data.otp != token then OtpStep(Fail(INVALID_OTP), Some(data.(attempts := data.attempts + 1)))
      else OtpStep(Pass, Some(data.(verifiedAt := Some(now))))
  }

  /**
   * After three wrong tokens the entry is locked: the next call fails and deletes it, even with
   * the right code and inside the five minutes.
   */
  lemma ThreeWrongTokensLockOut(sent: OtpRecord, wrong1: string, wrong2: string, wrong3: string, now: int)
    requires sent.attempts == 0 && now <= sent.expiresAt
    requires wrong1 != sent.otp && wrong2 != sent.otp && wrong3 != sent.otp
    ensures var s1 := VerifyOn(Some(sent), wrong1, now);
            var s2 := VerifyOn(s1.record, wrong2, now);
            var s3 := VerifyOn(s2.record, wrong3, now);
            VerifyOn(s3.record, sent.otp, now) == OtpStep(Fail(TOO_MANY_ATTEMPTS), None)
  {
  }

  /**
   * register_with_otp on the entry for one phone. It succeeds exactly when the entry is verified,
   * the verification is at most ten minutes old, the phone has no profile yet and the profile
   * insert succeeds; success, a lapsed verification and an existing profile delete the entry.
   */
  function RegisterOn(stored: Option<OtpRecord>, phoneTaken: bool, profileInserted: bool, now: int): (r: OtpStep)
    ensures r.outcome == Pass <==>
      && stored.Some? && stored.value.verifiedAt.Some? && now <= stored.value.verifiedAt.value + VERIFICATION_WINDOW
      && !phoneTaken && profileInserted
    ensures r.outcome == Pass ==> r.record == None
    ensures r.record.Some? ==> r.record == stored
    ensures stored.None? ==> r == OtpStep(Fail(NOT_VERIFIED), None)
    ensures stored.Some? && stored.value.verifiedAt.None? ==> r == OtpStep(Fail(NOT_VERIFIED), stored)
    ensures stored.Some? && stored.value.verifiedAt.Some? && now > stored.value.verifiedAt.value + VERIFICATION_WINDOW
            ==> r == OtpStep(Fail(VERIFICATION_EXPIRED), None)
    ensures stored.Some? && stored.value.verifiedAt.Some? && now <= stored.value.verifiedAt.value + VERIFICATION_WINDOW
            ==> (phoneTaken ==> r == OtpStep(Fail(USER_EXISTS), None))
                && (!phoneTaken && !profileInserted ==> r == OtpStep(Fail(PROFILE_NOT_CREATED), stored))
  {
    if stored.None? then OtpStep(Fail(NOT_VERIFIED), None)
    else
      var data := stored.value;
      if data.verifiedAt.None? then OtpStep(Fail(NOT_VERIFIED), stored)
      else if now > data.verifiedAt.value + VERIFICATION_WINDOW then OtpStep(Fail(VERIFICATION_EXPIRED), None)
      else if phoneTaken then OtpStep(Fail(USER_EXISTS), None)
      else if !profileInserted then OtpStep(Fail(PROFILE_NOT_CREATED), stored)
      else OtpStep(Pass, None)
  }

  /** Registration needs the stored code itself to have been given to verify_otp first. */
  lemma RegistrationNeedsCorrectCode(sent: OtpRecord, token: string, verifiedAt: int, now: int)
    requires sent.verifiedAt.None?
    requires RegisterOn(VerifyOn(Some(sent), token, verifiedAt).record, false, true, now).outcome == Pass
    ensures token == sent.otp && verifiedAt <= sent.expiresAt && now <= verifiedAt + VERIFICATION_WINDOW
  {
  }

  class OtpStorage {
    var entries: map<string, OtpRecord>

    constructor ()
      ensures entries == map[]
    {
      entries := map[];
    }

    function Lookup(phone: string): Option<OtpRecord>
      reads this
    {
      if phone in entries then Some(entries[phone]) else None
    }

    /** Leaves `record` as the entry for `phone`, or no entry. */
    function Stored(phone: string, record: Option<OtpRecord>): map<string, OtpRecord>
      reads this
    {
      if record.Some? then entries[phone := record.value] else entries - {phone}
    }

    /**
     * send_otp: with the SMS gateway configured, a fresh entry (the code as text, five minutes,
     * no attempts, not verified) replaces any earlier one before the SMS goes out; the call
     * succeeds when the SMS was sent.
     */
    method SendOtp(phone: string, code: nat, smsConfigured: bool, smsSent: bool, now: int) returns (outcome: Outcome)
      requires 100000 <= code <= 999999
      modifies this
      ensures !smsConfigured ==> outcome == Fail(SEND_FAILED) && entries == old(entries)
      ensures smsConfigured ==>
        && entries == old(entries)[phone := OtpRecord(Decimal(code), now + OTP_LIFETIME, 0, None)]
        && (outcome == Pass <==> smsSent)
        && (!smsSent ==> outcome == Fail(SEND_FAILED))
    {
      if !smsConfigured {
        return Fail(SEND_FAILED);
      }
      var otp := Decimal(code);
      entries := entries[phone := OtpRecord(otp, now + OTP_LIFETIME, 0, None)];
      if !smsSent {
        return Fail(SEND_FAILED);
      }
      return Pass;
    }

    /** verify_otp, as VerifyOn states it for the phone's entry; other phones are untouched. */
    method VerifyOtp(phone: string, token: string, now: int) returns (outcome: Outcome)
      modifies this
      ensures var step := VerifyOn(old(Lookup(phone)), token, now);
              outcome == step.outcome && entries == old(Stored(phone, step.record))
    {
      if phone !in entries {
        return Fail(OTP_NOT_FOUND);
      }
      var stored := entries[phone];
      if now > stored.expiresAt {
        entries := entries - {phone};
        return Fail(OTP_EXPIRED);
      }
      if stored.attempts >= MAX_ATTEMPTS {
        entries := entries - {phone};
        return Fail(TOO_MANY_ATTEMPTS);
      }
      if stored.otp != token {
        entries := entries[phone := stored.(attempts := stored.attempts + 1)];
        return Fail(INVALID_OTP);
      }
      entries := entries[phone := stored.(verifiedAt := Some(now))];
      return Pass;
    }

    /** register_with_otp, as RegisterOn states it for the phone's entry; other phones are untouched. */
    method RegisterWithOtp(phone: string, phoneTaken: bool, profileInserted: bool, now: int) returns (outcome: Outcome)
      modifies this
      ensures var step := RegisterOn(old(Lookup(phone)), phoneTaken, profileInserted, now);
              outcome == step.outcome && entries == old(Stored(phone, step.record))
    {
      if phone !in entries {
        return Fail(NOT_VERIFIED);
      }
      var stored := entries[phone];
      if stored.verifiedAt.None? {
        return Fail(NOT_VERIFIED);
      }
      if now > stored.verifiedAt.value + VERIFICATION_WINDOW {
        entries := entries - {phone};
        return Fail(VERIFICATION_EXPIRED);
      }
      if phoneTaken {
        entries := entries - {phone};
        return Fail(USER_EXISTS);
      }
      if !profileInserted {
        return Fail(PROFILE_NOT_CREATED);
      }
      entries := entries - {phone};
      return Pass;
    }
  }
}
