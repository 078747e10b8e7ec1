/**
 * The stand-alone one-time-code table: codes are generated with a two-minute
 * lifetime, and verifying a code marks the newest unverified row holding it.
 * The random draw and the clock are parameters.
 */
module Otp {

  import opened Outcomes
  import opened Tables
  import Text

  /** Two minutes, in milliseconds. */
  const Lifetime: int := 2 * 60 * 1000

  datatype OtpRecord = OtpRecord(email: string, otp: string, expiresAt: int, verified: bool, createdAt: int)

  /** The code generateOtp makes from a draw in [0, 900000). */
  function CodeOf(draw: nat): (code: string)
    requires draw < 900000
    ensures |code| == 6 && (forall i :: 0 <= i < |code| ==> Text.IsDigit(code[i])) && code[0] != Text.DigitChar(0)
    ensures Text.DigitsValue(code) == 100000 + draw
  {
    assert Text.Pow10(5) == 100000 && Text.Pow10(6) == 1000000;
    Text.DecimalLength(100000 + draw, 6);
    Text.DecimalRoundTrip(100000 + draw);
    Text.Decimal(100000 + draw)
  }

  // ---------------------------------------------------------------------------
  // Choosing the row verifyOtp acts on

  /** A row `findFirst({ where: { otp, verified: false } })` may return. */
  predicate Candidate(r: OtpRecord, otp: string)
  {
    r.otp == otp && !r.verified
  }

  /**
   * The newest candidate by `createdAt` among the rows with id below `n`;
   * of two rows created at the same instant, the later-inserted one.
   */
  function Newest(rs: map<Id, OtpRecord>, n: Id, otp: string): (r: Option<Id>)
    ensures r.Some? ==> r.value in rs && r.value < n && Candidate(rs[r.value], otp)
    ensures r.Some? ==> forall j :: j in rs && j < n && Candidate(rs[j], otp) ==> rs[j].createdAt <= rs[r.value].createdAt
    ensures r.None? ==> forall j :: j in rs && j < n ==> !Candidate(rs[j], otp)
  {
    if n == 0 then None
    else
      var best := Newest(rs, n - 1, otp);
      if n - 1 in rs && Candidate(rs[n - 1], otp) && (best.None? || rs[best.value].createdAt <= rs[n - 1].createdAt)
      then Some(n - 1)
      else best
  }

  /** Marking the chosen row verified means the same row is never chosen again. */
  lemma VerifiedNotChosenAgain(rs: map<Id, OtpRecord>, n: Id, otp: string, k: Id, other: string)
    requires Newest(rs, n, otp) == Some(k)
    ensures Newest(rs[k := rs[k].(verified := true)], n, other) != Some(k)
  {
  }

  /** With no row created after it, a freshly generated code is the row verifyOtp picks for that code. */
  lemma GeneratedIsChosen(rs: map<Id, OtpRecord>, n: Id, email: string, draw: nat, now: int)
    requires Bounded(rs, n) && draw < 900000
    requires forall j :: j in rs ==> rs[j].createdAt <= now
    ensures var code := CodeOf(draw);
      Newest(rs[n := OtpRecord(email, code, now + Lifetime, false, now)], n + 1, code) == Some(n)
  {
  }

  // ---------------------------------------------------------------------------
  // The table

  class OtpStore {
    var records: map<Id, OtpRecord>
    var nextId: Id

    ghost predicate Valid()
      reads this
    {
      Bounded(records, nextId)
    }

    constructor ()
      ensures Valid() && records == map[] && nextId == 0
    {
      records, nextId := map[], 0;
    }

    /** generateOtp: stores a six-digit code that expires two minutes after `now`. */
    method GenerateOtp(email: string, draw: nat, now: int) returns (code: string)
      requires Valid() && draw < 900000
      modifies this
      ensures Valid()
      ensures code == CodeOf(draw)
      ensures records == old(records)[old(nextId) := OtpRecord(email, code, now + Lifetime, false, now)]
      ensures nextId == old(nextId) + 1
    {
      code := CodeOf(draw);
      records := records[nextId := OtpRecord(email, code, now + Lifetime, false, now)];
      nextId := nextId + 1;
    }

    /**
     * verifyOtp: the newest unverified row with the code, if not expired, is
     * marked verified and its id returned; an expired row is left unmarked.
     */
    method VerifyOtp(otp: string, now: int) returns (r: Outcome<Id>)
      requires Valid()
      modifies this
      ensures Valid() && nextId == old(nextId)
      ensures var k := Newest(old(records), old(nextId), otp);
        if k.None? then r == Unauthorized("Invalid OTP") && records == old(records)
        else if old(records)[k.value].expiresAt < now then r == Unauthorized("OTP expired") && records == old(records)
        else r == Ok(k.value) && records == old(records)[k.value := old(records)[k.value].(verified := true)]
    {
      var k := Newest(records, nextId, otp);
      if k.None? {
        return Unauthorized("Invalid OTP");
      }
      if records[k.value].expiresAt < now {
        return Unauthorized("OTP expired");
      }
      records := records[k.value := records[k.value].(verified := true)];
      r := Ok(k.value);
    }
  }
}
