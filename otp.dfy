/** One-time password generation (utils/util_func.py, generate_otp). The
    `random.random()` draws are an input: one value in [0, 1) per character. */
module Otp {
  import opened Common

  const DIGITS: string := "0123456789"
  const DEFAULT_OTP_LENGTH: int := 6

  /** `math.floor(r * 10)` for a draw r in [0, 1). */
  function DigitIndex(r: real): (k: nat)
    requires 0.0 <= r < 1.0
    ensures k < 10
  {
    (r * 10.0).Floor
  }

  /** generate_otp: `length` iterations, each appending the digit selected
      by the next draw; a non-positive length gives the empty string. */
  method GenerateOtp(length: int, draws: seq<real>) returns (otp: string)
    requires forall i :: 0 <= i < |draws| ==> 0.0 <= draws[i] < 1.0
    requires length <= |draws|
    ensures |otp| == if length < 0 then 0 else length
    ensures forall i :: 0 <= i < |otp| ==> otp[i] == DIGITS[DigitIndex(draws[i])]
    ensures forall i :: 0 <= i < |otp| ==> IsAsciiDigit(otp[i])
  {
    otp := "";
    var i := 0;
    while i < length
      invariant 0 <= i <= (if length < 0 then 0 else length) && |otp| == i
      invariant forall j :: 0 <= j < i ==> otp[j] == DIGITS[DigitIndex(draws[j])] && IsAsciiDigit(otp[j])
    {
      otp := otp + [DIGITS[DigitIndex(draws[i])]];
      i := i + 1;
    }
  }
}
