/** Time-based one-time codes: dynamic truncation and the two-step acceptance window. */
module Totp {
  import opened Results
  import opened Bytes

  const PERIOD_SECONDS := 30
  const DIGITS := 6

  datatype TotpError = InvalidCodeFormat | VerificationFailed

  /** Division that rounds toward zero, as on signed machine integers. */
  function Truncated(a: int, b: nat): int
    requires b > 0
  {
    if a >= 0 then a / b else -((-a) / b)
  }

  function CurrentStep(seconds: int): (step: int)
    ensures seconds >= 0 ==> 30 * step <= seconds < 30 * step + 30
    ensures seconds <= 0 ==> 30 * step - 30 < seconds <= 30 * step
  {
    Truncated(seconds, PERIOD_SECONDS)
  }

  /** The code of a 32-byte MAC; the four-byte window always exists. */
  function CodeOf(mac: seq<byte>): (code: nat)
    requires |mac| == 32
    ensures code < 1_000_000
  {
    var offset := mac[31] % 16;
    FromBigEndian(mac[offset..offset + 4]) % 0x8000_0000 % 1_000_000
  }

  /** Four bytes as a number, the top bit of the first one cleared. */
  function Masked(a: int, b: int, c: int, d: int): int {
    0x100_0000 * (a % 128) + 0x1_0000 * b + 0x100 * c + d
  }

  /** The code is the dynamic truncation of section 5.4 of RFC 4226, which masks the first byte instead of the word. */
  lemma CodeIsDynamicTruncation(mac: seq<byte>)
    requires |mac| == 32
    ensures var o := mac[31] % 16;
            CodeOf(mac) == Masked(mac[o], mac[o + 1], mac[o + 2], mac[o + 3]) % 1_000_000
  {
    var o := mac[31] % 16;
    FourBytes(mac[o..o + 4]);
    MaskedWord(mac[o], mac[o + 1], mac[o + 2], mac[o + 3]);
  }

  lemma FourBytes(s: seq<byte>)
    requires |s| == 4
    ensures FromBigEndian(s) == 0x100 * (0x100 * (0x100 * FromBigEndian(s[..1]) + s[1]) + s[2]) + s[3]
    ensures FromBigEndian(s[..1]) == s[0]
  {
    assert s[..1][..0] == [] && s[..2][..1] == s[..1] && s[..3][..2] == s[..2];
    assert FromBigEndian(s[..2]) == 0x100 * FromBigEndian(s[..1]) + s[1];
    assert FromBigEndian(s[..3]) == 0x100 * FromBigEndian(s[..2]) + s[2];
  }

  lemma MaskedWord(a: int, b: int, c: int, d: int)
    requires 0 <= a < 256 && 0 <= b < 256 && 0 <= c < 256 && 0 <= d < 256
    ensures (0x100 * (0x100 * (0x100 * a + b) + c) + d) % 0x8000_0000 == Masked(a, b, c, d)
  {
    if a < 128 {
      assert a % 128 == a;
    } else {
      assert a % 128 == a - 128;
    }
  }

  predicate WellFormed(code: string) {
    |code| == DIGITS && forall i | 0 <= i < |code| :: '0' <= code[i] <= '9'
  }

  function Number(code: string): nat {
    if code == "" then 0
    else if '0' <= code[|code| - 1] <= '9' then 10 * Number(code[..|code| - 1]) + (code[|code| - 1] - '0') as int
    else 0
  }

  /** A step that would be accepted: in the window, not the last accepted one, with the supplied code. */
  predicate Acceptable(codeFor: int -> nat, supplied: nat, seconds: int, last: Option<int>, step: int) {
    && (step == CurrentStep(seconds) || step == CurrentStep(seconds) - 1)
    && Some(step) != last
    && codeFor(step) == supplied
  }

  /** The newest acceptable step. */
  function Verified(codeFor: int -> nat, code: string, seconds: int, last: Option<int>): (r: Result<int, TotpError>)
    ensures r == Err(InvalidCodeFormat) <==> !WellFormed(code)
    ensures r.Ok? ==> Acceptable(codeFor, Number(code), seconds, last, r.value)
    ensures forall step :: WellFormed(code) && Acceptable(codeFor, Number(code), seconds, last, step) ==>
              r.Ok? && step <= r.value
  {
    var now := CurrentStep(seconds);
    if !WellFormed(code) then Err(InvalidCodeFormat)
    else if Acceptable(codeFor, Number(code), seconds, last, now) then Ok(now)
    else if Acceptable(codeFor, Number(code), seconds, last, now - 1) then Ok(now - 1)
    else Err(VerificationFailed)
  }

  /**
   * Verification alone does not keep steps increasing: it accepts a step older than the last accepted one exactly
   * when the code is of the step before a last step that is current, or of either step when the clock is behind it.
   */
  lemma OlderStepVerifies(codeFor: int -> nat, code: string, seconds: int, last: int)
    ensures var r, now := Verified(codeFor, code, seconds, Some(last)), CurrentStep(seconds);
            (r.Ok? && r.value < last)
            <==> (&& WellFormed(code)
                  && (|| (last == now && codeFor(now - 1) == Number(code))
                      || (last > now && (codeFor(now) == Number(code) || codeFor(now - 1) == Number(code)))))
  {
    assert Acceptable(codeFor, Number(code), seconds, Some(last), CurrentStep(seconds))
           <==> (last != CurrentStep(seconds) && codeFor(CurrentStep(seconds)) == Number(code));
  }

  /** The six digits of a code. */
  function Digits(n: nat, width: nat): (r: string)
    ensures |r| == width && forall i | 0 <= i < |r| :: '0' <= r[i] <= '9'
  {
    if width == 0 then "" else Digits(n / 10, width - 1) + ['0' + (n % 10) as char]
  }

  function Tens(width: nat): nat {
    if width == 0 then 1 else 10 * Tens(width - 1)
  }

  lemma {:induction false} NumberOfDigits(n: nat, width: nat)
    requires n < Tens(width)
    ensures Number(Digits(n, width)) == n
  {
    if width > 0 {
      NumberOfDigits(n / 10, width - 1);
      assert Digits(n, width)[..width - 1] == Digits(n / 10, width - 1);
    }
  }

  /** Every number below a million is the number of a well-formed code. */
  lemma CodeForNumber(n: nat)
    requires n < 1_000_000
    ensures WellFormed(Digits(n, DIGITS)) && Number(Digits(n, DIGITS)) == n
  {
    assert Tens(6) == 1_000_000 by { assert Tens(2) == 100; assert Tens(4) == 10_000; }
    NumberOfDigits(n, DIGITS);
  }

  /** At five minutes past the epoch, with step 10 accepted last, the code of step 9 is accepted. */
  lemma OlderStepIsAccepted()
    ensures Verified(step => if step == 9 then 123456 else 0, "123456", 300, Some(10)) == Ok(9)
  {
    var code := "123456";
    assert code[..5] == "12345" && code[..5][..4] == "1234" && code[..5][..4][..3] == "123";
    assert Number("123") == 123 by { assert "123"[..2] == "12" && "12"[..1] == "1"; }
    assert Number("12345") == 12345 by { assert "12345"[..4] == "1234" && "1234"[..3] == "123"; }
    assert Number(code) == 123456;
  }

  /** Whatever the seed and the code, verification accepts newer steps only. */
  ghost predicate OnlyNewer(seconds: int, last: int) {
    forall codeFor: int -> nat, code: string ::
      var r := Verified(codeFor, code, seconds, Some(last)); r.Ok? ==> r.value > last
  }

  /** A caller can rely on that exactly when the last accepted step is before the current one. */
  lemma VerificationAloneIncreases(seconds: int, last: int)
    ensures OnlyNewer(seconds, last) <==> last < CurrentStep(seconds)
  {
    if last >= CurrentStep(seconds) {
      CodeForNumber(0);
      var r := Verified(step => 0, Digits(0, DIGITS), seconds, Some(last));
      OlderStepVerifies(step => 0, Digits(0, DIGITS), seconds, last);
      assert r.Ok? && r.value < last;
    }
  }

  method VerifyTotp(codeFor: int -> nat, code: string, seconds: int, last: Option<int>) returns (r: Result<int, TotpError>)
    ensures r == Verified(codeFor, code, seconds, last)
  {
    if |code| != DIGITS || exists i | 0 <= i < |code| :: !('0' <= code[i] <= '9') {
      return Err(InvalidCodeFormat);
    }
    var current := CurrentStep(seconds);
    var steps := [current, current - 1];
    var supplied := Number(code);
    for i := 0 to |steps|
      invariant forall j | 0 <= j < i :: !Acceptable(codeFor, supplied, seconds, last, steps[j])
    {
      var step := steps[i];
      if Some(step) == last { continue; }
      if codeFor(step) == supplied {
        assert i == 1 ==> !Acceptable(codeFor, supplied, seconds, last, steps[0]);
        return Ok(step);
      }
    }
    assert steps[0] == current && steps[1] == current - 1;
    return Err(VerificationFailed);
  }
}
