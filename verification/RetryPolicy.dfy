/** When a failed upload is tried again. */
module RetryPolicy {
  import opened IntArithmetic

  /** What the server's Retry-After header says, once read. */
  datatype RetryAfter = Missing | Seconds(seconds: nat) | Date(epochSeconds: int) | Unreadable

  /** One second, doubled with each failed attempt, up to five minutes. */
  function Delay(attempts: int): int {
    Min(300000, 1000 * Pow2(Clamp(attempts, 0, 9)))
  }

  function ServerDelay(header: RetryAfter, now: int): int {
    match header
    case Missing => 0
    case Seconds(n) => n * 1000
    case Date(s) => if s > 0 then Max(0, s * 1000 - now) else 0
    case Unreadable => 0
  }

  function RetryAt(now: int, attempts: int, header: RetryAfter, jitter: nat): int {
    now + Max(Delay(attempts), ServerDelay(header, now)) + Min(jitter, 500)
  }

  lemma {:induction false} Pow2Grows(a: nat, b: nat)
    requires a <= b
    ensures 1 <= Pow2(a) <= Pow2(b)
  {
    if a < b {
      Pow2Grows(a, b - 1);
    } else if a > 0 {
      Pow2Grows(a - 1, b - 1);
    }
  }

  /** More failures never wait less, nothing waits less than a second, and from nine failures on the wait is five
      minutes. */
  lemma DelayGrows(a: int, b: int)
    requires a <= b
    ensures 1000 <= Delay(a) <= Delay(b) <= 300000
    ensures 9 <= b ==> Delay(b) == 300000
  {
    Pow2Grows(Clamp(a, 0, 9), Clamp(b, 0, 9));
    assert Pow2(9) == 512;
  }

  /** The time is never earlier than the delay or the server asks for, and at most half a second later than the later of
      both. */
  lemma RetryAtBounds(now: int, attempts: int, header: RetryAfter, jitter: nat)
    ensures now + Delay(attempts) <= RetryAt(now, attempts, header, jitter)
    ensures header.Seconds? ==> now + header.seconds * 1000 <= RetryAt(now, attempts, header, jitter)
    ensures header.Date? && header.epochSeconds > 0 ==>
      header.epochSeconds * 1000 <= RetryAt(now, attempts, header, jitter)
    ensures RetryAt(now, attempts, header, jitter) <= now + Max(Delay(attempts), ServerDelay(header, now)) + 500
    ensures now + 1000 <= RetryAt(now, attempts, header, jitter)
    ensures header.Missing? || header.Unreadable? ==> RetryAt(now, attempts, header, jitter) <= now + 300500
    ensures header.Seconds? ==>
      RetryAt(now, attempts, header, jitter) <= now + Max(300000, header.seconds * 1000) + 500
    ensures header.Date? ==>
      RetryAt(now, attempts, header, jitter) <= Max(now + 300000, header.epochSeconds * 1000) + 500
  {
    DelayGrows(attempts, attempts);
  }

  /** The waits in milliseconds: none, one, two, ... failures; nine or more. */
  lemma DelaysInNumbers(attempts: int)
    ensures attempts <= 0 ==> Delay(attempts) == 1000
    ensures Delay(1) == 2000 && Delay(2) == 4000 && Delay(3) == 8000 && Delay(4) == 16000 && Delay(5) == 32000
    ensures Delay(6) == 64000 && Delay(7) == 128000 && Delay(8) == 256000
    ensures attempts >= 9 ==> Delay(attempts) == 300000
  {
    assert Pow2(4) == 16 && Pow2(9) == 512;
  }
}
