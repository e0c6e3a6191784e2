/** Time-based one-time passwords (src/coreline_auth/mfa.py), after RFC 4226 section 5.3 and
    RFC 6238 sections 4.2 and 5.2. The keyed hash is a parameter; truncation, decimal
    printing and the drift window are concrete. */
module Totp {
  import opened Prelude
  import opened Text

  type Byte = n: int | 0 <= n < 256

  /** A SHA-1 digest. */
  type Digest = d: seq<Byte> | |d| == 20 witness seq(20, _ => 0)

  /** The keyed hash of the packed counter, for one decoded secret. */
  type Mac = nat -> Digest

  const COUNTER_LIMIT := 0x1_0000_0000_0000_0000

  function Pow10(n: nat): (p: nat)
    ensures p >= 1
  {
    if n == 0 then 1 else 10 * Pow10(n - 1)
  }

  /** Dynamic truncation: four bytes at the offset in the last nibble, without the sign bit. */
  function Truncate(d: Digest): (v: nat)
    ensures v < 0x8000_0000
  {
    var offset := d[19] % 16;
    var b0: int, b1: int, b2: int, b3: int := d[offset], d[offset + 1], d[offset + 2], d[offset + 3];
    (b0 * 0x100_0000 + b1 * 0x1_0000 + b2 * 0x100 + b3) % 0x8000_0000
  }

  /** Where the digest ends in the hexadecimal digit `o`, the value is the one whose four bytes, from
      the highest, are those at `o` with the topmost bit cleared. */
  lemma TruncateMeaning(d: Digest, high: nat, o: nat)
    requires d[19] == 16 * high + o && o < 16
    ensures var v := Truncate(d);
      && v / 0x100_0000 == (if d[o] >= 128 then d[o] - 128 else d[o])
      && v / 0x1_0000 % 0x100 == d[o + 1] && v / 0x100 % 0x100 == d[o + 2] && v % 0x100 == d[o + 3]
  {
    hide Truncate;
    var b0: int, b1: int, b2: int, b3: int := d[o], d[o + 1], d[o + 2], d[o + 3];
    var top := if b0 >= 128 then b0 - 128 else b0;
    TruncateAt(d, high, o);
    ClearedTop(b0, b1 * 0x1_0000 + b2 * 0x100 + b3);
    Quotient(top * 0x1_0000 + b1 * 0x100 + b2, b3);
    Quotient(top * 0x100 + b1, b2);
    Quotient(top, b1);
    Quotients(Truncate(d));
  }

  lemma TruncateAt(d: Digest, high: nat, o: nat)
    requires d[19] == 16 * high + o && o < 16
    ensures Truncate(d)
         == (d[o] as int * 0x100_0000 + (d[o + 1] as int * 0x1_0000 + d[o + 2] as int * 0x100 + d[o + 3])) % 0x8000_0000
  {
    assert d[19] % 16 == o;
  }

  lemma ClearedTop(b: int, rest: int)
    requires 0 <= b < 256 && 0 <= rest < 0x100_0000
    ensures (b * 0x100_0000 + rest) % 0x8000_0000 == (if b >= 128 then b - 128 else b) * 0x100_0000 + rest
  {
  }

  lemma Quotient(q: int, r: int)
    requires 0 <= r < 0x100 && 0 <= q
    ensures (q * 0x100 + r) / 0x100 == q && (q * 0x100 + r) % 0x100 == r
  {
  }

  lemma Quotients(v: nat)
    ensures v / 0x1_0000 == v / 0x100 / 0x100 && v / 0x100_0000 == v / 0x100 / 0x100 / 0x100
  {
  }

  function DigitChar(n: nat): char
    requires n < 10
  {
    ('0' as int + n) as char
  }

  /** `str(n)`. */
  function Decimal(n: nat): string {
    if n < 10 then [DigitChar(n)] else Decimal(n / 10) + [DigitChar(n % 10)]
  }

  /** `s.zfill(width)` on digits. */
  function ZeroFill(s: string, width: nat): string {
    if |s| >= width then s else seq(width - |s|, _ => '0') + s
  }

  predicate AsciiDigit(c: char) {
    '0' <= c <= '9'
  }

  predicate AsciiDigits(s: string) {
    forall i :: 0 <= i < |s| ==> AsciiDigit(s[i])
  }

  /** The number a string of digits denotes. */
  function Number(s: string): nat
    requires AsciiDigits(s)
  {
    if s == "" then 0 else 10 * Number(s[..|s| - 1]) + (s[|s| - 1] as int - '0' as int)
  }

  lemma {:induction false} DecimalDenotes(n: nat)
    ensures AsciiDigits(Decimal(n)) && Number(Decimal(n)) == n && |Decimal(n)| >= 1
  {
    if n >= 10 {
      DecimalDenotes(n / 10);
      var s := Decimal(n);
      assert s[..|s| - 1] == Decimal(n / 10);
    } else {
      assert Decimal(n)[..0] == "";
    }
  }

  lemma {:induction false} DecimalLength(n: nat, width: nat)
    requires n < Pow10(width)
    ensures |Decimal(n)| <= if width == 0 then 1 else width
  {
    if n >= 10 {
      DecimalLength(n / 10, width - 1);
    }
  }

  lemma {:induction false} LeadingZeros(k: nat, s: string)
    requires AsciiDigits(s)
    ensures AsciiDigits(seq(k, _ => '0') + s) && Number(seq(k, _ => '0') + s) == Number(s)
  {
    var z := seq(k, _ => '0') + s;
    if s == "" {
      if k > 0 {
        LeadingZeros(k - 1, s);
        assert z[..|z| - 1] == seq(k - 1, _ => '0') + s;
      }
    } else {
      LeadingZeros(k, s[..|s| - 1]);
      assert z[..|z| - 1] == seq(k, _ => '0') + s[..|s| - 1];
    }
  }

  /** The printed form of `value % 10**digits`. */
  function CodeText(value: nat, digits: nat): string {
    ZeroFill(Decimal(value % Pow10(digits)), digits)
  }

  /** A code is exactly `digits` decimal digits (one digit when `digits` is zero) that denote
      the truncated value modulo `10**digits`. */
  lemma CodeTextShape(value: nat, digits: nat)
    ensures |CodeText(value, digits)| == if digits == 0 then 1 else digits
    ensures AsciiDigits(CodeText(value, digits)) && Number(CodeText(value, digits)) == value % Pow10(digits)
  {
    var n := value % Pow10(digits);
    DecimalDenotes(n);
    DecimalLength(n, digits);
    LeadingZeros(if |Decimal(n)| >= digits then 0 else digits - |Decimal(n)|, Decimal(n));
  }

  /** Two values share a code exactly when they agree modulo `10**digits`. */
  lemma CodesAgree(a: nat, b: nat, digits: nat)
    ensures CodeText(a, digits) == CodeText(b, digits) <==> a % Pow10(digits) == b % Pow10(digits)
  {
    CodeTextShape(a, digits);
    CodeTextShape(b, digits);
  }

  datatype Failure = StructError | TypeError

  /** `totp_code`: `struct.pack` rejects counters outside 64 unsigned bits. */
  function Code(mac: Mac, timestamp: int, period: int, digits: nat): (r: Result<string, Failure>)
    requires period > 0
  {
    CounterCode(mac, timestamp / period, digits)
  }

  function CounterCode(mac: Mac, counter: int, digits: nat): Result<string, Failure> {
    if 0 <= counter < COUNTER_LIMIT then Ok(CodeText(Truncate(mac(counter)), digits)) else Err(StructError)
  }

  /** `str.isdigit` of one character, given the test for characters beyond ASCII. */
  predicate IsDigit(beyondAscii: char -> bool, c: char) {
    if c < '\U{80}' then AsciiDigit(c) else beyondAscii(c)
  }

  function KeepDigits(beyondAscii: char -> bool, s: string): string {
    if s == "" then ""
    else if IsDigit(beyondAscii, s[0]) then [s[0]] + KeepDigits(beyondAscii, s[1..])
    else KeepDigits(beyondAscii, s[1..])
  }

  /** The submitted code without surrounding whitespace and non-digits. */
  function Normalize(beyondAscii: char -> bool, code: string): string {
    KeepDigits(beyondAscii, Strip(code))
  }

  /** `compare_digest` on texts raises for characters beyond ASCII. */
  predicate Ascii(s: string) {
    forall i :: 0 <= i < |s| ==> s[i] < '\U{80}'
  }

  predicate Matches(mac: Mac, counter: int, digits: nat, normalized: string) {
    CounterCode(mac, counter, digits) == Ok(normalized)
  }

  /** The counter can be packed and does not have the given code. */
  predicate Misses(mac: Mac, counter: int, digits: nat, normalized: string) {
    0 <= counter < COUNTER_LIMIT && !Matches(mac, counter, digits, normalized)
  }

  predicate NoMatch(mac: Mac, from: int, to: int, digits: nat, normalized: string) {
    forall c :: from <= c < to ==> Misses(mac, c, digits, normalized)
  }

  lemma NoMatchGrows(mac: Mac, from: int, to: int, digits: nat, normalized: string)
    requires NoMatch(mac, from, to, digits, normalized) && Misses(mac, to, digits, normalized)
    ensures NoMatch(mac, from, to + 1, digits, normalized)
  {
    hide Misses;
  }

  /** The search reaches `to`, which cannot be packed. */
  predicate Unpackable(mac: Mac, from: int, to: int, digits: nat, normalized: string) {
    !(0 <= to < COUNTER_LIMIT) && NoMatch(mac, from, to, digits, normalized)
  }

  /** The search fails before it finds a match or ends. */
  predicate RunsOffRange(mac: Mac, from: int, to: int, digits: nat, normalized: string) {
    exists c :: from <= c < to && Unpackable(mac, from, c, digits, normalized)
  }

  /** The outcomes of a search that ends: the least matching counter, or none. */
  predicate SearchResult(mac: Mac, normalized: string, center: int, window: nat, digits: nat, r: Option<int>) {
    match r
    case None => NoMatch(mac, center - window, center + window + 1, digits, normalized)
    case Some(c) =>
      && center - window <= c <= center + window && Matches(mac, c, digits, normalized)
      && NoMatch(mac, center - window, c, digits, normalized)
  }

  /** `totp_counter_for_code`. The search finds the least counter in the drift window whose
      code matches; it fails on the first counter that cannot be packed, and on a code with
      digits beyond ASCII at the first comparison. */
  method CounterForCode(mac: Mac, beyondAscii: char -> bool, code: string, timestamp: int, window: int, period: int,
                        digits: nat)
    returns (r: Result<Option<int>, Failure>)
    requires period > 0
    ensures var normalized := Normalize(beyondAscii, code);
      var center := timestamp / period;
      if |normalized| != digits || window < 0 then r == Ok(None)
      else if !Ascii(normalized) then
        r == Err(if 0 <= center - window < COUNTER_LIMIT then TypeError else StructError)
      else match r
        case Ok(found) => SearchResult(mac, normalized, center, window, digits, found)
        case Err(e) => e == StructError && RunsOffRange(mac, center - window, center + window + 1, digits, normalized)
  {
    var normalized := Normalize(beyondAscii, code);
    if |normalized| != digits {
      return Ok(None);
    }
    var center := timestamp / period;
    var step := -window;
    while step < window + 1
      invariant window >= 0 ==> -window <= step <= window + 1
      invariant Ascii(normalized) || step == -window
      invariant NoMatch(mac, center - window, center + step, digits, normalized)
    {
      var counter := center + step;
      SlotCounter(counter, period);
      var candidate := Code(mac, counter * period, period, digits);
      assert candidate == CounterCode(mac, counter, digits);
      if candidate.Err? {
        assert !Ascii(normalized) || Unpackable(mac, center - window, counter, digits, normalized);
        return Err(candidate.error);
      }
      if !Ascii(normalized) {
        return Err(TypeError);
      }
      if candidate.value == normalized {
        return Ok(Some(counter));
      }
      NoMatchGrows(mac, center - window, counter, digits, normalized);
      step := step + 1;
    }
    return Ok(None);
  }

  lemma SlotCounter(counter: int, period: int)
    requires period > 0
    ensures counter * period / period == counter
  {
    var q := counter * period / period;
    SlotBounds(counter * period, period);
    if q < counter {
      MulMonotone(q + 1, counter, period);
    } else if counter < q {
      MulMonotone(counter + 1, q, period);
    }
  }

  lemma SlotBounds(t: int, period: int)
    requires period > 0
    ensures t / period * period <= t < t / period * period + period
  {
  }

  /** Clock drift in seconds bounds the drift in counters, in both directions. */
  lemma SlotDrift(t: int, t': int, window: nat, period: int)
    requires period > 0
    ensures -(window * period) <= t' - t <= window * period ==>
      t / period - window <= t' / period <= t / period + window
    ensures t' - t >= (window + 1) * period ==> t' / period > t / period + window
    ensures t - t' >= (window + 1) * period ==> t' / period < t / period - window
  {
    var a, b := t / period, t' / period;
    SlotBounds(t, period);
    SlotBounds(t', period);
    if b > a + window {
      MulMonotone(a + window + 1, b, period);
      assert (a + window + 1) * period == a * period + window * period + period;
    } else {
      MulMonotone(b, a + window, period);
      assert (a + window) * period == a * period + window * period;
    }
    if b < a - window {
      MulMonotone(b + 1 + window, a, period);
      assert (b + 1 + window) * period == b * period + period + window * period;
    } else {
      MulMonotone(a - window, b, period);
      assert (a - window) * period == a * period - window * period;
    }
    assert (window + 1) * period == window * period + period;
  }

  lemma MulMonotone(a: int, b: int, m: int)
    requires a <= b && m > 0
    ensures a * m <= b * m
  {
  }

  /** A code made at `t` is accepted at every `t'` within the window (with the least matching
      counter, hence its own unless an earlier counter in the window has the same code), and
      its own counter is outside the search once the clocks differ by a whole window more. */
  lemma DriftWindow(mac: Mac, t: int, t': int, window: nat, period: int, digits: nat, r: Option<int>)
    requires period > 0
    requires Code(mac, t, period, digits).Ok?
    requires SearchResult(mac, Code(mac, t, period, digits).value, t' / period, window, digits, r)
    ensures -(window * period) <= t' - t <= window * period ==> r.Some? && r.value <= t / period
    ensures -(window * period) <= t' - t <= window * period
      && (forall c :: t' / period - window <= c < t / period ==>
          CounterCode(mac, c, digits) != Code(mac, t, period, digits))
      ==> r == Some(t / period)
    ensures t' - t >= (window + 1) * period || t - t' >= (window + 1) * period ==> r != Some(t / period)
  {
    SlotDrift(t, t', window, period);
    assert !Misses(mac, t / period, digits, Code(mac, t, period, digits).value);
  }

  /** Cleaning keeps exactly the digits, in order. */
  lemma {:induction false} DigitsKept(beyondAscii: char -> bool, a: string, c: char, b: string)
    ensures KeepDigits(beyondAscii, a + [c] + b) == KeepDigits(beyondAscii, a)
      + (if '0' <= c <= '9' || (c >= '\U{80}' && beyondAscii(c)) then [c] else "") + KeepDigits(beyondAscii, b)
  {
    if a == "" {
      assert ([c] + b)[1..] == b;
      assert a + [c] + b == [c] + b;
    } else {
      DigitsKept(beyondAscii, a[1..], c, b);
      assert (a + [c] + b)[1..] == a[1..] + [c] + b;
    }
  }

  lemma {:induction false} NumberIsInjective(s: string, t: string)
    requires AsciiDigits(s) && AsciiDigits(t) && |s| == |t| && Number(s) == Number(t)
    ensures s == t
  {
    if s != "" {
      var last := |s| - 1;
      assert AsciiDigit(s[last]) && AsciiDigit(t[last]);
      NumberIsInjective(s[..last], t[..last]);
      assert s == s[..last] + [s[last]] && t == t[..last] + [t[last]];
    }
  }

  /** A text matches a counter exactly when that can be packed and the text is the decimal
      digits, as many as asked for, of the truncated hash modulo ten to their number. */
  lemma MatchesMeaning(mac: Mac, counter: int, digits: nat, text: string)
    ensures Matches(mac, counter, digits, text) <==> (
      && 0 <= counter < 0x1_0000_0000_0000_0000
      && AsciiDigits(text) && |text| == (if digits == 0 then 1 else digits)
      && Number(text) == Truncate(mac(counter)) % Pow10(digits))
  {
    hide Truncate, CodeText;
    if 0 <= counter < COUNTER_LIMIT {
      var v := Truncate(mac(counter));
      CodeTextShape(v, digits);
      if AsciiDigits(text) && |text| == |CodeText(v, digits)| && Number(text) == v % Pow10(digits) {
        NumberIsInjective(text, CodeText(v, digits));
      }
    }
  }

  lemma {:induction false} KeepAllDigits(beyondAscii: char -> bool, s: string)
    requires AsciiDigits(s)
    ensures KeepDigits(beyondAscii, s) == s
  {
    if s != "" {
      KeepAllDigits(beyondAscii, s[1..]);
    }
  }

  /** A generated code survives normalisation, so the search above is run on the code itself. */
  lemma GeneratedCodeIsNormal(beyondAscii: char -> bool, mac: Mac, t: int, period: int, digits: nat)
    requires period > 0 && Code(mac, t, period, digits).Ok?
    ensures var code := Code(mac, t, period, digits).value;
      Normalize(beyondAscii, code) == code && Ascii(code) && (digits > 0 ==> |code| == digits)
  {
    var v := Truncate(mac(t / period));
    CodeTextShape(v, digits);
    KeepAllDigits(beyondAscii, CodeText(v, digits));
    StripOfTrimmed(CodeText(v, digits));
  }
}
