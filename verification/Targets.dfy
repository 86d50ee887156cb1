/** Forward targets: the shape check `valid_target` (tmite-core/src/daemon/main_ep.rs). */
module Targets {
  import opened Prelude

  const MAX_TARGET_LEN := 256

  /** Length in UTF-8 bytes, which is what `str::len` counts. */
  function ByteLen(s: string): nat {
    if s == "" then 0 else ByteLen(s[..|s| - 1]) + CharBytes(s[|s| - 1])
  }

  function CharBytes(c: char): nat {
    if c as int < 0x80 then 1 else if c as int < 0x800 then 2 else if c as int < 0x1_0000 then 3 else 4
  }

  /** Unicode White_Space, as in `char::is_whitespace`. */
  predicate IsWhitespace(c: char) {
    var n := c as int;
    || 0x9 <= n <= 0xD || n == 0x20 || n == 0x85 || n == 0xA0 || n == 0x1680
    || 0x2000 <= n <= 0x200A || n == 0x2028 || n == 0x2029 || n == 0x202F || n == 0x205F || n == 0x3000
  }

  predicate IsDigits(s: string) {
    s != "" && forall i :: 0 <= i < |s| ==> '0' <= s[i] <= '9'
  }

  function DigitsValue(s: string): nat
    requires forall i :: 0 <= i < |s| ==> '0' <= s[i] <= '9'
  {
    if s == "" then 0 else 10 * DigitsValue(s[..|s| - 1]) + (s[|s| - 1] as int - '0' as int)
  }

  /** `str::parse::<u16>` succeeds: an optional plus sign, then digits. */
  predicate ParsesAsU16(s: string) {
    var digits := if s != "" && s[0] == '+' then s[1..] else s;
    IsDigits(digits) && DigitsValue(digits) <= 0xFFFF
  }

  /** Position of the last colon; `|s|` when there is none. */
  function LastColon(s: string): (i: nat)
    ensures i <= |s|
    ensures i < |s| ==> s[i] == ':' && forall k :: i < k < |s| ==> s[k] != ':'
    ensures i == |s| ==> ':' !in s
  {
    if s == "" then 0
    else if s[|s| - 1] == ':' then |s| - 1
    else
      var i := LastColon(s[..|s| - 1]);
      if i == |s| - 1 then |s| else i
  }

  predicate ValidTarget(target: string) {
    if target == "" || ByteLen(target) > MAX_TARGET_LEN then false
    else if exists i :: 0 <= i < |target| && IsWhitespace(target[i]) then false
    else
      var i := LastColon(target);
      if i == |target| then false
      else
        var host, port := target[..i], target[i + 1..];
        host != "" && ':' !in host && port != "" && ParsesAsU16(port)
  }

  // ---- Ports are decimal numbers ----

  function Digit(d: nat): char
    requires d < 10
  {
    ('0' as int + d) as char
  }

  /** A number as it is printed. */
  function Decimal(n: nat): string {
    if n < 10 then [Digit(n)] else Decimal(n / 10) + [Digit(n % 10)]
  }

  function Zeros(k: nat): string {
    if k == 0 then "" else Zeros(k - 1) + ['0']
  }

  lemma {:induction false} ZerosAreZero(k: nat)
    ensures |Zeros(k)| == k && (forall i :: 0 <= i < k ==> Zeros(k)[i] == '0') && DigitsValue(Zeros(k)) == 0
  {
    if k > 0 {
      ZerosAreZero(k - 1);
      assert Zeros(k)[..k - 1] == Zeros(k - 1);
    }
  }

  lemma {:induction false} DecimalReadsBack(k: nat, n: nat)
    ensures IsDigits(Zeros(k) + Decimal(n)) && DigitsValue(Zeros(k) + Decimal(n)) == n
    decreases n
  {
    ZerosAreZero(k);
    var s := Zeros(k) + Decimal(n);
    if n < 10 {
      assert s[..|s| - 1] == Zeros(k);
    } else {
      DecimalReadsBack(k, n / 10);
      assert s[..|s| - 1] == Zeros(k) + Decimal(n / 10);
      assert s == (Zeros(k) + Decimal(n / 10)) + [Digit(n % 10)];
    }
  }

  lemma {:induction false} DigitsAreDecimal(s: string) returns (k: nat)
    requires IsDigits(s)
    ensures s == Zeros(k) + Decimal(DigitsValue(s))
  {
    var front, d := s[..|s| - 1], s[|s| - 1] as int - '0' as int;
    assert s == front + [Digit(d)];
    if front == "" {
      k := 0;
      assert Zeros(0) + Decimal(d) == Decimal(d);
    } else {
      k := DigitsAreDecimal(front);
      var v := DigitsValue(front);
      assert DigitsValue(s) == 10 * v + d;
      if v == 0 {
        assert front == Zeros(k + 1);
        k := k + 1;
      } else {
        assert (10 * v + d) / 10 == v && (10 * v + d) % 10 == d;
        assert s == Zeros(k) + (Decimal(v) + [Digit(d)]);
      }
    }
  }

  /** A port is read exactly when it is a number below 65536 as it is printed,
      after any zeros and at most one plus sign. */
  lemma PortIsDecimal(s: string)
    ensures ParsesAsU16(s) <==> exists k: nat, n: nat :: n < 0x1_0000 && (s == Zeros(k) + Decimal(n) || s == "+" + (Zeros(k) + Decimal(n)))
  {
    var digits := if s != "" && s[0] == '+' then s[1..] else s;
    if ParsesAsU16(s) {
      var k := DigitsAreDecimal(digits);
      assert s == digits || s == "+" + digits;
      assert s == Zeros(k) + Decimal(DigitsValue(digits)) || s == "+" + (Zeros(k) + Decimal(DigitsValue(digits)));
    }
    if k: nat, n: nat :| n < 0x1_0000 && (s == Zeros(k) + Decimal(n) || s == "+" + (Zeros(k) + Decimal(n))) {
      DecimalReadsBack(k, n);
      var t := Zeros(k) + Decimal(n);
      if s == t { assert s[0] != '+'; } else { assert s[1..] == t; }
    }
  }

  lemma PortHasNoColon(port: string)
    requires ParsesAsU16(port)
    ensures port != "" && ':' !in port
  {
    forall k | 0 <= k < |port| ensures port[k] != ':' {
      if port[0] == '+' && k > 0 { assert port[1..][k - 1] == port[k]; }
    }
  }

  lemma SplitsAtTheColon(target: string, host: string, port: string)
    requires target == host + ":" + port && ':' !in port
    ensures LastColon(target) == |host| && target[..|host|] == host && target[|host| + 1..] == port
  {
    assert target[|host|] == ':';
    assert forall k :: |host| < k < |target| ==> target[k] == port[k - |host| - 1];
  }

  ghost predicate HostPort(target: string, host: string, port: string) {
    target == host + ":" + port && host != "" && ':' !in host && ParsesAsU16(port)
  }

  /** A target is accepted exactly when it reads `host:port` with one colon,
      a non-empty host, a 16-bit port, no whitespace and at most 256 bytes. */
  lemma ValidTargetIffHostPort(target: string)
    ensures ValidTarget(target) <==>
            && (exists host, port :: HostPort(target, host, port))
            && (forall i :: 0 <= i < |target| ==> !IsWhitespace(target[i]))
            && ByteLen(target) <= MAX_TARGET_LEN
  {
    hide ByteLen, IsWhitespace, ParsesAsU16, LastColon;
    var i := LastColon(target);
    if ValidTarget(target) {
      assert target == target[..i] + ":" + target[i + 1..];
      assert HostPort(target, target[..i], target[i + 1..]);
    }
    if host, port :| HostPort(target, host, port) {
      PortHasNoColon(port);
      SplitsAtTheColon(target, host, port);
    }
  }
}
