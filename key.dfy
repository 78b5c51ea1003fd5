/**
 The correlation key of the record cache: `deviceId-channelId-sn`, the three parts joined
 by '-' with the sequence number written as Go's `%d` writes an int (an optional leading
 minus sign, then decimal digits without leading zeros).
 */
module Key {

  predicate IsDigit(c: char) {
    '0' <= c <= '9'
  }

  function Digit(d: nat): (c: char)
    requires d < 10
    ensures IsDigit(c) && c as int - '0' as int == d
  {
    ('0' as int + d) as char
  }

  function DigitValue(c: char): int {
    c as int - '0' as int
  }

  /** Decimal digits of a natural number, most significant first. */
  function NatDecimal(n: nat): (s: string)
    ensures |s| >= 1
    ensures forall i :: 0 <= i < |s| ==> IsDigit(s[i])
    ensures n != 0 ==> s[0] != '0'
    ensures s[0] == '0' ==> |s| == 1
    decreases n
  {
    if n < 10 then [Digit(n)] else NatDecimal(n / 10) + [Digit(n % 10)]
  }

  /** `%d` of a (signed) int. */
  function Decimal(n: int): string {
    if n < 0 then "-" + NatDecimal(-n) else NatDecimal(n)
  }

  /** Reads back a string of decimal digits. */
  function ParseNat(s: string): int {
    if s == [] then 0 else ParseNat(s[..|s| - 1]) * 10 + DigitValue(s[|s| - 1])
  }

  /** Reads back an optionally signed decimal. */
  function ParseInt(s: string): int {
    if |s| > 0 && s[0] == '-' then -ParseNat(s[1..]) else ParseNat(s)
  }

  /** recordKey: fmt.Sprintf("%s-%s-%d", deviceId, channelId, sn). */
  function RecordKey(deviceId: string, channelId: string, sn: int): string {
    deviceId + "-" + channelId + "-" + Decimal(sn)
  }

  lemma {:induction false} NatDecimalRoundTrip(n: nat)
    ensures ParseNat(NatDecimal(n)) == n
    decreases n
  {
    var s := NatDecimal(n);
    if n < 10 {
      assert s[..|s| - 1] == [];
    } else {
      assert s[..|s| - 1] == NatDecimal(n / 10);
      NatDecimalRoundTrip(n / 10);
    }
  }

  /** The sequence number can be read back from its rendering: `%d` is injective. */
  lemma DecimalRoundTrip(n: int)
    ensures ParseInt(Decimal(n)) == n
  {
    if n < 0 {
      var s := NatDecimal(-n);
      assert ("-" + s)[0] == '-' && ("-" + s)[1..] == s;
      NatDecimalRoundTrip(-n);
    } else {
      var s := NatDecimal(n);
      assert IsDigit(s[0]);
      NatDecimalRoundTrip(n);
    }
  }

  /** Position of the first '-' in s, or |s| when there is none. */
  function FirstDash(s: string): (i: nat)
    ensures i <= |s|
  {
    if s == [] || s[0] == '-' then 0 else 1 + FirstDash(s[1..])
  }

  lemma {:induction false} FirstDashAfter(a: string, r: string)
    requires '-' !in a
    ensures FirstDash(a + "-" + r) == |a|
    decreases |a|
  {
    if a != [] {
      assert (a + "-" + r)[1..] == a[1..] + "-" + r;
      FirstDashAfter(a[1..], r);
    }
  }

  /** Splitting at the first '-' recovers a dash-free prefix. */
  lemma SplitAtFirstDash(a1: string, r1: string, a2: string, r2: string)
    requires '-' !in a1 && '-' !in a2
    requires a1 + "-" + r1 == a2 + "-" + r2
    ensures a1 == a2 && r1 == r2
  {
    var s := a1 + "-" + r1;
    FirstDashAfter(a1, r1);
    FirstDashAfter(a2, r2);
    assert a1 == s[..|a1|] == a2;
    assert r1 == s[|a1| + 1..] == r2;
  }

  /**
   The key identifies the request uniquely as long as neither id contains the delimiter:
   equal keys come from equal (deviceId, channelId, sn).
   */
  lemma RecordKeyInjective(d1: string, c1: string, n1: int, d2: string, c2: string, n2: int)
    requires '-' !in d1 && '-' !in c1 && '-' !in d2 && '-' !in c2
    requires RecordKey(d1, c1, n1) == RecordKey(d2, c2, n2)
    ensures d1 == d2 && c1 == c2 && n1 == n2
  {
    assert RecordKey(d1, c1, n1) == d1 + "-" + (c1 + "-" + Decimal(n1));
    assert RecordKey(d2, c2, n2) == d2 + "-" + (c2 + "-" + Decimal(n2));
    SplitAtFirstDash(d1, c1 + "-" + Decimal(n1), d2, c2 + "-" + Decimal(n2));
    SplitAtFirstDash(c1, Decimal(n1), c2, Decimal(n2));
    DecimalRoundTrip(n1);
    DecimalRoundTrip(n2);
  }

  /** With a '-' inside an id, two different requests share one key. */
  lemma RecordKeyAmbiguous()
    ensures RecordKey("a-b", "c", 1) == RecordKey("a", "b-c", 1)
    ensures "a-b" != "a"
  {
  }

  /**
   The condition of RecordKeyInjective cannot be dropped: whatever the ids, a '-' in the
   device id can be moved into the channel id without changing the key.
   */
  lemma DashInDeviceCollides(x: string, y: string, c: string, n: int)
    ensures x + "-" + y != x
    ensures RecordKey(x + "-" + y, c, n) == RecordKey(x, y + "-" + c, n)
  {
    assert |x + "-" + y| > |x|;
  }

  /** Likewise a '-' in the channel id can be moved into the device id. */
  lemma DashInChannelCollides(d: string, x: string, y: string, n: int)
    ensures x + "-" + y != y
    ensures RecordKey(d, x + "-" + y, n) == RecordKey(d + "-" + x, y, n)
  {
    assert |x + "-" + y| > |y|;
  }
}
