// Machine integers in text: what Rust's `Display` prints and `FromStr` accepts for the
// unsigned types, for `Ipv4Addr`, and for `str::split` on one separator.
module Decimal {
  import opened Wrappers

  type u8 = x: int | 0 <= x < 0x100
  type u16 = x: int | 0 <= x < 0x1_0000
  type u32 = x: int | 0 <= x < 0x1_0000_0000
  type u64 = x: int | 0 <= x < 0x1_0000_0000_0000_0000

  const U8_MAX: nat := 0xff
  const U16_MAX: nat := 0xffff
  const U32_MAX: nat := 0xffff_ffff
  const U64_MAX: nat := 0xffff_ffff_ffff_ffff

  predicate IsDigit(c: char) { '0' <= c <= '9' }

  predicate AllDigits(s: string) { forall c | c in s :: IsDigit(c) }

  function DigitChar(d: int): (c: char)
    requires 0 <= d < 10
    ensures IsDigit(c) && c as int - '0' as int == d
  {
    ('0' as int + d) as char
  }

  // Decimal text of a number, without leading zeros.
  function Digits(n: nat): (s: string)
    ensures s != [] && AllDigits(s)
    ensures n < 10 <==> |s| == 1
    ensures n < 100 ==> |s| <= 2
    ensures n < 1000 ==> |s| <= 3
    ensures s[0] == '0' <==> n == 0
  {
    if n < 10 then [DigitChar(n)] else Digits(n / 10) + [DigitChar(n % 10)]
  }

  // Horner value of a digit string.
  function Value(s: string): nat
    requires AllDigits(s)
  {
    if s == [] then 0 else
      var last := s[|s| - 1];
      assert last in s;
      Value(s[..|s| - 1]) * 10 + (last as int - '0' as int)
  }

  // `str::parse` for an unsigned type whose largest value is `max`: one optional plus
  // sign, at least one digit, leading zeros allowed, overflow rejected.
  function ParseUint(s: string, max: nat): (r: Option<nat>)
    ensures r.Some? ==> r.value <= max
  {
    var t := if |s| > 1 && s[0] == '+' then s[1..] else s;
    if t != [] && AllDigits(t) && Value(t) <= max then Some(Value(t)) else None
  }

  lemma {:induction false} ValueOfDigits(n: nat)
    ensures Value(Digits(n)) == n
  {
    if n >= 10 {
      ValueOfDigits(n / 10);
      assert Digits(n)[..|Digits(n)| - 1] == Digits(n / 10);
    } else {
      assert Digits(n)[..0] == [];
    }
  }

  lemma {:induction false} ParseDigits(n: nat, max: nat)
    ensures ParseUint(Digits(n), max) == if n <= max then Some(n) else None
  {
    var s := Digits(n);
    assert s[0] in s;
    ValueOfDigits(n);
  }

  // `str::split(sep)`: always at least one part.
  function Split(s: string, sep: char): (parts: seq<string>)
    ensures |parts| >= 1
  {
    if s == [] then [[]]
    else if s[0] == sep then [[]] + Split(s[1..], sep)
    else
      var tail := Split(s[1..], sep);
      [[s[0]] + tail[0]] + tail[1..]
  }

  lemma {:induction false} SplitWhole(s: string, sep: char)
    requires sep !in s
    ensures Split(s, sep) == [s]
  {
    if s != [] {
      SplitWhole(s[1..], sep);
      assert [s[0]] + s[1..] == s;
    }
  }

  lemma {:induction false} SplitJoin(a: string, sep: char, b: string)
    requires sep !in a
    ensures Split(a + [sep] + b, sep) == [a] + Split(b, sep)
  {
    var s := a + [sep] + b;
    if a == [] {
      assert s[1..] == b;
    } else {
      SplitJoin(a[1..], sep, b);
      assert s[1..] == a[1..] + [sep] + b;
      assert [a[0]] + a[1..] == a;
    }
  }

  datatype Ipv4 = Ipv4(a: u8, b: u8, c: u8, d: u8)

  function Ipv4Text(ip: Ipv4): string {
    Digits(ip.a) + ['.'] + (Digits(ip.b) + ['.'] + (Digits(ip.c) + ['.'] + Digits(ip.d)))
  }

  // One octet of `Ipv4Addr::from_str`: up to three digits, no leading zero.
  function ParseOctet(s: string): (r: Option<u8>) {
    if 1 <= |s| <= 3 && AllDigits(s) && (|s| > 1 ==> s[0] != '0') && Value(s) <= U8_MAX
    then Some(Value(s)) else None
  }

  function ParseIpv4(s: string): (r: Option<Ipv4>) {
    var p := Split(s, '.');
    if |p| != 4 then None
    else
      var a :- ParseOctet(p[0]);
      var b :- ParseOctet(p[1]);
      var c :- ParseOctet(p[2]);
      var d :- ParseOctet(p[3]);
      Some(Ipv4(a, b, c, d))
  }

  lemma OctetRoundTrip(v: u8)
    ensures ParseOctet(Digits(v)) == Some(v)
  {
    ValueOfDigits(v);
  }

  lemma DigitsHold(n: nat, c: char)
    requires !IsDigit(c)
    ensures c !in Digits(n)
  {
  }

  lemma Ipv4RoundTrip(ip: Ipv4)
    ensures ParseIpv4(Ipv4Text(ip)) == Some(ip)
  {
    var c := Digits(ip.c) + ['.'] + Digits(ip.d);
    var b := Digits(ip.b) + ['.'] + c;
    SplitJoin(Digits(ip.a), '.', b);
    SplitJoin(Digits(ip.b), '.', c);
    SplitJoin(Digits(ip.c), '.', Digits(ip.d));
    SplitWhole(Digits(ip.d), '.');
    OctetRoundTrip(ip.a);
    OctetRoundTrip(ip.b);
    OctetRoundTrip(ip.c);
    OctetRoundTrip(ip.d);
  }
}
