/** The server configuration: named services, each listening on an ip and a port. */
module ConfigSchema {
  import opened Wrappers

  /** Rust's `i64`. */
  newtype i64 = x: int | -0x8000_0000_0000_0000 <= x < 0x8000_0000_0000_0000

  /** One service: the ip to listen on and the port. */
  datatype Service = Service(ip: string, port: i64)

  /** The whole configuration: services by name. */
  datatype Config = Config(services: map<string, Service>)

  /** A fresh configuration has no services. */
  function NewConfig(): (c: Config)
    ensures c.services == map[]
    ensures forall name :: name !in c.services
  {
    Config(map[])
  }

  /** A service built from an ip and a port keeps both as given. */
  function NewService(ip: string, port: i64): (s: Service)
    ensures s.ip == ip && s.port == port
  {
    Service(ip, port)
  }

  /** The ip a service gets when its configuration omits one. */
  function DefaultIp(): (ip: string)
    ensures ip == "127.0.0.1"
  {
    "127.0.0.1"
  }

  /** The port a service gets when its configuration omits one. */
  function DefaultPort(): (port: i64)
    ensures port == 60000
    ensures 0 < port < 65536
  {
    60000
  }

  /**
   * A service as deserialized from a configuration entry in which either field
   * may be missing: a missing field takes its default.
   */
  function DecodeService(ip: Option<string>, port: Option<i64>): (s: Service)
    ensures s.ip == (if ip.Some? then ip.value else "127.0.0.1")
    ensures s.port == (if port.Some? then port.value else 60000)
  {
    Service(ip.GetOr(DefaultIp()), port.GetOr(DefaultPort()))
  }

  // Decimal rendering of integers, as `format!("{}", n)` does it, and its inverse.

  predicate IsDigit(c: char) {
    '0' <= c <= '9'
  }

  predicate AllDigits(s: string) {
    forall i :: 0 <= i < |s| ==> IsDigit(s[i])
  }

  function DigitChar(d: nat): (c: char)
    requires d < 10
    ensures IsDigit(c) && c as int - '0' as int == d
  {
    ('0' as int + d) as char
  }

  /** The decimal digits of `n`, most significant first, without leading zeros. */
  function NatDigits(n: nat): (s: string)
    ensures |s| > 0 && AllDigits(s)
    ensures |s| > 1 ==> s[0] != '0'
    decreases n
  {
    if n < 10 then [DigitChar(n)] else NatDigits(n / 10) + [DigitChar(n % 10)]
  }

  /** The value of a string of decimal digits. */
  function DigitsValue(s: string): nat
    requires AllDigits(s)
    decreases |s|
  {
    if s == [] then 0 else DigitsValue(s[..|s| - 1]) * 10 + (s[|s| - 1] as int - '0' as int)
  }

  /** `format!("{}", n)` for a signed integer: a minus sign, then the digits of the magnitude. */
  function Decimal(n: int): (s: string)
    ensures |s| > 0 && (s[0] == '-' <==> n < 0)
    ensures n < 0 ==> |s| > 1 && AllDigits(s[1..]) && (|s| > 2 ==> s[1] != '0')
    ensures n >= 0 ==> AllDigits(s) && (|s| > 1 ==> s[0] != '0')
  {
    if n < 0 then "-" + NatDigits(-n) else NatDigits(n)
  }

  /** Reads a decimal integer, optionally preceded by a minus sign. */
  function ParseDecimal(s: string): Option<int> {
    if |s| > 1 && s[0] == '-' && AllDigits(s[1..]) then var v: int := DigitsValue(s[1..]); Some(-v)
    else if |s| > 0 && AllDigits(s) then Some(DigitsValue(s))
    else None
  }

  lemma {:induction false} NatDigitsValue(n: nat)
    ensures DigitsValue(NatDigits(n)) == n
    decreases n
  {
    if n >= 10 {
      var s := NatDigits(n);
      assert s[..|s| - 1] == NatDigits(n / 10);
      NatDigitsValue(n / 10);
    }
  }

  /** Reading back the decimal rendering of any integer gives that integer. */
  lemma DecimalRoundTrip(n: int)
    ensures ParseDecimal(Decimal(n)) == Some(n)
  {
    if n < 0 {
      var digits := NatDigits(-n);
      assert ("-" + digits)[1..] == digits;
      NatDigitsValue(-n);
    } else {
      var digits := NatDigits(n);
      assert IsDigit(digits[0]);
      NatDigitsValue(n);
    }
  }

  /**
   * `ip:port`. The ip is kept verbatim as the prefix, a colon follows it, and the rest
   * reads back as the port.
   */
  function Address(s: Service): (a: string)
    ensures |a| > |s.ip|
    ensures a[..|s.ip|] == s.ip && a[|s.ip|] == ':'
    ensures a[|s.ip| + 1..] == Decimal(s.port as int)
    ensures ParseDecimal(a[|s.ip| + 1..]) == Some(s.port as int)
  {
    var a := s.ip + ":" + Decimal(s.port as int);
    assert a[|s.ip| + 1..] == Decimal(s.port as int);
    DecimalRoundTrip(s.port as int);
    a
  }

  lemma DefaultPortDecimal()
    ensures Decimal(DefaultPort() as int) == "60000"
  {
    assert DigitChar(0) == '0' && DigitChar(6) == '6';
    assert NatDigits(6) == "6";
    assert NatDigits(60) == NatDigits(6) + "0";
    assert NatDigits(600) == NatDigits(60) + "0";
    assert NatDigits(6000) == NatDigits(600) + "0";
    assert NatDigits(60000) == NatDigits(6000) + "0";
  }

  /** The address of a service whose configuration gives neither field. */
  lemma DefaultAddress()
    ensures Address(DecodeService(None, None)) == "127.0.0.1:60000"
  {
    DefaultPortDecimal();
    var s := DecodeService(None, None);
    assert s == Service("127.0.0.1", 60000);
    assert Address(s) == "127.0.0.1" + ":" + Decimal(60000);
  }
}
