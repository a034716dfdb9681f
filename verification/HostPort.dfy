/**
 Printing and parsing of `host:port` strings.

 Three places of the program print an instance's address (the resolver, the picker's
 instance filter and the picker itself) and two parse one (`parseHost` for dial targets,
 `parsePort` for listener addresses).
 */
module HostPort {
  import opened Wrappers

  const MIN_INT := -0x8000_0000_0000_0000
  const MAX_INT := 0x7fff_ffff_ffff_ffff

  datatype ParseError = BadHost | BadNumber | NoPort

  // ---------- decimal numbers ----------

  function Digit(d: nat): char
    requires d < 10
  {
    ('0' as int + d) as char
  }

  predicate IsDigit(c: char) {
    '0' <= c <= '9'
  }

  predicate AllDigits(s: string) {
    forall i :: 0 <= i < |s| ==> IsDigit(s[i])
  }

  function DecimalNat(n: nat): string
  {
    if n < 10 then [Digit(n)] else DecimalNat(n / 10) + [Digit(n % 10)]
  }

  /** What `%d` and `strconv.FormatInt(_, 10)` print. */
  function Decimal(n: int): string {
    if n < 0 then "-" + DecimalNat(-n) else DecimalNat(n)
  }

  function DigitsValue(s: string): nat
    requires AllDigits(s)
  {
    if s == [] then 0
    else 10 * DigitsValue(s[..|s| - 1]) + (s[|s| - 1] as int - '0' as int)
  }

  /** `strconv.Atoi` on a 64-bit platform. */
  function Atoi(s: string): Result<int, ParseError> {
    var negative := s != [] && s[0] == '-';
    var digits := if s != [] && (s[0] == '-' || s[0] == '+') then s[1..] else s;
    if digits == [] || !AllDigits(digits) then Failure(BadNumber)
    else
      var magnitude: int := DigitsValue(digits);
      var n := if negative then -magnitude else magnitude;
      if MIN_INT <= n <= MAX_INT then Success(n) else Failure(BadNumber)
  }

  lemma {:induction false} DecimalNatRoundTrip(n: nat)
    ensures DecimalNat(n) != [] && AllDigits(DecimalNat(n))
    ensures DigitsValue(DecimalNat(n)) == n
  {
    if n >= 10 {
      DecimalNatRoundTrip(n / 10);
      var s := DecimalNat(n);
      assert s[..|s| - 1] == DecimalNat(n / 10);
    } else {
      assert [Digit(n)][..0] == [];
    }
  }

  /** `Atoi` of an optional minus sign followed by digits. */
  lemma AtoiSigned(digits: string, negative: bool)
    requires digits != [] && AllDigits(digits)
    ensures var n := if negative then -(DigitsValue(digits) as int) else DigitsValue(digits);
            MIN_INT <= n <= MAX_INT ==> Atoi(if negative then "-" + digits else digits) == Success(n)
  {
  }

  lemma AtoiRoundTrip(n: int)
    requires MIN_INT <= n <= MAX_INT
    ensures Atoi(Decimal(n)) == Success(n)
  {
    var magnitude := if n < 0 then -n else n;
    DecimalNatRoundTrip(magnitude);
    AtoiSigned(DecimalNat(magnitude), n < 0);
  }

  /** `s` is an optional sign and at least one digit, and writes `n`. */
  ghost predicate Numeral(s: string, n: int) {
    exists sign, digits :: Writes(s, sign, digits, n)
  }

  ghost predicate Writes(s: string, sign: string, digits: string, n: int) {
    && s == sign + digits && (sign == "" || sign == "+" || sign == "-")
    && digits != [] && AllDigits(digits)
    && n == (if sign == "-" then -1 else 1) * DigitsValue(digits)
  }

  lemma AtoiReads(s: string, n: int)
    requires Atoi(s) == Success(n)
    ensures Numeral(s, n) && MIN_INT <= n <= MAX_INT
  {
    var sign := if s[0] == '-' then "-" else if s[0] == '+' then "+" else "";
    var digits := if s[0] == '-' || s[0] == '+' then s[1..] else s;
    assert s == sign + digits;
    assert Writes(s, sign, digits, n);
  }

  lemma AtoiAccepts(s: string, sign: string, digits: string, n: int)
    requires Writes(s, sign, digits, n) && MIN_INT <= n <= MAX_INT
    ensures Atoi(s) == Success(n)
  {
    if sign == "" {
      assert s == digits && IsDigit(s[0]);
    } else {
      assert s[1..] == digits && s[0] == sign[0];
    }
  }

  /** All inputs: exactly the numerals of the 64-bit range are accepted, with their value. */
  lemma AtoiExact(s: string, n: int)
    ensures Atoi(s) == Success(n) <==> Numeral(s, n) && MIN_INT <= n <= MAX_INT
    ensures Atoi(s).Failure? ==> Atoi(s) == Failure(BadNumber)
  {
    if Atoi(s) == Success(n) {
      AtoiReads(s, n);
    }
    if sign, digits :| Writes(s, sign, digits, n) && MIN_INT <= n <= MAX_INT {
      AtoiAccepts(s, sign, digits, n);
    }
  }

  function Power10(k: nat): nat {
    if k == 0 then 1 else 10 * Power10(k - 1)
  }

  lemma DigitsValueAppend(front: string, c: char)
    requires AllDigits(front) && IsDigit(c)
    ensures AllDigits(front + [c]) && DigitsValue(front + [c]) == 10 * DigitsValue(front) + (c as int - '0' as int)
  {
    assert (front + [c])[..|front|] == front;
  }

  lemma Shift(high: nat, power: nat, low: nat)
    ensures 10 * (high * power + low) == high * (10 * power) + 10 * low
  {
  }

  /** Digits are positional: each stands for ten times the one to its right. */
  lemma {:induction false} DigitsValueConcat(a: string, b: string)
    requires AllDigits(a) && AllDigits(b)
    ensures AllDigits(a + b) && DigitsValue(a + b) == DigitsValue(a) * Power10(|b|) + DigitsValue(b)
  {
    if b == [] {
      assert a + b == a;
    } else {
      var front, c := b[..|b| - 1], b[|b| - 1];
      DigitsValueConcat(a, front);
      assert a + b == (a + front) + [c] && b == front + [c];
      DigitsValueAppend(a + front, c);
      DigitsValueAppend(front, c);
      Shift(DigitsValue(a), Power10(|front|), DigitsValue(front));
    }
  }

  /** No leading zero, except in zero itself. */
  predicate Canonical(digits: string) {
    digits != [] && AllDigits(digits) && (digits[0] == '0' ==> |digits| == 1)
  }

  lemma {:induction false} CanonicalPositive(digits: string)
    requires Canonical(digits) && |digits| > 1
    ensures Canonical(digits[..|digits| - 1]) && DigitsValue(digits[..|digits| - 1]) > 0
  {
    var front := digits[..|digits| - 1];
    if |front| > 1 {
      CanonicalPositive(front);
    } else {
      assert front[..0] == [];
    }
  }

  lemma {:induction false} CanonicalReprinted(digits: string)
    requires Canonical(digits)
    ensures DecimalNat(DigitsValue(digits)) == digits
  {
    var front := digits[..|digits| - 1];
    if |digits| > 1 {
      CanonicalPositive(digits);
      CanonicalReprinted(front);
    }
    assert digits == front + [Digit(digits[|digits| - 1] as int - '0' as int)];
  }

  lemma {:induction false} PrintedCanonical(n: nat)
    ensures Canonical(DecimalNat(n)) && (DecimalNat(n)[0] == '0' ==> n == 0)
  {
    if n >= 10 {
      PrintedCanonical(n / 10);
    }
  }

  /** `s` writes `n` without a leading zero and with a sign only if `n` is negative. */
  ghost predicate Prints(s: string, sign: string, digits: string, n: int) {
    Writes(s, sign, digits, n) && Canonical(digits) && sign == if n < 0 then "-" else ""
  }

  lemma DecimalPrints(n: int)
    ensures Prints(Decimal(n), if n < 0 then "-" else "", DecimalNat(if n < 0 then -n else n), n)
  {
    PrintedCanonical(if n < 0 then -n else n);
    DecimalNatRoundTrip(if n < 0 then -n else n);
  }

  lemma PrintsDecimal(n: int, s: string, sign: string, digits: string)
    requires Prints(s, sign, digits, n)
    ensures s == Decimal(n)
  {
    assert DigitsValue(digits) == if n < 0 then -n else n;
    CanonicalReprinted(digits);
  }

  /** All numbers and all strings: printing is the one way to write a number like that. */
  lemma DecimalExact(n: int, s: string)
    ensures s == Decimal(n) <==> exists sign, digits :: Prints(s, sign, digits, n)
  {
    DecimalPrints(n);
    if sign, digits :| Prints(s, sign, digits, n) {
      PrintsDecimal(n, s, sign, digits);
    }
  }

  // ---------- printing an address ----------

  predicate ColonFree(s: string) {
    ':' !in s
  }

  /** `fmt.Sprintf("%s:%d", host, port)`. */
  function Render(host: string, port: int): string {
    host + ":" + Decimal(port)
  }

  /** `strings.LastIndex(s, ":")`. */
  function LastColon(s: string): int
    ensures -1 <= LastColon(s) < |s|
  {
    if s == [] then -1
    else if s[|s| - 1] == ':' then |s| - 1
    else LastColon(s[..|s| - 1])
  }

  lemma {:induction false} LastColonSplits(host: string, rest: string)
    requires ColonFree(rest)
    ensures LastColon(host + ":" + rest) == |host|
    decreases |rest|
  {
    var s := host + ":" + rest;
    if rest == [] {
      assert s[|s| - 1] == ':';
    } else {
      assert s[|s| - 1] == rest[|rest| - 1];
      assert s[..|s| - 1] == host + ":" + rest[..|rest| - 1];
      LastColonSplits(host, rest[..|rest| - 1]);
    }
  }

  lemma DecimalColonFree(n: int)
    ensures ColonFree(Decimal(n))
  {
    DecimalNatRoundTrip(if n < 0 then -n else n);
  }

  lemma DecimalInjective(m: int, n: int)
    requires Decimal(m) == Decimal(n)
    ensures m == n
  {
    DecimalNatRoundTrip(if m < 0 then -m else m);
    DecimalNatRoundTrip(if n < 0 then -n else n);
    if m < 0 {
      assert Decimal(m)[0] == '-' && Decimal(m)[1..] == DecimalNat(-m);
    }
    if n < 0 {
      assert Decimal(n)[0] == '-' && Decimal(n)[1..] == DecimalNat(-n);
    }
  }

  /** An address string determines its host and its port, whatever the host contains. */
  lemma RenderInjective(host: string, port: int, host': string, port': int)
    ensures Render(host, port) == Render(host', port') <==> host == host' && port == port'
  {
    if Render(host, port) == Render(host', port') {
      DecimalColonFree(port);
      DecimalColonFree(port');
      LastColonSplits(host, Decimal(port));
      LastColonSplits(host', Decimal(port'));
      var s := Render(host, port);
      assert host == s[..|host|] && host' == s[..|host|];
      assert Decimal(port) == s[|host| + 1..] && Decimal(port') == s[|host| + 1..];
      DecimalInjective(port, port');
    }
  }

  // ---------- server.go: parsePort ----------

  function ParsePort(addr: string): Result<int, ParseError> {
    var colonIdx := LastColon(addr);
    if colonIdx < 0 then Failure(NoPort) else Atoi(addr[colonIdx + 1..])
  }

  lemma {:induction false} LastColonAbsent(s: string)
    ensures LastColon(s) < 0 <==> ColonFree(s)
  {
    if s != [] && s[|s| - 1] != ':' {
      LastColonAbsent(s[..|s| - 1]);
      assert s == s[..|s| - 1] + [s[|s| - 1]];
    }
  }

  /** The port of a printed address is recovered, even from a host full of colons. */
  lemma ParsePortRoundTrip(host: string, port: int)
    requires MIN_INT <= port <= MAX_INT
    ensures ParsePort(Render(host, port)) == Success(port)
  {
    AtoiRoundTrip(port);
    DecimalColonFree(port);
    LastColonSplits(host, Decimal(port));
    var s := Render(host, port);
    assert s[|host| + 1..] == Decimal(port);
  }

  /** `addr` is `host`, a colon and the numeral `rest` of `port`. */
  ghost predicate EndsInPort(addr: string, host: string, rest: string, port: int) {
    addr == host + ":" + rest && ColonFree(rest) && Numeral(rest, port) && MIN_INT <= port <= MAX_INT
  }

  /** `port` is the number that follows the last colon of `addr`. */
  ghost predicate PortOf(addr: string, port: int) {
    exists host, rest :: EndsInPort(addr, host, rest, port)
  }

  lemma SplitAtLastColon(addr: string)
    requires LastColon(addr) >= 0
    ensures addr == addr[..LastColon(addr)] + ":" + addr[LastColon(addr) + 1..]
    ensures ColonFree(addr[LastColon(addr) + 1..])
  {
    LastColonTail(addr);
  }

  lemma ParsedEndsInPort(addr: string, port: int)
    requires ParsePort(addr) == Success(port)
    ensures PortOf(addr, port)
  {
    SplitAtLastColon(addr);
    AtoiExact(addr[LastColon(addr) + 1..], port);
    assert EndsInPort(addr, addr[..LastColon(addr)], addr[LastColon(addr) + 1..], port);
  }

  lemma EndsInPortParsed(addr: string, host: string, rest: string, port: int)
    requires EndsInPort(addr, host, rest, port)
    ensures ParsePort(addr) == Success(port)
  {
    LastColonSplits(host, rest);
    AtoiExact(rest, port);
    assert addr[|host| + 1..] == rest;
  }

  /** Exactly the strings whose last colon is followed by a number are accepted, and that
      number is the port. */
  lemma ParsePortDomain(addr: string)
    ensures forall port :: ParsePort(addr) == Success(port) <==> PortOf(addr, port)
    ensures ParsePort(addr) == Failure(NoPort) <==> ColonFree(addr)
  {
    LastColonAbsent(addr);
    forall port
      ensures ParsePort(addr) == Success(port) <==> PortOf(addr, port)
    {
      if ParsePort(addr) == Success(port) {
        ParsedEndsInPort(addr, port);
      }
      if host, rest :| EndsInPort(addr, host, rest, port) {
        EndsInPortParsed(addr, host, rest, port);
      }
    }
  }

  lemma {:induction false} LastColonTail(s: string)
    ensures LastColon(s) >= 0 ==> s[LastColon(s)] == ':' && ColonFree(s[LastColon(s) + 1..])
  {
    if s != [] && s[|s| - 1] != ':' {
      var t := s[..|s| - 1];
      LastColonTail(t);
      if LastColon(t) >= 0 {
        assert s[LastColon(t) + 1..] == t[LastColon(t) + 1..] + [s[|s| - 1]];
      }
    }
  }

  // ---------- resolver.go: parseHost ----------

  /** `strings.Split(s, ":")`. */
  function Split(s: string): (parts: seq<string>)
    ensures |parts| >= 1
  {
    if s == [] then [""]
    else
      var rest := Split(s[1..]);
      if s[0] == ':' then [""] + rest else [[s[0]] + rest[0]] + rest[1..]
  }

  function ParseHost(target: string): Result<(string, int), ParseError> {
    var splits := Split(target);
    if |splits| > 2 then Failure(BadHost)
    else if |splits| == 1 then Success((target, 0))
    else
      Located(splits[0], Atoi(splits[1]))
  }

  function Located(host: string, port: Result<int, ParseError>): Result<(string, int), ParseError> {
    match port
    case Failure(e) => Failure(e)
    case Success(p) => Success((host, p))
  }

  lemma {:induction false} SplitColonFree(s: string)
    requires ColonFree(s)
    ensures Split(s) == [s]
  {
    if s != [] {
      SplitColonFree(s[1..]);
      assert s == [s[0]] + s[1..];
    }
  }

  lemma {:induction false} SplitAtColon(host: string, rest: string)
    ensures Split(host + ":" + rest) == Split(host) + Split(rest)
  {
    var s := host + ":" + rest;
    if host == [] {
      assert s[1..] == rest;
    } else {
      assert s[1..] == host[1..] + ":" + rest;
      SplitAtColon(host[1..], rest);
    }
  }

  lemma {:induction false} SplitSingle(s: string)
    ensures |Split(s)| == 1 <==> ColonFree(s)
  {
    if ColonFree(s) {
      SplitColonFree(s);
    } else {
      LastColonAbsent(s);
      LastColonTail(s);
      var i := LastColon(s);
      assert s == s[..i] + ":" + s[i + 1..];
      SplitAtColon(s[..i], s[i + 1..]);
    }
  }

  /** A printed address parses back exactly when its host has no colon. */
  lemma ParseHostRoundTrip(host: string, port: int)
    requires MIN_INT <= port <= MAX_INT
    ensures ParseHost(Render(host, port)) == Success((host, port)) <==> ColonFree(host)
    ensures !ColonFree(host) ==> ParseHost(Render(host, port)) == Failure(BadHost)
  {
    AtoiRoundTrip(port);
    DecimalColonFree(port);
    SplitAtColon(host, Decimal(port));
    SplitColonFree(Decimal(port));
    SplitSingle(host);
    if ColonFree(host) {
      SplitColonFree(host);
    }
  }

  /** All inputs: no colon means port 0, one colon needs a number, more are rejected. */
  lemma ParseHostDomain(target: string)
    ensures ColonFree(target) ==> ParseHost(target) == Success((target, 0))
    ensures forall host, rest | target == host + ":" + rest && ColonFree(host) && ColonFree(rest) ::
              ParseHost(target) == Located(host, Atoi(rest))
    ensures forall a, b, c | target == a + ":" + b + ":" + c :: ParseHost(target) == Failure(BadHost)
  {
    SplitSingle(target);
    forall host, rest | target == host + ":" + rest && ColonFree(host) && ColonFree(rest)
      ensures Split(target) == [host, rest]
    {
      SplitAtColon(host, rest);
      SplitColonFree(host);
      SplitColonFree(rest);
    }
    forall a, b, c | target == a + ":" + b + ":" + c
      ensures |Split(target)| > 2
    {
      SplitAtColon(a + ":" + b, c);
      SplitAtColon(a, b);
    }
  }
}
