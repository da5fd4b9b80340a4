/**
 * Inbound firewall rules given on the command line as `protocol:port`, their
 * parser, the default rule list, and their JSON form as handed to the
 * provisioning engine.
 */
module InboundRules {
  import opened Wrappers

  /** Rust's `u16`. */
  type U16 = x: int | 0 <= x < 0x1_0000

  datatype InboundRule = InboundRule(protocol: string, portNumber: U16)

  const FormatError := "Inbound rule must be in format protocol:port"
  const PortError := "Invalid port number"

  /** Number of occurrences of `c` in `s`. */
  function Count(s: string, c: char): nat
  {
    if s == [] then 0 else (if s[0] == c then 1 else 0) + Count(s[1..], c)
  }

  /** Joins non-empty `parts` with `sep` between neighbours. */
  function JoinWith(parts: seq<string>, sep: char): string
    requires |parts| > 0
  {
    if |parts| == 1 then parts[0] else parts[0] + [sep] + JoinWith(parts[1..], sep)
  }

  /**
   * `str::split(sep)`: the maximal pieces between separators, including empty
   * ones at either end; there is always one piece more than separators.
   */
  function Split(s: string, sep: char): (parts: seq<string>)
    ensures |parts| == Count(s, sep) + 1
    ensures forall i :: 0 <= i < |parts| ==> sep !in parts[i]
    ensures JoinWith(parts, sep) == s
  {
    if s == [] then [""]
    else
      var rest := Split(s[1..], sep);
      if s[0] == sep then [""] + rest
      else
        var parts := [[s[0]] + rest[0]] + rest[1..];
        assert parts[1..] == rest[1..];
        parts
  }

  /** Splitting text that has no separator gives the text itself. */
  lemma SplitNoSeparator(s: string, sep: char)
    requires sep !in s
    ensures Split(s, sep) == [s]
  {
  }

  /** The text up to the first separator is split off as the first piece. */
  lemma {:induction false} SplitFirst(a: string, sep: char, b: string)
    requires sep !in a
    ensures Split(a + [sep] + b, sep) == [a] + Split(b, sep)
  {
    if a == [] {
      assert a + [sep] + b == [sep] + b;
      assert ([sep] + b)[1..] == b;
    } else {
      assert (a + [sep] + b)[1..] == a[1..] + [sep] + b;
      SplitFirst(a[1..], sep, b);
      assert [a[0]] + a[1..] == a;
    }
  }

  predicate IsDigit(c: char) { '0' <= c <= '9' }

  function DigitValue(c: char): nat
    requires IsDigit(c)
  {
    c as int - '0' as int
  }

  function DigitChar(d: nat): (c: char)
    requires d < 10
    ensures IsDigit(c) && DigitValue(c) == d
  {
    ('0' as int + d) as char
  }

  predicate AllDigits(s: string) { forall i :: 0 <= i < |s| ==> IsDigit(s[i]) }

  /** The value of a string of decimal digits, most significant first. */
  function DigitsValue(s: string): nat
    requires AllDigits(s)
  {
    if s == [] then 0 else DigitsValue(s[..|s| - 1]) * 10 + DigitValue(s[|s| - 1])
  }

  /**
   * `str::parse::<u16>`: an optional leading `+`, then at least one ASCII digit,
   * and a value that fits in 16 bits. Everything else (the empty string, a lone
   * `+`, a `-`, whitespace, any other character, overflow) is an error.
   */
  function ParseU16(t: string): (r: Option<U16>)
    ensures r.Some? ==> |t| > 0 && t != "+"
    ensures r.Some? ==> forall i :: 0 <= i < |t| ==> IsDigit(t[i]) || (i == 0 && t[i] == '+')
    ensures r.Some? ==>
      exists k :: t == Zeros(k) + Decimal(r.value) || t == "+" + Zeros(k) + Decimal(r.value)
  {
    if t == [] then None
    else
      var digits := if t[0] == '+' then t[1..] else t;
      if digits == [] || !AllDigits(digits) then None
      else if DigitsValue(digits) < 0x1_0000 then
        DigitsCanonicalExists(digits);
        assert t[0] == '+' ==> t == "+" + digits;
        Some(DigitsValue(digits))
      else None
  }

  /** The shortest decimal text of `n`, as Rust's `Display` of an integer writes it. */
  function Decimal(n: nat): (r: string)
    ensures 0 < |r| && AllDigits(r)
    ensures |r| == 1 <==> n < 10
  {
    if n < 10 then [DigitChar(n)] else Decimal(n / 10) + [DigitChar(n % 10)]
  }

  /** `Decimal` writes digits only, and reading them back gives `n`. */
  lemma {:induction false} DecimalDigits(n: nat)
    ensures |Decimal(n)| > 0 && AllDigits(Decimal(n)) && DigitsValue(Decimal(n)) == n
    ensures Decimal(n)[0] != '+'
  {
    if n >= 10 {
      DecimalDigits(n / 10);
      var d := Decimal(n);
      assert d[..|d| - 1] == Decimal(n / 10);
    }
  }

  /** Every 16-bit value written in decimal parses back to itself. */
  lemma ParseU16Decimal(n: U16)
    ensures ParseU16(Decimal(n)) == Some(n)
  {
    DecimalDigits(n);
  }

  /** Leading zeros do not change the value. */
  lemma {:induction false} LeadingZeroValue(s: string)
    requires AllDigits(s)
    ensures AllDigits("0" + s) && DigitsValue("0" + s) == DigitsValue(s)
  {
    if s != [] {
      var z := "0" + s;
      assert z[..|z| - 1] == "0" + s[..|s| - 1];
      LeadingZeroValue(s[..|s| - 1]);
    }
  }

  /** `k` zero digits. */
  function Zeros(k: nat): (z: string)
    ensures |z| == k && forall i :: 0 <= i < k ==> z[i] == '0'
  {
    seq(k, i => '0')
  }

  /** Any number of leading zeros leaves the value unchanged. */
  lemma {:induction false} ZerosValue(k: nat, s: string)
    requires AllDigits(s)
    ensures AllDigits(Zeros(k) + s) && DigitsValue(Zeros(k) + s) == DigitsValue(s)
  {
    if k == 0 {
      assert Zeros(k) + s == s;
    } else {
      ZerosValue(k - 1, s);
      assert Zeros(k) + s == "0" + (Zeros(k - 1) + s);
      LeadingZeroValue(Zeros(k - 1) + s);
    }
  }

  /**
   * Every non-empty digit text is some zeros followed by the shortest decimal
   * text of its value.
   */
  lemma {:induction false} DigitsCanonical(s: string) returns (k: nat)
    requires s != [] && AllDigits(s)
    ensures s == Zeros(k) + Decimal(DigitsValue(s))
  {
    var init, d := s[..|s| - 1], s[|s| - 1];
    assert DigitChar(DigitValue(d)) == d;
    if init == [] {
      k := 0;
      assert s == [d];
    } else {
      var k' := DigitsCanonical(init);
      var v := DigitsValue(init);
      if v == 0 {
        k := k' + 1;
        assert Decimal(0) == "0";
        calc {
          s;
          init + [d];
          Zeros(k') + "0" + [d];
          { assert Zeros(k') + "0" == Zeros(k); }
          Zeros(k) + [d];
        }
      } else {
        k := k';
        var n := v * 10 + DigitValue(d);
        assert n / 10 == v && n % 10 == DigitValue(d);
        assert Decimal(n) == Decimal(v) + [d];
        assert s == Zeros(k') + Decimal(v) + [d];
      }
    }
  }

  lemma DigitsCanonicalExists(s: string)
    requires s != [] && AllDigits(s)
    ensures exists k :: s == Zeros(k) + Decimal(DigitsValue(s))
  {
    var k := DigitsCanonical(s);
  }

  /**
   * Exactly the texts `parse::<u16>` accepts: an optional `+`, any number of
   * leading zeros and a decimal value, accepted iff the value is below 65536.
   * With `ParseU16`'s own contract, every text it accepts has this form.
   */
  lemma ParseU16Digits(k: nat, n: nat)
    ensures ParseU16(Zeros(k) + Decimal(n)) == if n < 0x1_0000 then Some(n) else None
    ensures ParseU16("+" + Zeros(k) + Decimal(n)) == if n < 0x1_0000 then Some(n) else None
  {
    DecimalDigits(n);
    ZerosValue(k, Decimal(n));
    var digits := Zeros(k) + Decimal(n);
    assert digits[0] != '+' by {
      if k == 0 { assert digits == Decimal(n); }
    }
    assert ("+" + digits)[1..] == digits;
    assert "+" + Zeros(k) + Decimal(n) == "+" + digits;
  }

  /** The empty text, a `-` sign or whitespace anywhere is rejected. */
  lemma ParseU16Rejects(t: string)
    requires t == [] || '-' in t || ' ' in t || '\t' in t || '\n' in t
    ensures ParseU16(t) == None
  {
  }

  /**
   * `InboundRule::from_str`: split on `:`; anything but exactly two pieces is a
   * format error; the first piece is the protocol verbatim (possibly empty) and
   * the second must parse as a `u16`.
   */
  function ParseInboundRule(s: string): (r: Result<InboundRule, string>)
    ensures r == Err(FormatError) <==> Count(s, ':') != 1
    ensures r.Err? ==> r.error == FormatError || r.error == PortError
    ensures r.Ok? ==> ':' !in r.value.protocol
    ensures r.Ok? ==> exists k :: 0 <= k < |s| && s[k] == ':' && s[..k] == r.value.protocol
                                 && ParseU16(s[k + 1..]) == Some(r.value.portNumber)
  {
    var parts := Split(s, ':');
    if |parts| != 2 then Err(FormatError)
    else
      match ParseU16(parts[1])
      case None => Err(PortError)
      case Some(n) =>
        var k := |parts[0]|;
        assert parts[1..] == [parts[1]];
        assert JoinWith(parts[1..], ':') == parts[1];
        assert s == parts[0] + [':'] + parts[1];
        assert s[k] == ':' && s[..k] == parts[0] && s[k + 1..] == parts[1];
        Ok(InboundRule(parts[0], n))
  }

  /**
   * Acceptance exactly: the rule parses iff the text is `protocol:port` with one
   * colon and a port text that `parse::<u16>` accepts.
   */
  lemma ParseInboundRuleAccepts(protocol: string, port: string)
    requires ':' !in protocol && ':' !in port
    ensures ParseU16(port).Some? ==>
      ParseInboundRule(protocol + ":" + port) == Ok(InboundRule(protocol, ParseU16(port).value))
    ensures ParseU16(port).None? ==> ParseInboundRule(protocol + ":" + port) == Err(PortError)
  {
    SplitFirst(protocol, ':', port);
    SplitNoSeparator(port, ':');
  }

  /** Round trip: writing a rule as `protocol:port` and parsing it gives the rule back. */
  lemma ParseInboundRuleRoundTrip(rule: InboundRule)
    requires ':' !in rule.protocol
    ensures ParseInboundRule(rule.protocol + ":" + Decimal(rule.portNumber)) == Ok(rule)
  {
    DecimalDigits(rule.portNumber);
    assert ':' !in Decimal(rule.portNumber);
    ParseU16Decimal(rule.portNumber);
    ParseInboundRuleAccepts(rule.protocol, Decimal(rule.portNumber));
  }

  /** `resolve_default_inbound_rule`: SSH only. */
  function DefaultInboundRules(): (rules: seq<InboundRule>)
    ensures |rules| == 1 && rules[0].protocol == "tcp" && rules[0].portNumber == 22
  {
    [InboundRule("tcp", 22)]
  }
}
