/**
 * The JSON text of an inbound rule list, in the compact form `serde_json`
 * writes for the derived `Serialize` of `Vec<InboundRule>`.
 */
module Json {
  import opened Wrappers
  import opened InboundRules

  /**
   * JSON string body of `s` in serde_json's escaping: `"` and `\` are
   * backslash-escaped, the control characters below 0x20 use their short form
   * where JSON has one and `\u00xx` (lower-case hex) otherwise; everything else
   * is copied.
   */
  function EscapeJson(s: string): (e: string)
    ensures |e| >= |s|
  {
    if s == [] then "" else EscapeChar(s[0]) + EscapeJson(s[1..])
  }

  function EscapeChar(c: char): (e: string)
    ensures |e| > 0
  {
    if c == '"' then "\\\""
    else if c == '\\' then "\\\\"
    else if c as int == 0x08 then "\\b"
    else if c == '\t' then "\\t"
    else if c == '\n' then "\\n"
    else if c as int == 0x0C then "\\f"
    else if c == '\r' then "\\r"
    else if (c as int) < 0x20 then "\\u00" + [HexDigit(c as int / 16), HexDigit(c as int % 16)]
    else [c]
  }

  function HexDigit(d: nat): char
    requires d < 16
  {
    "0123456789abcdef"[d]
  }

  /** The value of a lower-case hexadecimal digit. */
  function HexValue(c: char): (d: nat)
    ensures d < 16
  {
    if '0' <= c <= '9' then c as int - '0' as int
    else if 'a' <= c <= 'f' then c as int - 'a' as int + 10
    else 0
  }

  predicate IsHex(c: char) { '0' <= c <= '9' || 'a' <= c <= 'f' }

  lemma HexRoundTrip(d: nat)
    requires d < 16
    ensures IsHex(HexDigit(d)) && HexValue(HexDigit(d)) == d
  {
  }

  /**
   * Reads the first character of a JSON string body: an escape sequence, or a
   * character other than a quote, a backslash or a control character. Gives
   * the character and the length of its text.
   */
  function UnescapeFirst(e: string): (r: Option<(char, nat)>)
    requires e != []
    ensures r.Some? ==> 0 < r.value.1 <= |e|
  {
    if e[0] == '\\' then
      if |e| < 2 then None
      else if e[1] == '"' then Some(('"', 2))
      else if e[1] == '\\' then Some(('\\', 2))
      else if e[1] == '/' then Some(('/', 2))
      else if e[1] == 'b' then Some((0x08 as char, 2))
      else if e[1] == 't' then Some(('\t', 2))
      else if e[1] == 'n' then Some(('\n', 2))
      else if e[1] == 'f' then Some((0x0C as char, 2))
      else if e[1] == 'r' then Some(('\r', 2))
      else if e[1] == 'u' && |e| >= 6 && e[2] == '0' && e[3] == '0' && IsHex(e[4]) && IsHex(e[5]) then
        Some(((HexValue(e[4]) * 16 + HexValue(e[5])) as char, 6))
      else None
    else if e[0] == '"' || (e[0] as int) < 0x20 then None
    else Some((e[0], 1))
  }

  /** Reads a JSON string body back to its text; None when it is not a valid body. */
  function UnescapeJson(e: string): (r: Option<string>)
    decreases |e|
  {
    if e == [] then Some("")
    else
      match UnescapeFirst(e)
      case None => None
      case Some((c, n)) =>
        match UnescapeJson(e[n..])
        case None => None
        case Some(rest) => Some([c] + rest)
  }

  /** Escaping one character and then reading it back gives that character. */
  lemma UnescapeEscapeChar(c: char, rest: string)
    ensures UnescapeFirst(EscapeChar(c) + rest) == Some((c, |EscapeChar(c)|))
  {
    var e := EscapeChar(c) + rest;
    if c != '"' && c != '\\' && c as int != 0x08 && c != '\t' && c != '\n' && c as int != 0x0C
       && c != '\r' && (c as int) < 0x20 {
      var hi, lo := c as int / 16, c as int % 16;
      HexRoundTrip(hi);
      HexRoundTrip(lo);
      assert e[..6] == "\\u00" + [HexDigit(hi), HexDigit(lo)];
    }
  }

  /** Round trip: reading an escaped text back gives the text. */
  lemma {:induction false} UnescapeEscape(s: string)
    ensures UnescapeJson(EscapeJson(s)) == Some(s)
  {
    if s != [] {
      var e, rest := EscapeChar(s[0]), EscapeJson(s[1..]);
      assert EscapeJson(s) == e + rest;
      UnescapeEscapeChar(s[0], rest);
      assert (e + rest)[|e|..] == rest;
      UnescapeEscape(s[1..]);
      assert [s[0]] + s[1..] == s;
    }
  }

  /** Escaping is injective: different texts have different escaped forms. */
  lemma EscapeJsonInjective(s: string, t: string)
    ensures EscapeJson(s) == EscapeJson(t) <==> s == t
  {
    UnescapeEscape(s);
    UnescapeEscape(t);
  }

  /** Text without quotes, backslashes or control characters is written as is. */
  lemma {:induction false} EscapeJsonPlain(s: string)
    requires forall i :: 0 <= i < |s| ==> s[i] != '"' && s[i] != '\\' && (s[i] as int) >= 0x20
    ensures EscapeJson(s) == s
  {
    if s != [] {
      EscapeJsonPlain(s[1..]);
      assert [s[0]] + s[1..] == s;
    }
  }

  /** The escaped text holds no raw control character, as a JSON string requires. */
  lemma {:induction false} EscapeJsonNoControl(s: string)
    ensures forall i :: 0 <= i < |EscapeJson(s)| ==> EscapeJson(s)[i] as int >= 0x20
  {
    if s != [] {
      EscapeJsonNoControl(s[1..]);
      var e, rest := EscapeChar(s[0]), EscapeJson(s[1..]);
      assert forall i :: 0 <= i < |e| ==> e[i] as int >= 0x20;
      assert EscapeJson(s) == e + rest;
    }
  }

  /** serde_json's compact form of one rule: its fields in declaration order. */
  function RuleJson(rule: InboundRule): (json: string)
    ensures |json| > 2 && json[0] == '{' && json[|json| - 1] == '}'
  {
    "{\"protocol\":\"" + EscapeJson(rule.protocol) + "\",\"port_number\":" + Decimal(rule.portNumber) + "}"
  }

  /** The rule objects separated by commas. */
  function RuleListBody(rules: seq<InboundRule>): (body: string)
    ensures body == [] <==> rules == []
    ensures rules != [] ==> body[0] == '{' && body[|body| - 1] == '}'
  {
    if rules == [] then ""
    else if |rules| == 1 then RuleJson(rules[0])
    else RuleJson(rules[0]) + "," + RuleListBody(rules[1..])
  }

  /** `serde_json::to_string` of a rule list: a compact JSON array of objects. */
  function RulesJson(rules: seq<InboundRule>): (json: string)
    ensures |json| >= 2 && json[0] == '[' && json[|json| - 1] == ']'
  {
    "[" + RuleListBody(rules) + "]"
  }

  /** A rule whose protocol needs no escaping is written with its protocol verbatim. */
  lemma RuleJsonPlain(rule: InboundRule)
    requires forall i :: 0 <= i < |rule.protocol| ==>
      rule.protocol[i] != '"' && rule.protocol[i] != '\\' && (rule.protocol[i] as int) >= 0x20
    ensures RuleJson(rule)
         == "{\"protocol\":\"" + rule.protocol + "\",\"port_number\":" + Decimal(rule.portNumber) + "}"
  {
    EscapeJsonPlain(rule.protocol);
  }

  /** A one-element list is the element's object in brackets. */
  lemma RulesJsonSingle(rule: InboundRule)
    ensures RulesJson([rule]) == "[" + RuleJson(rule) + "]"
  {
  }
}
