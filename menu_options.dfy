/**
 * The stored form of a menu node's options. The automation routes write them
 * with `JSON.stringify` (backend/src/routes/automations.js:95) and the bot reads
 * them back with `JSON.parse` (backend/src/routes/webhooks.js:123, 214).
 *
 * Encode writes exactly what `JSON.stringify` writes for an array of
 * `{ key, label, next_node_order }` objects; Decode reads that shape back and
 * reports anything else as a parse failure.
 */
module MenuOptions {
  import opened Wrappers
  import opened Text

  /** One menu entry: the reply that selects it, its label (`label` in the JSON) and the node position it jumps to. */
  datatype MenuOption = MenuOption(key: string, labelText: string, nextNodeOrder: int)

  // ---------------------------------------------------------------------------
  // Encoding (JSON.stringify)
  // ---------------------------------------------------------------------------

  /** The JSON text of one string character. */
  function EscapeChar(c: char): (e: string)
    ensures e != []
  {
    if c == '"' then "\\\""
    else if c == '\\' then "\\\\"
    else if c == '\U{0008}' then "\\b"
    else if c == '\t' then "\\t"
    else if c == '\n' then "\\n"
    else if c == '\U{000C}' then "\\f"
    else if c == '\r' then "\\r"
    else if c < ' ' then "\\u00" + [HexDigitChar(c as int / 16), HexDigitChar(c as int % 16)]
    else [c]
  }

  function EscapeString(s: string): string {
    if s == [] then [] else EscapeChar(s[0]) + EscapeString(s[1..])
  }

  function EncodeString(s: string): string {
    "\"" + EscapeString(s) + "\""
  }

  /** Decimal digits of a natural number, most significant first, no leading zeros. */
  function NatToDigits(n: nat): (ds: string)
    ensures ds != [] && AllDigits(ds)
  {
    if n < 10 then [('0' as int + n) as char] else NatToDigits(n / 10) + [('0' as int + n % 10) as char]
  }

  function EncodeInt(n: int): string {
    if n < 0 then "-" + NatToDigits(-n) else NatToDigits(n)
  }

  function EncodeOption(o: MenuOption): string {
    "{\"key\":" + EncodeString(o.key) + ",\"label\":" + EncodeString(o.labelText)
      + ",\"next_node_order\":" + EncodeInt(o.nextNodeOrder) + "}"
  }

  /** The non-empty array elements, comma-separated, followed by `close`. */
  function EncodeElements(os: seq<MenuOption>, close: string): (text: string)
    requires os != []
    ensures |text| > |close| + 1
  {
    if |os| == 1 then EncodeOption(os[0]) + close
    else EncodeOption(os[0]) + ("," + EncodeElements(os[1..], close))
  }

  /** `JSON.stringify(options)`. */
  function Encode(os: seq<MenuOption>): (text: string)
    ensures |text| >= 2 && text[0] == '['
  {
    if os == [] then "[]" else "[" + EncodeElements(os, "]")
  }

  // ---------------------------------------------------------------------------
  // Decoding (JSON.parse)
  // ---------------------------------------------------------------------------

  /** Consumes the literal `lit` at the start of `t`. */
  function Expect(t: string, lit: string): (rest: Option<string>)
    ensures rest.Some? ==> |rest.value| == |t| - |lit|
  {
    if StartsWith(t, lit) then Some(t[|lit|..]) else None
  }

  /** The character an escape sequence (after its backslash) stands for, and the escape's length. */
  function Unescape(u: string): (r: Option<(char, nat)>)
    ensures r.Some? ==> 1 <= r.value.1 <= |u|
  {
    if u == [] then None
    else if u[0] == '"' then Some(('"', 1))
    else if u[0] == '\\' then Some(('\\', 1))
    else if u[0] == '/' then Some(('/', 1))
    else if u[0] == 'b' then Some(('\U{0008}', 1))
    else if u[0] == 't' then Some(('\t', 1))
    else if u[0] == 'n' then Some(('\n', 1))
    else if u[0] == 'f' then Some(('\U{000C}', 1))
    else if u[0] == 'r' then Some(('\r', 1))
    else if u[0] == 'u' && |u| >= 5 && IsHexDigit(u[1]) && IsHexDigit(u[2]) && IsHexDigit(u[3]) && IsHexDigit(u[4]) then
      var v := HexValue(u[1]) * 4096 + HexValue(u[2]) * 256 + HexValue(u[3]) * 16 + HexValue(u[4]);
      if 0xD800 <= v < 0xE000 then None else Some((v as char, 5))
    else None
  }

  /** A string's characters up to its closing quote, and the text after that quote. */
  function ParseStringBody(t: string): (r: Option<(string, string)>)
    ensures r.Some? ==> |r.value.1| < |t|
    decreases |t|
  {
    if t == [] then None
    else if t[0] == '"' then Some(([], t[1..]))
    else if t[0] == '\\' then
      match Unescape(t[1..])
      case None => None
      case Some((c, n)) =>
        match ParseStringBody(t[1 + n..])
        case None => None
        case Some((s, rest)) => Some(([c] + s, rest))
    else if t[0] < ' ' then None
    else
      match ParseStringBody(t[1..])
      case None => None
      case Some((s, rest)) => Some(([t[0]] + s, rest))
  }

  function ParseString(t: string): (r: Option<(string, string)>)
    ensures r.Some? ==> |r.value.1| < |t|
  {
    if t != [] && t[0] == '"' then ParseStringBody(t[1..]) else None
  }

  /** The longest prefix of decimal digits. */
  function DigitRun(t: string): (ds: string)
    ensures |ds| <= |t| && t[..|ds|] == ds && AllDigits(ds)
    ensures |ds| < |t| ==> !IsDigit(t[|ds|])
  {
    if t != [] && IsDigit(t[0]) then [t[0]] + DigitRun(t[1..]) else []
  }

  function DigitsValue(ds: string): nat
    requires AllDigits(ds)
  {
    if ds == [] then 0 else DigitsValue(ds[..|ds| - 1]) * 10 + DigitValue(ds[|ds| - 1])
  }

  function ParseNat(t: string): (r: Option<(nat, string)>)
    ensures r.Some? ==> |r.value.1| < |t|
  {
    var ds := DigitRun(t);
    if ds == [] then None else Some((DigitsValue(ds), t[|ds|..]))
  }

  function ParseInt(t: string): (r: Option<(int, string)>)
    ensures r.Some? ==> |r.value.1| < |t|
  {
    if t != [] && t[0] == '-' then
      match ParseNat(t[1..])
      case None => None
      case Some((n, rest)) => Some((-(n as int), rest))
    else
      match ParseNat(t)
      case None => None
      case Some((n, rest)) => Some((n as int, rest))
  }

  function ParseOption(t: string): (r: Option<(MenuOption, string)>)
    ensures r.Some? ==> |r.value.1| < |t|
  {
    match Expect(t, "{\"key\":")
    case None => None
    case Some(t1) =>
      match ParseString(t1)
      case None => None
      case Some((key, t2)) =>
        match Expect(t2, ",\"label\":")
        case None => None
        case Some(t3) =>
          match ParseString(t3)
          case None => None
          case Some((labelText, t4)) =>
            match Expect(t4, ",\"next_node_order\":")
            case None => None
            case Some(t5) =>
              match ParseInt(t5)
              case None => None
              case Some((next, t6)) =>
                match Expect(t6, "}")
                case None => None
                case Some(t7) => Some((MenuOption(key, labelText, next), t7))
  }

  /** Array elements up to and including the closing ']', after at least one element. */
  function ParseElements(t: string): (r: Option<(seq<MenuOption>, string)>)
    ensures r.Some? ==> |r.value.1| < |t|
    decreases |t|
  {
    match ParseOption(t)
    case None => None
    case Some((o, t1)) =>
      if t1 != [] && t1[0] == ']' then Some(([o], t1[1..]))
      else if t1 != [] && t1[0] == ',' then
        match ParseElements(t1[1..])
        case None => None
        case Some((os, rest)) => Some(([o] + os, rest))
      else None
  }

  /** `JSON.parse(text)` for an options array; None where JSON.parse would throw or give another shape. */
  function Decode(text: string): (r: Option<seq<MenuOption>>)
  {
    if text == "[]" then Some([])
    else
      match Expect(text, "[")
      case None => None
      case Some(t) =>
        match ParseElements(t)
        case Some((os, rest)) => if rest == [] then Some(os) else None
        case None => None
  }

  // ---------------------------------------------------------------------------
  // The round trip
  // ---------------------------------------------------------------------------

  /** One escaped character is read back as that character. */
  lemma EscapeCharRoundTrip(c: char, t: string)
    ensures ParseStringBody(EscapeChar(c) + t) ==
      match ParseStringBody(t)
      case None => None
      case Some((s, rest)) => Some(([c] + s, rest))
  {
    var e := EscapeChar(c);
    var u := e + t;
    if c == '"' || c == '\\' || c == '\U{0008}' || c == '\t' || c == '\n' || c == '\U{000C}' || c == '\r' {
      assert u[0] == '\\' && u[1..][0] == e[1];
      assert u[2..] == t;
    } else if c < ' ' {
      var hi, lo := HexDigitChar(c as int / 16), HexDigitChar(c as int % 16);
      assert e == ['\\', 'u', '0', '0', hi, lo];
      assert u[1..][..5] == ['u', '0', '0', hi, lo];
      assert Unescape(u[1..]) == Some((c, 5));
      assert u[6..] == t;
    } else {
      assert u[0] == c && u[1..] == t;
    }
  }

  /** An encoded string is read back, and the text after its closing quote is left over. */
  lemma {:induction false} StringRoundTrip(s: string, rest: string)
    ensures ParseString(EncodeString(s) + rest) == Some((s, rest))
  {
    assert (EncodeString(s) + rest)[1..] == EscapeString(s) + ("\"" + rest);
    StringBodyRoundTrip(s, rest);
  }

  lemma {:induction false} StringBodyRoundTrip(s: string, rest: string)
    ensures ParseStringBody(EscapeString(s) + ("\"" + rest)) == Some((s, rest))
  {
    if s == [] {
      assert EscapeString(s) + ("\"" + rest) == "\"" + rest;
    } else {
      var c, t := s[0], s[1..];
      StringBodyRoundTrip(t, rest);
      Regroup(EscapeChar(c), EscapeString(t), "\"" + rest);
      EscapeCharRoundTrip(c, EscapeString(t) + ("\"" + rest));
      HeadTail(s);
    }
  }

  /** The digits of n are worth n. */
  lemma {:induction false} DigitsValueOfNat(n: nat)
    ensures DigitsValue(NatToDigits(n)) == n
  {
    var ds := NatToDigits(n);
    if n >= 10 {
      DigitsValueOfNat(n / 10);
      assert ds[..|ds| - 1] == NatToDigits(n / 10);
    }
  }

  /** The digit run of a number followed by a non-digit is exactly its digits. */
  lemma {:induction false} DigitRunOf(ds: string, rest: string)
    requires AllDigits(ds)
    requires rest == [] || !IsDigit(rest[0])
    ensures DigitRun(ds + rest) == ds
  {
    if ds == [] {
      assert ds + rest == rest;
    } else {
      assert (ds + rest)[1..] == ds[1..] + rest;
      DigitRunOf(ds[1..], rest);
      assert [ds[0]] + ds[1..] == ds;
    }
  }

  /** A natural number's digits followed by a non-digit are read back as that number. */
  lemma NatRoundTrip(m: nat, rest: string)
    requires rest == [] || !IsDigit(rest[0])
    ensures ParseNat(NatToDigits(m) + rest) == Some((m, rest))
  {
    var ds := NatToDigits(m);
    DigitRunOf(ds, rest);
    DigitsValueOfNat(m);
    assert (ds + rest)[|ds|..] == rest;
  }

  lemma IntRoundTrip(n: int, rest: string)
    requires rest == [] || !IsDigit(rest[0])
    ensures ParseInt(EncodeInt(n) + rest) == Some((n, rest))
  {
    if n < 0 {
      NegativeRoundTrip(n, rest);
    } else {
      NatRoundTrip(n, rest);
      assert EncodeInt(n) == NatToDigits(n);
    }
  }

  /** Helper: a minus sign, then the digits of the magnitude. */
  lemma NegativeRoundTrip(n: int, rest: string)
    requires n < 0
    requires rest == [] || !IsDigit(rest[0])
    ensures ParseInt(EncodeInt(n) + rest) == Some((n, rest))
  {
    var u := NatToDigits(-n) + rest;
    NatRoundTrip(-n, rest);
    Regroup("-", NatToDigits(-n), rest);
    DropHead('-', u);
  }

  /** Helper: consuming a literal that is there. */
  lemma ExpectLiteral(lit: string, rest: string)
    ensures Expect(lit + rest, lit) == Some(rest)
  {
    assert (lit + rest)[..|lit|] == lit;
    assert (lit + rest)[|lit|..] == rest;
  }

  /** Helper: the encoding of an option followed by more text, regrouped field by field. */
  lemma EncodeOptionRegrouped(o: MenuOption, rest: string)
    ensures EncodeOption(o) + rest ==
      "{\"key\":" + (EncodeString(o.key) + (",\"label\":" + (EncodeString(o.labelText)
        + (",\"next_node_order\":" + (EncodeInt(o.nextNodeOrder) + ("}" + rest))))))
  {
  }

  lemma OptionRoundTrip(o: MenuOption, rest: string)
    requires rest != [] && !IsDigit(rest[0])
    ensures ParseOption(EncodeOption(o) + rest) == Some((o, rest))
  {
    var k, l, n := EncodeString(o.key), EncodeString(o.labelText), EncodeInt(o.nextNodeOrder);
    var p0, p1, p2 := "{\"key\":", ",\"label\":", ",\"next_node_order\":";
    var t6 := "}" + rest;
    var t5 := n + t6;
    var t4 := p2 + t5;
    var t3 := l + t4;
    var t2 := p1 + t3;
    var t1 := k + t2;
    EncodeOptionRegrouped(o, rest);
    var full := EncodeOption(o) + rest;
    assert full == p0 + t1;
    ExpectLiteral(p0, t1);
    assert Expect(full, p0) == Some(t1);
    StringRoundTrip(o.key, t2);
    ExpectLiteral(p1, t3);
    StringRoundTrip(o.labelText, t4);
    ExpectLiteral(p2, t5);
    IntRoundTrip(o.nextNodeOrder, t6);
    ExpectLiteral("}", rest);
  }

  /** Helper: one option, then the closing bracket. */
  lemma SingleElementRoundTrip(o: MenuOption, rest: string)
    ensures ParseElements(EncodeOption(o) + ("]" + rest)) == Some(([o], rest))
  {
    OptionRoundTrip(o, "]" + rest);
    DropHead(']', rest);
  }

  /** Helper: one option, a comma, then elements that parse. */
  lemma NextElementRoundTrip(o: MenuOption, tail: string, os: seq<MenuOption>, rest: string)
    requires ParseElements(tail) == Some((os, rest))
    ensures ParseElements(EncodeOption(o) + ("," + tail)) == Some(([o] + os, rest))
  {
    OptionRoundTrip(o, "," + tail);
    ElementsStep(EncodeOption(o) + ("," + tail), o, os, tail, rest);
  }

  /** Helper: an option that parses, a comma, then elements that parse. */
  lemma ElementsStep(t: string, o: MenuOption, os: seq<MenuOption>, tail: string, rest: string)
    requires ParseOption(t) == Some((o, "," + tail))
    requires ParseElements(tail) == Some((os, rest))
    ensures ParseElements(t) == Some(([o] + os, rest))
  {
    DropHead(',', tail);
  }

  lemma {:induction false} ElementsRoundTrip(os: seq<MenuOption>, rest: string)
    requires os != []
    ensures ParseElements(EncodeElements(os, "]" + rest)) == Some((os, rest))
  {
    if |os| == 1 {
      SingleElementRoundTrip(os[0], rest);
      assert [os[0]] == os;
    } else {
      ElementsRoundTrip(os[1..], rest);
      NextElementRoundTrip(os[0], EncodeElements(os[1..], "]" + rest), os[1..], rest);
      HeadTail(os);
    }
  }

  /** `JSON.parse(JSON.stringify(options))` gives the options back. */
  lemma DecodeEncode(os: seq<MenuOption>)
    ensures Decode(Encode(os)) == Some(os)
  {
    if os != [] {
      var body := EncodeElements(os, "]");
      assert "]" + [] == "]";
      ExpectLiteral("[", body);
      ElementsRoundTrip(os, []);
    }
  }

}
