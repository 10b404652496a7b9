/**
 * Phone normalisation and contact-file parsing (backend/src/lib/phoneFilter.js).
 *
 * Numbers are normalised to Brazilian (country code 55) or Uruguayan (country
 * code 598) form; contact files are read as `name;phone` lines (CSV) or as
 * vCards, and message templates are filled from a contact.
 */
module PhoneFilter {
  import opened Wrappers
  import opened Text

  predicate NoDigits(s: string) { forall i :: 0 <= i < |s| ==> !IsDigit(s[i]) }

  // ---------------------------------------------------------------------------
  // Characters and small string helpers
  // ---------------------------------------------------------------------------

  /** `String(raw).replace(/\D/g, '')`: the decimal digits of `raw`, in order. */
  function DigitsOf(raw: string): (n: string)
    ensures AllDigits(n)
    ensures |n| <= |raw|
    ensures n == [] <==> NoDigits(raw)
  {
    if raw == [] then []
    else if IsDigit(raw[0]) then [raw[0]] + DigitsOf(raw[1..])
    else
      var rest := DigitsOf(raw[1..]);
      assert NoDigits(raw[1..]) ==> NoDigits(raw) by {
        if NoDigits(raw[1..]) {
          forall i | 0 <= i < |raw| ensures !IsDigit(raw[i]) {
            if i > 0 { assert raw[i] == raw[1..][i - 1]; }
          }
        }
      }
      rest
  }

  /** Digits are kept, everything else dropped, and the two sides of a split are filtered separately. */
  lemma {:induction false} DigitsOfConcat(a: string, b: string)
    ensures DigitsOf(a + b) == DigitsOf(a) + DigitsOf(b)
  {
    if a == [] {
      assert a + b == b;
    } else {
      assert (a + b)[0] == a[0];
      assert (a + b)[1..] == a[1..] + b;
      DigitsOfConcat(a[1..], b);
    }
  }

  /** A string of digits is its own digit string. */
  lemma {:induction false} DigitsOfDigits(s: string)
    requires AllDigits(s)
    ensures DigitsOf(s) == s
  {
    if s != [] {
      assert AllDigits(s[1..]) by {
        forall i | 0 <= i < |s[1..]| ensures IsDigit(s[1..][i]) { assert s[1..][i] == s[i + 1]; }
      }
      DigitsOfDigits(s[1..]);
      assert [s[0]] + s[1..] == s;
    }
  }

  // ---------------------------------------------------------------------------
  // normalizePhone
  // ---------------------------------------------------------------------------

  /** The two-digit Brazilian area code (DDD) that follows the country code 55. */
  function AreaCode(n: string): (ddd: nat)
    requires AllDigits(n) && |n| >= 4
    ensures ddd < 100
  {
    DigitValue(n[2]) * 10 + DigitValue(n[3])
  }

  /** A number longer than 11 digits that starts with 0 carries a carrier prefix of three digits. */
  function StripCarrierPrefix(n: string): (m: string)
    requires AllDigits(n)
    ensures AllDigits(m)
    ensures |n| > 11 && StartsWith(n, "0") ==> m == n[3..]
    ensures !(|n| > 11 && StartsWith(n, "0")) ==> m == n
  {
    if |n| > 11 && StartsWith(n, "0") then n[3..] else n
  }

  /**
   * The Brazilian rewrite: a 10- or 11-digit number without the country code gets
   * "55" in front, and a 13-digit "55" number whose area code is at most 28 loses
   * its ninth digit (the fifth character).
   */
  function BrazilRewrite(n: string): (m: string)
    requires AllDigits(n) && n != []
    ensures AllDigits(m) && m != []
  {
    var withCountry := if !StartsWith(n, "55") && (|n| == 10 || |n| == 11) then "55" + n else n;
    if StartsWith(withCountry, "55") && |withCountry| == 13 && AreaCode(withCountry) <= 28
    then withCountry[..4] + withCountry[5..]
    else withCountry
  }

  /** Chooses between the Uruguayan forms and the Brazilian rewrite. */
  function RewriteCountry(n: string): (m: string)
    requires AllDigits(n) && n != []
    ensures AllDigits(m) && m != []
  {
    if StartsWith(n, "598") then n
    else if StartsWith(n, "09") && |n| == 9 then "598" + n[1..]
    else if StartsWith(n, "9") && |n| == 8 then "598" + n
    else BrazilRewrite(n)
  }

  /** The final length check: "55" numbers have 12 or 13 digits, "598" numbers 11 or 12. */
  predicate LengthAccepted(n: string) {
    && !(StartsWith(n, "55") && (|n| < 12 || |n| > 13))
    && !(StartsWith(n, "598") && (|n| < 11 || |n| > 12))
  }

  /** What every accepted number satisfies: digits only, non-empty, and the country-code length rule. */
  predicate IsNormalized(n: string) {
    AllDigits(n) && n != [] && LengthAccepted(n)
  }

  /**
   * normalizePhone: rewrites a raw phone string into a Brazilian or Uruguayan
   * number, or rejects it with None.
   */
  function NormalizePhone(raw: string): (r: Option<string>)
    ensures NoDigits(raw) ==> r == None
    ensures r.Some? ==> AllDigits(r.value) && r.value != []
    ensures r.Some? ==> IsNormalized(r.value)
    ensures r.Some? && StartsWith(r.value, "55") ==> 12 <= |r.value| <= 13
    ensures r.Some? && StartsWith(r.value, "598") ==> 11 <= |r.value| <= 12
  {
    var n := DigitsOf(raw);
    if n == [] then None
    else
      var m := RewriteCountry(StripCarrierPrefix(n));
      if LengthAccepted(m) then Some(m) else None
  }

  /** Brazil: a 10- or 11-digit number without "55" (and not Uruguayan) gets the country code. */
  lemma BrazilCountryCodeAdded(raw: string)
    requires var d := DigitsOf(raw); (|d| == 10 || |d| == 11) && !StartsWith(d, "55") && !StartsWith(d, "598")
    ensures var d := DigitsOf(raw);
      NormalizePhone(raw) ==
        if |d| == 11 && AreaCode("55" + d) <= 28 then Some("55" + d[..2] + d[3..]) else Some("55" + d)
  {
    var d := DigitsOf(raw);
    var m := BrazilRewrite(d);
    CountryCodePrefixed(d);
    assert RewriteCountry(StripCarrierPrefix(d)) == m;
    assert LengthAccepted(m) by {
      assert m[..2] == "55" && m[1] != '9';
    }
  }

  /** Helper: the Brazilian rewrite of a 10- or 11-digit number without the country code. */
  lemma CountryCodePrefixed(d: string)
    requires AllDigits(d) && (|d| == 10 || |d| == 11) && !StartsWith(d, "55")
    ensures var m := BrazilRewrite(d);
      && m == (if |d| == 11 && AreaCode("55" + d) <= 28 then "55" + d[..2] + d[3..] else "55" + d)
      && m[..2] == "55" && 12 <= |m| <= 13
  {
    var w := "55" + d;
    assert w[..2] == "55";
    if |d| == 11 && AreaCode(w) <= 28 {
      assert w[..4] + w[5..] == "55" + d[..2] + d[3..];
    }
  }

  /** Brazil: a 13-digit "55" number keeps its ninth digit only for area codes above 28. */
  lemma NinthDigitRemoved(raw: string)
    requires var d := DigitsOf(raw); |d| == 13 && StartsWith(d, "55")
    ensures var d := DigitsOf(raw);
      NormalizePhone(raw) == if AreaCode(d) <= 28 then Some(d[..4] + d[5..]) else Some(d)
  {
    var d := DigitsOf(raw);
    assert !StartsWith(d, "0") && !StartsWith(d, "598") && !StartsWith(d, "09") && !StartsWith(d, "9") by {
      assert d[0] == '5' && d[1] == '5';
    }
    if AreaCode(d) <= 28 {
      var m := d[..4] + d[5..];
      assert m[..2] == "55" && |m| == 12;
      assert !StartsWith(m, "598") by { assert m[1] == '5'; }
    }
  }

  /** Uruguay: a number already starting with "598" is kept as it is, if its length is 11 or 12. */
  lemma UruguayKept(raw: string)
    requires StartsWith(DigitsOf(raw), "598")
    ensures var d := DigitsOf(raw);
      NormalizePhone(raw) == if 11 <= |d| <= 12 then Some(d) else None
  {
    var d := DigitsOf(raw);
    assert d[0] == '5';
    assert !StartsWith(d, "55") by { assert d[1] == '9'; }
  }

  /** Uruguay: a 9-digit "09" number drops the 0 and gets "598". */
  lemma UruguayMobileWithZero(raw: string)
    requires var d := DigitsOf(raw); |d| == 9 && StartsWith(d, "09")
    ensures NormalizePhone(raw) == Some("598" + DigitsOf(raw)[1..])
  {
    var d := DigitsOf(raw);
    assert !StartsWith(d, "598") by { assert d[0] == '0'; }
    var m := "598" + d[1..];
    assert StartsWith(m, "598") && |m| == 11;
    assert !StartsWith(m, "55") by { assert m[1] == '9'; }
  }

  /** Uruguay: an 8-digit "9" number gets "598". */
  lemma UruguayMobile(raw: string)
    requires var d := DigitsOf(raw); |d| == 8 && StartsWith(d, "9")
    ensures NormalizePhone(raw) == Some("598" + DigitsOf(raw))
  {
    var d := DigitsOf(raw);
    assert !StartsWith(d, "598") && !StartsWith(d, "09") by { assert d[0] == '9'; }
    var m := "598" + d;
    assert StripCarrierPrefix(d) == d;
    assert RewriteCountry(d) == m;
    assert StartsWith(m, "598") && |m| == 11;
    assert !StartsWith(m, "55") by { assert m[1] == '9'; }
    assert LengthAccepted(m);
  }

  /**
   * The carrier prefix: a number of more than 11 digits starting with 0 is
   * normalised as the digits after its first three (the prefix is removed once,
   * so this holds unless what remains again qualifies for removal).
   */
  lemma CarrierPrefixRemoved(raw: string)
    requires var d := DigitsOf(raw); |d| > 11 && StartsWith(d, "0") && (|d| <= 14 || d[3] != '0')
    ensures NormalizePhone(raw) == NormalizePhone(DigitsOf(raw)[3..])
  {
    var d := DigitsOf(raw);
    var t := d[3..];
    assert AllDigits(t) by {
      forall i | 0 <= i < |t| ensures IsDigit(t[i]) { assert t[i] == d[i + 3]; }
    }
    DigitsOfDigits(t);
    assert StripCarrierPrefix(t) == t by {
      if |t| > 11 { assert t[0] == d[3]; }
    }
  }

  /**
   * Normalising an accepted number again changes nothing, except for a number of
   * more than 11 digits that still starts with 0 (only reachable from inputs of 15
   * or more digits), whose carrier prefix would be removed a second time.
   */
  lemma NormalizeIdempotent(raw: string)
    requires NormalizePhone(raw).Some?
    requires var n := NormalizePhone(raw).value; !(|n| > 11 && StartsWith(n, "0"))
    ensures NormalizePhone(NormalizePhone(raw).value) == NormalizePhone(raw)
  {
    var n := NormalizePhone(raw).value;
    DigitsOfDigits(n);
    assert StripCarrierPrefix(n) == n;
    var d := StripCarrierPrefix(DigitsOf(raw));
    if StartsWith(d, "598") {
    } else if StartsWith(d, "09") && |d| == 9 {
      assert n == "598" + d[1..];
      assert StartsWith(n, "598");
    } else if StartsWith(d, "9") && |d| == 8 {
      assert n == "598" + d;
      assert StartsWith(n, "598");
    } else {
      BrazilRewriteStable(d);
    }
  }

  /** Helper for NormalizeIdempotent: the Brazilian rewrite of an accepted number is a fixed point. */
  lemma BrazilRewriteStable(d: string)
    requires AllDigits(d) && d != []
    requires !StartsWith(d, "598") && !(StartsWith(d, "09") && |d| == 9) && !(StartsWith(d, "9") && |d| == 8)
    requires LengthAccepted(BrazilRewrite(d))
    ensures RewriteCountry(BrazilRewrite(d)) == BrazilRewrite(d)
  {
    var w := if !StartsWith(d, "55") && (|d| == 10 || |d| == 11) then "55" + d else d;
    var n := BrazilRewrite(d);
    if StartsWith(w, "55") && |w| == 13 && AreaCode(w) <= 28 {
      assert n == w[..4] + w[5..];
      assert n[..2] == w[..2];
      assert StartsWith(n, "55") && |n| == 12;
      assert !StartsWith(n, "598") by { assert n[1] == '5'; }
    } else if StartsWith(w, "55") {
      assert n == w;
      assert !StartsWith(n, "598") by { assert n[1] == '5'; }
      assert !StartsWith(n, "09") && !StartsWith(n, "9") by { assert n[0] == '5'; }
    } else {
      assert n == d;
    }
  }

  // ---------------------------------------------------------------------------
  // String helpers shared by the two file parsers
  // ---------------------------------------------------------------------------

  /**
   * `text.split(/\r?\n/)`: the lines of a text, without their "\n" or "\r\n"
   * terminators (a "\r" not followed by "\n" stays in its line).
   */
  function SplitLines(s: string): (lines: seq<string>)
    ensures |lines| >= 1
    ensures forall k :: 0 <= k < |lines| ==> '\n' !in lines[k]
  {
    if s == [] then [[]]
    else if s[0] == '\n' then [[]] + SplitLines(s[1..])
    else if s[0] == '\r' && |s| > 1 && s[1] == '\n' then [[]] + SplitLines(s[2..])
    else
      var rest := SplitLines(s[1..]);
      [[s[0]] + rest[0]] + rest[1..]
  }

  /** `s` with every carriage return that precedes a line feed removed. */
  function CollapseCRLF(s: string): (r: string)
    ensures |r| <= |s|
  {
    if s == [] then []
    else if s[0] == '\r' && |s| > 1 && s[1] == '\n' then CollapseCRLF(s[1..])
    else [s[0]] + CollapseCRLF(s[1..])
  }

  /** Joining the lines with line feeds gives the text back, with each "\r\n" as "\n". */
  lemma {:induction false} SplitLinesJoin(s: string)
    ensures Join(SplitLines(s), '\n') == CollapseCRLF(s)
  {
    if s != [] {
      var c := s[0];
      HeadTail(s);
      if c == '\n' {
        SplitLinesJoin(s[1..]);
        JoinCons([], SplitLines(s[1..]), '\n');
      } else if c == '\r' && |s| > 1 && s[1] == '\n' {
        SplitLinesJoin(s[2..]);
        JoinCons([], SplitLines(s[2..]), '\n');
        assert s[1..][0] == '\n' && s[1..][1..] == s[2..];
        assert CollapseCRLF(s[1..]) == ['\n'] + CollapseCRLF(s[2..]);
      } else {
        SplitLinesJoin(s[1..]);
        var rest := SplitLines(s[1..]);
        if |rest| == 1 {
          assert SplitLines(s) == [[c] + rest[0]];
        } else {
          HeadTail(rest);
          JoinCons(rest[0], rest[1..], '\n');
          JoinCons([c] + rest[0], rest[1..], '\n');
          assert Join(SplitLines(s), '\n') == [c] + (rest[0] + ['\n'] + Join(rest[1..], '\n'));
        }
      }
    }
  }

  /** `text.split(/\r?\n/)` is `split('\n')` of the text with each "\r\n" collapsed to "\n". */
  lemma SplitLinesIsSplit(s: string)
    ensures SplitLines(s) == Split(CollapseCRLF(s), '\n')
  {
    SplitLinesJoin(s);
    JoinSplit(SplitLines(s), '\n');
  }

  /** `s.replace(/^"|"$/g, '')`: removes one double quote at the start and one at the end. */
  function StripQuotes(s: string): (r: string)
    ensures |r| <= |s|
    ensures |s| >= 2 && s[0] == '"' && s[|s| - 1] == '"' ==> r == s[1..|s| - 1]
    ensures (s == [] || s[0] != '"') && (s == [] || s[|s| - 1] != '"') ==> r == s
  {
    var a := if s != [] && s[0] == '"' then s[1..] else s;
    if a != [] && a[|a| - 1] == '"' then a[..|a| - 1] else a
  }

  /** The placeholder name shown for a contact without a name: the mobile-phone emoji, a space and the number. */
  function PhoneAsName(phone: string): (name: string)
    ensures |name| == |phone| + 2 && name[2..] == phone
  {
    "\U{1F4F1} " + phone
  }

  // ---------------------------------------------------------------------------
  // parseCSV
  // ---------------------------------------------------------------------------

  datatype Contact = Contact(name: string, phone: string)

  /** A contact as the parsers produce it: a non-empty name and an accepted phone number. */
  predicate WellFormedContact(c: Contact) {
    c.name != [] && IsNormalized(c.phone)
  }

  /** The fields of one CSV line: split on ';' if the line has one, else on ',', each trimmed and unquoted. */
  function CsvFields(line: string): (fields: seq<string>)
    ensures |fields| == |Split(line, if ';' in line then ';' else ',')|
    ensures forall k :: 0 <= k < |fields| ==>
      fields[k] == StripQuotes(Trim(Split(line, if ';' in line then ';' else ',')[k]))
  {
    var parts := Split(line, if ';' in line then ';' else ',');
    seq(|parts|, k requires 0 <= k < |parts| => StripQuotes(Trim(parts[k])))
  }

  /** One CSV line: a contact when the line is not blank, has two fields and its second field normalises. */
  function ParseCsvLine(line: string): (c: Option<Contact>)
    ensures c.Some? <==>
      Trim(line) != [] && |CsvFields(line)| >= 2 && NormalizePhone(CsvFields(line)[1]).Some?
    ensures c.Some? ==> c.value.phone == NormalizePhone(CsvFields(line)[1]).value
    ensures c.Some? ==> c.value.name == if CsvFields(line)[0] == [] then PhoneAsName(c.value.phone) else CsvFields(line)[0]
    ensures c.Some? ==> WellFormedContact(c.value)
  {
    if Trim(line) == [] then None
    else
      var fields := CsvFields(line);
      if |fields| < 2 then None
      else
        match NormalizePhone(fields[1])
        case None => None
        case Some(phone) => Some(Contact(if fields[0] == [] then PhoneAsName(phone) else fields[0], phone))
  }

  /** The `reduce` of parseCSV: the contacts of the accepted lines, in line order. */
  function ParseCsvLines(lines: seq<string>): (cs: seq<Contact>)
    ensures |cs| <= |lines|
    ensures forall k :: 0 <= k < |cs| ==> WellFormedContact(cs[k])
  {
    if lines == [] then []
    else
      var rest := ParseCsvLines(lines[1..]);
      match ParseCsvLine(lines[0])
      case None => rest
      case Some(c) => WellFormedCons(c, rest); [c] + rest
  }

  /** Helper: a well-formed contact in front of well-formed ones. */
  lemma WellFormedCons(c: Contact, cs: seq<Contact>)
    requires WellFormedContact(c) && forall k :: 0 <= k < |cs| ==> WellFormedContact(cs[k])
    ensures forall k :: 0 <= k < |[c] + cs| ==> WellFormedContact(([c] + cs)[k])
  {
  }

  /** parseCSV: the text's lines (split on "\n" or "\r\n") parsed in order. */
  function ParseCsv(text: string): (cs: seq<Contact>)
    ensures forall k :: 0 <= k < |cs| ==> WellFormedContact(cs[k])
  {
    ParseCsvLines(SplitLines(text))
  }

  /** The fold keeps line order: the contacts of two blocks of lines are those of each block, in turn. */
  lemma {:induction false} ParseCsvLinesConcat(a: seq<string>, b: seq<string>)
    ensures ParseCsvLines(a + b) == ParseCsvLines(a) + ParseCsvLines(b)
  {
    if a == [] {
      assert a + b == b;
    } else {
      assert (a + b)[0] == a[0];
      assert (a + b)[1..] == a[1..] + b;
      ParseCsvLinesConcat(a[1..], b);
    }
  }

  // ---------------------------------------------------------------------------
  // parseVCF
  // ---------------------------------------------------------------------------

  /** `text.replace(/=\r?\n/g, '')`: removes quoted-printable soft line breaks, scanning left to right. */
  function UnfoldSoftBreaks(s: string): (r: string)
    ensures |r| <= |s|
    ensures '=' !in s ==> r == s
  {
    if s == [] then []
    else if |s| >= 2 && s[0] == '=' && s[1] == '\n' then UnfoldSoftBreaks(s[2..])
    else if |s| >= 3 && s[0] == '=' && s[1] == '\r' && s[2] == '\n' then UnfoldSoftBreaks(s[3..])
    else
      assert '=' !in s ==> '=' !in s[1..] by {
        if '=' in s[1..] { var k :| 0 <= k < |s[1..]| && s[1..][k] == '='; assert s[k + 1] == '='; }
      }
      [s[0]] + UnfoldSoftBreaks(s[1..])
  }

  /**
   * One step of the scan: a soft line break at the front is dropped, and any
   * other first character (an '=' of an `=XX` escape included) is kept.
   */
  lemma UnfoldStep(s: string)
    requires s != []
    ensures StartsWith(s, "=\n") ==> UnfoldSoftBreaks(s) == UnfoldSoftBreaks(s[2..])
    ensures StartsWith(s, "=\r\n") ==> UnfoldSoftBreaks(s) == UnfoldSoftBreaks(s[3..])
    ensures !StartsWith(s, "=\n") && !StartsWith(s, "=\r\n") ==>
      UnfoldSoftBreaks(s) == [s[0]] + UnfoldSoftBreaks(s[1..])
  {
    assert StartsWith(s, "=\n") <==> |s| >= 2 && s[0] == '=' && s[1] == '\n' by {
      if |s| >= 2 { assert s[..2] == [s[0], s[1]]; }
    }
    assert StartsWith(s, "=\r\n") <==> |s| >= 3 && s[0] == '=' && s[1] == '\r' && s[2] == '\n' by {
      if |s| >= 3 { assert s[..3] == [s[0], s[1], s[2]]; }
    }
  }

  /** Helper: no soft line break starts inside text without a line feed that is followed by nothing or an '='. */
  lemma NoBreakAtFront(a: string, t: string)
    requires a != [] && '\n' !in a && (t == [] || t[0] == '=')
    ensures !StartsWith(a + t, "=\n") && !StartsWith(a + t, "=\r\n")
  {
    var s := a + t;
    if |s| >= 2 {
      if |a| >= 2 { assert s[1] == a[1] && a[1] in a; } else { assert s[1] == t[0]; }
      assert s[..2][1] == s[1];
    }
    if |s| >= 3 {
      if |a| >= 3 { assert s[2] == a[2] && a[2] in a; }
      else if |a| == 2 { assert s[2] == t[0]; }
      else { assert s[1] == t[0]; }
      assert s[..3][1] == s[1] && s[..3][2] == s[2];
    }
  }

  /**
   * Helper: text without a line feed, followed by nothing or by an '=', passes
   * through unchanged, whatever '=' escapes it holds.
   */
  lemma {:induction false} UnfoldPlain(a: string, t: string)
    requires '\n' !in a && (t == [] || t[0] == '=')
    ensures UnfoldSoftBreaks(a + t) == a + UnfoldSoftBreaks(t)
  {
    if a == [] {
      assert a + t == t;
    } else {
      var s := a + t;
      assert UnfoldSoftBreaks(s) == [a[0]] + UnfoldSoftBreaks(a[1..] + t) by {
        NoBreakAtFront(a, t);
        UnfoldStep(s);
        assert s[0] == a[0] && s[1..] == a[1..] + t;
      }
      calc {
        UnfoldSoftBreaks(a + t);
        [a[0]] + UnfoldSoftBreaks(a[1..] + t);
        { UnfoldPlain(a[1..], t); }
        [a[0]] + (a[1..] + UnfoldSoftBreaks(t));
        ([a[0]] + a[1..]) + UnfoldSoftBreaks(t);
        { HeadTail(a); }
        a + UnfoldSoftBreaks(t);
      }
    }
  }

  /** A soft line break ("=\n" or "=\r\n") after text without a line feed is removed. */
  lemma UnfoldBreak(a: string, brk: string, t: string)
    requires '\n' !in a && (brk == "=\n" || brk == "=\r\n")
    ensures UnfoldSoftBreaks(a + brk + t) == a + UnfoldSoftBreaks(t)
  {
    var u := brk + t;
    assert UnfoldSoftBreaks(u) == UnfoldSoftBreaks(t) by {
      UnfoldStep(u);
      if brk == "=\n" {
        assert u[..2] == brk && u[2..] == t;
      } else {
        assert u[..3] == brk && u[3..] == t;
      }
    }
    calc {
      UnfoldSoftBreaks(a + brk + t);
      { assert a + brk + t == a + u; }
      UnfoldSoftBreaks(a + u);
      { UnfoldPlain(a, u); }
      a + UnfoldSoftBreaks(u);
    }
  }

  /**
   * Lines joined by soft line breaks unfold to their concatenation, as long as
   * no line holds a line feed of its own; the lines may hold `=XX` escapes.
   */
  lemma {:induction false} UnfoldLines(lines: seq<string>, brk: string)
    requires |lines| >= 1 && (brk == "=\n" || brk == "=\r\n")
    requires forall k :: 0 <= k < |lines| ==> '\n' !in lines[k]
    ensures UnfoldSoftBreaks(JoinWith(lines, brk)) == JoinWith(lines, [])
  {
    if |lines| == 1 {
      UnfoldPlain(lines[0], []);
      assert lines[0] + [] == lines[0];
    } else {
      var tail := lines[1..];
      var joined := JoinWith(tail, brk);
      assert UnfoldSoftBreaks(joined) == JoinWith(tail, []) by {
        assert forall k :: 0 <= k < |tail| ==> tail[k] == lines[k + 1];
        UnfoldLines(tail, brk);
      }
      assert UnfoldSoftBreaks(lines[0] + brk + joined) == lines[0] + UnfoldSoftBreaks(joined) by {
        UnfoldBreak(lines[0], brk, joined);
      }
      assert JoinWith(lines, brk) == lines[0] + brk + joined;
      assert JoinWith(lines, []) == lines[0] + JoinWith(tail, []) by {
        assert lines[0] + [] + JoinWith(tail, []) == lines[0] + JoinWith(tail, []);
      }
    }
  }

  /** `text.split(/pat/i)`: the pieces between the non-overlapping case-insensitive occurrences of `pat`. */
  function SplitOnCI(s: string, pat: string): (pieces: seq<string>)
    requires pat != []
    ensures |pieces| >= 1
    ensures forall k :: 0 <= k < |pieces| ==> |pieces[k]| <= |s|
  {
    if s == [] then [[]]
    else if MatchesAt(s, 0, pat) then [[]] + SplitOnCI(s[|pat|..], pat)
    else
      var rest := SplitOnCI(s[1..], pat);
      [[s[0]] + rest[0]] + rest[1..]
  }

  /**
   * No piece contains the pattern, in any case, and the first piece is the
   * text up to the first occurrence.
   */
  lemma {:induction false} SplitOnCIPieces(s: string, pat: string)
    requires pat != []
    ensures var pieces := SplitOnCI(s, pat);
      && pieces[0] == s[..|pieces[0]|]
      && forall k :: 0 <= k < |pieces| ==> !ContainsCI(pieces[k], pat)
  {
    if s != [] {
      if MatchesAt(s, 0, pat) {
        SplitOnCIPieces(s[|pat|..], pat);
        var pieces := SplitOnCI(s, pat);
        assert forall k :: 1 <= k < |pieces| ==> pieces[k] == SplitOnCI(s[|pat|..], pat)[k - 1];
      } else {
        SplitOnCIPieces(s[1..], pat);
        var rest := SplitOnCI(s[1..], pat);
        var first := [s[0]] + rest[0];
        assert first == s[..|first|];
        ConsClean(s, rest[0], pat);
      }
    }
  }

  /**
   * Helper: a character that starts no occurrence, put in front of a text
   * with no occurrence, makes none.
   */
  lemma ConsClean(s: string, t: string, pat: string)
    requires 1 + |t| <= |s| && [s[0]] + t == s[..1 + |t|]
    requires !MatchesAt(s, 0, pat) && !ContainsCI(t, pat)
    ensures !ContainsCI([s[0]] + t, pat)
  {
    var first := [s[0]] + t;
    if ContainsCI(first, pat) {
      var m :| 0 <= m <= |first| - |pat| && MatchesAt(first, m, pat);
      if m > 0 {
        assert MatchesAt(t, m - 1, pat) by {
          forall k | 0 <= k < |pat| ensures Upper(t[m - 1 + k]) == pat[k] {
            assert first[m + k] == t[m - 1 + k];
          }
        }
      }
    }
  }

  /**
   * Joining the pieces with the (upper-case) pattern gives the text back, up
   * to the case of the separators it matched.
   */
  lemma {:induction false} SplitOnCIJoin(s: string, pat: string)
    requires pat != [] && UpperAll(pat) == pat
    ensures UpperAll(JoinWith(SplitOnCI(s, pat), pat)) == UpperAll(s)
  {
    if s != [] {
      if MatchesAt(s, 0, pat) {
        var t := s[|pat|..];
        SplitOnCIJoin(t, pat);
        JoinWithCons([], SplitOnCI(t, pat), pat);
        assert [] + pat + JoinWith(SplitOnCI(t, pat), pat) == pat + JoinWith(SplitOnCI(t, pat), pat);
        UpperAllAppend(pat, JoinWith(SplitOnCI(t, pat), pat));
        assert s == s[..|pat|] + t;
        UpperAllAppend(s[..|pat|], t);
        MatchedUpper(s, pat);
      } else {
        var rest := SplitOnCI(s[1..], pat);
        SplitOnCIJoin(s[1..], pat);
        var c := s[0];
        JoinWithFront(c, rest, pat);
        UpperAllAppend([c], JoinWith(rest, pat));
        HeadTail(s);
        UpperAllAppend([c], s[1..]);
      }
    }
  }

  /** Position `i` starts a line (the `^` of a multi-line pattern). */
  predicate LineStart(s: string, i: nat) {
    i == 0 || (0 < i <= |s| && IsLineTerminator(s[i - 1]))
  }

  /** The first position at or after `from` holding a line terminator, or the end of `s`. */
  function LineEnd(s: string, from: nat): (e: nat)
    requires from <= |s|
    ensures from <= e <= |s|
    ensures e < |s| ==> IsLineTerminator(s[e])
    ensures forall k :: from <= k < e ==> !IsLineTerminator(s[k])
    decreases |s| - from
  {
    if from == |s| || IsLineTerminator(s[from]) then from else LineEnd(s, from + 1)
  }

  /**
   * A match of `/^TEL[^:]*:(.+)$/mi` starts at `j`: a line starts there with
   * "TEL" in any case, a ':' follows, and the rest of that ':''s line is not empty.
   */
  predicate TelAt(card: string, j: nat) {
    && j + 3 <= |card| && LineStart(card, j) && MatchesAt(card, j, "TEL")
    && IndexOf(card, [':'], j + 3).Some?
    && LineEnd(card, IndexOf(card, [':'], j + 3).value + 1) > IndexOf(card, [':'], j + 3).value + 1
  }

  /** The captured group of the match at `j`: the rest of the ':''s line. */
  function TelValue(card: string, j: nat): (v: string)
    requires TelAt(card, j)
    ensures v != [] && forall k :: 0 <= k < |v| ==> !IsLineTerminator(v[k])
  {
    var q := IndexOf(card, [':'], j + 3).value;
    card[q + 1..LineEnd(card, q + 1)]
  }

  /** `j` is the first position from `i` where a match starts. */
  predicate FirstTelFrom(card: string, i: nat, j: nat) {
    i <= j && TelAt(card, j) && forall j' :: i <= j' < j ==> !TelAt(card, j')
  }

  /** Helper: a first match from `i + 1` is the first from `i` when none starts at `i`. */
  lemma FirstTelEarlier(card: string, i: nat, j: nat)
    requires FirstTelFrom(card, i + 1, j) && !TelAt(card, i)
    ensures FirstTelFrom(card, i, j)
  {
  }

  /**
   * `card.match(/^TEL[^:]*:(.+)$/mi)[1]`, searching from `i`: the value of the
   * first match, or none when there is no match.
   */
  function FindTel(card: string, i: nat): (v: Option<string>)
    requires i <= |card|
    ensures v.Some? ==> v.value != [] && forall k :: 0 <= k < |v.value| ==> !IsLineTerminator(v.value[k])
    ensures v.Some? ==> exists j :: FirstTelFrom(card, i, j) && v.value == TelValue(card, j)
    ensures v.None? ==> forall j :: i <= j ==> !TelAt(card, j)
    decreases |card| - i
  {
    if i + 3 > |card| then None
    else if TelAt(card, i) then
      assert FirstTelFrom(card, i, i);
      Some(TelValue(card, i))
    else
      var v := FindTel(card, i + 1);
      assert v.Some? ==> exists j :: FirstTelFrom(card, i, j) && v.value == TelValue(card, j) by {
        if v.Some? {
          var j :| FirstTelFrom(card, i + 1, j) && v.value == TelValue(card, j);
          FirstTelEarlier(card, i, j);
        }
      }
      v
  }

  /**
   * A match of `/^(NAME[^:]*):(.*)/mi` starts at `j`: a line starts there with
   * `name` in any case, and a ':' follows somewhere after it.
   */
  predicate PropertyAt(card: string, j: nat, name: string) {
    && j + |name| <= |card| && LineStart(card, j) && MatchesAt(card, j, name)
    && IndexOf(card, [':'], j + |name|).Some?
  }

  /** The two groups of the match at `j`: the tag up to the ':' and the rest of the ':''s line. */
  function PropertyValue(card: string, j: nat, name: string): (v: (string, string))
    requires PropertyAt(card, j, name)
    ensures forall k :: 0 <= k < |v.1| ==> !IsLineTerminator(v.1[k])
  {
    var q := IndexOf(card, [':'], j + |name|).value;
    (card[j..q], card[q + 1..LineEnd(card, q + 1)])
  }

  /** `j` is the first position from `i` where a match starts. */
  predicate FirstPropertyFrom(card: string, i: nat, j: nat, name: string) {
    i <= j && PropertyAt(card, j, name) && forall j' :: i <= j' < j ==> !PropertyAt(card, j', name)
  }

  /** Helper: a first match from `i + 1` is the first from `i` when none starts at `i`. */
  lemma FirstPropertyEarlier(card: string, i: nat, j: nat, name: string)
    requires FirstPropertyFrom(card, i + 1, j, name) && !PropertyAt(card, i, name)
    ensures FirstPropertyFrom(card, i, j, name)
  {
  }

  /**
   * `card.match(/^(NAME[^:]*):(.*)/mi)`, searching from `i`: the groups of the
   * first match, or none when there is no match. The second group may be empty.
   */
  function FindProperty(card: string, i: nat, name: string): (p: Option<(string, string)>)
    requires i <= |card| && name != []
    ensures p.Some? ==> forall k :: 0 <= k < |p.value.1| ==> !IsLineTerminator(p.value.1[k])
    ensures p.Some? ==> exists j :: FirstPropertyFrom(card, i, j, name) && p.value == PropertyValue(card, j, name)
    ensures p.None? ==> forall j :: i <= j ==> !PropertyAt(card, j, name)
    decreases |card| - i
  {
    if i + |name| > |card| then None
    else if PropertyAt(card, i, name) then
      assert FirstPropertyFrom(card, i, i, name);
      Some(PropertyValue(card, i, name))
    else
      var p := FindProperty(card, i + 1, name);
      assert p.Some? ==> exists j :: FirstPropertyFrom(card, i, j, name) && p.value == PropertyValue(card, j, name) by {
        if p.Some? {
          var j :| FirstPropertyFrom(card, i + 1, j, name) && p.value == PropertyValue(card, j, name);
          FirstPropertyEarlier(card, i, j, name);
        }
      }
      p
  }

  /**
   * `name.replace(/=([0-9A-F]{2})/gi, h => String.fromCharCode(parseInt(h, 16)))`:
   * every "=XX" escape becomes the character with code XX. (The source then
   * encodes the string to UTF-8 and decodes it back, which gives the same string.)
   */
  function DecodeQuotedPrintable(s: string): (r: string)
    ensures |r| <= |s|
    ensures '=' !in s ==> r == s
  {
    if s == [] then []
    else if |s| >= 3 && s[0] == '=' && IsHexDigit(s[1]) && IsHexDigit(s[2]) then
      [(HexValue(s[1]) * 16 + HexValue(s[2])) as char] + DecodeQuotedPrintable(s[3..])
    else
      assert '=' !in s ==> '=' !in s[1..] by {
        if '=' in s[1..] { var k :| 0 <= k < |s[1..]| && s[1..][k] == '='; assert s[k + 1] == '='; }
      }
      [s[0]] + DecodeQuotedPrintable(s[1..])
  }

  /** Helper: a character glued to the front of the first piece comes first in the join. */
  lemma JoinWithFront(c: char, rest: seq<string>, sep: string)
    requires |rest| >= 1
    ensures JoinWith([[c] + rest[0]] + rest[1..], sep) == [c] + JoinWith(rest, sep)
  {
    if |rest| == 1 {
      assert [[c] + rest[0]] + rest[1..] == [[c] + rest[0]];
    } else {
      HeadTail(rest);
      JoinWithCons(rest[0], rest[1..], sep);
      JoinWithCons([c] + rest[0], rest[1..], sep);
    }
  }

  /** Helper: the text an upper-case pattern matches upper-cases to the pattern. */
  lemma MatchedUpper(s: string, pat: string)
    requires MatchesAt(s, 0, pat) && UpperAll(pat) == pat
    ensures UpperAll(s[..|pat|]) == pat
  {
    assert forall k :: 0 <= k < |pat| ==> UpperAll(s[..|pat|])[k] == Upper(s[k]) == pat[k];
  }

  /** An escape "=XY" with two hexadecimal digits decodes to the character with code XY. */
  lemma DecodeEscape(x: char, y: char, t: string)
    requires IsHexDigit(x) && IsHexDigit(y)
    ensures DecodeQuotedPrintable(['=', x, y] + t) == [(HexValue(x) * 16 + HexValue(y)) as char] + DecodeQuotedPrintable(t)
  {
    assert (['=', x, y] + t)[3..] == t;
  }

  /** Any other character stands for itself. */
  lemma DecodeLiteral(c: char, t: string)
    requires c != '='
    ensures DecodeQuotedPrintable([c] + t) == [c] + DecodeQuotedPrintable(t)
  {
    DropHead(c, t);
  }

  /** An '=' that is not followed by two hex digits is no escape: it is kept as it is. */
  lemma DecodeStray(t: string)
    requires !(|t| >= 2 && IsHexDigit(t[0]) && IsHexDigit(t[1]))
    ensures DecodeQuotedPrintable(['='] + t) == ['='] + DecodeQuotedPrintable(t)
  {
    assert (['='] + t)[1..] == t;
  }

  /** Every character, each of code below 256, written as an escape "=XY". */
  function EncodeQuotedPrintable(s: string): (r: string)
    requires forall k :: 0 <= k < |s| ==> s[k] as int < 256
    ensures |r| == 3 * |s|
  {
    if s == [] then []
    else ['=', HexDigitChar(s[0] as int / 16), HexDigitChar(s[0] as int % 16)] + EncodeQuotedPrintable(s[1..])
  }

  /** Decoding the escapes of every character gives the text back. */
  lemma {:induction false} DecodeEncode(s: string)
    requires forall k :: 0 <= k < |s| ==> s[k] as int < 256
    ensures DecodeQuotedPrintable(EncodeQuotedPrintable(s)) == s
  {
    if s != [] {
      var code := s[0] as int;
      DecodeEscape(HexDigitChar(code / 16), HexDigitChar(code % 16), EncodeQuotedPrintable(s[1..]));
      DecodeEncode(s[1..]);
      HeadTail(s);
    }
  }

  /** `s.replace(/;/g, ' ')`. */
  function SemicolonsToSpaces(s: string): (r: string)
    ensures |r| == |s|
    ensures forall k :: 0 <= k < |s| ==> r[k] == if s[k] == ';' then ' ' else s[k]
  {
    if s == [] then [] else [if s[0] == ';' then ' ' else s[0]] + SemicolonsToSpaces(s[1..])
  }

  /** The name property of a card: the FN line if there is one, else the N line, else nothing. */
  function NameProperty(card: string): (p: (string, string))
  {
    match FindProperty(card, 0, "FN")
    case Some(fn) => fn
    case None => FindProperty(card, 0, "N").GetOr(("", ""))
  }

  /** The name read from a card's name property: ';' as spaces, trimmed, quoted-printable decoded when the tag says so. */
  function DecodedName(tag: string, raw: string): string
  {
    var name := Trim(SemicolonsToSpaces(raw));
    if ContainsCI(tag, "QUOTED-PRINTABLE") && name != [] then DecodeQuotedPrintable(name) else name
  }

  /** The fallback rule: an empty name, or one mentioning VERSION, is replaced by the phone. */
  function UsableName(decoded: string, phone: string): (name: string)
    requires AllDigits(phone)
    ensures !ContainsCI(name, "VERSION")
    ensures decoded != [] && !ContainsCI(decoded, "VERSION") ==> name == decoded
  {
    if decoded == [] || ContainsCI(decoded, "VERSION") then
      NoLettersNoMatch(PhoneAsName(phone), "VERSION");
      PhoneAsName(phone)
    else decoded
  }

  /** The display name of an accepted card: its decoded name property, else the phone; trimmed. */
  function CardName(card: string, phone: string): (name: string)
    requires AllDigits(phone)
    ensures !ContainsCI(name, "VERSION")
  {
    var prop := NameProperty(card);
    var chosen := UsableName(DecodedName(prop.0, prop.1), phone);
    TrimKeepsAbsence(chosen, "VERSION");
    Trim(chosen)
  }

  /** One card: a contact when it has END:VCARD and its first TEL value normalises. */
  function ParseVcfCard(card: string): (c: Option<Contact>)
    ensures c.Some? <==>
      ContainsCI(card, "END:VCARD") && FindTel(card, 0).Some? && NormalizePhone(FindTel(card, 0).value).Some?
    ensures c.Some? ==> c.value.phone == NormalizePhone(FindTel(card, 0).value).value
    ensures c.Some? ==> c.value.name == CardName(card, c.value.phone)
    ensures c.Some? ==> IsNormalized(c.value.phone) && !ContainsCI(c.value.name, "VERSION")
  {
    if !ContainsCI(card, "END:VCARD") then None
    else
      match FindTel(card, 0)
      case None => None
      case Some(tel) =>
        match NormalizePhone(tel)
        case None => None
        case Some(phone) => Some(Contact(CardName(card, phone), phone))
  }

  /** What every vCard contact satisfies: an accepted phone and a name that does not mention VERSION. */
  predicate VcfContactOk(c: Contact) {
    IsNormalized(c.phone) && !ContainsCI(c.name, "VERSION")
  }

  /** The loop of parseVCF: the contacts of the accepted cards, in order. */
  function ParseVcfCards(cards: seq<string>): (cs: seq<Contact>)
    ensures |cs| <= |cards|
    ensures forall k :: 0 <= k < |cs| ==> VcfContactOk(cs[k])
  {
    if cards == [] then []
    else
      var rest := ParseVcfCards(cards[1..]);
      var card := ParseVcfCard(cards[0]);
      if card.None? then rest
      else
        VcfContactOkCons(card.value, rest);
        [card.value] + rest
  }

  /** Helper: an accepted vCard contact in front of accepted ones. */
  lemma VcfContactOkCons(c: Contact, cs: seq<Contact>)
    requires IsNormalized(c.phone) && !ContainsCI(c.name, "VERSION")
    requires forall k :: 0 <= k < |cs| ==> VcfContactOk(cs[k])
    ensures forall k :: 0 <= k < |[c] + cs| ==> VcfContactOk(([c] + cs)[k])
  {
  }

  /** parseVCF: soft line breaks removed, the text split at each BEGIN:VCARD, each piece parsed. */
  function ParseVcf(text: string): (cs: seq<Contact>)
    ensures forall k :: 0 <= k < |cs| ==> VcfContactOk(cs[k])
  {
    ParseVcfCards(SplitOnCI(UnfoldSoftBreaks(text), "BEGIN:VCARD"))
  }

  /** The card loop keeps card order. */
  lemma {:induction false} ParseVcfCardsConcat(a: seq<string>, b: seq<string>)
    ensures ParseVcfCards(a + b) == ParseVcfCards(a) + ParseVcfCards(b)
  {
    if a == [] {
      assert a + b == b;
    } else {
      assert (a + b)[0] == a[0];
      assert (a + b)[1..] == a[1..] + b;
      ParseVcfCardsConcat(a[1..], b);
    }
  }

  /**
   * The FN line is preferred: when a card's FN property is plain text (not
   * quoted-printable) with a usable value, the card is named by that value, ';'
   * turned into spaces and trimmed, whatever its N line says.
   */
  lemma FormattedNamePreferred(card: string, phone: string, tag: string, raw: string)
    requires AllDigits(phone)
    requires FindProperty(card, 0, "FN") == Some((tag, raw))
    requires !ContainsCI(tag, "QUOTED-PRINTABLE")
    requires var v := Trim(SemicolonsToSpaces(raw)); v != [] && !ContainsCI(v, "VERSION")
    ensures CardName(card, phone) == Trim(SemicolonsToSpaces(raw))
  {
    TrimOfTrimmed(Trim(SemicolonsToSpaces(raw)));
  }

  /** Without an FN line, the N line names the card in the same way. */
  lemma NameLineFallback(card: string, phone: string, tag: string, raw: string)
    requires AllDigits(phone)
    requires FindProperty(card, 0, "FN").None? && FindProperty(card, 0, "N") == Some((tag, raw))
    requires !ContainsCI(tag, "QUOTED-PRINTABLE")
    requires var v := Trim(SemicolonsToSpaces(raw)); v != [] && !ContainsCI(v, "VERSION")
    ensures CardName(card, phone) == Trim(SemicolonsToSpaces(raw))
  {
    TrimOfTrimmed(Trim(SemicolonsToSpaces(raw)));
  }

  /** A card with no usable name is named after its phone: the emoji, a space and the number. */
  lemma UnnamedCardUsesPhone(card: string, phone: string)
    requires AllDigits(phone) && phone != []
    requires Trim(SemicolonsToSpaces(NameProperty(card).1)) == []
    ensures CardName(card, phone) == PhoneAsName(phone)
  {
    var prop := NameProperty(card);
    assert DecodedName(prop.0, prop.1) == [];
    PhoneNameTrimmed(phone);
  }

  /** Helper: the phone placeholder name has no white space at either end. */
  lemma PhoneNameTrimmed(phone: string)
    requires AllDigits(phone) && phone != []
    ensures Trim(PhoneAsName(phone)) == PhoneAsName(phone)
  {
    var n := PhoneAsName(phone);
    assert !IsSpace(n[0]) by { assert n[0] == '\U{1F4F1}'; }
    assert !IsSpace(n[|n| - 1]) by { assert n[|n| - 1] == phone[|phone| - 1]; assert IsDigit(phone[|phone| - 1]); }
    TrimOfTrimmed(n);
  }

  // ---------------------------------------------------------------------------
  // interpolate
  // ---------------------------------------------------------------------------

  /** The contact fields a template can refer to. */
  datatype Recipient = Recipient(name: string, phone: string, variables: map<string, string>)

  /** `\w`: ASCII letters, digits and underscore. */
  predicate IsWordChar(c: char) {
    'a' <= c <= 'z' || 'A' <= c <= 'Z' || IsDigit(c) || c == '_'
  }

  /** The longest prefix of word characters. */
  function WordPrefix(s: string): (w: string)
    ensures |w| <= |s| && s[..|w|] == w
    ensures forall k :: 0 <= k < |w| ==> IsWordChar(w[k])
    ensures |w| < |s| ==> !IsWordChar(s[|w|])
  {
    if s != [] && IsWordChar(s[0]) then [s[0]] + WordPrefix(s[1..]) else []
  }

  /** `{ nome: name || 'cliente', telefone: phone, ...variables }[key]`. */
  function Lookup(r: Recipient, key: string): (v: Option<string>)
    ensures key in r.variables ==> v == Some(r.variables[key])
    ensures key !in r.variables && key == "nome" ==> v == Some(if r.name == [] then "cliente" else r.name)
    ensures key !in r.variables && key == "telefone" ==> v == Some(r.phone)
    ensures key !in r.variables && key != "nome" && key != "telefone" ==> v == None
  {
    if key in r.variables then Some(r.variables[key])
    else if key == "nome" then Some(if r.name == [] then "cliente" else r.name)
    else if key == "telefone" then Some(r.phone)
    else None
  }

  /** A `{key}` placeholder at the start of `s`: its key (one or more word characters). */
  function PlaceholderAt(s: string): (key: Option<string>)
    ensures key.Some? ==> key.value != [] && |key.value| + 2 <= |s|
  {
    if s == [] || s[0] != '{' then None
    else
      var w := WordPrefix(s[1..]);
      if w != [] && 1 + |w| < |s| && s[1 + |w|] == '}' then Some(w) else None
  }

  /** The `replace(/\{(\w+)\}/g, ...)` scan: each placeholder is replaced by its value, or kept verbatim. */
  function Substitute(s: string, r: Recipient): string
    decreases |s|
  {
    if s == [] then []
    else
      match PlaceholderAt(s)
      case Some(key) => Lookup(r, key).GetOr("{" + key + "}") + Substitute(s[|key| + 2..], r)
      case None => [s[0]] + Substitute(s[1..], r)
  }

  /** interpolate: the template with its placeholders filled in; an empty template gives "". */
  function Interpolate(template: string, r: Recipient): (text: string)
    ensures template == [] ==> text == []
  {
    if template == [] then [] else Substitute(template, r)
  }

  /** Text without '{' passes through unchanged, and in front of the rest of a template it stays in place. */
  lemma {:induction false} TextWithoutBracesKept(prefix: string, rest: string, r: Recipient)
    requires '{' !in prefix
    ensures Substitute(prefix + rest, r) == prefix + Substitute(rest, r)
  {
    if prefix != [] {
      var c, t := prefix[0], prefix[1..];
      var s := prefix + rest;
      assert s[0] == c && s[1..] == t + rest;
      PlainCharKept(s, r);
      TextWithoutBracesKept(t, rest, r);
      Regroup([c], t, Substitute(rest, r));
      HeadTail(prefix);
    } else {
      assert prefix + rest == rest;
    }
  }

  /** Helper: a character other than '{' at the front is copied. */
  lemma PlainCharKept(s: string, r: Recipient)
    requires s != [] && s[0] != '{'
    ensures Substitute(s, r) == [s[0]] + Substitute(s[1..], r)
  {
  }

  /** A '{' that does not open a placeholder is copied, and the scan goes on right after it. */
  lemma BraceKept(s: string, r: Recipient)
    requires s != [] && s[0] == '{' && PlaceholderAt(s).None?
    ensures Substitute(s, r) == "{" + Substitute(s[1..], r)
  {
  }

  /** Text without '}' holds no placeholder and passes through unchanged. */
  lemma {:induction false} TextWithoutClosingBraceKept(s: string, r: Recipient)
    requires '}' !in s
    ensures Substitute(s, r) == s
  {
    if s != [] {
      TextWithoutClosingBraceKept(s[1..], r);
      if s[0] == '{' {
        BraceKept(s, r);
      } else {
        PlainCharKept(s, r);
      }
      HeadTail(s);
    }
  }

  /** A template without '{' is returned as it is. */
  lemma InterpolatePlainText(template: string, r: Recipient)
    requires '{' !in template
    ensures Interpolate(template, r) == template
  {
    TextWithoutBracesKept(template, [], r);
    assert template + [] == template;
  }

  /**
   * A placeholder is replaced by the contact's variable of that name, else by
   * the name ("cliente" when empty) for `nome` and the phone for `telefone`; an
   * unknown key is kept verbatim, braces included. The text after it is
   * interpolated in turn.
   */
  lemma PlaceholderReplaced(key: string, rest: string, r: Recipient)
    requires key != [] && forall k :: 0 <= k < |key| ==> IsWordChar(key[k])
    ensures Substitute("{" + key + "}" + rest, r) == Lookup(r, key).GetOr("{" + key + "}") + Substitute(rest, r)
  {
    var s := "{" + key + "}" + rest;
    var tail := s[1..];
    assert tail == key + "}" + rest;
    WordPrefixOfWord(key, "}" + rest);
    assert tail == key + ("}" + rest);
    assert PlaceholderAt(s) == Some(key);
    assert s[|key| + 2..] == rest;
  }

  /** Helper: the word prefix of a word followed by a non-word character is that word. */
  lemma {:induction false} WordPrefixOfWord(w: string, rest: string)
    requires forall k :: 0 <= k < |w| ==> IsWordChar(w[k])
    requires rest == [] || !IsWordChar(rest[0])
    ensures WordPrefix(w + rest) == w
  {
    if w != [] {
      assert (w + rest)[1..] == w[1..] + rest;
      WordPrefixOfWord(w[1..], rest);
      assert [w[0]] + w[1..] == w;
    } else {
      assert w + rest == rest;
    }
  }
}
