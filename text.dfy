/** String helpers that stand for JavaScript's built-in string operations. */
module Text {
  import opened Wrappers

  predicate IsDigit(c: char) { '0' <= c <= '9' }

  predicate AllDigits(s: string) { forall i :: 0 <= i < |s| ==> IsDigit(s[i]) }

  predicate StartsWith(s: string, prefix: string) {
    |prefix| <= |s| && s[..|prefix|] == prefix
  }

  /** Value of a decimal digit. */
  function DigitValue(c: char): (v: nat)
    requires IsDigit(c)
    ensures v < 10
  {
    c as int - '0' as int
  }

  /** Line terminators as JavaScript regular expressions know them. */
  predicate IsLineTerminator(c: char) {
    c == '\n' || c == '\r' || c == '\U{2028}' || c == '\U{2029}'
  }

  /** The characters `String.prototype.trim` removes: white space and line terminators. */
  predicate IsSpace(c: char) {
    || IsLineTerminator(c)
    || c == '\t' || c == '\U{000B}' || c == '\U{000C}' || c == ' ' || c == '\U{00A0}' || c == '\U{FEFF}'
    || c == '\U{1680}' || ('\U{2000}' <= c <= '\U{200A}') || c == '\U{202F}' || c == '\U{205F}' || c == '\U{3000}'
  }

  function TrimStart(s: string): (r: string)
    ensures |r| <= |s| && s[|s| - |r|..] == r
    ensures forall k :: 0 <= k < |s| - |r| ==> IsSpace(s[k])
    ensures r != [] ==> !IsSpace(r[0])
    ensures (forall i :: 0 <= i < |s| ==> !IsSpace(s[i])) ==> r == s
  {
    if s != [] && IsSpace(s[0]) then TrimStart(s[1..]) else s
  }

  function TrimEnd(s: string): (r: string)
    ensures |r| <= |s| && s[..|r|] == r
    ensures forall k :: |r| <= k < |s| ==> IsSpace(s[k])
    ensures r != [] ==> !IsSpace(r[|r| - 1])
    ensures (forall i :: 0 <= i < |s| ==> !IsSpace(s[i])) ==> r == s
  {
    if s != [] && IsSpace(s[|s| - 1]) then TrimEnd(s[..|s| - 1]) else s
  }

  /** `r` is `s[i..j]`, and everything of `s` outside that slice is white space. */
  predicate TrimmedSlice(s: string, r: string, i: int, j: int) {
    && 0 <= i <= j <= |s| && r == s[i..j]
    && (forall k :: 0 <= k < i ==> IsSpace(s[k]))
    && (forall k :: j <= k < |s| ==> IsSpace(s[k]))
  }

  /**
   * `String.prototype.trim`: the input without white space at either end.
   * The result is the slice between the leading and the trailing run of
   * white space, so only white space is removed, and it starts and ends with
   * a character that is not white space.
   */
  function Trim(s: string): (r: string)
    ensures |r| <= |s|
    ensures r != [] ==> !IsSpace(r[0]) && !IsSpace(r[|r| - 1])
    ensures exists i, j :: TrimmedSlice(s, r, i, j)
  {
    var e := TrimEnd(s);
    var r := TrimStart(e);
    assert TrimmedSlice(s, r, |e| - |r|, |e|) by {
      forall k | 0 <= k < |e| - |r| ensures IsSpace(s[k]) { assert s[k] == e[k]; }
    }
    r
  }

  /**
   * The contract of `Trim` has one solution: any slice of `s` with only
   * white space outside it and no white space at its ends is `Trim(s)`.
   */
  lemma TrimUnique(s: string, t: string, i: int, j: int)
    requires TrimmedSlice(s, t, i, j)
    requires t != [] ==> !IsSpace(t[0]) && !IsSpace(t[|t| - 1])
    ensures t == Trim(s)
  {
    var r := Trim(s);
    var i', j' :| TrimmedSlice(s, r, i', j');
    if t != [] && r != [] {
      SliceBoundsAgree(s, t, i, j, r, i', j');
    }
  }

  /** Helper: two such slices that are both non-empty have the same bounds. */
  lemma SliceBoundsAgree(s: string, t: string, i: int, j: int, r: string, i': int, j': int)
    requires TrimmedSlice(s, t, i, j) && t != [] && !IsSpace(t[0]) && !IsSpace(t[|t| - 1])
    requires TrimmedSlice(s, r, i', j') && r != [] && !IsSpace(r[0]) && !IsSpace(r[|r| - 1])
    ensures i == i' && j == j'
  {
  }

  /** `s.split(sep)` for a one-character separator: the pieces between separators, always at least one. */
  function Split(s: string, sep: char): (pieces: seq<string>)
    ensures |pieces| >= 1
    ensures forall k :: 0 <= k < |pieces| ==> sep !in pieces[k]
  {
    if s == [] then [[]]
    else if s[0] == sep then [[]] + Split(s[1..], sep)
    else
      var rest := Split(s[1..], sep);
      [[s[0]] + rest[0]] + rest[1..]
  }

  /** `pieces.join(sep)`. */
  function Join(pieces: seq<string>, sep: char): string
    requires |pieces| >= 1
  {
    if |pieces| == 1 then pieces[0] else pieces[0] + [sep] + Join(pieces[1..], sep)
  }

  /** Splitting and joining with the same separator gives the input back. */
  lemma {:induction false} SplitJoin(s: string, sep: char)
    ensures Join(Split(s, sep), sep) == s
  {
    if s != [] {
      var c, t := s[0], s[1..];
      SplitJoin(t, sep);
      HeadTail(s);
      var rest := Split(t, sep);
      if c == sep {
        JoinCons([], rest, sep);
      } else if |rest| == 1 {
        assert Split(s, sep) == [[c] + rest[0]];
      } else {
        HeadTail(rest);
        JoinCons(rest[0], rest[1..], sep);
        JoinCons([c] + rest[0], rest[1..], sep);
        assert Join(Split(s, sep), sep) == [c] + (rest[0] + [sep] + Join(rest[1..], sep));
      }
    }
  }

  /** Helper: joining a piece in front of at least one more. */
  lemma JoinCons(x: string, ps: seq<string>, sep: char)
    requires |ps| >= 1
    ensures Join([x] + ps, sep) == x + [sep] + Join(ps, sep)
  {
    DropHead(x, ps);
  }

  /** A piece without the separator splits to itself. */
  lemma {:induction false} SplitPiece(x: string, sep: char)
    requires sep !in x
    ensures Split(x, sep) == [x]
  {
    if x != [] {
      SplitPiece(x[1..], sep);
      HeadTail(x);
    }
  }

  /** Helper: splitting at the first separator. */
  lemma {:induction false} SplitAtSeparator(x: string, rest: string, sep: char)
    requires sep !in x
    ensures Split(x + [sep] + rest, sep) == [x] + Split(rest, sep)
  {
    var s := x + [sep] + rest;
    if x == [] {
      assert s == [sep] + rest;
      DropHead(sep, rest);
    } else {
      SplitAtSeparator(x[1..], rest, sep);
      assert s[0] == x[0];
      assert s[1..] == x[1..] + [sep] + rest;
      HeadTail(x);
      DropHead(x[1..], Split(rest, sep));
    }
  }

  /** Joining pieces free of the separator and splitting again gives the pieces back. */
  lemma {:induction false} JoinSplit(ps: seq<string>, sep: char)
    requires |ps| >= 1 && forall k :: 0 <= k < |ps| ==> sep !in ps[k]
    ensures Split(Join(ps, sep), sep) == ps
  {
    if |ps| == 1 {
      SplitPiece(ps[0], sep);
    } else {
      JoinSplit(ps[1..], sep);
      SplitAtSeparator(ps[0], Join(ps[1..], sep), sep);
      HeadTail(ps);
    }
  }

  /** `pieces.join(sep)` for a separator of any length. */
  function JoinWith(pieces: seq<string>, sep: string): string
    requires |pieces| >= 1
  {
    if |pieces| == 1 then pieces[0] else pieces[0] + sep + JoinWith(pieces[1..], sep)
  }

  /** Helper: joining a piece in front of at least one more. */
  lemma JoinWithCons(x: string, ps: seq<string>, sep: string)
    requires |ps| >= 1
    ensures JoinWith([x] + ps, sep) == x + sep + JoinWith(ps, sep)
  {
    DropHead(x, ps);
  }

  /** ASCII upper case: the case folding the source's `/i` patterns need (they are all ASCII). */
  function Upper(c: char): char {
    if 'a' <= c <= 'z' then (c as int - 32) as char else c
  }

  /** `s` in ASCII upper case. */
  function UpperAll(s: string): (r: string)
    ensures |r| == |s| && forall i :: 0 <= i < |s| ==> r[i] == Upper(s[i])
  {
    seq(|s|, i requires 0 <= i < |s| => Upper(s[i]))
  }

  /** Helper: upper-casing distributes over concatenation. */
  lemma UpperAllAppend(a: string, b: string)
    ensures UpperAll(a + b) == UpperAll(a) + UpperAll(b)
  {
    assert forall i :: 0 <= i < |a + b| ==> UpperAll(a + b)[i] == (UpperAll(a) + UpperAll(b))[i];
  }

  /** The upper-case pattern `pat` occurs at position `i` of `s`, ignoring case. */
  predicate MatchesAt(s: string, i: nat, pat: string) {
    i + |pat| <= |s| && forall k :: 0 <= k < |pat| ==> Upper(s[i + k]) == pat[k]
  }

  /** `/pat/i.test(s)` for a literal upper-case pattern. */
  predicate ContainsCI(s: string, pat: string) {
    exists i | 0 <= i <= |s| - |pat| :: MatchesAt(s, i, pat)
  }

  /** An occurrence inside a slice is an occurrence in the whole string. */
  lemma ContainsCISlice(s: string, i: nat, j: nat, pat: string)
    requires i <= j <= |s| && ContainsCI(s[i..j], pat)
    ensures ContainsCI(s, pat)
  {
    var k :| 0 <= k <= |s[i..j]| - |pat| && MatchesAt(s[i..j], k, pat);
    assert MatchesAt(s, i + k, pat) by {
      forall m | 0 <= m < |pat| ensures Upper(s[i + k + m]) == pat[m] {
        assert s[i..j][k + m] == s[i + k + m];
      }
    }
  }

  /** A string without letters contains no letter pattern. */
  lemma NoLettersNoMatch(s: string, pat: string)
    requires pat != [] && 'A' <= pat[0] <= 'Z'
    requires forall k :: 0 <= k < |s| ==> !('a' <= s[k] <= 'z') && !('A' <= s[k] <= 'Z')
    ensures !ContainsCI(s, pat)
  {
  }

  predicate IsHexDigit(c: char) { IsDigit(c) || 'a' <= c <= 'f' || 'A' <= c <= 'F' }

  function HexValue(c: char): (v: nat)
    requires IsHexDigit(c)
    ensures v < 16
  {
    if IsDigit(c) then DigitValue(c)
    else if 'a' <= c <= 'f' then c as int - 'a' as int + 10
    else c as int - 'A' as int + 10
  }

  /** Lower-case hexadecimal digit, as JSON.stringify writes in `\u00xx`. */
  function HexDigitChar(v: nat): (c: char)
    requires v < 16
    ensures IsHexDigit(c) && HexValue(c) == v
  {
    if v < 10 then ('0' as int + v) as char else ('a' as int + v - 10) as char
  }

  /** Trimming cannot create an occurrence of a pattern. */
  lemma TrimKeepsAbsence(s: string, pat: string)
    requires !ContainsCI(s, pat)
    ensures !ContainsCI(Trim(s), pat)
  {
    if ContainsCI(Trim(s), pat) {
      var i, j :| 0 <= i <= j <= |s| && Trim(s) == s[i..j];
      ContainsCISlice(s, i, j, pat);
    }
  }

  /** A trimmed non-empty string is its own trim. */
  lemma TrimOfTrimmed(s: string)
    requires s != [] && !IsSpace(s[0]) && !IsSpace(s[|s| - 1])
    ensures Trim(s) == s
  {
  }

  predicate EndsWith(s: string, suffix: string) {
    |suffix| <= |s| && s[|s| - |suffix|..] == suffix
  }

  /** `pat` occurs in `s` starting at position `i`. */
  predicate OccursAt(s: string, i: nat, pat: string) {
    i + |pat| <= |s| && s[i..i + |pat|] == pat
  }

  /** `s.includes(pat)`. */
  ghost predicate Includes(s: string, pat: string) {
    exists i: nat :: OccursAt(s, i, pat)
  }

  /** `s.indexOf(pat, from)`, with None for -1: the first occurrence at or after `from`. */
  function IndexOf(s: string, pat: string, from: nat): (r: Option<nat>)
    ensures r.Some? ==> from <= r.value && OccursAt(s, r.value, pat)
    ensures r.Some? ==> forall j: nat :: from <= j < r.value ==> !OccursAt(s, j, pat)
    ensures r.None? ==> forall j: nat :: from <= j ==> !OccursAt(s, j, pat)
    decreases |s| - from
  {
    if from + |pat| > |s| then None
    else if s[from..from + |pat|] == pat then Some(from)
    else IndexOf(s, pat, from + 1)
  }

  /** `s.replace(pat, "")` for a string pattern: only the first occurrence is removed. */
  function RemoveFirst(s: string, pat: string): (r: string)
    ensures IndexOf(s, pat, 0).None? ==> r == s
    ensures IndexOf(s, pat, 0).Some? ==>
      var i := IndexOf(s, pat, 0).value; |r| + |pat| == |s| && s == r[..i] + pat + r[i..]
  {
    match IndexOf(s, pat, 0)
    case None => s
    case Some(i) => s[..i] + s[i + |pat|..]
  }

  /** ASCII lower case, the part of `toLowerCase` the model keeps. */
  function Lower(c: char): char {
    if 'A' <= c <= 'Z' then (c as int + 32) as char else c
  }

  /** `s.toLowerCase()`. */
  function LowerAll(s: string): (r: string)
    ensures |r| == |s| && forall i :: 0 <= i < |s| ==> r[i] == Lower(s[i])
  {
    seq(|s|, i requires 0 <= i < |s| => Lower(s[i]))
  }

  /** Helper: dropping the head of a sequence built from it. */
  lemma DropHead<T>(x: T, s: seq<T>)
    ensures ([x] + s)[1..] == s
  {
  }

  /** Helper: a non-empty sequence is its head followed by its tail. */
  lemma HeadTail<T>(s: seq<T>)
    requires s != []
    ensures [s[0]] + s[1..] == s
  {
  }

  /** Helper: concatenation regrouped. */
  lemma Regroup<T>(a: seq<T>, b: seq<T>, c: seq<T>)
    ensures a + b + c == a + (b + c)
  {
  }
}
