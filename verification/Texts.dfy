/** The standard library's trimming, decimal numbers and dotted quads, as far as the server uses them. */
module Texts {
  import opened Wrappers
  import opened Bytes

  // ---- White space -------------------------------------------------------------------------

  /** The White_Space property of Unicode. */
  predicate IsWhitespace(c: char) {
    var n := c as int;
    || 0x09 <= n <= 0x0D || n == 0x20 || n == 0x85 || n == 0xA0 || n == 0x1680
    || 0x2000 <= n <= 0x200A || n == 0x2028 || n == 0x2029 || n == 0x202F || n == 0x205F || n == 0x3000
  }

  lemma WhiteSpaceCharacters(c: char)
    ensures IsWhitespace(c) <==>
            c as int in {9, 10, 11, 12, 13, 32, 133, 160, 5760, 8192, 8193, 8194, 8195, 8196, 8197, 8198, 8199, 8200,
                         8201, 8202, 8232, 8233, 8239, 8287, 12288}
  {
  }

  function TrimStart(s: string): string {
    if s != [] && IsWhitespace(s[0]) then TrimStart(s[1..]) else s
  }

  function TrimEnd(s: string): string {
    if s != [] && IsWhitespace(s[|s| - 1]) then TrimEnd(s[..|s| - 1]) else s
  }

  function Trim(s: string): string {
    TrimEnd(TrimStart(s))
  }

  /** Nothing to trim at either end. */
  predicate Trimmed(s: string) {
    s == [] || (!IsWhitespace(s[0]) && !IsWhitespace(s[|s| - 1]))
  }

  lemma {:induction false} TrimStartEnds(s: string)
    ensures var t := TrimStart(s); t == [] || !IsWhitespace(t[0])
  {
    if s != [] && IsWhitespace(s[0]) {
      TrimStartEnds(s[1..]);
    }
  }

  lemma {:induction false} TrimEndEnds(s: string)
    ensures var t := TrimEnd(s); t <= s && (t == [] || !IsWhitespace(t[|t| - 1]))
  {
    if s != [] && IsWhitespace(s[|s| - 1]) {
      TrimEndEnds(s[..|s| - 1]);
    }
  }

  lemma TrimTrims(s: string)
    ensures Trimmed(Trim(s))
    ensures Trimmed(s) ==> Trim(s) == s
    ensures Trim(Trim(s)) == Trim(s)
  {
    TrimStartEnds(s);
    TrimEndEnds(TrimStart(s));
  }

  predicate Blank(s: string) {
    forall i | 0 <= i < |s| :: IsWhitespace(s[i])
  }

  lemma {:induction false} TrimStartDropsBlank(s: string) returns (n: nat)
    ensures n <= |s| && TrimStart(s) == s[n..] && Blank(s[..n])
  {
    if s != [] && IsWhitespace(s[0]) {
      n := TrimStartDropsBlank(s[1..]);
      assert s[..n + 1] == [s[0]] + s[1..][..n];
      n := n + 1;
    } else {
      n := 0;
    }
  }

  lemma {:induction false} TrimEndDropsBlank(s: string) returns (n: nat)
    ensures n <= |s| && TrimEnd(s) == s[..n] && Blank(s[n..])
  {
    n := |s|;
    if s != [] && IsWhitespace(s[|s| - 1]) {
      n := TrimEndDropsBlank(s[..|s| - 1]);
      assert s[n..] == s[..|s| - 1][n..] + [s[|s| - 1]];
    }
  }

  /** Trimming takes away white space at the two ends and nothing else. */
  lemma TrimDropsOnlyBlank(s: string) returns (head: string, tail: string)
    ensures s == head + Trim(s) + tail && Blank(head) && Blank(tail)
  {
    var i := TrimStartDropsBlank(s);
    var j := TrimEndDropsBlank(TrimStart(s));
    head, tail := s[..i], s[i..][j..];
  }

  // ---- Decimal numbers ---------------------------------------------------------------------

  predicate IsDigit(c: char) {
    '0' <= c <= '9'
  }

  predicate AllDigits(s: string) {
    forall i | 0 <= i < |s| :: IsDigit(s[i])
  }

  function Digit(n: nat): (c: char)
    requires n < 10
    ensures IsDigit(c) && c as int - '0' as int == n
  {
    "0123456789"[n]
  }

  function Print(n: nat): string {
    if n < 10 then [Digit(n)] else Print(n / 10) + [Digit(n % 10)]
  }

  function DigitsValue(s: string): nat
    requires AllDigits(s)
  {
    if s == [] then 0
    else 10 * DigitsValue(s[..|s| - 1]) + (s[|s| - 1] as int - '0' as int)
  }

  /** Parsing an unsigned integer: an optional plus sign, then at least one digit, within `max`. */
  function ParseUnsigned(s: string, max: nat): (r: Option<nat>)
    ensures r.Some? ==> r.value <= max
  {
    var digits := if |s| > 1 && s[0] == '+' then s[1..] else s;
    if digits == [] || !AllDigits(digits) || DigitsValue(digits) > max then None
    else Some(DigitsValue(digits))
  }

  /** A text is read as a number exactly if it is a nonempty row of digits, perhaps behind one plus sign,
      whose value is within the bound; the value is then that of the digits. */
  lemma ParseAcceptsExactly(s: string, max: nat)
    ensures s != [] && AllDigits(s) ==>
              ParseUnsigned(s, max) == if DigitsValue(s) <= max then Some(DigitsValue(s)) else None
    ensures |s| > 1 && s[0] == '+' && AllDigits(s[1..]) ==>
              ParseUnsigned(s, max) == if DigitsValue(s[1..]) <= max then Some(DigitsValue(s[1..])) else None
    ensures ParseUnsigned(s, max).Some? ==>
              (s != [] && AllDigits(s)) || (|s| > 1 && s[0] == '+' && AllDigits(s[1..]))
  {
    assert |s| > 1 && s[0] == '+' && s[1..] != [] ==> !AllDigits(s);
  }

  /** At least one digit, and no leading zero before another digit. */
  predicate Canonical(s: string) {
    s != [] && AllDigits(s) && (|s| > 1 ==> s[0] != '0')
  }

  lemma {:induction false} PrintIsDecimal(n: nat)
    ensures Canonical(Print(n)) && DigitsValue(Print(n)) == n
    ensures n > 0 ==> Print(n)[0] != '0'
  {
    if n < 10 {
      assert DigitsValue([Digit(n)]) == 10 * DigitsValue([]) + n;
    } else {
      PrintIsDecimal(n / 10);
      assert Print(n)[..|Print(n)| - 1] == Print(n / 10);
    }
  }

  lemma {:induction false} LeadingDigitCounts(s: string)
    requires s != [] && AllDigits(s) && s[0] != '0'
    ensures DigitsValue(s) > 0
  {
    if |s| > 1 {
      LeadingDigitCounts(s[..|s| - 1]);
    }
  }

  /** A canonical numeral is the printed form of its value. */
  lemma {:induction false} CanonicalIsPrinted(s: string)
    requires Canonical(s)
    ensures Print(DigitsValue(s)) == s
  {
    var front, last := s[..|s| - 1], s[|s| - 1];
    var d := last as int - '0' as int;
    assert DigitsValue(s) == 10 * DigitsValue(front) + d;
    assert [Digit(d)] == [last];
    if |s| > 1 {
      LeadingDigitCounts(front);
      CanonicalIsPrinted(front);
      assert DigitsValue(s) / 10 == DigitsValue(front) && DigitsValue(s) % 10 == d;
      assert s == front + [last];
    }
  }

  /** Printing is undone by parsing within the bound; printed numbers need no trimming. */
  lemma ParseUndoesPrint(n: nat, max: nat)
    ensures ParseUnsigned(Print(n), max) == if n <= max then Some(n) else None
    ensures Trim(Print(n)) == Print(n)
  {
    PrintIsDecimal(n);
    TrimTrims(Print(n));
  }

  lemma {:induction false} LeadingZeroIsNothing(s: string)
    requires AllDigits(s)
    ensures AllDigits("0" + s) && DigitsValue("0" + s) == DigitsValue(s)
  {
    var t := "0" + s;
    if s == [] {
      assert DigitsValue(t) == 10 * DigitsValue([]);
    } else {
      LeadingZeroIsNothing(s[..|s| - 1]);
      assert t[..|t| - 1] == "0" + s[..|s| - 1];
    }
  }

  /** A plus sign or a leading zero before any numeral does not change what is read, nor whether it is
      refused as too large. */
  lemma ParseIgnoresPlusAndZero(s: string, max: nat)
    requires s != [] && AllDigits(s)
    ensures ParseUnsigned("+" + s, max) == ParseUnsigned(s, max)
    ensures ParseUnsigned("0" + s, max) == ParseUnsigned(s, max)
  {
    LeadingZeroIsNothing(s);
    assert ("+" + s)[1..] == s;
  }

  // ---- Dotted quads ------------------------------------------------------------------------

  /** One to three digits, no leading zero, at most 255. */
  function ParseOctet(s: string): Option<byte> {
    if !(1 <= |s| <= 3) || !AllDigits(s) || (|s| > 1 && s[0] == '0') || DigitsValue(s) > 255 then None
    else Some(DigitsValue(s))
  }

  /** An octet has exactly one accepted spelling, its printed form. */
  lemma OctetHasOneSpelling(b: byte, s: string)
    ensures ParseOctet(s) == Some(b) <==> s == Print(b)
  {
    PrintIsDecimal(b);
    assert b >= 10 ==> |Print(b)| == |Print(b / 10)| + 1;
    assert b >= 100 ==> |Print(b / 10)| == |Print(b / 10 / 10)| + 1 && b / 10 / 10 < 10;
    if ParseOctet(s) == Some(b) {
      CanonicalIsPrinted(s);
    }
  }

  function IndexOf(s: string, c: char): (i: nat)
    ensures i <= |s| && (i < |s| ==> s[i] == c) && forall k | 0 <= k < i :: s[k] != c
  {
    if s == [] || s[0] == c then 0 else 1 + IndexOf(s[1..], c)
  }

  function ParseOctets(s: string, count: nat): Option<seq<byte>> {
    if count <= 1 then
      match ParseOctet(s) { case Some(b) => Some([b]) case None => None }
    else
      var i := IndexOf(s, '.');
      if i == |s| then None
      else match (ParseOctet(s[..i]), ParseOctets(s[i + 1..], count - 1))
        case (Some(b), Some(rest)) => Some([b] + rest)
        case _ => None
  }

  function PrintOctets(octets: seq<byte>): string {
    if octets == [] then []
    else if |octets| == 1 then Print(octets[0])
    else Print(octets[0]) + "." + PrintOctets(octets[1..])
  }

  function ParseIpv4(s: string): Option<seq<byte>> {
    ParseOctets(s, 4)
  }

  /** An accepted dotted quad is already in its printed form. */
  lemma {:induction false} OctetsAreCanonical(s: string, count: nat)
    requires count >= 1 && ParseOctets(s, count).Some?
    ensures |ParseOctets(s, count).value| == count && PrintOctets(ParseOctets(s, count).value) == s
  {
    hide ParseOctet, Print, IndexOf;
    if count == 1 {
      OctetHasOneSpelling(ParseOctet(s).value, s);
    } else {
      var i := IndexOf(s, '.');
      OctetHasOneSpelling(ParseOctet(s[..i]).value, s[..i]);
      OctetsAreCanonical(s[i + 1..], count - 1);
      assert s == s[..i] + "." + s[i + 1..];
      var octets := ParseOctets(s, count).value;
      assert octets[1..] == ParseOctets(s[i + 1..], count - 1).value;
    }
  }

  lemma DotAfterHead(head: string, tail: string)
    requires AllDigits(head)
    ensures var s := head + "." + tail;
            IndexOf(s, '.') == |head| < |s| && s[..|head|] == head && s[|head| + 1..] == tail
  {
    var s := head + "." + tail;
    assert s[|head|] == '.';
    assert forall k | 0 <= k < |head| :: s[k] == head[k];
  }

  lemma ParsesHead(head: string, tail: string, b: byte, rest: seq<byte>, count: nat)
    requires AllDigits(head) && ParseOctet(head) == Some(b)
    requires count > 1 && ParseOctets(tail, count - 1) == Some(rest)
    ensures ParseOctets(head + "." + tail, count) == Some([b] + rest)
  {
    DotAfterHead(head, tail);
  }

  /** The printed form of any four octets is accepted and read back. */
  lemma {:induction false} OctetsPrint(octets: seq<byte>)
    requires octets != []
    ensures ParseOctets(PrintOctets(octets), |octets|) == Some(octets)
  {
    hide ParseOctet, Print, IndexOf, Canonical;
    OctetHasOneSpelling(octets[0], Print(octets[0]));
    if |octets| == 1 {
      assert octets == [octets[0]];
    } else {
      OctetsPrint(octets[1..]);
      PrintIsDecimal(octets[0]);
      ParsesHead(Print(octets[0]), PrintOctets(octets[1..]), octets[0], octets[1..], |octets|);
      assert octets == [octets[0]] + octets[1..];
    }
  }
}
