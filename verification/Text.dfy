/** Octet strings, and the few library routines over them that the server's parsers lean on. */
module Text {
  /** One byte of a Go string. */
  type Octet = c: char | c as int < 256

  type Octets = seq<Octet>

  const MAX_INT64: int := 0x7fff_ffff_ffff_ffff
  const MIN_INT64: int := -0x8000_0000_0000_0000

  /** What Go's int64 arithmetic leaves of an unbounded result. */
  function Wrap64(n: int): (r: int)
    ensures MIN_INT64 <= r <= MAX_INT64
    ensures MIN_INT64 <= n <= MAX_INT64 ==> r == n
    ensures (n - r) % 0x1_0000_0000_0000_0000 == 0
  {
    var m := n % 0x1_0000_0000_0000_0000;
    if m <= MAX_INT64 then m else m - 0x1_0000_0000_0000_0000
  }

  function Min(a: nat, b: nat): nat
  {
    if a < b then a else b
  }

  // ---- splitting ------------------------------------------------------------------------------

  /** The fields of [c] + s, given the fields of s. */
  function Grow(c: Octet, fields: seq<Octets>, sep: Octet): (grown: seq<Octets>)
    requires |fields| >= 1
    ensures |grown| >= 1
  {
    if c == sep then [[]] + fields else [[c] + fields[0]] + fields[1..]
  }

  /** strings.Split on a one-octet separator. */
  function Split(s: Octets, sep: Octet): (fields: seq<Octets>)
    ensures |fields| >= 1
  {
    if s == [] then [[]] else Grow(s[0], Split(s[1..], sep), sep)
  }

  lemma {:induction false} SplitIsPlain(s: Octets, sep: Octet)
    ensures forall i :: 0 <= i < |Split(s, sep)| ==> sep !in Split(s, sep)[i]
  {
    if s != [] {
      SplitIsPlain(s[1..], sep);
    }
  }

  /** strings.Join with a one-octet separator. */
  function Join(fields: seq<Octets>, sep: Octet): Octets
  {
    if |fields| == 0 then []
    else if |fields| == 1 then fields[0]
    else fields[0] + [sep] + Join(fields[1..], sep)
  }

  lemma {:induction false} SplitPlain(s: Octets, sep: Octet)
    requires sep !in s
    ensures Split(s, sep) == [s]
  {
    if s != [] {
      SplitPlain(s[1..], sep);
      assert [s[0]] + s[1..] == s;
    }
  }

  lemma GrowConcat(c: Octet, a: seq<Octets>, b: seq<Octets>, sep: Octet)
    requires |a| >= 1
    ensures Grow(c, a + b, sep) == Grow(c, a, sep) + b
  {
  }

  /** Splitting is a homomorphism: a separator between two texts separates their fields. */
  lemma {:induction false} SplitConcat(a: Octets, b: Octets, sep: Octet)
    ensures Split(a + [sep] + b, sep) == Split(a, sep) + Split(b, sep)
  {
    var whole := a + [sep] + b;
    if a == [] {
      assert whole[1..] == b;
    } else {
      SplitConcat(a[1..], b, sep);
      assert whole[1..] == a[1..] + [sep] + b;
      GrowConcat(a[0], Split(a[1..], sep), Split(b, sep), sep);
    }
  }

  lemma JoinGrow(c: Octet, fields: seq<Octets>, sep: Octet)
    requires |fields| >= 1
    ensures Join(Grow(c, fields, sep), sep) == [c] + Join(fields, sep)
  {
  }

  /** Joining the fields of a split gives the text back. */
  lemma {:induction false} JoinSplit(s: Octets, sep: Octet)
    ensures Join(Split(s, sep), sep) == s
  {
    if s != [] {
      JoinSplit(s[1..], sep);
      JoinGrow(s[0], Split(s[1..], sep), sep);
      assert [s[0]] + s[1..] == s;
    }
  }

  // ---- trimming -------------------------------------------------------------------------------

  /** An ASCII letter in lower case, and any other octet as it is. */
  function Lower(c: Octet): Octet
  {
    if 'A' <= c <= 'Z' then (c as int + 32) as char else c
  }

  predicate IsAsciiSpace(c: Octet)
  {
    c == ' ' || 9 <= c as int <= 13
  }

  /** Whether an octet string is the UTF-8 form of one rune with Unicode's White_Space property. */
  predicate IsSpaceRune(s: Octets)
  {
    if |s| == 1 then IsAsciiSpace(s[0])
    else if |s| == 2 then s[0] as int == 0xC2 && (s[1] as int == 0x85 || s[1] as int == 0xA0)
    else if |s| == 3 then IsWideSpace(s[0] as int, s[1] as int, s[2] as int)
    else false
  }

  predicate IsWideSpace(a: int, b: int, c: int)
  {
    || (a == 0xE1 && b == 0x9A && c == 0x80)
    || (a == 0xE2 && b == 0x80 && (0x80 <= c <= 0x8A || c == 0xA8 || c == 0xA9 || c == 0xAF))
    || (a == 0xE2 && b == 0x81 && c == 0x9F)
    || (a == 0xE3 && b == 0x80 && c == 0x80)
  }

  predicate Printable(c: Octet)
  {
    '!' <= c <= '~'
  }

  lemma SpaceRuneIsUnprintable(rune: Octets)
    requires IsSpaceRune(rune)
    ensures forall i :: 0 <= i < |rune| ==> !Printable(rune[i])
  {
  }

  function LeadingSpace(s: Octets): (n: nat)
    ensures n <= |s| && (n > 0 ==> IsSpaceRune(s[..n]))
  {
    if |s| >= 1 && IsSpaceRune(s[..1]) then 1
    else if |s| >= 2 && IsSpaceRune(s[..2]) then 2
    else if |s| >= 3 && IsSpaceRune(s[..3]) then 3
    else 0
  }

  function TrailingSpace(s: Octets): (n: nat)
    ensures n <= |s| && (n > 0 ==> IsSpaceRune(s[|s| - n..]))
  {
    if |s| >= 1 && IsSpaceRune(s[|s| - 1..]) then 1
    else if |s| >= 2 && IsSpaceRune(s[|s| - 2..]) then 2
    else if |s| >= 3 && IsSpaceRune(s[|s| - 3..]) then 3
    else 0
  }

  /** How many octets of white space a text starts with; none of them is printable. */
  function LeftMargin(s: Octets): (n: nat)
    ensures n <= |s| && forall i :: 0 <= i < n ==> !Printable(s[i])
    decreases |s|
  {
    var n := LeadingSpace(s);
    if n == 0 then 0 else SpaceRuneIsUnprintable(s[..n]); n + LeftMargin(s[n..])
  }

  /** How many octets of white space a text ends with. */
  function RightMargin(s: Octets): (n: nat)
    ensures n <= |s| && forall i :: |s| - n <= i < |s| ==> !Printable(s[i])
    decreases |s|
  {
    var n := TrailingSpace(s);
    if n == 0 then 0 else SpaceRuneIsUnprintable(s[|s| - n..]); n + RightMargin(s[..|s| - n])
  }

  function TrimLeft(s: Octets): Octets
  {
    s[LeftMargin(s)..]
  }

  function TrimRight(s: Octets): Octets
  {
    s[..|s| - RightMargin(s)]
  }

  /** strings.TrimSpace. */
  function TrimSpace(s: Octets): Octets
  {
    TrimRight(TrimLeft(s))
  }

  lemma CutTwice(s: Octets, m: nat, n: nat)
    requires m <= |s| && n <= |s| - m
    ensures s == s[..m] + s[m..][..|s| - m - n] + s[m..][|s| - m - n..]
  {
  }

  /** Trimming removes white space only, so no printable octet is ever part of what it cuts off. */
  lemma TrimCuts(s: Octets) returns (before: Octets, after: Octets)
    ensures s == before + TrimSpace(s) + after
    ensures forall c :: c in before || c in after ==> !Printable(c)
  {
    hide LeftMargin, RightMargin;
    var m, n := LeftMargin(s), RightMargin(TrimLeft(s));
    before, after := s[..m], s[m..][|s| - m - n..];
    CutTwice(s, m, n);
  }

  /** A text that starts and ends in printable ASCII is its own trimming. */
  lemma TrimKeeps(s: Octets)
    requires |s| > 0 && Printable(s[0]) && Printable(s[|s| - 1])
    ensures TrimSpace(s) == s
  {
  }

  // ---- runes ----------------------------------------------------------------------------------

  predicate IsContinuation(s: Octets, i: nat)
  {
    i < |s| && 0x80 <= s[i] as int <= 0xBF
  }

  /** How many octets the rune at the start of a text takes; an octet that starts no UTF-8 sequence is one by itself. */
  function RuneLength(s: Octets): (n: nat)
    requires s != []
    ensures 1 <= n <= |s|
  {
    var a, b := s[0] as int, if |s| > 1 then s[1] as int else 0;
    if 0xC2 <= a <= 0xDF && IsContinuation(s, 1) then 2
    else if 0xE0 <= a <= 0xEF && IsContinuation(s, 1) && IsContinuation(s, 2)
            && (a == 0xE0 ==> b >= 0xA0) && (a == 0xED ==> b < 0xA0) then 3
    else if 0xF0 <= a <= 0xF4 && IsContinuation(s, 1) && IsContinuation(s, 2) && IsContinuation(s, 3)
            && (a == 0xF0 ==> b >= 0x90) && (a == 0xF4 ==> b < 0x90) then 4
    else 1
  }

  // ---- decimal numbers ------------------------------------------------------------------------

  predicate IsDigit(c: Octet)
  {
    '0' <= c <= '9'
  }

  predicate AllDigits(s: Octets)
  {
    forall i :: 0 <= i < |s| ==> IsDigit(s[i])
  }

  /** The number a run of decimal digits stands for, over unbounded naturals. */
  function Value(s: Octets): nat
    requires AllDigits(s)
  {
    if s == [] then 0 else Value(s[..|s| - 1]) * 10 + (s[|s| - 1] as int - '0' as int)
  }

  /** strconv.FormatInt in base ten, for numbers from zero up. */
  function Decimal(n: nat): (s: Octets)
    ensures |s| >= 1 && AllDigits(s)
  {
    if n < 10 then [(n + '0' as int) as char] else Decimal(n / 10) + [(n % 10 + '0' as int) as char]
  }

  lemma {:induction false} ValueOfDecimal(n: nat)
    ensures Value(Decimal(n)) == n
  {
    if n >= 10 {
      ValueOfDecimal(n / 10);
      var s := Decimal(n);
      assert s[..|s| - 1] == Decimal(n / 10);
    }
  }

  datatype Option<+T> = None | Some(value: T)

  /** The number that digits stand for, with or without a sign before them. */
  function Signed(s: Octets): Option<int>
  {
    var digits := if s != [] && (s[0] == '-' || s[0] == '+') then s[1..] else s;
    if digits == [] || !AllDigits(digits) then None
    else Some(if s[0] == '-' then 0 - Value(digits) else Value(digits))
  }

  /** strconv.ParseInt in base ten: an error for what is no number or does not fit an int64. */
  function ParseInt(s: Octets): (n: Option<int>)
    ensures n.Some? ==> MIN_INT64 <= n.value <= MAX_INT64
  {
    var n := Signed(s);
    if n.Some? && MIN_INT64 <= n.value <= MAX_INT64 then n else None
  }

  /** strconv.ParseInt on a run of digits: an error when the number does not fit an int64. */
  function ParseDigits(s: Octets): Option<nat>
    requires AllDigits(s)
  {
    if |s| > 0 && Value(s) <= MAX_INT64 then Some(Value(s)) else None
  }
}
