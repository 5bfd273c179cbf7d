/** The Range header of a download, and what RFC 9110 says it asks for. */
module ByteRange {
  import opened Text

  /** A byte span, inclusive of both ends. */
  datatype Span = Span(from: nat, to: nat)
  {
    function Length(): int { to - from + 1 }
  }

  datatype Verdict = Whole | Satisfiable(span: Span) | Unsatisfiable

  // ---- the header grammar ---------------------------------------------------------------------

  /** The octets \s stands for in Go's regular expressions. */
  predicate IsBlank(c: Octet)
  {
    c == ' ' || c as int == 9 || c as int == 10 || c as int == 12 || c as int == 13
  }

  function BlankRun(s: Octets): (n: nat)
    ensures n <= |s| && (n < |s| ==> !IsBlank(s[n])) && forall i :: 0 <= i < n ==> IsBlank(s[i])
  {
    if s != [] && IsBlank(s[0]) then 1 + BlankRun(s[1..]) else 0
  }

  function DigitRun(s: Octets): (n: nat)
    ensures n <= |s| && (n < |s| ==> !IsDigit(s[n])) && AllDigits(s[..n])
  {
    if s != [] && IsDigit(s[0]) then
      var n := DigitRun(s[1..]);
      assert forall i :: 1 <= i < n + 1 ==> s[i] == s[1..][..n][i - 1];
      1 + n
    else 0
  }

  /**
   * How many octets the word "bytes" takes at the start of a text, or zero. The match ignores case, and
   * case folding also takes the two octets of the long s for an s.
   */
  function UnitLength(s: Octets): (n: nat)
    ensures n <= |s|
  {
    if |s| >= 5 && Lower(s[0]) == 'b' && Lower(s[1]) == 'y' && Lower(s[2]) == 't' && Lower(s[3]) == 'e' then
      if Lower(s[4]) == 's' then 5
      else if |s| >= 6 && s[4] as int == 0xC5 && s[5] as int == 0xBF then 6
      else 0
    else 0
  }

  function AfterBlanks(s: Octets): Octets
  {
    s[BlankRun(s)..]
  }

  /** What (.+)$ captures after a greedy run of white space, which gives back one octet if it has to. */
  function Capture(rest: Octets): Option<Octets>
    requires rest != []
  {
    var j := if BlankRun(rest) < |rest| then BlankRun(rest) else |rest| - 1;
    if '\n' in rest[j..] then None else Some(rest[j..])
  }

  /** The text a Range header's byte unit is followed by, or None when the header is not in bytes. */
  function Captured(header: Octets): Option<Octets>
  {
    var s := AfterBlanks(header);
    var n := UnitLength(s);
    if n == 0 then None
    else
      var t := AfterBlanks(s[n..]);
      if t == [] || t[0] != '=' || t[1..] == [] then None else Capture(t[1..])
  }

  /** parseByteRange. */
  function ParseByteRange(header: Octets, size: int): (verdict: Verdict)
    ensures verdict.Satisfiable? ==> verdict.span.from <= verdict.span.to < size
  {
    if header == [] || size <= 0 then Whole
    else
      var captured := Captured(header);
      if captured.None? then Whole
      else
        var spec := TrimSpace(captured.value);
        if ',' in spec then Whole else ParseSpec(spec, size)
  }

  function ParseSpec(spec: Octets, size: nat): (verdict: Verdict)
    requires size > 0
    ensures verdict.Satisfiable? ==> verdict.span.from <= verdict.span.to < size
    ensures !verdict.Whole?
  {
    var n := DigitRun(spec);
    if n == |spec| || spec[n] != '-' || !AllDigits(spec[n + 1..]) then Unsatisfiable
    else Resolve(spec[..n], spec[n + 1..], size)
  }

  /** The span two runs of digits around a hyphen ask for. */
  function Resolve(rawFirst: Octets, rawLast: Octets, size: nat): (verdict: Verdict)
    requires AllDigits(rawFirst) && AllDigits(rawLast) && size > 0
    ensures verdict.Satisfiable? ==> verdict.span.from <= verdict.span.to < size
    ensures !verdict.Whole?
  {
    if rawFirst == [] && rawLast == [] then Unsatisfiable
    else if rawFirst == [] then
      var length := ParseDigits(rawLast);
      if length.None? || length.value <= 0 then Unsatisfiable
      else Satisfiable(Span(if size - length.value < 0 then 0 else size - length.value, size - 1))
    else
      var from := ParseDigits(rawFirst);
      if from.None? || from.value >= size then Unsatisfiable
      else
        var last := ParseDigits(rawLast);
        var to := if rawLast != [] && last.Some? && last.value < size - 1 then last.value else size - 1;
        if to < from.value then Unsatisfiable else Satisfiable(Span(from.value, to))
  }

  // ---- the standard ---------------------------------------------------------------------------

  /** A range-spec of section 14.1.1 of RFC 9110. */
  datatype RangeSpec = IntRange(first: nat, last: Option<nat>) | Suffix(length: nat)
  {
    /** An int-range whose last-pos lies before its first-pos is invalid. */
    predicate Valid()
    {
      IntRange? && last.Some? ==> first <= last.value
    }

    /** Section 14.1.2 of RFC 9110, over unbounded numbers, for a representation that is not empty. */
    function Answer(size: nat): Verdict
      requires size > 0
    {
      match this
      case IntRange(first, last) =>
        if first >= size then Unsatisfiable
        else Satisfiable(Span(first, if last.None? || last.value >= size then size - 1 else last.value))
      case Suffix(length) =>
        if length == 0 then Unsatisfiable
        else Satisfiable(Span(if length >= size then 0 else size - length, size - 1))
    }
  }

  /** The range-spec two runs of digits around a hyphen spell. */
  function SpecOf(first: Octets, last: Octets): RangeSpec
    requires AllDigits(first) && AllDigits(last)
  {
    if first == [] then Suffix(Value(last))
    else IntRange(Value(first), if last == [] then None else Some(Value(last)))
  }

  ghost predicate Blank(s: Octets)
  {
    forall i :: 0 <= i < |s| ==> IsBlank(s[i])
  }

  ghost predicate IsUnit(u: Octets)
  {
    |u| == 5 && forall i :: 0 <= i < 5 ==> Lower(u[i]) == "bytes"[i]
  }

  lemma BlanksAreSkipped(blank: Octets, rest: Octets)
    requires Blank(blank) && rest != [] && !IsBlank(rest[0])
    ensures BlankRun(blank + rest) == |blank| && AfterBlanks(blank + rest) == rest
  {
    var s := blank + rest;
    assert forall i :: 0 <= i < |blank| ==> s[i] == blank[i];
    assert s[|blank|] == rest[0];
  }

  lemma SpecIsCaptured(pad: Octets, spec: Octets)
    requires Blank(pad) && spec != [] && !IsBlank(spec[0]) && '\n' !in spec
    ensures Capture(pad + spec) == Some(spec)
  {
    hide BlankRun;
    BlanksAreSkipped(pad, spec);
    assert (pad + spec)[|pad|..] == spec;
  }

  /** White space before the unit and around the equals sign is skipped, and the unit is read in any case. */
  lemma HeaderIsRead(lead: Octets, unit: Octets, gap: Octets, pad: Octets, spec: Octets)
    requires Blank(lead) && Blank(gap) && Blank(pad) && IsUnit(unit)
    requires spec != [] && !IsBlank(spec[0]) && '\n' !in spec
    ensures Captured(lead + (unit + (gap + (['='] + (pad + spec))))) == Some(spec)
  {
    hide AfterBlanks, Capture;
    var rest := pad + spec;
    var tail := ['='] + rest;
    var body := unit + (gap + tail);
    UnitIsRead(unit, gap + tail);
    BlanksAreSkipped(lead, body);
    BlanksAreSkipped(gap, tail);
    assert tail[1..] == rest;
    SpecIsCaptured(pad, spec);
  }

  lemma UnitIsRead(unit: Octets, rest: Octets)
    requires IsUnit(unit)
    ensures var s := unit + rest; !IsBlank(s[0]) && UnitLength(s) == 5 && s[5..] == rest
  {
  }

  lemma SpecIsRead(first: Octets, last: Octets, size: nat)
    requires AllDigits(first) && AllDigits(last) && size > 0
    ensures var spec := first + ['-'] + last;
            TrimSpace(spec) == spec && ',' !in spec && '\n' !in spec
              && ParseSpec(spec, size) == Resolve(first, last, size)
  {
    hide TrimSpace, DigitRun, Resolve;
    var spec := first + ['-'] + last;
    TrimKeeps(spec);
    assert forall i :: 0 <= i < |first| ==> spec[i] == first[i];
    assert spec[|first|] == '-' && !IsDigit('-');
    assert forall n :: |first| < n <= |spec| ==> spec[..n][|first|] == '-';
    assert DigitRun(spec) == |first|;
    assert spec[..|first|] == first && spec[|first| + 1..] == last;
  }

  /** A header is answered by what its two runs of digits resolve to. */
  lemma HeaderResolves(lead: Octets, unit: Octets, gap: Octets, pad: Octets, first: Octets, last: Octets, size: nat)
    requires Blank(lead) && Blank(gap) && Blank(pad) && IsUnit(unit) && size > 0
    requires AllDigits(first) && AllDigits(last)
    ensures ParseByteRange(lead + (unit + (gap + (['='] + (pad + (first + ['-'] + last))))), size) ==
        Resolve(first, last, size)
  {
    hide ParseByteRange, Captured, TrimSpace, ParseSpec, Resolve;
    var spec := first + ['-'] + last;
    SpecIsRead(first, last, size);
    HeaderIsRead(lead, unit, gap, pad, spec);
    SpecAnswers(lead + (unit + (gap + (['='] + (pad + spec)))), spec, size);
  }

  lemma SpecAnswers(header: Octets, spec: Octets, size: nat)
    requires size > 0 && Captured(header) == Some(spec) && TrimSpace(spec) == spec && ',' !in spec
    ensures ParseByteRange(header, size) == ParseSpec(spec, size)
  {
  }

  lemma ResolveAgrees(first: Octets, last: Octets, size: nat)
    requires AllDigits(first) && AllDigits(last) && (first != [] || last != [])
    requires SpecOf(first, last).Valid() && 0 < size <= MAX_INT64
    ensures Resolve(first, last, size) == SpecOf(first, last).Answer(size) <==>
            !(SpecOf(first, last).Suffix? && SpecOf(first, last).length > MAX_INT64)
  {
  }

  /**
   * On every valid range-spec, however spaced and cased its header and however long its numbers, the
   * server answers as section 14.1.2 of RFC 9110 does, with one exception: a suffix length past the
   * largest int64, which asks for the whole entity and is refused.
   */
  lemma AgreesWithStandard(lead: Octets, unit: Octets, gap: Octets, pad: Octets, first: Octets, last: Octets, size: nat)
    requires Blank(lead) && Blank(gap) && Blank(pad) && IsUnit(unit)
    requires AllDigits(first) && AllDigits(last) && (first != [] || last != [])
    requires SpecOf(first, last).Valid() && 0 < size <= MAX_INT64
    ensures var header := lead + (unit + (gap + (['='] + (pad + (first + ['-'] + last)))));
            ParseByteRange(header, size) == SpecOf(first, last).Answer(size) <==>
            !(SpecOf(first, last).Suffix? && SpecOf(first, last).length > MAX_INT64)
  {
    HeaderResolves(lead, unit, gap, pad, first, last, size);
    ResolveAgrees(first, last, size);
  }

  /** An int-range that ends before it starts is answered 416, though the standard lets it be ignored. */
  lemma InvertedRangeIsRefused(first: Octets, last: Octets, size: nat)
    requires AllDigits(first) && AllDigits(last) && first != [] && last != []
    requires Value(last) < Value(first) && 0 < size <= MAX_INT64
    ensures ParseByteRange("bytes=" + (first + ['-'] + last), size) == Unsatisfiable
  {
    hide ParseByteRange;
    PlainResolves(first, last, size);
  }

  /** The header in the form clients write it. */
  lemma PlainResolves(first: Octets, last: Octets, size: nat)
    requires AllDigits(first) && AllDigits(last) && size > 0
    ensures ParseByteRange("bytes=" + (first + ['-'] + last), size) == Resolve(first, last, size)
  {
    Plain(first + ['-'] + last);
    HeaderResolves([], "bytes", [], [], first, last, size);
  }

  lemma Plain(spec: Octets)
    ensures "bytes=" + spec == [] + ("bytes" + ([] + (['='] + ([] + spec))))
  {
  }

  /** A Range header for a span, as a client writes it. */
  function RenderSpan(span: Span): Octets
  {
    "bytes=" + (Decimal(span.from) + ['-'] + Decimal(span.to))
  }

  /** Parsing the decimal rendering of a span gives that span back exactly when it lies inside the entity. */
  lemma SpanRoundTrip(span: Span, size: nat)
    requires 0 < size <= MAX_INT64
    ensures ParseByteRange(RenderSpan(span), size) == Satisfiable(span) <==> span.from <= span.to < size
  {
    hide ParseByteRange;
    var first, last := Decimal(span.from), Decimal(span.to);
    ValueOfDecimal(span.from);
    ValueOfDecimal(span.to);
    PlainResolves(first, last, size);
  }

  /** The open-ended range a client resumes with asks for everything from its offset on. */
  lemma ResumeRange(offset: nat, size: nat)
    requires offset < size <= MAX_INT64
    ensures ParseByteRange("bytes=" + (Decimal(offset) + ['-'] + []), size) == Satisfiable(Span(offset, size - 1))
  {
    hide ParseByteRange;
    ValueOfDecimal(offset);
    PlainResolves(Decimal(offset), [], size);
  }
}
