/** The ed2k://|httpcache| configuration link: rendering, parsing and redacting. */
module Ed2kLink {
  import opened Text

  const PREFIX: Octets := "ed2k://|httpcache|"
  const MAX_LENGTH: nat := 4096
  const MAX_SECRET: nat := 512

  /** The UTF-8 octets of the ellipsis that stands in for a secret. */
  const ELLIPSIS: Octets := [0xE2 as char, 0x80 as char, 0xA6 as char]

  datatype Link = Link(name: Octets, baseUrl: Octets, secret: Octets, keyId: Octets)

  /** What a call of Parse does. Panics is the slice expression whose bounds are crossed. */
  datatype Outcome = Accepted(link: Link) | Refused | Panics

  // ---- percent coding of one field ------------------------------------------------------------

  predicate IsControl(c: Octet)
  {
    c as int < 0x20 || c as int == 0x7F
  }

  predicate HasControl(s: Octets)
  {
    exists i :: 0 <= i < |s| && IsControl(s[i])
  }

  predicate IsPlain(c: Octet)
  {
    Printable(c) && c != '|' && c != '%'
  }

  function HexDigit(n: nat): Octet
    requires n < 16
  {
    if n < 10 then (n + '0' as int) as char else (n - 10 + 'A' as int) as char
  }

  function Unhex(c: Octet): Option<nat>
  {
    if '0' <= c <= '9' then Some(c as int - '0' as int)
    else if 'a' <= c <= 'f' then Some(c as int - 'a' as int + 10)
    else if 'A' <= c <= 'F' then Some(c as int - 'A' as int + 10)
    else None
  }

  lemma UnhexHexDigit(n: nat)
    requires n < 16
    ensures Unhex(HexDigit(n)) == Some(n)
    ensures Printable(HexDigit(n)) && HexDigit(n) != '|' && HexDigit(n) != '%'
  {
  }

  function EncodeOctet(c: Octet): Octets
  {
    if IsPlain(c) then [c] else ['%', HexDigit(c as int / 16), HexDigit(c as int % 16)]
  }

  function Encode(value: Octets): Octets
  {
    if value == [] then [] else EncodeOctet(value[0]) + Encode(value[1..])
  }

  /** The first octet a field decodes to, with the number of octets it took; None refuses the field. */
  function DecodeHead(value: Octets): (r: Option<(Octet, nat)>)
    requires value != []
    ensures r.Some? ==> 1 <= r.value.1 <= |value|
  {
    if value[0] != '%' then
      if IsControl(value[0]) then None else Some((value[0], 1))
    else if |value| < 3 || Unhex(value[1]).None? || Unhex(value[2]).None? then None
    else
      var decoded := (Unhex(value[1]).value * 16 + Unhex(value[2]).value) as char;
      if IsControl(decoded) then None else Some((decoded, 3))
  }

  function Prepend(head: Octets, tail: Option<Octets>): Option<Octets>
  {
    if tail.Some? then Some(head + tail.value) else None
  }

  lemma PrependTwice(a: Octets, b: Octets, tail: Option<Octets>)
    ensures Prepend(a, Prepend(b, tail)) == Prepend(a + b, tail)
  {
    if tail.Some? {
      assert a + (b + tail.value) == a + b + tail.value;
    }
  }

  lemma PrependNothing(tail: Option<Octets>)
    ensures Prepend([], tail) == tail
  {
    if tail.Some? {
      assert [] + tail.value == tail.value;
    }
  }

  function Decode(value: Octets): Option<Octets>
    decreases |value|
  {
    if value == [] then Some([])
    else
      var head := DecodeHead(value);
      if head.None? then None else Prepend([head.value.0], Decode(value[head.value.1..]))
  }

  lemma {:induction false} EncodeSnoc(value: Octets, c: Octet)
    ensures Encode(value + [c]) == Encode(value) + EncodeOctet(c)
  {
    hide EncodeOctet;
    if value == [] {
      assert [] + [c] == [c];
    } else {
      EncodeSnoc(value[1..], c);
      assert (value + [c])[1..] == value[1..] + [c];
    }
  }

  method EncodeField(value: Octets) returns (encoded: Octets)
    ensures encoded == Encode(value)
  {
    encoded := [];
    for i := 0 to |value|
      invariant encoded == Encode(value[..i])
    {
      EncodeSnoc(value[..i], value[i]);
      assert value[..i + 1] == value[..i] + [value[i]];
      var c := value[i];
      if IsPlain(c) {
        encoded := encoded + [c];
      } else {
        encoded := encoded + ['%', HexDigit(c as int / 16), HexDigit(c as int % 16)];
      }
    }
    assert value[..|value|] == value;
  }

  method DecodeField(value: Octets) returns (decoded: Option<Octets>)
    ensures decoded == Decode(value)
  {
    var out: Octets := [];
    var i := 0;
    assert value[0..] == value;
    PrependNothing(Decode(value));
    while i < |value|
      invariant 0 <= i <= |value|
      invariant Decode(value) == Prepend(out, Decode(value[i..]))
    {
      ghost var before, rest, head := out, value[i..], DecodeHead(value[i..]);
      var c := value[i];
      if c != '%' {
        if IsControl(c) {
          return None;
        }
        out := out + [c];
        i := i + 1;
      } else {
        if i + 2 >= |value| {
          return None;
        }
        var hi, lo := Unhex(value[i + 1]), Unhex(value[i + 2]);
        if hi.None? || lo.None? {
          return None;
        }
        var octet := (hi.value * 16 + lo.value) as char;
        if IsControl(octet) {
          return None;
        }
        out := out + [octet];
        i := i + 3;
      }
      assert rest[head.value.1..] == value[i..];
      PrependTwice(before, [head.value.0], Decode(value[i..]));
    }
    assert value[i..] == [] && out + [] == out;
    return Some(out);
  }

  /** An encoded field is printable ASCII with no separator in it. */
  lemma {:induction false} EncodedIsPlain(value: Octets)
    ensures forall c :: c in Encode(value) ==> Printable(c) && c != '|'
  {
    if value != [] {
      EncodedIsPlain(value[1..]);
      var c := value[0];
      UnhexHexDigit(c as int / 16);
      UnhexHexDigit(c as int % 16);
    }
  }

  lemma DecodeHeadOfEncoded(c: Octet, rest: Octets)
    ensures DecodeHead(EncodeOctet(c) + rest) == if IsControl(c) then None else Some((c, |EncodeOctet(c)|))
  {
  }

  /** Decoding undoes encoding on exactly the values without a control character; the others are refused. */
  lemma {:induction false} DecodeEncode(value: Octets)
    ensures Decode(Encode(value)) == if HasControl(value) then None else Some(value)
  {
    if value != [] {
      var c, rest := value[0], value[1..];
      DecodeEncode(rest);
      DecodeHeadOfEncoded(c, Encode(rest));
      var code := EncodeOctet(c);
      assert (code + Encode(rest))[|code|..] == Encode(rest);
      assert value == [c] + rest;
      assert HasControl(value) <==> IsControl(c) || HasControl(rest) by {
        if HasControl(rest) {
          var i :| 0 <= i < |rest| && IsControl(rest[i]);
          assert IsControl(value[i + 1]);
        }
        if HasControl(value) {
          var i :| 0 <= i < |value| && IsControl(value[i]);
          assert i > 0 ==> IsControl(rest[i - 1]);
        }
      }
    }
  }

  /** Encoding leaves exactly the values alone that have nothing in them to encode, and lengthens all others. */
  lemma {:induction false} EncodeKeeps(value: Octets)
    ensures |Encode(value)| >= |value|
    ensures if forall i :: 0 <= i < |value| ==> IsPlain(value[i]) then Encode(value) == value
        else |Encode(value)| > |value|
  {
    if value != [] {
      EncodeKeeps(value[1..]);
      assert value == [value[0]] + value[1..];
    }
  }

  // ---- the parts of a link --------------------------------------------------------------------

  ghost predicate IsPlausible(secret: Octets)
  {
    0 < |secret| <= MAX_SECRET && forall i :: 0 <= i < |secret| ==> Printable(secret[i])
  }

  method PlausibleSecret(secret: Octets) returns (ok: bool)
    ensures ok == IsPlausible(secret)
  {
    if secret == [] || |secret| > MAX_SECRET {
      return false;
    }
    for i := 0 to |secret|
      invariant forall j :: 0 <= j < i ==> Printable(secret[j])
    {
      if secret[i] as int < 0x21 || secret[i] as int > 0x7E {
        return false;
      }
    }
    return true;
  }

  predicate IsAlpha(c: Octet)
  {
    'A' <= c <= 'Z' || 'a' <= c <= 'z'
  }

  predicate IsKeyId(s: Octets)
  {
    && 1 <= |s| <= 32
    && forall i :: 0 <= i < |s| ==> IsAlpha(s[i]) || IsDigit(s[i]) || s[i] == '.' || s[i] == '_' || s[i] == '-'
  }

  /** How many letters and digits a text starts with. */
  function NameRun(s: Octets): (n: nat)
    ensures n <= |s|
  {
    if s != [] && (IsAlpha(s[0]) || IsDigit(s[0])) then 1 + NameRun(s[1..]) else 0
  }

  /** A tail field read as name=value, as the pattern of an option has it. */
  function AsOption(field: Octets): Option<(Octets, Octets)>
  {
    var n := NameRun(field);
    if 0 < n < |field| && IsAlpha(field[0]) && field[n] == '=' && '\n' !in field[n + 1..]
    then Some((field[..n], field[n + 1..]))
    else None
  }

  function DropSlashes(s: Octets): Octets
  {
    if s != [] && s[|s| - 1] == '/' then DropSlashes(s[..|s| - 1]) else s
  }

  /**
   * baseurl.Normalize. Whether a control-free text is an absolute http or https URL with a host and no
   * credentials, query or fragment is left to urlOk; a URL parser refuses every control character.
   */
  function Normalize(urlOk: Octets -> bool, raw: Octets): Option<Octets>
  {
    var trimmed := TrimSpace(raw);
    if trimmed == [] || HasControl(trimmed) || !urlOk(trimmed) then None else Some(DropSlashes(trimmed))
  }

  lemma {:induction false} DropSlashesIsPrefix(s: Octets)
    ensures DropSlashes(s) <= s
  {
    if s != [] && s[|s| - 1] == '/' {
      DropSlashesIsPrefix(s[..|s| - 1]);
    }
  }

  lemma NormalizedHasNoControl(urlOk: Octets -> bool, raw: Octets)
    requires Normalize(urlOk, raw).Some?
    ensures !HasControl(Normalize(urlOk, raw).value)
  {
    var trimmed := TrimSpace(raw);
    DropSlashesIsPrefix(trimmed);
    assert forall i :: 0 <= i < |DropSlashes(trimmed)| ==> DropSlashes(trimmed)[i] == trimmed[i];
  }

  // ---- rendering ------------------------------------------------------------------------------

  /** The encoded fields of a link, in order. */
  function Fields(l: Link): seq<Octets>
  {
    [Encode(l.name), Encode(l.baseUrl), Encode(l.secret)] + if l.keyId == [] then [] else ["k=" + Encode(l.keyId)]
  }

  function Render(l: Link): Octets
  {
    PREFIX + Join(Fields(l), '|') + "|/"
  }

  lemma {:induction false} JoinSnoc(fields: seq<Octets>, field: Octets, sep: Octet)
    requires |fields| >= 1
    ensures Join(fields + [field], sep) == Join(fields, sep) + [sep] + field
  {
    if |fields| > 1 {
      JoinSnoc(fields[1..], field, sep);
      assert (fields + [field])[1..] == fields[1..] + [field];
      var rest := Join(fields[1..], sep);
      assert fields[0] + [sep] + (rest + [sep] + field) == (fields[0] + [sep] + rest) + [sep] + field;
    } else {
      assert (fields + [field])[1..] == [field];
    }
  }

  method RenderLink(l: Link) returns (text: Octets)
    ensures text == Render(l)
  {
    hide Encode;
    var name := EncodeField(l.name);
    var body := name;
    var base := EncodeField(l.baseUrl);
    JoinSnoc([name], base, '|');
    body := body + ['|'] + base;
    var secret := EncodeField(l.secret);
    JoinSnoc([name] + [base], secret, '|');
    body := body + ['|'] + secret;
    if l.keyId != [] {
      var key := EncodeField(l.keyId);
      JoinSnoc([name] + [base] + [secret], "k=" + key, '|');
      body := body + ['|'] + ("k=" + key);
      assert Fields(l) == [name] + [base] + [secret] + ["k=" + key];
    } else {
      assert Fields(l) == [name] + [base] + [secret];
    }
    text := PREFIX + body + "|/";
  }

  // ---- parsing --------------------------------------------------------------------------------

  /** strings.EqualFold against an ASCII text of the same number of octets. */
  predicate EqualFold(a: Octets, b: Octets)
  {
    |a| == |b| && forall i :: 0 <= i < |a| ==> Lower(a[i]) == Lower(b[i])
  }

  function ParseOptions(link: Link, options: seq<Octets>): Outcome
    decreases |options|
  {
    if options == [] then Accepted(link)
    else
      var option := AsOption(options[0]);
      if option.None? then Refused
      else
        var value := Decode(option.value.1);
        if value.None? then Refused
        else if option.value.0 != "k" then ParseOptions(link, options[1..])
        else if !IsKeyId(value.value) then Refused
        else ParseOptions(link.(keyId := value.value), options[1..])
  }

  ghost function ParseFields(urlOk: Octets -> bool, fields: seq<Octets>): Outcome
  {
    if |fields| < 3 then Refused
    else
      var name, rawBase, secret := Decode(fields[0]), Decode(fields[1]), Decode(fields[2]);
      if name.None? || rawBase.None? || secret.None? then Refused
      else
        var base := Normalize(urlOk, rawBase.value);
        if base.None? || !IsPlausible(secret.value) then Refused
        else ParseOptions(Link(name.value, base.value, secret.value, []), fields[3..])
  }

  /** Whether a trimmed text has the frame of a link: not too long, the prefix in any case, and the tail. */
  predicate Framed(t: Octets)
  {
    && |PREFIX| <= |t| <= MAX_LENGTH
    && EqualFold(t[..|PREFIX|], PREFIX)
    && t[|t| - 2..] == "|/"
  }

  ghost function Parse(urlOk: Octets -> bool, raw: Octets): Outcome
  {
    var t := TrimSpace(raw);
    if !Framed(t) then Refused
    else if |t| - 2 < |PREFIX| then Panics
    else ParseFields(urlOk, Split(t[|PREFIX|..|t| - 2], '|'))
  }

  method ParseLink(urlOk: Octets -> bool, raw: Octets) returns (outcome: Outcome)
    ensures outcome == Parse(urlOk, raw)
  {
    hide TrimSpace, Split, EqualFold, Normalize, IsPlausible, AsOption, Decode, IsKeyId;
    var t := TrimSpace(raw);
    if |t| > MAX_LENGTH {
      return Refused;
    }
    if |t| < |PREFIX| || !EqualFold(t[..|PREFIX|], PREFIX) {
      return Refused;
    }
    if t[|t| - 2..] != "|/" {
      return Refused;
    }
    if |t| - 2 < |PREFIX| {
      return Panics;
    }
    var fields := Split(t[|PREFIX|..|t| - 2], '|');
    if |fields| < 3 {
      return Refused;
    }
    var name := DecodeField(fields[0]);
    var rawBase := DecodeField(fields[1]);
    var secret := DecodeField(fields[2]);
    if name.None? || rawBase.None? || secret.None? {
      return Refused;
    }
    var base := Normalize(urlOk, rawBase.value);
    var plausible := PlausibleSecret(secret.value);
    if base.None? || !plausible {
      return Refused;
    }
    var link := Link(name.value, base.value, secret.value, []);
    var i := 3;
    while i < |fields|
      invariant 3 <= i <= |fields|
      invariant Parse(urlOk, raw) == ParseOptions(link, fields[i..])
    {
      assert fields[i..][0] == fields[i] && fields[i..][1..] == fields[i + 1..];
      var option := AsOption(fields[i]);
      if option.None? {
        return Refused;
      }
      var value := DecodeField(option.value.1);
      if value.None? {
        return Refused;
      }
      if option.value.0 == "k" {
        if !IsKeyId(value.value) {
          return Refused;
        }
        link := link.(keyId := value.value);
      }
      i := i + 1;
    }
    return Accepted(link);
  }

  lemma ShortFrameIsPrefixAndSlash(t: Octets)
    requires Framed(t) && |t| - 2 < |PREFIX|
    ensures EqualFold(t, PREFIX + "/")
  {
    var n := |PREFIX|;
    assert t[n - 1] == t[..n][n - 1] && Lower(t[n - 1]) == Lower(PREFIX[n - 1]) && PREFIX[n - 1] == '|';
    assert t[|t| - 1] == t[|t| - 2..][1] == '/';
    forall i | 0 <= i < n
      ensures Lower(t[i]) == Lower(PREFIX[i])
    {
      assert t[..n][i] == t[i];
    }
  }

  lemma PrefixAndSlashIsShortFrame(t: Octets)
    requires EqualFold(t, PREFIX + "/")
    ensures Framed(t) && |t| - 2 < |PREFIX|
  {
  }

  /**
   * Parse panics on exactly one text: after trimming and up to case, the prefix followed by one slash.
   * Its last octet but one is the bar that closes the prefix, so the tail overlaps the prefix.
   */
  lemma ParsePanicsExactly(urlOk: Octets -> bool, raw: Octets)
    ensures Parse(urlOk, raw) == Panics <==> EqualFold(TrimSpace(raw), PREFIX + "/")
  {
    hide TrimSpace, Split, ParseFields;
    var t := TrimSpace(raw);
    if Framed(t) {
      if |t| - 2 < |PREFIX| {
        ShortFrameIsPrefixAndSlash(t);
      } else {
        ParseFieldsNeverPanics(urlOk, Split(t[|PREFIX|..|t| - 2], '|'));
      }
    }
    if EqualFold(t, PREFIX + "/") {
      PrefixAndSlashIsShortFrame(t);
    }
  }

  lemma {:induction false} ParseOptionsNeverPanics(link: Link, options: seq<Octets>)
    ensures !ParseOptions(link, options).Panics?
    ensures ParseOptions(link, options).Accepted? ==> ParseOptions(link, options).link.secret == link.secret
    decreases |options|
  {
    if options != [] && AsOption(options[0]).Some? && Decode(AsOption(options[0]).value.1).Some? {
      ParseOptionsNeverPanics(link, options[1..]);
      ParseOptionsNeverPanics(link.(keyId := Decode(AsOption(options[0]).value.1).value), options[1..]);
    }
  }

  lemma ParseFieldsNeverPanics(urlOk: Octets -> bool, fields: seq<Octets>)
    ensures !ParseFields(urlOk, fields).Panics?
    ensures ParseFields(urlOk, fields).Accepted? ==>
              |fields| >= 3 && Decode(fields[2]) == Some(ParseFields(urlOk, fields).link.secret)
  {
    if |fields| >= 3 && Decode(fields[0]).Some? && Decode(fields[1]).Some? && Decode(fields[2]).Some? {
      var base := Normalize(urlOk, Decode(fields[1]).value);
      if base.Some? {
        ParseOptionsNeverPanics(Link(Decode(fields[0]).value, base.value, Decode(fields[2]).value, []), fields[3..]);
      }
    }
  }

  // ---- the round trip -------------------------------------------------------------------------

  /** What a link must look like for its rendering to be readable. */
  ghost predicate Representable(urlOk: Octets -> bool, l: Link)
  {
    && !HasControl(l.name)
    && Normalize(urlOk, l.baseUrl) == Some(l.baseUrl)
    && IsPlausible(l.secret)
    && (l.keyId == [] || IsKeyId(l.keyId))
    && |Render(l)| <= MAX_LENGTH
  }

  lemma {:induction false} SplitJoin(fields: seq<Octets>, sep: Octet)
    requires |fields| >= 1
    requires forall i :: 0 <= i < |fields| ==> sep !in fields[i]
    ensures Split(Join(fields, sep), sep) == fields
  {
    SplitPlain(fields[0], sep);
    if |fields| > 1 {
      SplitJoin(fields[1..], sep);
      SplitConcat(fields[0], Join(fields[1..], sep), sep);
    }
  }

  lemma FieldsArePlain(l: Link)
    ensures forall i :: 0 <= i < |Fields(l)| ==> '|' !in Fields(l)[i]
  {
    EncodedIsPlain(l.name);
    EncodedIsPlain(l.baseUrl);
    EncodedIsPlain(l.secret);
    EncodedIsPlain(l.keyId);
  }

  lemma KeyOptionReadsBack(keyId: Octets)
    ensures AsOption("k=" + Encode(keyId)) == Some(("k", Encode(keyId)))
  {
    var field := "k=" + Encode(keyId);
    assert field[1..][0] == '=';
    assert NameRun(field[1..]) == 0;
    assert NameRun(field) == 1;
    assert field[..1] == "k" && field[2..] == Encode(keyId);
    EncodedIsPlain(keyId);
  }

  /** A rendered link is framed, and its body splits into exactly the fields it was made of. */
  lemma RenderedFrame(urlOk: Octets -> bool, l: Link)
    ensures Parse(urlOk, Render(l)) == if |Render(l)| <= MAX_LENGTH then ParseFields(urlOk, Fields(l)) else Refused
  {
    hide TrimSpace, Split, Join, ParseFields, Encode;
    var t, body := Render(l), Join(Fields(l), '|');
    assert t == PREFIX + (body + "|/");
    assert t[0] == 'e' && t[|t| - 1] == '/';
    TrimKeeps(t);
    assert t[..|PREFIX|] == PREFIX;
    assert t[|t| - 2..] == "|/";
    assert t[|PREFIX|..|t| - 2] == body;
    FieldsArePlain(l);
    SplitJoin(Fields(l), '|');
  }

  /** Reading the fields of a link back: what is lost is a control character, a bad URL, secret or key id. */
  lemma FieldsReadBack(urlOk: Octets -> bool, l: Link)
    ensures ParseFields(urlOk, Fields(l)) ==
            if HasControl(l.name) || HasControl(l.baseUrl) || HasControl(l.secret) then Refused
            else if Normalize(urlOk, l.baseUrl).None? || !IsPlausible(l.secret) then Refused
            else if l.keyId == [] || (!HasControl(l.keyId) && IsKeyId(l.keyId))
            then Accepted(l.(baseUrl := Normalize(urlOk, l.baseUrl).value))
            else Refused
  {
    DecodeEncode(l.name);
    DecodeEncode(l.baseUrl);
    DecodeEncode(l.secret);
    var base := Normalize(urlOk, l.baseUrl);
    if base.Some? {
      KeyReadsBack(Link(l.name, base.value, l.secret, []), l.keyId);
    }
    assert Fields(l)[3..] == if l.keyId == [] then [] else ["k=" + Encode(l.keyId)];
  }

  lemma KeyReadsBack(link: Link, keyId: Octets)
    requires link.keyId == []
    ensures ParseOptions(link, []) == Accepted(link)
    ensures ParseOptions(link, ["k=" + Encode(keyId)]) ==
            if !HasControl(keyId) && IsKeyId(keyId) then Accepted(link.(keyId := keyId)) else Refused
  {
    KeyOptionReadsBack(keyId);
    DecodeEncode(keyId);
    var options := ["k=" + Encode(keyId)];
    assert options[1..] == [];
  }

  /** Parse reads a rendered link back unchanged exactly when the link is representable. */
  lemma RoundTrip(urlOk: Octets -> bool, l: Link)
    ensures Parse(urlOk, Render(l)) == Accepted(l) <==> Representable(urlOk, l)
  {
    hide Parse, ParseFields, Render, Normalize;
    RenderedFrame(urlOk, l);
    FieldsReadBack(urlOk, l);
    if Normalize(urlOk, l.baseUrl) == Some(l.baseUrl) {
      NormalizedHasNoControl(urlOk, l.baseUrl);
    }
    if IsKeyId(l.keyId) {
      KeyIdHasNoControl(l.keyId);
    }
  }

  lemma KeyIdHasNoControl(keyId: Octets)
    requires IsKeyId(keyId)
    ensures !HasControl(keyId)
  {
  }

  // ---- redaction ------------------------------------------------------------------------------

  /** Fields with the fifth one, where a link carries its secret, replaced. */
  function Overwritten(fields: seq<Octets>): seq<Octets>
  {
    if |fields| > 4 then fields[4 := ELLIPSIS] else fields
  }

  function Redact(raw: Octets): Octets
  {
    Join(Overwritten(Split(raw, '|')), '|')
  }

  /** A framed text, untrimmed, splits into two fields of prefix, the fields of its body, and a tail. */
  lemma FramedFields(raw: Octets) returns (scheme: Octets, kind: Octets, tail: Octets)
    requires Framed(TrimSpace(raw)) && |TrimSpace(raw)| - 2 >= |PREFIX|
    ensures var t := TrimSpace(raw);
            Split(raw, '|') == [scheme] + ([kind] + (Split(t[|PREFIX|..|t| - 2], '|') + [tail]))
  {
    hide TrimSpace, Split;
    var t := TrimSpace(raw);
    var before, after := TrimCuts(raw);
    var body := t[|PREFIX|..|t| - 2];
    var first, second := FoldedPrefix(t[..|PREFIX|]);
    scheme, kind, tail := before + first, second, "/" + after;
    Reassemble(before, t, after, first, second, body);
    SplitFour(scheme, kind, body, tail);
  }

  lemma FoldedPrefix(head: Octets) returns (scheme: Octets, kind: Octets)
    requires EqualFold(head, PREFIX)
    ensures head == scheme + ['|'] + kind + ['|'] && '|' !in scheme && '|' !in kind
  {
    scheme, kind := head[..7], head[8..17];
    forall i | 0 <= i < |PREFIX|
      ensures head[i] == '|' <==> PREFIX[i] == '|'
    {
      assert Lower(head[i]) == Lower(PREFIX[i]);
    }
    assert forall i :: 0 <= i < |PREFIX| ==> (PREFIX[i] == '|' <==> i == 7 || i == 17);
  }

  lemma Reassemble(before: Octets, t: Octets, after: Octets, first: Octets, second: Octets, body: Octets)
    requires |t| - 2 >= |PREFIX| && t[|t| - 2..] == "|/"
    requires t[..|PREFIX|] == first + ['|'] + second + ['|'] && body == t[|PREFIX|..|t| - 2]
    ensures before + t + after == (before + first) + ['|'] + (second + ['|'] + (body + ['|'] + ("/" + after)))
  {
  }

  lemma SplitFour(a: Octets, b: Octets, body: Octets, tail: Octets)
    requires '|' !in a && '|' !in b && '|' !in tail
    ensures Split(a + ['|'] + (b + ['|'] + (body + ['|'] + tail)), '|') == [a] + ([b] + (Split(body, '|') + [tail]))
  {
    hide Split;
    SplitPlain(a, '|');
    SplitPlain(b, '|');
    SplitPlain(tail, '|');
    SplitConcat(body, tail, '|');
    SplitConcat(b, body + ['|'] + tail, '|');
    SplitConcat(a, b + ['|'] + (body + ['|'] + tail), '|');
  }

  lemma FifthField(scheme: Octets, kind: Octets, body: seq<Octets>, tail: Octets, fields: seq<Octets>)
    requires |body| >= 3 && fields == [scheme] + ([kind] + (body + [tail]))
    ensures |fields| > 4 && fields[4] == body[2]
  {
  }

  lemma RedactedFields(raw: Octets)
    ensures Split(Redact(raw), '|') == Overwritten(Split(raw, '|'))
  {
    var were, fields := Split(raw, '|'), Overwritten(Split(raw, '|'));
    SplitIsPlain(raw, '|');
    assert '|' !in ELLIPSIS;
    forall i | 0 <= i < |fields|
      ensures '|' !in fields[i]
    {
      assert fields[i] == were[i] || fields[i] == ELLIPSIS;
    }
    SplitJoin(fields, '|');
  }

  lemma RedactTargets(raw: Octets, body: seq<Octets>)
    requires Framed(TrimSpace(raw)) && |TrimSpace(raw)| - 2 >= |PREFIX| && |body| >= 3
    requires var t := TrimSpace(raw); body == Split(t[|PREFIX|..|t| - 2], '|')
    ensures |Split(raw, '|')| > 4 && Split(raw, '|')[4] == body[2]
  {
    var scheme, kind, tail := FramedFields(raw);
    FifthField(scheme, kind, body, tail, Split(raw, '|'));
  }

  /**
   * For every text Parse accepts, the field Redact overwrites is the very field Parse decoded as the
   * secret, and the redacted text differs from the original in that field and in no other.
   */
  lemma RedactHidesTheSecret(urlOk: Octets -> bool, raw: Octets)
    requires Parse(urlOk, raw).Accepted?
    ensures var fields := Split(raw, '|');
            && |fields| > 4
            && Decode(fields[4]) == Some(Parse(urlOk, raw).link.secret)
            && Split(Redact(raw), '|') == fields[4 := ELLIPSIS]
  {
    hide TrimSpace, Split, Decode;
    var t := TrimSpace(raw);
    var body := Split(t[|PREFIX|..|t| - 2], '|');
    ParseFieldsNeverPanics(urlOk, body);
    RedactTargets(raw, body);
    RedactedFields(raw);
  }

  /** Redaction keeps nothing of the secret: texts that differ only in the fifth field redact alike. */
  lemma RedactForgets(raw: Octets, other: Octets)
    requires |Split(raw, '|')| > 4
    requires |Split(other, '|')| == |Split(raw, '|')|
    requires forall i :: 0 <= i < |Split(raw, '|')| && i != 4 ==> Split(raw, '|')[i] == Split(other, '|')[i]
    ensures Redact(raw) == Redact(other)
  {
    assert Split(raw, '|')[4 := ELLIPSIS] == Split(other, '|')[4 := ELLIPSIS];
  }
}
