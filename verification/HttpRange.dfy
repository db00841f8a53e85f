/**
 What one Range header asks of a file of known size, proved against the meaning that
 section 14.1.2 of RFC 9110 gives to a single byte range.
 */
module HttpRange {
  import opened Util
  import opened ByteRanges

  datatype RangeError = Invalid | Unsatisfiable | MultipleRangesUnsupported

  // ----- Text primitives -----

  predicate Blank(c: char) { c == ' ' || c == '\t' }

  predicate AllBlank(s: string) { forall c :: c in s ==> Blank(c) }

  function TrimStart(s: string): string {
    if s != [] && Blank(s[0]) then TrimStart(s[1..]) else s
  }

  function TrimEnd(s: string): string {
    if s != [] && Blank(s[|s| - 1]) then TrimEnd(s[..|s| - 1]) else s
  }

  function Trim(s: string): string { TrimEnd(TrimStart(s)) }

  /** The parts around the first occurrence of a separator. */
  function SplitOnce(s: string, c: char): (r: Option<(string, string)>)
    ensures r.Some? ==> s == r.value.0 + [c] + r.value.1 && c !in r.value.0
    ensures r.None? ==> c !in s
  {
    if s == [] then None
    else if s[0] == c then Some(([], s[1..]))
    else
      match SplitOnce(s[1..], c)
      case None => None
      case Some((head, tail)) => Some(([s[0]] + head, tail))
  }

  function LowerAscii(c: char): char {
    if 'A' <= c <= 'Z' then (c as int + 32) as char else c
  }

  predicate EqIgnoreAsciiCase(a: string, b: string) {
    |a| == |b| && forall i :: 0 <= i < |a| ==> LowerAscii(a[i]) == LowerAscii(b[i])
  }

  predicate IsDigit(c: char) { '0' <= c <= '9' }

  predicate AllDigits(s: string) { forall c :: c in s ==> IsDigit(c) }

  function DigitsValue(s: string): nat
    requires AllDigits(s)
  {
    if s == [] then 0
    else
      var last := s[|s| - 1];
      assert last in s;
      10 * DigitsValue(s[..|s| - 1]) + (last as int - '0' as int)
  }

  /** Digits only, and no more than 64 bits. */
  function Decimal(text: string): Result<U64, RangeError> {
    if text == [] || !AllDigits(text) then Err(Invalid)
    else if DigitsValue(text) > U64_MAX then Err(Invalid)
    else Ok(DigitsValue(text))
  }

  // ----- The resolver -----

  function ParseHttpRange(header: string, size: U64): Result<ByteRange, RangeError> {
    match SplitOnce(Trim(header), '=')
    case None => Err(Invalid)
    case Some((unit, spec)) =>
      if !EqIgnoreAsciiCase(unit, "bytes") then Err(Invalid)
      else if ',' in spec then Err(MultipleRangesUnsupported)
      else
        match SplitOnce(spec, '-')
        case None => Err(Invalid)
        case Some((start, end)) =>
          if start == [] then ResolveSuffix(end, size) else ResolveFrom(start, end, size)
  }

  function ResolveSuffix(length: string, size: U64): Result<ByteRange, RangeError> {
    match Decimal(length)
    case Err(e) => Err(e)
    case Ok(n) =>
      if size == 0 || n == 0 then Err(Unsatisfiable)
      else Ok(Interval(if n >= size then 0 else size - n, size))
  }

  function ResolveFrom(first: string, last: string, size: U64): Result<ByteRange, RangeError> {
    match Decimal(first)
    case Err(e) => Err(e)
    case Ok(start) =>
      if last == [] then
        if start >= size then Err(Unsatisfiable) else Ok(Interval(start, size))
      else
        match Decimal(last)
        case Err(e) => Err(e)
        case Ok(end) =>
          if end < start then Err(Invalid)
          else if start >= size then Err(Unsatisfiable)
          // The sum cannot exceed size, so 64 bits suffice.
          else Ok(Interval(start, Min(end, size - 1) + 1))
  }

  // ----- The reference meaning -----

  datatype RangeSpec = FromTo(first: U64, last: U64) | From(first: U64) | Suffix(length: U64)

  predicate WellFormed(spec: RangeSpec) { spec.FromTo? ==> spec.first <= spec.last }

  /** The positions of a file of the given size that a range selects. */
  ghost function Selected(spec: RangeSpec, size: U64): set<nat> {
    set p: nat | p < size && Selects(spec, size, p)
  }

  ghost predicate Selects(spec: RangeSpec, size: nat, p: nat) {
    match spec
    case FromTo(first, last) => first <= p <= last
    case From(first) => first <= p
    case Suffix(length) => size - p <= length
  }

  ghost predicate Spells(text: string, n: nat) {
    text != [] && AllDigits(text) && DigitsValue(text) == n
  }

  /** The text of one range: explicit bounds, an open end, or a suffix length; leading zeros are allowed. */
  ghost predicate SpecText(body: string, spec: RangeSpec) {
    match spec
    case FromTo(first, last) => exists x, y :: Spells(x, first) && Spells(y, last) && body == x + "-" + y
    case From(first) => exists x :: Spells(x, first) && body == x + "-"
    case Suffix(length) => exists y :: Spells(y, length) && body == "-" + y
  }

  /** A header that names exactly one range in byte units, in any case, with blanks only around it. */
  ghost predicate HeaderFor(header: string, spec: RangeSpec) {
    exists lead, unit, body, trail ::
      && AllBlank(lead) && AllBlank(trail)
      && EqIgnoreAsciiCase(unit, "bytes") && SpecText(body, spec)
      && header == lead + unit + "=" + body + trail
  }

  // ----- Trimming and splitting -----

  lemma {:induction false} TrimStartBlanks(lead: string, s: string)
    requires AllBlank(lead) && s != [] && !Blank(s[0])
    ensures TrimStart(lead + s) == s
  {
    if lead == [] {
      assert lead + s == s;
    } else {
      assert (lead + s)[1..] == lead[1..] + s;
      TrimStartBlanks(lead[1..], s);
    }
  }

  lemma {:induction false} TrimEndBlanks(s: string, trail: string)
    requires AllBlank(trail) && s != [] && !Blank(s[|s| - 1])
    ensures TrimEnd(s + trail) == s
  {
    if trail == [] {
      assert s + trail == s;
    } else {
      var n := |s + trail| - 1;
      assert (s + trail)[n] == trail[|trail| - 1];
      assert (s + trail)[..n] == s + trail[..|trail| - 1];
      TrimEndBlanks(s, trail[..|trail| - 1]);
    }
  }

  lemma {:induction false} TrimStartShape(s: string) returns (lead: string)
    ensures AllBlank(lead) && s == lead + TrimStart(s)
  {
    if s != [] && Blank(s[0]) {
      var rest := TrimStartShape(s[1..]);
      lead := [s[0]] + rest;
      assert s == [s[0]] + s[1..];
    } else {
      lead := [];
    }
  }

  lemma {:induction false} TrimEndShape(s: string) returns (trail: string)
    ensures AllBlank(trail) && s == TrimEnd(s) + trail
  {
    if s != [] && Blank(s[|s| - 1]) {
      var rest := TrimEndShape(s[..|s| - 1]);
      trail := rest + [s[|s| - 1]];
      assert s == s[..|s| - 1] + [s[|s| - 1]];
    } else {
      trail := [];
    }
  }

  lemma {:induction false} SplitAtFirst(head: string, c: char, tail: string)
    requires c !in head
    ensures SplitOnce(head + [c] + tail, c) == Some((head, tail))
  {
    var s := head + [c] + tail;
    if head == [] {
      assert s[1..] == tail;
    } else {
      assert s[1..] == head[1..] + [c] + tail;
      SplitAtFirst(head[1..], c, tail);
      assert head == [head[0]] + head[1..];
    }
  }

  // ----- Agreement with the reference meaning -----

  lemma SpecTextEnds(body: string, spec: RangeSpec)
    requires SpecText(body, spec)
    ensures body != [] && !Blank(body[|body| - 1]) && ',' !in body
  {
    match spec {
      case FromTo(first, last) =>
        var x, y :| Spells(x, first) && Spells(y, last) && body == x + "-" + y;
        assert body[|body| - 1] == y[|y| - 1] && y[|y| - 1] in y;
      case From(_) =>
      case Suffix(length) =>
        var y :| Spells(y, length) && body == "-" + y;
        assert body[|body| - 1] == y[|y| - 1] && y[|y| - 1] in y;
    }
  }

  /** A well-formed range is resolved to exactly the positions it selects, or reported as selecting none. */
  lemma ResolvesSpec(body: string, spec: RangeSpec, size: U64, header: string)
    requires SpecText(body, spec) && WellFormed(spec)
    requires SplitOnce(Trim(header), '=').Some?
    requires EqIgnoreAsciiCase(SplitOnce(Trim(header), '=').value.0, "bytes")
    requires SplitOnce(Trim(header), '=').value.1 == body
    ensures var r := ParseHttpRange(header, size);
            if Selected(spec, size) == {} then r == Err(Unsatisfiable)
            else r.Ok? && Span(r.value) == Selected(spec, size)
  {
    SpecTextEnds(body, spec);
    match spec {
      case FromTo(first, last) =>
        var x, y :| Spells(x, first) && Spells(y, last) && body == x + "-" + y;
        SplitAtFirst(x, '-', y);
        assert first < size ==> first in Selected(spec, size);
      case From(first) =>
        var x :| Spells(x, first) && body == x + "-";
        SplitAtFirst(x, '-', []);
        assert body == x + ['-'] + [];
        assert first < size ==> first in Selected(spec, size);
      case Suffix(length) =>
        var y :| Spells(y, length) && body == "-" + y;
        SplitAtFirst([], '-', y);
        assert body == [] + ['-'] + y;
        assert size > 0 && length > 0 ==> size - 1 in Selected(spec, size);
    }
  }

  /** Every spelling of a well-formed range is accepted, and the answer is the set of positions it selects. */
  lemma ParseComplete(header: string, spec: RangeSpec, size: U64)
    requires HeaderFor(header, spec) && WellFormed(spec)
    ensures var r := ParseHttpRange(header, size);
            if Selected(spec, size) == {} then r == Err(Unsatisfiable)
            else r.Ok? && Span(r.value) == Selected(spec, size)
  {
    var lead, unit, body, trail :|
      && AllBlank(lead) && AllBlank(trail)
      && EqIgnoreAsciiCase(unit, "bytes") && SpecText(body, spec)
      && header == lead + unit + "=" + body + trail;
    SpecTextEnds(body, spec);
    var core := unit + "=" + body;
    assert header == lead + (core + trail);
    assert LowerAscii(unit[0]) == 'b';
    TrimStartBlanks(lead, core + trail);
    TrimEndBlanks(core, trail);
    UnitHasNoSeparator(unit);
    SplitAtFirst(unit, '=', body);
    ResolvesSpec(body, spec, size, header);
  }

  lemma UnitHasNoSeparator(unit: string)
    requires EqIgnoreAsciiCase(unit, "bytes")
    ensures '=' !in unit
  {
    forall i | 0 <= i < |unit| ensures unit[i] != '=' {
      assert LowerAscii(unit[i]) == LowerAscii("bytes"[i]);
    }
  }

  /** Only spellings of a well-formed single range are accepted or called unsatisfiable. */
  lemma ParseSound(header: string, size: U64) returns (spec: RangeSpec)
    requires var r := ParseHttpRange(header, size); r.Ok? || r == Err(Unsatisfiable)
    ensures HeaderFor(header, spec) && WellFormed(spec)
  {
    var lead := TrimStartShape(header);
    var trail := TrimEndShape(TrimStart(header));
    var (unit, body) := SplitOnce(Trim(header), '=').value;
    var (start, end) := SplitOnce(body, '-').value;
    ParsedParts(header, size);
    assert header == lead + (Trim(header) + trail);
    hide *;
    spec := BodySpells(start, end);
    HeaderHas(header, spec, lead, unit, body, trail);
  }

  /** What an accepted header is made of. */
  lemma ParsedParts(header: string, size: U64)
    requires var r := ParseHttpRange(header, size); r.Ok? || r == Err(Unsatisfiable)
    ensures SplitOnce(Trim(header), '=').Some?
    ensures var (unit, body) := SplitOnce(Trim(header), '=').value;
            && EqIgnoreAsciiCase(unit, "bytes") && Trim(header) == unit + "=" + body && SplitOnce(body, '-').Some?
            && var (start, end) := SplitOnce(body, '-').value;
               && body == start + "-" + end && (start == [] || Decimal(start).Ok?)
               && (start == [] ==> Decimal(end).Ok?) && (end != [] ==> Decimal(end).Ok?)
               && (start != [] && end != [] ==> Decimal(start).value <= Decimal(end).value)
  {
    hide EqIgnoreAsciiCase, Trim, SplitOnce, DigitsValue, AllDigits;
  }

  lemma BodySpells(start: string, end: string) returns (spec: RangeSpec)
    requires start == [] || Decimal(start).Ok?
    requires (start == [] || end != []) ==> Decimal(end).Ok?
    requires start != [] && end != [] ==> Decimal(start).value <= Decimal(end).value
    ensures SpecText(start + "-" + end, spec) && WellFormed(spec)
  {
    var body := start + "-" + end;
    if start == [] {
      spec := Suffix(DigitsValue(end));
      assert Spells(end, spec.length) && body == "-" + end;
    } else if end == [] {
      spec := From(DigitsValue(start));
      assert Spells(start, spec.first) && body == start + "-";
    } else {
      spec := FromTo(DigitsValue(start), DigitsValue(end));
      assert Spells(start, spec.first) && Spells(end, spec.last);
    }
  }

  lemma HeaderHas(header: string, spec: RangeSpec, lead: string, unit: string, body: string, trail: string)
    requires AllBlank(lead) && AllBlank(trail) && EqIgnoreAsciiCase(unit, "bytes") && SpecText(body, spec)
    requires header == lead + (unit + "=" + body + trail)
    ensures HeaderFor(header, spec)
  {
    hide AllBlank, EqIgnoreAsciiCase, SpecText;
    assert header == lead + unit + "=" + body + trail;
  }

  /** The error split: a comma after a byte unit is reported as such, and nothing else is. */
  lemma MultipleRangesExactly(header: string, size: U64)
    ensures ParseHttpRange(header, size) == Err(MultipleRangesUnsupported)
       <==> exists unit, spec :: Trim(header) == unit + "=" + spec && EqIgnoreAsciiCase(unit, "bytes") && ',' in spec
  {
    if unit, spec :| Trim(header) == unit + "=" + spec && EqIgnoreAsciiCase(unit, "bytes") && ',' in spec {
      UnitHasNoSeparator(unit);
      SplitAtFirst(unit, '=', spec);
    }
  }

  // ----- The header the range client sends -----

  function Show(n: nat): (s: string)
    ensures s != [] && AllDigits(s)
  {
    var digit := [(n % 10 + '0' as int) as char];
    if n < 10 then digit else Show(n / 10) + digit
  }

  lemma {:induction false} ShowSpells(n: nat)
    ensures Spells(Show(n), n)
  {
    if n >= 10 {
      ShowSpells(n / 10);
      var s := Show(n);
      assert s[..|s| - 1] == Show(n / 10);
    }
  }

  /** First and last byte of a job, both inclusive. */
  function RangeHeader(first: nat, last: nat): string {
    "bytes=" + Show(first) + "-" + Show(last)
  }

  /** The header sent for a job parses back to exactly that job's interval, for every file that contains it. */
  lemma HeaderRoundTrip(first: U64, last: U64, size: U64)
    requires first <= last < size
    ensures ParseHttpRange(RangeHeader(first, last), size) == Ok(Interval(first, last + 1))
  {
    var spec := FromTo(first, last);
    HeaderIsFor(first, last);
    ParseComplete(RangeHeader(first, last), spec, size);
    assert first in Selected(spec, size) && last in Selected(spec, size);
    hide HeaderFor, RangeHeader, ParseHttpRange;
    SameSpan(ParseHttpRange(RangeHeader(first, last), size).value, Interval(first, last + 1), Selected(spec, size));
  }

  lemma HeaderIsFor(first: U64, last: U64)
    requires first <= last
    ensures HeaderFor(RangeHeader(first, last), FromTo(first, last))
  {
    ShowSpells(first);
    ShowSpells(last);
    hide Show, Spells, AllDigits, DigitsValue;
    var body := Show(first) + "-" + Show(last);
    var none: string, unit := "", "bytes";
    assert SpecText(body, FromTo(first, last)) && EqIgnoreAsciiCase(unit, "bytes") && AllBlank(none);
    assert RangeHeader(first, last) == none + unit + "=" + body + none;
  }

  lemma SameSpan(a: ByteRange, b: ByteRange, s: set<nat>)
    requires Span(a) == s && s == Span(b)
    ensures a == b
  {
    assert a.start in Span(a) && b.start in Span(b);
    assert a.end - 1 in Span(a) && b.end - 1 in Span(b);
  }
}
