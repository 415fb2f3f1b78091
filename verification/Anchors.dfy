/** Version-stable source anchors: their text form, its parser, and how the evaluation executor derives
    them from retrieved chunks. */
module Anchors {
  import opened Prelude
  import opened PyText
  import opened Fusion
  import opened PageWindow
  import opened PageWindowLaws

  // ---------------------------------------------------------------- decimal and hexadecimal text

  function Power(base: nat, exponent: nat): (p: nat)
    requires base >= 1
    ensures p >= 1
  {
    if exponent == 0 then 1 else Power(base, exponent - 1) * base
  }

  predicate IsDigit(c: char) {
    '0' <= c <= '9'
  }

  function Decimal(n: nat): (s: string)
    ensures s != "" && forall i :: 0 <= i < |s| ==> IsDigit(s[i])
  {
    var digit := '0' + (n % 10) as char;
    if n < 10 then [digit] else Decimal(n / 10) + [digit]
  }

  function ParseDigits(s: string): Option<nat> {
    if s == "" || !IsDigit(s[|s| - 1]) then None
    else
      var digit := (s[|s| - 1] - '0') as nat;
      if |s| == 1 then Some(digit)
      else
        match ParseDigits(s[..|s| - 1])
        case None => None
        case Some(n) => Some(n * 10 + digit)
  }

  /** `int(text)`: surrounding whitespace and a sign are accepted. */
  function ParseInt(text: string): Option<int> {
    ParseSigned(Strip(text))
  }

  function ParseSigned(s: string): Option<int> {
    var signed := s != "" && (s[0] == '-' || s[0] == '+');
    match ParseDigits(if signed then s[1..] else s)
    case None => None
    case Some(n) =>
      var value: int := n;
      Some(if signed && s[0] == '-' then -value else value)
  }

  lemma {:induction false} DecimalRoundTrip(n: nat)
    ensures ParseDigits(Decimal(n)) == Some(n)
  {
    if n >= 10 {
      DecimalRoundTrip(n / 10);
      assert Decimal(n)[..|Decimal(n)| - 1] == Decimal(n / 10);
    }
  }

  lemma DigitsAreKept(s: string)
    requires s != "" && forall i :: 0 <= i < |s| ==> IsDigit(s[i])
    ensures Strip(s) == s && s[0] != '-' && s[0] != '+'
  {
    assert !IsSpace(s[0]) && !IsSpace(s[|s| - 1]) by {
      DigitIsNoSpace(s[0]);
      DigitIsNoSpace(s[|s| - 1]);
    }
  }

  lemma DigitIsNoSpace(c: char)
    requires IsDigit(c)
    ensures !IsSpace(c)
  {
    NotInRanges(c, SPACE_RANGES);
  }

  lemma {:induction false} NotInRanges(c: char, ranges: seq<(char, char)>)
    requires forall i :: 0 <= i < |ranges| ==> !(ranges[i].0 <= c <= ranges[i].1)
    ensures !InRanges(c, ranges)
  {
    if ranges != [] {
      NotInRanges(c, ranges[1..]);
    }
  }

  lemma {:induction false} DigitsAreNeeded(s: string)
    ensures ParseDigits(s).Some? <==> s != "" && forall i :: 0 <= i < |s| ==> IsDigit(s[i])
  {
    if |s| > 1 {
      var front := s[..|s| - 1];
      DigitsAreNeeded(front);
      assert s == front + [s[|s| - 1]];
    }
  }

  ghost function WithoutSign(s: string): string {
    if s != "" && (s[0] == '-' || s[0] == '+') then s[1..] else s
  }

  /** Around the digits, whitespace and one sign are accepted, and nothing else. */
  lemma IntNeedsDigits(text: string)
    ensures ParseInt(text).Some? <==>
              var digits := WithoutSign(Strip(text)); digits != "" && forall i :: 0 <= i < |digits| ==> IsDigit(digits[i])
  {
    DigitsAreNeeded(WithoutSign(Strip(text)));
    hide Strip, ParseDigits;
  }

  lemma SignedDigits(sign: string, digits: string, n: nat)
    requires (sign == "" && digits != "" && digits[0] != '-' && digits[0] != '+') || sign == "+" || sign == "-"
    requires ParseDigits(digits) == Some(n)
    ensures ParseSigned(sign + digits).Some? && ParseSigned(sign + digits).value == if sign == "-" then 0 - n else n
  {
    hide ParseDigits;
    var s := sign + digits;
    if sign == "" {
      assert s == digits;
    } else {
      assert s[0] == sign[0] && s[1..] == digits;
    }
  }

  lemma SignedInt(text: string, sign: string, n: nat)
    requires Strip(text) == sign + Decimal(n) && (sign == "" || sign == "+" || sign == "-")
    ensures ParseInt(text).Some? && ParseInt(text).value == if sign == "-" then 0 - n else n
  {
    hide *;
    DigitsAreKept(Decimal(n));
    DecimalRoundTrip(n);
    SignedDigits(sign, Decimal(n), n);
    IsSigned(text);
  }

  lemma IsSigned(text: string)
    ensures ParseInt(text) == ParseSigned(Strip(text))
  {
    hide Strip, ParseSigned;
  }

  lemma IntRoundTrip(n: nat)
    ensures ParseInt(Decimal(n)) == Some(n)
  {
    DigitsAreKept(Decimal(n));
    DecimalRoundTrip(n);
  }

  function HexDigit(d: nat): (c: char)
    requires d < 16
    ensures c != '-' && c != '@' && HexValue(c) == Some(d) && c == "0123456789abcdef"[d]
  {
    if d < 10 then '0' + d as char else 'a' + (d - 10) as char
  }

  function HexValue(c: char): (d: Option<nat>)
    ensures d.Some? ==> d.value < 16
  {
    if '0' <= c <= '9' then Some((c - '0') as nat)
    else if 'a' <= c <= 'f' then Some((c - 'a') as nat + 10)
    else if 'A' <= c <= 'F' then Some((c - 'A') as nat + 10)
    else None
  }

  function Hex(n: nat, width: nat): (s: string)
    ensures |s| == width && '-' !in s && '@' !in s
  {
    if width == 0 then "" else Hex(n / 16, width - 1) + [HexDigit(n % 16)]
  }

  function ParseHex(s: string): (n: Option<nat>)
    ensures n.Some? ==> n.value < Power(16, |s|)
    ensures n.Some? <==> forall i :: 0 <= i < |s| ==> HexValue(s[i]).Some?
  {
    if s == "" then Some(0)
    else
      match (ParseHex(s[..|s| - 1]), HexValue(s[|s| - 1]))
      case (Some(n), Some(d)) => Some(n * 16 + d)
      case _ => None
  }

  /** Either case is read. */
  lemma CaseIsIgnored(c: char)
    requires 'a' <= c <= 'f'
    ensures HexValue('A' + (c - 'a')) == HexValue(c)
  {
  }

  lemma {:induction false} HexRoundTrip(n: nat, width: nat)
    requires n < Power(16, width)
    ensures ParseHex(Hex(n, width)) == Some(n)
  {
    if width > 0 {
      HexRoundTrip(n / 16, width - 1);
      assert Hex(n, width)[..width - 1] == Hex(n / 16, width - 1);
    }
  }

  lemma Distributes(d: nat, a: nat, b: nat)
    ensures d * (a + b) == d * a + d * b && d * b >= 0
  {
  }

  lemma Grows(d: nat, x: nat, y: nat)
    ensures x < y ==> d * x + d <= d * y
    ensures y < x ==> d * y + d <= d * x
  {
    if x < y {
      Distributes(d, x + 1, y - x - 1);
      Distributes(d, x, 1);
    }
    if y < x {
      Distributes(d, y + 1, x - y - 1);
      Distributes(d, y, 1);
    }
  }

  lemma QuotientIs(n: nat, d: nat, q: nat, r: nat)
    requires d >= 1 && n == d * q + r && r < d
    ensures n / d == q
  {
    Grows(d, n / d, q);
    assert n == d * (n / d) + n % d;
  }

  lemma Regroup(a: nat, b: nat, q: nat, m: nat, r: nat)
    requires m == b * q + r
    ensures a * m == (b * a) * q + a * r
  {
    Distributes(a, b * q, r);
  }

  lemma DivideTwice(n: nat, a: nat, b: nat)
    requires a >= 1 && b >= 1
    ensures b * a >= 1 && n / a / b == n / (b * a)
  {
    var m := n / a;
    var q, r := m / b, m % b;
    assert n == a * m + n % a;
    assert m == b * q + r;
    Regroup(a, b, q, m, r);
    Grows(a, r, b);
    Grows(b, 0, a);
    QuotientIs(n, b * a, q, a * r + n % a);
  }

  /** Every digit stands for its power of the base, in lower case. */
  lemma {:induction false} HexPositions(n: nat, width: nat, k: nat)
    requires k < width
    ensures Hex(n, width)[width - 1 - k] == "0123456789abcdef"[(n / Power(16, k)) % 16]
  {
    if k > 0 {
      HexPositions(n / 16, width - 1, k - 1);
      DivideTwice(n, 16, Power(16, k - 1));
    }
  }

  lemma {:induction false} DecimalPositions(n: nat, k: nat)
    requires k < |Decimal(n)|
    ensures Decimal(n)[|Decimal(n)| - 1 - k] == "0123456789"[(n / Power(10, k)) % 10]
  {
    if k > 0 {
      DecimalPositions(n / 10, k - 1);
      DivideTwice(n, 10, Power(10, k - 1));
    } else {
      LastDigit(n % 10);
    }
  }

  lemma LastDigit(d: nat)
    requires d < 10
    ensures '0' + d as char == "0123456789"[d]
  {
  }

  /** Every digit stands for its power of ten, and there is no leading zero. */
  lemma {:induction false} NoLeadingZero(n: nat)
    ensures n >= 10 ==> Decimal(n)[0] != '0'
  {
    if n >= 10 {
      NoLeadingZero(n / 10);
    }
  }

  // ---------------------------------------------------------------- UUID text

  const UUIDS: nat := Power(16, 32)

  /** `str(UUID)`: 32 lower-case digits in groups of 8, 4, 4, 4 and 12. */
  function UuidText(u: Uuid): (s: string)
    ensures |s| == 36 && '@' !in s
  {
    var h := Hex(u, 32);
    h[..8] + "-" + h[8..12] + "-" + h[12..16] + "-" + h[16..20] + "-" + h[20..]
  }

  function WithoutDashes(s: string): (r: string)
    ensures '-' !in s ==> r == s
  {
    if s == "" then "" else (if s[0] == '-' then "" else [s[0]]) + WithoutDashes(s[1..])
  }

  /** `UUID(text)`: hyphens may stand anywhere or be missing. */
  function ParseUuid(s: string): (u: Option<Uuid>)
    ensures u.Some? ==> u.value < UUIDS
  {
    var digits := WithoutDashes(s);
    if |digits| == 32 then ParseHex(digits) else None
  }

  lemma {:induction false} DashesJoin(a: string, b: string)
    ensures WithoutDashes(a + b) == WithoutDashes(a) + WithoutDashes(b)
  {
    if a == "" {
      assert a + b == b;
    } else {
      assert (a + b)[1..] == a[1..] + b;
      DashesJoin(a[1..], b);
    }
  }

  lemma DashBefore(a: string, b: string)
    requires '-' !in b
    ensures WithoutDashes(a + "-" + b) == WithoutDashes(a) + b
  {
    DashAlone();
    hide *;
    DashesJoin(a + "-", b);
    DashesJoin(a, "-");
    assert WithoutDashes(b) == b;
  }

  lemma DashAlone()
    ensures WithoutDashes("-") == ""
  {
  }

  lemma DigitsOfText(a: string, b: string, c: string, d: string, e: string)
    requires '-' !in a && '-' !in b && '-' !in c && '-' !in d && '-' !in e
    ensures WithoutDashes(a + "-" + b + "-" + c + "-" + d + "-" + e) == a + b + c + d + e
  {
    DashBefore(a, b);
    DashBefore(a + "-" + b, c);
    DashBefore(a + "-" + b + "-" + c, d);
    DashBefore(a + "-" + b + "-" + c + "-" + d, e);
  }

  lemma TextDigits(u: Uuid)
    ensures WithoutDashes(UuidText(u)) == Hex(u, 32)
  {
    hide Hex, WithoutDashes;
    var h := Hex(u, 32);
    DigitsOfText(h[..8], h[8..12], h[12..16], h[16..20], h[20..]);
    assert h[..8] + h[8..12] + h[12..16] + h[16..20] + h[20..] == h;
  }

  lemma UuidRoundTrip(u: Uuid)
    requires u < UUIDS
    ensures ParseUuid(UuidText(u)) == Some(u)
  {
    HexRoundTrip(u, 32);
    TextDigits(u);
    hide Hex, ParseHex, WithoutDashes, UuidText;
  }

  // ---------------------------------------------------------------- source spans

  datatype SourceSpan = SourceSpan(versionId: Uuid, page: int, start: int, end: int)

  /** What the constructor checks; every version identifier has 128 bits. */
  predicate IsSpan(s: SourceSpan) {
    s.versionId < UUIDS && s.page >= 1 && s.start >= 0 && s.end > s.start
  }

  function Encode(s: SourceSpan): string
    requires IsSpan(s)
  {
    UuidText(s.versionId) + "@" + (Decimal(s.page) + ":" + (Decimal(s.start) + ":" + Decimal(s.end)))
  }

  /** `text.split(separator, 1)` when the separator occurs. */
  function SplitOnce(s: string, separator: char): (parts: Option<(string, string)>)
    ensures parts.None? <==> separator !in s
    ensures parts.Some? ==> s == parts.value.0 + [separator] + parts.value.1 && separator !in parts.value.0
  {
    if s == "" then None
    else if s[0] == separator then Some(("", s[1..]))
    else
      match SplitOnce(s[1..], separator)
      case None => None
      case Some((a, b)) => Some(([s[0]] + a, b))
  }

  function Parse(text: string): (span: Option<SourceSpan>)
    ensures span.Some? ==> IsSpan(span.value)
  {
    match SplitOnce(text, '@')
    case None => None
    case Some((version, rest)) =>
      match SplitOnce(rest, ':')
      case None => None
      case Some((page, offsets)) =>
        match SplitOnce(offsets, ':')
        case None => None
        case Some((start, end)) =>
          match (ParseUuid(version), ParseInt(page), ParseInt(start), ParseInt(end))
          case (Some(v), Some(p), Some(a), Some(b)) =>
            var span := SourceSpan(v, p, a, b);
            if IsSpan(span) then Some(span) else None
          case _ => None
  }

  lemma {:induction false} SplitAt(a: string, separator: char, b: string)
    requires separator !in a
    ensures SplitOnce(a + [separator] + b, separator) == Some((a, b))
  {
    var s := a + [separator] + b;
    if a == "" {
      assert s[1..] == b;
    } else {
      assert s[0] == a[0] != separator && [a[0]] + a[1..] == a;
      assert s[1..] == a[1..] + [separator] + b;
      SplitAt(a[1..], separator, b);
    }
  }

  lemma SplitRest(a: nat, b: string)
    ensures SplitOnce(Decimal(a) + ":" + b, ':') == Some((Decimal(a), b))
  {
    SplitAt(Decimal(a), ':', b);
  }

  /** Parsing an encoded span gives the span back. */
  lemma RoundTrip(s: SourceSpan)
    requires IsSpan(s)
    ensures Parse(Encode(s)) == Some(s)
  {
    hide UuidText, Decimal, ParseUuid, ParseInt, SplitOnce;
    SplitAt(UuidText(s.versionId), '@', Decimal(s.page) + ":" + (Decimal(s.start) + ":" + Decimal(s.end)));
    SplitRest(s.page, Decimal(s.start) + ":" + Decimal(s.end));
    SplitRest(s.start, Decimal(s.end));
    UuidRoundTrip(s.versionId);
    IntRoundTrip(s.page);
    IntRoundTrip(s.start);
    IntRoundTrip(s.end);
  }

  /** The text of an anchor: version, page, start and end in this order. */
  lemma AnchorText(version: Uuid)
    requires version < UUIDS
    ensures Encode(SourceSpan(version, 12, 0, 340)) == UuidText(version) + "@12:0:340"
  {
    hide UuidText;
    assert Decimal(1) == "1" && Decimal(12) == "12";
    assert Decimal(0) == "0";
    assert Decimal(3) == "3" && Decimal(34) == "34" && Decimal(340) == "340";
  }

  /** An anchor identifies its span. */
  lemma EncodeIsInjective(s: SourceSpan, t: SourceSpan)
    requires IsSpan(s) && IsSpan(t)
    ensures Encode(s) == Encode(t) <==> s == t
  {
    RoundTrip(s);
    RoundTrip(t);
  }

  // ---------------------------------------------------------------- anchors of retrieved chunks

  /** The original source span of a chunk of an indexed copy; none where the executor raises. */
  function SpanOf(chunk: RetrievedChunk, sourceVersions: map<Uuid, Uuid>): (span: Option<SourceSpan>)
    ensures span.Some? ==> IsSpan(span.value)
    ensures span.None? <==>
              || chunk.pageNumber.None? || chunk.pageNumber.value == 0 || chunk.endOffset <= chunk.startOffset
              || chunk.versionId !in sourceVersions || sourceVersions[chunk.versionId] >= UUIDS
    ensures span.Some? ==>
              && span.value.versionId == sourceVersions[chunk.versionId] && Some(span.value.page) == chunk.pageNumber
              && span.value.start == chunk.startOffset && span.value.end == chunk.endOffset
  {
    if chunk.pageNumber.None? || chunk.endOffset <= chunk.startOffset || chunk.versionId !in sourceVersions then None
    else
      var span := SourceSpan(sourceVersions[chunk.versionId], chunk.pageNumber.value, chunk.startOffset, chunk.endOffset);
      if IsSpan(span) then Some(span) else None
  }

  function Spans(chunks: seq<RetrievedChunk>, sourceVersions: map<Uuid, Uuid>): (spans: Option<seq<SourceSpan>>)
    ensures spans.Some? <==> forall c :: c in chunks ==> SpanOf(c, sourceVersions).Some?
    ensures spans.Some? ==> |spans.value| == |chunks| && forall i :: 0 <= i < |chunks| ==>
        Some(spans.value[i]) == SpanOf(chunks[i], sourceVersions)
  {
    if forall c :: c in chunks ==> SpanOf(c, sourceVersions).Some? then
      Some(seq(|chunks|, i requires 0 <= i < |chunks| => SpanOf(chunks[i], sourceVersions).value))
    else None
  }

  /** The row of a stored chunk as retrieval returns it. */
  function AsRetrieved(chunk: DocumentChunk, chunkId: Uuid, documentId: Uuid, versionId: Uuid): RetrievedChunk {
    RetrievedChunk(chunkId, documentId, versionId, chunk.text, Some(chunk.pageNumber), chunk.startOffset, chunk.endOffset)
  }

  /** Whatever the chunker stored can be anchored: the executor never rejects its offsets, and the anchor
      names the very slice of the text that the chunk quotes. */
  lemma StoredChunksHaveAnchors(c: Config, text: string, j: nat, chunkId: Uuid, documentId: Uuid, versionId: Uuid,
                                sourceVersions: map<Uuid, Uuid>)
    requires c.Valid() && j < |DocumentChunks(c, text)| && versionId in sourceVersions && sourceVersions[versionId] < UUIDS
    ensures var chunk := DocumentChunks(c, text)[j];
            var span := SpanOf(AsRetrieved(chunk, chunkId, documentId, versionId), sourceVersions);
            && span.Some? && 0 <= span.value.start < span.value.end <= |text|
            && text[span.value.start..span.value.end] == chunk.text && span.value.page == chunk.pageNumber
  {
    ChunksAreExactCitations(c, text, j);
    hide DocumentChunks, Count;
  }

  predicate AreSpans(spans: seq<SourceSpan>) {
    forall i :: 0 <= i < |spans| ==> IsSpan(spans[i])
  }

  function EncodeAll(spans: seq<SourceSpan>): (anchors: seq<string>)
    requires AreSpans(spans)
    ensures |anchors| == |spans| && forall i :: 0 <= i < |spans| ==> anchors[i] == Encode(spans[i])
  {
    seq(|spans|, i requires 0 <= i < |spans| => Encode(spans[i]))
  }

  function ParseAll(anchors: seq<string>): (spans: Option<seq<SourceSpan>>)
    ensures spans.Some? <==> forall a :: a in anchors ==> Parse(a).Some?
    ensures spans.Some? ==> |spans.value| == |anchors| && forall i :: 0 <= i < |anchors| ==>
        Some(spans.value[i]) == Parse(anchors[i])
  {
    if forall a :: a in anchors ==> Parse(a).Some? then
      Some(seq(|anchors|, i requires 0 <= i < |anchors| => Parse(anchors[i]).value))
    else None
  }

  lemma ParsedSpans(spans: seq<SourceSpan>)
    requires AreSpans(spans)
    ensures ParseAll(EncodeAll(spans)) == Some(spans)
  {
    hide Parse, Encode, IsSpan;
    var anchors := EncodeAll(spans);
    forall i | 0 <= i < |spans| ensures Parse(anchors[i]) == Some(spans[i]) {
      RoundTrip(spans[i]);
    }
    assert ParseAll(anchors).value == spans;
  }

  function Flat(lists: seq<seq<RetrievedChunk>>): seq<RetrievedChunk> {
    if lists == [] then [] else lists[0] + Flat(lists[1..])
  }

  /** The lists one after the other. */
  lemma {:induction false} FlatJoins(a: seq<seq<RetrievedChunk>>, b: seq<seq<RetrievedChunk>>, list: seq<RetrievedChunk>)
    ensures Flat(a + b) == Flat(a) + Flat(b) && Flat([list]) == list && Flat([]) == []
  {
    assert Flat([list]) == [list][0] + Flat([list][1..]);
    if a == [] {
      assert a + b == b;
    } else {
      assert (a + b)[1..] == a[1..] + b;
      FlatJoins(a[1..], b, list);
    }
  }

  /** The combined ranking of several cohorts: every anchor at its first appearance. */
  function Flatten(lists: seq<seq<RetrievedChunk>>, sourceVersions: map<Uuid, Uuid>): (anchors: Option<seq<string>>)
    ensures anchors.Some? <==> forall c :: c in Flat(lists) ==> SpanOf(c, sourceVersions).Some?
  {
    match Spans(Flat(lists), sourceVersions)
    case None => None
    case Some(spans) => Some(Dedup(EncodeAll(spans)))
  }

  lemma {:induction false} DedupAnchors(spans: seq<SourceSpan>)
    requires AreSpans(spans)
    ensures AreSpans(Dedup(spans)) && Dedup(EncodeAll(spans)) == EncodeAll(Dedup(spans))
  {
    hide Encode, IsSpan;
    if spans != [] {
      var front, last := spans[..|spans| - 1], spans[|spans| - 1];
      DedupAnchors(front);
      assert EncodeAll(spans)[..|spans| - 1] == EncodeAll(front);
      assert spans == front + [last];
      SameMembership(Dedup(front), last);
      assert EncodeAll(Dedup(spans)) == Dedup(EncodeAll(spans));
    }
  }

  lemma SameMembership(spans: seq<SourceSpan>, span: SourceSpan)
    requires AreSpans(spans) && IsSpan(span)
    ensures Encode(span) in EncodeAll(spans) <==> span in spans
  {
    hide Encode;
    if span in spans {
      var i :| 0 <= i < |spans| && spans[i] == span;
      assert EncodeAll(spans)[i] == Encode(span);
    }
    if Encode(span) in EncodeAll(spans) {
      var i :| 0 <= i < |spans| && EncodeAll(spans)[i] == Encode(span);
      EncodeIsInjective(spans[i], span);
    }
  }

  /** Reading the combined ranking back gives the distinct source spans in order of first appearance: two
      chunks share an anchor only when they share their source span. */
  lemma FlattenKeepsSpans(lists: seq<seq<RetrievedChunk>>, sourceVersions: map<Uuid, Uuid>)
    requires Spans(Flat(lists), sourceVersions).Some?
    ensures Flatten(lists, sourceVersions).Some?
    ensures ParseAll(Flatten(lists, sourceVersions).value) == Some(Dedup(Spans(Flat(lists), sourceVersions).value))
  {
    var spans := Spans(Flat(lists), sourceVersions).value;
    assert AreSpans(spans) by {
      forall i | 0 <= i < |spans| ensures IsSpan(spans[i]) {
        assert Some(spans[i]) == SpanOf(Flat(lists)[i], sourceVersions);
      }
    }
    DedupAnchors(spans);
    ParsedSpans(Dedup(spans));
  }

  // ---------------------------------------------------------------- the order of UUID text

  /** Text order: the first position where the two differ decides. */
  ghost predicate TextLess(s: string, t: string) {
    exists k :: 0 <= k < |s| && k < |t| && s[..k] == t[..k] && s[k] < t[k]
  }

  lemma {:induction false} HexOrder(a: nat, b: nat, width: nat) returns (k: nat)
    requires a < b < Power(16, width)
    ensures k < width && Hex(a, width)[..k] == Hex(b, width)[..k] && Hex(a, width)[k] < Hex(b, width)[k]
  {
    var s, t := Hex(a, width), Hex(b, width);
    if a / 16 == b / 16 {
      k := width - 1;
      assert s[..k] == Hex(a / 16, k) == t[..k];
      HigherDigit(a % 16, b % 16);
    } else {
      k := HexOrder(a / 16, b / 16, width - 1);
      assert s[..k] == Hex(a / 16, width - 1)[..k] && t[..k] == Hex(b / 16, width - 1)[..k];
    }
  }

  lemma HigherDigit(d: nat, e: nat)
    requires d < e < 16
    ensures HexDigit(d) < HexDigit(e)
  {
  }

  /** Where digit `k` stands in the text: one hyphen more after the digits 8, 12, 16 and 20. */
  function Place(k: nat): nat {
    k + if k < 8 then 0 else if k < 12 then 1 else if k < 16 then 2 else if k < 20 then 3 else 4
  }

  lemma DigitPlace(u: Uuid, k: nat)
    requires k < 32
    ensures Place(k) < 36 && UuidText(u)[Place(k)] == Hex(u, 32)[k]
  {
    hide Hex;
  }

  /** The canonical text, character by character. */
  lemma UuidTextLayout(u: Uuid, k: nat)
    requires k < 32
    ensures UuidText(u)[Place(k)] == "0123456789abcdef"[(u / Power(16, 31 - k)) % 16]
    ensures UuidText(u)[8] == UuidText(u)[13] == UuidText(u)[18] == UuidText(u)[23] == '-'
  {
    DigitPlace(u, k);
    HexPositions(u, 32, 31 - k);
    hide Power, Hex;
  }

  lemma SamePrefix(u: Uuid, v: Uuid, k: nat)
    requires k < 32 && Hex(u, 32)[..k] == Hex(v, 32)[..k]
    ensures UuidText(u)[..Place(k)] == UuidText(v)[..Place(k)]
  {
    hide Hex;
    var g, h := Hex(u, 32), Hex(v, 32);
    forall p | 0 <= p < Place(k) ensures UuidText(u)[p] == UuidText(v)[p] {
      var d := if p < 9 then p else if p < 14 then p - 1 else if p < 19 then p - 2 else if p < 24 then p - 3 else p - 4;
      if p !in {8, 13, 18, 23} {
        assert d < k && Place(d) == p;
        assert g[..k][d] == h[..k][d];
        DigitPlace(u, d);
        DigitPlace(v, d);
      }
    }
  }

  /** Ordering identifiers by their text is ordering them as numbers, as every tie-break by text here does. */
  lemma TextOrderIsNumberOrder(u: Uuid, v: Uuid)
    requires u < v < UUIDS
    ensures TextLess(UuidText(u), UuidText(v))
  {
    var k := HexOrder(u, v, 32);
    hide UuidText, Hex;
    SamePrefix(u, v, k);
    DigitPlace(u, k);
    DigitPlace(v, k);
    assert UuidText(u)[Place(k)] < UuidText(v)[Place(k)];
  }
}
