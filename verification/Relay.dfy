/** relay.go: one long read served as a run of ranged requests of chunk bytes each. */
module Relay {
  import opened Options
  import opened Text
  import opened FileBytes

  // ----- the two headers -----

  datatype Asked = Asked(start: int, end: int, ranged: bool)

  const WHOLE := Asked(0, -1, false)

  const RANGE_PREFIX := "bytes="
  const SPAN_PREFIX := "bytes "

  /** parseRange: "bytes=start-[end]"; anything else means the whole stream. */
  function ParseRange(h: string): (r: Asked)
    ensures 0 <= r.start && (r.end == -1 || r.start <= r.end)
    ensures !r.ranged ==> r == WHOLE
  {
    var (spec, found) := CutPrefix(h, RANGE_PREFIX);
    if !found || ',' in spec then WHOLE
    else
      var (a, b, dash) := Cut(spec, '-');
      if !dash then WHOLE else Bounds(ParseInt(a), b)
  }

  function Bounds(start: Option<int>, b: string): Asked {
    if start.None? || start.value < 0 then WHOLE
    else if b == "" then Asked(start.value, -1, true)
    else
      var end := ParseInt(b);
      if end.None? || end.value < start.value then WHOLE else Asked(start.value, end.value, true)
  }

  datatype Span = Span(start: int, end: int, total: int)

  /** parseContentRange: "bytes start-end/total". */
  function ParseContentRange(h: string): Option<Span> {
    var (spec, found) := CutPrefix(h, SPAN_PREFIX);
    if !found then None
    else
      var (rng, tot, slash) := Cut(spec, '/');
      var (a, b, dash) := Cut(rng, '-');
      if !slash || !dash then None else AllThree(ParseInt(a), ParseInt(b), ParseInt(tot))
  }

  function AllThree(start: Option<int>, end: Option<int>, total: Option<int>): Option<Span> {
    if start.None? || end.None? || total.None? then None else Some(Span(start.value, end.value, total.value))
  }

  function RangeText(start: nat, end: nat): string {
    RANGE_PREFIX + (Itoa(start) + ['-'] + Itoa(end))
  }

  function OpenRangeText(start: nat): string {
    RANGE_PREFIX + (Itoa(start) + ['-'] + "")
  }

  function ContentRangeText(start: nat, end: nat, total: nat): string {
    SPAN_PREFIX + (Itoa(start) + ['-'] + Itoa(end) + ['/'] + Itoa(total))
  }

  lemma NoSeparator(n: nat, c: char)
    requires !IsDigit(c)
    ensures c !in Itoa(n)
  {
  }

  lemma RangeCuts(a: string, b: string)
    requires '-' !in a && ',' !in a && ',' !in b
    ensures var asked := ParseRange(RANGE_PREFIX + (a + ['-'] + b)); asked == Bounds(ParseInt(a), b)
  {
    CutPrefixOf(RANGE_PREFIX, a + ['-'] + b);
    CutAt(a, '-', b);
  }

  lemma SpanCuts(a: string, b: string, t: string)
    requires '-' !in a && '/' !in a && '/' !in b
    ensures ParseContentRange(SPAN_PREFIX + (a + ['-'] + b + ['/'] + t)) ==
            AllThree(ParseInt(a), ParseInt(b), ParseInt(t))
  {
    CutPrefixOf(SPAN_PREFIX, a + ['-'] + b + ['/'] + t);
    CutAt(a + ['-'] + b, '/', t);
    CutAt(a, '-', b);
  }

  /** A range as the relay itself prints it is read back as it was meant. */
  lemma RangeRoundTrip(start: nat, end: nat)
    requires start <= end <= MAX_INT
    ensures ParseRange(RangeText(start, end)) == Asked(start, end, true)
    ensures ParseRange(OpenRangeText(start)) == Asked(start, -1, true)
  {
    NoSeparator(start, '-');
    NoSeparator(start, ',');
    NoSeparator(end, ',');
    ParseOfItoa(start);
    ParseOfItoa(end);
    RangeCuts(Itoa(start), Itoa(end));
    RangeCuts(Itoa(start), "");
  }

  lemma ContentRangeRoundTrip(start: nat, end: nat, total: nat)
    requires start <= MAX_INT && end <= MAX_INT && total <= MAX_INT
    ensures ParseContentRange(ContentRangeText(start, end, total)) == Some(Span(start, end, total))
  {
    NoSeparator(start, '-');
    NoSeparator(start, '/');
    NoSeparator(end, '/');
    ParseOfItoa(start);
    ParseOfItoa(end);
    ParseOfItoa(total);
    SpanCuts(Itoa(start), Itoa(end), Itoa(total));
  }

  /** "bytes=a-b": a readable start that is not negative, and no end or one not before
      the start. */
  ghost predicate RangeSpec(h: string, a: string, b: string) {
    && h == RANGE_PREFIX + (a + ['-'] + b) && '-' !in a && ',' !in a && ',' !in b
    && ParseInt(a).Some? && ParseInt(a).value >= 0
    && (b == "" || (ParseInt(b).Some? && ParseInt(b).value >= ParseInt(a).value))
  }

  lemma RangeFound(h: string) returns (a: string, b: string)
    requires ParseRange(h).ranged
    ensures RangeSpec(h, a, b)
  {
    var spec := h[|RANGE_PREFIX|..];
    a, b := AtSeparator(spec, '-');
    assert ',' !in a && ',' !in b by {
      assert forall c :: c in a || c in b ==> c in a + ['-'] + b;
    }
    assert h == RANGE_PREFIX + spec;
  }

  /** What a range header asks for. */
  lemma RangeRead(h: string, a: string, b: string)
    requires RangeSpec(h, a, b)
    ensures ParseRange(h) == Asked(ParseInt(a).value, if b == "" then -1 else ParseInt(b).value, true)
  {
    RangeCuts(a, b);
  }

  /** Exactly the headers of that shape are ranges; anything else means the whole
      stream. */
  lemma ParseRangeIff(h: string)
    ensures ParseRange(h) != WHOLE <==> exists a, b :: RangeSpec(h, a, b)
  {
    if a, b :| RangeSpec(h, a, b) {
      RangeRead(h, a, b);
    }
    if ParseRange(h) != WHOLE {
      var a, b := RangeFound(h);
    }
  }

  /** A suffix range, "the last n bytes", means the whole stream. */
  lemma SuffixIsWhole(last: string)
    ensures ParseRange(RANGE_PREFIX + (['-'] + last)) == WHOLE
  {
    CutPrefixOf(RANGE_PREFIX, ['-'] + last);
    assert ['-'] + last == "" + ['-'] + last;
    CutAt("", '-', last);
  }

  /** "bytes a-b/t", the three texts being these numbers. */
  ghost predicate SpanSpec(h: string, s: Span, a: string, b: string, t: string) {
    && h == SPAN_PREFIX + (a + ['-'] + b + ['/'] + t) && '-' !in a && '/' !in a && '/' !in b
    && ParseInt(a) == Some(s.start) && ParseInt(b) == Some(s.end) && ParseInt(t) == Some(s.total)
  }

  lemma SpanFound(h: string, s: Span) returns (a: string, b: string, t: string)
    requires ParseContentRange(h) == Some(s)
    ensures SpanSpec(h, s, a, b, t)
  {
    var spec := h[|SPAN_PREFIX|..];
    var rng, tail := AtSeparator(spec, '/');
    t := tail;
    a, b := AtSeparator(rng, '-');
    assert '/' !in a && '/' !in b by {
      assert forall c :: c in a || c in b ==> c in a + ['-'] + b;
    }
    assert h == SPAN_PREFIX + spec;
  }

  lemma AtSeparator(s: string, sep: char) returns (a: string, b: string)
    requires Cut(s, sep).2
    ensures s == a + [sep] + b && sep !in a && Cut(s, sep) == (a, b, true)
  {
    var i := Index(s, sep);
    a, b := s[..i], s[i + 1..];
  }

  /** And a Content-Range is read only as start, end and total. */
  lemma ContentRangeIff(h: string, s: Span)
    ensures ParseContentRange(h) == Some(s) <==> exists a, b, t :: SpanSpec(h, s, a, b, t)
  {
    if a, b, t :| SpanSpec(h, s, a, b, t) {
      SpanCuts(a, b, t);
    }
    if ParseContentRange(h) == Some(s) {
      var a, b, t := SpanFound(h, s);
    }
  }

  // ----- the site -----

  /** What the site answers; broken says that the copy ends with an error after the
      body's bytes (the site or the client went away). */
  datatype Answer =
    | Partial(contentRange: string, body: Content, broken: bool)
    | Whole(contentLength: int, body: Content, broken: bool)
    | Unsatisfiable
    | OtherStatus

  type Site = (int, int) -> Answer

  function Min(a: int, b: int): int {
    if a < b then a else b
  }

  /** The site honours ranges: it answers with the asked range clipped at the length,
      or a first part of that, or it fails. */
  ghost predicate Honours(site: Site, source: Content) {
    forall pos, last :: 0 <= pos <= last ==> AnswersFor(site(pos, last), source, pos, last)
  }

  predicate AnswersFor(a: Answer, source: Content, pos: nat, last: nat)
    requires pos <= last
  {
    match a
    case Partial(contentRange, body, broken) =>
      && pos < |source|
      && contentRange == ContentRangeText(pos, Min(last, |source| - 1), |source|)
      && body <= source[pos..Min(last, |source| - 1) + 1]
      && (body != [] || broken)
    case Whole(_, _, _) => false
    case Unsatisfiable => pos >= |source|
    case OtherStatus => true
  }

  /** No request inside the stream fails. */
  ghost predicate Steady(site: Site, total: nat) {
    forall pos, last :: 0 <= pos < total && pos <= last ==> site(pos, last).Partial? && !site(pos, last).broken
  }

  // ----- serving -----

  datatype Reply =
    | BadGateway
    | Reply(partial: bool, contentLength: int, contentRange: string, body: Content)

  function Last(pos: int, end: int, chunk: int): int {
    if 0 <= end < pos + chunk - 1 then end else pos + chunk - 1
  }

  /** The end of what a request asks of a stream of total bytes. */
  function Resolved(end: int, total: int): int {
    if end < 0 || (total > 0 && end >= total) then total - 1 else end
  }

  class Target {
    const chunk: int
    var length: int

    constructor (chunk: int)
      requires chunk > 0
      ensures this.chunk == chunk && length == 0
    {
      this.chunk := chunk;
      length := 0;
    }

    /** One piece: chunk bytes from pos, or up to end if that comes first. */
    method Fetch(site: Site, pos: int, end: int) returns (resp: Option<Answer>)
      modifies this`length
      ensures var a := site(pos, Last(pos, end, chunk));
              resp == (if a.Partial? || a.Whole? then Some(a) else None)
      ensures var a := site(pos, Last(pos, end, chunk));
              length == if a.Partial? && ParseContentRange(a.contentRange).Some? then
                ParseContentRange(a.contentRange).value.total
              else if a.Whole? && a.contentLength > 0 && pos == 0 then a.contentLength
              else old(length)
    {
      var last := pos + chunk - 1;
      if 0 <= end < last {
        last := end;
      }
      var a := site(pos, last);
      match a {
        case Partial(contentRange, _, _) =>
          var span := ParseContentRange(contentRange);
          if span.Some? {
            length := span.value.total;
          }
        case Whole(contentLength, _, _) =>
          if contentLength > 0 && pos == 0 {
            length := contentLength;
          }
        case Unsatisfiable => return None;
        case OtherStatus => return None;
      }
      return Some(a);
    }

    /** What a piece from an honest site does: it is the next bytes, and the length is
        known from then on. */
    method Piece(site: Site, pos: int, end: int, ghost source: Content) returns (resp: Option<Answer>)
      requires chunk > 0 && 0 <= pos && (end == -1 || pos <= end) && |source| <= MAX_INT
      requires Honours(site, source) && (length == 0 || length == |source|)
      modifies this`length
      ensures length == old(length) || length == |source|
      ensures pos >= |source| ==> resp.None?
      ensures pos < |source| && Steady(site, |source|) ==> resp.Some? && resp.value.Partial? && !resp.value.broken
      ensures resp.Some? ==> length == |source| && resp.value.Partial? && pos < |source|
                             && resp.value.body <= source[pos..Min(Last(pos, end, chunk), |source| - 1) + 1]
                             && (resp.value.body != [] || resp.value.broken)
    {
      resp := Fetch(site, pos, end);
      ghost var last := Last(pos, end, chunk);
      assert AnswersFor(site(pos, last), source, pos, last);
      if resp.Some? {
        ContentRangeRoundTrip(pos, Min(last, |source| - 1), |source|);
      }
    }

    /** The copying loop from a first piece on. */
    method Copy(site: Site, start: int, end: int, first: Answer, ghost source: Content)
      returns (sent: Content, ghost pieces: seq<(int, int)>)
      requires chunk > 0 && |source| <= MAX_INT && Honours(site, source) && length == |source|
      requires 0 <= start <= end < |source|
      requires first.Partial? && first.body <= source[start..end + 1] && (first.body != [] || first.broken)
      requires Steady(site, |source|) ==> !first.broken
      modifies this`length
      ensures length == |source|
      ensures sent <= source[start..end + 1]
      ensures Steady(site, |source|) ==> sent == source[start..end + 1]
      ensures InOrder(pieces, start + 1, end, chunk) && FullPieces(pieces, {end}, chunk)
    {
      var pos, body := start, first;
      sent, pieces := [], [];
      while true
        invariant length == |source| && start <= pos <= end && body.Partial?
        invariant sent == source[start..pos]
        invariant body.body <= source[pos..end + 1] && (body.body != [] || body.broken)
        invariant Steady(site, |source|) ==> !body.broken
        invariant InOrder(pieces, start + 1, pos, chunk) && FullPieces(pieces, {end}, chunk)
        decreases end - pos + 1
      {
        Extended(source, start, pos, end, body.body);
        sent := sent + body.body;
        pos := pos + |body.body|;
        if body.broken || length <= 0 || pos > end {
          break;
        }
        var next := Piece(site, pos, end, source);
        pieces := pieces + [(pos, Last(pos, end, chunk))];
        if next.None? {
          break;
        }
        body := next.value;
      }
    }

    /** A parsed range served from an honest site: the announced length and range are
        those of source[start..end], and the bytes sent are a first part of it, all of
        it when no request fails. Every piece asked for begins within the asked range and
        is no longer than chunk. */
    method ServeRange(start: int, asked: int, ranged: bool, head: bool, site: Site, ghost source: Content)
      returns (reply: Reply, ghost pieces: seq<(int, int)>)
      requires chunk > 0 && |source| <= MAX_INT && 0 <= start && (asked == -1 || start <= asked)
      requires Honours(site, source) && (length == 0 || length == |source|)
      modifies this`length
      ensures length == 0 || length == |source|
      ensures Serves(reply, source, start, Resolved(asked, |source|), ranged, head, Steady(site, |source|))
      ensures InOrder(pieces, start, Resolved(asked, |source|), chunk)
      ensures FullPieces(pieces, {asked, Resolved(asked, |source|)}, chunk)
    {
      pieces := [];
      var resp := Piece(site, start, asked, source);
      if resp.None? {
        return BadGateway, pieces;
      }
      var first := resp.value;
      var end := asked;
      if end < 0 || (length > 0 && end >= length) {
        end := length - 1;
      }
      Wider(source, start, Min(Last(start, asked, chunk), |source| - 1), end, first.body);
      var partial := ranged && length > 0;
      var contentRange := if partial then ContentRangeText(start, end, length) else "";
      var contentLength := if length > 0 then end - start + 1 else -1;
      var sent := [];
      if !head {
        sent, pieces := Copy(site, start, end, first, source);
      }
      FirstPiece(pieces, start, end, asked, chunk);
      pieces := [(start, Last(start, asked, chunk))] + pieces;
      Announced(source, start, end, ranged, head, Steady(site, |source|), sent);
      return Reply(partial, contentLength, contentRange, sent), pieces;
    }

    /** A range header served; a HEAD request is answered as for the whole stream. */
    method Serve(range: string, head: bool, site: Site, ghost source: Content)
      returns (reply: Reply, ghost pieces: seq<(int, int)>)
      requires chunk > 0 && |source| <= MAX_INT
      requires Honours(site, source) && (length == 0 || length == |source|)
      modifies this`length
      ensures length == 0 || length == |source|
      ensures var asked := if head then WHOLE else ParseRange(range);
              && Serves(reply, source, asked.start, Resolved(asked.end, |source|),
                        ParseRange(range).ranged, head, Steady(site, |source|))
              && InOrder(pieces, asked.start, Resolved(asked.end, |source|), chunk)
              && FullPieces(pieces, {asked.end, Resolved(asked.end, |source|)}, chunk)
    {
      var asked := ParseRange(range);
      var start, end := asked.start, asked.end;
      if head {
        start, end := 0, -1;
      }
      reply, pieces := ServeRange(start, end, asked.ranged, head, site, source);
    }
  }

  /** What a reply to the range [start, end] of an honest site's stream says and sends;
      steady, when no request failed. */
  ghost predicate Serves(reply: Reply, source: Content, start: int, end: int, ranged: bool, head: bool, steady: bool) {
    && (start >= |source| ==> reply.BadGateway?)
    && (0 <= start < |source| && steady ==> reply.Reply?)
    && (reply.Reply? ==>
          && 0 <= start <= end < |source|
          && reply.partial == ranged
          && reply.contentLength == |source[start..end + 1]|
          && reply.contentRange == (if ranged then ContentRangeText(start, end, |source|) else "")
          && reply.body <= source[start..end + 1]
          && (head ==> reply.body == [])
          && (!head && steady ==> reply.body == source[start..end + 1]))
  }

  lemma Announced(source: Content, start: int, end: int, ranged: bool, head: bool, steady: bool, sent: Content)
    requires 0 <= start <= end < |source| && sent <= source[start..end + 1]
    requires if head then sent == [] else (steady ==> sent == source[start..end + 1])
    ensures Serves(Reply(ranged, end - start + 1, if ranged then ContentRangeText(start, end, |source|) else "", sent),
                   source, start, end, ranged, head, steady)
  {
  }

  /** Pieces asked for one after the other from inside the range, none longer than chunk. */
  ghost predicate InOrder(pieces: seq<(int, int)>, start: int, end: int, chunk: int) {
    && (forall k :: 0 <= k < |pieces| ==> start <= pieces[k].0 <= end
                                          && pieces[k].0 <= pieces[k].1 < pieces[k].0 + chunk)
    && (forall j, k :: 0 <= j < k < |pieces| ==> pieces[j].0 < pieces[k].0)
  }

  /** Each of chunk bytes unless it goes up to one of these ends. */
  predicate FullPieces(pieces: seq<(int, int)>, ends: set<int>, chunk: int) {
    forall k :: 0 <= k < |pieces| ==> pieces[k].1 == pieces[k].0 + chunk - 1 || pieces[k].1 in ends
  }

  lemma FirstPiece(rest: seq<(int, int)>, start: int, end: int, asked: int, chunk: int)
    requires InOrder(rest, start + 1, end, chunk) && FullPieces(rest, {end}, chunk)
    requires chunk > 0 && start <= end && (asked == -1 || start <= asked)
    ensures InOrder([(start, Last(start, asked, chunk))] + rest, start, end, chunk)
    ensures FullPieces([(start, Last(start, asked, chunk))] + rest, {asked, end}, chunk)
  {
    var all := [(start, Last(start, asked, chunk))] + rest;
    assert forall k :: 0 < k < |all| ==> all[k] == rest[k - 1];
  }

  lemma Wider(source: Content, start: nat, mid: int, end: int, body: Content)
    requires start <= mid <= end < |source| && body <= source[start..mid + 1]
    ensures body <= source[start..end + 1]
  {
    assert body == source[start..mid + 1][..|body|];
  }

  lemma Extended(source: Content, start: nat, pos: nat, end: nat, body: Content)
    requires start <= pos <= end < |source| && body <= source[pos..end + 1]
    ensures source[start..pos] + body == source[start..pos + |body|]
    ensures source[start..pos + |body|] <= source[start..end + 1]
  {
    assert body == source[pos..end + 1][..|body|];
  }
}
