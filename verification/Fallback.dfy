/** The chunked downloader's single stream against runSingle: one run of the machine
    from opening the file on is one run of SingleStream's model, and the other way
    round. */
module Fallback {
  import opened FileBytes
  import opened Chunks
  import opened ChunkedDownload
  import opened ChunkedRuns
  import opened Histories
  import opened Options
  import opened SingleStream

  predicate CopyEvent(e: Event) {
    e.Append? || e.SingleEof?
  }

  /** h goes on from g by the copy loop's own steps. */
  ghost predicate Streams(g: Past, h: Past) {
    h == g || (h.Then? && CopyEvent(h.event) && Streams(g, h.past))
  }

  /** What the copy loop read between g and h. */
  ghost function Body(g: Past, h: Past): seq<Content>
    requires Streams(g, h)
  {
    if h == g then [] else Body(g, h.past) + if h.event.Append? then [h.event.data] else []
  }

  /** What runSingle is called with; the fall-back passes neither offset nor ranges. */
  function Called(s: State, status: int, parts: seq<Content>, eof: bool): Attempt
    requires s.main.Opening?
  {
    Attempt(if s.main.fallback then 0 else s.offset, !s.main.fallback && s.main.ranges, Status(status), parts, eof)
  }

  /** k goes on from g by opening the file and the server's answer. */
  ghost predicate Answered(cfg: Config, g: Past, status: int, k: Past)
    requires ValidConfig(cfg)
  {
    && Legal(cfg, k) && g.state.main.Opening?
    && k.Then? && k.event == SingleAnswer(status) && k.past.Then? && k.past.event == OpenSingle && k.past.past == g
  }

  /** The copy loop, started over base at start, has copied these parts. */
  ghost predicate Copying(s: State, base: Content, start: nat, parts: seq<Content>) {
    && (s.main.Single? || s.main.Verifying?) && s.file == Some(Copied(base, start, parts))
    && (s.main.Single? ==> s.main.written == start + Length(parts))
  }

  lemma CopyStep(cfg: Config, s: State, e: Event, base: Content, start: nat, parts: seq<Content>)
    requires ValidConfig(cfg) && Enabled(cfg, s, e) && CopyEvent(e) && Copying(s, base, start, parts)
    ensures Copying(Next(cfg, s, e), base, start, if e.Append? then parts + [e.data] else parts)
  {
    if e.Append? {
      CopiedSnoc(base, start, parts, e.data);
    }
  }

  lemma {:induction false} StreamIsCopy(cfg: Config, g: Past, h: Past, base: Content, start: nat)
    requires ValidConfig(cfg) && Legal(cfg, h) && Streams(g, h) && Copying(g.state, base, start, [])
    ensures Copying(h.state, base, start, Body(g, h))
  {
    if h == g {
    } else {
      StreamIsCopy(cfg, g, h.past, base, start);
      CopyStep(cfg, h.past.state, h.event, base, start, Body(g, h.past));
      assert Body(g, h.past) + [] == Body(g, h.past);
    }
  }

  /** Where the answer leaves the copy loop is where runSingle's is. */
  lemma AnswerStarts(cfg: Config, g: Past, status: int, k: Past)
    requires ValidConfig(cfg) && Answered(cfg, g, status, k)
    ensures var a := Called(g.state, status, [], false); var start := CopyFrom(g.state.file, a);
            if Copies(g.state.file, a)
            then Copying(k.state, if start > 0 then g.state.file.value else [], start, [])
            else k.state.main == Returning(start) && k.state.file == Some(RunOnce(g.state.file, a))
  {
    FileOpened(cfg, g, k.past);
    assert k.state == Next(cfg, k.past.state, SingleAnswer(status));
  }

  lemma FileOpened(cfg: Config, g: Past, k: Past)
    requires ValidConfig(cfg) && Legal(cfg, k) && g.state.main.Opening?
    requires k.Then? && k.past == g && k.event == OpenSingle
    ensures var start := SingleStart(g.state);
            && k.state.main == Requested(start) && start >= 0
            && (start == 0 ==> k.state.file == Some([])) && (start > 0 ==> k.state.file == g.state.file)
  {
  }

  /** Whatever the machine's single stream leaves, resumed or not, is what one run of
      runSingle leaves on the same disk, offset, answer and body; complete exactly if
      that run is. */
  lemma StreamIsRunSingle(cfg: Config, g: Past, status: int, k: Past, h: Past)
    requires ValidConfig(cfg) && Answered(cfg, g, status, k) && k.state.main.Single?
    requires Legal(cfg, h) && Streams(k, h)
    ensures var a := Called(g.state, status, Body(k, h), h.state.main.Verifying?);
            h.state.file == Some(RunOnce(g.state.file, a)) && Copies(g.state.file, a)
    ensures h.state.main.Single? || h.state.main.Verifying?
    ensures h.state.main.Single? ==>
              h.state.main.written == BytesDone(g.state.file, Called(g.state, status, Body(k, h), false))
  {
    AnswerStarts(cfg, g, status, k);
    var start := CopyFrom(g.state.file, Called(g.state, status, [], false));
    assert Copies(g.state.file, Called(g.state, status, [], false));
    StreamIsCopy(cfg, k, h, if start > 0 then g.state.file.value else [], start);
    RunOnceCopies(g.state, status, Body(k, h), h.state.main.Verifying?);
    RunOnceCopies(g.state, status, Body(k, h), false);
  }

  lemma CutOff(cfg: Config, h: Past)
    requires ValidConfig(cfg) && Legal(cfg, h) && h.Then? && h.event == SingleFails && h.past.state.main.Single?
    ensures h.state.main == Returning(h.past.state.main.written)
  {
  }

  /** A stream that is cut off (h ends so) returns the count that runSingle reports. */
  lemma CutOffReturnsCount(cfg: Config, g: Past, status: int, k: Past, h: Past)
    requires ValidConfig(cfg) && Answered(cfg, g, status, k) && k.state.main.Single?
    requires h.Then? && Legal(cfg, h.past) && Streams(k, h.past) && h.past.state.main.Single?
    requires Legal(cfg, h) && h.event == SingleFails
    ensures h.state.main == Returning(BytesDone(g.state.file, Called(g.state, status, Body(k, h.past), false)))
  {
    StreamIsRunSingle(cfg, g, status, k, h.past);
    CutOff(cfg, h);
  }

  /** A run whose request comes to no answer leaves and returns what runSingle does then. */
  lemma UnansweredIsRunSingle(cfg: Config, g: Past, h: Past)
    requires ValidConfig(cfg) && Legal(cfg, h) && g.state.main.Opening?
    requires h.Then? && h.event == SingleFails && h.past.Then? && h.past.event == OpenSingle && h.past.past == g
    ensures var a := Called(g.state, 0, [], false).(answer := NoAnswer);
            h.state.file == Some(RunOnce(g.state.file, a)) && h.state.main == Returning(BytesDone(g.state.file, a))
  {
    FileOpened(cfg, g, h.past);
  }

  /** Body and end do not change where a run starts. */
  lemma RunOnceCopies(s: State, status: int, parts: seq<Content>, eof: bool)
    requires s.main.Opening? && Copies(s.file, Called(s, status, [], false))
    ensures var a := Called(s, status, parts, eof);
            var start := CopyFrom(s.file, Called(s, status, [], false));
            && Copies(s.file, a) && BytesDone(s.file, a) == start + Length(parts)
            && RunOnce(s.file, a) == Copied(if start > 0 then s.file.value else [], start, parts)
  {
  }

  /** The copy loop may still be sent these parts: the source's next bytes, or anything
      with an error page. */
  ghost predicate ToStream(cfg: Config, s: State, parts: seq<Content>) {
    && s.main.Single? && s.file.Some? && s.main.written >= 0
    && (s.main.page || TrueBytes(cfg.source, s.main.written, parts))
    && forall k :: 0 <= k < |parts| ==> |parts[k]| > 0
  }

  lemma FrontToStream(cfg: Config, s: State, parts: seq<Content>)
    requires ToStream(cfg, s, parts) && parts != []
    ensures ToStream(cfg, s, Front(parts)) && Front(parts) + [Last(parts)] == parts
    ensures Length(parts) == Length(Front(parts)) + |Last(parts)| && |Last(parts)| > 0
  {
  }

  /** After the others, the last part can be read. */
  lemma LastStreams(cfg: Config, s: State, parts: seq<Content>, t: State)
    requires ToStream(cfg, s, parts) && parts != []
    requires t.main == Single(s.main.written + Length(Front(parts)), s.main.page)
    ensures Front(parts) + [Last(parts)] == parts && |Last(parts)| > 0
    ensures Length(parts) == Length(Front(parts)) + |Last(parts)|
    ensures var w, data := t.main.written, Last(parts);
            t.main.page || (w + |data| <= |cfg.source| && data == cfg.source[w..w + |data|])
  {
    FrontToStream(cfg, s, parts);
    if !s.main.page {
      LastIsTrue(cfg.source, s.main.written, parts);
    }
  }

  lemma LastIsTrue(source: Content, pos: nat, parts: seq<Content>)
    requires TrueBytes(source, pos, parts) && parts != []
    ensures var w := pos + Length(Front(parts)); var data := Last(parts);
            w + |data| <= |source| && data == source[w..w + |data|]
  {
  }

  /** One more read. */
  lemma StreamOne(cfg: Config, g: Past, k: Past, data: Content) returns (h: Past)
    requires ValidConfig(cfg) && Legal(cfg, k) && Streams(g, k) && |data| > 0
    requires k.state.main.Single? && k.state.file.Some? && k.state.main.written >= 0
    requires var w := k.state.main.written;
             k.state.main.page || (w + |data| <= |cfg.source| && data == cfg.source[w..w + |data|])
    ensures Legal(cfg, h) && Streams(g, h) && Body(g, h) == Body(g, k) + [data] && h.state.file.Some?
    ensures h.state.main == Single(k.state.main.written + |data|, k.state.main.page)
  {
    h := Then(k, Append(data), Next(cfg, k.state, Append(data)));
    Grows(g, h);
  }

  /** The last read, after the others. */
  lemma StreamLast(cfg: Config, g: Past, k: Past, parts: seq<Content>) returns (h: Past)
    requires ValidConfig(cfg) && ToStream(cfg, g.state, parts) && parts != []
    requires Legal(cfg, k) && Streams(g, k) && Body(g, k) == Front(parts) && k.state.file.Some?
    requires k.state.main == Single(g.state.main.written + Length(Front(parts)), g.state.main.page)
    ensures Legal(cfg, h) && Streams(g, h) && Body(g, h) == parts && h.state.file.Some?
    ensures h.state.main == Single(g.state.main.written + Length(parts), g.state.main.page)
  {
    LastStreams(cfg, g.state, parts, k.state);
    h := StreamOne(cfg, g, k, Last(parts));
  }

  /** And every body is streamed in some history: an honest one, or any that comes
      with an error page. */
  lemma {:induction false} RunSingleIsStream(cfg: Config, g: Past, parts: seq<Content>) returns (h: Past)
    requires ValidConfig(cfg) && Legal(cfg, g) && ToStream(cfg, g.state, parts)
    ensures Legal(cfg, h) && Streams(g, h) && Body(g, h) == parts && h.state.file.Some?
    ensures h.state.main == Single(g.state.main.written + Length(parts), g.state.main.page)
    decreases |parts|
  {
    if parts == [] {
      h := g;
    } else {
      FrontToStream(cfg, g.state, parts);
      var k := RunSingleIsStream(cfg, g, Front(parts));
      h := StreamLast(cfg, g, k, parts);
    }
  }

  /** So is the end of one that reaches the source's end, or of an error page. */
  lemma EndIsStream(cfg: Config, g: Past, parts: seq<Content>) returns (h: Past)
    requires ValidConfig(cfg) && Legal(cfg, g) && ToStream(cfg, g.state, parts)
    requires g.state.main.page || g.state.main.written + Length(parts) == |cfg.source|
    ensures Legal(cfg, h) && Streams(g, h) && Body(g, h) == parts && h.state.main.Verifying?
  {
    var k := RunSingleIsStream(cfg, g, parts);
    h := Then(k, SingleEof, Next(cfg, k.state, SingleEof));
    Grows(g, h);
    assert Body(g, h) == parts + [];
  }

  lemma Grows(g: Past, h: Past)
    requires h.Then? && Streams(g, h.past)
    ensures h != g
  {
    NotLonger(g, h.past);
  }

  function Size(h: Past): nat {
    match h
    case Begin(_) => 0
    case Then(g, _, _) => 1 + Size(g)
  }

  lemma {:induction false} NotLonger(g: Past, h: Past)
    requires Streams(g, h)
    ensures Size(g) <= Size(h)
  {
    if h == g {
    } else {
      NotLonger(g, h.past);
    }
  }
}
