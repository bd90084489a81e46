/** Whole histories of the chunked downloader: any interleaving of workers, ticker
    and main goroutine, any crashes and restarts. */
module ChunkedRuns {
  import opened FileBytes
  import opened Chunks
  import opened ChunkedDownload
  import opened Histories
  import opened Options

  type Past = History<State, Event>

  /** Every event was possible and led to the recorded state. */
  ghost predicate Legal(cfg: Config, h: Past)
    requires ValidConfig(cfg)
  {
    match h
    case Begin(_) => true
    case Then(g, e, t) => Legal(cfg, g) && Enabled(cfg, g.state, e) && t == Next(cfg, g.state, e)
  }

  /** SafeStep at every step. */
  ghost predicate Safe(cfg: Config, h: Past)
    requires ValidConfig(cfg) && Legal(cfg, h)
  {
    match h
    case Begin(_) => true
    case Then(g, e, _) => Safe(cfg, g) && SafeStep(cfg, g.state, e)
  }

  /** Nothing running, and no sidecar of this download that lies. */
  ghost predicate Initial(cfg: Config, s: State) {
    s == Stop(s) && DiskOk(cfg, s)
  }

  lemma {:induction false} HistoryKeeps(cfg: Config, h: Past)
    requires ValidConfig(cfg) && Inv(cfg, Start(h)) && Legal(cfg, h) && Safe(cfg, h)
    ensures Inv(cfg, h.state)
  {
    if h.Begin? {
    } else {
      HistoryKeeps(cfg, h.past);
      StepKeeps(cfg, h.past.state, h.event);
    }
  }

  /** Crash-safe chunked resume: over any history, what Run reports as completed
      is the source; and at every moment the sidecar on disk and the one in memory
      claim only bytes the file holds. */
  lemma {:induction false} CompletedIsSource(cfg: Config, h: Past)
    requires ValidConfig(cfg) && Initial(cfg, Start(h)) && Legal(cfg, h) && Safe(cfg, h)
    ensures var t := h.state;
            && (t.main.Finished? ==> t.file == Some(cfg.source))
            && (Usable(cfg, t.sidecar) && t.file.Some? ==> Sound(cfg.source, t.file.value, t.sidecar.chunks))
            && (Chunking(t.main) ==> t.file.Some? && Sound(cfg.source, t.file.value, t.chunks))
  {
    HistoryKeeps(cfg, h);
  }

  // ----- the same probe answer in every run -----

  /** What a job whose probe always finds ranges and a length does besides chunking. */
  ghost predicate OnlyFallsBack(s: State) {
    && PhaseOk(s)
    && (s.main.Opening? ==> s.main.fallback && s.sidecar.Absent?)
    && (s.main.Requested? ==> s.main.start == 0)
  }

  lemma PhaseStep(cfg: Config, s: State, e: Event)
    requires ValidConfig(cfg) && Enabled(cfg, s, e) && PhaseOk(s)
    ensures PhaseOk(Next(cfg, s, e))
  {
    if WorkerEvent(e) {
      WorkerPhase(cfg, s, e);
    } else {
      MainPhase(cfg, s, e);
    }
  }

  lemma WorkerPhase(cfg: Config, s: State, e: Event)
    requires ValidConfig(cfg) && Enabled(cfg, s, e) && PhaseOk(s) && WorkerEvent(e)
    ensures PhaseOk(Next(cfg, s, e))
  {
    assert s.main.Waiting?;
  }

  lemma SaverPhase(cfg: Config, s: State, e: Event)
    requires ValidConfig(cfg) && Enabled(cfg, s, e) && PhaseOk(s)
    requires e.Marshal? || e.Stage? || e.Publish? || e.SaveFails?
    ensures PhaseOk(Next(cfg, s, e))
  {
  }

  lemma MainPhase(cfg: Config, s: State, e: Event)
    requires ValidConfig(cfg) && Enabled(cfg, s, e) && PhaseOk(s) && !WorkerEvent(e)
    ensures PhaseOk(Next(cfg, s, e))
  {
    if e.Marshal? || e.Stage? || e.Publish? || e.SaveFails? {
      SaverPhase(cfg, s, e);
    }
  }

  lemma AlwaysRangesStep(cfg: Config, s: State, e: Event)
    requires ValidConfig(cfg) && Enabled(cfg, s, e) && OnlyFallsBack(s) && (e.Probe? ==> e == Probe(true, true))
    ensures OnlyFallsBack(Next(cfg, s, e)) && SafeStep(cfg, s, e)
  {
    PhaseStep(cfg, s, e);
  }

  /** A probe that finds ranges and a length in every run is safe, whatever offset is
      stored. */
  lemma {:induction false} AlwaysRangesIsSafe(cfg: Config, h: Past)
    requires ValidConfig(cfg) && Legal(cfg, h) && Start(h) == Stop(Start(h))
    requires Avoids(h, (e: Event) => e.Probe? && e != Probe(true, true))
    ensures Safe(cfg, h) && OnlyFallsBack(h.state)
  {
    match h
    case Begin(_) =>
    case Then(g, e, _) =>
      AlwaysRangesIsSafe(cfg, g);
      AlwaysRangesStep(cfg, g.state, e);
  }

  /** Nothing of a chunked attempt is about. */
  predicate Unchunked(s: State) {
    !Chunking(s.main) && !s.main.Falling? && s.saver.Quiet? && !s.ticking && s.workers == []
  }

  lemma UnchunkedStep(cfg: Config, s: State, e: Event)
    requires ValidConfig(cfg) && Enabled(cfg, s, e) && Unchunked(s) && e != Probe(true, true)
    ensures Unchunked(Next(cfg, s, e))
    ensures Next(cfg, s, e).sidecar == s.sidecar || Next(cfg, s, e).sidecar.Absent?
  {
  }

  ghost predicate NeverChunking(cfg: Config, s: State) {
    Harmless(cfg, s.sidecar) && Unchunked(s)
  }

  lemma NeverChunksStep(cfg: Config, s: State, e: Event)
    requires ValidConfig(cfg) && Enabled(cfg, s, e) && NeverChunking(cfg, s) && e != Probe(true, true)
    ensures NeverChunking(cfg, Next(cfg, s, e))
  {
    UnchunkedStep(cfg, s, e);
  }

  ghost predicate NeverResuming(s: State) {
    (s.main.Opening? ==> !s.main.ranges) && (s.main.Requested? ==> s.main.start == 0)
  }

  /** So is one that never finds ranges, on a disk without a sidecar that claims a
      byte, whatever offset is stored. */
  lemma {:induction false} NeverRangesIsSafe(cfg: Config, h: Past)
    requires ValidConfig(cfg) && Legal(cfg, h) && Start(h) == Stop(Start(h)) && Harmless(cfg, Start(h).sidecar)
    requires Avoids(h, (e: Event) => e.Probe? && e.ranges)
    ensures Safe(cfg, h) && NeverChunking(cfg, h.state) && NeverResuming(h.state)
  {
    match h
    case Begin(_) =>
    case Then(g, e, _) =>
      NeverRangesIsSafe(cfg, g);
      NeverChunksStep(cfg, g.state, e);
      NeverRangesStep(cfg, g.state, e);
  }

  lemma NeverRangesStep(cfg: Config, s: State, e: Event)
    requires ValidConfig(cfg) && Enabled(cfg, s, e) && NeverChunking(cfg, s) && NeverResuming(s)
    requires e.Probe? ==> !e.ranges
    ensures NeverResuming(Next(cfg, s, e)) && SafeStep(cfg, s, e)
  {
  }

  /** The file is a first part of the source, and the single stream works inside it. */
  ghost predicate StaysPrefix(cfg: Config, s: State) {
    && (s.file.Some? ==> |s.file.value| <= |cfg.source| && Holds(cfg.source, s.file.value, 0, |s.file.value|))
    && (s.main.Requested? ==> s.file.Some? && 0 <= s.main.start <= |s.file.value|)
    && (s.main.Single? ==> !s.main.page && s.file.Some? && 0 <= s.main.written <= |s.file.value|)
  }

  /** A refused resume answered with an error page. */
  predicate ErrorPage(s: State, e: Event) {
    e.SingleAnswer? && s.main.Requested? && s.main.start > 0 && e.status != 200 && e.status != 206
  }

  ghost predicate NoErrorPages(h: Past) {
    h.Then? ==> NoErrorPages(h.past) && !ErrorPage(h.past.state, h.event)
  }

  lemma UnsizedStep(cfg: Config, s: State, e: Event)
    requires ValidConfig(cfg) && Enabled(cfg, s, e) && NeverChunking(cfg, s) && StaysPrefix(cfg, s)
    requires e != Probe(true, true) && !ErrorPage(s, e)
    ensures StaysPrefix(cfg, Next(cfg, s, e)) && SafeStep(cfg, s, e)
  {
    if e.Append? {
      PrefixAppends(cfg.source, s.file.value, s.main.written, e.data);
    }
  }

  lemma PrefixAppends(source: Content, f: Content, w: nat, data: Content)
    requires w <= |f| <= |source| && Holds(source, f, 0, |f|)
    requires w + |data| <= |source| && data == source[w..w + |data|]
    ensures var g := WriteAt(f, w, data);
            w + |data| <= |g| <= |source| && Holds(source, g, 0, |g|)
  {
    WriteAtBytes(f, w, data);
  }

  /** No run's probe finds both ranges and a length. */
  predicate NeverBoth(h: Past) {
    h.Then? ==> NeverBoth(h.past) && h.event != Probe(true, true)
  }

  lemma {:induction false} NeverChunks(cfg: Config, h: Past)
    requires ValidConfig(cfg) && Legal(cfg, h) && NeverChunking(cfg, Start(h)) && NeverBoth(h)
    ensures NeverChunking(cfg, h.state)
  {
    if h.Begin? {
    } else {
      NeverChunks(cfg, h.past);
      NeverChunksStep(cfg, h.past.state, h.event);
    }
  }

  /** And so is one that never finds both ranges and a length, when the file is a
      first part of the source to begin with: whatever offset is stored, however it
      got there. */
  lemma {:induction false} UnsizedIsSafe(cfg: Config, h: Past)
    requires ValidConfig(cfg) && Legal(cfg, h) && NeverChunking(cfg, Start(h))
    requires StaysPrefix(cfg, Start(h)) && NoErrorPages(h) && NeverBoth(h)
    ensures Safe(cfg, h) && StaysPrefix(cfg, h.state)
  {
    if h.Begin? {
    } else {
      UnsizedIsSafe(cfg, h.past);
      NeverChunks(cfg, h.past);
      UnsizedStep(cfg, h.past.state, h.event);
    }
  }

  /** When the single stream is about to truncate the file, before its request or
      after a refused resume, no chunk worker, no ticker and no save is running; and in
      the fall-back no sidecar is left. */
  lemma {:induction false} TruncationIsAlone(cfg: Config, h: Past)
    requires ValidConfig(cfg) && Initial(cfg, Start(h)) && Legal(cfg, h) && Safe(cfg, h)
    requires h.state.main.Opening? || h.state.main.Requested?
    ensures var t := h.state;
            && AllLeft(t.workers) && t.saver.Quiet? && !t.ticking
            && (t.main.Opening? && t.main.fallback ==> t.sidecar.Absent?)
  {
    HistoryKeeps(cfg, h);
  }

  ghost predicate RangeGivenUp(s: State) {
    || ((s.main.Waiting? || s.main.Stopping?) && s.rangeIgnored)
    || s.main.Falling? || s.main.Opening? || s.main.Returning? || s.main.Idle?
  }

  lemma GivenUpStep(cfg: Config, s: State, e: Event)
    requires ValidConfig(cfg) && Inv(cfg, s) && Enabled(cfg, s, e)
    requires RangeGivenUp(s) && !e.OpenSingle? && !e.Probe?
    ensures RangeGivenUp(Next(cfg, s, e))
  {
  }

  /** After a 200 to a chunk request, this run of Run completes only by way of the
      single stream. */
  lemma {:induction false} IgnoredRangeOnlyCompletesSingle(cfg: Config, h: Past)
    requires ValidConfig(cfg) && Inv(cfg, Start(h)) && Legal(cfg, h) && Safe(cfg, h)
    requires RangeGivenUp(Start(h)) && Avoids(h, (e: Event) => e.OpenSingle? || e.Probe?)
    ensures RangeGivenUp(h.state)
    ensures !h.state.main.Verifying? && !h.state.main.Finished?
  {
    if h.Begin? {
    } else {
      IgnoredRangeOnlyCompletesSingle(cfg, h.past);
      HistoryKeeps(cfg, h.past);
      GivenUpStep(cfg, h.past.state, h.event);
    }
  }

  // ----- workers keep to their windows -----

  /** Nothing was written into chunk c's window between f and g: where f ended
      before it, g reads zeros. */
  ghost predicate SameWindow(f: Content, g: Content, c: Chunk) {
    |f| <= |g| && forall p :: c.start <= p < c.end && 0 <= p < |g| ==> g[p] == if p < |f| then f[p] else 0
  }

  lemma WriteElsewhere(cs: seq<Chunk>, total: int, f: Content, i: int, j: int, pos: int, data: Content)
    requires Tiles(cs, total) && 0 <= i < |cs| && 0 <= j < |cs| && i != j
    requires 0 <= pos && cs[j].start <= pos && pos + |data| <= cs[j].end
    ensures SameWindow(f, WriteAt(f, pos, data), cs[i])
  {
    if i < j {
      TilesOrdered(cs, total, i, j);
    } else {
      TilesOrdered(cs, total, j, i);
    }
    WriteAtBytes(f, pos, data);
  }

  lemma OthersMove(cfg: Config, s: State, e: Event, i: nat)
    requires ValidConfig(cfg) && Enabled(cfg, s, e) && WorkerEvent(e)
    requires i < |s.workers| == |s.chunks| && s.workers[i].Left?
    ensures var t := Next(cfg, s, e);
            && t.main == s.main && |t.workers| == |s.workers| == |t.chunks| && t.workers[i].Left?
            && t.chunks[i] == s.chunks[i]
            && (t.file == s.file || e.Deliver? || e.TornWrite?)
  {
    assert e.i != i;
  }

  lemma MainMoves(cfg: Config, s: State, e: Event)
    requires ValidConfig(cfg) && Enabled(cfg, s, e) && !WorkerEvent(e) && Chunking(s.main)
    requires !e.Crash? && !e.Judge? && !e.TickerStops?
    ensures var t := Next(cfg, s, e);
            Chunking(t.main) && t.workers == s.workers && t.chunks == s.chunks && t.file == s.file
  {
  }

  /** Worker j writes a part of what it read; worker i has returned. */
  lemma WriteSpares(cfg: Config, s: State, i: nat, j: nat, data: Content, m: nat)
    requires ChunksOk(cfg, s) && i < |s.workers| && s.workers[i].Left? && j < |s.workers| && s.workers[j].Reading?
    requires m <= |data| && s.workers[j].pos + m <= s.chunks[j].end
    ensures 0 <= s.workers[j].pos
    ensures SameWindow(s.file.value, WriteAt(s.file.value, s.workers[j].pos, data[..m]), s.chunks[i])
  {
    WriterPlace(cfg, s, j);
    var part := data[..m];
    WriteElsewhere(s.chunks, |cfg.source|, s.file.value, i, j, s.workers[j].pos, part);
  }

  lemma WriterPlace(cfg: Config, s: State, j: nat)
    requires ChunksOk(cfg, s) && j < |s.workers| && s.workers[j].Reading?
    ensures 0 <= s.chunks[j].start <= s.workers[j].pos < s.chunks[j].end
  {
    assert WorkerOk(cfg, s.file.value, s.chunks[j], s.workers[j]);
    assert Claim(cfg.source, s.file.value, s.chunks[j]);
  }

  /** Between s and t the chunked attempt lasts and chunk i, whose worker has returned,
      is left alone. */
  ghost predicate Frozen(s: State, t: State, i: nat) {
    && i < |s.workers| == |s.chunks| && |t.workers| == |t.chunks| == |s.chunks|
    && Chunking(t.main) && t.workers[i].Left? && t.chunks[i] == s.chunks[i]
    && s.file.Some? && t.file.Some? && SameWindow(s.file.value, t.file.value, s.chunks[i])
  }

  lemma FrozenTwice(s: State, t: State, u: State, i: nat)
    requires Frozen(s, t, i) && Frozen(t, u, i)
    ensures Frozen(s, u, i)
  {
  }

  /** One step leaves the window of a worker that has returned alone. */
  lemma StepSparesWindow(cfg: Config, s: State, e: Event, i: nat)
    requires ValidConfig(cfg) && ChunksOk(cfg, s) && Chunking(s.main) && Enabled(cfg, s, e)
    requires i < |s.workers| && s.workers[i].Left?
    requires !e.Crash? && !e.Judge? && !e.TickerStops?
    ensures Frozen(s, Next(cfg, s, e), i)
  {
    if WorkerEvent(e) {
      OthersMove(cfg, s, e, i);
    } else {
      MainMoves(cfg, s, e);
    }
    if e.Deliver? {
      WriteSpares(cfg, s, i, e.i, e.data, Clip(|e.data|, s.chunks[e.i].end - s.workers[e.i].pos));
    } else if e.TornWrite? {
      WriteSpares(cfg, s, i, e.i, e.data, e.k);
    }
  }

  /** A chunk whose worker has returned (satisfied, failed, or told 200) is not
      written again while this chunked attempt lasts: workers keep to their own
      windows whatever the others are sent. */
  lemma {:induction false} LeftWindowFrozen(cfg: Config, h: Past, i: nat)
    requires ValidConfig(cfg) && Inv(cfg, Start(h)) && Chunking(Start(h).main) && Legal(cfg, h) && Safe(cfg, h)
    requires i < |Start(h).workers| && Start(h).workers[i].Left?
    requires Avoids(h, (e: Event) => e.Crash? || e.Judge? || e.TickerStops?)
    ensures Frozen(Start(h), h.state, i)
  {
    match h
    case Begin(s) =>
    case Then(g, e, t) =>
      LeftWindowFrozen(cfg, g, i);
      HistoryKeeps(cfg, g);
      StepSparesWindow(cfg, g.state, e, i);
      FrozenTwice(Start(h), g.state, t, i);
  }

  /** Worker i is about to read the next part of its body, or is satisfied. */
  ghost predicate AtWork(cfg: Config, s: State, i: nat) {
    && Inv(cfg, s) && s.main.Waiting? && s.file.Some? && i < |s.workers| == |s.chunks|
    && var c := s.chunks[i];
       && 0 <= c.start + c.done
       && s.workers[i] == PlaceOf(c)
  }

  lemma AdvanceAfterWrite(cfg: Config, s: State, i: nat, pos: int)
    requires ValidConfig(cfg) && Inv(cfg, s) && s.main.Waiting? && i < |s.workers| && s.workers[i] == Wrote(pos)
    ensures var t := Next(cfg, s, Advance(i));
            && AtWork(cfg, t, i) && t.file == s.file
            && t.chunks == s.chunks[i := s.chunks[i].(done := pos - s.chunks[i].start)]
  {
    AdvanceKeeps(cfg, s, i);
    assert WorkerOk(cfg, s.file.value, s.chunks[i], s.workers[i]) && Claim(cfg.source, s.file.value, s.chunks[i]);
  }

  lemma DeliverWrites(cfg: Config, s: State, i: nat, data: Content)
    requires ValidConfig(cfg) && AtWork(cfg, s, i) && s.workers[i].Reading? && HonestRead(cfg, s, i, data)
    ensures var t := Next(cfg, s, Deliver(i, data));
            var c := s.chunks[i];
            var (f, d) := FetchRead(s.file.value, c, data);
            && Inv(cfg, t) && t.main.Waiting? && i < |t.workers| && t.chunks == s.chunks
            && t.file == Some(f) && t.workers[i] == Wrote(d.start + d.done)
            && c.(done := d.start + d.done - c.start) == d
  {
    DeliverKeeps(cfg, s, i, data);
  }

  lemma ReadPair(cfg: Config, s: State, i: nat, data: Content) returns (t: State, u: State)
    requires ValidConfig(cfg) && AtWork(cfg, s, i) && s.workers[i].Reading? && HonestRead(cfg, s, i, data)
    ensures Enabled(cfg, s, Deliver(i, data)) && t == Next(cfg, s, Deliver(i, data))
    ensures Enabled(cfg, t, Advance(i)) && u == Next(cfg, t, Advance(i))
    ensures AtWork(cfg, u, i)
    ensures (u.file.value, u.chunks[i]) == FetchRead(s.file.value, s.chunks[i], data)
  {
    DeliverWrites(cfg, s, i, data);
    t := Next(cfg, s, Deliver(i, data));
    AdvanceAfterWrite(cfg, t, i, t.workers[i].pos);
    u := Next(cfg, t, Advance(i));
  }

  /** A body read by worker i is one Deliver and one Advance, and together they do
      what the copy loop does with that read. */
  lemma MachineReads(cfg: Config, h: Past, i: nat, data: Content) returns (r: Past)
    requires ValidConfig(cfg) && Legal(cfg, h) && AtWork(cfg, h.state, i)
    requires h.state.workers[i].Reading? && HonestRead(cfg, h.state, i, data)
    ensures Legal(cfg, r) && Start(r) == Start(h) && AtWork(cfg, r.state, i)
    ensures (r.state.file.value, r.state.chunks[i]) == FetchRead(h.state.file.value, h.state.chunks[i], data)
  {
    var t, u := ReadPair(cfg, h.state, i, data);
    r := Then(Then(h, Deliver(i, data), t), Advance(i), u);
  }

  lemma NextPartIsHonest(cfg: Config, s: State, i: nat, parts: seq<Content>)
    requires AtWork(cfg, s, i) && s.workers[i].Reading? && parts != [] && |parts[0]| > 0
    requires FromOffset(cfg.source, s.workers[i].pos, s.chunks[i].end, parts)
    ensures HonestRead(cfg, s, i, parts[0])
  {
    assert Claim(cfg.source, s.file.value, s.chunks[i]);
  }

  /** What a worker in place w of chunk c has still to be served are these parts, and
      they are the source's. */
  ghost predicate ToServe(source: Content, c: Chunk, w: Worker, parts: seq<Content>) {
    w.Reading? ==> FromOffset(source, w.pos, c.end, parts)
  }

  ghost predicate Serving(cfg: Config, s: State, i: nat, parts: seq<Content>) {
    AtWork(cfg, s, i) && ToServe(cfg.source, s.chunks[i], s.workers[i], parts)
  }

  /** Where a worker is between two reads. */
  function PlaceOf(c: Chunk): Worker {
    if c.start + c.done < c.end then Reading(c.start + c.done) else Left
  }

  /** The first read of a body, and what is left of the body for the worker. */
  lemma MachineFetchesOne(cfg: Config, h: Past, i: nat, parts: seq<Content>) returns (r: Past)
    requires ValidConfig(cfg) && Legal(cfg, h) && Serving(cfg, h.state, i, parts)
    requires h.state.workers[i].Reading? && parts != [] && |parts[0]| > 0
    ensures Legal(cfg, r) && Start(r) == Start(h) && AtWork(cfg, r.state, i)
    ensures (r.state.file.value, r.state.chunks[i]) == FetchRead(h.state.file.value, h.state.chunks[i], parts[0])
  {
    NextPartIsHonest(cfg, h.state, i, parts);
    r := MachineReads(cfg, h, i, parts[0]);
  }

  lemma RestToServe(source: Content, f: Content, c: Chunk, parts: seq<Content>, g: Content, d: Chunk)
    requires ToServe(source, c, PlaceOf(c), parts) && PlaceOf(c).Reading? && parts != [] && 0 <= c.start + c.done
    requires (g, d) == FetchRead(f, c, parts[0])
    ensures ToServe(source, d, PlaceOf(d), parts[1..]) && 0 <= d.start + d.done
    ensures Fetched(f, c, parts) == Fetched(g, d, parts[1..])
  {
    FetchedRest(source, f, c, parts, g, d);
  }

  /** So whatever FetchChunk does with an honest body, worker i of the machine does
      in some history. */
  lemma {:induction false} MachineFetches(cfg: Config, h: Past, i: nat, parts: seq<Content>) returns (r: Past)
    requires ValidConfig(cfg) && Legal(cfg, h) && Serving(cfg, h.state, i, parts)
    requires forall k :: 0 <= k < |parts| ==> |parts[k]| > 0
    ensures Legal(cfg, r) && Start(r) == Start(h) && AtWork(cfg, r.state, i)
    ensures (r.state.file.value, r.state.chunks[i]) == Fetched(h.state.file.value, h.state.chunks[i], parts)
    decreases |parts|
  {
    if parts == [] || h.state.workers[i].Left? {
      r := h;
    } else {
      r := MachineFetchesOne(cfg, h, i, parts);
      RestToServe(cfg.source, h.state.file.value, h.state.chunks[i], parts, r.state.file.value, r.state.chunks[i]);
      r := MachineFetches(cfg, r, i, parts[1..]);
    }
  }
}
