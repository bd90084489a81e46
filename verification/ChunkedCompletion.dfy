/** Which disks a chunked download can be brought to its end from, and when a
    single-stream run may leave a sidecar behind: histories built step by step. */
module ChunkedCompletion {
  import opened FileBytes
  import opened Chunks
  import opened ChunkedDownload
  import opened ChunkedRuns
  import opened Histories
  import opened Options

  // ----- going on with a probe that finds ranges and a length -----

  /** No reset, and no probe that denies ranges or a length. */
  predicate Ranged(e: Event) {
    (e.Probe? ==> e.ranges && e.sized) && !e.DropSidecar? && !e.DropFile?
  }

  /** h goes on from g by ranged events. */
  ghost predicate Reaches(g: Past, h: Past) {
    h == g || (h.Then? && Ranged(h.event) && Reaches(g, h.past))
  }

  ghost predicate Onward(cfg: Config, g: Past, h: Past)
    requires ValidConfig(cfg)
  {
    Legal(cfg, h) && Reaches(g, h)
  }

  lemma Do(cfg: Config, g: Past, h: Past, e: Event) returns (r: Past)
    requires ValidConfig(cfg) && Onward(cfg, g, h) && Enabled(cfg, h.state, e) && Ranged(e)
    ensures r.state == Next(cfg, h.state, e) && Onward(cfg, g, r)
  {
    r := Then(h, e, Next(cfg, h.state, e));
  }

  // ----- serving every chunk -----

  /** Workers ask or are satisfied, those before i are satisfied. Nothing is said
      about what the file holds. */
  ghost predicate Draining(cfg: Config, s: State, i: nat) {
    && s.main.Waiting? && s.file.Some? && s.saver.Quiet? && s.ticking
    && !s.rangeIgnored && !s.failed && !s.cancelled
    && Tiles(s.chunks, |cfg.source|) && i <= |s.workers| == |s.chunks|
    && (forall j :: 0 <= j < |s.chunks| ==> AskedOrDone(s.chunks[j], s.workers[j]))
    && (forall j :: 0 <= j < i ==> s.workers[j].Left?)
  }

  predicate AskedOrDone(c: Chunk, w: Worker) {
    0 <= c.done && c.start + c.done <= c.end
    && if c.start + c.done < c.end then w.Asking? else w.Left?
  }

  /** p lies in a stretch some record claims. */
  ghost predicate Claimed(cs: seq<Chunk>, p: int) {
    exists q :: 0 <= q < |cs| && cs[q].start <= p < cs[q].start + cs[q].done
  }

  /** Position p was not written between f and g. */
  ghost predicate Kept(f: Content, g: Content, p: int) {
    |f| <= |g| && (0 <= p < |g| ==> g[p] == if p < |f| then f[p] else 0)
  }

  /** A worker's remaining window lies outside what any record claims. */
  lemma UnclaimedWindow(cs: seq<Chunk>, total: int, i: nat, p: int)
    requires Tiles(cs, total) && i < |cs| && Claimed(cs, p)
    requires forall j :: 0 <= j < |cs| ==> 0 <= cs[j].done && cs[j].start + cs[j].done <= cs[j].end
    ensures !(cs[i].start + cs[i].done <= p < cs[i].end)
    ensures forall d :: d >= cs[i].done ==> Claimed(cs[i := cs[i].(done := d)], p)
  {
    var q :| 0 <= q < |cs| && cs[q].start <= p < cs[q].start + cs[q].done;
    if q < i {
      TilesOrdered(cs, total, q, i);
    } else if i < q {
      TilesOrdered(cs, total, i, q);
    }
    forall d | d >= cs[i].done
      ensures Claimed(cs[i := cs[i].(done := d)], p)
    {
      var ds := cs[i := cs[i].(done := d)];
      assert ds[q].start <= p < ds[q].start + ds[q].done;
    }
  }

  /** Chunk i served: answered with a 206, sent the rest of its window, counted. */
  function Served(cfg: Config, s: State, i: nat): State
    requires Draining(cfg, s, i) && i < |s.workers|
  {
    var c := s.chunks[i];
    TilesInside(s.chunks, |cfg.source|, i);
    s.(file := Some(WriteAt(s.file.value, c.start + c.done, cfg.source[c.start + c.done..c.end])),
       chunks := s.chunks[i := c.(done := c.end - c.start)],
       workers := s.workers[i := Left])
  }

  lemma ServedDrains(cfg: Config, s: State, i: nat)
    requires ValidConfig(cfg) && Draining(cfg, s, i) && i < |s.workers|
    ensures Draining(cfg, Served(cfg, s, i), i + 1)
  {
    var t := Served(cfg, s, i);
    assert Tiles(t.chunks, |cfg.source|);
  }

  lemma ServedKeeps(cfg: Config, s: State, i: nat, p: int)
    requires ValidConfig(cfg) && Draining(cfg, s, i) && i < |s.workers| && Claimed(s.chunks, p)
    ensures var t := Served(cfg, s, i);
            Claimed(t.chunks, p) && Kept(s.file.value, t.file.value, p)
  {
    var c := s.chunks[i];
    TilesInside(s.chunks, |cfg.source|, i);
    UnclaimedWindow(s.chunks, |cfg.source|, i, p);
    assert Claimed(s.chunks[i := c.(done := c.end - c.start)], p);
    WriteAtBytes(s.file.value, c.start + c.done, cfg.source[c.start + c.done..c.end]);
  }

  lemma ServeSteps(cfg: Config, s: State, i: nat) returns (data: Content)
    requires ValidConfig(cfg) && Draining(cfg, s, i) && i < |s.workers| && s.workers[i].Asking?
    ensures Enabled(cfg, s, Answer(i, 206))
    ensures var s1 := Next(cfg, s, Answer(i, 206));
            && Enabled(cfg, s1, Deliver(i, data))
            && var s2 := Next(cfg, s1, Deliver(i, data));
               Enabled(cfg, s2, Advance(i)) && Next(cfg, s2, Advance(i)) == Served(cfg, s, i)
  {
    var c := s.chunks[i];
    TilesInside(s.chunks, |cfg.source|, i);
    data := cfg.source[c.start + c.done..c.end];
    var s1 := Next(cfg, s, Answer(i, 206));
    assert HonestRead(cfg, s1, i, data);
    assert data[..|data|] == data;
    var s2 := Next(cfg, s1, Deliver(i, data));
    assert s2.workers == s.workers[i := Wrote(c.end)];
  }

  /** An honest server serves chunk i in three steps; what was claimed stays as it is. */
  lemma DrainOne(cfg: Config, g: Past, h: Past, i: nat, p: int) returns (r: Past)
    requires ValidConfig(cfg) && Onward(cfg, g, h) && Draining(cfg, h.state, i) && i < |h.state.workers|
    ensures Onward(cfg, g, r) && Draining(cfg, r.state, i + 1) && |r.state.workers| == |h.state.workers|
    ensures Claimed(h.state.chunks, p) ==>
              Claimed(r.state.chunks, p) && Kept(h.state.file.value, r.state.file.value, p)
  {
    if h.state.workers[i].Left? {
      return h;
    }
    var data := ServeSteps(cfg, h.state, i);
    r := Do(cfg, g, h, Answer(i, 206));
    r := Do(cfg, g, r, Deliver(i, data));
    r := Do(cfg, g, r, Advance(i));
    ServedDrains(cfg, h.state, i);
    if Claimed(h.state.chunks, p) {
      ServedKeeps(cfg, h.state, i, p);
    }
  }

  lemma {:induction false} DrainAll(cfg: Config, g: Past, h: Past, i: nat, p: int) returns (r: Past)
    requires ValidConfig(cfg) && Onward(cfg, g, h) && Draining(cfg, h.state, i)
    ensures Onward(cfg, g, r) && Draining(cfg, r.state, |r.state.workers|)
    ensures Claimed(h.state.chunks, p) ==> Kept(h.state.file.value, r.state.file.value, p)
    decreases |h.state.workers| - i
  {
    if i == |h.state.workers| {
      r := h;
    } else {
      r := DrainOne(cfg, g, h, i, p);
      r := DrainAll(cfg, g, r, i + 1, p);
    }
  }

  // ----- ending the run -----

  /** Nothing has gone wrong in this attempt and its chunks are done. */
  ghost predicate Smooth(s: State) {
    AllDone(s.chunks) && !s.rangeIgnored && !s.failed && !s.cancelled
  }

  lemma Save(cfg: Config, g: Past, h: Past) returns (r: Past)
    requires ValidConfig(cfg) && Onward(cfg, g, h) && h.state.main.Saving? && h.state.saver.Quiet? && Smooth(h.state)
    ensures Onward(cfg, g, r) && r.state.main.Judging? && r.state.file == h.state.file && Smooth(r.state)
  {
    r := Do(cfg, g, h, Marshal);
    r := Do(cfg, g, r, Stage);
    r := Do(cfg, g, r, Publish);
  }

  lemma Judged(cfg: Config, g: Past, h: Past) returns (r: Past)
    requires ValidConfig(cfg) && Onward(cfg, g, h) && h.state.main.Judging? && Smooth(h.state)
    ensures Onward(cfg, g, r) && r.state.main.Finished? && r.state.file == h.state.file
  {
    r := Do(cfg, g, h, Judge);
    r := Do(cfg, g, r, Verify(true));
  }

  /** Once every worker has returned satisfied, seven steps end the run. */
  lemma Wind(cfg: Config, g: Past, h: Past) returns (r: Past)
    requires ValidConfig(cfg) && Onward(cfg, g, h) && Draining(cfg, h.state, |h.state.workers|)
    ensures Onward(cfg, g, r) && r.state.main.Finished? && r.state.file == h.state.file
  {
    r := Do(cfg, g, h, Join);
    r := Do(cfg, g, r, TickerStops);
    r := Save(cfg, g, r);
    r := Judged(cfg, g, r);
  }

  /** The probe finds ranges, the workers start. */
  lemma Probed(cfg: Config, g: Past, h: Past) returns (r: Past)
    requires ValidConfig(cfg) && Onward(cfg, g, h) && h.state.main.Idle?
    requires Usable(cfg, h.state.sidecar) ==> h.state.file.Some? && InBounds(h.state.sidecar.chunks, |cfg.source|)
    ensures Onward(cfg, g, r) && Draining(cfg, r.state, 0)
    ensures Usable(cfg, h.state.sidecar) ==> r.state.file == h.state.file && r.state.chunks == h.state.sidecar.chunks
  {
    var f, cs := ProbeStarts(cfg, h.state);
    r := Do(cfg, g, h, Probe(true, true));
    assert r.state == StartChunked(h.state, f, cs);
  }

  ghost predicate InBounds(cs: seq<Chunk>, total: int) {
    Tiles(cs, total) && forall j :: 0 <= j < |cs| ==> 0 <= cs[j].done && cs[j].start + cs[j].done <= cs[j].end
  }

  lemma ProbeStarts(cfg: Config, s: State) returns (f: Content, cs: seq<Chunk>)
    requires ValidConfig(cfg) && s.main.Idle?
    requires Usable(cfg, s.sidecar) ==> s.file.Some? && InBounds(s.sidecar.chunks, |cfg.source|)
    ensures Next(cfg, s, Probe(true, true)) == StartChunked(s, f, cs) && InBounds(cs, |cfg.source|)
    ensures Usable(cfg, s.sidecar) ==> Some(f) == s.file && cs == s.sidecar.chunks
  {
    if Usable(cfg, s.sidecar) {
      f, cs := s.file.value, s.sidecar.chunks;
    } else {
      f, cs := Truncate(if s.file.Some? then s.file.value else [], |cfg.source|), EvenSplit(|cfg.source|, cfg.n);
      EvenSplitTiles(|cfg.source|, cfg.n);
    }
  }

  /** A run from an idle disk to its end; what a resumed sidecar claimed is not
      written. */
  lemma Finish(cfg: Config, g: Past, h: Past, p: int) returns (r: Past)
    requires ValidConfig(cfg) && Onward(cfg, g, h) && h.state.main.Idle?
    requires Usable(cfg, h.state.sidecar) ==> h.state.file.Some? && InBounds(h.state.sidecar.chunks, |cfg.source|)
    ensures Onward(cfg, g, r) && r.state.main.Finished? && r.state.file.Some?
    ensures Usable(cfg, h.state.sidecar) && Claimed(h.state.sidecar.chunks, p) ==>
              Kept(h.state.file.value, r.state.file.value, p)
  {
    r := Probed(cfg, g, h);
    r := DrainAll(cfg, g, r, 0, p);
    r := Wind(cfg, g, r);
  }

  // ----- no reachable disk is a dead end, but one -----

  ghost predicate Completes(cfg: Config, s: State, h: Past)
    requires ValidConfig(cfg)
  {
    Onward(cfg, Begin(s), h) && h.state.main.Finished?
  }

  lemma SoundInBounds(source: Content, f: Content, cs: seq<Chunk>)
    requires Sound(source, f, cs)
    ensures InBounds(cs, |source|)
  {
    forall j | 0 <= j < |cs|
      ensures 0 <= cs[j].done && cs[j].start + cs[j].done <= cs[j].end
    {
      assert Claim(source, f, cs[j]);
    }
  }

  /** A chunked download can be brought to its end from an idle disk if and only
      if that disk is not a resumable sidecar without its file: then opening the
      file for writing fails in every run, and only a reset helps. */
  lemma {:induction false} ResumableIff(cfg: Config, s: State)
    requires ValidConfig(cfg) && Initial(cfg, s)
    ensures (exists h :: Completes(cfg, s, h)) <==> !(Usable(cfg, s.sidecar) && s.file.None?)
  {
    if Usable(cfg, s.sidecar) && s.file.None? {
      forall h | Completes(cfg, s, h)
        ensures false
      {
        Wedged(cfg, Begin(s), h);
      }
    } else {
      if Usable(cfg, s.sidecar) {
        SoundInBounds(cfg.source, s.file.value, s.sidecar.chunks);
      }
      var r := Finish(cfg, Begin(s), Begin(s), 0);
      assert Completes(cfg, s, r);
    }
  }

  /** A resumable sidecar without its file, and no run that gets past opening it. */
  ghost predicate Stuck(cfg: Config, s: State) {
    Usable(cfg, s.sidecar) && s.file.None? && (s.main.Idle? || s.main.Returning?) && s.saver.Quiet? && !s.ticking
    && s.workers == []
  }

  lemma WedgedStep(cfg: Config, s: State, e: Event)
    requires ValidConfig(cfg) && Stuck(cfg, s) && Enabled(cfg, s, e) && Ranged(e)
    ensures Stuck(cfg, Next(cfg, s, e))
  {
  }

  lemma {:induction false} Wedged(cfg: Config, g: Past, h: Past)
    requires ValidConfig(cfg) && Onward(cfg, g, h) && Stuck(cfg, g.state)
    ensures Stuck(cfg, h.state)
  {
    if h == g {
    } else {
      Wedged(cfg, g, h.past);
      WedgedStep(cfg, h.past.state, h.event);
    }
  }

  // ----- what a single-stream start may find -----

  /** The process is not running; this is on the disk and in the row. */
  function Resting(f: Content, sc: SidecarFile, offset: int): State {
    State(Some(f), sc, offset, Idle, [], [], Quiet, false, false, false, false)
  }

  /** The history has not got past its first run. */
  predicate FirstRun(h: Past) {
    h.Then? && (h.past.Begin? || (FirstRun(h.past) && !h.event.Probe?))
  }

  /** The first event is a single-stream start, after a probe that says this much.
      Its run does what the code does, save that a refused resume is answered with the
      file and not with an error page; whatever comes after that run is safe. */
  ghost predicate SingleThenSafe(cfg: Config, ranges: bool, h: Past)
    requires ValidConfig(cfg) && Legal(cfg, h)
  {
    h.Then? &&
    if h.past.Begin? then h.event.Probe? && h.event.ranges == ranges && !(ranges && h.event.sized)
    else
      && SingleThenSafe(cfg, ranges, h.past)
      && if FirstRun(h.past) then !ErrorPage(h.past.state, h.event) else SafeStep(cfg, h.past.state, h.event)
  }

  /** From a resting disk whose sidecar is true of the file, by way of a single-stream
      start, to a wrong file reported as completed. */
  ghost predicate Misleads(url: string, n: int, sc: SidecarFile, offset: int, ranges: bool,
                           source: Content, f: Content, h: Past) {
    var cfg := Config(url, source, n);
    && ValidConfig(cfg) && DiskOk(cfg, Resting(f, sc, offset))
    && Legal(cfg, h) && Start(h) == Resting(f, sc, offset) && SingleThenSafe(cfg, ranges, h)
    && h.state.main.Finished? && h.state.file != Some(source)
  }

  /** A resumable record of this download that claims a byte. */
  ghost predicate ClaimsAByte(url: string, sc: SidecarFile, total: int) {
    sc.Saved? && sc.url == url && sc.total == total && |sc.chunks| > 0 && !Blank(sc.chunks, total)
  }

  /** A record this program can have written: its chunks, if it has any, tile what it
      says is the length. */
  ghost predicate WellFormed(sc: SidecarFile) {
    sc.Saved? && |sc.chunks| > 0 ==> InBounds(sc.chunks, sc.total)
  }

  /** Exactly: a single-stream start over a resting disk can end in a wrong file
      reported as completed, for some source and file that the sidecar is true of, if
      and only if the sidecar claims a byte, or the server has ranges and the stored
      offset lies inside the source. runSingle resumes at that offset whatever the
      bytes before it are. */
  lemma SingleRunSafeIff(url: string, n: int, sc: SidecarFile, offset: int, ranges: bool, total: int)
    requires n > 1 && total > 0 && WellFormed(sc)
    ensures (exists source, f, h :: |source| == total && Misleads(url, n, sc, offset, ranges, source, f, h)) <==>
            ClaimsAByte(url, sc, total) || (ranges && 0 < offset <= total)
  {
    if ClaimsAByte(url, sc, total) {
      var q :| 0 <= q < |sc.chunks| && sc.chunks[q].done != 0;
      TilesInside(sc.chunks, total, q);
      var source, f, h := ClaimMisleads(url, n, sc, offset, ranges, total, q);
    } else if ranges && 0 < offset <= total {
      var source, f, h := OffsetMisleads(url, n, sc, offset, total);
    } else {
      forall source, f, h | |source| == total
        ensures !Misleads(url, n, sc, offset, ranges, source, f, h)
      {
        NothingMisleads(url, n, sc, offset, ranges, source, f, h);
      }
    }
  }

  // ----- no other start misleads -----

  /** In the first run, until it returns, disk and row are as they were found. */
  ghost predicate AsFound(s: State, sc: SidecarFile, offset: int, ranges: bool) {
    && (s.main.Opening? ==> s.sidecar == sc && s.offset == offset && s.main.ranges == ranges && !s.main.fallback)
    && (s.main.Requested? ==> s.sidecar == sc && (s.main.start == 0 || (ranges && s.main.start == offset)))
    && Unchunked(s)
  }

  lemma AsFoundStep(cfg: Config, s: State, e: Event, sc: SidecarFile, offset: int, ranges: bool)
    requires ValidConfig(cfg) && Enabled(cfg, s, e) && AsFound(s, sc, offset, ranges) && !e.Probe?
    ensures AsFound(Next(cfg, s, e), sc, offset, ranges)
  {
    UnchunkedStep(cfg, s, e);
  }

  lemma {:induction false} FirstRunAsFound(cfg: Config, ranges: bool, h: Past)
    requires ValidConfig(cfg) && Legal(cfg, h) && SingleThenSafe(cfg, ranges, h) && FirstRun(h)
    requires Start(h) == Stop(Start(h))
    ensures AsFound(h.state, Start(h).sidecar, Start(h).offset, ranges)
  {
    if h.past.Begin? {
      assert Start(h) == h.past.state;
    } else {
      FirstRunAsFound(cfg, ranges, h.past);
      AsFoundStep(cfg, h.past.state, h.event, Start(h).sidecar, Start(h).offset, ranges);
    }
  }

  lemma FoundIsSafe(cfg: Config, s: State, e: Event, sc: SidecarFile, offset: int, ranges: bool)
    requires ValidConfig(cfg) && Inv(cfg, s) && Enabled(cfg, s, e) && AsFound(s, sc, offset, ranges)
    requires Harmless(cfg, sc) && !(ranges && 0 < offset <= |cfg.source|) && !ErrorPage(s, e)
    ensures SafeStep(cfg, s, e)
  {
  }

  /** Such a history is safe when the start finds neither claim nor offset. */
  lemma {:induction false} SingleIsSafe(cfg: Config, ranges: bool, h: Past)
    requires ValidConfig(cfg) && Legal(cfg, h) && SingleThenSafe(cfg, ranges, h) && Initial(cfg, Start(h))
    requires Harmless(cfg, Start(h).sidecar) && !(ranges && 0 < Start(h).offset <= |cfg.source|)
    ensures Safe(cfg, h)
  {
    if h.past.Begin? {
      assert Start(h) == h.past.state && Safe(cfg, h.past);
    } else {
      SingleIsSafe(cfg, ranges, h.past);
      if FirstRun(h.past) {
        FirstRunAsFound(cfg, ranges, h.past);
        HistoryKeeps(cfg, h.past);
        FoundIsSafe(cfg, h.past.state, h.event, Start(h).sidecar, Start(h).offset, ranges);
      }
    }
  }

  lemma NothingMisleads(url: string, n: int, sc: SidecarFile, offset: int, ranges: bool,
                        source: Content, f: Content, h: Past)
    requires !ClaimsAByte(url, sc, |source|) && !(ranges && 0 < offset <= |source|)
    ensures !Misleads(url, n, sc, offset, ranges, source, f, h)
  {
    if Misleads(url, n, sc, offset, ranges, source, f, h) {
      var cfg := Config(url, source, n);
      SingleIsSafe(cfg, ranges, h);
      CompletedIsSource(cfg, h);
    }
  }

  // ----- a claim misleads -----

  /** h goes on from g inside the first run, without an error page. */
  lemma InRun(cfg: Config, ranges: bool, h: Past, e: Event) returns (r: Past)
    requires ValidConfig(cfg) && Legal(cfg, h) && SingleThenSafe(cfg, ranges, h) && FirstRun(h)
    requires Enabled(cfg, h.state, e) && !ErrorPage(h.state, e) && !e.Probe?
    ensures Legal(cfg, r) && SingleThenSafe(cfg, ranges, r) && FirstRun(r)
    ensures r.state == Next(cfg, h.state, e) && Start(r) == Start(h)
  {
    r := Then(h, e, Next(cfg, h.state, e));
  }

  lemma StartSingle(cfg: Config, s: State, ranges: bool) returns (h: Past)
    requires ValidConfig(cfg) && s == Stop(s)
    ensures Legal(cfg, h) && SingleThenSafe(cfg, ranges, h) && FirstRun(h) && Start(h) == s
    ensures h.state == s.(main := Opening(false, ranges))
  {
    h := Then(Begin(s), Probe(ranges, false), Next(cfg, s, Probe(ranges, false)));
    assert Legal(cfg, Begin(s)) && Start(h) == s;
  }

  /** The single stream comes to truncate the file and the process dies. */
  lemma LoseFile(cfg: Config, s: State, ranges: bool) returns (h: Past)
    requires ValidConfig(cfg) && s == Stop(s) && s.file.Some?
    ensures Legal(cfg, h) && Start(h) == s && SingleThenSafe(cfg, ranges, h) && FirstRun(h)
    ensures h.state == s.(file := Some([]))
  {
    h := StartSingle(cfg, s, ranges);
    h := InRun(cfg, ranges, h, OpenSingle);
    if h.state.main.start > 0 {
      h := InRun(cfg, ranges, h, SingleAnswer(200));
    }
    h := InRun(cfg, ranges, h, Crash);
  }

  /** From there on, ranged events are safe ones: they chunk, or fall back. */
  lemma RangedIsSafe(cfg: Config, s: State, e: Event)
    requires ValidConfig(cfg) && Enabled(cfg, s, e) && OnlyFallsBack(s) && Ranged(e)
    ensures OnlyFallsBack(Next(cfg, s, e)) && SafeStep(cfg, s, e)
  {
    AlwaysRangesStep(cfg, s, e);
  }

  lemma {:induction false} StaysSingleThenSafe(cfg: Config, ranges: bool, g: Past, h: Past)
    requires ValidConfig(cfg) && Legal(cfg, h) && Reaches(g, h)
    requires Legal(cfg, g) && SingleThenSafe(cfg, ranges, g) && OnlyFallsBack(g.state)
    ensures SingleThenSafe(cfg, ranges, h) && OnlyFallsBack(h.state) && Start(h) == Start(g)
  {
    if h == g {
    } else {
      StaysSingleThenSafe(cfg, ranges, g, h.past);
      RangedIsSafe(cfg, h.past.state, h.event);
    }
  }

  /** A claimed byte is lost with the truncation and never asked for again. */
  lemma ClaimMisleads(url: string, n: int, sc: SidecarFile, offset: int, ranges: bool, total: int, q: nat)
    returns (source: Content, f: Content, h: Past)
    requires n > 1 && total > 0 && ClaimsAByte(url, sc, total) && InBounds(sc.chunks, total)
    requires q < |sc.chunks| && sc.chunks[q].done > 0
    ensures |source| == total && Misleads(url, n, sc, offset, ranges, source, f, h)
  {
    source := seq(total, _ => 1 as Byte);
    f := source;
    WholeIsSound(source, sc.chunks);
    var cfg := Config(url, source, n);
    var g := LoseFile(cfg, Resting(f, sc, offset), ranges);
    var p := sc.chunks[q].start;
    TilesInside(sc.chunks, total, q);
    assert Claimed(sc.chunks, p);
    h := Finish(cfg, g, g, p);
    StaysSingleThenSafe(cfg, ranges, g, h);
    assert Kept([], h.state.file.value, p) && source[p] == 1;
  }

  lemma WholeIsSound(source: Content, cs: seq<Chunk>)
    requires InBounds(cs, |source|)
    ensures Sound(source, source, cs)
  {
    forall i | 0 <= i < |cs|
      ensures Claim(source, source, cs[i])
    {
      TilesInside(cs, |source|, i);
    }
  }

  // ----- an offset misleads -----

  /** The bytes before the stored offset are taken on trust. */
  lemma OffsetMisleads(url: string, n: int, sc: SidecarFile, offset: int, total: int)
    returns (source: Content, f: Content, h: Past)
    requires n > 1 && 0 < offset <= total && WellFormed(sc) && !ClaimsAByte(url, sc, total)
    ensures |source| == total && Misleads(url, n, sc, offset, true, source, f, h)
  {
    source, f := seq(total, _ => 1 as Byte), seq(total, _ => 0 as Byte);
    var cfg := Config(url, source, n);
    var s := Resting(f, sc, offset);
    HarmlessDisk(cfg, s);
    h := Resumed(cfg, s);
    h := RestSent(cfg, h, f, offset);
    h := Ended(cfg, h);
    assert h.state.file.value[0] == 0 && source[0] == 1;
  }

  lemma Resumed(cfg: Config, s: State) returns (h: Past)
    requires ValidConfig(cfg) && s == Stop(s) && s.file.Some? && 0 < s.offset <= |s.file.value|
    ensures Legal(cfg, h) && SingleThenSafe(cfg, true, h) && FirstRun(h) && Start(h) == s
    ensures h.state == s.(main := Single(s.offset, false))
  {
    h := StartSingle(cfg, s, true);
    h := InRun(cfg, true, h, OpenSingle);
    h := InRun(cfg, true, h, SingleAnswer(206));
  }

  lemma Ended(cfg: Config, g: Past) returns (h: Past)
    requires ValidConfig(cfg) && Legal(cfg, g) && SingleThenSafe(cfg, true, g) && FirstRun(g)
    requires g.state.main == Single(|cfg.source|, false)
    ensures Legal(cfg, h) && SingleThenSafe(cfg, true, h) && Start(h) == Start(g)
    ensures h.state.main.Finished? && h.state.file == g.state.file
  {
    h := InRun(cfg, true, g, SingleEof);
    h := InRun(cfg, true, h, Verify(true));
  }

  lemma RestSent(cfg: Config, g: Past, f: Content, offset: int) returns (h: Past)
    requires ValidConfig(cfg) && Legal(cfg, g) && SingleThenSafe(cfg, true, g) && FirstRun(g)
    requires 0 < offset <= |cfg.source| == |f| && g.state.file == Some(f) && g.state.main == Single(offset, false)
    ensures Legal(cfg, h) && SingleThenSafe(cfg, true, h) && FirstRun(h) && Start(h) == Start(g)
    ensures h.state.main == Single(|cfg.source|, false) && h.state.file.Some? && |h.state.file.value| > 0
    ensures h.state.file.value[0] == f[0]
  {
    if offset == |cfg.source| {
      h := g;
    } else {
      var data := cfg.source[offset..];
      WriteAtBytes(f, offset, data);
      h := InRun(cfg, true, g, Append(data));
    }
  }

  // ----- both, from an empty disk -----

  const TWO := Config("u", [1, 2], 2)

  function Nothing(): State {
    State(None, Absent, 0, Idle, [], [], Quiet, false, false, false, false)
  }

  lemma On(h: Past, e: Event) returns (r: Past)
    requires Legal(TWO, h) && Enabled(TWO, h.state, e)
    ensures Legal(TWO, r) && Start(r) == Start(h) && r.state == Next(TWO, h.state, e)
  {
    r := Then(h, e, Next(TWO, h.state, e));
  }

  lemma SplitTwo()
    ensures EvenSplit(2, 2) == [Chunk(0, 1, 0), Chunk(1, 2, 0)]
  {
    assert 2 / 2 == 1;
  }

  /** A chunked run of two bytes under way. */
  function Underway(f: Content, done: int, workers: seq<Worker>, saver: Saver): State {
    State(Some(f), Absent, 0, Waiting, [Chunk(0, 1, 0), Chunk(1, 2, done)], workers, saver, true, false, false, false)
  }

  lemma SecondHalf() returns (h: Past)
    ensures Legal(TWO, h) && Start(h) == Nothing()
    ensures h.state == Underway([0, 2], 1, [Asking, Left], Quiet)
  {
    h := On(Begin(Nothing()), Probe(true, true));
    SplitTwo();
    assert Truncate([], 2) == [0, 0];
    assert h.state == Underway([0, 0], 0, [Asking, Asking], Quiet);
    h := SecondRead(h);
    h := On(h, Advance(1));
    assert h.state.chunks == [Chunk(0, 1, 0), Chunk(1, 2, 1)] && h.state.workers == [Asking, Left];
  }

  lemma SecondRead(g: Past) returns (h: Past)
    requires Legal(TWO, g) && g.state == Underway([0, 0], 0, [Asking, Asking], Quiet)
    ensures Legal(TWO, h) && Start(h) == Start(g)
    ensures h.state == Underway([0, 2], 0, [Asking, Wrote(2)], Quiet)
  {
    h := On(g, Answer(1, 206));
    assert h.state.workers == [Asking, Reading(1)];
    assert [2 as Byte][..1] == [2] && WriteAt([0, 0], 1, [2]) == [0, 2];
    h := On(h, Deliver(1, [2]));
    assert h.state.workers == [Asking, Wrote(2)];
  }

  /** Paused before any snapshot is on disk, the last one failing: the disk holds the
      second byte and no sidecar, the row an offset of one. */
  lemma PausedWithoutSidecar() returns (h: Past)
    ensures Legal(TWO, h) && Start(h) == Nothing()
    ensures h.state == Nothing().(file := Some([0, 2]), offset := 1)
  {
    h := SecondHalf();
    h := On(h, Hangup(0, false));
    assert h.state.workers == [Left, Left];
    h := On(h, Pause);
    h := On(h, Join);
    h := LastSaveFails(h);
  }

  lemma LastSaveFails(g: Past) returns (h: Past)
    requires Legal(TWO, g) && g.state.main.Stopping? && g.state.saver.Quiet? && g.state.ticking && g.state.cancelled
    requires !g.state.rangeIgnored && g.state.chunks == [Chunk(0, 1, 0), Chunk(1, 2, 1)]
    ensures Legal(TWO, h) && Start(h) == Start(g)
    ensures h.state == Stop(g.state).(offset := 1)
  {
    h := On(g, TickerStops);
    h := On(h, Marshal);
    h := On(h, SaveFails);
    h := GivesUp(h);
  }

  lemma GivesUp(g: Past) returns (h: Past)
    requires Legal(TWO, g) && g.state.main.Judging? && g.state.cancelled
    requires g.state.chunks == [Chunk(0, 1, 0), Chunk(1, 2, 1)]
    ensures Legal(TWO, h) && Start(h) == Start(g)
    ensures h.state == Stop(g.state).(offset := 1)
  {
    h := On(g, Judge);
    assert g.state.chunks[1..] == [Chunk(1, 2, 1)] && DoneTotal([Chunk(1, 2, 1)]) == 1 + DoneTotal([]);
    assert h.state == Return(g.state, 1);
    h := On(h, Settle(true));
  }

  /** PausedWithoutSidecar goes on: the next probe finds ranges and no length, the server sends the last byte as
      asked, and the file is reported as completed with its first byte missing. */
  lemma StoredOffsetCompletesWrong() returns (h: Past)
    ensures Legal(TWO, h) && Start(h) == Nothing()
    ensures h.state.main.Finished? && h.state.file == Some([0, 2]) && TWO.source == [1, 2]
  {
    h := ResumedBlind();
    assert WriteAt([0, 2], 1, [2]) == [0, 2];
    h := On(h, Append([2]));
    h := On(h, SingleEof);
    h := On(h, Verify(true));
  }

  lemma ResumedBlind() returns (h: Past)
    ensures Legal(TWO, h) && Start(h) == Nothing()
    ensures h.state == Nothing().(file := Some([0, 2]), offset := 1, main := Single(1, false))
  {
    h := PausedWithoutSidecar();
    h := On(h, Probe(true, false));
    h := On(h, OpenSingle);
    h := On(h, SingleAnswer(206));
  }

  /** The shortest case of a claim: every chunk is checkpointed when the process dies;
      a run whose probe denies ranges truncates the file and dies too; the next run
      trusts the old sidecar and reports an empty file as completed. */
  lemma ChangingProbeCompletesWrong() returns (cfg: Config, h: Past)
    ensures ValidConfig(cfg) && Initial(cfg, Start(h)) && Legal(cfg, h)
    ensures h.state.main.Finished? && h.state.file == Some([]) && cfg.source == [1, 2]
  {
    cfg := TWO;
    var cs := [Chunk(0, 1, 1), Chunk(1, 2, 1)];
    WholeIsSound([1, 2], cs);
    var g := LoseFile(cfg, Resting([1, 2], Saved("u", 2, cs), 0), false);
    h := Probed(cfg, g, g);
    assert h.state.workers[0].Left? && h.state.workers[1].Left?;
    h := Wind(cfg, g, h);
    StaysSingleThenSafe(cfg, false, g, h);
  }
}
