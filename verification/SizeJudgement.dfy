/** torboxFileComplete (start_torbox.go) judges a file by its size and the absence of
    a sidecar. When that is right, and what makes it wrong, over every history of the
    downloader that writes the file. */
module SizeJudgement {
  import opened FileBytes
  import opened Chunks
  import opened ChunkedDownload
  import opened ChunkedRuns
  import opened Histories
  import opened Options

  /** torboxFileComplete: the full size, and no sidecar. */
  ghost predicate LooksComplete(cfg: Config, s: State) {
    s.file.Some? && |s.file.value| == |cfg.source| && s.sidecar.Absent?
  }

  /** A safe history that begins without file and sidecar. */
  ghost predicate FirstDownload(cfg: Config, h: Past) {
    && ValidConfig(cfg) && Legal(cfg, h) && Safe(cfg, h)
    && Start(h) == Stop(Start(h)) && Start(h).file.None? && Start(h).sidecar.Absent?
  }

  /** No run of the downloader is under way. */
  predicate AtRest(s: State) {
    s.main.Idle? || s.main.Returning? || s.main.Finished?
  }

  // ----- the ends that leave a bare file -----

  /** How an attempt can leave a file of the full size and no sidecar behind:
      Unsaved, the process dies before the first snapshot is on disk; Unstored, the
      attempt gives up and not one snapshot could be written; FallingBack, it ends
      between the fall-back's removal of the sidecar and the truncation; Resetting, it
      dies between the two removals of a reset or a purge. */
  datatype Death = Unsaved | Unstored | FallingBack | Resetting

  predicate GivesUp(s: State) {
    s.failed || s.cancelled || !AllDone(s.chunks)
  }

  function DeathOf(s: State, e: Event): Option<Death> {
    if e.Crash? && (Chunking(s.main) || s.main.Falling?) && s.sidecar.Absent? then Some(Unsaved)
    else if e.Judge? && GivesUp(s) && s.sidecar.Absent? then Some(Unstored)
    else if (e.Crash? || e.SingleFails?) && s.main.Opening? && s.main.fallback then Some(FallingBack)
    else if e.DropSidecar? && s.file.Some? then Some(Resetting)
    else None
  }

  /** Every such end in the history is one of these. */
  ghost predicate OnlyDeaths(h: Past, ds: set<Death>) {
    h.Then? ==> OnlyDeaths(h.past, ds)
                && var d := DeathOf(h.past.state, h.event); d.Some? ==> d.value in ds
  }

  // ----- without them the judgement is right -----

  /** Outside a chunked attempt and its fall-back, a file without a sidecar is a first
      part of the source. */
  ghost predicate BareIsTrue(cfg: Config, s: State) {
    && !Chunking(s.main) && !s.main.Falling? && !(s.main.Opening? && s.main.fallback)
    && s.sidecar.Absent? && s.file.Some? ==>
      |s.file.value| <= |cfg.source| && Holds(cfg.source, s.file.value, 0, |s.file.value|)
  }

  lemma AppendStaysTrue(cfg: Config, s: State, data: Content)
    requires ValidConfig(cfg) && Inv(cfg, s) && BareIsTrue(cfg, s) && Enabled(cfg, s, Append(data))
    ensures BareIsTrue(cfg, Next(cfg, s, Append(data)))
  {
    if s.sidecar.Absent? {
      PrefixAppends(cfg.source, s.file.value, s.main.written, data);
    }
  }

  lemma WorkerStaysTrue(cfg: Config, s: State, e: Event)
    requires ValidConfig(cfg) && Inv(cfg, s) && Enabled(cfg, s, e) && WorkerEvent(e)
    ensures BareIsTrue(cfg, Next(cfg, s, e))
  {
    assert s.main.Waiting?;
  }

  lemma ChunkStaysTrue(cfg: Config, s: State, e: Event)
    requires ValidConfig(cfg) && Inv(cfg, s) && Enabled(cfg, s, e) && (Chunking(s.main) || s.main.Falling?)
    requires DeathOf(s, e).None?
    ensures BareIsTrue(cfg, Next(cfg, s, e))
  {
    if WorkerEvent(e) {
      WorkerStaysTrue(cfg, s, e);
    } else if e.Judge? {
      JudgeStaysTrue(cfg, s);
    }
  }

  lemma JudgeStaysTrue(cfg: Config, s: State)
    requires ValidConfig(cfg) && Inv(cfg, s) && s.main.Judging? && DeathOf(s, Judge).None?
    ensures BareIsTrue(cfg, Next(cfg, s, Judge))
  {
    JudgeKeeps(cfg, s);
  }

  lemma SingleStaysTrue(cfg: Config, s: State, e: Event)
    requires ValidConfig(cfg) && Inv(cfg, s) && BareIsTrue(cfg, s) && Enabled(cfg, s, e)
    requires s.main.Opening? || s.main.Requested? || s.main.Single? || s.main.Verifying?
    requires DeathOf(s, e).None?
    ensures BareIsTrue(cfg, Next(cfg, s, e))
  {
    if e.Append? {
      AppendStaysTrue(cfg, s, e.data);
    }
  }

  lemma RestStaysTrue(cfg: Config, s: State, e: Event)
    requires ValidConfig(cfg) && Inv(cfg, s) && BareIsTrue(cfg, s) && Enabled(cfg, s, e) && AtRest(s)
    requires DeathOf(s, e).None?
    ensures BareIsTrue(cfg, Next(cfg, s, e))
  {
  }

  lemma {:induction false} StaysTrue(cfg: Config, h: Past)
    requires FirstDownload(cfg, h) && OnlyDeaths(h, {})
    ensures BareIsTrue(cfg, h.state)
  {
    if h.Begin? {
    } else {
      StaysTrue(cfg, h.past);
      HistoryKeeps(cfg, h.past);
      var s := h.past.state;
      if AtRest(s) {
        RestStaysTrue(cfg, s, h.event);
      } else if Chunking(s.main) || s.main.Falling? {
        ChunkStaysTrue(cfg, s, h.event);
      } else {
        SingleStaysTrue(cfg, s, h.event);
      }
    }
  }

  /** A file at rest that looks complete is the source, in every history without such
      an end. */
  lemma {:induction false} LooksCompleteIsSource(cfg: Config, h: Past)
    requires FirstDownload(cfg, h) && OnlyDeaths(h, {}) && AtRest(h.state) && LooksComplete(cfg, h.state)
    ensures h.state.file == Some(cfg.source)
  {
    StaysTrue(cfg, h);
    assert h.state.file.value == cfg.source;
  }

  /** And a chunked run that completes leaves a file that looks complete. */
  lemma CompletedLooksComplete(cfg: Config, h: Past)
    requires ValidConfig(cfg) && Initial(cfg, Start(h)) && Legal(cfg, h) && Safe(cfg, h)
    requires h.Then? && h.event == Verify(true) && h.past.Then? && h.past.event == Judge
    ensures h.state.main.Finished? && LooksComplete(cfg, h.state)
  {
    HistoryKeeps(cfg, h);
    JudgedBare(cfg, h.past);
  }

  lemma JudgedBare(cfg: Config, h: Past)
    requires ValidConfig(cfg) && Legal(cfg, h) && h.Then? && h.event == Judge
    ensures h.state.main.Verifying? ==> h.state.sidecar.Absent?
  {
  }

  // ----- and each of them makes it wrong -----

  /** Of a file that looks complete, nothing but its size need be there. */
  ghost predicate BareZeros(cfg: Config, h: Past, d: Death) {
    && FirstDownload(cfg, h) && AtRest(h.state) && LooksComplete(cfg, h.state)
    && h.state.file == Some(seq(|cfg.source|, _ => 0 as Byte))
    && h.Then? && OnlyDeaths(h.past, {}) && DeathOf(h.past.state, h.event) == Some(d)
  }

  /** A safe history in which nothing has died yet. */
  ghost predicate Unharmed(cfg: Config, h: Past) {
    FirstDownload(cfg, h) && OnlyDeaths(h, {})
  }

  lemma Do(cfg: Config, h: Past, e: Event) returns (r: Past)
    requires Unharmed(cfg, h) && Enabled(cfg, h.state, e) && SafeStep(cfg, h.state, e) && DeathOf(h.state, e).None?
    ensures Unharmed(cfg, r) && r.state == Next(cfg, h.state, e)
  {
    r := Then(h, e, Next(cfg, h.state, e));
  }

  lemma Die(cfg: Config, h: Past, e: Event) returns (r: Past)
    requires Unharmed(cfg, h) && Enabled(cfg, h.state, e) && DeathOf(h.state, e).Some?
    ensures FirstDownload(cfg, r) && r.state == Next(cfg, h.state, e)
    ensures r.Then? && r.past == h && r.event == e
  {
    r := Then(h, e, Next(cfg, h.state, e));
  }

  /** The file preallocated, every worker about to ask. */
  ghost predicate Preallocated(cfg: Config, s: State) {
    && ValidConfig(cfg)
    && s.file == Some(seq(|cfg.source|, _ => 0 as Byte)) && s.sidecar.Absent? && s.main.Waiting?
    && s.chunks == EvenSplit(|cfg.source|, cfg.n) && s.workers == StartWorkers(s.chunks)
    && s.saver.Quiet? && s.ticking && !s.rangeIgnored && !s.failed && !s.cancelled
  }

  lemma Preallocate(cfg: Config) returns (h: Past)
    requires ValidConfig(cfg)
    ensures Unharmed(cfg, h) && Preallocated(cfg, h.state)
  {
    h := Begin(State(None, Absent, 0, Idle, [], [], Quiet, false, false, false, false));
    h := Do(cfg, h, Probe(true, true));
    assert Truncate([], |cfg.source|) == seq(|cfg.source|, _ => 0 as Byte);
  }

  /** The transport fails every worker from i on. */
  lemma {:induction false} HangUp(cfg: Config, h: Past, i: nat) returns (r: Past)
    requires Unharmed(cfg, h) && h.state.main.Waiting? && i <= |h.state.workers|
    requires forall j :: 0 <= j < |h.state.workers| ==>
                           h.state.workers[j].Left? || (j >= i && h.state.workers[j].Asking?)
    ensures Unharmed(cfg, r) && r.state == h.state.(workers := r.state.workers) && AllLeft(r.state.workers)
    decreases |h.state.workers| - i
  {
    if i == |h.state.workers| {
      r := h;
    } else {
      r := h;
      if h.state.workers[i].Asking? {
        r := Do(cfg, h, Hangup(i, false));
      }
      r := HangUp(cfg, r, i + 1);
    }
  }

  lemma DiesUnsaved(cfg: Config) returns (h: Past)
    requires ValidConfig(cfg)
    ensures BareZeros(cfg, h, Unsaved)
  {
    var g := Preallocate(cfg);
    h := Die(cfg, g, Crash);
  }

  lemma EndsUnstored(cfg: Config) returns (h: Past)
    requires ValidConfig(cfg)
    ensures BareZeros(cfg, h, Unstored)
  {
    h := Preallocate(cfg);
    h := Do(cfg, h, Pause);
    h := HangUp(cfg, h, 0);
    h := Do(cfg, h, Join);
    h := NothingSaved(cfg, h);
    h := Die(cfg, h, Judge);
  }

  lemma NothingSaved(cfg: Config, g: Past) returns (h: Past)
    requires Unharmed(cfg, g) && g.state.main.Stopping? && g.state.ticking
    requires g.state.saver.Quiet? && !g.state.rangeIgnored
    ensures Unharmed(cfg, h) && h.state == g.state.(ticking := false, main := Judging)
  {
    h := Do(cfg, g, TickerStops);
    h := Do(cfg, h, Marshal);
    h := Do(cfg, h, SaveFails);
  }

  /** Some chunk has bytes to ask for. */
  lemma SomeoneAsks(cfg: Config, s: State) returns (i: nat)
    requires ValidConfig(cfg) && Preallocated(cfg, s)
    ensures i < |s.workers| && s.workers[i].Asking?
  {
    EvenSplitTiles(|cfg.source|, cfg.n);
    i := TilesCover(s.chunks, |cfg.source|, 0);
  }

  lemma DiesFallingBack(cfg: Config) returns (h: Past)
    requires ValidConfig(cfg)
    ensures BareZeros(cfg, h, FallingBack)
  {
    h := Preallocate(cfg);
    h := RangeIgnored(cfg, h);
    h := Do(cfg, h, DropStale);
    h := Die(cfg, h, Crash);
  }

  lemma RangeIgnored(cfg: Config, g: Past) returns (h: Past)
    requires ValidConfig(cfg) && Unharmed(cfg, g) && Preallocated(cfg, g.state)
    ensures Unharmed(cfg, h) && h.state.main.Falling? && h.state.file == g.state.file
  {
    var i := SomeoneAsks(cfg, g.state);
    h := Do(cfg, g, Answer(i, 200));
    h := HangUp(cfg, h, 0);
    h := Do(cfg, h, Join);
    h := Do(cfg, h, TickerStops);
  }

  lemma DiesResetting(cfg: Config) returns (h: Past)
    requires ValidConfig(cfg)
    ensures BareZeros(cfg, h, Resetting)
  {
    h := Preallocate(cfg);
    h := Snapshot(cfg, h);
    h := Do(cfg, h, Crash);
    h := Die(cfg, h, DropSidecar);
  }

  lemma Snapshot(cfg: Config, g: Past) returns (h: Past)
    requires Unharmed(cfg, g) && g.state.main.Waiting? && g.state.saver.Quiet? && g.state.ticking
    ensures Unharmed(cfg, h) && h.state.main.Waiting? && h.state.file == g.state.file && h.state.sidecar.Saved?
  {
    h := Do(cfg, g, Marshal);
    h := Do(cfg, h, Stage);
    h := Do(cfg, h, Publish);
  }

  /** For every download, each such end can leave zeros that look complete. */
  lemma DeathLeavesZeros(cfg: Config, d: Death) returns (h: Past)
    requires ValidConfig(cfg)
    ensures BareZeros(cfg, h, d)
  {
    match d {
      case Unsaved => h := DiesUnsaved(cfg);
      case Unstored => h := EndsUnstored(cfg);
      case FallingBack => h := DiesFallingBack(cfg);
      case Resetting => h := DiesResetting(cfg);
    }
  }

  ghost predicate Misjudged(cfg: Config, h: Past, ds: set<Death>) {
    FirstDownload(cfg, h) && OnlyDeaths(h, ds) && AtRest(h.state) && LooksComplete(cfg, h.state)
    && h.state.file != Some(cfg.source)
  }

  lemma {:induction false} MoreDeaths(h: Past, ds: set<Death>)
    requires OnlyDeaths(h, {})
    ensures OnlyDeaths(h, ds)
  {
    if h.Begin? {
    } else {
      MoreDeaths(h.past, ds);
    }
  }

  /** Exactly: when only these ends may happen, a file at rest that looks complete is
      the source in every history of a download, if and only if none of them may,
      unless the source is all zeros. */
  lemma LooksCompleteIff(cfg: Config, ds: set<Death>)
    requires ValidConfig(cfg) && cfg.source != seq(|cfg.source|, _ => 0 as Byte)
    ensures (forall h :: !Misjudged(cfg, h, ds)) <==> ds == {}
  {
    if ds == {} {
      forall h
        ensures !Misjudged(cfg, h, ds)
      {
        if FirstDownload(cfg, h) && OnlyDeaths(h, ds) && AtRest(h.state) && LooksComplete(cfg, h.state) {
          LooksCompleteIsSource(cfg, h);
        }
      }
    } else {
      var d :| d in ds;
      var h := DeathLeavesZeros(cfg, d);
      MoreDeaths(h.past, ds);
      assert Misjudged(cfg, h, ds);
    }
  }
}
