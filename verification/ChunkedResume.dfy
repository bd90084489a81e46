/** What a snapshot records, what the next run makes of it, and how a chunked attempt
    ends, over histories of the chunked downloader. */
module ChunkedResume {
  import opened FileBytes
  import opened Chunks
  import opened ChunkedDownload
  import opened ChunkedRuns
  import opened ChunkedCompletion
  import opened Histories
  import opened Options

  // ----- what a snapshot records -----

  /** The records in memory when the last save copied them. */
  ghost function Copied(h: Past): Option<seq<Chunk>> {
    match h
    case Begin(_) => None
    case Then(g, e, _) => if e.Marshal? then Some(g.state.chunks) else Copied(g)
  }

  lemma WorkersApart(cfg: Config, s: State, e: Event)
    requires ValidConfig(cfg) && Enabled(cfg, s, e) && WorkerEvent(e)
    ensures Next(cfg, s, e).saver == s.saver && Next(cfg, s, e).offset == s.offset
  {
  }

  lemma SaverStep(cfg: Config, s: State, e: Event)
    requires ValidConfig(cfg) && Enabled(cfg, s, e)
    ensures var t := Next(cfg, s, e);
            !t.saver.Quiet? ==>
              if e.Marshal? then t.saver.chunks == s.chunks
              else !s.saver.Quiet? && t.saver.chunks == s.saver.chunks
  {
    if WorkerEvent(e) {
      WorkersApart(cfg, s, e);
    }
  }

  lemma {:induction false} SaverHoldsCopy(cfg: Config, h: Past)
    requires ValidConfig(cfg) && Legal(cfg, h) && Start(h).saver.Quiet?
    ensures !h.state.saver.Quiet? ==> Copied(h) == Some(h.state.saver.chunks)
  {
    if h.Begin? {
    } else {
      SaverHoldsCopy(cfg, h.past);
      SaverStep(cfg, h.past.state, h.event);
    }
  }

  /** Right after a save the sidecar is a record of this download that holds, chunk by
      chunk, the windows and counts that were in memory when that save began. */
  lemma {:induction false} SavedIsCopied(cfg: Config, h: Past)
    requires ValidConfig(cfg) && Legal(cfg, h) && Start(h).saver.Quiet? && h.Then? && h.event == Publish
    ensures Copied(h.past).Some? && h.state.sidecar == Saved(cfg.url, |cfg.source|, Copied(h.past).value)
  {
    SaverHoldsCopy(cfg, h.past);
  }

  /** While the last save of an attempt is under way, the records in memory stand still. */
  ghost predicate LastSave(s: State) {
    PhaseOk(s) && (s.main.Saving? && !s.saver.Quiet? ==> s.saver.chunks == s.chunks)
  }

  lemma LastSaveStep(cfg: Config, s: State, e: Event)
    requires ValidConfig(cfg) && Enabled(cfg, s, e) && LastSave(s)
    ensures LastSave(Next(cfg, s, e))
  {
    PhaseStep(cfg, s, e);
    SaverStep(cfg, s, e);
    if s.main.Saving? && WorkerEvent(e) {
      assert false;
    } else if !s.main.Saving? && Next(cfg, s, e).main.Saving? {
      assert e.TickerStops?;
    }
  }

  lemma {:induction false} LastSaveHolds(cfg: Config, h: Past)
    requires ValidConfig(cfg) && Legal(cfg, h) && Start(h) == Stop(Start(h))
    ensures LastSave(h.state)
  {
    if h.Begin? {
    } else {
      LastSaveHolds(cfg, h.past);
      LastSaveStep(cfg, h.past.state, h.event);
    }
  }

  /** h ends with the last save of its attempt, and the save was stored. */
  predicate SavedLast(h: Past) {
    h.Then? && h.event == Publish && h.past.state.main.Saving?
  }

  /** The last save of an attempt puts the final records in memory on disk. */
  lemma LastSaveIsFinal(cfg: Config, h: Past)
    requires ValidConfig(cfg) && Legal(cfg, h) && Start(h) == Stop(Start(h)) && SavedLast(h)
    ensures h.state.main.Judging? && h.state.sidecar == Saved(cfg.url, |cfg.source|, h.state.chunks)
  {
    LastSaveHolds(cfg, h.past);
  }

  // ----- going on from a save -----

  /** A step of going on: no reset, no fall-back, no probe that denies ranges or a
      length, and nothing after the download is complete. */
  predicate Carries(s: State, e: Event) {
    && (e.Probe? ==> e.ranges && e.sized)
    && !e.DropSidecar? && !e.DropFile? && !e.DropStale?
    && (s.main.Verifying? || s.main.Finished? ==> e == Verify(true))
  }

  /** h goes on from g so, with any crashes, pauses, saves and further runs. */
  ghost predicate Resumed(h: Past, g: Past) {
    h == g || (h.Then? && Resumed(h.past, g) && Carries(h.past.state, h.event))
  }

  /** The same windows, and nothing less done. */
  predicate Grown(a: seq<Chunk>, b: seq<Chunk>) {
    && |a| == |b|
    && forall i :: 0 <= i < |a| ==> a[i].start == b[i].start && a[i].end == b[i].end && a[i].done <= b[i].done
  }

  lemma GrownClaims(a: seq<Chunk>, b: seq<Chunk>, p: int)
    requires Grown(a, b) && Claimed(a, p)
    ensures Claimed(b, p)
  {
    var q :| 0 <= q < |a| && a[q].start <= p < a[q].start + a[q].done;
    assert b[q].start <= p < b[q].start + b[q].done;
  }

  /** No byte claimed by these records was written since the file was f. */
  ghost predicate Untouched(cs: seq<Chunk>, f: Content, g: Content) {
    |f| <= |g| && forall p :: Claimed(cs, p) ==> Kept(f, g, p)
  }

  /** What was counted stays counted: in memory, in a save under way, and on disk. */
  ghost predicate Carried(cfg: Config, cs: seq<Chunk>, s: State) {
    && !s.main.Opening? && !s.main.Requested? && !s.main.Single?
    && (Chunking(s.main) ==> Grown(cs, s.chunks))
    && (!s.saver.Quiet? ==> Grown(cs, s.saver.chunks))
    && (!s.main.Verifying? && !s.main.Finished? ==> Usable(cfg, s.sidecar) && Grown(cs, s.sidecar.chunks))
  }

  lemma AdvanceCarries(cfg: Config, cs: seq<Chunk>, s: State, i: nat)
    requires ValidConfig(cfg) && Inv(cfg, s) && Carried(cfg, cs, s) && Enabled(cfg, s, Advance(i))
    ensures Carried(cfg, cs, Next(cfg, s, Advance(i)))
  {
    assert s.main.Waiting?;
    assert WorkerOk(cfg, s.file.value, s.chunks[i], s.workers[i]);
  }

  lemma OtherCarries(cfg: Config, cs: seq<Chunk>, s: State, e: Event)
    requires ValidConfig(cfg) && Carried(cfg, cs, s) && Enabled(cfg, s, e) && WorkerEvent(e) && !e.Advance?
    ensures Carried(cfg, cs, Next(cfg, s, e))
  {
  }

  lemma WorkerCarries(cfg: Config, cs: seq<Chunk>, s: State, e: Event)
    requires ValidConfig(cfg) && Inv(cfg, s) && Carried(cfg, cs, s) && Enabled(cfg, s, e) && WorkerEvent(e)
    ensures Carried(cfg, cs, Next(cfg, s, e))
  {
    if e.Advance? {
      AdvanceCarries(cfg, cs, s, e.i);
    } else {
      OtherCarries(cfg, cs, s, e);
    }
  }

  lemma SaverCarries(cfg: Config, cs: seq<Chunk>, s: State, e: Event)
    requires ValidConfig(cfg) && Inv(cfg, s) && Carried(cfg, cs, s) && Enabled(cfg, s, e) && cs != []
    requires e.Marshal? || e.Stage? || e.Publish? || e.SaveFails?
    ensures Carried(cfg, cs, Next(cfg, s, e))
  {
    assert Chunking(s.main);
  }

  lemma MainCarries(cfg: Config, cs: seq<Chunk>, s: State, e: Event)
    requires ValidConfig(cfg) && Inv(cfg, s) && Carried(cfg, cs, s) && Enabled(cfg, s, e) && Carries(s, e)
    requires !WorkerEvent(e) && !(e.Marshal? || e.Stage? || e.Publish? || e.SaveFails?)
    ensures Carried(cfg, cs, Next(cfg, s, e)) && SafeStep(cfg, s, e)
    ensures s.file.Some? ==> Next(cfg, s, e).file == s.file
  {
  }

  /** A worker writes only what no record claims. */
  lemma WriteMisses(cfg: Config, cs: seq<Chunk>, s: State, i: nat, data: Content)
    requires ChunksOk(cfg, s) && Grown(cs, s.chunks) && i < |s.workers| && s.workers[i].Reading?
    requires s.workers[i].pos + |data| <= s.chunks[i].end
    ensures 0 <= s.workers[i].pos && Untouched(cs, s.file.value, WriteAt(s.file.value, s.workers[i].pos, data))
  {
    WriterPlace(cfg, s, i);
    var f, pos := s.file.value, s.workers[i].pos;
    WriteAtBytes(f, pos, data);
    assert WorkerOk(cfg, f, s.chunks[i], s.workers[i]);
    SoundInBounds(cfg.source, f, s.chunks);
    forall p | Claimed(cs, p)
      ensures Kept(f, WriteAt(f, pos, data), p)
    {
      GrownClaims(cs, s.chunks, p);
      UnclaimedWindow(s.chunks, |cfg.source|, i, p);
    }
  }

  lemma AtWorkInMemory(cfg: Config, cs: seq<Chunk>, s: State, i: nat)
    requires Inv(cfg, s) && Carried(cfg, cs, s) && i < |s.workers| && !s.workers[i].Left?
    ensures s.main.Waiting? && ChunksOk(cfg, s) && Grown(cs, s.chunks)
  {
  }

  lemma WorkerMisses(cfg: Config, cs: seq<Chunk>, s: State, e: Event)
    requires ValidConfig(cfg) && Inv(cfg, s) && Carried(cfg, cs, s) && Enabled(cfg, s, e) && WorkerEvent(e)
    ensures s.file.Some? && Next(cfg, s, e).file.Some?
    ensures Untouched(cs, s.file.value, Next(cfg, s, e).file.value)
  {
    AtWorkInMemory(cfg, cs, s, e.i);
    if e.Deliver? {
      DeliverMisses(cfg, cs, s, e.i, e.data);
    } else if e.TornWrite? {
      TornMisses(cfg, cs, s, e.i, e.data, e.k);
    } else {
      OtherMisses(cfg, s, e);
    }
  }

  lemma OtherMisses(cfg: Config, s: State, e: Event)
    requires ValidConfig(cfg) && Enabled(cfg, s, e) && WorkerEvent(e) && !e.Deliver? && !e.TornWrite?
    ensures Next(cfg, s, e).file == s.file
  {
  }

  lemma TornMisses(cfg: Config, cs: seq<Chunk>, s: State, i: nat, data: Content, k: nat)
    requires ValidConfig(cfg) && ChunksOk(cfg, s) && Grown(cs, s.chunks) && Enabled(cfg, s, TornWrite(i, data, k))
    ensures Next(cfg, s, TornWrite(i, data, k)).file.Some?
    ensures Untouched(cs, s.file.value, Next(cfg, s, TornWrite(i, data, k)).file.value)
  {
    WriteMisses(cfg, cs, s, i, data[..k]);
  }

  lemma DeliverMisses(cfg: Config, cs: seq<Chunk>, s: State, i: nat, data: Content)
    requires ValidConfig(cfg) && ChunksOk(cfg, s) && Grown(cs, s.chunks) && Enabled(cfg, s, Deliver(i, data))
    ensures Next(cfg, s, Deliver(i, data)).file.Some?
    ensures Untouched(cs, s.file.value, Next(cfg, s, Deliver(i, data)).file.value)
  {
    WriteMisses(cfg, cs, s, i, data[..Clip(|data|, s.chunks[i].end - s.workers[i].pos)]);
  }

  lemma CarryStep(cfg: Config, cs: seq<Chunk>, s: State, e: Event)
    requires ValidConfig(cfg) && Inv(cfg, s) && Carried(cfg, cs, s) && Enabled(cfg, s, e) && Carries(s, e)
    requires s.file.Some? && cs != []
    ensures Carried(cfg, cs, Next(cfg, s, e)) && SafeStep(cfg, s, e) && Next(cfg, s, e).file.Some?
    ensures Untouched(cs, s.file.value, Next(cfg, s, e).file.value)
  {
    if WorkerEvent(e) {
      WorkerCarries(cfg, cs, s, e);
      WorkerMisses(cfg, cs, s, e);
    } else if e.Marshal? || e.Stage? || e.Publish? || e.SaveFails? {
      SaverCarries(cfg, cs, s, e);
    } else {
      MainCarries(cfg, cs, s, e);
    }
  }

  lemma UntouchedTwice(cs: seq<Chunk>, f: Content, g: Content, k: Content)
    requires Untouched(cs, f, g) && Untouched(cs, g, k)
    ensures Untouched(cs, f, k)
  {
    forall p | Claimed(cs, p)
      ensures Kept(f, k, p)
    {
      assert Kept(f, g, p) && Kept(g, k, p);
    }
  }

  lemma {:induction false} CarriedOn(cfg: Config, g: Past, h: Past)
    requires ValidConfig(cfg) && Legal(cfg, g) && Safe(cfg, g) && Inv(cfg, g.state) && g.state.file.Some?
    requires g.state.chunks != [] && Carried(cfg, g.state.chunks, g.state)
    requires Legal(cfg, h) && Resumed(h, g)
    ensures Inv(cfg, h.state) && Carried(cfg, g.state.chunks, h.state)
    ensures h.state.file.Some? && Untouched(g.state.chunks, g.state.file.value, h.state.file.value)
  {
    if h == g {
    } else {
      CarriedOn(cfg, g, h.past);
      CarryStep(cfg, g.state.chunks, h.past.state, h.event);
      StepKeeps(cfg, h.past.state, h.event);
      UntouchedTwice(g.state.chunks, g.state.file.value, h.past.state.file.value, h.state.file.value);
    }
  }

  /** Worker i's request, or what is left of it, begins behind what the records claim. */
  ghost predicate AsksAround(cs: seq<Chunk>, s: State) {
    && |s.workers| == |s.chunks|
    && forall i, p :: 0 <= i < |s.chunks| && Claimed(cs, p) ==>
                        !(s.chunks[i].start + s.chunks[i].done <= p < s.chunks[i].end)
  }

  lemma GrownAsksAround(cfg: Config, cs: seq<Chunk>, s: State)
    requires ChunksOk(cfg, s) && Grown(cs, s.chunks)
    ensures AsksAround(cs, s)
  {
    SoundInBounds(cfg.source, s.file.value, s.chunks);
    forall i, p | 0 <= i < |s.chunks| && Claimed(cs, p)
      ensures !(s.chunks[i].start + s.chunks[i].done <= p < s.chunks[i].end)
    {
      GrownClaims(cs, s.chunks, p);
      UnclaimedWindow(s.chunks, |cfg.source|, i, p);
    }
  }

  /** g ends with the last save of an attempt, and that save was stored. */
  ghost predicate Checkpointed(cfg: Config, g: Past)
    requires ValidConfig(cfg)
  {
    Legal(cfg, g) && Safe(cfg, g) && Initial(cfg, Start(g)) && SavedLast(g)
  }

  lemma CheckpointCarries(cfg: Config, g: Past)
    requires ValidConfig(cfg) && Checkpointed(cfg, g)
    ensures Inv(cfg, g.state) && g.state.file.Some? && g.state.chunks != []
    ensures Carried(cfg, g.state.chunks, g.state)
  {
    LastSaveIsFinal(cfg, g);
    HistoryKeeps(cfg, g);
  }

  /** Resuming loses nothing: from an attempt's last save on, through any pauses, crashes,
      further runs and saves up to the completed download, no byte counted in memory at
      that save is asked for or written again, and the counts only grow. */
  lemma ResumeLosesNothing(cfg: Config, g: Past, h: Past)
    requires ValidConfig(cfg) && Checkpointed(cfg, g) && Legal(cfg, h) && Resumed(h, g)
    ensures g.state.file.Some? && h.state.file.Some?
    ensures Untouched(g.state.chunks, g.state.file.value, h.state.file.value)
    ensures Chunking(h.state.main) ==> Grown(g.state.chunks, h.state.chunks) && AsksAround(g.state.chunks, h.state)
  {
    CheckpointCarries(cfg, g);
    CarriedOn(cfg, g, h);
    if Chunking(h.state.main) {
      GrownAsksAround(cfg, g.state.chunks, h.state);
    }
  }

  /** No run has begun between g and h. */
  ghost predicate NoRunSince(h: Past, g: Past) {
    h == g || (h.Then? && NoRunSince(h.past, g) && !h.event.Probe?)
  }

  /** Between two runs, disk and records stand still. */
  ghost predicate Waits(g: State, s: State) {
    && (s.main.Judging? || s.main.Returning? || s.main.Idle? || s.main.Verifying? || s.main.Finished?)
    && s.saver.Quiet? && !s.ticking && AllLeft(s.workers) && s.file == g.file
    && (s.main.Judging? ==> s.chunks == g.chunks)
    && (!s.main.Verifying? && !s.main.Finished? ==> s.sidecar == g.sidecar)
  }

  lemma WaitsStep(cfg: Config, g: State, s: State, e: Event)
    requires ValidConfig(cfg) && Enabled(cfg, s, e) && Waits(g, s) && Carries(s, e) && !e.Probe?
    ensures Waits(g, Next(cfg, s, e))
  {
  }

  lemma {:induction false} WaitsOn(cfg: Config, g: Past, h: Past)
    requires ValidConfig(cfg) && Legal(cfg, h) && Resumed(h, g) && NoRunSince(h, g) && Waits(g.state, g.state)
    ensures Waits(g.state, h.state)
  {
    if h == g {
    } else {
      WaitsOn(cfg, g, h.past);
      WaitsStep(cfg, g.state, h.past.state, h.event);
    }
  }

  /** How the workers of a new attempt stand to their records. */
  predicate StartsAt(s: State) {
    && |s.workers| == |s.chunks|
    && forall i :: 0 <= i < |s.chunks| ==>
                     s.workers[i] == if s.chunks[i].done < s.chunks[i].end - s.chunks[i].start then Asking else Left
  }

  /** After a pause (or a failure) whose last save was stored, the next run with ranges
      starts exactly from the records in memory before: the same windows and counts, the
      same file, every unfinished chunk asked for and no other. */
  lemma ResumesAtRecords(cfg: Config, g: Past, h: Past)
    requires ValidConfig(cfg) && Checkpointed(cfg, g)
    requires Legal(cfg, h) && h.Then? && h.event == Probe(true, true)
    requires Resumed(h.past, g) && NoRunSince(h.past, g)
    ensures h.state.main.Waiting? && h.state.chunks == g.state.chunks && h.state.file == g.state.file
    ensures StartsAt(h.state)
  {
    CheckpointCarries(cfg, g);
    LastSaveIsFinal(cfg, g);
    WaitsOn(cfg, g, h.past);
  }

  // ----- starting afresh -----

  /** Without a record of this download (none, unreadable, of another URL or length) a
      run with ranges asks for everything: the windows tile the file, nothing is counted,
      and the file has its full length, filled up with zeros. */
  lemma StartsAfresh(cfg: Config, s: State)
    requires ValidConfig(cfg) && Enabled(cfg, s, Probe(true, true))
    requires s.sidecar.Saved? ==>
               s.sidecar.url != cfg.url || s.sidecar.total != |cfg.source| || s.sidecar.chunks == []
    ensures var t := Next(cfg, s, Probe(true, true));
            var f := if s.file.Some? then s.file.value else [];
            && t.main.Waiting? && Blank(t.chunks, |cfg.source|) && |t.chunks| == cfg.n && StartsAt(t)
            && t.file.Some? && |t.file.value| == |cfg.source|
            && forall p :: 0 <= p < |cfg.source| ==> t.file.value[p] == if p < |f| then f[p] else 0
  {
    EvenSplitTiles(|cfg.source|, cfg.n);
    TruncateBytes(if s.file.Some? then s.file.value else [], |cfg.source|);
  }

  /** A file whose checksum is wrong leaves nothing behind: the next run with ranges asks
      for every byte again, of a file of zeros. */
  lemma WrongChecksumStartsAfresh(cfg: Config, g: Past, h: Past)
    requires ValidConfig(cfg) && Legal(cfg, g) && g.Then? && g.event == Verify(false)
    requires Legal(cfg, h) && h.Then? && h.event == Probe(true, true) && h.past.Then?
    requires h.past.event.Settle? && h.past.past == g
    ensures h.state.main.Waiting? && Blank(h.state.chunks, |cfg.source|) && StartsAt(h.state)
    ensures h.state.file == Some(seq(|cfg.source|, _ => 0 as Byte))
  {
    var s := h.past.state;
    assert s.file.None? && s.sidecar.Absent? by {
      assert Legal(cfg, h.past) && s == Next(cfg, g.state, h.past.event);
    }
    StartsAfresh(cfg, s);
    assert h.state == Next(cfg, s, Probe(true, true));
    assert h.state.file.value == seq(|cfg.source|, _ => 0 as Byte);
  }

  /** So does a reset (the sidecar removed, the file removed, the offset set to zero). */
  lemma ResetStartsAfresh(cfg: Config, s: State) returns (t: State)
    requires ValidConfig(cfg) && s.main.Idle?
    ensures Enabled(cfg, s, DropSidecar) && Enabled(cfg, Next(cfg, s, DropSidecar), DropFile)
    ensures var bare := Next(cfg, Next(cfg, s, DropSidecar), DropFile);
            Enabled(cfg, bare, Restore(0)) && t == Next(cfg, Next(cfg, bare, Restore(0)), Probe(true, true))
    ensures t.main.Waiting? && t.offset == 0 && Blank(t.chunks, |cfg.source|) && StartsAt(t)
    ensures t.file == Some(seq(|cfg.source|, _ => 0 as Byte))
  {
    var bare := Bare(cfg, s);
    StartsAfresh(cfg, bare);
    t := Next(cfg, bare, Probe(true, true));
    assert t.file.value == seq(|cfg.source|, _ => 0 as Byte);
  }

  lemma Bare(cfg: Config, s: State) returns (t: State)
    requires ValidConfig(cfg) && s.main.Idle?
    ensures Enabled(cfg, s, DropSidecar) && Enabled(cfg, Next(cfg, s, DropSidecar), DropFile)
    ensures var u := Next(cfg, Next(cfg, s, DropSidecar), DropFile);
            Enabled(cfg, u, Restore(0)) && t == Next(cfg, u, Restore(0))
    ensures t.main.Idle? && t.file.None? && t.sidecar.Absent? && t.offset == 0
  {
    Dropped(cfg, s);
    var a := Next(cfg, s, DropSidecar);
    Dropped(cfg, a);
    Dropped(cfg, Next(cfg, a, DropFile));
    t := Next(cfg, Next(cfg, a, DropFile), Restore(0));
  }

  lemma Dropped(cfg: Config, s: State)
    requires ValidConfig(cfg) && s.main.Idle?
    ensures Enabled(cfg, s, DropSidecar) && Next(cfg, s, DropSidecar) == Stop(s).(sidecar := Absent)
    ensures Enabled(cfg, s, DropFile) && Next(cfg, s, DropFile) == Stop(s).(file := None)
    ensures Enabled(cfg, s, Restore(0)) && Next(cfg, s, Restore(0)) == Stop(s).(offset := 0)
  {
  }

  // ----- how an attempt ends -----

  /** In this run some chunk request was answered with a 200. */
  ghost predicate Ignored(h: Past) {
    h.Then? && !h.event.Probe? && ((h.event.Answer? && h.event.status == 200) || Ignored(h.past))
  }

  /** In this run a chunk request was answered neither with its range nor the whole file,
      a body or a write failed, or the job was paused. */
  ghost predicate Troubled(h: Past) {
    h.Then? && !h.event.Probe? && (Trouble(h.event) || Troubled(h.past))
  }

  predicate Trouble(e: Event) {
    || (e.Answer? && e.status != 200 && e.status != 206)
    || e.TornWrite? || (e.Hangup? && e.err) || e.Pause?
  }

  /** What a step does to the flags of an attempt. */
  ghost predicate FlagsMove(s: State, e: Event, t: State) {
    && (t.rangeIgnored <==> s.rangeIgnored || (e.Answer? && e.status == 200))
    && (t.failed || t.cancelled <==> s.failed || s.cancelled || Trouble(e))
  }

  lemma WorkerFlags(cfg: Config, s: State, e: Event)
    requires ValidConfig(cfg) && Enabled(cfg, s, e) && WorkerEvent(e)
    ensures FlagsMove(s, e, Next(cfg, s, e)) && Next(cfg, s, e).main == s.main
  {
  }

  lemma MainFlags(cfg: Config, s: State, e: Event)
    requires ValidConfig(cfg) && Enabled(cfg, s, e) && PhaseOk(s) && !WorkerEvent(e)
    ensures var t := Next(cfg, s, e);
            Chunking(t.main) || t.main.Falling? ==>
              if e.Probe? then !t.rangeIgnored && !t.failed && !t.cancelled
              else FlagsMove(s, e, t) && (Chunking(s.main) || s.main.Falling?)
  {
    if e.Marshal? || e.Stage? || e.Publish? || e.SaveFails? {
      SaverFlags(cfg, s, e);
    }
  }

  lemma SaverFlags(cfg: Config, s: State, e: Event)
    requires ValidConfig(cfg) && Enabled(cfg, s, e) && PhaseOk(s)
    requires e.Marshal? || e.Stage? || e.Publish? || e.SaveFails?
    ensures FlagsMove(s, e, Next(cfg, s, e)) && Chunking(s.main)
  {
  }

  ghost predicate FlagsTell(h: Past) {
    Chunking(h.state.main) || h.state.main.Falling? ==>
      && (h.state.rangeIgnored <==> Ignored(h))
      && (h.state.failed || h.state.cancelled <==> Troubled(h))
  }

  lemma {:induction false} FlagsHold(cfg: Config, h: Past)
    requires ValidConfig(cfg) && Legal(cfg, h) && Start(h) == Stop(Start(h))
    ensures FlagsTell(h) && PhaseOk(h.state)
  {
    if h.Begin? {
    } else {
      FlagsHold(cfg, h.past);
      PhaseStep(cfg, h.past.state, h.event);
      if WorkerEvent(h.event) {
        WorkerFlags(cfg, h.past.state, h.event);
      } else {
        MainFlags(cfg, h.past.state, h.event);
      }
    }
  }

  /** A chunked attempt falls back to one stream if and only if a chunk request was
      answered with a 200 in it; no other status does that. */
  lemma {:induction false} FallsBackIff(cfg: Config, h: Past)
    requires ValidConfig(cfg) && Legal(cfg, h) && Start(h) == Stop(Start(h)) && h.Then? && h.event.TickerStops?
    ensures h.state.main == if Ignored(h.past) then Falling else Saving
  {
    FlagsHold(cfg, h.past);
  }

  /** And it completes if and only if every chunk is done and there was no failure, no
      other status and no pause, and then leaves no sidecar; else the run returns how many
      bytes are counted. */
  lemma {:induction false} CompletesIff(cfg: Config, h: Past)
    requires ValidConfig(cfg) && Legal(cfg, h) && Start(h) == Stop(Start(h)) && h.Then? && h.event.Judge?
    ensures h.state.main == if AllDone(h.past.state.chunks) && !Troubled(h.past) then Verifying
                            else Returning(DoneTotal(h.past.state.chunks))
    ensures h.state.file == h.past.state.file
    ensures h.state.sidecar == if h.state.main.Verifying? then Absent else h.past.state.sidecar
  {
    FlagsHold(cfg, h.past);
  }

  /** The resume offset in the row: what the last stored finish of a run was told, or what
      a reset or a start without a run wrote since. */
  ghost function Stored(cfg: Config, h: Past): int {
    match h
    case Begin(s) => s.offset
    case Then(g, e, _) =>
      if e == Settle(true) then (if g.state.main.Returning? then g.state.main.done else |cfg.source|)
      else if e.Restore? then e.o
      else Stored(cfg, g)
  }

  /** A run that fails before it fetches (no probe, no file to open, a wrong checksum)
      returns a count of zero, and its finish stores that as the offset. */
  lemma NothingFetchedIsZero(cfg: Config, s: State, e: Event, r: bool)
    requires ValidConfig(cfg) && Enabled(cfg, s, e)
    requires e.ProbeFails? || e == Verify(false) || (e.SingleFails? && s.main.Opening?)
             || (e == Probe(true, true) && Usable(cfg, s.sidecar) && s.file.None?)
    ensures var t := Next(cfg, s, e);
            && t.main == Returning(0) && Enabled(cfg, t, Settle(r))
            && Next(cfg, t, Settle(r)).offset == if r then 0 else s.offset
  {
  }

  lemma OffsetStep(cfg: Config, s: State, e: Event)
    requires ValidConfig(cfg) && Enabled(cfg, s, e) && !e.Settle? && !e.Restore?
    ensures Next(cfg, s, e).offset == s.offset
  {
    if WorkerEvent(e) {
      WorkersApart(cfg, s, e);
    } else if e.Marshal? || e.Stage? || e.Publish? || e.SaveFails? {
      SavesApart(cfg, s, e);
    }
  }

  lemma SavesApart(cfg: Config, s: State, e: Event)
    requires ValidConfig(cfg) && Enabled(cfg, s, e) && (e.Marshal? || e.Stage? || e.Publish? || e.SaveFails?)
    ensures Next(cfg, s, e).offset == s.offset
  {
  }

  lemma {:induction false} OffsetIsStored(cfg: Config, h: Past)
    requires ValidConfig(cfg) && Legal(cfg, h)
    ensures h.state.offset == Stored(cfg, h)
  {
    if h.Begin? {
    } else {
      OffsetIsStored(cfg, h.past);
      if !h.event.Settle? && !h.event.Restore? {
        OffsetStep(cfg, h.past.state, h.event);
      }
    }
  }

  // ----- the count a run returns -----

  /** The bytes below n that some record claims. */
  ghost function ClaimedBelow(cs: seq<Chunk>, n: nat): set<int> {
    set p | 0 <= p < n && Claimed(cs, p)
  }

  /** Of the first k records, the counts. */
  lemma {:induction false} DoneTotalSnoc(cs: seq<Chunk>, c: Chunk)
    ensures DoneTotal(cs + [c]) == DoneTotal(cs) + c.done
  {
    if cs == [] {
      assert cs + [c] == [c];
    } else {
      assert (cs + [c])[1..] == cs[1..] + [c];
      DoneTotalSnoc(cs[1..], c);
    }
  }

  function Stretch(lo: int, n: nat): (s: set<int>)
    ensures forall p :: p in s <==> lo <= p < lo + n
    ensures |s| == n
  {
    if n == 0 then {} else Stretch(lo, n - 1) + {lo + n - 1}
  }

  lemma ClaimedSnoc(cs: seq<Chunk>, c: Chunk, p: int)
    ensures Claimed(cs + [c], p) <==> Claimed(cs, p) || c.start <= p < c.start + c.done
  {
    var ds := cs + [c];
    if Claimed(cs, p) {
      var q :| 0 <= q < |cs| && cs[q].start <= p < cs[q].start + cs[q].done;
      assert ds[q] == cs[q];
    }
    if c.start <= p < c.start + c.done {
      assert ds[|cs|] == c;
    }
    if Claimed(ds, p) {
      var q :| 0 <= q < |ds| && ds[q].start <= p < ds[q].start + ds[q].done;
      assert q < |cs| ==> cs[q] == ds[q];
    }
  }

  lemma ClaimedApart(front: seq<Chunk>, c: Chunk, p: int)
    requires front != [] ==> InBounds(front, c.start)
    ensures Claimed(front + [c], p) <==> Claimed(front, p) || c.start <= p < c.start + c.done
    ensures Claimed(front, p) ==> 0 <= p < c.start
  {
    ClaimedSnoc(front, c, p);
    if Claimed(front, p) {
      ClaimedInside(front, c.start, p);
    }
  }

  /** What records up to total claim is what those before the last claim, and what it does. */
  lemma ClaimedSplit(front: seq<Chunk>, c: Chunk, total: nat)
    requires 0 <= c.start && 0 <= c.done && c.start + c.done <= total
    requires front != [] ==> InBounds(front, c.start)
    ensures ClaimedBelow(front + [c], total) == ClaimedBelow(front, c.start) + Stretch(c.start, c.done)
  {
    var all, before, own := ClaimedBelow(front + [c], total), ClaimedBelow(front, c.start), Stretch(c.start, c.done);
    forall p
      ensures p in all <==> p in before + own
    {
      ClaimedApart(front, c, p);
    }
  }

  /** The count a run returns is the number of bytes its records claim. */
  lemma {:induction false} CountIsClaimed(cs: seq<Chunk>, total: nat)
    requires InBounds(cs, total)
    ensures DoneTotal(cs) == |ClaimedBelow(cs, total)|
    decreases |cs|
  {
    var front, c := cs[..|cs| - 1], cs[|cs| - 1];
    assert cs == front + [c];
    DoneTotalSnoc(front, c);
    TilesInside(cs, total, |cs| - 1);
    ClaimedSplit(front, c, total);
    assert ClaimedBelow(front, c.start) !! Stretch(c.start, c.done);
    if front == [] {
      assert ClaimedBelow(front, c.start) == {};
    } else {
      CountIsClaimed(front, c.start);
    }
  }

  lemma ClaimedInside(cs: seq<Chunk>, total: int, p: int)
    requires InBounds(cs, total) && Claimed(cs, p)
    ensures 0 <= p < total
  {
    var q :| 0 <= q < |cs| && cs[q].start <= p < cs[q].start + cs[q].done;
    TilesInside(cs, total, q);
  }
}
