/** runChunked and its fall-back in Run (downloader.go) as a state machine: chunk
    workers, the sidecar ticker, the waiting main goroutine, and a process that
    may die between any two steps. The output file, the sidecar and the job's stored
    resume offset outlive a crash. The steps carry the environment's choices. */
module ChunkedDownload {
  import opened FileBytes
  import opened Options
  import opened Chunks

  /** A job whose URL and content never change, split n ways. */
  datatype Config = Config(url: string, source: Content, n: int)

  ghost predicate ValidConfig(cfg: Config) {
    |cfg.source| > 0 && cfg.n > 1
  }

  /** What is under the sidecar's name: nothing, unreadable JSON, or a record. */
  datatype SidecarFile = Absent | Garbled | Saved(url: string, total: int, chunks: seq<Chunk>)

  /** A chunk worker: request sent, copying at pos, written up to pos but Done
      not yet advanced, or returned. */
  datatype Worker = Asking | Reading(pos: int) | Wrote(pos: int) | Left

  /** saveSidecar under way: copied under the mutex, then in the temporary file. */
  datatype Saver = Quiet | Marshaled(chunks: seq<Chunk>) | Staged(chunks: seq<Chunk>)

  /** The goroutine running Run. */
  datatype Main =
    | Idle                 // not inside Run: not started, returned, or the process is dead
    | Waiting              // wg.Wait for the chunk workers
    | Stopping             // stopTicker
    | Saving               // the last saveSidecar
    | Judging              // errors, cancellation, completeness
    | Falling              // errRangeIgnored came back
    | Opening(fallback: bool, ranges: bool) // runSingle about to open the file
    | Requested(start: int)               // file ready at start, request sent
    | Single(written: int, page: bool)    // runSingle's copy loop; page: an error's body
    | Verifying            // completed, checksum still to come
    | Finished             // Run reported Completed
    | Returning(done: int) // Run is back with BytesDone, finishJob still to come

  datatype State = State(
    file: Option<Content>,
    sidecar: SidecarFile,
    offset: int, // the row's ResumeOffset
    main: Main,
    chunks: seq<Chunk>,
    workers: seq<Worker>,
    saver: Saver,
    ticking: bool,
    rangeIgnored: bool,
    failed: bool,
    cancelled: bool)

  datatype Event =
    | Probe(ranges: bool, sized: bool)           // Run starts; does the server have ranges, a length?
    | ProbeFails
    | Answer(i: nat, status: int)                // response headers for worker i
    | Deliver(i: nat, data: Content)             // a body read and its WriteAt
    | TornWrite(i: nat, data: Content, k: nat)   // WriteAt fails after k bytes
    | Advance(i: nat)                            // c.Done moved under the mutex
    | Hangup(i: nat, err: bool)                  // EOF, transport or limiter error
    | Pause                                      // the job's context is cancelled
    | Marshal | Stage | Publish | SaveFails      // one saveSidecar
    | Join | TickerStops | Judge
    | DropStale                                  // the fall-back removes the sidecar
    | OpenSingle | SingleAnswer(status: int) | Append(data: Content) | SingleEof | SingleFails
    | Verify(ok: bool)
    | Settle(stored: bool)                       // finishJob's write of the offset
    | Restore(o: int)                            // a start without a Run, or a reset, writes one
    | Crash
    | DropSidecar | DropFile                     // resetForRetry, remove --purge

  /** loadOrInitSidecar's test for resuming. */
  predicate Usable(cfg: Config, sc: SidecarFile) {
    sc.Saved? && sc.url == cfg.url && sc.total == |cfg.source| && |sc.chunks| > 0
  }

  predicate AllLeft(ws: seq<Worker>) {
    forall i :: 0 <= i < |ws| ==> ws[i].Left?
  }

  predicate AllDone(cs: seq<Chunk>) {
    forall i :: 0 <= i < |cs| ==> cs[i].done >= cs[i].end - cs[i].start
  }

  function Clip(n: int, room: int): int {
    if n < room then n else room
  }

  /** A 206 body carries the source's bytes from the asked offset; past the
      window's end it may carry anything, and it may stop anywhere. */
  ghost predicate HonestRead(cfg: Config, s: State, i: nat, data: Content)
    requires i < |s.workers| && i < |s.chunks| && s.workers[i].Reading?
  {
    var pos := s.workers[i].pos;
    && |data| > 0
    && 0 <= pos < s.chunks[i].end <= |cfg.source|
    && forall k :: 0 <= k < |data| && pos + k < s.chunks[i].end ==> data[k] == cfg.source[pos + k]
  }

  ghost predicate Enabled(cfg: Config, s: State, e: Event) {
    match e
    case Probe(_, _) => s.main.Idle?
    case ProbeFails => s.main.Idle?
    case Answer(i, _) => i < |s.workers| && i < |s.chunks| && s.workers[i].Asking?
    case Deliver(i, data) =>
      s.file.Some? && i < |s.workers| && i < |s.chunks| && s.workers[i].Reading? && HonestRead(cfg, s, i, data)
    case TornWrite(i, data, k) =>
      s.file.Some? && i < |s.workers| && i < |s.chunks| && s.workers[i].Reading? && HonestRead(cfg, s, i, data)
      && k <= Clip(|data|, s.chunks[i].end - s.workers[i].pos)
    case Advance(i) => i < |s.workers| && i < |s.chunks| && s.workers[i].Wrote?
    case Hangup(i, _) => i < |s.workers| && (s.workers[i].Asking? || s.workers[i].Reading?)
    case Pause => !s.main.Idle? && !s.main.Finished? && !s.main.Returning?
    case Marshal => s.saver.Quiet? && (s.ticking || s.main.Saving?)
    case Stage => s.saver.Marshaled?
    case Publish => s.saver.Staged?
    case SaveFails => !s.saver.Quiet?
    case Join => s.main.Waiting? && AllLeft(s.workers)
    case TickerStops => s.main.Stopping? && s.ticking && s.saver.Quiet?
    case Judge => s.main.Judging?
    case DropStale => s.main.Falling?
    case OpenSingle => s.main.Opening?
    case SingleAnswer(_) => s.main.Requested? && s.file.Some?
    case Append(data) =>
      s.main.Single? && s.file.Some? && |data| > 0 && 0 <= s.main.written
      && (!s.main.page ==>
            && s.main.written + |data| <= |cfg.source|
            && data == cfg.source[s.main.written..s.main.written + |data|])
    case SingleEof => s.main.Single? && (!s.main.page ==> s.main.written == |cfg.source|)
    case SingleFails => s.main.Opening? || s.main.Requested? || s.main.Single?
    case Verify(_) => s.main.Verifying?
    case Settle(_) => s.main.Returning? || s.main.Finished?
    case Restore(o) => (s.main.Idle? || s.main.Finished?) && o >= 0
    case Crash => true
    case DropSidecar => s.main.Idle? || s.main.Finished?
    case DropFile => s.main.Idle? || s.main.Finished?
  }

  /** The process is gone, or Run has returned: nothing is left but the disk. */
  function Stop(s: State): State {
    State(s.file, s.sidecar, s.offset, Idle, [], [], Quiet, false, false, false, false)
  }

  /** Run has returned. */
  function Return(s: State, done: int): State {
    Stop(s).(main := Returning(done))
  }

  /** doneCounter when every worker has returned. */
  function DoneTotal(cs: seq<Chunk>): int {
    if cs == [] then 0 else cs[0].done + DoneTotal(cs[1..])
  }

  /** Where runSingle starts: at the stored offset if the server has ranges and the
      file is long enough; the fall-back passes neither. */
  function SingleStart(s: State): int
    requires s.main.Opening?
  {
    if !s.main.fallback && s.main.ranges && s.offset > 0 && s.file.Some? && |s.file.value| >= s.offset then s.offset
    else 0
  }

  function StartWorkers(cs: seq<Chunk>): seq<Worker> {
    seq(|cs|, i requires 0 <= i < |cs| => if cs[i].done >= cs[i].end - cs[i].start then Left else Asking)
  }

  function StartChunked(s: State, file: Content, cs: seq<Chunk>): State {
    State(Some(file), s.sidecar, s.offset, Waiting, cs, StartWorkers(cs), Quiet, true, false, false, false)
  }

  function SaveReturns(s: State): State {
    s.(saver := Quiet, main := if s.main.Saving? then Judging else s.main)
  }

  ghost function Next(cfg: Config, s: State, e: Event): State
    requires ValidConfig(cfg) && Enabled(cfg, s, e)
  {
    match e
    case Probe(ranges, sized) =>
      if !ranges || !sized then s.(main := Opening(false, ranges))
      else if Usable(cfg, s.sidecar) then
        if s.file.None? then Return(s, 0) else StartChunked(s, s.file.value, s.sidecar.chunks)
      else
        StartChunked(s, Truncate(if s.file.Some? then s.file.value else [], |cfg.source|),
                     EvenSplit(|cfg.source|, cfg.n))
    case ProbeFails => Return(s, 0)
    case Answer(i, status) =>
      if status == 206 then s.(workers := s.workers[i := Reading(s.chunks[i].start + s.chunks[i].done)])
      else if status == 200 then s.(workers := s.workers[i := Left], rangeIgnored := true)
      else s.(workers := s.workers[i := Left], failed := true)
    case Deliver(i, data) =>
      var pos := s.workers[i].pos;
      var m := Clip(|data|, s.chunks[i].end - pos);
      s.(file := Some(WriteAt(s.file.value, pos, data[..m])), workers := s.workers[i := Wrote(pos + m)])
    case TornWrite(i, data, k) =>
      s.(file := Some(WriteAt(s.file.value, s.workers[i].pos, data[..k])),
         workers := s.workers[i := Left], failed := true)
    case Advance(i) =>
      var pos := s.workers[i].pos;
      s.(chunks := s.chunks[i := s.chunks[i].(done := pos - s.chunks[i].start)],
         workers := s.workers[i := if pos >= s.chunks[i].end then Left else Reading(pos)])
    case Hangup(i, err) => s.(workers := s.workers[i := Left], failed := s.failed || err)
    case Pause => s.(cancelled := true)
    case Marshal => s.(saver := Marshaled(s.chunks))
    case Stage => s.(saver := Staged(s.saver.chunks))
    case Publish => SaveReturns(s.(sidecar := Saved(cfg.url, |cfg.source|, s.saver.chunks)))
    case SaveFails => SaveReturns(s)
    case Join => s.(main := Stopping)
    case TickerStops => s.(ticking := false, main := if s.rangeIgnored then Falling else Saving)
    case Judge =>
      if s.failed || s.cancelled || !AllDone(s.chunks) then Return(s, DoneTotal(s.chunks))
      else Stop(s).(sidecar := Absent, main := Verifying)
    case DropStale => s.(sidecar := Absent, main := Opening(true, false))
    case OpenSingle =>
      var start := SingleStart(s);
      if start > 0 then s.(main := Requested(start)) else s.(file := Some([]), main := Requested(0))
    case SingleAnswer(status) =>
      if s.main.start > 0 && status != 206 then s.(file := Some([]), main := Single(0, status != 200))
      else if status != 200 && status != 206 then Return(s, s.main.start)
      else s.(main := Single(s.main.start, false))
    case Append(data) =>
      s.(file := Some(WriteAt(s.file.value, s.main.written, data)),
         main := Single(s.main.written + |data|, s.main.page))
    case SingleEof => s.(main := Verifying)
    case SingleFails =>
      Return(s, if s.main.Opening? then 0 else if s.main.Requested? then s.main.start else s.main.written)
    case Verify(ok) => if ok then s.(main := Finished) else Return(s, 0).(file := None, sidecar := Absent)
    case Settle(stored) =>
      Stop(s).(offset := if !stored then s.offset else if s.main.Returning? then s.main.done else |cfg.source|)
    case Restore(o) => Stop(s).(offset := o)
    case Crash => Stop(s)
    case DropSidecar => Stop(s).(sidecar := Absent)
    case DropFile => Stop(s).(file := None)
  }

  // ----- the invariant -----

  predicate Chunking(m: Main) {
    m.Waiting? || m.Stopping? || m.Saving? || m.Judging?
  }

  /** A record of a split in which nothing is done yet. */
  predicate Blank(cs: seq<Chunk>, total: int) {
    Tiles(cs, total) && forall i :: 0 <= i < |cs| ==> cs[i].done == 0
  }

  /** A sidecar the single stream may leave behind: not resumable, or claiming no
      byte. */
  predicate Harmless(cfg: Config, sc: SidecarFile) {
    Usable(cfg, sc) ==> Blank(sc.chunks, |cfg.source|)
  }

  /** A resumable sidecar only claims bytes the file holds. */
  ghost predicate DiskOk(cfg: Config, s: State) {
    Usable(cfg, s.sidecar) && s.file.Some? ==> Sound(cfg.source, s.file.value, s.sidecar.chunks)
  }

  ghost predicate WorkerOk(cfg: Config, f: Content, c: Chunk, w: Worker) {
    match w
    case Asking => c.start + c.done < c.end
    case Reading(pos) => pos == c.start + c.done < c.end
    case Wrote(pos) => c.start + c.done <= pos <= c.end && Holds(cfg.source, f, c.start, pos)
    case Left => true
  }

  ghost predicate ChunksOk(cfg: Config, s: State) {
    && s.file.Some?
    && Sound(cfg.source, s.file.value, s.chunks)
    && |s.workers| == |s.chunks|
    && forall i :: 0 <= i < |s.chunks| ==> WorkerOk(cfg, s.file.value, s.chunks[i], s.workers[i])
  }

  ghost predicate SaverOk(cfg: Config, s: State) {
    match s.saver
    case Quiet => true
    case Marshaled(cs) => s.file.Some? && |cs| > 0 && Sound(cfg.source, s.file.value, cs)
    case Staged(cs) => s.file.Some? && |cs| > 0 && Sound(cfg.source, s.file.value, cs)
  }

  /** Who may be running in which phase. */
  ghost predicate PhaseOk(s: State) {
    && (!Chunking(s.main) ==> s.saver.Quiet?)
    && (!s.main.Waiting? ==> AllLeft(s.workers))
    && (s.ticking <==> s.main.Waiting? || s.main.Stopping?)
    && (s.main.Judging? ==> s.saver.Quiet?)
    && (s.main.Saving? || s.main.Judging? ==> !s.rangeIgnored)
  }

  /** The single stream has come to position w with the source's bytes behind it. A
      start beyond the source is never answered with bytes. */
  ghost predicate TrueTo(cfg: Config, f: Content, w: int) {
    0 <= w <= |f| && (w <= |cfg.source| ==> |f| <= |cfg.source| && Holds(cfg.source, f, 0, w))
  }

  ghost predicate OutsideOk(cfg: Config, s: State) {
    && (s.main.Opening? && s.main.fallback ==> s.sidecar.Absent?)
    && (s.main.Requested? ==> s.file.Some? && 0 <= s.main.start <= |s.file.value|
                              && (s.main.start == 0 ==> s.file.value == []))
    && (s.main.Single? ==> !s.main.page && s.file.Some? && TrueTo(cfg, s.file.value, s.main.written))
    && (s.main.Verifying? || s.main.Finished? ==> s.file == Some(cfg.source))
  }

  ghost predicate Inv(cfg: Config, s: State) {
    && DiskOk(cfg, s)
    && (Chunking(s.main) ==> ChunksOk(cfg, s))
    && SaverOk(cfg, s)
    && PhaseOk(s)
    && OutsideOk(cfg, s)
  }

  /** The hypothesis on runs, about the single stream alone: it truncates the file
      only while no resumable sidecar that claims a byte is lying about; it resumes
      only after bytes that are the source's; and a refused resume is answered with
      the whole file, not with an error page. */
  ghost predicate SafeStep(cfg: Config, s: State, e: Event)
    requires Enabled(cfg, s, e)
  {
    match e
    case OpenSingle => SingleStart(s) == 0 ==> Harmless(cfg, s.sidecar)
    case SingleAnswer(status) =>
      s.main.start > 0 ==>
        if status == 206 then TrueTo(cfg, s.file.value, s.main.start)
        else status == 200 && Harmless(cfg, s.sidecar)
    case _ => true
  }

  // ----- preservation -----

  /** Writing true bytes inside the file keeps every claim. */
  lemma WriteKeepsSound(cfg: Config, f: Content, cs: seq<Chunk>, pos: int, data: Content)
    requires Sound(cfg.source, f, cs)
    requires 0 <= pos && pos + |data| <= |cfg.source|
    requires forall k :: 0 <= k < |data| ==> data[k] == cfg.source[pos + k]
    ensures Sound(cfg.source, WriteAt(f, pos, data), cs)
  {
    WriteAtBytes(f, pos, data);
    assert Claim(cfg.source, f, cs[0]);
    forall i | 0 <= i < |cs|
      ensures Claim(cfg.source, WriteAt(f, pos, data), cs[i])
    {
      assert Claim(cfg.source, f, cs[i]);
      WriteAtKeeps(cfg.source, f, pos, data, cs[i].start, cs[i].start + cs[i].done);
    }
  }

  lemma WriteKeepsWorkers(cfg: Config, s: State, pos: int, data: Content)
    requires ChunksOk(cfg, s)
    requires 0 <= pos && pos + |data| <= |cfg.source|
    requires forall k :: 0 <= k < |data| ==> data[k] == cfg.source[pos + k]
    ensures ChunksOk(cfg, s.(file := Some(WriteAt(s.file.value, pos, data))))
  {
    WriteKeepsSound(cfg, s.file.value, s.chunks, pos, data);
    forall i | 0 <= i < |s.chunks|
      ensures WorkerOk(cfg, WriteAt(s.file.value, pos, data), s.chunks[i], s.workers[i])
    {
      assert WorkerOk(cfg, s.file.value, s.chunks[i], s.workers[i]);
      if s.workers[i].Wrote? {
        WriteAtKeeps(cfg.source, s.file.value, pos, data, s.chunks[i].start, s.workers[i].pos);
      }
    }
  }

  lemma WriteStep(cfg: Config, s: State, i: nat, data: Content, m: nat)
    requires ValidConfig(cfg) && Inv(cfg, s)
    requires Enabled(cfg, s, Deliver(i, data)) && m <= Clip(|data|, s.chunks[i].end - s.workers[i].pos)
    ensures var f := WriteAt(s.file.value, s.workers[i].pos, data[..m]);
            var t := s.(file := Some(f));
            && s.main.Waiting?
            && DiskOk(cfg, t) && ChunksOk(cfg, t) && SaverOk(cfg, t)
            && Holds(cfg.source, f, s.chunks[i].start, s.workers[i].pos + m)
  {
    assert s.main.Waiting?;
    var pos := s.workers[i].pos;
    assert WorkerOk(cfg, s.file.value, s.chunks[i], s.workers[i]);
    assert Claim(cfg.source, s.file.value, s.chunks[i]);
    WriteAtExtends(cfg.source, s.file.value, pos, data[..m], s.chunks[i].start);
    WriteKeepsWorkers(cfg, s, pos, data[..m]);
    if Usable(cfg, s.sidecar) {
      WriteKeepsSound(cfg, s.file.value, s.sidecar.chunks, pos, data[..m]);
    }
    if !s.saver.Quiet? {
      WriteKeepsSound(cfg, s.file.value, s.saver.chunks, pos, data[..m]);
    }
  }

  /** Moving one worker to another good place. */
  lemma MoveWorker(cfg: Config, s: State, i: nat, w: Worker)
    requires ChunksOk(cfg, s) && i < |s.workers|
    requires WorkerOk(cfg, s.file.value, s.chunks[i], w)
    ensures ChunksOk(cfg, s.(workers := s.workers[i := w]))
  {
    var ws := s.workers[i := w];
    forall j | 0 <= j < |s.chunks|
      ensures WorkerOk(cfg, s.file.value, s.chunks[j], ws[j])
    {
      assert WorkerOk(cfg, s.file.value, s.chunks[j], s.workers[j]);
    }
  }

  lemma DeliverKeeps(cfg: Config, s: State, i: nat, data: Content)
    requires ValidConfig(cfg) && Inv(cfg, s) && Enabled(cfg, s, Deliver(i, data))
    ensures Inv(cfg, Next(cfg, s, Deliver(i, data)))
  {
    var pos := s.workers[i].pos;
    var m := Clip(|data|, s.chunks[i].end - pos);
    assert WorkerOk(cfg, s.file.value, s.chunks[i], s.workers[i]);
    WriteStep(cfg, s, i, data, m);
    var u := s.(file := Some(WriteAt(s.file.value, pos, data[..m])));
    MoveWorker(cfg, u, i, Wrote(pos + m));
    assert Next(cfg, s, Deliver(i, data)) == u.(workers := u.workers[i := Wrote(pos + m)]);
  }

  lemma TornWriteKeeps(cfg: Config, s: State, i: nat, data: Content, k: nat)
    requires ValidConfig(cfg) && Inv(cfg, s) && Enabled(cfg, s, TornWrite(i, data, k))
    ensures Inv(cfg, Next(cfg, s, TornWrite(i, data, k)))
  {
    WriteStep(cfg, s, i, data, k);
    var u := s.(file := Some(WriteAt(s.file.value, s.workers[i].pos, data[..k])));
    MoveWorker(cfg, u, i, Left);
    assert Next(cfg, s, TornWrite(i, data, k)) == u.(workers := u.workers[i := Left], failed := true);
  }

  lemma AdvanceKeeps(cfg: Config, s: State, i: nat)
    requires ValidConfig(cfg) && Inv(cfg, s) && Enabled(cfg, s, Advance(i))
    ensures Inv(cfg, Next(cfg, s, Advance(i)))
  {
    assert s.main.Waiting?;
    var t := Next(cfg, s, Advance(i));
    assert WorkerOk(cfg, s.file.value, s.chunks[i], s.workers[i]);
    assert Claim(cfg.source, s.file.value, s.chunks[i]);
    forall j | 0 <= j < |t.chunks|
      ensures Claim(cfg.source, t.file.value, t.chunks[j])
      ensures WorkerOk(cfg, t.file.value, t.chunks[j], t.workers[j])
    {
      assert Claim(cfg.source, s.file.value, s.chunks[j]);
      assert WorkerOk(cfg, s.file.value, s.chunks[j], s.workers[j]);
    }
    assert Tiles(t.chunks, |cfg.source|);
  }

  lemma ProbeKeeps(cfg: Config, s: State, ranges: bool, sized: bool)
    requires ValidConfig(cfg) && Inv(cfg, s) && s.main.Idle?
    ensures Inv(cfg, Next(cfg, s, Probe(ranges, sized)))
  {
    var t := Next(cfg, s, Probe(ranges, sized));
    if t.main.Waiting? {
      if !Usable(cfg, s.sidecar) {
        FreshSplitSound(cfg, t.file.value);
      }
      assert ChunksOk(cfg, t);
    }
  }

  lemma FreshSplitSound(cfg: Config, f: Content)
    requires ValidConfig(cfg) && |f| == |cfg.source|
    ensures Sound(cfg.source, f, EvenSplit(|cfg.source|, cfg.n))
  {
    EvenSplitTiles(|cfg.source|, cfg.n);
    BlankIsSound(cfg.source, f, EvenSplit(|cfg.source|, cfg.n));
  }

  lemma WorkerLeaves(cfg: Config, s: State, i: nat, t: State)
    requires Inv(cfg, s) && s.main.Waiting? && i < |s.workers|
    requires t == s.(workers := s.workers[i := Left], rangeIgnored := t.rangeIgnored, failed := t.failed)
    ensures Inv(cfg, t)
  {
    MoveWorker(cfg, s, i, Left);
  }

  lemma AnswerKeeps(cfg: Config, s: State, i: nat, status: int)
    requires ValidConfig(cfg) && Inv(cfg, s) && Enabled(cfg, s, Answer(i, status))
    ensures Inv(cfg, Next(cfg, s, Answer(i, status)))
  {
    assert s.main.Waiting?;
    if status == 206 {
      assert WorkerOk(cfg, s.file.value, s.chunks[i], s.workers[i]);
      MoveWorker(cfg, s, i, Reading(s.chunks[i].start + s.chunks[i].done));
    } else {
      WorkerLeaves(cfg, s, i, Next(cfg, s, Answer(i, status)));
    }
  }

  lemma SaveKeeps(cfg: Config, s: State, e: Event)
    requires ValidConfig(cfg) && Inv(cfg, s) && Enabled(cfg, s, e)
    requires e.Marshal? || e.Stage? || e.Publish? || e.SaveFails?
    ensures Inv(cfg, Next(cfg, s, e))
  {
    assert Chunking(s.main);
    var t := Next(cfg, s, e);
    assert ChunksOk(cfg, t);
  }

  lemma JudgeKeeps(cfg: Config, s: State)
    requires ValidConfig(cfg) && Inv(cfg, s) && s.main.Judging?
    ensures Inv(cfg, Next(cfg, s, Judge))
  {
    if !s.failed && !s.cancelled && AllDone(s.chunks) {
      AllDoneIsSource(cfg.source, s.file.value, s.chunks);
    }
  }

  lemma HarmlessDisk(cfg: Config, s: State)
    requires Harmless(cfg, s.sidecar) && (s.file.Some? ==> |s.file.value| <= |cfg.source|)
    ensures DiskOk(cfg, s)
  {
    if Usable(cfg, s.sidecar) && s.file.Some? {
      BlankIsSound(cfg.source, s.file.value, s.sidecar.chunks);
    }
  }

  lemma TruncateKeeps(cfg: Config, s: State, t: State)
    requires Inv(cfg, s) && (s.main.Opening? || s.main.Requested?) && Harmless(cfg, s.sidecar)
    requires t == s.(file := Some([]), main := t.main) && (t.main == Requested(0) || t.main == Single(0, false))
    ensures Inv(cfg, t)
  {
    HarmlessDisk(cfg, t);
  }

  lemma AppendKeeps(cfg: Config, s: State, data: Content)
    requires ValidConfig(cfg) && Inv(cfg, s) && Enabled(cfg, s, Append(data))
    ensures Inv(cfg, Next(cfg, s, Append(data)))
  {
    var f, w := s.file.value, s.main.written;
    WriteAtExtends(cfg.source, f, w, data, 0);
    WriteAtBytes(f, w, data);
    if Usable(cfg, s.sidecar) {
      WriteKeepsSound(cfg, f, s.sidecar.chunks, w, data);
    }
  }

  lemma EofKeeps(cfg: Config, s: State)
    requires ValidConfig(cfg) && Inv(cfg, s) && Enabled(cfg, s, SingleEof)
    ensures Inv(cfg, Next(cfg, s, SingleEof))
  {
    assert s.file.value == cfg.source;
  }

  lemma OpenKeeps(cfg: Config, s: State)
    requires ValidConfig(cfg) && Inv(cfg, s) && s.main.Opening? && SafeStep(cfg, s, OpenSingle)
    ensures Inv(cfg, Next(cfg, s, OpenSingle))
  {
    if SingleStart(s) == 0 {
      TruncateKeeps(cfg, s, Next(cfg, s, OpenSingle));
    }
  }

  lemma ReplyKeeps(cfg: Config, s: State, status: int)
    requires ValidConfig(cfg) && Inv(cfg, s) && Enabled(cfg, s, SingleAnswer(status))
    requires SafeStep(cfg, s, SingleAnswer(status))
    ensures Inv(cfg, Next(cfg, s, SingleAnswer(status)))
  {
    if s.main.start > 0 && status != 206 {
      TruncateKeeps(cfg, s, Next(cfg, s, SingleAnswer(status)));
    }
  }

  lemma SingleKeeps(cfg: Config, s: State, e: Event)
    requires ValidConfig(cfg) && Inv(cfg, s) && Enabled(cfg, s, e) && SafeStep(cfg, s, e)
    requires e.OpenSingle? || e.SingleAnswer? || e.Append? || e.SingleEof?
    ensures Inv(cfg, Next(cfg, s, e))
  {
    match e
    case OpenSingle => OpenKeeps(cfg, s);
    case SingleAnswer(status) => ReplyKeeps(cfg, s, status);
    case Append(data) => AppendKeeps(cfg, s, data);
    case SingleEof => EofKeeps(cfg, s);
  }

  lemma MainKeeps(cfg: Config, s: State, e: Event)
    requires ValidConfig(cfg) && Inv(cfg, s) && Enabled(cfg, s, e)
    requires e.Pause? || e.Join? || e.TickerStops?
    ensures Inv(cfg, Next(cfg, s, e))
  {
    assert Chunking(s.main) ==> ChunksOk(cfg, s);
  }

  lemma StopKeeps(cfg: Config, s: State, e: Event)
    requires ValidConfig(cfg) && Inv(cfg, s) && Enabled(cfg, s, e)
    requires e.Crash? || e.SingleFails? || e.DropSidecar? || e.DropFile?
    ensures Inv(cfg, Next(cfg, s, e))
  {
  }

  lemma RowKeeps(cfg: Config, s: State, e: Event)
    requires ValidConfig(cfg) && Inv(cfg, s) && Enabled(cfg, s, e)
    requires e.ProbeFails? || e.Settle? || e.Restore? || e.DropStale? || e.Verify?
    ensures Inv(cfg, Next(cfg, s, e))
  {
  }

  predicate WorkerEvent(e: Event) {
    e.Answer? || e.Deliver? || e.TornWrite? || e.Advance? || e.Hangup?
  }

  lemma WorkerKeeps(cfg: Config, s: State, e: Event)
    requires ValidConfig(cfg) && Inv(cfg, s) && Enabled(cfg, s, e) && WorkerEvent(e)
    ensures Inv(cfg, Next(cfg, s, e))
  {
    match e
    case Answer(i, status) => AnswerKeeps(cfg, s, i, status);
    case Deliver(i, data) => DeliverKeeps(cfg, s, i, data);
    case TornWrite(i, data, k) => TornWriteKeeps(cfg, s, i, data, k);
    case Advance(i) => AdvanceKeeps(cfg, s, i);
    case Hangup(i, err) => WorkerLeaves(cfg, s, i, Next(cfg, s, e));
  }

  /** Every step keeps the invariant. */
  lemma StepKeeps(cfg: Config, s: State, e: Event)
    requires ValidConfig(cfg) && Inv(cfg, s) && Enabled(cfg, s, e) && SafeStep(cfg, s, e)
    ensures Inv(cfg, Next(cfg, s, e))
  {
    if WorkerEvent(e) {
      WorkerKeeps(cfg, s, e);
    } else if e.Marshal? || e.Stage? || e.Publish? || e.SaveFails? {
      SaveKeeps(cfg, s, e);
    } else if e.Pause? || e.Join? || e.TickerStops? {
      MainKeeps(cfg, s, e);
    } else if e.OpenSingle? || e.SingleAnswer? || e.Append? || e.SingleEof? {
      SingleKeeps(cfg, s, e);
    } else if e.Crash? || e.SingleFails? || e.DropSidecar? || e.DropFile? {
      StopKeeps(cfg, s, e);
    } else if e.Probe? {
      ProbeKeeps(cfg, s, e.ranges, e.sized);
    } else if e.Judge? {
      JudgeKeeps(cfg, s);
    } else {
      RowKeeps(cfg, s, e);
    }
  }
}
