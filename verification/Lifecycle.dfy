/** The life of jobs in the daemon (queue.go, lifecycle.go): concurrent starts and
    workers, slots, the pause/cancel handshake, retry timers. A step is one locked
    section, one store read or one store write; only a user's command reads and
    writes its row in one step. */
module Lifecycle {
  import opened Options
  import opened Histories
  import opened Jobs

  type Id = string
  type Rid = nat

  /** Who calls finishJob: the worker, the worker's recover after a panic, or a start
      whose activation failed (or panicked) after it gave its slot back. */
  datatype Caller = Worker | Rescue | Late

  /** One start of a job.
      Picked: chosen, not yet at acquireSlot. Reserved: slot and runtime registered.
      Working: its goroutine at work; Noting: between that goroutine's read of the row
      and its write back (the torrent workers record paths so). Calling: about to call
      finishJob. Saving: inside finishJob, with the row it read; Arming: that row's
      write is over, the timer is still to be armed. Settled, Recovered: finishJob is
      over, the slot still held. Cleared, Closed: slot given back, rt.done closed.
      Refused: no slot to be had. Dead: nothing left of a failed activation. */
  datatype Phase =
    | Picked
    | Reserved
    | Working
    | Noting(row: Row)
    | Calling(who: Caller)
    | Saving(who: Caller, row: Row, how: Outcome)
    | Arming(who: Caller)
    | Settled
    | Recovered
    | Cleared
    | Closed
    | Refused
    | Dead

  datatype Run = Run(id: Id, phase: Phase)

  /** What a command past its rt.cancel() will do once the run's done is closed. Choose
      is a new choice of files for a running torrent: it pauses the job, and then, as
      Requeue, queues it again. */
  datatype Order = Cancel | Pause | Choose | Requeue

  /** A command waiting for a run's done, if it has one to wait for. */
  datatype Command = Command(id: Id, order: Order, waits: Option<Rid>, over: bool)

  /** A timer's function past its read of a failed row. */
  datatype Firing = Firing(id: Id, row: Row, over: bool)

  /** armed counts the retry timers armed for a job since it last completed or was
      retried by hand, from the count its row had at the start on; it is not part of
      the daemon. */
  datatype State = State(
    rows: map<Id, Row>,
    slots: map<Id, Rid>,
    runs: seq<Run>,
    commands: seq<Command>,
    timers: multiset<Id>,
    firings: seq<Firing>,
    armed: map<Id, int>)

  datatype Event =
    | Create(id: Id, kind: Kind)
    | Pick(id: Id)                    // a queued row is handed to start
    | Acquire(r: Rid)                 // acquireSlot, and launch's setRuntime
    | Marked(r: Rid)                  // markActive succeeds, the worker is spawned
    | NotMarked(r: Rid)               // markActive fails or start panics: slot cleared
    | UnknownType(r: Rid)
    | NoteRead(r: Rid)                // the worker reads its row to add what it found out
    | NoteWrite(r: Rid, stored: bool)
    | FinishRead(r: Rid, how: Outcome) // finishJob's GetJob; the caller settles how
    | Save(r: Rid, stored: bool)      // finishJob's UpdateJob
    | Arm(r: Rid)                     // scheduleAutoRetry
    | Skip(r: Rid)                    // GetJob fails, or a cancelled torrent worker leaves the row alone
    | Panic(r: Rid)                   // the worker's own code panics, once
    | Clear(r: Rid)                   // clearRuntime
    | Close(r: Rid)                   // close(rt.done)
    | CancelBegin(id: Id) | CancelEnd(c: nat)
    | PauseBegin(id: Id) | PauseEnd(c: nat)
    | ChooseBegin(id: Id) | ChooseEnd(c: nat) // selectFiles of a running torrent
    | Reselect(id: Id)                // selectFiles of a finished torrent
    | Recover(id: Id)                 // a leftover of the last daemon, at the start of this one
    | Resume(id: Id)
    | Retry(id: Id)
    | TimerRead(id: Id)               // the timer fires and reads the row
    | TimerWrite(k: nat, stored: bool)

  /** The slot is held. */
  predicate Holding(p: Phase) {
    p.Reserved? || p.Working? || p.Noting? || p.Settled? || p.Recovered?
    || ((p.Calling? || p.Saving? || p.Arming?) && !p.who.Late?)
  }

  predicate At(s: State, r: Rid) {
    r < |s.runs| && s.runs[r].id in s.rows
  }

  predicate DoneFor(s: State, c: nat) {
    c < |s.commands| && !s.commands[c].over && s.commands[c].id in s.rows
    && (s.commands[c].waits.Some? ==>
          s.commands[c].waits.value < |s.runs| && s.runs[s.commands[c].waits.value].phase.Closed?)
  }

  predicate RunEnabled(s: State, e: Event, r: Rid)
    requires At(s, r)
  {
    var p := s.runs[r].phase;
    match e
    case Acquire(_) => p.Picked?
    case Marked(_) => p.Reserved?
    case NotMarked(_) => p.Reserved?
    case UnknownType(_) => p.Reserved? && s.rows[s.runs[r].id].kind.Unrecognized?
    case NoteRead(_) => p.Working?
    case NoteWrite(_, _) => p.Noting?
    case FinishRead(_, how) => p.Working? || (p.Calling? && how.Broke?)
    case Save(_, _) => p.Saving?
    case Arm(_) => p.Arming?
    case Skip(_) => p.Working? || p.Calling?
    case Panic(_) => p.Working? || p.Settled?
    case Clear(_) => p.Settled? || p.Recovered?
    case Close(_) => p.Cleared?
    case _ => false
  }

  predicate Unfinished(row: Row) {
    row.status.Active? || row.status.Queued?
  }

  /** No run of the job was started by this daemon. */
  predicate NeverStarted(runs: seq<Run>, id: Id) {
    forall r :: 0 <= r < |runs| ==> runs[r].id != id
  }

  predicate Enabled(s: State, e: Event) {
    if Subject(e).Some? then At(s, Subject(e).value) && RunEnabled(s, e, Subject(e).value)
    else
      match e
      case Create(id, _) => id !in s.rows
      case Pick(id) => id in s.rows && s.rows[id].status.Queued?
      case CancelBegin(id) => id in s.rows
      case CancelEnd(c) => DoneFor(s, c) && s.commands[c].order.Cancel?
      case PauseBegin(id) => id in s.rows && Unfinished(s.rows[id])
      case PauseEnd(c) => DoneFor(s, c) && (s.commands[c].order.Pause? || s.commands[c].order.Choose?)
      case ChooseBegin(id) => id in s.rows && s.rows[id].kind.Torrent? && Unfinished(s.rows[id])
      case ChooseEnd(c) => DoneFor(s, c) && s.commands[c].order.Requeue?
      case Reselect(id) =>
        id in s.rows && s.rows[id].kind.Torrent? && (s.rows[id].status.Completed? || s.rows[id].status.Seeding?)
      case Recover(id) =>
        id in s.rows && (s.rows[id].status.Active? || s.rows[id].status.Seeding?) && NeverStarted(s.runs, id)
      case Resume(id) => id in s.rows && (s.rows[id].status.Paused? || s.rows[id].status.Failed?)
      case Retry(id) => id in s.rows && !s.rows[id].status.Active? && !s.rows[id].status.Queued?
      case TimerRead(id) => id in s.timers
      case TimerWrite(k, _) => k < |s.firings| && !s.firings[k].over && s.firings[k].id in s.rows
      case _ => false
  }

  /** The run a step is about, if any. */
  function Subject(e: Event): Option<Rid> {
    match e
    case Acquire(r) => Some(r)
    case Marked(r) => Some(r)
    case NotMarked(r) => Some(r)
    case UnknownType(r) => Some(r)
    case NoteRead(r) => Some(r)
    case NoteWrite(r, _) => Some(r)
    case FinishRead(r, _) => Some(r)
    case Save(r, _) => Some(r)
    case Arm(r) => Some(r)
    case Skip(r) => Some(r)
    case Panic(r) => Some(r)
    case Clear(r) => Some(r)
    case Close(r) => Some(r)
    case _ => None
  }

  /** acquireSlot's test. */
  predicate SlotFree(conf: Settings, s: State, id: Id) {
    id !in s.slots && (conf.maxConcurrent > 0 ==> |s.slots| < conf.maxConcurrent)
  }

  /** Where a caller of finishJob is when it has returned. */
  function AfterFinish(who: Caller): Phase {
    match who
    case Worker => Settled
    case Rescue => Recovered
    case Late => Dead
  }

  function CallerOf(p: Phase): Caller {
    if p.Calling? || p.Saving? || p.Arming? then p.who else Worker
  }

  /** finishJob, by the row it read, arms a timer. */
  predicate WillArm(conf: Settings, p: Phase) {
    p.Saving? && Retries(p.row, p.how, conf)
  }

  function PhaseAfter(conf: Settings, s: State, e: Event): Phase
    requires Enabled(s, e) && Subject(e).Some?
  {
    var run := s.runs[Subject(e).value];
    var who := CallerOf(run.phase);
    match e
    case Acquire(_) => if SlotFree(conf, s, run.id) then Reserved else Refused
    case Marked(_) => Working
    case NotMarked(_) => Calling(Late)
    case UnknownType(_) => Dead
    case NoteRead(_) => Noting(s.rows[run.id])
    case NoteWrite(_, _) => Working
    case FinishRead(_, how) => Saving(who, s.rows[run.id], how)
    case Save(_, _) => if WillArm(conf, run.phase) then Arming(who) else AfterFinish(who)
    case Arm(_) => AfterFinish(who)
    case Skip(_) => AfterFinish(who)
    case Panic(_) => Calling(Rescue)
    case Clear(_) => Cleared
    case _ => Closed
  }

  function RunsAfter(conf: Settings, s: State, e: Event): seq<Run>
    requires Enabled(s, e)
  {
    if Subject(e).Some? then
      var r := Subject(e).value;
      s.runs[r := s.runs[r].(phase := PhaseAfter(conf, s, e))]
    else if e.Pick? then s.runs + [Run(e.id, Picked)]
    else s.runs
  }

  /** setRuntime, and the deletes by job id in clearRuntime. */
  function SlotsAfter(conf: Settings, s: State, e: Event): map<Id, Rid>
    requires Enabled(s, e)
  {
    match e
    case Acquire(r) => if SlotFree(conf, s, s.runs[r].id) then s.slots[s.runs[r].id := r] else s.slots
    case NotMarked(r) => s.slots - {s.runs[r].id}
    case UnknownType(r) => s.slots - {s.runs[r].id}
    case Clear(r) => s.slots - {s.runs[r].id}
    case _ => s.slots
  }

  /** The row a step writes, as it then reads. UpdateJob writes the whole row as it
      was read, UpdateStatus its status alone. */
  function Written(conf: Settings, s: State, e: Event): Option<(Id, Row)>
    requires Enabled(s, e)
  {
    match e
    case Create(id, kind) => Some((id, Row(kind, Queued, 0)))
    case Marked(r) => Some((s.runs[r].id, s.rows[s.runs[r].id].(status := Active)))
    case NoteWrite(r, stored) => if stored then Some((s.runs[r].id, s.runs[r].phase.row)) else None
    case Save(r, stored) =>
      if stored then Some((s.runs[r].id, Settle(s.runs[r].phase.row, s.runs[r].phase.how, conf))) else None
    case CancelEnd(c) => Some((s.commands[c].id, s.rows[s.commands[c].id].(status := Canceled)))
    case PauseBegin(id) =>
      if id !in s.slots && !s.rows[id].kind.Torrent? then Some((id, s.rows[id].(status := Paused))) else None
    case PauseEnd(c) =>
      var id := s.commands[c].id;
      if s.rows[id].kind.Torrent? || s.commands[c].order.Choose?
      then Some((id, s.rows[id].(status := Paused)))
      else None
    case ChooseEnd(c) => Some((s.commands[c].id, s.rows[s.commands[c].id].(status := Queued)))
    case Reselect(id) => Some((id, s.rows[id].(status := Queued)))
    case Recover(id) => Some((id, s.rows[id].(status := if s.rows[id].status.Seeding? then Completed else Queued)))
    case Resume(id) => Some((id, s.rows[id].(status := Queued)))
    case Retry(id) => Some((id, s.rows[id].(status := Queued, retries := 0)))
    case TimerWrite(k, stored) =>
      if stored then Some((s.firings[k].id, s.firings[k].row.(status := Queued))) else None
    case _ => None
  }

  function RowsAfter(conf: Settings, s: State, e: Event): map<Id, Row>
    requires Enabled(s, e)
  {
    var w := Written(conf, s, e);
    if w.Some? then s.rows[w.value.0 := w.value.1] else s.rows
  }

  function SlotOf(s: State, id: Id): Option<Rid> {
    if id in s.slots then Some(s.slots[id]) else None
  }

  function CommandsAfter(s: State, e: Event): seq<Command>
    requires Enabled(s, e)
  {
    match e
    case CancelBegin(id) => s.commands + [Command(id, Cancel, SlotOf(s, id), false)]
    case PauseBegin(id) =>
      if id !in s.slots && !s.rows[id].kind.Torrent? then s.commands
      else s.commands + [Command(id, Pause, SlotOf(s, id), false)]
    case ChooseBegin(id) => s.commands + [Command(id, Choose, SlotOf(s, id), false)]
    case CancelEnd(c) => s.commands[c := s.commands[c].(over := true)]
    case PauseEnd(c) =>
      var d := s.commands[c];
      s.commands[c := if d.order.Choose? then d.(order := Requeue, waits := None) else d.(over := true)]
    case ChooseEnd(c) => s.commands[c := s.commands[c].(over := true)]
    case _ => s.commands
  }

  function TimersAfter(s: State, e: Event): multiset<Id>
    requires Enabled(s, e)
  {
    match e
    case TimerRead(id) => s.timers - multiset{id}
    case Arm(r) => s.timers + multiset{s.runs[r].id}
    case _ => s.timers
  }

  /** A timer that finds its job gone or not failed does nothing more. */
  function FiringsAfter(s: State, e: Event): seq<Firing>
    requires Enabled(s, e)
  {
    match e
    case TimerRead(id) =>
      if id in s.rows && s.rows[id].status.Failed? then s.firings + [Firing(id, s.rows[id], false)] else s.firings
    case TimerWrite(k, _) => s.firings[k := s.firings[k].(over := true)]
    case _ => s.firings
  }

  function Armed(s: State, id: Id): int {
    if id in s.armed then s.armed[id] else 0
  }

  function ArmedAfter(s: State, e: Event): map<Id, int>
    requires Enabled(s, e)
  {
    match e
    case Arm(r) => s.armed[s.runs[r].id := Armed(s, s.runs[r].id) + 1]
    case Save(r, stored) => if stored && s.runs[r].phase.how.Complete? then s.armed[s.runs[r].id := 0] else s.armed
    case Create(id, _) => s.armed[id := 0]
    case Retry(id) => s.armed[id := 0]
    case _ => s.armed
  }

  function Next(conf: Settings, s: State, e: Event): State
    requires Enabled(s, e)
  {
    State(RowsAfter(conf, s, e), SlotsAfter(conf, s, e), RunsAfter(conf, s, e), CommandsAfter(s, e),
          TimersAfter(s, e), FiringsAfter(s, e), ArmedAfter(s, e))
  }

  // ----- slots -----

  /** The slot table is exactly the runs that hold a slot, one per job, within the
      cap. */
  ghost predicate SlotsOk(conf: Settings, slots: map<Id, Rid>, runs: seq<Run>) {
    && (forall id :: id in slots ==> slots[id] < |runs| && runs[slots[id]].id == id && Holding(runs[slots[id]].phase))
    && (forall r :: 0 <= r < |runs| && Holding(runs[r].phase) ==> runs[r].id in slots && slots[runs[r].id] == r)
    && (conf.maxConcurrent > 0 ==> |slots| <= conf.maxConcurrent)
  }

  /** Only a worker's finishJob has anything but an error to tell. */
  predicate CallerOk(p: Phase) {
    p.Saving? && !p.who.Worker? ==> p.how.Broke?
  }

  lemma CallerStep(conf: Settings, s: State, e: Event)
    requires Enabled(s, e) && Subject(e).Some?
    ensures CallerOk(PhaseAfter(conf, s, e))
  {
  }

  /** A command waits for a run of its own job, one that has had a slot. */
  ghost predicate CommandOk(rows: map<Id, Row>, runs: seq<Run>, d: Command) {
    && d.id in rows
    && (d.waits.Some? ==>
          && d.waits.value < |runs| && runs[d.waits.value].id == d.id
          && !runs[d.waits.value].phase.Picked? && !runs[d.waits.value].phase.Refused?)
  }

  ghost predicate RunsOk(s: State) {
    && (forall r :: 0 <= r < |s.runs| ==> s.runs[r].id in s.rows && CallerOk(s.runs[r].phase))
    && (forall c :: 0 <= c < |s.commands| ==> CommandOk(s.rows, s.runs, s.commands[c]))
    && (forall k :: 0 <= k < |s.firings| ==> s.firings[k].id in s.rows && s.firings[k].row.status.Failed?)
  }

  ghost predicate Inv(conf: Settings, s: State) {
    SlotsOk(conf, s.slots, s.runs) && RunsOk(s)
  }

  lemma MapGrows(m: map<Id, Rid>, id: Id, r: Rid)
    requires id !in m
    ensures |m[id := r]| == |m| + 1
  {
    assert m[id := r].Keys == m.Keys + {id};
    assert |m[id := r]| == |m[id := r].Keys| && |m| == |m.Keys|;
  }

  lemma MapShrinks(m: map<Id, Rid>, id: Id)
    ensures |m - {id}| == if id in m then |m| - 1 else |m|
  {
    assert (m - {id}).Keys == m.Keys - {id};
    assert |m - {id}| == |(m - {id}).Keys| && |m| == |m.Keys|;
  }

  lemma GrantKeeps(conf: Settings, slots: map<Id, Rid>, runs: seq<Run>, r: Rid)
    requires SlotsOk(conf, slots, runs) && r < |runs| && !Holding(runs[r].phase)
    requires runs[r].id !in slots && (conf.maxConcurrent > 0 ==> |slots| < conf.maxConcurrent)
    ensures SlotsOk(conf, slots[runs[r].id := r], runs[r := Run(runs[r].id, Reserved)])
  {
    MapGrows(slots, runs[r].id, r);
  }

  lemma FreeKeeps(conf: Settings, slots: map<Id, Rid>, runs: seq<Run>, r: Rid, p: Phase)
    requires SlotsOk(conf, slots, runs) && r < |runs| && Holding(runs[r].phase) && !Holding(p)
    ensures SlotsOk(conf, slots - {runs[r].id}, runs[r := Run(runs[r].id, p)])
  {
    MapShrinks(slots, runs[r].id);
  }

  lemma MoveKeeps(conf: Settings, slots: map<Id, Rid>, runs: seq<Run>, r: Rid, p: Phase)
    requires SlotsOk(conf, slots, runs) && r < |runs| && (Holding(runs[r].phase) <==> Holding(p))
    ensures SlotsOk(conf, slots, runs[r := Run(runs[r].id, p)])
  {
  }

  /** Holding changes only where a slot is taken or cleared. */
  lemma HoldingMoves(conf: Settings, s: State, e: Event)
    requires Enabled(s, e) && Subject(e).Some?
    ensures var was, now := s.runs[Subject(e).value].phase, PhaseAfter(conf, s, e);
            if e.Acquire? then !Holding(was) && (Holding(now) <==> now.Reserved?)
            else if e.NotMarked? || e.UnknownType? || e.Clear? then Holding(was) && !Holding(now)
            else Holding(was) <==> Holding(now)
  {
  }

  lemma SlotsStep(conf: Settings, s: State, e: Event)
    requires Inv(conf, s) && Enabled(s, e)
    ensures SlotsOk(conf, SlotsAfter(conf, s, e), RunsAfter(conf, s, e))
  {
    if Subject(e).Some? {
      var r := Subject(e).value;
      var p := PhaseAfter(conf, s, e);
      assert s.runs[r].(phase := p) == Run(s.runs[r].id, p);
      HoldingMoves(conf, s, e);
      if e.Acquire? && p.Reserved? {
        GrantKeeps(conf, s.slots, s.runs, r);
      } else if e.NotMarked? || e.UnknownType? || e.Clear? {
        FreeKeeps(conf, s.slots, s.runs, r, p);
      } else {
        MoveKeeps(conf, s.slots, s.runs, r, p);
      }
    }
  }

  lemma RowsStay(conf: Settings, s: State, e: Event)
    requires Enabled(s, e)
    ensures s.rows.Keys <= RowsAfter(conf, s, e).Keys
  {
  }

  lemma NewCommandOk(conf: Settings, s: State, id: Id, order: Order)
    requires SlotsOk(conf, s.slots, s.runs) && id in s.rows
    ensures CommandOk(s.rows, s.runs, Command(id, order, SlotOf(s, id), false))
  {
  }

  lemma CommandsStep(conf: Settings, s: State, e: Event, c: nat)
    requires Inv(conf, s) && Enabled(s, e) && c < |CommandsAfter(s, e)|
    ensures CommandOk(s.rows, s.runs, CommandsAfter(s, e)[c])
  {
    if c < |s.commands| {
      assert CommandOk(s.rows, s.runs, s.commands[c]);
    } else {
      NewCommandOk(conf, s, e.id, CommandsAfter(s, e)[c].order);
    }
  }

  predicate Fresh(p: Phase) {
    p.Picked? || Holding(p)
  }

  /** A failed activation. */
  predicate NeverActivated(p: Phase) {
    p.Dead? || ((p.Calling? || p.Saving? || p.Arming?) && p.who.Late?)
  }

  /** May still write its row, or make a slot's next holder of it. */
  predicate Writing(p: Phase) {
    || p.Picked? || p.Reserved? || p.Working? || p.Noting? || p.Calling? || p.Saving? || p.Settled?
    || (p.Arming? && p.who.Worker?)
  }

  /** q can come after p: what is past stays past. */
  predicate Later(p: Phase, q: Phase) {
    && (q.Picked? ==> p.Picked?)
    && (q.Refused? ==> p.Picked? || p.Refused?)
    && (Fresh(q) ==> Fresh(p))
    && (Writing(q) ==> Writing(p))
    && (p.Closed? ==> q.Closed?)
    && (NeverActivated(p) ==> NeverActivated(q))
  }

  lemma PhaseMoves(conf: Settings, s: State, e: Event)
    requires Enabled(s, e) && Subject(e).Some?
    ensures Later(s.runs[Subject(e).value].phase, PhaseAfter(conf, s, e))
  {
  }

  lemma PhaseStep(conf: Settings, s: State, e: Event, r: Rid)
    requires Enabled(s, e) && r < |s.runs|
    ensures var runs := RunsAfter(conf, s, e);
            && r < |runs| && runs[r].id == s.runs[r].id && Later(s.runs[r].phase, runs[r].phase)
            && (Subject(e) != Some(r) ==> runs[r] == s.runs[r])
  {
    if Subject(e) == Some(r) {
      PhaseMoves(conf, s, e);
    }
  }

  lemma CommandStays(conf: Settings, s: State, e: Event, d: Command)
    requires Enabled(s, e) && CommandOk(s.rows, s.runs, d)
    ensures CommandOk(RowsAfter(conf, s, e), RunsAfter(conf, s, e), d)
  {
    RowsStay(conf, s, e);
    if d.waits.Some? {
      PhaseStep(conf, s, e, d.waits.value);
    }
  }

  lemma RunStep(conf: Settings, s: State, e: Event, r: nat)
    requires Inv(conf, s) && Enabled(s, e) && r < |RunsAfter(conf, s, e)|
    ensures var run := RunsAfter(conf, s, e)[r];
            run.id in RowsAfter(conf, s, e) && CallerOk(run.phase)
  {
    RowsStay(conf, s, e);
    if Subject(e) == Some(r) {
      CallerStep(conf, s, e);
    }
    if r < |s.runs| {
      PhaseStep(conf, s, e, r);
    }
  }

  lemma FiringStep(conf: Settings, s: State, e: Event, k: nat)
    requires Inv(conf, s) && Enabled(s, e) && k < |FiringsAfter(s, e)|
    ensures var f := FiringsAfter(s, e)[k]; f.id in RowsAfter(conf, s, e) && f.row.status.Failed?
  {
    RowsStay(conf, s, e);
  }

  lemma RunsStep(conf: Settings, s: State, e: Event)
    requires Inv(conf, s) && Enabled(s, e)
    ensures RunsOk(Next(conf, s, e))
  {
    var t := Next(conf, s, e);
    forall r | 0 <= r < |t.runs|
      ensures t.runs[r].id in t.rows && CallerOk(t.runs[r].phase)
    {
      RunStep(conf, s, e, r);
    }
    forall c | 0 <= c < |t.commands|
      ensures CommandOk(t.rows, t.runs, t.commands[c])
    {
      CommandsStep(conf, s, e, c);
      CommandStays(conf, s, e, t.commands[c]);
    }
    forall k | 0 <= k < |t.firings|
      ensures t.firings[k].id in t.rows && t.firings[k].row.status.Failed?
    {
      FiringStep(conf, s, e, k);
    }
  }

  // ----- histories -----

  type Past = History<State, Event>

  /** A daemon starting over this table of jobs. */
  function Opened(rows: map<Id, Row>): State {
    State(rows, map[], [], [], multiset{}, [], map id | id in rows :: rows[id].retries)
  }

  ghost predicate Legal(conf: Settings, h: Past) {
    match h
    case Begin(s) => s == Opened(s.rows)
    case Then(g, e, t) => Legal(conf, g) && Enabled(g.state, e) && t == Next(conf, g.state, e)
  }

  /** Slot ownership, in every reachable state: at most maxConcurrent slots; a job
      has at most one run holding a slot; and the table names that run. */
  lemma {:induction false} SlotOwnership(conf: Settings, h: Past)
    requires Legal(conf, h)
    ensures Inv(conf, h.state)
    ensures conf.maxConcurrent > 0 ==> |h.state.slots| <= conf.maxConcurrent
    ensures forall q, r :: 0 <= q < |h.state.runs| && 0 <= r < |h.state.runs| && q != r
                           && Holding(h.state.runs[q].phase) && Holding(h.state.runs[r].phase) ==>
                             h.state.runs[q].id != h.state.runs[r].id
  {
    match h
    case Begin(_) =>
    case Then(g, e, _) =>
      SlotOwnership(conf, g);
      SlotsStep(conf, g.state, e);
      RunsStep(conf, g.state, e);
  }

  /** A slot changes hands only this way: a run takes a free one for its job, or
      gives back the one that is its own. Clearing "the slot of this job" never
      clears another run's. */
  lemma {:induction false} SlotsChangeByOwner(conf: Settings, h: Past, e: Event, id: Id)
    requires Legal(conf, h) && Enabled(h.state, e)
    ensures var s, t := h.state, Next(conf, h.state, e);
            SlotOf(t, id) != SlotOf(s, id) ==>
              && Subject(e).Some? && Subject(e).value < |s.runs| && s.runs[Subject(e).value].id == id
              && var r := Subject(e).value;
                 if id in s.slots
                 then s.slots[id] == r && id !in t.slots && Holding(s.runs[r].phase) && !Holding(t.runs[r].phase)
                 else t.slots[id] == r && s.runs[r].phase.Picked? && t.runs[r].phase.Reserved?
  {
    SlotOwnership(conf, h);
    if Subject(e).Some? {
      HoldingMoves(conf, h.state, e);
    }
  }

  /** The history h goes on from g. */
  ghost predicate Extends(h: Past, g: Past) {
    h == g || (h.Then? && Extends(h.past, g))
  }

  /** A slot is given back once: a run that has given its slot back, or was refused
      one, never holds a slot again. */
  lemma {:induction false} ReleasedOnce(conf: Settings, h: Past, g: Past, r: Rid)
    requires Legal(conf, h) && Extends(h, g) && r < |g.state.runs| && !Fresh(g.state.runs[r].phase)
    ensures r < |h.state.runs| && h.state.runs[r].id == g.state.runs[r].id && !Fresh(h.state.runs[r].phase)
    ensures SlotOf(h.state, h.state.runs[r].id) != Some(r)
  {
    SlotOwnership(conf, h);
    if h == g {
    } else {
      ReleasedOnce(conf, h.past, g, r);
      PhaseStep(conf, h.past.state, h.event, r);
    }
  }
}
