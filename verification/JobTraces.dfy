/** Histories of one job in which something goes wrong, step by step: the traces
    behind the conditions of Handshake and RetryBudget. */
module JobTraces {
  import opened Options
  import opened Histories
  import opened Jobs
  import opened Lifecycle
  import opened Handshake
  import opened RetryBudget

  /** The state of a daemon with one job. */
  function Lone(id: Id, row: Row, slot: Option<Rid>, runs: seq<Run>, commands: seq<Command>, timers: multiset<Id>,
                firings: seq<Firing>, armed: int): State {
    var slots := if slot.Some? then map[id := slot.value] else map[];
    State(map[id := row], slots, runs, commands, timers, firings, map[id := armed])
  }

  /** The same with neither commands nor timers about. */
  function Bare(id: Id, row: Row, slot: Option<Rid>, runs: seq<Run>): State {
    Lone(id, row, slot, runs, [], multiset{}, [], 0)
  }

  ghost predicate Steps(conf: Settings, s: State, e: Event, t: State) {
    Enabled(s, e) && t == Next(conf, s, e)
  }

  lemma Do(conf: Settings, h: Past, e: Event, t: State) returns (r: Past)
    requires Legal(conf, h) && Steps(conf, h.state, e, t)
    ensures Legal(conf, r) && r.state == t && r.Then? && r.past == h && r.event == e
  {
    r := Then(h, e, t);
  }

  // ----- single steps -----

  lemma CreateStep(conf: Settings, id: Id)
    ensures Steps(conf, Opened(map[]), Create(id, URL), Bare(id, Row(URL, Queued, 0), None, []))
  {
  }

  lemma PickStep(conf: Settings, id: Id, row: Row, runs: seq<Run>)
    requires row.status.Queued?
    ensures Steps(conf, Bare(id, row, None, runs), Pick(id), Bare(id, row, None, runs + [Run(id, Picked)]))
  {
  }

  lemma AcquireStep(conf: Settings, id: Id, row: Row, runs: seq<Run>, r: nat)
    requires r < |runs| && runs[r] == Run(id, Picked)
    ensures Steps(conf, Bare(id, row, None, runs), Acquire(r), Bare(id, row, Some(r), runs[r := Run(id, Reserved)]))
  {
  }

  lemma MarkedStep(conf: Settings, id: Id, row: Row, runs: seq<Run>, r: nat)
    requires r < |runs| && runs[r] == Run(id, Reserved)
    ensures Steps(conf, Bare(id, row, Some(r), runs), Marked(r),
                  Bare(id, row.(status := Active), Some(r), runs[r := Run(id, Working)]))
  {
  }

  lemma NotMarkedStep(conf: Settings, id: Id, row: Row, runs: seq<Run>, r: nat)
    requires r < |runs| && runs[r] == Run(id, Reserved)
    ensures Steps(conf, Bare(id, row, Some(r), runs), NotMarked(r),
                  Bare(id, row, None, runs[r := Run(id, Calling(Late))]))
  {
    assert map[id := r] - {id} == map[];
  }

  lemma ReadStep(conf: Settings, id: Id, row: Row, slot: Option<Rid>, runs: seq<Run>, r: nat)
    requires r < |runs| && runs[r].id == id && (runs[r].phase.Working? || runs[r].phase.Calling?)
    ensures Steps(conf, Bare(id, row, slot, runs), FinishRead(r, Broke),
                  Bare(id, row, slot, runs[r := Run(id, Saving(CallerOf(runs[r].phase), row, Broke))]))
  {
  }

  lemma SaveStep(conf: Settings, id: Id, row: Row, slot: Option<Rid>, runs: seq<Run>, r: nat)
    requires r < |runs| && runs[r].id == id && runs[r].phase.Saving? && runs[r].phase.how.Broke?
    ensures var p := runs[r].phase;
            Steps(conf, Bare(id, row, slot, runs), Save(r, true),
                  Bare(id, Settle(p.row, Broke, conf), slot,
                       runs[r := Run(id, if WillArm(conf, p) then Arming(p.who) else AfterFinish(p.who))]))
  {
  }

  lemma ArmStep(conf: Settings, id: Id, row: Row, slot: Option<Rid>, runs: seq<Run>, timers: multiset<Id>,
                armed: int, r: nat)
    requires r < |runs| && runs[r].id == id && runs[r].phase.Arming?
    ensures Steps(conf, Lone(id, row, slot, runs, [], timers, [], armed), Arm(r),
                  Lone(id, row, slot, runs[r := Run(id, AfterFinish(runs[r].phase.who))], [],
                       timers + multiset{id}, [], armed + 1))
  {
  }

  // ----- two starts of one job at once -----

  function Overlap(id: Id, row: Row, late: Phase, next: Phase): State {
    Bare(id, row, Some(1), [Run(id, late), Run(id, next)])
  }

  const WAITING := Row(URL, Queued, 0)
  const ACTIVE := Row(URL, Active, 0)

  lemma FirstStart(conf: Settings, id: Id) returns (h: Past)
    ensures Legal(conf, h) && h.state == Bare(id, WAITING, Some(0), [Run(id, Reserved)])
  {
    h := Begin(Opened(map[]));
    CreateStep(conf, id);
    h := Do(conf, h, Create(id, URL), Bare(id, WAITING, None, []));
    PickStep(conf, id, WAITING, []);
    h := Do(conf, h, Pick(id), Bare(id, WAITING, None, [] + [Run(id, Picked)]));
    AcquireStep(conf, id, WAITING, [Run(id, Picked)], 0);
    h := Do(conf, h, Acquire(0), Bare(id, WAITING, Some(0), [Run(id, Picked)][0 := Run(id, Reserved)]));
  }

  /** A failed activation about to call finishJob, and the job's next start at work. */
  lemma TwoStarts(conf: Settings, id: Id) returns (h: Past)
    ensures Legal(conf, h) && h.state == Overlap(id, ACTIVE, Calling(Late), Working)
  {
    h := FirstStart(conf, id);
    var runs := [Run(id, Reserved)];
    NotMarkedStep(conf, id, WAITING, runs, 0);
    runs := runs[0 := Run(id, Calling(Late))];
    h := Do(conf, h, NotMarked(0), Bare(id, WAITING, None, runs));
    assert runs == [Run(id, Calling(Late))];
    h := SecondPicked(conf, h, id);
    h := SecondRuns(conf, h, id, h.state.runs);
  }

  lemma SecondPicked(conf: Settings, g: Past, id: Id) returns (h: Past)
    requires Legal(conf, g) && g.state == Bare(id, WAITING, None, [Run(id, Calling(Late))])
    ensures Legal(conf, h) && h.state == Bare(id, WAITING, None, [Run(id, Calling(Late)), Run(id, Picked)])
  {
    PickStep(conf, id, WAITING, [Run(id, Calling(Late))]);
    assert [Run(id, Calling(Late))] + [Run(id, Picked)] == [Run(id, Calling(Late)), Run(id, Picked)];
    h := Do(conf, g, Pick(id), Bare(id, WAITING, None, [Run(id, Calling(Late)), Run(id, Picked)]));
  }

  lemma SecondRuns(conf: Settings, g: Past, id: Id, runs: seq<Run>) returns (h: Past)
    requires Legal(conf, g) && g.state == Bare(id, WAITING, None, runs)
    requires runs == [Run(id, Calling(Late)), Run(id, Picked)]
    ensures Legal(conf, h) && h.state == Overlap(id, ACTIVE, Calling(Late), Working)
  {
    AcquireStep(conf, id, WAITING, runs, 1);
    var reserved := runs[1 := Run(id, Reserved)];
    h := Do(conf, g, Acquire(1), Bare(id, WAITING, Some(1), reserved));
    MarkedStep(conf, id, WAITING, reserved, 1);
    assert reserved[1 := Run(id, Working)] == [Run(id, Calling(Late)), Run(id, Working)];
    h := Do(conf, h, Marked(1), Overlap(id, ACTIVE, Calling(Late), Working));
  }

  lemma LateReads(conf: Settings, id: Id) returns (h: Past)
    ensures Legal(conf, h) && h.state == Overlap(id, ACTIVE, Saving(Late, ACTIVE, Broke), Working)
  {
    h := TwoStarts(conf, id);
    var runs := [Run(id, Calling(Late)), Run(id, Working)];
    ReadStep(conf, id, ACTIVE, Some(1), runs, 0);
    assert runs[0 := Run(id, Saving(Late, ACTIVE, Broke))] == [Run(id, Saving(Late, ACTIVE, Broke)), Run(id, Working)];
    h := Do(conf, h, FinishRead(0, Broke), Overlap(id, ACTIVE, Saving(Late, ACTIVE, Broke), Working));
  }

  /** The row says failed while the job's worker runs. */
  lemma FailedWhileRunning(conf: Settings, id: Id) returns (h: Past)
    ensures Legal(conf, h) && id in h.state.rows && h.state.rows[id].status.Failed?
    ensures id in h.state.slots && h.state.slots[id] < |h.state.runs|
    ensures h.state.runs[h.state.slots[id]] == Run(id, Working)
  {
    h := LateReads(conf, id);
    var runs := h.state.runs;
    SaveStep(conf, id, ACTIVE, Some(1), runs, 0);
    var p := runs[0].phase;
    h := Do(conf, h, Save(0, true),
            Bare(id, Settle(ACTIVE, Broke, conf), Some(1),
                 runs[0 := Run(id, if WillArm(conf, p) then Arming(Late) else Dead)]));
  }

  /** Every write is stored and one retry is still lost: a failed activation and the
      job's next worker are inside finishJob at the same time. */
  lemma OverlapLosesCount(conf: Settings, id: Id) returns (h: Past)
    requires conf.autoRetry && conf.maxAttempts > 0
    ensures Legal(conf, h) && id in h.state.rows
    ensures h.state.rows[id].retries == 1 && Armed(h.state, id) == 2 && h.state.timers == multiset{id, id}
  {
    h := LateArms(conf, id);
    var row := Row(URL, Failed, 1);
    var runs := [Run(id, Dead), Run(id, Arming(Worker))];
    ArmStep(conf, id, row, Some(1), runs, multiset{id}, 1, 1);
    h := Do(conf, h, Arm(1),
            Lone(id, row, Some(1), runs[1 := Run(id, Settled)], [], multiset{id} + multiset{id}, [], 2));
  }

  lemma LateArms(conf: Settings, id: Id) returns (h: Past)
    requires conf.autoRetry && conf.maxAttempts > 0
    ensures Legal(conf, h)
    ensures h.state == Lone(id, Row(URL, Failed, 1), Some(1), [Run(id, Dead), Run(id, Arming(Worker))], [],
                            multiset{id}, [], 1)
  {
    h := BothSave(conf, id);
    var row := Row(URL, Failed, 1);
    var runs := [Run(id, Arming(Late)), Run(id, Arming(Worker))];
    ArmStep(conf, id, row, Some(1), runs, multiset{}, 0, 0);
    assert runs[0 := Run(id, Dead)] == [Run(id, Dead), Run(id, Arming(Worker))];
    assert multiset{} + multiset{id} == multiset{id};
    h := Do(conf, h, Arm(0), Lone(id, row, Some(1), [Run(id, Dead), Run(id, Arming(Worker))], [], multiset{id}, [], 1));
  }

  lemma BothRead(conf: Settings, id: Id) returns (h: Past)
    ensures Legal(conf, h) && h.state == Overlap(id, ACTIVE, Saving(Late, ACTIVE, Broke), Saving(Worker, ACTIVE, Broke))
  {
    h := LateReads(conf, id);
    var runs := [Run(id, Saving(Late, ACTIVE, Broke)), Run(id, Working)];
    ReadStep(conf, id, ACTIVE, Some(1), runs, 1);
    assert runs[1 := Run(id, Saving(Worker, ACTIVE, Broke))] ==
           [Run(id, Saving(Late, ACTIVE, Broke)), Run(id, Saving(Worker, ACTIVE, Broke))];
    h := Do(conf, h, FinishRead(1, Broke),
            Overlap(id, ACTIVE, Saving(Late, ACTIVE, Broke), Saving(Worker, ACTIVE, Broke)));
  }

  lemma LateSaves(conf: Settings, id: Id) returns (h: Past)
    requires conf.autoRetry && conf.maxAttempts > 0
    ensures Legal(conf, h) && h.state == Overlap(id, Row(URL, Failed, 1), Arming(Late), Saving(Worker, ACTIVE, Broke))
  {
    h := BothRead(conf, id);
    var runs := [Run(id, Saving(Late, ACTIVE, Broke)), Run(id, Saving(Worker, ACTIVE, Broke))];
    SaveStep(conf, id, ACTIVE, Some(1), runs, 0);
    assert runs[0 := Run(id, Arming(Late))] == [Run(id, Arming(Late)), Run(id, Saving(Worker, ACTIVE, Broke))];
    h := Do(conf, h, Save(0, true), Overlap(id, Row(URL, Failed, 1), Arming(Late), Saving(Worker, ACTIVE, Broke)));
  }

  lemma BothSave(conf: Settings, id: Id) returns (h: Past)
    requires conf.autoRetry && conf.maxAttempts > 0
    ensures Legal(conf, h) && h.state == Overlap(id, Row(URL, Failed, 1), Arming(Late), Arming(Worker))
  {
    h := LateSaves(conf, id);
    var row := Row(URL, Failed, 1);
    var runs := [Run(id, Arming(Late)), Run(id, Saving(Worker, ACTIVE, Broke))];
    SaveStep(conf, id, row, Some(1), runs, 1);
    assert runs[1 := Run(id, Arming(Worker))] == [Run(id, Arming(Late)), Run(id, Arming(Worker))];
    h := Do(conf, h, Save(1, true), Overlap(id, row, Arming(Late), Arming(Worker)));
  }

  // ----- a cancel between a timer's read and its write -----

  lemma Works(conf: Settings, id: Id) returns (h: Past)
    ensures Legal(conf, h) && h.state == Bare(id, ACTIVE, Some(0), [Run(id, Working)])
  {
    h := FirstStart(conf, id);
    MarkedStep(conf, id, WAITING, [Run(id, Reserved)], 0);
    assert [Run(id, Reserved)][0 := Run(id, Working)] == [Run(id, Working)];
    h := Do(conf, h, Marked(0), Bare(id, ACTIVE, Some(0), [Run(id, Working)]));
  }

  lemma Reads(conf: Settings, id: Id) returns (h: Past)
    ensures Legal(conf, h) && h.state == Bare(id, ACTIVE, Some(0), [Run(id, Saving(Worker, ACTIVE, Broke))])
  {
    h := Works(conf, id);
    ReadStep(conf, id, ACTIVE, Some(0), [Run(id, Working)], 0);
    var runs := [Run(id, Saving(Worker, ACTIVE, Broke))];
    assert [Run(id, Working)][0 := runs[0]] == runs;
    h := Do(conf, h, FinishRead(0, Broke), Bare(id, ACTIVE, Some(0), runs));
  }

  lemma FailsOnce(conf: Settings, id: Id) returns (h: Past)
    requires conf.autoRetry && conf.maxAttempts > 0
    ensures Legal(conf, h) && h.state == Bare(id, Row(URL, Failed, 1), Some(0), [Run(id, Arming(Worker))])
  {
    h := Reads(conf, id);
    var runs := [Run(id, Saving(Worker, ACTIVE, Broke))];
    SaveStep(conf, id, ACTIVE, Some(0), runs, 0);
    assert runs[0 := Run(id, Arming(Worker))] == [Run(id, Arming(Worker))];
    h := Do(conf, h, Save(0, true), Bare(id, Row(URL, Failed, 1), Some(0), [Run(id, Arming(Worker))]));
  }

  /** The failed job at rest, its timer armed. */
  function AtRest(id: Id, row: Row, commands: seq<Command>, timers: multiset<Id>, firings: seq<Firing>): State {
    Lone(id, row, None, [Run(id, Cleared)], commands, timers, firings, 1)
  }

  lemma ClearStep(conf: Settings, id: Id, row: Row, runs: seq<Run>, timers: multiset<Id>)
    requires runs == [Run(id, Settled)]
    ensures Steps(conf, Lone(id, row, Some(0), runs, [], timers, [], 1), Clear(0), AtRest(id, row, [], timers, []))
  {
    assert map[id := 0] - {id} == map[];
    assert runs[0 := Run(id, Cleared)] == [Run(id, Cleared)];
  }

  lemma TimerStep(conf: Settings, id: Id, row: Row)
    requires row.status.Failed?
    ensures Steps(conf, AtRest(id, row, [], multiset{id}, []), TimerRead(id),
                  AtRest(id, row, [], multiset{}, [Firing(id, row, false)]))
  {
  }

  lemma CancelSteps(conf: Settings, id: Id, row: Row, firings: seq<Firing>)
    ensures Steps(conf, AtRest(id, row, [], multiset{}, firings), CancelBegin(id),
                  AtRest(id, row, [Command(id, Cancel, None, false)], multiset{}, firings))
    ensures Steps(conf, AtRest(id, row, [Command(id, Cancel, None, false)], multiset{}, firings), CancelEnd(0),
                  AtRest(id, row.(status := Canceled), [Command(id, Cancel, None, true)], multiset{}, firings))
  {
    var one := [Command(id, Cancel, None, false)];
    assert one[0 := one[0].(over := true)] == [Command(id, Cancel, None, true)];
  }

  lemma WriteStep(conf: Settings, id: Id, row: Row, commands: seq<Command>, was: Row)
    ensures Steps(conf, AtRest(id, row, commands, multiset{}, [Firing(id, was, false)]), TimerWrite(0, true),
                  AtRest(id, was.(status := Queued), commands, multiset{}, [Firing(id, was, true)]))
  {
    var one := [Firing(id, was, false)];
    assert one[0 := one[0].(over := true)] == [Firing(id, was, true)];
  }

  lemma Rests(conf: Settings, id: Id) returns (h: Past)
    requires conf.autoRetry && conf.maxAttempts > 0
    ensures Legal(conf, h) && h.state == AtRest(id, Row(URL, Failed, 1), [], multiset{id}, [])
  {
    h := FailsOnce(conf, id);
    var row := Row(URL, Failed, 1);
    var runs := [Run(id, Arming(Worker))];
    ArmStep(conf, id, row, Some(0), runs, multiset{}, 0, 0);
    runs := runs[0 := Run(id, Settled)];
    assert multiset{} + multiset{id} == multiset{id};
    h := Do(conf, h, Arm(0), Lone(id, row, Some(0), runs, [], multiset{id}, [], 1));
    ClearStep(conf, id, row, runs, multiset{id});
    h := Do(conf, h, Clear(0), AtRest(id, row, [], multiset{id}, []));
  }

  const FAILED := Row(URL, Failed, 1)

  lemma TimerReads(conf: Settings, id: Id) returns (h: Past)
    requires conf.autoRetry && conf.maxAttempts > 0
    ensures Legal(conf, h) && h.state == AtRest(id, FAILED, [], multiset{}, [Firing(id, FAILED, false)])
  {
    h := Rests(conf, id);
    TimerStep(conf, id, FAILED);
    h := Do(conf, h, TimerRead(id), AtRest(id, FAILED, [], multiset{}, [Firing(id, FAILED, false)]));
  }

  lemma UserCancels(conf: Settings, id: Id) returns (h: Past)
    requires conf.autoRetry && conf.maxAttempts > 0
    ensures Legal(conf, h)
    ensures h.state == AtRest(id, FAILED.(status := Canceled), [Command(id, Cancel, None, true)], multiset{},
                              [Firing(id, FAILED, false)])
  {
    h := TimerReads(conf, id);
    var firings := [Firing(id, FAILED, false)];
    CancelSteps(conf, id, FAILED, firings);
    h := Do(conf, h, CancelBegin(id), AtRest(id, FAILED, [Command(id, Cancel, None, false)], multiset{}, firings));
    h := Do(conf, h, CancelEnd(0),
            AtRest(id, FAILED.(status := Canceled), [Command(id, Cancel, None, true)], multiset{}, firings));
  }

  /** The timer has read the failed row, the user cancels the job, no run of which is
      live, and the timer's write queues it again. */
  lemma TimerRevivesCanceled(conf: Settings, id: Id) returns (canceled: Past, h: Past)
    requires conf.autoRetry && conf.maxAttempts > 0
    ensures Legal(conf, h) && h.Then? && h.past == canceled
    ensures CanceledIn(canceled.state, id) && NoRunLive(canceled.state, id) && !PauseCanEnd(canceled.state, id)
    ensures id in h.state.rows && h.state.rows[id].status.Queued?
  {
    canceled := UserCancels(conf, id);
    var commands := [Command(id, Cancel, None, true)];
    WriteStep(conf, id, FAILED.(status := Canceled), commands, FAILED);
    h := Do(conf, canceled, TimerWrite(0, true),
            AtRest(id, FAILED.(status := Queued), commands, multiset{}, [Firing(id, FAILED, true)]));
  }

  // ----- a timer that fires while the job's worker runs -----

  const COMPLETED := Row(URL, Completed, 0)

  /** The job with a dead start, a second one in this phase, and one timer past its read
      of the failed row. */
  function Fired(id: Id, row: Row, second: Phase, armed: int): State {
    Lone(id, row, Some(1), [Run(id, Dead), Run(id, second)], [], multiset{}, [Firing(id, FAILED, false)], armed)
  }

  lemma LateSavesFirst(conf: Settings, id: Id) returns (h: Past)
    requires conf.autoRetry && conf.maxAttempts > 0
    ensures Legal(conf, h) && h.state == Overlap(id, FAILED, Arming(Late), Working)
  {
    h := LateReads(conf, id);
    var runs := [Run(id, Saving(Late, ACTIVE, Broke)), Run(id, Working)];
    SaveStep(conf, id, ACTIVE, Some(1), runs, 0);
    assert runs[0 := Run(id, Arming(Late))] == [Run(id, Arming(Late)), Run(id, Working)];
    h := Do(conf, h, Save(0, true), Overlap(id, FAILED, Arming(Late), Working));
  }

  lemma FireStep(conf: Settings, id: Id, runs: seq<Run>)
    ensures Steps(conf, Lone(id, FAILED, Some(1), runs, [], multiset{id}, [], 1), TimerRead(id),
                  Lone(id, FAILED, Some(1), runs, [], multiset{}, [Firing(id, FAILED, false)], 1))
  {
  }

  lemma FiresEarly(conf: Settings, id: Id) returns (h: Past)
    requires conf.autoRetry && conf.maxAttempts > 0
    ensures Legal(conf, h) && h.state == Fired(id, FAILED, Working, 1)
  {
    h := LateSavesFirst(conf, id);
    var runs := [Run(id, Arming(Late)), Run(id, Working)];
    ArmStep(conf, id, FAILED, Some(1), runs, multiset{}, 0, 0);
    assert runs[0 := Run(id, Dead)] == [Run(id, Dead), Run(id, Working)];
    assert multiset{} + multiset{id} == multiset{id};
    runs := [Run(id, Dead), Run(id, Working)];
    h := Do(conf, h, Arm(0), Lone(id, FAILED, Some(1), runs, [], multiset{id}, [], 1));
    FireStep(conf, id, runs);
    h := Do(conf, h, TimerRead(id), Fired(id, FAILED, Working, 1));
  }

  lemma CompleteSteps(conf: Settings, id: Id)
    ensures Steps(conf, Fired(id, FAILED, Working, 1), FinishRead(1, Complete),
                  Fired(id, FAILED, Saving(Worker, FAILED, Complete), 1))
    ensures Steps(conf, Fired(id, FAILED, Saving(Worker, FAILED, Complete), 1), Save(1, true),
                  Fired(id, COMPLETED, Settled, 0))
  {
    var saving := Run(id, Saving(Worker, FAILED, Complete));
    assert [Run(id, Dead), Run(id, Working)][1 := saving] == [Run(id, Dead), saving];
    assert [Run(id, Dead), saving][1 := Run(id, Settled)] == [Run(id, Dead), Run(id, Settled)];
  }

  lemma RestartStep(conf: Settings, id: Id)
    ensures var s := Fired(id, COMPLETED, Settled, 0);
            Enabled(s, TimerWrite(0, true)) && Next(conf, s, TimerWrite(0, true)).rows == map[id := Row(URL, Queued, 1)]
  {
  }

  /** The timer reads the failed row while the job's worker runs (g); no command and no
      other timer comes, the worker completes the job (h), and the timer's write queues
      it again. */
  lemma TimerRestartsCompleted(conf: Settings, id: Id) returns (g: Past, h: Past)
    requires conf.autoRetry && conf.maxAttempts > 0
    ensures Legal(conf, h) && Extends(h, g) && Undisturbed(h, g, id, 0)
    ensures Pending(g.state, id, 0) && id in g.state.rows && g.state.rows[id] == g.state.firings[0].row
    ensures !NoRunLive(g.state, id)
    ensures Enabled(h.state, TimerWrite(0, true)) && h.state.rows == map[id := COMPLETED]
    ensures Next(conf, h.state, TimerWrite(0, true)).rows == map[id := Row(URL, Queued, 1)]
  {
    g := FiresEarly(conf, id);
    FiredPending(id);
    h := Completes(conf, id, g);
    RestartStep(conf, id);
  }

  lemma FiredPending(id: Id)
    ensures var s := Fired(id, FAILED, Working, 1);
            && Pending(s, id, 0) && id in s.rows && s.rows[id] == s.firings[0].row && !NoRunLive(s, id)
  {
    assert Fired(id, FAILED, Working, 1).runs[1] == Run(id, Working);
  }

  lemma Uninterrupted(h: Past, g: Past, id: Id)
    requires h.Then? && Extends(h.past, g) && Undisturbed(h.past, g, id, 0) && Subject(h.event).Some?
    ensures Extends(h, g) && Undisturbed(h, g, id, 0)
  {
  }

  lemma Completes(conf: Settings, id: Id, g: Past) returns (h: Past)
    requires Legal(conf, g) && g.state == Fired(id, FAILED, Working, 1)
    ensures Legal(conf, h) && Extends(h, g) && Undisturbed(h, g, id, 0) && h.state == Fired(id, COMPLETED, Settled, 0)
  {
    CompleteSteps(conf, id);
    assert Extends(g, g) && Undisturbed(g, g, id, 0);
    var k := Do(conf, g, FinishRead(1, Complete), Fired(id, FAILED, Saving(Worker, FAILED, Complete), 1));
    h := Do(conf, k, Save(1, true), Fired(id, COMPLETED, Settled, 0));
    Uninterrupted(k, g, id);
    Uninterrupted(h, g, id);
  }
}
