/** What the user's commands come to (lifecycle.go, torrentselect.go, queue.go), over
    histories: what a row is when its command is over, how long a pause holds, and that a
    job put back in the queue comes to run. */
module Commands {
  import opened Options
  import opened Histories
  import opened Jobs
  import opened Lifecycle
  import opened Handshake

  // ----- when a command is over -----

  /** g ends with a command on the job past its rt.cancel(), about to wait. */
  ghost predicate Begun(conf: Settings, g: Past, id: Id) {
    && Legal(conf, g) && g.Then?
    && (g.event == CancelBegin(id) || g.event == ChooseBegin(id)
        || (g.event == PauseBegin(id) && (id in g.past.state.slots || g.past.state.rows[id].kind.Torrent?)))
  }

  /** Its number. */
  ghost function Number(g: Past): nat
    requires g.Then?
  {
    |g.past.state.commands|
  }

  function OrderOf(e: Event): Order
    requires e.CancelBegin? || e.PauseBegin? || e.ChooseBegin?
  {
    match e
    case CancelBegin(_) => Cancel
    case PauseBegin(_) => Pause
    case ChooseBegin(_) => Choose
  }

  lemma BegunWaits(conf: Settings, g: Past, id: Id)
    requires Begun(conf, g, id)
    ensures Number(g) < |g.state.commands| && id in g.past.state.rows && g.state.rows == g.past.state.rows
    ensures g.state.commands[Number(g)] == Command(id, OrderOf(g.event), SlotOf(g.past.state, id), false)
  {
  }

  lemma {:induction false} CommandSince(conf: Settings, h: Past, g: Past, c: nat)
    requires Legal(conf, h) && Extends(h, g) && c < |g.state.commands|
    ensures c < |h.state.commands|
    ensures var was, now := g.state.commands[c], h.state.commands[c];
            now.over || now == was || (was.order.Choose? && now == was.(order := Requeue, waits := None))
  {
    if h == g {
    } else {
      CommandSince(conf, h.past, g, c);
      CommandMoves(h.past.state, h.event, c);
    }
  }

  /** The step that ends command c, or a choice's pause. */
  function EndOf(o: Order, c: nat): Event {
    match o
    case Cancel => CancelEnd(c)
    case Pause => PauseEnd(c)
    case Choose => PauseEnd(c)
    case Requeue => ChooseEnd(c)
  }

  /** What the row says when command c is over at s: canceled, paused, or, after a new
      choice, paused and then queued; kind and retry count as found, other rows alone.
      Pausing a job that is not a torrent writes nothing. */
  ghost predicate EndsAs(conf: Settings, s: State, id: Id, o: Order, c: nat)
    requires id in s.rows && !o.Requeue?
  {
    var e, row := EndOf(o, c), s.rows[id];
    && Enabled(s, e)
    && var t := Next(conf, s, e);
       && t.rows == (if o.Cancel? then s.rows[id := row.(status := Canceled)]
                     else if o.Choose? || row.kind.Torrent? then s.rows[id := row.(status := Paused)]
                     else s.rows)
       && (o.Choose? ==>
             && Enabled(t, ChooseEnd(c))
             && Next(conf, t, ChooseEnd(c)).rows == s.rows[id := row.(status := Queued)])
  }

  lemma EndsRight(conf: Settings, s: State, id: Id, o: Order, c: nat)
    requires DoneFor(s, c) && s.commands[c].id == id && s.commands[c].order == o && !o.Requeue?
    ensures EndsAs(conf, s, id, o, c)
  {
    var t := Next(conf, s, EndOf(o, c));
    if o.Choose? {
      assert t.commands[c] == Command(id, Requeue, None, false);
      assert t.rows[id] == s.rows[id].(status := Paused);
    }
  }

  /** A cancel, a torrent's pause or a new choice of its files, from its rt.cancel() (g) to
      the moment it goes on (h), whatever happens in between: the run that held the job's
      slot at the beginning, if any, is over for good, and the row comes to say canceled
      or paused, of the job's own kind. */
  lemma CommandComesTo(conf: Settings, g: Past, h: Past, id: Id)
    requires Begun(conf, g, id) && Legal(conf, h) && Extends(h, g) && DoneFor(h.state, Number(g))
    requires !h.state.commands[Number(g)].order.Requeue?
    ensures var r := SlotOf(g.past.state, id);
            r.Some? ==> r.value < |h.state.runs| && h.state.runs[r.value].phase.Closed?
    ensures id in g.past.state.rows && id in h.state.rows
    ensures h.state.rows[id].kind == g.past.state.rows[id].kind
    ensures EndsAs(conf, h.state, id, OrderOf(g.event), Number(g))
  {
    BegunWaits(conf, g, id);
    CommandSince(conf, h, g, Number(g));
    KindSince(conf, h, g, id);
    EndsRight(conf, h.state, id, OrderOf(g.event), Number(g));
  }

  /** A pause of a job without a runtime is over at once. */
  lemma PauseAtOnce(conf: Settings, s: State, id: Id)
    requires Enabled(s, PauseBegin(id)) && id !in s.slots && !s.rows[id].kind.Torrent?
    ensures Next(conf, s, PauseBegin(id)) == s.(rows := s.rows[id := s.rows[id].(status := Paused)])
  {
  }

  // ----- a paused row -----

  /** Command c, under way, is to cancel the job or put it back in the queue. */
  ghost predicate ChangeAt(s: State, id: Id, c: int) {
    && 0 <= c < |s.commands| && s.commands[c].id == id && !s.commands[c].over && !Abandoned(s, s.commands[c])
    && !s.commands[c].order.Pause?
  }

  /** A cancel or a new choice is under way and can come to its write. */
  ghost predicate ChangeCanEnd(s: State, id: Id) {
    exists c :: ChangeAt(s, id, c)
  }

  lemma PausedRowStep(conf: Settings, s: State, e: Event, id: Id)
    requires Enabled(s, e) && !Orders(e, id) && PausedIn(s, id) && !Live(s, id) && !ChangeCanEnd(s, id)
    ensures id in RowsAfter(conf, s, e) && RowsAfter(conf, s, e)[id] == s.rows[id]
  {
    if Subject(e).Some? {
      var r := Subject(e).value;
      assert s.runs[r].id == id ==> !Writing(s.runs[r].phase);
    } else if e.TimerWrite? {
      assert !FiringAt(s, id, e.k);
    } else if e.PauseEnd? || e.ChooseEnd? || e.CancelEnd? {
      EndIsPause(s, e, id);
    }
  }

  lemma EndIsPause(s: State, e: Event, id: Id)
    requires Enabled(s, e) && !ChangeCanEnd(s, id) && (e.PauseEnd? || e.ChooseEnd? || e.CancelEnd?)
    ensures s.commands[e.c].id == id ==> e.PauseEnd? && s.commands[e.c].order.Pause?
  {
    assert !ChangeAt(s, id, e.c);
  }

  lemma ChangeStays(conf: Settings, s: State, e: Event, id: Id, c: nat)
    requires Enabled(s, e) && c < |s.commands| && !ChangeAt(s, id, c)
    ensures !ChangeAt(Next(conf, s, e), id, c)
  {
    CommandMoves(s, e, c);
    var d := s.commands[c];
    if Abandoned(s, d) {
      PhaseStep(conf, s, e, d.waits.value);
    }
  }

  lemma NoNewChange(conf: Settings, s: State, e: Event, id: Id, c: nat)
    requires Enabled(s, e) && !Orders(e, id) && |s.commands| <= c < |CommandsAfter(s, e)|
    ensures !ChangeAt(Next(conf, s, e), id, c)
  {
  }

  lemma ChangeStep(conf: Settings, s: State, e: Event, id: Id)
    requires Enabled(s, e) && !Orders(e, id) && !ChangeCanEnd(s, id)
    ensures !ChangeCanEnd(Next(conf, s, e), id)
  {
    forall c
      ensures !ChangeAt(Next(conf, s, e), id, c)
    {
      if 0 <= c < |s.commands| {
        ChangeStays(conf, s, e, id, c);
      } else if |s.commands| <= c < |CommandsAfter(s, e)| {
        NoNewChange(conf, s, e, id, c);
      }
    }
  }

  lemma {:induction false} PausedStays(conf: Settings, h: Past, g: Past, id: Id)
    requires Alone(conf, h, g, id)
    requires PausedIn(g.state, id) && !Live(g.state, id) && !ChangeCanEnd(g.state, id)
    ensures PausedIn(h.state, id) && h.state.rows[id] == g.state.rows[id]
    ensures !Live(h.state, id) && !ChangeCanEnd(h.state, id)
  {
    if h == g {
    } else {
      PausedStays(conf, h.past, g, id);
      LiveStep(conf, h.past.state, h.event, id);
      PausedRowStep(conf, h.past.state, h.event, id);
      ChangeStep(conf, h.past.state, h.event, id);
    }
  }

  lemma CancelWrites(conf: Settings, h: Past, g: Past, id: Id, c: nat) returns (k: Past)
    requires Alone(conf, h, g, id) && DoneFor(h.state, c) && h.state.commands[c].id == id
    requires h.state.commands[c].order.Cancel?
    ensures Alone(conf, k, g, id) && CanceledIn(k.state, id)
  {
    k := On(conf, h, g, id, CancelEnd(c));
  }

  lemma RequeueWrites(conf: Settings, h: Past, g: Past, id: Id, c: nat) returns (k: Past)
    requires Alone(conf, h, g, id) && DoneFor(h.state, c) && h.state.commands[c].id == id
    requires h.state.commands[c].order.Requeue?
    ensures Alone(conf, k, g, id) && Restless(k.state, id)
  {
    k := On(conf, h, g, id, ChooseEnd(c));
  }

  lemma ChoosePauses(conf: Settings, h: Past, g: Past, id: Id, c: nat) returns (k: Past)
    requires Alone(conf, h, g, id) && DoneFor(h.state, c) && h.state.commands[c].id == id
    requires h.state.commands[c].order.Choose?
    ensures Alone(conf, k, g, id) && DoneFor(k.state, c) && k.state.commands[c] == Command(id, Requeue, None, false)
  {
    k := On(conf, h, g, id, PauseEnd(c));
  }

  lemma ChangeWrites(conf: Settings, h: Past, g: Past, id: Id, c: nat) returns (k: Past)
    requires Alone(conf, h, g, id) && DoneFor(h.state, c) && h.state.commands[c].id == id
    requires !h.state.commands[c].order.Pause?
    ensures Alone(conf, k, g, id) && (CanceledIn(k.state, id) || Restless(k.state, id))
  {
    k := h;
    if k.state.commands[c].order.Choose? {
      k := ChoosePauses(conf, k, g, id, c);
    }
    if k.state.commands[c].order.Cancel? {
      k := CancelWrites(conf, k, g, id, c);
    } else {
      k := RequeueWrites(conf, k, g, id, c);
    }
  }

  lemma ChangeUndoes(conf: Settings, g: Past, id: Id) returns (h: Past)
    requires Inv(conf, g.state) && !Live(g.state, id) && ChangeCanEnd(g.state, id)
    ensures Alone(conf, h, g, id) && !PausedIn(h.state, id)
  {
    var c :| ChangeAt(g.state, id, c);
    var d := g.state.commands[c];
    assert CommandOk(g.state.rows, g.state.runs, d);
    h := g;
    if d.waits.Some? {
      h := WaitedFor(conf, g, id, d.waits.value);
    }
    h := ChangeWrites(conf, h, g, id, c);
  }

  /** Without a new command on it, the job stays paused, and no start of it can be picked. */
  ghost predicate PauseHolds(conf: Settings, g: Past, id: Id) {
    forall h :: Alone(conf, h, g, id) ==> PausedIn(h.state, id) && !Enabled(h.state, Pick(id))
  }

  /** Exactly: a paused job stays paused, and is not started again, short of a resume, a
      retry, a cancel or a new choice of its files, if and only if, when the pause is
      written, nobody live can write its row (no run, and no timer that read the row
      before) and no cancel or choice under way can come to its write. A start chosen but
      not yet at acquireSlot counts as live. */
  lemma {:induction false} PauseHoldsIff(conf: Settings, g: Past, id: Id)
    requires Legal(conf, g) && PausedIn(g.state, id)
    ensures PauseHolds(conf, g, id) <==> !Live(g.state, id) && !ChangeCanEnd(g.state, id)
  {
    SlotOwnership(conf, g);
    if Live(g.state, id) {
      var h := LiveRevives(conf, g, id);
      assert Alone(conf, h, g, id) && !PausedIn(h.state, id);
    } else if ChangeCanEnd(g.state, id) {
      var h := ChangeUndoes(conf, g, id);
      assert Alone(conf, h, g, id) && !PausedIn(h.state, id);
    } else {
      forall h | Alone(conf, h, g, id)
        ensures PausedIn(h.state, id) && !Enabled(h.state, Pick(id))
      {
        PausedStays(conf, h, g, id);
      }
    }
  }

  // ----- a job in the queue -----

  lemma Queues(conf: Settings, g: Past, id: Id) returns (h: Past)
    requires id in g.state.rows && g.state.rows[id].status.Queued?
    ensures Alone(conf, h, g, id) && h.state == g.state.(runs := g.state.runs + [Run(id, Picked)])
    ensures h.Then? && h.past == g && h.event == Pick(id)
  {
    h := On(conf, g, g, id, Pick(id));
  }

  lemma Starts(conf: Settings, h: Past, g: Past, id: Id, r: Rid) returns (k: Past)
    requires Alone(conf, h, g, id) && id in h.state.rows && SlotFree(conf, h.state, id)
    requires r < |h.state.runs| && h.state.runs[r] == Run(id, Picked)
    ensures Alone(conf, k, g, id) && r < |k.state.runs| && k.state.runs[r] == Run(id, Working)
    ensures SlotOf(k.state, id) == Some(r)
    ensures k.state.rows == h.state.rows[id := h.state.rows[id].(status := Active)]
    ensures k.Then? && k.event == Marked(r) && k.past.Then? && k.past.event == Acquire(r) && k.past.past == h
  {
    k := TakesSlot(conf, h, g, id, r);
    k := IsMarked(conf, k, g, id, r);
  }

  lemma TakesSlot(conf: Settings, h: Past, g: Past, id: Id, r: Rid) returns (k: Past)
    requires Alone(conf, h, g, id) && id in h.state.rows && SlotFree(conf, h.state, id)
    requires r < |h.state.runs| && h.state.runs[r] == Run(id, Picked)
    ensures Alone(conf, k, g, id) && r < |k.state.runs| && k.state.runs[r] == Run(id, Reserved)
    ensures SlotOf(k.state, id) == Some(r) && k.state.rows == h.state.rows
    ensures k.Then? && k.event == Acquire(r) && k.past == h
  {
    k := On(conf, h, g, id, Acquire(r));
  }

  lemma IsMarked(conf: Settings, h: Past, g: Past, id: Id, r: Rid) returns (k: Past)
    requires Alone(conf, h, g, id) && id in h.state.rows && SlotOf(h.state, id) == Some(r)
    requires r < |h.state.runs| && h.state.runs[r] == Run(id, Reserved)
    ensures Alone(conf, k, g, id) && r < |k.state.runs| && k.state.runs[r] == Run(id, Working)
    ensures SlotOf(k.state, id) == Some(r)
    ensures k.state.rows == h.state.rows[id := h.state.rows[id].(status := Active)]
    ensures k.Then? && k.event == Marked(r) && k.past == h
  {
    k := On(conf, h, g, id, Marked(r));
  }

  /** A queued job comes to run, whatever else is running: a start of it can be picked, a
      slot can come free for it, and its worker starts with the row as it was, now active.
      With room under the cap and no run of the job holding a slot it does so in three
      steps. */
  lemma QueuedComesToRun(conf: Settings, g: Past, id: Id) returns (h: Past)
    requires Legal(conf, g) && id in g.state.rows && g.state.rows[id].status.Queued?
    ensures Enabled(g.state, Pick(id)) && Alone(conf, h, g, id)
    ensures |g.state.runs| < |h.state.runs| && h.state.runs[|g.state.runs|] == Run(id, Working)
    ensures SlotOf(h.state, id) == Some(|g.state.runs|)
    ensures h.state.rows == g.state.rows[id := g.state.rows[id].(status := Active)]
    ensures SlotFree(conf, g.state, id) ==> h.Then? && h.past.Then? && h.past.past.Then? && h.past.past.past == g
  {
    var r := |g.state.runs|;
    var k := Queues(conf, g, id);
    PickKeeps(conf, g, k, id);
    h := Room(conf, k, id, r);
    h := Starts(conf, h, k, id, r);
    AloneTwice(conf, h, k, g, id);
  }

  lemma PickKeeps(conf: Settings, g: Past, k: Past, id: Id)
    requires Legal(conf, g) && Alone(conf, k, g, id)
    ensures Inv(conf, k.state)
  {
    AloneLegally(conf, k, g, id);
    SlotOwnership(conf, k);
  }

  lemma {:induction false} AloneTwice(conf: Settings, h: Past, k: Past, g: Past, id: Id)
    requires Alone(conf, h, k, id) && Alone(conf, k, g, id)
    ensures Alone(conf, h, g, id)
  {
    if h == k {
    } else {
      AloneTwice(conf, h.past, k, g, id);
    }
  }

  /** A step that puts the job in the queue: it is created, resumed, retried by hand or by
      its timer, taken over from the last daemon, or its files are chosen anew. */
  predicate PutsInQueue(s: State, e: Event, id: Id) {
    || (e.Create? && e.id == id) || e == Resume(id) || e == Retry(id) || e == Reselect(id)
    || (e == Recover(id) && id in s.rows && s.rows[id].status.Active?)
    || (e.ChooseEnd? && e.c < |s.commands| && s.commands[e.c].id == id)
    || (e.TimerWrite? && e.stored && e.k < |s.firings| && s.firings[e.k].id == id)
  }

  /** The retry count it has then: none for a new job or one retried by hand, the one its
      timer read, or the one it had. */
  function CountThen(s: State, e: Event, id: Id): int
    requires Enabled(s, e) && PutsInQueue(s, e, id)
  {
    if e.Create? || e.Retry? then 0 else if e.TimerWrite? then s.firings[e.k].row.retries else s.rows[id].retries
  }

  /** The job's row is queued, with its kind and that count, and no other row changes. */
  ghost predicate QueuedRow(conf: Settings, s: State, e: Event, id: Id)
    requires Enabled(s, e) && PutsInQueue(s, e, id)
  {
    var rows := RowsAfter(conf, s, e);
    && id in rows && rows[id].status.Queued? && rows[id].retries == CountThen(s, e, id)
    && (id in s.rows ==> rows[id].kind == s.rows[id].kind)
    && rows == s.rows[id := rows[id]]
  }

  lemma OrderQueues(conf: Settings, s: State, e: Event, id: Id)
    requires Enabled(s, e) && PutsInQueue(s, e, id) && !e.ChooseEnd? && !e.TimerWrite?
    ensures QueuedRow(conf, s, e, id)
  {
  }

  lemma EndQueues(conf: Settings, s: State, e: Event, id: Id)
    requires Enabled(s, e) && PutsInQueue(s, e, id) && KindsOk(s) && (e.ChooseEnd? || e.TimerWrite?)
    ensures QueuedRow(conf, s, e, id)
  {
  }

  lemma QueuedAnew(conf: Settings, s: State, e: Event, id: Id)
    requires Enabled(s, e) && PutsInQueue(s, e, id) && KindsOk(s)
    ensures QueuedRow(conf, s, e, id) && Next(conf, s, e).rows == RowsAfter(conf, s, e)
  {
    if e.ChooseEnd? || e.TimerWrite? {
      EndQueues(conf, s, e, id);
    } else {
      OrderQueues(conf, s, e, id);
    }
  }

  /** At h the job's worker runs in the next run after g, its row is this, and no other
      row has changed since g. */
  ghost predicate Runs(g: Past, h: Past, id: Id, row: Row) {
    && |g.state.runs| < |h.state.runs| && h.state.runs[|g.state.runs|] == Run(id, Working)
    && SlotOf(h.state, id) == Some(|g.state.runs|)
    && h.state.rows == g.state.rows[id := row]
  }

  /** g ends with a step that puts the job in the queue. */
  ghost predicate Requeued(conf: Settings, g: Past, id: Id) {
    Legal(conf, g) && g.Then? && PutsInQueue(g.past.state, g.event, id)
  }

  lemma RequeuedRow(conf: Settings, g: Past, id: Id)
    requires Requeued(conf, g, id)
    ensures QueuedRow(conf, g.past.state, g.event, id) && g.state.rows == RowsAfter(conf, g.past.state, g.event)
  {
    KindsHold(conf, g.past);
    QueuedAnew(conf, g.past.state, g.event, id);
  }

  /** Each of these steps leaves the job such that it can be picked and comes to run: of its
      kind, with that count, and no other row touched. */
  lemma RequeuedComesToRun(conf: Settings, g: Past, id: Id) returns (h: Past)
    requires Requeued(conf, g, id)
    ensures QueuedRow(conf, g.past.state, g.event, id) && g.state.rows == RowsAfter(conf, g.past.state, g.event)
    ensures Enabled(g.state, Pick(id)) && Alone(conf, h, g, id)
    ensures Runs(g, h, id, g.state.rows[id].(status := Active))
  {
    RequeuedRow(conf, g, id);
    h := QueuedComesToRun(conf, g, id);
  }

  /** And the user can always order one: a job that is neither active nor queued, whatever
      became of it, can be retried; a paused or failed one can be resumed, and a finished
      torrent's files chosen anew. */
  lemma StoppedCanBeRequeued(s: State, id: Id)
    requires id in s.rows
    ensures Unfinished(s.rows[id]) || (Enabled(s, Retry(id)) && PutsInQueue(s, Retry(id), id))
    ensures s.rows[id].status.Paused? || s.rows[id].status.Failed? ==>
              Enabled(s, Resume(id)) && PutsInQueue(s, Resume(id), id)
    ensures s.rows[id].kind.Torrent? && (s.rows[id].status.Completed? || s.rows[id].status.Seeding?) ==>
              Enabled(s, Reselect(id)) && PutsInQueue(s, Reselect(id), id)
  {
  }

  /** A torrent left seeding by the last daemon is completed. */
  lemma SeedingIsSettled(conf: Settings, s: State, id: Id)
    requires Enabled(s, Recover(id)) && s.rows[id].status.Seeding?
    ensures Next(conf, s, Recover(id)).rows == s.rows[id := s.rows[id].(status := Completed)]
  {
  }

  // ----- a slot -----

  ghost function HoldingRuns(s: State): set<Rid> {
    set r | 0 <= r < |s.runs| && Holding(s.runs[r].phase)
  }

  lemma {:induction false} ImageSize(m: map<Id, Rid>)
    requires forall a, b :: a in m && b in m && m[a] == m[b] ==> a == b
    ensures |m.Values| == |m|
    decreases |m|
  {
    if m == map[] {
    } else {
      var id :| id in m;
      var rest := m - {id};
      MapShrinks(m, id);
      ImageSize(rest);
      assert forall a :: a in rest ==> a in m && a != id && rest[a] == m[a];
      assert m[id] !in rest.Values;
      assert m.Values == rest.Values + {m[id]};
    }
  }

  lemma SlotsAreHolders(conf: Settings, s: State)
    requires Inv(conf, s)
    ensures |s.slots| == |HoldingRuns(s)|
  {
    ImageSize(s.slots);
    assert s.slots.Values == HoldingRuns(s);
  }

  /** A start gets its slot exactly if no run of its job holds one and fewer runs hold one
      than the cap allows; otherwise it is refused for good. */
  lemma SlotGrantedIff(conf: Settings, h: Past, r: Rid)
    requires Legal(conf, h) && Enabled(h.state, Acquire(r))
    ensures var s, t := h.state, Next(conf, h.state, Acquire(r));
            var free := && (forall q :: q in HoldingRuns(s) ==> s.runs[q].id != s.runs[r].id)
                        && (conf.maxConcurrent > 0 ==> |HoldingRuns(s)| < conf.maxConcurrent);
            t.runs[r].phase == if free then Reserved else Refused
  {
    SlotOwnership(conf, h);
    SlotsAreHolders(conf, h.state);
  }
}
