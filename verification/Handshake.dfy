/** What pause and cancel can count on (lifecycle.go, waitForStop in queue.go). */
module Handshake {
  import opened Options
  import opened Histories
  import opened Jobs
  import opened Lifecycle

  // ----- a closed done -----

  lemma ClosedStep(s: State, e: Event, r: Rid)
    requires Enabled(s, e) && r < |s.runs| && s.runs[r].phase.Closed?
    ensures Subject(e) != Some(r)
  {
  }

  lemma {:induction false} ClosedStays(conf: Settings, h: Past, g: Past, r: Rid)
    requires Legal(conf, h) && Extends(h, g) && r < |g.state.runs| && g.state.runs[r].phase.Closed?
    ensures r < |h.state.runs| && h.state.runs[r].phase.Closed?
  {
    if h == g {
    } else {
      ClosedStays(conf, h.past, g, r);
      PhaseStep(conf, h.past.state, h.event, r);
    }
  }

  lemma ClosedHasNoSlot(conf: Settings, s: State, r: Rid)
    requires Inv(conf, s) && r < |s.runs| && s.runs[r].phase.Closed?
    ensures SlotOf(s, s.runs[r].id) != Some(r)
  {
  }

  /** Once rt.done is closed the run has written its row for the last time and its
      slot is no longer its own: whoever returns from waiting on it will never be
      overwritten by it. */
  lemma {:induction false} ClosedIsOver(conf: Settings, h: Past, g: Past, r: Rid)
    requires Legal(conf, h) && Extends(h, g) && r < |g.state.runs| && g.state.runs[r].phase.Closed?
    ensures r < |h.state.runs| && SlotOf(h.state, h.state.runs[r].id) != Some(r)
    ensures h != g ==> Subject(h.event) != Some(r)
  {
    ClosedStays(conf, h, g, r);
    SlotOwnership(conf, h);
    ClosedHasNoSlot(conf, h.state, r);
    if h != g {
      ClosedStays(conf, h.past, g, r);
      ClosedStep(h.past.state, h.event, r);
    }
  }

  // ----- going on -----

  /** h goes on from g without a manual retry of the job. */
  ghost predicate GoesOn(conf: Settings, h: Past, g: Past, id: Id) {
    h == g || (h.Then? && GoesOn(conf, h.past, g, id) && h.event != Retry(id)
               && Enabled(h.past.state, h.event) && h.state == Next(conf, h.past.state, h.event))
  }

  /** A new command of the user's that is to change what becomes of the job. */
  predicate Orders(e: Event, id: Id) {
    e == Retry(id) || e == Resume(id) || e == CancelBegin(id) || e == ChooseBegin(id) || e == Reselect(id)
  }

  /** h goes on from g without any such command. */
  ghost predicate Alone(conf: Settings, h: Past, g: Past, id: Id) {
    h == g || (h.Then? && Alone(conf, h.past, g, id) && !Orders(h.event, id)
               && Enabled(h.past.state, h.event) && h.state == Next(conf, h.past.state, h.event))
  }

  lemma {:induction false} AloneGoesOn(conf: Settings, h: Past, g: Past, id: Id)
    requires Alone(conf, h, g, id)
    ensures GoesOn(conf, h, g, id)
  {
    if h == g {
    } else {
      AloneGoesOn(conf, h.past, g, id);
    }
  }

  lemma {:induction false} AloneLegally(conf: Settings, h: Past, g: Past, id: Id)
    requires Alone(conf, h, g, id) && Legal(conf, g)
    ensures Legal(conf, h) && Extends(h, g)
  {
    if h == g {
    } else {
      AloneLegally(conf, h.past, g, id);
    }
  }

  lemma On(conf: Settings, h: Past, g: Past, id: Id, e: Event) returns (r: Past)
    requires Alone(conf, h, g, id) && Enabled(h.state, e) && !Orders(e, id)
    ensures Alone(conf, r, g, id) && r.state == Next(conf, h.state, e)
    ensures r.Then? && r.past == h && r.event == e
  {
    r := Then(h, e, Next(conf, h.state, e));
  }

  /** A step of run q that touches nothing but its own place. */
  predicate Quiet(e: Event) {
    || (e.NoteWrite? && !e.stored) || (e.Save? && !e.stored) || e.Arm? || e.Skip? || e.Panic? || e.FinishRead?
  }

  lemma QuietOn(conf: Settings, h: Past, g: Past, id: Id, e: Event, q: Rid) returns (r: Past)
    requires Alone(conf, h, g, id) && Enabled(h.state, e) && Quiet(e) && Subject(e) == Some(q)
    ensures Alone(conf, r, g, id) && At(r.state, q)
    ensures r.state.rows == h.state.rows && r.state.slots == h.state.slots && r.state.commands == h.state.commands
    ensures r.state.runs == h.state.runs[q := Run(h.state.runs[q].id, PhaseAfter(conf, h.state, e))]
  {
    r := On(conf, h, g, id, e);
  }

  /** finishJob over, the slot still held. */
  predicate Through(p: Phase) {
    p.Settled? || p.Recovered?
  }

  /** How a run goes on without writing. */
  function WayOut(p: Phase, q: Rid): Event {
    if p.Noting? then NoteWrite(q, false)
    else if p.Saving? then Save(q, false)
    else if p.Arming? then Arm(q)
    else Skip(q)
  }

  function StepsOut(p: Phase): nat {
    if Through(p) then 0 else if p.Noting? || p.Saving? then 2 else 1
  }

  lemma WayOutLeads(conf: Settings, s: State, q: Rid)
    requires At(s, q) && Holding(s.runs[q].phase) && !s.runs[q].phase.Reserved? && !Through(s.runs[q].phase)
    ensures var p := s.runs[q].phase; var e := WayOut(p, q);
            && Enabled(s, e) && Quiet(e) && Subject(e) == Some(q)
            && var t := PhaseAfter(conf, s, e);
               Holding(t) && !t.Reserved? && StepsOut(t) < StepsOut(p)
  {
  }

  /** Any run with a slot and past its activation can come through without writing. */
  lemma {:induction false} ComeThrough(conf: Settings, h: Past, g: Past, id: Id, q: Rid) returns (r: Past)
    requires Alone(conf, h, g, id) && At(h.state, q)
    requires Holding(h.state.runs[q].phase) && !h.state.runs[q].phase.Reserved?
    ensures Alone(conf, r, g, id) && At(r.state, q)
    ensures r.state.rows == h.state.rows && r.state.slots == h.state.slots && r.state.commands == h.state.commands
    ensures |r.state.runs| == |h.state.runs|
    ensures r.state.runs[q].id == h.state.runs[q].id && Through(r.state.runs[q].phase)
    ensures forall k :: 0 <= k < |h.state.runs| && k != q ==> r.state.runs[k] == h.state.runs[k]
    decreases StepsOut(h.state.runs[q].phase)
  {
    var p := h.state.runs[q].phase;
    if Through(p) {
      r := h;
    } else {
      WayOutLeads(conf, h.state, q);
      r := QuietOn(conf, h, g, id, WayOut(p, q), q);
      r := ComeThrough(conf, r, g, id, q);
    }
  }

  // ----- waiting for a run whose activation failed -----

  lemma {:induction false} NeverCloses(conf: Settings, h: Past, g: Past, r: Rid)
    requires Legal(conf, h) && Extends(h, g) && r < |g.state.runs| && NeverActivated(g.state.runs[r].phase)
    ensures r < |h.state.runs| && NeverActivated(h.state.runs[r].phase)
  {
    if h == g {
    } else {
      NeverCloses(conf, h.past, g, r);
      PhaseStep(conf, h.past.state, h.event, r);
    }
  }

  ghost predicate Closes(conf: Settings, h: Past, g: Past, r: Rid) {
    Legal(conf, h) && Extends(h, g) && r < |h.state.runs| && h.state.runs[r].phase.Closed?
  }

  lemma ClearOn(conf: Settings, h: Past, g: Past, id: Id, q: Rid) returns (r: Past)
    requires Alone(conf, h, g, id) && At(h.state, q) && Through(h.state.runs[q].phase)
    ensures Alone(conf, r, g, id) && r.state.rows == h.state.rows && r.state.commands == h.state.commands
    ensures r.state.slots == h.state.slots - {h.state.runs[q].id}
    ensures r.state.runs == h.state.runs[q := Run(h.state.runs[q].id, Cleared)]
  {
    r := On(conf, h, g, id, Clear(q));
  }

  lemma CloseOn(conf: Settings, h: Past, g: Past, id: Id, q: Rid) returns (r: Past)
    requires Alone(conf, h, g, id) && At(h.state, q) && h.state.runs[q].phase.Cleared?
    ensures Alone(conf, r, g, id) && q < |r.state.runs| && r.state.runs[q].phase.Closed?
    ensures r.state.rows == h.state.rows && r.state.commands == h.state.commands
  {
    r := On(conf, h, g, id, Close(q));
  }

  lemma ClearAndClose(conf: Settings, h: Past, g: Past, id: Id, r: Rid) returns (k: Past)
    requires Alone(conf, h, g, id) && At(h.state, r)
    requires Through(h.state.runs[r].phase) || h.state.runs[r].phase.Cleared? || h.state.runs[r].phase.Closed?
    ensures Alone(conf, k, g, id) && r < |k.state.runs| && k.state.runs[r].phase.Closed?
    ensures k.state.rows == h.state.rows && k.state.commands == h.state.commands
  {
    k := h;
    if Through(k.state.runs[r].phase) {
      k := ClearOn(conf, k, g, id, r);
    }
    if k.state.runs[r].phase.Cleared? {
      k := CloseOn(conf, k, g, id, r);
    }
  }

  lemma CloseIt(conf: Settings, g: Past, r: Rid) returns (h: Past)
    requires Legal(conf, g) && r < |g.state.runs|
    requires var p := g.state.runs[r].phase; Holding(p) || p.Cleared? || p.Closed?
    ensures Closes(conf, h, g, r)
  {
    SlotOwnership(conf, g);
    var id := g.state.runs[r].id;
    h := g;
    if h.state.runs[r].phase.Reserved? {
      h := On(conf, h, g, id, Marked(r));
    }
    if Holding(h.state.runs[r].phase) {
      h := ComeThrough(conf, h, g, id, r);
    }
    h := ClearAndClose(conf, h, g, id, r);
    AloneLegally(conf, h, g, id);
  }

  /** A command waiting for a run can get past rt.done if and only if the run's
      activation has not failed: when markActive fails, launch returns without
      closing done, and only the timeout lets the waiter go. */
  lemma {:induction false} WaitEndsIff(conf: Settings, g: Past, c: nat)
    requires Legal(conf, g) && c < |g.state.commands| && g.state.commands[c].waits.Some?
    ensures var r := g.state.commands[c].waits.value;
            && r < |g.state.runs|
            && ((exists h :: Closes(conf, h, g, r)) <==> !NeverActivated(g.state.runs[r].phase))
  {
    SlotOwnership(conf, g);
    assert CommandOk(g.state.rows, g.state.runs, g.state.commands[c]);
    var r := g.state.commands[c].waits.value;
    if NeverActivated(g.state.runs[r].phase) {
      forall h
        ensures !Closes(conf, h, g, r)
      {
        if Legal(conf, h) && Extends(h, g) {
          NeverCloses(conf, h, g, r);
        }
      }
    } else {
      var h := CloseIt(conf, g, r);
    }
  }

  // ----- a canceled row -----

  /** A timer's function that has read the row as failed and not yet written it. */
  ghost predicate FiringAt(s: State, id: Id, k: int) {
    0 <= k < |s.firings| && s.firings[k].id == id && !s.firings[k].over
  }

  /** Somebody is about who may still write the row. */
  ghost predicate Live(s: State, id: Id) {
    || (exists r :: 0 <= r < |s.runs| && s.runs[r].id == id && Writing(s.runs[r].phase))
    || (exists k :: FiringAt(s, id, k))
  }

  /** The run a command waits for has a failed activation. */
  predicate Abandoned(s: State, d: Command) {
    d.waits.Some? && d.waits.value < |s.runs| && NeverActivated(s.runs[d.waits.value].phase)
  }

  /** Command c on the job is still to write a pause, or a new choice's restart. */
  ghost predicate PauseAt(s: State, id: Id, c: int) {
    && 0 <= c < |s.commands| && s.commands[c].id == id && !s.commands[c].over && !Abandoned(s, s.commands[c])
    && match s.commands[c].order
       case Cancel => false
       case Pause => id in s.rows && s.rows[id].kind.Torrent?
       case Choose => true
       case Requeue => true
  }

  /** A pause of the torrent, or a new choice of its files, is under way and can come
      to its write. */
  ghost predicate PauseCanEnd(s: State, id: Id) {
    exists c :: PauseAt(s, id, c)
  }

  ghost predicate CanceledIn(s: State, id: Id) {
    id in s.rows && s.rows[id].status.Canceled?
  }

  ghost predicate PausedIn(s: State, id: Id) {
    id in s.rows && s.rows[id].status.Paused?
  }

  lemma LiveStep(conf: Settings, s: State, e: Event, id: Id)
    requires Enabled(s, e) && !Live(s, id) && (CanceledIn(s, id) || PausedIn(s, id))
    ensures !Live(Next(conf, s, e), id)
  {
    var t := Next(conf, s, e);
    forall r | 0 <= r < |t.runs| && t.runs[r].id == id
      ensures !Writing(t.runs[r].phase)
    {
      if r < |s.runs| {
        PhaseStep(conf, s, e, r);
        assert s.runs[r].id == id && !Writing(s.runs[r].phase);
      }
    }
    forall k
      ensures !FiringAt(t, id, k)
    {
      assert 0 <= k < |s.firings| ==> !FiringAt(s, id, k);
    }
  }

  lemma EndingIsPause(s: State, e: Event)
    requires Enabled(s, e) && (e.PauseEnd? || e.ChooseEnd?)
    ensures var d := s.commands[e.c];
            d.order.Choose? || d.order.Requeue? || s.rows[d.id].kind.Torrent? ==> PauseAt(s, d.id, e.c)
  {
  }

  lemma RowStep(conf: Settings, s: State, e: Event, id: Id)
    requires Enabled(s, e) && !Live(s, id) && CanceledIn(s, id) && !PauseCanEnd(s, id) && e != Retry(id)
    ensures id in RowsAfter(conf, s, e) && RowsAfter(conf, s, e)[id] == s.rows[id]
  {
    if Subject(e).Some? {
      var r := Subject(e).value;
      assert s.runs[r].id == id ==> !Writing(s.runs[r].phase);
    } else if e.TimerWrite? {
      assert !FiringAt(s, id, e.k);
    } else if e.PauseEnd? || e.ChooseEnd? {
      EndingIsPause(s, e);
    }
  }

  /** A command stays what it is, except that a choice's pause ends in its restart. */
  lemma CommandMoves(s: State, e: Event, c: nat)
    requires Enabled(s, e) && c < |s.commands|
    ensures var cs := CommandsAfter(s, e);
            && c < |cs| && cs[c].id == s.commands[c].id
            && (s.commands[c].over ==> cs[c].over)
            && (cs[c].over || cs[c] == s.commands[c]
                || (s.commands[c].order.Choose? && DoneFor(s, c)
                    && cs[c] == s.commands[c].(order := Requeue, waits := None)))
  {
  }

  lemma NewCommands(s: State, e: Event, id: Id, c: nat)
    requires Enabled(s, e) && CanceledIn(s, id) && |s.commands| <= c < |CommandsAfter(s, e)|
    ensures CommandsAfter(s, e)[c].id == id ==> CommandsAfter(s, e)[c].order.Cancel?
  {
  }

  lemma PauseStep(conf: Settings, s: State, e: Event, id: Id)
    requires Enabled(s, e) && CanceledIn(s, id) && !PauseCanEnd(s, id)
    requires RowsAfter(conf, s, e)[id] == s.rows[id]
    ensures !PauseCanEnd(Next(conf, s, e), id)
  {
    var t := Next(conf, s, e);
    forall c
      ensures !PauseAt(t, id, c)
    {
      if 0 <= c < |s.commands| {
        assert !PauseAt(s, id, c);
        PauseStays(conf, s, e, id, c);
      } else if |s.commands| <= c < |t.commands| {
        NewCommands(s, e, id, c);
      }
    }
  }

  lemma PauseStays(conf: Settings, s: State, e: Event, id: Id, c: nat)
    requires Enabled(s, e) && CanceledIn(s, id) && c < |s.commands| && !PauseAt(s, id, c)
    requires RowsAfter(conf, s, e)[id] == s.rows[id]
    ensures !PauseAt(Next(conf, s, e), id, c)
  {
    CommandMoves(s, e, c);
    var d := s.commands[c];
    if Abandoned(s, d) {
      PhaseStep(conf, s, e, d.waits.value);
    }
  }

  /** Canceled is final while nobody live can write the row and no pause of it can end:
      no worker, timer, scheduling pass, pause or resume brings the job back. */
  lemma {:induction false} CanceledStays(conf: Settings, h: Past, g: Past, id: Id)
    requires GoesOn(conf, h, g, id)
    requires CanceledIn(g.state, id) && !Live(g.state, id) && !PauseCanEnd(g.state, id)
    ensures CanceledIn(h.state, id) && h.state.rows[id] == g.state.rows[id]
    ensures !Live(h.state, id) && !PauseCanEnd(h.state, id)
  {
    if h == g {
    } else {
      CanceledStays(conf, h.past, g, id);
      LiveStep(conf, h.past.state, h.event, id);
      RowStep(conf, h.past.state, h.event, id);
      PauseStep(conf, h.past.state, h.event, id);
    }
  }

  /** Any holder can be brought to give its slot back without a write. */
  lemma MakeRoom(conf: Settings, h: Past, g: Past, id: Id, q: Rid) returns (r: Past)
    requires Alone(conf, h, g, id) && At(h.state, q) && Holding(h.state.runs[q].phase)
    ensures Alone(conf, r, g, id) && r.state.rows == h.state.rows
    ensures r.state.slots == h.state.slots - {h.state.runs[q].id} && |r.state.runs| == |h.state.runs|
    ensures forall k :: 0 <= k < |h.state.runs| && k != q ==> r.state.runs[k] == h.state.runs[k]
  {
    if h.state.runs[q].phase.Reserved? {
      r := On(conf, h, g, id, NotMarked(q));
    } else {
      r := ComeThrough(conf, h, g, id, q);
      r := ClearOn(conf, r, g, id, q);
    }
  }

  /** A slot can be made free for a chosen start, whoever holds it. */
  lemma Room(conf: Settings, g: Past, id: Id, r: Rid) returns (h: Past)
    requires Inv(conf, g.state) && r < |g.state.runs| && g.state.runs[r] == Run(id, Picked)
    ensures Alone(conf, h, g, id) && h.state.rows == g.state.rows
    ensures r < |h.state.runs| && h.state.runs[r] == Run(id, Picked) && SlotFree(conf, h.state, id)
    ensures SlotFree(conf, g.state, id) ==> h == g
  {
    h := g;
    if !SlotFree(conf, g.state, id) {
      var other := id;
      if id !in g.state.slots {
        assert |g.state.slots| == |g.state.slots.Keys| > 0;
        other :| other in g.state.slots;
      }
      h := MakeRoom(conf, g, g, id, g.state.slots[other]);
      MapShrinks(g.state.slots, other);
    }
  }

  /** The row says that the job has been started, queued or has failed. */
  ghost predicate Restless(s: State, id: Id) {
    id in s.rows && (s.rows[id].status.Active? || s.rows[id].status.Queued? || s.rows[id].status.Failed?)
  }

  /** A run inside finishJob with an error to tell writes a failure. */
  lemma SaveRevives(conf: Settings, h: Past, g: Past, id: Id, r: Rid) returns (k: Past)
    requires Alone(conf, h, g, id) && At(h.state, r) && h.state.runs[r].id == id
    requires h.state.runs[r].phase.Saving? && h.state.runs[r].phase.how.Broke?
    ensures Alone(conf, k, g, id) && Restless(k.state, id)
  {
    k := On(conf, h, g, id, Save(r, true));
  }

  /** A live run can write the row and so undo a cancel or a pause. */
  lemma Revive(conf: Settings, g: Past, id: Id, r: Rid) returns (h: Past)
    requires Inv(conf, g.state) && At(g.state, r) && g.state.runs[r].id == id && Writing(g.state.runs[r].phase)
    ensures Alone(conf, h, g, id) && Restless(h.state, id)
  {
    h := g;
    if h.state.runs[r].phase.Picked? {
      h := Room(conf, g, id, r);
      h := On(conf, h, g, id, Acquire(r));
    }
    if h.state.runs[r].phase.Reserved? {
      h := On(conf, h, g, id, Marked(r));
    } else {
      h := ReviveLater(conf, h, g, id, r);
    }
  }

  /** An error to tell, about to be written. */
  predicate Ready(p: Phase) {
    p.Saving? && p.how.Broke?
  }

  /** How a run that may still write comes to an error to tell: a worker that has told
      another outcome may still panic. */
  function WayIn(p: Phase, q: Rid): Event {
    if p.Noting? then NoteWrite(q, false)
    else if p.Saving? then Save(q, false)
    else if p.Arming? then Arm(q)
    else if p.Settled? then Panic(q)
    else FinishRead(q, Broke)
  }

  function StepsIn(p: Phase): nat {
    if Ready(p) then 0
    else if p.Working? || p.Calling? then 1
    else if p.Noting? || p.Settled? then 2
    else 3
  }

  lemma WayInLeads(conf: Settings, s: State, q: Rid)
    requires At(s, q) && Writing(s.runs[q].phase) && CallerOk(s.runs[q].phase)
    requires var p := s.runs[q].phase; !p.Picked? && !p.Reserved? && !Ready(p)
    ensures var p := s.runs[q].phase; var e := WayIn(p, q);
            && Enabled(s, e) && Quiet(e) && Subject(e) == Some(q)
            && var t := PhaseAfter(conf, s, e);
               Writing(t) && !t.Picked? && !t.Reserved? && StepsIn(t) < StepsIn(p) && CallerOk(t)
  {
  }

  lemma {:induction false} ReviveLater(conf: Settings, h: Past, g: Past, id: Id, r: Rid) returns (k: Past)
    requires Alone(conf, h, g, id) && At(h.state, r) && h.state.runs[r].id == id && CallerOk(h.state.runs[r].phase)
    requires Writing(h.state.runs[r].phase) && !h.state.runs[r].phase.Picked? && !h.state.runs[r].phase.Reserved?
    ensures Alone(conf, k, g, id) && Restless(k.state, id)
    decreases StepsIn(h.state.runs[r].phase)
  {
    var p := h.state.runs[r].phase;
    if Ready(p) {
      k := SaveRevives(conf, h, g, id, r);
    } else {
      WayInLeads(conf, h.state, r);
      k := QuietOn(conf, h, g, id, WayIn(p, r), r);
      k := ReviveLater(conf, k, g, id, r);
    }
  }

  /** So can anybody else live. */
  lemma LiveRevives(conf: Settings, g: Past, id: Id) returns (h: Past)
    requires Inv(conf, g.state) && Live(g.state, id)
    ensures Alone(conf, h, g, id) && Restless(h.state, id)
  {
    if r :| 0 <= r < |g.state.runs| && g.state.runs[r].id == id && Writing(g.state.runs[r].phase) {
      h := Revive(conf, g, id, r);
    } else {
      var k :| FiringAt(g.state, id, k);
      h := On(conf, g, g, id, TimerWrite(k, true));
    }
  }

  ghost predicate Revives(conf: Settings, h: Past, g: Past, id: Id) {
    GoesOn(conf, h, g, id) && !CanceledIn(h.state, id)
  }

  lemma CancelUndone(conf: Settings, g: Past, id: Id) returns (h: Past)
    requires Inv(conf, g.state) && Live(g.state, id)
    ensures Revives(conf, h, g, id)
  {
    h := LiveRevives(conf, g, id);
    AloneGoesOn(conf, h, g, id);
  }

  /** A pause or choice that can end can be brought to its write, which undoes the
      cancel. */
  lemma PauseUndoes(conf: Settings, g: Past, id: Id) returns (h: Past)
    requires Inv(conf, g.state) && CanceledIn(g.state, id) && !Live(g.state, id) && PauseCanEnd(g.state, id)
    ensures Revives(conf, h, g, id)
  {
    var c :| PauseAt(g.state, id, c);
    var d := g.state.commands[c];
    assert CommandOk(g.state.rows, g.state.runs, d);
    h := g;
    if d.waits.Some? {
      h := WaitedFor(conf, g, id, d.waits.value);
    }
    h := PauseWrites(conf, h, g, id, c);
    AloneGoesOn(conf, h, g, id);
  }

  /** A run that can no longer write the row, its activation not failed, can be brought
      to close its done without a write. */
  lemma WaitedFor(conf: Settings, g: Past, id: Id, r: Rid) returns (h: Past)
    requires Inv(conf, g.state) && At(g.state, r)
    requires var p := g.state.runs[r].phase; !Writing(p) && !NeverActivated(p) && !p.Refused?
    ensures Alone(conf, h, g, id) && h.state.rows == g.state.rows && h.state.commands == g.state.commands
    ensures r < |h.state.runs| && h.state.runs[r].phase.Closed?
  {
    h := g;
    if Holding(g.state.runs[r].phase) {
      h := ComeThrough(conf, g, g, id, r);
    }
    h := ClearAndClose(conf, h, g, id, r);
  }

  lemma PauseWrites(conf: Settings, h: Past, g: Past, id: Id, c: nat) returns (k: Past)
    requires Alone(conf, h, g, id) && PauseAt(h.state, id, c) && id in h.state.rows
    requires DoneFor(h.state, c)
    ensures Alone(conf, k, g, id) && !CanceledIn(k.state, id)
  {
    if h.state.commands[c].order.Requeue? {
      k := On(conf, h, g, id, ChooseEnd(c));
    } else {
      k := On(conf, h, g, id, PauseEnd(c));
    }
  }

  /** Exactly: a canceled job stays canceled whatever happens short of a manual retry,
      if and only if, when the cancel is written, nobody live can write its row (no run,
      and no timer that read the row before), and no pause of the torrent or new choice
      of its files is under way that can still come to its write. A start already chosen
      but not yet at acquireSlot counts as live: start does not look at the row again. A
      pause waits on the same done as the cancel, and then writes without a look at the
      status. */
  lemma {:induction false} CancelHoldsIff(conf: Settings, g: Past, id: Id)
    requires Legal(conf, g) && CanceledIn(g.state, id)
    ensures (forall h :: !Revives(conf, h, g, id)) <==> !Live(g.state, id) && !PauseCanEnd(g.state, id)
  {
    SlotOwnership(conf, g);
    if Live(g.state, id) {
      var h := CancelUndone(conf, g, id);
      assert Revives(conf, h, g, id);
    } else if PauseCanEnd(g.state, id) {
      var h := PauseUndoes(conf, g, id);
      assert Revives(conf, h, g, id);
    } else {
      forall h
        ensures !Revives(conf, h, g, id)
      {
        if GoesOn(conf, h, g, id) {
          CanceledStays(conf, h, g, id);
        }
      }
    }
  }

  // ----- a pause -----

  /** Between g and h nobody but run r writes the job's row: no other command, no timer,
      no other run. */
  ghost predicate WrittenBy(conf: Settings, h: Past, g: Past, id: Id, r: Rid) {
    h == g || (h.Then? && WrittenBy(conf, h.past, g, id, r) && Enabled(h.past.state, h.event)
               && var w := Written(conf, h.past.state, h.event);
                  w.Some? && w.value.0 == id ==> Subject(h.event) == Some(r))
  }

  /** The row run r's finishJob read, and the outcome it had to tell. */
  datatype Finish = Finish(row: Row, how: Outcome)

  /** The last finishJob of run r between g and h whose write was stored. */
  ghost function Stored(conf: Settings, h: Past, g: Past, id: Id, r: Rid): Option<Finish>
    requires WrittenBy(conf, h, g, id, r)
  {
    if h == g then None
    else if h.event == Save(r, true) then
      var p := h.past.state.runs[r].phase; Some(Finish(p.row, p.how))
    else Stored(conf, h.past, g, id, r)
  }

  /** The row as run r's worker left it: active once it started, and otherwise what it
      noted last. */
  ghost function Left(conf: Settings, h: Past, g: Past, id: Id, r: Rid): Row
    requires WrittenBy(conf, h, g, id, r) && id in g.state.rows
  {
    if h == g then g.state.rows[id]
    else if h.event == NoteWrite(r, true) then h.past.state.runs[r].phase.row
    else if h.event == Marked(r) then Left(conf, h.past, g, id, r).(status := Active)
    else Left(conf, h.past, g, id, r)
  }

  /** A finishJob of run r came to nothing: its write failed, or it returned before. */
  ghost predicate Lost(h: Past, g: Past, r: Rid) {
    h != g && h.Then? && (h.event == Save(r, false) || h.event == Skip(r) || Lost(h.past, g, r))
  }

  /** At work or before. */
  predicate Early(p: Phase) {
    p.Picked? || p.Reserved? || p.Working? || p.Noting?
  }

  /** finishJob is over. */
  predicate Ended(p: Phase) {
    p.Arming? || p.Settled? || p.Recovered? || p.Cleared? || p.Closed?
  }

  /** What holds of the row all along. */
  ghost predicate PauseSoFar(conf: Settings, h: Past, g: Past, id: Id, r: Rid)
    requires WrittenBy(conf, h, g, id, r) && id in g.state.rows && r < |g.state.runs|
  {
    && r < |h.state.runs| && h.state.runs[r].id == id && id in h.state.rows
    && (Stored(conf, h, g, id, r).Some? ==> !Early(h.state.runs[r].phase))
    && (Ended(h.state.runs[r].phase) ==>
          Stored(conf, h, g, id, r).Some? || Lost(h, g, r) || Ended(g.state.runs[r].phase))
    && h.state.rows[id] == match Stored(conf, h, g, id, r)
                           case Some(f) => Settle(f.row, f.how, conf)
                           case None => Left(conf, h, g, id, r)
  }

  lemma EarlyStays(conf: Settings, s: State, e: Event, r: Rid)
    requires Enabled(s, e) && r < |s.runs| && !Early(s.runs[r].phase)
    ensures r < |RunsAfter(conf, s, e)| && !Early(RunsAfter(conf, s, e)[r].phase)
    ensures e != Marked(r) && (forall stored :: e != NoteWrite(r, stored))
  {
  }

  lemma EndsByFinish(conf: Settings, s: State, e: Event, r: Rid)
    requires Enabled(s, e) && r < |s.runs| && Ended(RunsAfter(conf, s, e)[r].phase) && !Ended(s.runs[r].phase)
    ensures e == Save(r, true) || e == Save(r, false) || e == Skip(r)
  {
  }

  /** Of a run's own steps these three write its row. */
  lemma OwnWrites(conf: Settings, s: State, e: Event, id: Id, r: Rid)
    requires Enabled(s, e) && r < |s.runs| && s.runs[r].id == id && id in s.rows
    requires var w := Written(conf, s, e); w.Some? && w.value.0 == id ==> Subject(e) == Some(r)
    ensures id in RowsAfter(conf, s, e)
    ensures var p := s.runs[r].phase;
            RowsAfter(conf, s, e)[id] ==
            if e == Save(r, true) then Settle(p.row, p.how, conf)
            else if e == NoteWrite(r, true) then p.row
            else if e == Marked(r) then s.rows[id].(status := Active)
            else s.rows[id]
  {
  }

  lemma {:induction false} PauseGoesOn(conf: Settings, h: Past, g: Past, id: Id, r: Rid)
    requires Legal(conf, h) && WrittenBy(conf, h, g, id, r)
    requires id in g.state.rows && r < |g.state.runs| && g.state.runs[r].id == id
    ensures PauseSoFar(conf, h, g, id, r)
  {
    if h == g {
    } else {
      PauseGoesOn(conf, h.past, g, id, r);
      var s, e := h.past.state, h.event;
      PhaseStep(conf, s, e, r);
      OwnWrites(conf, s, e, id, r);
      if !Early(s.runs[r].phase) {
        EarlyStays(conf, s, e, r);
      }
      if Ended(h.state.runs[r].phase) && !Ended(s.runs[r].phase) {
        EndsByFinish(conf, s, e, r);
      }
    }
  }

  lemma {:induction false} CommandKept(conf: Settings, h: Past, g: Past, id: Id, r: Rid, c: nat)
    requires Legal(conf, h) && WrittenBy(conf, h, g, id, r) && c < |g.state.commands|
    requires !g.state.commands[c].order.Choose?
    ensures c < |h.state.commands|
    ensures h.state.commands[c].over || h.state.commands[c] == g.state.commands[c]
  {
    if h == g {
    } else {
      CommandKept(conf, h.past, g, id, r, c);
      CommandMoves(h.past.state, h.event, c);
    }
  }

  /** Rows that were read and may yet be written back have their job's kind. */
  ghost predicate KindsOk(s: State) {
    && (forall r :: 0 <= r < |s.runs| ==> PhaseKind(s.rows, s.runs[r]))
    && (forall k :: 0 <= k < |s.firings| ==>
          s.firings[k].id in s.rows && s.firings[k].row.kind == s.rows[s.firings[k].id].kind)
  }

  predicate PhaseKind(rows: map<Id, Row>, run: Run) {
    run.phase.Noting? || run.phase.Saving? ==> run.id in rows && run.phase.row.kind == rows[run.id].kind
  }

  lemma KindKept(conf: Settings, s: State, e: Event, id: Id)
    requires Enabled(s, e) && KindsOk(s) && id in s.rows
    ensures id in RowsAfter(conf, s, e) && RowsAfter(conf, s, e)[id].kind == s.rows[id].kind
  {
    if Subject(e).Some? {
      assert PhaseKind(s.rows, s.runs[Subject(e).value]);
    }
  }

  lemma RunKindKept(conf: Settings, s: State, e: Event, r: nat)
    requires Enabled(s, e) && KindsOk(s) && r < |RunsAfter(conf, s, e)|
    ensures PhaseKind(RowsAfter(conf, s, e), RunsAfter(conf, s, e)[r])
  {
    if r < |s.runs| {
      PhaseStep(conf, s, e, r);
      assert PhaseKind(s.rows, s.runs[r]);
      if s.runs[r].id in s.rows {
        KindKept(conf, s, e, s.runs[r].id);
      }
    }
  }

  lemma KindsStep(conf: Settings, s: State, e: Event)
    requires Enabled(s, e) && KindsOk(s)
    ensures KindsOk(Next(conf, s, e))
  {
    var t := Next(conf, s, e);
    forall r | 0 <= r < |t.runs|
      ensures PhaseKind(t.rows, t.runs[r])
    {
      RunKindKept(conf, s, e, r);
    }
    forall k | 0 <= k < |t.firings|
      ensures t.firings[k].id in t.rows && t.firings[k].row.kind == t.rows[t.firings[k].id].kind
    {
      if t.firings[k].id in s.rows {
        KindKept(conf, s, e, t.firings[k].id);
      }
    }
  }

  lemma {:induction false} KindsHold(conf: Settings, h: Past)
    requires Legal(conf, h)
    ensures KindsOk(h.state)
  {
    if h.Begin? {
    } else {
      KindsHold(conf, h.past);
      KindsStep(conf, h.past.state, h.event);
    }
  }

  /** A job stays of the kind it was created with, whatever stale row is written back. */
  lemma {:induction false} KindSince(conf: Settings, h: Past, g: Past, id: Id)
    requires Legal(conf, h) && Extends(h, g) && id in g.state.rows
    ensures id in h.state.rows && h.state.rows[id].kind == g.state.rows[id].kind
  {
    if h == g {
    } else {
      KindSince(conf, h.past, g, id);
      KindsHold(conf, h.past);
      KindKept(conf, h.past.state, h.event, id);
    }
  }

  lemma {:induction false} WrittenExtends(conf: Settings, h: Past, g: Past, id: Id, r: Rid)
    requires WrittenBy(conf, h, g, id, r)
    ensures Extends(h, g)
  {
    if h == g {
    } else {
      WrittenExtends(conf, h.past, g, id, r);
    }
  }

  /** g ends with a pause's rt.cancel(), and the pause waits for run r. */
  ghost predicate PauseBegan(conf: Settings, g: Past, id: Id, r: Rid) {
    Legal(conf, g) && g.Then? && g.event == PauseBegin(id) && SlotOf(g.past.state, id) == Some(r)
  }

  /** Command c is a pause that can end, and writes nothing when it does. */
  predicate ReturnsQuietly(conf: Settings, s: State, c: nat) {
    Enabled(s, PauseEnd(c)) && Written(conf, s, PauseEnd(c)).None?
  }

  /** Run r is over, and the row is its last stored outcome, or as its worker left it. */
  ghost predicate FinishedBy(conf: Settings, h: Past, g: Past, id: Id, r: Rid)
    requires WrittenBy(conf, h, g, id, r) && id in g.state.rows
  {
    && r < |g.state.runs| && r < |h.state.runs| && h.state.runs[r].phase.Closed? && id in h.state.rows
    && match Stored(conf, h, g, id, r)
       case Some(f) =>
         && h.state.rows[id] == Settle(f.row, f.how, conf)
         && (h.state.rows[id].status.Paused? <==> f.how.Stopped?)
         && (h.state.rows[id].status.Completed? <==> f.how.Complete?)
       case None =>
         && h.state.rows[id] == Left(conf, h, g, id, r)
         && (Lost(h, g, r) || Ended(g.state.runs[r].phase))
  }

  /** A pause of a job that is not a torrent, from its rt.cancel() (g's last event) to its
      return after h, while nobody but the run it waits for writes the job's row. The run
      is closed and the pause writes nothing. If a finishJob of the run was stored, the
      row is the last one's outcome, so paused exactly if the worker was stopped,
      completed exactly if it completed meanwhile. If none was, the row is as the worker
      left it; and this is so only if a finishJob came to nothing or was over when the
      pause began. */
  lemma PauseLeavesOutcome(conf: Settings, h: Past, g: Past, id: Id, r: Rid)
    requires PauseBegan(conf, g, id, r) && Legal(conf, h) && WrittenBy(conf, h, g, id, r)
    requires id in g.state.rows && !g.state.rows[id].kind.Torrent?
    requires DoneFor(h.state, |g.past.state.commands|)
    ensures ReturnsQuietly(conf, h.state, |g.past.state.commands|)
    ensures FinishedBy(conf, h, g, id, r)
  {
    var c := |g.past.state.commands|;
    PauseBegun(conf, g, id, r);
    CommandKept(conf, h, g, id, r, c);
    WrittenExtends(conf, h, g, id, r);
    KindSince(conf, h, g, id);
    PauseReturns(conf, h.state, id, r, c);
    PauseGoesOn(conf, h, g, id, r);
  }

  lemma PauseBegun(conf: Settings, g: Past, id: Id, r: Rid)
    requires PauseBegan(conf, g, id, r)
    ensures var c := |g.past.state.commands|;
            c < |g.state.commands| && g.state.commands[c] == Command(id, Pause, Some(r), false)
    ensures r < |g.state.runs| && g.state.runs[r].id == id
  {
    SlotOwnership(conf, g);
    assert CommandOk(g.state.rows, g.state.runs, g.state.commands[|g.past.state.commands|]);
  }

  lemma PauseReturns(conf: Settings, s: State, id: Id, r: Rid, c: nat)
    requires DoneFor(s, c) && id in s.rows && !s.rows[id].kind.Torrent?
    requires s.commands[c].id == id && s.commands[c].order.Pause? && s.commands[c].waits == Some(r)
    ensures r < |s.runs| && s.runs[r].phase.Closed? && ReturnsQuietly(conf, s, c)
  {
  }

  // ----- what a whole-row write writes -----

  predicate ReadsRow(e: Event, r: Rid) {
    e == NoteRead(r) || (e.FinishRead? && e.r == r)
  }

  /** The row of its job as run r last read it. */
  ghost function ReadRow(conf: Settings, h: Past, r: Rid): Option<Row>
    requires Legal(conf, h)
  {
    match h
    case Begin(_) => None
    case Then(g, e, _) =>
      if ReadsRow(e, r) then Some(g.state.rows[g.state.runs[r].id]) else ReadRow(conf, g, r)
  }

  /** The outcome run r last called finishJob with. */
  ghost function Told(h: Past, r: Rid): Option<Outcome> {
    match h
    case Begin(_) => None
    case Then(g, e, _) => if e.FinishRead? && e.r == r then Some(e.how) else Told(g, r)
  }

  lemma PhaseRow(conf: Settings, s: State, e: Event, r: Rid)
    requires Enabled(s, e) && Subject(e) == Some(r)
    ensures var p, q := s.runs[r].phase, PhaseAfter(conf, s, e);
            && (q.Noting? ==> ReadsRow(e, r) && q.row == s.rows[s.runs[r].id])
            && (q.Saving? ==> e == FinishRead(r, q.how) && q.row == s.rows[s.runs[r].id])
  {
  }

  /** The row a run is about to write back is the one it read last, with the outcome it was
      told: what others wrote since is lost, and nothing else gets in. */
  lemma {:induction false} RowIsAsRead(conf: Settings, h: Past, r: Rid)
    requires Legal(conf, h) && r < |h.state.runs|
    ensures h.state.runs[r].phase.Noting? || h.state.runs[r].phase.Saving? ==>
              ReadRow(conf, h, r) == Some(h.state.runs[r].phase.row)
    ensures h.state.runs[r].phase.Saving? ==> Told(h, r) == Some(h.state.runs[r].phase.how)
  {
    if h.Begin? {
    } else if r < |h.past.state.runs| {
      RowIsAsRead(conf, h.past, r);
      PhaseStep(conf, h.past.state, h.event, r);
      if Subject(h.event) == Some(r) {
        PhaseRow(conf, h.past.state, h.event, r);
      }
    }
  }

  /** The row the k-th timer found failed. */
  ghost function FoundRow(h: Past, k: nat): Option<Row> {
    match h
    case Begin(_) => None
    case Then(g, e, t) =>
      if e.TimerRead? && |g.state.firings| == k < |t.firings| && e.id in g.state.rows then Some(g.state.rows[e.id])
      else FoundRow(g, k)
  }

  lemma FiringMoves(s: State, e: Event, k: nat)
    requires Enabled(s, e) && k < |FiringsAfter(s, e)|
    ensures if k < |s.firings| then FiringsAfter(s, e)[k].row == s.firings[k].row
            else e.TimerRead? && k == |s.firings| && e.id in s.rows && FiringsAfter(s, e)[k].row == s.rows[e.id]
  {
  }

  lemma {:induction false} FiringIsAsRead(conf: Settings, h: Past, k: nat)
    requires Legal(conf, h) && k < |h.state.firings|
    ensures FoundRow(h, k) == Some(h.state.firings[k].row)
  {
    if h.Begin? {
    } else {
      FiringMoves(h.past.state, h.event, k);
      if k < |h.past.state.firings| {
        FiringIsAsRead(conf, h.past, k);
      }
    }
  }

  // ----- a failed activation writes late -----

  /** The job's worker is running. */
  predicate AtWork(p: Phase) {
    p.Working? || p.Noting?
  }

  ghost predicate WorkerOf(s: State, id: Id, q: int) {
    0 <= q < |s.runs| && s.runs[q].id == id && AtWork(s.runs[q].phase)
  }

  /** No row says failed while a worker of its job runs. */
  ghost predicate Honest(s: State) {
    forall q :: 0 <= q < |s.runs| && AtWork(s.runs[q].phase) ==>
                  s.runs[q].id in s.rows && !s.rows[s.runs[q].id].status.Failed?
  }

  /** Nor does a row a worker is about to write back. */
  ghost predicate NotesHonest(s: State) {
    forall q :: 0 <= q < |s.runs| && s.runs[q].phase.Noting? ==> !s.runs[q].phase.row.status.Failed?
  }

  /** The finishJob of a failed activation is stored over the row of a job whose next
      worker already runs. */
  ghost predicate LateOver(s: State, e: Event) {
    && e.Save? && e.stored && e.r < |s.runs| && s.runs[e.r].phase.Saving? && s.runs[e.r].phase.who.Late?
    && exists q :: WorkerOf(s, s.runs[e.r].id, q)
  }

  ghost predicate AlwaysHonest(h: Past) {
    Honest(h.state) && (h.Then? ==> AlwaysHonest(h.past))
  }

  ghost predicate NeverLateOver(h: Past) {
    h.Then? ==> NeverLateOver(h.past) && !LateOver(h.past.state, h.event)
  }

  lemma NotesStep(conf: Settings, s: State, e: Event)
    requires Enabled(s, e) && Honest(s) && NotesHonest(s)
    ensures NotesHonest(Next(conf, s, e))
  {
    var t := Next(conf, s, e);
    forall q | 0 <= q < |t.runs| && t.runs[q].phase.Noting?
      ensures !t.runs[q].phase.row.status.Failed?
    {
      if q < |s.runs| {
        PhaseStep(conf, s, e, q);
      }
    }
  }

  lemma OneHolder(conf: Settings, s: State, q: nat, r: nat)
    requires Inv(conf, s) && q < |s.runs| && r < |s.runs| && s.runs[q].id == s.runs[r].id
    requires Holding(s.runs[q].phase) && Holding(s.runs[r].phase)
    ensures q == r
  {
  }

  /** Only a late save can write failed over the row of a worker that goes on. */
  lemma HonestRow(conf: Settings, s: State, e: Event, q: nat)
    requires Inv(conf, s) && Enabled(s, e) && Honest(s) && NotesHonest(s)
    requires q < |s.runs| && AtWork(s.runs[q].phase) && AtWork(RunsAfter(conf, s, e)[q].phase)
    ensures s.runs[q].id in RowsAfter(conf, s, e)
    ensures RowsAfter(conf, s, e)[s.runs[q].id].status.Failed? ==> LateOver(s, e)
  {
    var id := s.runs[q].id;
    if e.Save? && s.runs[e.r].id == id {
      if s.runs[e.r].phase.who.Late? {
        assert WorkerOf(s, s.runs[e.r].id, q);
      } else {
        OneHolder(conf, s, q, e.r);
      }
    } else if e.NoteWrite? && s.runs[e.r].id == id {
      OneHolder(conf, s, q, e.r);
    }
  }

  lemma StartsWork(conf: Settings, s: State, e: Event, q: nat)
    requires Enabled(s, e) && q < |RunsAfter(conf, s, e)| && AtWork(RunsAfter(conf, s, e)[q].phase)
    ensures q < |s.runs| && (AtWork(s.runs[q].phase) || e == Marked(q))
  {
    if Subject(e).Some? {
      assert s.runs[q].phase == RunsAfter(conf, s, e)[q].phase || Subject(e) == Some(q);
    }
  }

  lemma LateOverShows(conf: Settings, s: State, e: Event)
    requires Inv(conf, s) && Enabled(s, e) && LateOver(s, e)
    ensures !Honest(Next(conf, s, e))
  {
    var t := Next(conf, s, e);
    var q :| WorkerOf(s, s.runs[e.r].id, q);
    PhaseStep(conf, s, e, q);
    assert t.runs[q] == s.runs[q];
    assert CallerOk(s.runs[e.r].phase);
  }

  lemma HonestStep(conf: Settings, s: State, e: Event)
    requires Inv(conf, s) && Enabled(s, e) && Honest(s) && NotesHonest(s) && !LateOver(s, e)
    ensures Honest(Next(conf, s, e))
  {
    var t := Next(conf, s, e);
    forall q | 0 <= q < |t.runs| && AtWork(t.runs[q].phase)
      ensures t.runs[q].id in t.rows && !t.rows[t.runs[q].id].status.Failed?
    {
      StartsWork(conf, s, e, q);
      PhaseStep(conf, s, e, q);
      if AtWork(s.runs[q].phase) {
        HonestRow(conf, s, e, q);
      }
    }
  }

  lemma {:induction false} NotesAreHonest(conf: Settings, h: Past)
    requires Legal(conf, h) && AlwaysHonest(h)
    ensures NotesHonest(h.state)
  {
    match h
    case Begin(_) =>
    case Then(g, e, _) =>
      NotesAreHonest(conf, g);
      NotesStep(conf, g.state, e);
  }

  /** Exactly: the row of a job never says failed while a worker of it runs, at any
      moment, if and only if no failed activation's write was stored while the job's
      next worker was running. markActive gives the slot back before it records the
      failure, so such a worker can have started in between. */
  lemma {:induction false} FailedWhileRunningIff(conf: Settings, h: Past)
    requires Legal(conf, h)
    ensures AlwaysHonest(h) <==> NeverLateOver(h)
  {
    match h
    case Begin(_) =>
    case Then(g, e, _) =>
      FailedWhileRunningIff(conf, g);
      if AlwaysHonest(g) {
        SlotOwnership(conf, g);
        NotesAreHonest(conf, g);
        if LateOver(g.state, e) {
          LateOverShows(conf, g.state, e);
        } else {
          HonestStep(conf, g.state, e);
        }
      }
  }
}
