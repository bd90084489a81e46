/** The retry count, the timers finishJob arms, and what a fired timer finds
    (lifecycle.go). */
module RetryBudget {
  import opened Options
  import opened Histories
  import opened Jobs
  import opened Lifecycle
  import opened Handshake

  // ----- the count and the timers -----

  function Owes(run: Run, id: Id): int {
    if run.id == id && run.phase.Arming? then 1 else 0
  }

  /** Timers of the job that finishJob has counted and not yet armed. */
  function Owed(runs: seq<Run>, id: Id): int {
    if runs == [] then 0 else Owes(runs[0], id) + Owed(runs[1..], id)
  }

  lemma {:induction false} OwedUpdate(runs: seq<Run>, r: nat, run: Run, id: Id)
    requires r < |runs|
    ensures Owed(runs[r := run], id) == Owed(runs, id) - Owes(runs[r], id) + Owes(run, id)
  {
    if r == 0 {
      assert runs[0 := run][1..] == runs[1..];
    } else {
      assert runs[r := run][1..] == runs[1..][r - 1 := run];
      OwedUpdate(runs[1..], r - 1, run, id);
    }
  }

  lemma {:induction false} OwedSnoc(runs: seq<Run>, run: Run, id: Id)
    ensures Owed(runs + [run], id) == Owed(runs, id) + Owes(run, id)
  {
    if runs == [] {
      assert runs + [run] == [run];
    } else {
      assert (runs + [run])[1..] == runs[1..] + [run];
      OwedSnoc(runs[1..], run, id);
    }
  }

  lemma {:induction false} NothingOwed(runs: seq<Run>, id: Id)
    requires forall r :: 0 <= r < |runs| ==> runs[r].id != id
    ensures Owed(runs, id) == 0
  {
    if runs == [] {
    } else {
      NothingOwed(runs[1..], id);
    }
  }

  /** The timers armed or just about to be, since the job last completed or was
      retried by hand. */
  function Counted(s: State, id: Id): int {
    Armed(s, id) + Owed(s.runs, id)
  }

  ghost predicate Balanced(s: State) {
    forall id :: id in s.rows ==> s.rows[id].retries == Counted(s, id)
  }

  ghost predicate AlwaysBalanced(h: Past) {
    Balanced(h.state) && (h.Then? ==> AlwaysBalanced(h.past))
  }

  /** The row still has the retry count that this write's read saw. */
  predicate CountAsRead(s: State, id: Id, read: Row)
    requires id in s.rows
  {
    s.rows[id].retries == read.retries
  }

  /** A write that does not disturb the count: one that arms a timer is stored; a
      whole-row write finds the count it read; the count starts afresh only while no
      timer is counted and not yet armed. */
  predicate Clean(conf: Settings, s: State, e: Event)
    requires Enabled(s, e)
  {
    match e
    case Save(r, stored) =>
      var run := s.runs[r];
      if !stored then !WillArm(conf, run.phase)
      else if run.phase.how.Complete? then Owed(s.runs, run.id) == 0
      else CountAsRead(s, run.id, run.phase.row)
    case NoteWrite(r, stored) => stored ==> CountAsRead(s, s.runs[r].id, s.runs[r].phase.row)
    case TimerWrite(k, stored) => stored ==> CountAsRead(s, s.firings[k].id, s.firings[k].row)
    case Retry(id) => Owed(s.runs, id) == 0
    case _ => true
  }

  ghost predicate AlwaysClean(conf: Settings, h: Past)
    requires Legal(conf, h)
  {
    h.Then? ==> AlwaysClean(conf, h.past) && Clean(conf, h.past.state, h.event)
  }

  lemma OwedStep(conf: Settings, s: State, e: Event, id: Id)
    requires Enabled(s, e)
    ensures var runs := RunsAfter(conf, s, e);
            Owed(runs, id) == Owed(s.runs, id) +
                              (if e.Save? && s.runs[e.r].id == id && WillArm(conf, s.runs[e.r].phase) then 1
                               else if e.Arm? && s.runs[e.r].id == id then -1
                               else 0)
  {
    if Subject(e).Some? {
      var r := Subject(e).value;
      OwedUpdate(s.runs, r, s.runs[r].(phase := PhaseAfter(conf, s, e)), id);
    } else if e.Pick? {
      OwedSnoc(s.runs, Run(e.id, Picked), id);
    }
  }

  /** The job whose count a step can disturb. */
  function Concerns(s: State, e: Event): Option<Id>
    requires Enabled(s, e)
  {
    match e
    case Save(r, _) => Some(s.runs[r].id)
    case NoteWrite(r, _) => Some(s.runs[r].id)
    case TimerWrite(k, _) => Some(s.firings[k].id)
    case Retry(id) => Some(id)
    case _ => None
  }

  lemma RetriesKept(conf: Settings, s: State, e: Event, id: Id)
    requires Enabled(s, e) && id in s.rows && Concerns(s, e) != Some(id)
    ensures id in RowsAfter(conf, s, e) && RowsAfter(conf, s, e)[id].retries == s.rows[id].retries
  {
  }

  lemma ArmedKept(s: State, e: Event, id: Id)
    requires Enabled(s, e) && id in s.rows && Concerns(s, e) != Some(id)
    ensures var armed := ArmedAfter(s, e);
            (if id in armed then armed[id] else 0) == Armed(s, id) + (if e.Arm? && s.runs[e.r].id == id then 1 else 0)
  {
  }

  lemma CountStep(conf: Settings, s: State, e: Event, id: Id)
    requires Enabled(s, e) && id in s.rows && s.rows[id].retries == Counted(s, id)
    requires Concerns(s, e) != Some(id)
    ensures id in RowsAfter(conf, s, e) && RowsAfter(conf, s, e)[id].retries == Counted(Next(conf, s, e), id)
  {
    OwedStep(conf, s, e, id);
    RetriesKept(conf, s, e, id);
    ArmedKept(s, e, id);
  }

  lemma CountChanges(conf: Settings, s: State, e: Event, id: Id)
    requires Enabled(s, e) && id in s.rows && s.rows[id].retries == Counted(s, id)
    requires Concerns(s, e) == Some(id)
    ensures RowsAfter(conf, s, e)[id].retries == Counted(Next(conf, s, e), id) <==> Clean(conf, s, e)
  {
    OwedStep(conf, s, e, id);
  }

  lemma CountBegins(conf: Settings, s: State, e: Event, id: Id)
    requires Inv(conf, s) && Enabled(s, e) && id !in s.rows && id in RowsAfter(conf, s, e)
    ensures RowsAfter(conf, s, e)[id].retries == Counted(Next(conf, s, e), id)
  {
    assert e.Create? && e.id == id;
    NothingOwed(s.runs, id);
  }

  lemma BalanceStep(conf: Settings, s: State, e: Event)
    requires Inv(conf, s) && Enabled(s, e) && Balanced(s)
    ensures Balanced(Next(conf, s, e)) <==> Clean(conf, s, e)
  {
    RowsStay(conf, s, e);
    var who := Concerns(s, e);
    forall id | id in RowsAfter(conf, s, e) && who != Some(id)
      ensures RowsAfter(conf, s, e)[id].retries == Counted(Next(conf, s, e), id)
    {
      if id in s.rows {
        CountStep(conf, s, e, id);
      } else {
        CountBegins(conf, s, e, id);
      }
    }
    if who.Some? {
      CountChanges(conf, s, e, who.value);
    }
  }

  /** Exactly: the stored retry count equals the timers counted since the last
      completion or manual retry, at every moment, if and only if every write was a
      clean one. finishJob ignores the error of its write, and nothing joins its read
      to its write. */
  lemma {:induction false} RetriesAreTimersIff(conf: Settings, h: Past)
    requires Legal(conf, h)
    ensures AlwaysBalanced(h) <==> AlwaysClean(conf, h)
  {
    match h
    case Begin(_) =>
    case Then(g, e, _) =>
      RetriesAreTimersIff(conf, g);
      if AlwaysBalanced(g) {
        SlotOwnership(conf, g);
        BalanceStep(conf, g.state, e);
      }
  }

  // ----- the budget -----

  function Budget(conf: Settings): nat {
    if conf.autoRetry && conf.maxAttempts > 0 then conf.maxAttempts else 0
  }

  predicate WithinBudget(row: Row, most: nat) {
    0 <= row.retries <= most
  }

  ghost predicate RowsWithin(rows: map<Id, Row>, most: nat) {
    forall id :: id in rows ==> WithinBudget(rows[id], most)
  }

  /** So are the rows that were read and may yet be written back. */
  ghost predicate AllWithin(s: State, most: nat) {
    && RowsWithin(s.rows, most)
    && (forall r :: 0 <= r < |s.runs| ==> PhaseWithin(s.runs[r].phase, most))
    && (forall k :: 0 <= k < |s.firings| ==> WithinBudget(s.firings[k].row, most))
  }

  predicate PhaseWithin(p: Phase, most: nat) {
    p.Noting? || p.Saving? ==> WithinBudget(p.row, most)
  }

  lemma WrittenWithin(conf: Settings, s: State, e: Event, most: nat)
    requires Enabled(s, e) && AllWithin(s, most) && most >= Budget(conf)
    ensures Written(conf, s, e).Some? ==> WithinBudget(Written(conf, s, e).value.1, most)
  {
    if Subject(e).Some? {
      assert PhaseWithin(s.runs[Subject(e).value].phase, most);
    }
  }

  lemma BudgetStep(conf: Settings, s: State, e: Event, most: nat)
    requires Enabled(s, e) && AllWithin(s, most) && most >= Budget(conf)
    ensures AllWithin(Next(conf, s, e), most)
  {
    var t := Next(conf, s, e);
    WrittenWithin(conf, s, e, most);
    forall r | 0 <= r < |t.runs|
      ensures PhaseWithin(t.runs[r].phase, most)
    {
      if r < |s.runs| {
        PhaseStep(conf, s, e, r);
        assert PhaseWithin(s.runs[r].phase, most);
      }
    }
  }

  /** No stored count ever exceeds the configured maximum, or the largest count the table
      had when the daemon started, if that is more; over a table without counts none is
      above zero while auto-retry is off. */
  lemma {:induction false} RetriesWithinBudget(conf: Settings, h: Past, most: nat)
    requires Legal(conf, h) && most >= Budget(conf)
    requires RowsWithin(Start(h).rows, most)
    ensures AllWithin(h.state, most)
  {
    if h.Begin? {
    } else {
      RetriesWithinBudget(conf, h.past, most);
      BudgetStep(conf, h.past.state, h.event, most);
    }
  }

  // ----- a failure is retried -----

  /** What a stored finish comes to: completed and the count back at zero, paused, or
      failed; and a timer follows exactly after an error, with auto-retry on and the count
      below the maximum, which then counts one more. */
  lemma FinishIff(conf: Settings, s: State, r: Rid)
    requires Enabled(s, Save(r, true))
    ensures var p := s.runs[r].phase; var t := Next(conf, s, Save(r, true)); var id := s.runs[r].id;
            var again := p.how.Broke? && conf.autoRetry && p.row.retries < conf.maxAttempts;
            && (t.runs[r].phase.Arming? <==> again)
            && id in t.rows
            && t.rows[id] == Row(p.row.kind,
                                 match p.how
                                 case Complete => Completed
                                 case Stopped => Paused
                                 case Broke => Failed
                                 case Ended => Failed,
                                 if p.how.Complete? then 0 else p.row.retries + if again then 1 else 0)
            && t.rows == s.rows[id := t.rows[id]]
  {
  }

  lemma ArmedTimer(conf: Settings, h: Past, g: Past, id: Id, r: Rid) returns (k: Past)
    requires Alone(conf, h, g, id) && At(h.state, r) && h.state.runs[r].id == id && h.state.runs[r].phase.Arming?
    ensures Alone(conf, k, g, id) && id in k.state.timers && k.state.rows == h.state.rows
  {
    k := On(conf, h, g, id, Arm(r));
  }

  lemma FiredTimer(conf: Settings, h: Past, g: Past, id: Id) returns (k: Past)
    requires Alone(conf, h, g, id) && id in h.state.timers && id in h.state.rows && h.state.rows[id].status.Failed?
    ensures Alone(conf, k, g, id) && k.state.rows == h.state.rows
    ensures k.state.firings == h.state.firings + [Firing(id, h.state.rows[id], false)]
  {
    k := On(conf, h, g, id, TimerRead(id));
  }

  lemma TimerQueues(conf: Settings, h: Past, g: Past, id: Id, k: nat, row: Row) returns (r: Past)
    requires Alone(conf, h, g, id) && k < |h.state.firings| && h.state.firings[k] == Firing(id, row, false)
    requires id in h.state.rows
    ensures Alone(conf, r, g, id) && r.state.rows == h.state.rows[id := row.(status := Queued)]
  {
    r := On(conf, h, g, id, TimerWrite(k, true));
  }

  /** g ends with the stored finish of run r, which had an error to tell and a retry left. */
  ghost predicate FailedOnce(conf: Settings, g: Past, r: Rid) {
    && Legal(conf, g) && g.Then? && g.event == Save(r, true) && g.past.state.runs[r].phase.how.Broke?
    && conf.autoRetry && g.past.state.runs[r].phase.row.retries < conf.maxAttempts
  }

  lemma FailureArms(conf: Settings, g: Past, r: Rid)
    requires FailedOnce(conf, g, r)
    ensures var id := g.past.state.runs[r].id; var row := g.past.state.runs[r].phase.row;
            && r < |g.state.runs| && g.state.runs[r].id == id && g.state.runs[r].phase.Arming?
            && g.state.rows == g.past.state.rows[id := Row(row.kind, Failed, row.retries + 1)]
  {
    FinishIff(conf, g.past.state, r);
  }

  /** Every failure below the maximum comes to its retry: once it is stored, its timer can
      be armed and fire, and then the job is queued again with one more retry counted. */
  lemma FailureComesBack(conf: Settings, g: Past, r: Rid) returns (h: Past)
    requires FailedOnce(conf, g, r)
    ensures var id := g.past.state.runs[r].id; var row := g.past.state.runs[r].phase.row;
            && Alone(conf, h, g, id)
            && h.state.rows == g.past.state.rows[id := Row(row.kind, Queued, row.retries + 1)]
  {
    var id, row := g.past.state.runs[r].id, g.past.state.runs[r].phase.row;
    FailureArms(conf, g, r);
    h := RetryComes(conf, g, id, r, Row(row.kind, Failed, row.retries + 1));
  }

  lemma RetryComes(conf: Settings, g: Past, id: Id, r: Rid, row: Row) returns (h: Past)
    requires r < |g.state.runs| && g.state.runs[r].id == id && g.state.runs[r].phase.Arming?
    requires id in g.state.rows && g.state.rows[id] == row && row.status.Failed?
    ensures Alone(conf, h, g, id) && h.state.rows == g.state.rows[id := row.(status := Queued)]
  {
    h := ArmedTimer(conf, g, g, id, r);
    h := FiredTimer(conf, h, g, id);
    h := TimerQueues(conf, h, g, id, |h.state.firings| - 1, row);
  }

  // ----- what a fired timer finds -----

  /** The pause at the end of command c writes the row. */
  predicate PausesRow(s: State, c: nat, id: Id) {
    c < |s.commands| && s.commands[c].id == id && id in s.rows
    && (s.rows[id].kind.Torrent? || s.commands[c].order.Choose?)
  }

  /** A user's command on the job, or another timer's write to it. */
  ghost predicate Intrudes(s: State, e: Event, id: Id, k: nat) {
    || e == Resume(id) || e == Retry(id)
    || (e.CancelEnd? && e.c < |s.commands| && s.commands[e.c].id == id)
    || (e.ChooseEnd? && e.c < |s.commands| && s.commands[e.c].id == id)
    || (e.PauseEnd? && PausesRow(s, e.c, id))
    || (e.TimerWrite? && e.stored && e.k != k && e.k < |s.firings| && s.firings[e.k].id == id)
  }

  ghost predicate Undisturbed(h: Past, g: Past, id: Id, k: nat) {
    h == g || (h.Then? && Undisturbed(h.past, g, id, k) && !Intrudes(h.past.state, h.event, id, k))
  }

  /** The row has been the one read, at every moment since. */
  ghost predicate AsReadSince(h: Past, g: Past, id: Id, row: Row) {
    id in h.state.rows && h.state.rows[id] == row && (h == g || (h.Then? && AsReadSince(h.past, g, id, row)))
  }

  /** No run of the job is about that may still write its row. */
  ghost predicate NoRunLive(s: State, id: Id) {
    forall r :: 0 <= r < |s.runs| && s.runs[r].id == id ==> !Writing(s.runs[r].phase)
  }

  /** Timer k of the job has read the row as failed and not yet written it. */
  ghost predicate Pending(s: State, id: Id, k: nat) {
    FiringAt(s, id, k) && s.firings[k].row.status.Failed?
  }

  lemma StaysUnlive(conf: Settings, s: State, e: Event, id: Id)
    requires Enabled(s, e) && NoRunLive(s, id) && id in s.rows && !s.rows[id].status.Queued?
    ensures NoRunLive(Next(conf, s, e), id)
  {
    var t := Next(conf, s, e);
    forall r | 0 <= r < |t.runs| && t.runs[r].id == id
      ensures !Writing(t.runs[r].phase)
    {
      if r < |s.runs| {
        PhaseStep(conf, s, e, r);
      }
    }
  }

  lemma PendingStep(conf: Settings, s: State, e: Event, id: Id, k: nat)
    requires Enabled(s, e) && k < |s.firings| && Pending(Next(conf, s, e), id, k)
    ensures Pending(s, id, k) && Next(conf, s, e).firings[k] == s.firings[k]
    ensures !(e.TimerWrite? && e.k == k)
  {
  }

  lemma RunsLeaveAlone(conf: Settings, s: State, e: Event, id: Id)
    requires Enabled(s, e) && Subject(e).Some? && NoRunLive(s, id) && id in s.rows
    ensures id in RowsAfter(conf, s, e) && RowsAfter(conf, s, e)[id] == s.rows[id]
  {
    var r := Subject(e).value;
    assert s.runs[r].id == id ==> !Writing(s.runs[r].phase);
  }

  lemma OthersOnFailed(conf: Settings, s: State, e: Event, id: Id, k: nat)
    requires Enabled(s, e) && Subject(e).None? && id in s.rows && s.rows[id].status.Failed?
    requires !(e.TimerWrite? && e.k == k)
    ensures id in RowsAfter(conf, s, e)
    ensures RowsAfter(conf, s, e)[id] == s.rows[id] <==> !Intrudes(s, e, id, k)
  {
  }

  /** While no run is live, only an intrusion changes a failed row, and every one does. */
  lemma FailedRowStep(conf: Settings, s: State, e: Event, id: Id, k: nat)
    requires Enabled(s, e) && NoRunLive(s, id) && id in s.rows && s.rows[id].status.Failed?
    requires !(e.TimerWrite? && e.k == k)
    ensures id in RowsAfter(conf, s, e)
    ensures RowsAfter(conf, s, e)[id] == s.rows[id] <==> !Intrudes(s, e, id, k)
  {
    if Subject(e).Some? {
      RunsLeaveAlone(conf, s, e, id);
    } else {
      OthersOnFailed(conf, s, e, id, k);
    }
  }

  lemma {:induction false} PendingSince(conf: Settings, h: Past, g: Past, id: Id, k: nat)
    requires Legal(conf, h) && Extends(h, g) && k < |g.state.firings| && Pending(h.state, id, k)
    ensures Pending(g.state, id, k) && h.state.firings[k] == g.state.firings[k]
    ensures h != g ==> k < |h.past.state.firings| && Pending(h.past.state, id, k)
  {
    if h == g {
    } else {
      FiringsGrow(conf, h.past, g);
      PendingStep(conf, h.past.state, h.event, id, k);
      PendingSince(conf, h.past, g, id, k);
    }
  }

  lemma {:induction false} FiringsGrow(conf: Settings, h: Past, g: Past)
    requires Legal(conf, h) && Extends(h, g)
    ensures |g.state.firings| <= |h.state.firings|
  {
    if h == g {
    } else {
      FiringsGrow(conf, h.past, g);
    }
  }

  /** Exactly when a timer restarts a job that is still failed: g is the moment it has
      read the row, no run of the job is live then, and h is the moment before it
      writes. The row has been the failed one it read all along if and only if no
      command of the user's and no other timer got in between. */
  lemma {:induction false} TimerRestartsOnlyFailed(conf: Settings, h: Past, g: Past, id: Id, k: nat)
    requires Legal(conf, h) && Extends(h, g) && k < |g.state.firings|
    requires Pending(g.state, id, k) && id in g.state.rows && g.state.rows[id] == g.state.firings[k].row
    requires NoRunLive(g.state, id) && Pending(h.state, id, k)
    ensures AsReadSince(h, g, id, g.state.firings[k].row) <==> Undisturbed(h, g, id, k)
    ensures Undisturbed(h, g, id, k) ==> NoRunLive(h.state, id)
  {
    if h == g {
    } else {
      PendingSince(conf, h, g, id, k);
      TimerRestartsOnlyFailed(conf, h.past, g, id, k);
      if Undisturbed(h.past, g, id, k) {
        PendingStep(conf, h.past.state, h.event, id, k);
        FailedRowStep(conf, h.past.state, h.event, id, k);
        StaysUnlive(conf, h.past.state, h.event, id);
      }
    }
  }
}
