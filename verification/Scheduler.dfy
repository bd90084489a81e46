/** The daemon's queue (queue.go) and its restart scan (server.go), run without
    interleaved arrivals: one scheduling pass, the chain of passes, a start from
    outside a pass, and the recovery of an interrupted job table. */
module Scheduler {
  import opened Options
  import opened Jobs
  import opened Guard

  /** What the store's writes do: all succeed; recording a job as active may fail
      at any time, the other writes succeed; every write fails (reads still work). */
  datatype Store = Reliable | MarkMayFail | ReadOnly

  ghost predicate Distinct(ids: seq<Id>) {
    forall i, j :: 0 <= i < j < |ids| ==> ids[i] != ids[j]
  }

  /** The stored rows and the ids holding a runtime. */
  datatype Table = Table(rows: map<Id, Row>, runtimes: set<Id>)

  /** Queued in the store and not holding a runtime. */
  predicate Eligible(t: Table, id: Id) {
    id in t.rows && t.rows[id].status.Queued? && id !in t.runtimes
  }

  ghost function QueuedIds(rows: map<Id, Row>): set<Id> {
    set id | id in rows && rows[id].status.Queued?
  }

  /** What one attempt at a job leaves: running and active; failed, when it could
      not be recorded as active; or as it was, when nothing could be written or its
      type is unknown. */
  ghost predicate Tried(store: Store, conf: Settings, before: Row, after: Row, running: bool) {
    if before.kind.Unrecognized? || store.ReadOnly? then after == before && !running
    else
      || (after == before.(status := Active) && running)
      || (store.MarkMayFail? && after == Settle(before, Broke, conf) && !running)
  }

  ghost predicate SameJob(was: Table, now: Table, id: Id)
    requires id in was.rows && id in now.rows
  {
    now.rows[id] == was.rows[id] && (id in now.runtimes <==> id in was.runtimes)
  }

  /** A pass has come as far as cut: the jobs eligible at its start and older than
      cut were each tried once, everything else is as it was. */
  ghost predicate PassTo(store: Store, conf: Settings, order: seq<Id>, was: Table, now: Table, cut: nat) {
    && cut <= |order| && now.rows.Keys == was.rows.Keys && was.runtimes <= now.runtimes
    && forall i :: 0 <= i < |order| && order[i] in was.rows ==>
                     if i < cut && Eligible(was, order[i])
                     then Tried(store, conf, was.rows[order[i]], now.rows[order[i]], order[i] in now.runtimes)
                     else SameJob(was, now, order[i])
  }

  /** Some try of the pass came to nothing. */
  ghost predicate Wasted(order: seq<Id>, was: Table, now: Table, cut: nat) {
    exists i :: 0 <= i < cut && i < |order| && Eligible(was, order[i]) && order[i] !in now.runtimes
  }

  /** Over any number of passes: a job is as it was, or it was eligible and tried. */
  ghost predicate Evolved(store: Store, conf: Settings, was: Table, now: Table) {
    && now.rows.Keys == was.rows.Keys && was.runtimes <= now.runtimes
    && forall id :: id in was.rows ==>
                      || SameJob(was, now, id)
                      || (Eligible(was, id) && Tried(store, conf, was.rows[id], now.rows[id], id in now.runtimes))
  }

  ghost predicate NoneEligible(t: Table) {
    forall id :: id in t.rows ==> !Eligible(t, id)
  }

  /** One more try, of the oldest job eligible and not yet tried. */
  lemma PassStep(store: Store, conf: Settings, order: seq<Id>, was: Table, mid: Table, now: Table, cut: nat, j: nat)
    requires Distinct(order) && PassTo(store, conf, order, was, mid, cut)
    requires cut <= j < |order| && Eligible(was, order[j]) && Eligible(mid, order[j])
    requires forall i :: cut <= i < j ==> !Eligible(was, order[i])
    requires var id := order[j];
             && id in now.rows && now.rows == mid.rows[id := now.rows[id]]
             && Tried(store, conf, mid.rows[id], now.rows[id], id in now.runtimes)
             && now.runtimes == if id in now.runtimes then mid.runtimes + {id} else mid.runtimes
    ensures PassTo(store, conf, order, was, now, j + 1)
    ensures Wasted(order, was, now, j + 1) <==> Wasted(order, was, mid, cut) || order[j] !in now.runtimes
  {
    assert SameJob(was, mid, order[j]);
    if Wasted(order, was, mid, cut) {
      var i :| 0 <= i < cut && i < |order| && Eligible(was, order[i]) && order[i] !in mid.runtimes;
      assert order[i] !in now.runtimes;
    }
    if Wasted(order, was, now, j + 1) && order[j] in now.runtimes {
      var i :| 0 <= i < j + 1 && i < |order| && Eligible(was, order[i]) && order[i] !in now.runtimes;
      assert i < cut && order[i] !in mid.runtimes;
    }
  }

  /** attempted holds the jobs eligible at the start and older than cut. */
  ghost predicate Attempted(order: seq<Id>, was: Table, cut: nat, attempted: set<Id>) {
    forall i :: 0 <= i < |order| ==> (order[i] in attempted <==> i < cut && Eligible(was, order[i]))
  }

  /** What nextQueuedJob returns is the oldest job eligible at the start of the pass
      and not yet tried. */
  lemma PassNext(store: Store, conf: Settings, order: seq<Id>, was: Table, mid: Table, cut: nat, attempted: set<Id>,
                 j: nat)
    requires PassTo(store, conf, order, was, mid, cut) && Attempted(order, was, cut, attempted)
    requires forall i :: 0 <= i < |order| ==> order[i] in was.rows
    requires j < |order| && Eligible(mid, order[j]) && order[j] !in attempted
    requires forall i :: 0 <= i < j ==> !(Eligible(mid, order[i]) && order[i] !in attempted)
    ensures cut <= j && Eligible(was, order[j])
    ensures forall i :: cut <= i < j ==> !Eligible(was, order[i])
  {
    assert SameJob(was, mid, order[j]);
    forall i | cut <= i < j
      ensures !Eligible(was, order[i])
    {
      assert SameJob(was, mid, order[i]);
    }
  }

  lemma AttemptedMore(order: seq<Id>, was: Table, cut: nat, attempted: set<Id>, j: nat)
    requires Distinct(order) && Attempted(order, was, cut, attempted)
    requires cut <= j < |order| && Eligible(was, order[j])
    requires forall i :: cut <= i < j ==> !Eligible(was, order[i])
    ensures Attempted(order, was, j + 1, attempted + {order[j]})
  {
  }

  lemma PassDone(store: Store, conf: Settings, order: seq<Id>, was: Table, now: Table, cut: nat, attempted: set<Id>)
    requires PassTo(store, conf, order, was, now, cut) && Attempted(order, was, cut, attempted)
    requires forall i :: 0 <= i < |order| ==> order[i] in was.rows
    requires forall i :: 0 <= i < |order| ==> !(Eligible(now, order[i]) && order[i] !in attempted)
    ensures PassTo(store, conf, order, was, now, |order|)
    ensures Wasted(order, was, now, |order|) <==> Wasted(order, was, now, cut)
  {
    forall i | cut <= i < |order|
      ensures !Eligible(was, order[i])
    {
      assert SameJob(was, now, order[i]);
    }
  }

  /** A pass that tried everything, none in vain, leaves nothing eligible. */
  lemma NothingLeft(store: Store, conf: Settings, order: seq<Id>, was: Table, now: Table, cut: nat)
    requires PassTo(store, conf, order, was, now, cut)
    requires forall id :: id in was.rows <==> id in order
    ensures cut == |order| && !Wasted(order, was, now, cut) ==> NoneEligible(now)
  {
    if cut == |order| && !Wasted(order, was, now, cut) {
      forall id | id in now.rows
        ensures !Eligible(now, id)
      {
        var i :| 0 <= i < |order| && order[i] == id;
        assert Eligible(was, order[i]) || SameJob(was, now, order[i]);
      }
    }
  }

  lemma SubsetSmaller(a: set<Id>, b: set<Id>, x: Id)
    requires a <= b && x in b && x !in a
    ensures |a| < |b|
  {
    assert a <= b - {x};
    SubsetAtMost(a, b - {x});
  }

  lemma {:induction false} SubsetAtMost(a: set<Id>, b: set<Id>)
    requires a <= b
    ensures |a| <= |b|
    decreases a
  {
    if x :| x in a {
      SubsetAtMost(a - {x}, b - {x});
    }
  }

  /** A finished pass, seen as an evolution. When a try came to nothing although
      failures can be recorded and types are known, fewer rows are queued. */
  lemma PassEvolves(store: Store, conf: Settings, order: seq<Id>, was: Table, now: Table, cut: nat)
    requires PassTo(store, conf, order, was, now, cut)
    requires forall id :: id in was.rows <==> id in order
    ensures Evolved(store, conf, was, now)
    ensures QueuedIds(now.rows) <= QueuedIds(was.rows)
    ensures Wasted(order, was, now, cut) && !store.ReadOnly?
            && (forall id :: id in QueuedIds(was.rows) ==> !was.rows[id].kind.Unrecognized?)
            ==> |QueuedIds(now.rows)| < |QueuedIds(was.rows)|
  {
    forall id | id in was.rows
      ensures || SameJob(was, now, id)
              || (Eligible(was, id) && Tried(store, conf, was.rows[id], now.rows[id], id in now.runtimes))
    {
      var i :| 0 <= i < |order| && order[i] == id;
    }
    if Wasted(order, was, now, cut) && !store.ReadOnly?
       && (forall id :: id in QueuedIds(was.rows) ==> !was.rows[id].kind.Unrecognized?) {
      var i :| 0 <= i < cut && i < |order| && Eligible(was, order[i]) && order[i] !in now.runtimes;
      assert order[i] in QueuedIds(was.rows);
      SubsetSmaller(QueuedIds(now.rows), QueuedIds(was.rows), order[i]);
    }
  }

  lemma EvolvedTwice(store: Store, conf: Settings, a: Table, b: Table, c: Table)
    requires Evolved(store, conf, a, b) && Evolved(store, conf, b, c)
    ensures Evolved(store, conf, a, c)
  {
    forall id | id in a.rows
      ensures SameJob(a, c, id) || (Eligible(a, id) && Tried(store, conf, a.rows[id], c.rows[id], id in c.runtimes))
    {
      assert id in b.rows;
    }
  }

  /** With every write succeeding and every type known, what an evolution does to
      an eligible job is one thing only: it runs. */
  lemma EvolvedReliably(conf: Settings, was: Table, now: Table, id: Id)
    requires Evolved(Reliable, conf, was, now) && id in was.rows && !was.rows[id].kind.Unrecognized?
    ensures SameJob(was, now, id) ||
            (Eligible(was, id) && now.rows[id] == was.rows[id].(status := Active) && id in now.runtimes)
  {
  }

  /** While the store takes no writes at all, a pass that could try anything changes
      nothing and asks for another: the chain never ends. */
  lemma ReadOnlyRepeats(conf: Settings, order: seq<Id>, was: Table, now: Table)
    requires PassTo(ReadOnly, conf, order, was, now, |order|)
    requires forall id :: id in was.rows <==> id in order
    requires now.runtimes <= now.rows.Keys
    ensures now == was
    ensures Wasted(order, was, now, |order|) <==> !NoneEligible(was)
  {
    forall id | id in was.rows
      ensures SameJob(was, now, id)
    {
      var i :| 0 <= i < |order| && order[i] == id;
      assert Eligible(was, order[i]) || SameJob(was, now, order[i]);
    }
    assert now.runtimes == was.runtimes;
    assert now.rows == was.rows;
    if !NoneEligible(was) {
      var id :| id in was.rows && Eligible(was, id);
      var i :| 0 <= i < |order| && order[i] == id;
      assert Eligible(was, order[i]) && order[i] !in now.runtimes;
    }
  }

  /** So does a queued job of unknown type: start gives its slot back, its row stays
      queued, and every pass that reaches it asks for another. */
  lemma UnknownTypeRepeats(store: Store, conf: Settings, order: seq<Id>, was: Table, now: Table, cut: nat, i: nat)
    requires PassTo(store, conf, order, was, now, cut) && i < cut
    requires Eligible(was, order[i]) && was.rows[order[i]].kind.Unrecognized?
    ensures Wasted(order, was, now, cut) && Eligible(now, order[i]) && now.rows[order[i]] == was.rows[order[i]]
  {
    assert Tried(store, conf, was.rows[order[i]], now.rows[order[i]], order[i] in now.runtimes);
  }

  class Daemon {
    const conf: Settings
    const store: Store
    const order: seq<Id>   // the job table, oldest first
    var rows: map<Id, Row>
    var runtimes: set<Id>
    var flags: Flags

    ghost predicate Valid()
      reads this
    {
      && Distinct(order)
      && (forall id :: id in rows <==> id in order)
      && runtimes <= rows.Keys
      && (flags.again ==> flags.running)
    }

    function Now(): Table
      reads this
    {
      Table(rows, runtimes)
    }

    predicate Full()
      reads this
    {
      conf.maxConcurrent > 0 && |runtimes| >= conf.maxConcurrent
    }

    /** The chain of passes can be shown to end: a job that cannot be recorded as
        active is recorded as failed, and every queued type is known. */
    ghost predicate ChainEnds()
      reads this
    {
      !store.ReadOnly? && forall id :: id in QueuedIds(rows) ==> !rows[id].kind.Unrecognized?
    }

    constructor (conf: Settings, store: Store, order: seq<Id>, rows: map<Id, Row>)
      requires Distinct(order) && forall id :: id in rows <==> id in order
      ensures Valid() && this.rows == rows && runtimes == {} && flags == Flags(false, false)
      ensures this.conf == conf && this.store == store && this.order == order
    {
      this.conf, this.store, this.order, this.rows := conf, store, order, rows;
      runtimes, flags := {}, Flags(false, false);
    }

    /** acquireSlot: check and reserve under one lock. */
    method AcquireSlot(id: Id) returns (ok: bool)
      requires Valid() && id in rows
      modifies this`runtimes
      ensures ok <==> id !in old(runtimes) && !old(Full())
      ensures runtimes == if ok then old(runtimes) + {id} else old(runtimes)
    {
      if id in runtimes {
        return false;
      }
      if conf.maxConcurrent > 0 && |runtimes| >= conf.maxConcurrent {
        return false;
      }
      runtimes := runtimes + {id};
      return true;
    }

    /** finishJob's row write; its own error is ignored. */
    method FinishJob(id: Id, how: Outcome)
      requires Valid() && id in rows
      modifies this`rows
      ensures rows == if store.ReadOnly? then old(rows) else old(rows)[id := Settle(old(rows)[id], how, conf)]
    {
      if !store.ReadOnly? {
        rows := rows[id := Settle(rows[id], how, conf)];
      }
    }

    /** nextQueuedJob: the oldest queued job without a runtime, not in skip. */
    method NextQueued(skip: set<Id>) returns (j: Option<nat>)
      requires Valid()
      ensures j.Some? ==> j.value < |order| && Eligible(Now(), order[j.value]) && order[j.value] !in skip
      ensures forall i :: 0 <= i < (if j.Some? then j.value else |order|) ==>
                            !(Eligible(Now(), order[i]) && order[i] !in skip)
    {
      var i := 0;
      while i < |order|
        invariant 0 <= i <= |order|
        invariant forall k :: 0 <= k < i ==> !(Eligible(Now(), order[k]) && order[k] !in skip)
      {
        if order[i] in rows && rows[order[i]].status.Queued? && order[i] !in skip && order[i] !in runtimes {
          return Some(i);
        }
        i := i + 1;
      }
      return None;
    }

    /** start, through launch and markActive. taken says whether the slot was had.
        Inside a pass the attempt touches one row; outside one, a failure to record
        the job as active frees the slot first, and the passes that this sets off
        may pick the job up again before it is marked failed. */
    method Start(id: Id) returns (taken: bool)
      requires Valid() && id in rows
      requires flags.running || (ChainEnds() && !rows[id].kind.Unrecognized?)
      modifies this`rows, this`runtimes, this`flags
      ensures Valid()
      ensures taken <==> id !in old(runtimes) && !old(Full())
      ensures !taken ==> rows == old(rows) && runtimes == old(runtimes) && flags == old(flags)
      ensures taken && old(flags).running ==>
                && Tried(store, conf, old(rows)[id], rows[id], id in runtimes)
                && rows == old(rows)[id := rows[id]]
                && runtimes == (if id in runtimes then old(runtimes) + {id} else old(runtimes))
                && flags == old(flags).(again := old(flags).again || id !in runtimes)
      ensures taken && !old(flags).running && store.Reliable? ==>
                && rows == old(rows)[id := old(rows)[id].(status := Active)]
                && runtimes == old(runtimes) + {id} && flags == old(flags)
      ensures taken && !old(flags).running ==> rows[id].status.Active? || rows[id].status.Failed?
      decreases if flags.running then 0 else 1, if flags.running then 0 else |QueuedIds(rows)|, 2
    {
      taken := AcquireSlot(id);
      if !taken {
        return;
      }
      if rows[id].kind.Unrecognized? {
        ClearRuntime(id);
        return;
      }
      var fails: bool := *;
      if store.ReadOnly? || (store.MarkMayFail? && fails) {
        ClearRuntime(id);
        FinishJob(id, Broke);
        return;
      }
      rows := rows[id := rows[id].(status := Active)];
    }

    method ClearRuntime(id: Id)
      requires Valid() && id in runtimes
      requires flags.running || ChainEnds()
      modifies this`rows, this`runtimes, this`flags
      ensures Valid()
      ensures old(flags).running ==>
                rows == old(rows) && runtimes == old(runtimes) - {id} && flags == old(flags).(again := true)
      ensures !old(flags).running ==>
                && Evolved(store, conf, Table(old(rows), old(runtimes) - {id}), Now()) && flags == Flags(false, false)
                && (Full() || NoneEligible(Now()))
      decreases if flags.running then 0 else 1, if flags.running then 0 else |QueuedIds(rows)|, 1
    {
      runtimes := runtimes - {id};
      TryStartQueued();
    }

    /** tryStartQueued: the whole chain of passes. When it returns, the cap is full
        or no queued job is without a runtime. */
    method TryStartQueued()
      requires Valid() && (flags.running || ChainEnds())
      modifies this`rows, this`runtimes, this`flags
      ensures Valid()
      ensures old(flags).running ==> Now() == old(Now()) && flags == old(flags).(again := true)
      ensures !old(flags).running ==>
                && Evolved(store, conf, old(Now()), Now()) && flags == Flags(false, false)
                && (Full() || NoneEligible(Now()))
      decreases if flags.running then 0 else 1, if flags.running then 0 else |QueuedIds(rows)|, 0
    {
      var (f, run) := Enter(flags);
      flags := f;
      if !run {
        return;
      }
      ghost var cut := RunPass();
      PassEvolves(store, conf, order, old(Now()), Now(), cut);
      NothingLeft(store, conf, order, old(Now()), Now(), cut);
      var (g, again) := Leave(flags);
      flags := g;
      if again {
        ghost var mid := Now();
        TryStartQueued();
        EvolvedTwice(store, conf, old(Now()), mid, Now());
      }
    }

    /** One pass. It tries eligible jobs oldest first, each once: exactly those
        older than cut; it stops only with the cap full or none left to try; and it
        asks for another round exactly when one of its tries came to nothing. */
    method RunPass() returns (ghost cut: nat)
      requires Valid() && flags.running && !flags.again
      modifies this`rows, this`runtimes, this`flags
      ensures Valid() && flags.running
      ensures PassTo(store, conf, order, old(Now()), Now(), cut)
      ensures Full() || cut == |order|
      ensures flags.again <==> Wasted(order, old(Now()), Now(), cut)
      decreases 0, 0, 3
    {
      var attempted: set<Id> := {};
      cut := 0;
      while true
        invariant Valid() && flags.running
        invariant PassTo(store, conf, order, old(Now()), Now(), cut)
        invariant attempted <= rows.Keys
        invariant Attempted(order, old(Now()), cut, attempted)
        invariant flags.again <==> Wasted(order, old(Now()), Now(), cut)
        decreases rows.Keys - attempted
      {
        if Full() {
          return;
        }
        var j := NextQueued(attempted);
        if j.None? {
          PassDone(store, conf, order, old(Now()), Now(), cut, attempted);
          cut := |order|;
          return;
        }
        var id := order[j.value];
        PassNext(store, conf, order, old(Now()), Now(), cut, attempted, j.value);
        AttemptedMore(order, old(Now()), cut, attempted, j.value);
        attempted := attempted + {id};
        ghost var mid := Now();
        var taken := Start(id);
        PassStep(store, conf, order, old(Now()), mid, Now(), cut, j.value);
        cut := j.value + 1;
        if !taken {
          return;
        }
      }
    }

    /** resumeInterruptedJobs on the table a crash left, with writes succeeding and
        no worker ending during the scan: the oldest interrupted jobs run, as many
        as the cap allows; the others wait in the queue; a seeding job is completed;
        no other row changes. */
    method ResumeInterrupted()
      requires Valid() && runtimes == {} && flags == Flags(false, false) && store.Reliable?
      requires forall id :: id in rows && Interrupted(rows[id]) ==> !rows[id].kind.Unrecognized?
      modifies this`rows, this`runtimes, this`flags
      ensures Valid() && rows.Keys == old(rows).Keys && flags == old(flags)
      ensures forall i :: 0 <= i < |order| ==>
                            && rows[order[i]] == Recovered(old(rows), order, i, conf.maxConcurrent)
                            && (order[i] in runtimes <==> rows[order[i]].status.Active?)
      ensures |runtimes| == Running(old(rows), order, |order|, conf.maxConcurrent)
    {
      var i := 0;
      ghost var was := rows;
      while i < |order|
        invariant i <= |order| && Valid() && flags == Flags(false, false)
        invariant ScannedTo(was, Now(), order, i, conf.maxConcurrent)
      {
        ghost var before := Now();
        KnownTypes(was, before, order, i, conf.maxConcurrent);
        RecoverOne(order[i]);
        ScanStep(was, before, Now(), order, i, conf.maxConcurrent);
        i := i + 1;
      }
      ScanEnd(was, Now(), order, conf.maxConcurrent);
    }

    /** One round of the scan's loop. */
    method RecoverOne(id: Id)
      requires Valid() && flags == Flags(false, false) && store.Reliable?
      requires id in rows && id !in runtimes && (Interrupted(rows[id]) ==> !rows[id].kind.Unrecognized?)
      requires forall x :: x in QueuedIds(rows) ==> !rows[x].kind.Unrecognized?
      modifies this`rows, this`runtimes, this`flags
      ensures Valid() && flags == old(flags)
      ensures RoundDone(old(Now()), Now(), id, conf.maxConcurrent)
    {
      var row := rows[id];
      if row.status.Seeding? {
        rows := rows[id := row.(status := Completed)];
        return;
      }
      if !row.status.Active? && !row.status.Queued? {
        return;
      }
      if !row.status.Queued? {
        rows := rows[id := row.(status := Queued)];
      }
      assert forall x :: x in QueuedIds(rows) ==> x == id || x in QueuedIds(old(rows));
      var taken := Start(id);
      assert rows[id] == row.(status := if taken then Active else Queued);
    }
  }

  ghost predicate RoundDone(before: Table, now: Table, id: Id, max: int)
    requires id in before.rows
  {
    var row := before.rows[id];
    if row.status.Seeding? then now == before.(rows := before.rows[id := row.(status := Completed)])
    else if !Interrupted(row) then now == before
    else if max <= 0 || |before.runtimes| < max
    then now == Table(before.rows[id := row.(status := Active)], before.runtimes + {id})
    else now == before.(rows := before.rows[id := row.(status := Queued)])
  }

  /** Left active or queued by the run that died. */
  predicate Interrupted(row: Row) {
    row.status.Active? || row.status.Queued?
  }

  /** How many of the first n jobs run after recovery: the interrupted ones, up to
      the cap (no cap when it is zero or less). */
  function Running(rows: map<Id, Row>, order: seq<Id>, n: nat, max: int): nat
    requires n <= |order| && forall i :: 0 <= i < |order| ==> order[i] in rows
  {
    if n == 0 then 0
    else
      var before := Running(rows, order, n - 1, max);
      if Interrupted(rows[order[n - 1]]) && (max <= 0 || before < max) then before + 1 else before
  }

  /** What recovery makes of the i-th job. */
  function Recovered(rows: map<Id, Row>, order: seq<Id>, i: nat, max: int): Row
    requires i < |order| && forall k :: 0 <= k < |order| ==> order[k] in rows
  {
    var row := rows[order[i]];
    if row.status.Seeding? then row.(status := Completed)
    else if !Interrupted(row) then row
    else row.(status := if max <= 0 || Running(rows, order, i, max) < max then Active else Queued)
  }

  /** The scan has dealt with the first n jobs of the table was. */
  ghost predicate ScannedTo(was: map<Id, Row>, now: Table, order: seq<Id>, n: nat, max: int) {
    && n <= |order| && Distinct(order) && now.rows.Keys == was.Keys
    && (forall id :: id in was <==> id in order)
    && (forall id :: id in was && Interrupted(was[id]) ==> !was[id].kind.Unrecognized?)
    && |now.runtimes| == Running(was, order, n, max)
    && (forall k :: 0 <= k < |order| ==> ScannedJob(was, now, order, n, max, k))
  }

  ghost predicate ScannedJob(was: map<Id, Row>, now: Table, order: seq<Id>, n: nat, max: int, k: nat)
    requires k < |order| && now.rows.Keys == was.Keys && forall i :: 0 <= i < |order| ==> order[i] in was
  {
    if k < n
    then now.rows[order[k]] == Recovered(was, order, k, max)
         && (order[k] in now.runtimes <==> now.rows[order[k]].status.Active?)
    else now.rows[order[k]] == was[order[k]] && order[k] !in now.runtimes
  }

  /** No queued row is of unknown type, at any point of the scan. */
  lemma KnownTypes(was: map<Id, Row>, now: Table, order: seq<Id>, n: nat, max: int)
    requires ScannedTo(was, now, order, n, max)
    ensures forall id :: id in QueuedIds(now.rows) ==> !now.rows[id].kind.Unrecognized?
    ensures n < |order| ==> order[n] !in now.runtimes && now.rows[order[n]] == was[order[n]]
  {
    forall id | id in QueuedIds(now.rows)
      ensures !now.rows[id].kind.Unrecognized?
    {
      var k :| 0 <= k < |order| && order[k] == id;
      assert ScannedJob(was, now, order, n, max, k);
    }
    if n < |order| {
      assert ScannedJob(was, now, order, n, max, n);
    }
  }

  lemma ScanStep(was: map<Id, Row>, before: Table, now: Table, order: seq<Id>, n: nat, max: int)
    requires ScannedTo(was, before, order, n, max) && n < |order| && order[n] in before.rows
    requires RoundDone(before, now, order[n], max)
    ensures ScannedTo(was, now, order, n + 1, max)
  {
    assert ScannedJob(was, before, order, n, max, n);
    var m := n + 1;
    forall k: nat | k < |order|
      ensures ScannedJob(was, now, order, m, max, k)
    {
      assert ScannedJob(was, before, order, n, max, k);
    }
  }

  lemma ScanEnd(was: map<Id, Row>, now: Table, order: seq<Id>, max: int)
    requires ScannedTo(was, now, order, |order|, max)
    ensures forall i :: 0 <= i < |order| ==>
                          && now.rows[order[i]] == Recovered(was, order, i, max)
                          && (order[i] in now.runtimes <==> now.rows[order[i]].status.Active?)
  {
    forall i | 0 <= i < |order|
      ensures now.rows[order[i]] == Recovered(was, order, i, max)
      ensures order[i] in now.runtimes <==> now.rows[order[i]].status.Active?
    {
      assert ScannedJob(was, now, order, |order|, max, i);
    }
  }

  /** What that means for the table: nothing is seeding; a job is active exactly if
      it was interrupted and the cap was not yet reached; it is left queued only if
      the cap is full; everything else is as it was. */
  lemma RecoveryMeaning(rows: map<Id, Row>, order: seq<Id>, i: nat, max: int)
    requires i < |order| && forall k :: 0 <= k < |order| ==> order[k] in rows
    ensures var row := rows[order[i]]; var r := Recovered(rows, order, i, max);
            && !r.status.Seeding?
            && (Interrupted(row) <==> Interrupted(r))
            && (r.status.Queued? ==> max > 0 && Running(rows, order, |order|, max) == max)
            && (!Interrupted(row) && !row.status.Seeding? ==> r == row)
            && r.kind == row.kind && r.retries == row.retries
    ensures max > 0 ==> Running(rows, order, |order|, max) <= max
  {
    RunningGrows(rows, order, i, |order|, max);
    RunningGrows(rows, order, 0, |order|, max);
  }

  lemma {:induction false} RunningGrows(rows: map<Id, Row>, order: seq<Id>, m: nat, n: nat, max: int)
    requires m <= n <= |order| && forall k :: 0 <= k < |order| ==> order[k] in rows
    ensures Running(rows, order, m, max) <= Running(rows, order, n, max)
    ensures max > 0 ==> Running(rows, order, n, max) <= max
    decreases n
  {
    if n == 0 {
    } else {
      RunningGrows(rows, order, if m < n then m else n - 1, n - 1, max);
    }
  }
}
