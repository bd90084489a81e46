/** Any number of requests going through one host gate: doRetrying429's loop
    (retry.go) around acquire and release (hostgate.go), every interleaving. */
module GateRuns {
  import opened Options
  import opened Histories
  import opened HostGate

  const MAX_ATTEMPTS := 5
  const MAX_DELAY := 30000

  /** Where a request is: about to lock the gate in acquire, asleep for the
      cool-down, blocked on its channel, giving up on its channel, sending the
      request, released after a 429 with the gate not yet told, or backing off.
      A request that has returned is gone from the table. */
  datatype Pc =
    | Ready(attempt: nat)
    | Sleeping(attempt: nat, until: int)
    | Waiting(attempt: nat)
    | Leaving
    | Holding(attempt: nat)
    | Limited(attempt: nat)
    | BackingOff(attempt: nat)

  datatype State = State(gate: Gate, now: int, procs: map<Id, Pc>)

  datatype Event =
    | Arrive(w: Id)
    | Attempt(w: Id)               // one locked pass of acquire's loop
    | SleepOver(w: Id)
    | SleepCancelled(w: Id)        // the context ends during the cool-down sleep
    | Woken(w: Id)
    | WaitCancelled(w: Id)         // the context ends while queued
    | Abandoned(w: Id)             // cancelWaiter, then return
    | Answered(w: Id, limited: bool)
    | Told(w: Id, pause: int)      // gate.throttled
    | Again(w: Id)
    | BackoffCancelled(w: Id)
    | Tick(ms: nat)

  predicate Enabled(s: State, e: Event) {
    match e
    case Arrive(w) => w !in s.procs
    case Attempt(w) => w in s.procs && s.procs[w].Ready?
    case SleepOver(w) => w in s.procs && s.procs[w].Sleeping? && s.procs[w].until <= s.now
    case SleepCancelled(w) => w in s.procs && s.procs[w].Sleeping?
    case Woken(w) => w in s.procs && s.procs[w].Waiting? && w in s.gate.signalled
    case WaitCancelled(w) => w in s.procs && s.procs[w].Waiting?
    case Abandoned(w) => w in s.procs && s.procs[w].Leaving?
    case Answered(w, _) => w in s.procs && s.procs[w].Holding?
    case Told(w, pause) => w in s.procs && s.procs[w].Limited? && 0 <= pause <= MAX_DELAY
    case Again(w) => w in s.procs && s.procs[w].BackingOff?
    case BackoffCancelled(w) => w in s.procs && s.procs[w].BackingOff?
    case Tick(_) => true
  }

  function Next(s: State, e: Event): State
    requires Enabled(s, e)
  {
    match e
    case Arrive(w) => s.(procs := s.procs[w := Ready(0)])
    case Attempt(w) =>
      var a := s.procs[w].attempt;
      var (g, v) := TryAcquire(s.gate, s.now, w);
      s.(gate := g, procs := s.procs[w := match v
                                          case Granted => Holding(a)
                                          case Cooling(until) => Sleeping(a, until)
                                          case Queued => Waiting(a)])
    case SleepOver(w) => s.(procs := s.procs[w := Ready(s.procs[w].attempt)])
    case SleepCancelled(w) => s.(procs := s.procs - {w})
    case Woken(w) =>
      s.(gate := s.gate.(signalled := s.gate.signalled - {w}), procs := s.procs[w := Ready(s.procs[w].attempt)])
    case WaitCancelled(w) => s.(procs := s.procs[w := Leaving])
    case Abandoned(w) => s.(gate := CancelWaiter(s.gate, w), procs := s.procs - {w})
    case Answered(w, limited) =>
      s.(gate := Release(s.gate),
         procs := if limited then s.procs[w := Limited(s.procs[w].attempt)] else s.procs - {w})
    case Told(w, pause) =>
      s.(gate := Throttled(s.gate, s.now, pause), procs := s.procs[w := BackingOff(s.procs[w].attempt)])
    case Again(w) =>
      var a := s.procs[w].attempt + 1;
      s.(procs := if a < MAX_ATTEMPTS then s.procs[w := Ready(a)] else s.procs - {w})
    case BackoffCancelled(w) => s.(procs := s.procs - {w})
    case Tick(ms) => s.(now := s.now + ms)
  }

  // ----- the invariant -----

  ghost function Holders(s: State): set<Id> {
    set w | w in s.procs && s.procs[w].Holding?
  }

  ghost predicate Distinct(ws: seq<Id>) {
    forall i, j :: 0 <= i < j < |ws| ==> ws[i] != ws[j]
  }

  predicate Blocked(p: Pc) {
    p.Waiting? || p.Leaving?
  }

  /** Every blocked request has its channel either queued or signalled, never
      both, and nobody else's channel is around. */
  ghost predicate QueueOk(s: State) {
    && Distinct(s.gate.waiters)
    && (forall w :: w in s.gate.waiters ==> w !in s.gate.signalled)
    && (forall w :: w in s.gate.waiters || w in s.gate.signalled <==> w in s.procs && Blocked(s.procs[w]))
  }

  ghost predicate LimitsOk(s: State) {
    && MIN_LIMIT <= s.gate.limit <= DEFAULT_LIMIT
    && s.gate.inFlight == |Holders(s)| <= DEFAULT_LIMIT
    && s.gate.coolUntil <= s.now + MAX_DELAY
    && (forall w :: w in s.procs && s.procs[w].Sleeping? ==> s.procs[w].until <= s.gate.coolUntil)
    && (forall w :: w in s.procs && !s.procs[w].Leaving? ==> s.procs[w].attempt < MAX_ATTEMPTS)
  }

  /** A request that will lock the gate again, or release a slot, without anyone
      else's help: it holds a slot, is about to re-check, is asleep for the
      cool-down, or has been signalled. */
  ghost predicate Wakeful(s: State, w: Id) {
    w in s.procs && (s.procs[w].Holding? || s.procs[w].Ready? || s.procs[w].Sleeping? || w in s.gate.signalled)
  }

  /** No lost wake-up. */
  ghost predicate NoneStranded(s: State) {
    s.gate.waiters != [] ==> exists w :: Wakeful(s, w)
  }

  ghost predicate Inv(s: State) {
    QueueOk(s) && LimitsOk(s)
  }

  // ----- each step -----

  lemma {:induction false} WithoutKeeps(ws: seq<Id>, w: Id)
    requires Distinct(ws)
    ensures Distinct(Without(ws, w))
    ensures forall x :: x in Without(ws, w) <==> x in ws && x != w
  {
    if ws == [] {
    } else {
      WithoutKeeps(ws[1..], w);
      assert ws == [ws[0]] + ws[1..];
      if ws[0] != w {
        assert Without(ws, w) == [ws[0]] + Without(ws[1..], w);
        assert ws[0] !in Without(ws[1..], w);
      }
    }
  }

  lemma WakeOneKeeps(g: Gate)
    requires Distinct(g.waiters) && forall w :: w in g.waiters ==> w !in g.signalled
    ensures var r := WakeOne(g);
            && Distinct(r.waiters)
            && (forall w :: w in r.waiters ==> w !in r.signalled)
            && (forall w :: w in r.waiters || w in r.signalled <==> w in g.waiters || w in g.signalled)
            && (g.waiters != [] ==> g.waiters[0] in r.signalled)
  {
    if g.waiters != [] {
      assert g.waiters == [g.waiters[0]] + g.waiters[1..];
    }
  }

  lemma QueueAttempt(s: State, w: Id)
    requires Inv(s) && Enabled(s, Attempt(w))
    ensures QueueOk(Next(s, Attempt(w)))
  {
    assert w !in s.gate.waiters && w !in s.gate.signalled;
  }

  lemma QueueAbandoned(s: State, w: Id)
    requires Inv(s) && Enabled(s, Abandoned(w))
    ensures QueueOk(Next(s, Abandoned(w)))
  {
    WithoutKeeps(s.gate.waiters, w);
    WakeOneKeeps(s.gate);
  }

  lemma QueueAnswered(s: State, w: Id, limited: bool)
    requires Inv(s) && Enabled(s, Answered(w, limited))
    ensures QueueOk(Next(s, Answered(w, limited)))
  {
    WakeOneKeeps(s.gate.(inFlight := s.gate.inFlight - 1));
  }

  lemma QueueStep(s: State, e: Event)
    requires Inv(s) && Enabled(s, e)
    ensures QueueOk(Next(s, e))
  {
    match e
    case Attempt(w) => QueueAttempt(s, w);
    case Abandoned(w) => QueueAbandoned(s, w);
    case Answered(w, limited) => QueueAnswered(s, w, limited);
    case _ =>
  }

  /** Only a granted attempt adds a holder, only an answer takes one away. */
  lemma HoldersStep(s: State, e: Event)
    requires Enabled(s, e)
    ensures e.Attempt? && Next(s, e).procs[e.w].Holding? ==>
              e.w !in Holders(s) && Holders(Next(s, e)) == Holders(s) + {e.w}
    ensures e.Answered? ==> e.w in Holders(s) && Holders(Next(s, e)) == Holders(s) - {e.w}
    ensures !e.Answered? && !(e.Attempt? && Next(s, e).procs[e.w].Holding?) ==> Holders(Next(s, e)) == Holders(s)
  {
  }

  lemma LimitsStep(s: State, e: Event)
    requires Inv(s) && Enabled(s, e)
    ensures LimitsOk(Next(s, e))
  {
    HoldersStep(s, e);
    SleepersStep(s, e);
  }

  lemma SleepersStep(s: State, e: Event)
    requires Inv(s) && Enabled(s, e)
    ensures var t := Next(s, e);
            && s.gate.coolUntil <= t.gate.coolUntil <= t.now + MAX_DELAY
            && (forall w :: w in t.procs && t.procs[w].Sleeping? ==> t.procs[w].until <= t.gate.coolUntil)
            && (forall w :: w in t.procs && !t.procs[w].Leaving? ==> t.procs[w].attempt < MAX_ATTEMPTS)
  {
  }

  /** No lost wake-up, step by step: only an exit from the cool-down sleep can
      take the last wakeful request away. */
  lemma WakeStep(s: State, e: Event)
    requires Inv(s) && Enabled(s, e) && NoneStranded(s) && !e.SleepCancelled?
    ensures NoneStranded(Next(s, e))
  {
    var t := Next(s, e);
    if t.gate.waiters != [] {
      if s.gate.waiters == [] {
        QueuedByAttempt(s, e);
      } else {
        var w :| Wakeful(s, w);
        KeptWake(s, e, w);
      }
    }
  }

  /** The queue only becomes non-empty when every slot is in use. */
  lemma QueuedByAttempt(s: State, e: Event)
    requires Inv(s) && Enabled(s, e) && s.gate.waiters == [] && Next(s, e).gate.waiters != []
    ensures exists w :: Wakeful(Next(s, e), w)
  {
    var t := Next(s, e);
    assert e.Attempt?;
    assert |Holders(s)| > 0;
    var h :| h in Holders(s);
    assert Wakeful(t, h);
  }

  /** A wakeful request stays so, or hands its wake-up on. */
  lemma KeptWake(s: State, e: Event, w: Id)
    requires Inv(s) && Enabled(s, e) && !e.SleepCancelled? && Wakeful(s, w)
    requires s.gate.waiters != [] && Next(s, e).gate.waiters != []
    ensures exists x :: Wakeful(Next(s, e), x)
  {
    var t := Next(s, e);
    var first := s.gate.waiters[0];
    match e
    case Arrive(x) => assert Wakeful(t, x);
    case Attempt(x) =>
      if x != w {
        assert Wakeful(t, w);
      } else if t.procs[x].Waiting? {
        assert s.gate.inFlight > 0;
        var h :| h in Holders(s);
        assert Wakeful(t, h);
      } else {
        assert Wakeful(t, x);
      }
    case Answered(x, limited) =>
      assert first in s.gate.waiters && first != x;
      assert Wakeful(t, first);
    case Abandoned(x) =>
      if x in s.gate.waiters {
        assert Wakeful(t, w);
      } else {
        assert first in s.gate.waiters && first != x;
        assert Wakeful(t, first);
      }
    case SleepCancelled(_) =>
    case SleepOver(_) => assert Wakeful(t, w);
    case Woken(_) => assert Wakeful(t, w);
    case WaitCancelled(_) => assert Wakeful(t, w);
    case Told(_, _) => assert Wakeful(t, w);
    case Again(_) => assert Wakeful(t, w);
    case BackoffCancelled(_) => assert Wakeful(t, w);
    case Tick(_) => assert Wakeful(t, w);
  }

  // ----- histories -----

  type Past = History<State, Event>

  ghost predicate Legal(h: Past) {
    match h
    case Begin(s) => s == State(Fresh(), s.now, map[]) && s.now >= 0
    case Then(g, e, t) => Legal(g) && Enabled(g.state, e) && t == Next(g.state, e)
  }

  /** Slots in use equal the requests being sent, never more than four; the
      attempts of a request never more than five; the cool-down never more than
      thirty seconds ahead: in every reachable state. */
  lemma {:induction false} GateInvariant(h: Past)
    requires Legal(h)
    ensures Inv(h.state)
  {
    match h
    case Begin(s) => assert Holders(s) == {};
    case Then(g, e, t) =>
      GateInvariant(g);
      QueueStep(g.state, e);
      LimitsStep(g.state, e);
  }

  /** While a cool-down runs nobody is granted a slot: over any stretch that ends
      before the cool-down in force at its start, the holders at the end are among
      those at the start. */
  lemma {:induction false} CoolDownIsKept(h: Past, from: State)
    requires Follows(h, from) && h.state.now < from.gate.coolUntil
    ensures Holders(h.state) <= Holders(from)
    ensures from.gate.coolUntil <= h.state.gate.coolUntil
  {
    if h.state == from {
    } else {
      CoolDownIsKept(h.past, from);
    }
  }

  /** The history passes through from, and possible steps lead on from there. */
  ghost predicate Follows(h: Past, from: State) {
    h.state == from ||
    (h.Then? && Follows(h.past, from) && Enabled(h.past.state, h.event) && h.state == Next(h.past.state, h.event))
  }

  /** A slot is granted only below the limit in force. */
  lemma GrantBelowLimit(h: Past, e: Event)
    requires Legal(h) && Enabled(h.state, e)
    requires !(Holders(Next(h.state, e)) <= Holders(h.state))
    ensures var t := Next(h.state, e);
            && t.gate.coolUntil <= t.now
            && |Holders(h.state)| < t.gate.limit && |Holders(t)| == |Holders(h.state)| + 1
  {
    GateInvariant(h);
    var s, t := h.state, Next(h.state, e);
    HoldersStep(s, e);
  }

  ghost predicate Ahead(ws: seq<Id>, u: Id, v: Id) {
    exists i, j :: 0 <= i < j < |ws| && ws[i] == u && ws[j] == v
  }

  lemma {:induction false} OrderWithout(ws: seq<Id>, w: Id, u: Id, v: Id)
    requires Distinct(ws) && Ahead(ws, u, v) && w != u && w != v
    ensures Ahead(Without(ws, w), u, v)
  {
    OrderRest(ws, u, v);
    var rest := ws[1..];
    if ws[0] == u {
      WithoutKeeps(rest, w);
      var k :| 0 <= k < |Without(rest, w)| && Without(rest, w)[k] == v;
      assert Without(ws, w)[0] == u && Without(ws, w)[k + 1] == v;
    } else if ws[0] != w {
      OrderWithout(rest, w, u, v);
      var i, j :| 0 <= i < j < |Without(rest, w)| && Without(rest, w)[i] == u && Without(rest, w)[j] == v;
      assert Without(ws, w)[i + 1] == u && Without(ws, w)[j + 1] == v;
    }
  }

  lemma OrderRest(ws: seq<Id>, u: Id, v: Id)
    requires Distinct(ws) && Ahead(ws, u, v)
    ensures v != ws[0] && v in ws[1..]
    ensures u in ws[1..] <==> u != ws[0]
    ensures u in ws[1..] ==> Ahead(ws[1..], u, v)
  {
    var i, j :| 0 <= i < j < |ws| && ws[i] == u && ws[j] == v;
    assert ws[1..][j - 1] == v;
    if i > 0 {
      assert ws[1..][i - 1] == u;
    }
  }

  lemma OrderMore(ws: seq<Id>, w: Id, u: Id, v: Id)
    requires Ahead(ws, u, v)
    ensures Ahead(ws + [w], u, v)
  {
    var i, j :| 0 <= i < j < |ws| && ws[i] == u && ws[j] == v;
    assert (ws + [w])[i] == u && (ws + [w])[j] == v;
  }

  /** First come, first served: of two queued requests the later one is not
      signalled while the earlier one still queues, and never gets ahead. */
  lemma NobodyOvertakes(h: Past, e: Event, u: Id, v: Id)
    requires Legal(h) && Enabled(h.state, e) && Ahead(h.state.gate.waiters, u, v)
    ensures var t := Next(h.state, e);
            && (v in t.gate.signalled ==> u !in t.gate.waiters)
            && (u in t.gate.waiters && v in t.gate.waiters ==> Ahead(t.gate.waiters, u, v))
  {
    GateInvariant(h);
    var ws := h.state.gate.waiters;
    var t := Next(h.state, e);
    match e
    case Abandoned(w) =>
      if w in ws {
        WithoutKeeps(ws, w);
        if w != u && w != v {
          OrderWithout(ws, w, u, v);
        }
      } else {
        OrderRest(ws, u, v);
      }
    case Answered(w, _) => OrderRest(ws, u, v);
    case Attempt(w) => OrderMore(ws, w, u, v);
    case _ =>
  }

  // ----- the exit that loses a wake-up -----

  /** Somebody queues and nobody is left to wake them. */
  ghost predicate Stuck(s: State) {
    s.gate.waiters != [] && forall w :: w in s.procs ==> s.procs[w].Waiting? && w !in s.gate.signalled
  }

  /** Stuck is for good: until a new request arrives or a queued one gives up,
      nothing but the clock can move. */
  lemma {:induction false} StuckStays(h: Past, from: State)
    requires Follows(h, from) && Stuck(from)
    requires forall e :: h.Then? && Happened(h, from, e) ==> !e.Arrive? && !e.WaitCancelled?
    ensures h.state == from.(now := h.state.now)
  {
    if h.state == from {
    } else {
      assert Happened(h, from, h.event);
      forall e | h.past.Then? && Happened(h.past, from, e)
        ensures !e.Arrive? && !e.WaitCancelled?
      {
        assert Happened(h, from, e);
      }
      StuckStays(h.past, from);
    }
  }

  /** e happened on the stretch from the last time the history was in from. */
  ghost predicate Happened(h: Past, from: State, e: Event) {
    h.Then? && h.state != from && (h.event == e || Happened(h.past, from, e))
  }

  lemma Do(h: Past, e: Event) returns (r: Past)
    requires Legal(h) && Enabled(h.state, e)
    ensures Legal(r) && r.state == Next(h.state, e)
  {
    r := Then(h, e, Next(h.state, e));
  }

  /** The only request holds the only slot in use and draws a 429 with no pause. */
  lemma Bounce(h: Past, limit: int, last: Option<int>, attempt: nat) returns (r: Past)
    requires Legal(h) && 2 <= limit <= 4 && attempt < 4
    requires h.state == State(Gate(limit, 1, [], {}, 0, last), 0, map[0 := Holding(attempt)])
    ensures Legal(r)
    ensures r.state == State(Gate(limit / 2, 1, [], {}, 0, Some(0)), 0, map[0 := Holding(attempt + 1)])
  {
    r := Do(h, Answered(0, true));
    r := Do(r, Told(0, 0));
    r := Do(r, Again(0));
    r := Do(r, Attempt(0));
  }

  lemma Queues(h: Past, ws: seq<Id>, w: Id) returns (r: Past)
    requires Legal(h) && h.state.now == 0 && w !in h.state.procs
    requires h.state.gate == Gate(1, 1, ws, {}, 0, Some(0))
    ensures Legal(r)
    ensures r.state == State(Gate(1, 1, ws + [w], {}, 0, Some(0)), 0, h.state.procs[w := Waiting(0)])
  {
    r := Do(h, Arrive(w));
    r := Do(r, Attempt(w));
    assert r.state.procs == h.state.procs[w := Waiting(0)];
  }

  /** 0 sends the one request allowed, 1 and 2 queue behind it. */
  lemma OneOutTwoQueued() returns (h: Past)
    ensures Legal(h)
    ensures h.state == State(Gate(1, 1, [1, 2], {}, 0, Some(0)), 0,
                             map[0 := Holding(2), 1 := Waiting(0), 2 := Waiting(0)])
  {
    h := Begin(State(Fresh(), 0, map[]));
    h := Do(h, Arrive(0));
    h := Do(h, Attempt(0));
    h := Bounce(h, 4, None, 0);
    h := Bounce(h, 2, Some(0), 1);
    h := Queues(h, [], 1);
    h := Queues(h, [1], 2);
  }

  /** 0 draws a 429; its release signals 1, which re-checks into the cool-down. */
  lemma AsleepForAll() returns (h: Past)
    ensures Legal(h)
    ensures h.state == State(Gate(1, 0, [2], {}, 1000, Some(0)), 0,
                             map[0 := BackingOff(2), 1 := Sleeping(0, 1000), 2 := Waiting(0)])
  {
    h := OneOutTwoQueued();
    h := Do(h, Answered(0, true));
    assert h.state.gate == Gate(1, 0, [2], {1}, 0, Some(0));
    h := Do(h, Told(0, 1000));
    h := Do(h, Woken(1));
    assert h.state.gate == Gate(1, 0, [2], {}, 1000, Some(0));
    h := Do(h, Attempt(1));
  }

  /** The trace that loses a wake-up: 1 is cancelled in its sleep, and so is 0 in
      its backoff. 2 stays queued with nobody to wake it. */
  lemma CancelledSleepStrands() returns (h: Past)
    ensures Legal(h) && Stuck(h.state) && !NoneStranded(h.state)
  {
    h := AsleepForAll();
    h := Do(h, SleepCancelled(1));
    h := Do(h, BackoffCancelled(0));
    assert h.state.procs == map[2 := Waiting(0)];
  }

  /** Leaving the cool-down sleep is harmless when the queue is empty or another
      request is wakeful. */
  ghost predicate HarmlessExit(s: State, e: Event) {
    e.SleepCancelled? ==> s.gate.waiters == [] || exists x :: x != e.w && Wakeful(s, x)
  }

  ghost predicate Careful(h: Past) {
    h.Then? ==> Careful(h.past) && HarmlessExit(h.past.state, h.event)
  }

  ghost predicate NeverStranded(h: Past) {
    NoneStranded(h.state) && (h.Then? ==> NeverStranded(h.past))
  }

  /** Exactly when no wake-up is lost: every exit from a cool-down sleep was a
      harmless one. */
  lemma {:induction false} NoLostWakeUpIff(h: Past)
    requires Legal(h)
    ensures NeverStranded(h) <==> Careful(h)
  {
    if h.Begin? {
    } else {
      NoLostWakeUpIff(h.past);
      GateInvariant(h.past);
      if Careful(h.past) {
        ExitIff(h.past.state, h.event);
      }
    }
  }

  /** In particular none is lost when no request is cancelled while sleeping. */
  lemma {:induction false} NoLostWakeUp(h: Past)
    requires Legal(h) && Avoids(h, (e: Event) => e.SleepCancelled?)
    ensures NeverStranded(h)
  {
    if h.Begin? {
    } else {
      NoLostWakeUp(h.past);
      GateInvariant(h.past);
      WakeStep(h.past.state, h.event);
    }
  }

  lemma ExitIff(s: State, e: Event)
    requires Inv(s) && Enabled(s, e) && NoneStranded(s)
    ensures NoneStranded(Next(s, e)) <==> HarmlessExit(s, e)
  {
    var t := Next(s, e);
    if !e.SleepCancelled? {
      WakeStep(s, e);
    } else {
      assert forall x :: Wakeful(t, x) <==> x != e.w && Wakeful(s, x);
    }
  }
}
