/** hostgate.go: the per-host admission gate. Its mutex-protected sections are
    functions on the gate's fields, the class runs them on mutable fields. Times
    are in milliseconds. */
module HostGate {
  import opened Options

  const DEFAULT_LIMIT := 4
  const MIN_LIMIT := 1
  const RECOVER_AFTER := 5000

  /** An acquirer; also names the channel it waits on. */
  type Id = nat

  /** waiters are the queued channels, signalled the closed ones whose acquirer
      has not noticed yet. */
  datatype Gate = Gate(
    limit: int,
    inFlight: int,
    waiters: seq<Id>,
    signalled: set<Id>,
    coolUntil: int,
    lastThrottle: Option<int>)

  /** How one pass of acquire's loop ends: a slot, a sleep until the cool-down is
      over, or a place in the queue. */
  datatype Verdict = Granted | Cooling(until: int) | Queued

  function Fresh(): Gate {
    Gate(DEFAULT_LIMIT, 0, [], {}, 0, None)
  }

  function Widen(g: Gate, now: int): Gate {
    if g.limit < DEFAULT_LIMIT && g.lastThrottle.Some? && now - g.lastThrottle.value >= RECOVER_AFTER
    then g.(limit := g.limit + 1, lastThrottle := Some(now))
    else g
  }

  function TryAcquire(g: Gate, now: int, w: Id): (Gate, Verdict) {
    var g := Widen(g, now);
    if g.coolUntil <= now && g.inFlight < g.limit then (g.(inFlight := g.inFlight + 1), Granted)
    else if g.coolUntil > now then (g, Cooling(g.coolUntil))
    else (g.(waiters := g.waiters + [w]), Queued)
  }

  function WakeOne(g: Gate): Gate {
    if g.waiters == [] then g
    else g.(waiters := g.waiters[1..], signalled := g.signalled + {g.waiters[0]})
  }

  function Release(g: Gate): Gate {
    WakeOne(g.(inFlight := g.inFlight - 1))
  }

  function Without(ws: seq<Id>, w: Id): seq<Id> {
    if ws == [] then [] else if ws[0] == w then ws[1..] else [ws[0]] + Without(ws[1..], w)
  }

  /** The channel is dropped with its acquirer, signalled or not. */
  function CancelWaiter(g: Gate, w: Id): Gate {
    if w in g.waiters then g.(waiters := Without(g.waiters, w))
    else WakeOne(g).(signalled := WakeOne(g).signalled - {w})
  }

  function Throttled(g: Gate, now: int, pause: int): Gate {
    var half := g.limit / 2;
    var g := g.(limit := if half < MIN_LIMIT then MIN_LIMIT else half, lastThrottle := Some(now));
    if pause > 0 && now + pause > g.coolUntil then g.(coolUntil := now + pause) else g
  }

  class HostGate {
    var limit: int
    var inFlight: int
    var waiters: seq<Id>
    var signalled: set<Id>
    var coolUntil: int
    var lastThrottle: Option<int>

    function Value(): Gate
      reads this
    {
      Gate(limit, inFlight, waiters, signalled, coolUntil, lastThrottle)
    }

    constructor ()
      ensures Value() == Fresh()
    {
      limit, inFlight, waiters, signalled := DEFAULT_LIMIT, 0, [], {};
      coolUntil, lastThrottle := 0, None;
    }

    /** One locked pass of acquire's loop. */
    method Attempt(now: int, w: Id) returns (v: Verdict)
      modifies this
      ensures (Value(), v) == TryAcquire(old(Value()), now, w)
    {
      if limit < DEFAULT_LIMIT && lastThrottle.Some? && now - lastThrottle.value >= RECOVER_AFTER {
        limit := limit + 1;
        lastThrottle := Some(now);
      }
      var wait := coolUntil - now;
      if wait <= 0 && inFlight < limit {
        inFlight := inFlight + 1;
        return Granted;
      }
      if wait > 0 {
        return Cooling(now + wait);
      }
      waiters := waiters + [w];
      return Queued;
    }

    method WakeNext()
      modifies this
      ensures Value() == WakeOne(old(Value()))
    {
      if |waiters| == 0 {
        return;
      }
      signalled := signalled + {waiters[0]};
      waiters := waiters[1..];
    }

    method GiveBack()
      modifies this
      ensures Value() == Release(old(Value()))
    {
      inFlight := inFlight - 1;
      WakeNext();
    }

    /** cancelWaiter: search the queue, or pass the wake-up on. */
    method Abandon(w: Id)
      modifies this
      ensures Value() == CancelWaiter(old(Value()), w)
    {
      var i := 0;
      while i < |waiters|
        invariant 0 <= i <= |waiters| && waiters == old(waiters) && Value() == old(Value())
        invariant w !in waiters[..i]
      {
        if waiters[i] == w {
          WithoutAt(waiters, i);
          waiters := waiters[..i] + waiters[i + 1..];
          return;
        }
        i := i + 1;
      }
      WakeNext();
      signalled := signalled - {w};
    }

    method Throttle(now: int, pause: int)
      modifies this
      ensures Value() == Throttled(old(Value()), now, pause)
    {
      limit := limit / 2;
      if limit < MIN_LIMIT {
        limit := MIN_LIMIT;
      }
      lastThrottle := Some(now);
      if pause <= 0 {
        return;
      }
      if now + pause > coolUntil {
        coolUntil := now + pause;
      }
    }
  }

  lemma {:induction false} WithoutAt(ws: seq<Id>, i: nat)
    requires i < |ws| && ws[i] !in ws[..i]
    ensures Without(ws, ws[i]) == ws[..i] + ws[i + 1..]
  {
    if i == 0 {
    } else {
      assert ws[0] in ws[..i];
      assert ws[1..][..i - 1] == ws[..i][1..];
      WithoutAt(ws[1..], i - 1);
      assert ws[..i] == [ws[0]] + ws[1..][..i - 1];
    }
  }
}
