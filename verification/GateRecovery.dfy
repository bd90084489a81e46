/** How a host gate slows down and recovers (hostgate.go): its limit and cool-down as
    the history of its requests makes them, and what an attempt comes to. */
module GateRecovery {
  import opened Options
  import opened Histories
  import opened HostGate
  import opened GateRuns

  function Min(a: int, b: int): int {
    if a < b then a else b
  }

  function Max(a: int, b: int): int {
    if a < b then b else a
  }

  /** h goes on from g. */
  ghost predicate Extends(h: Past, g: Past) {
    h == g || (h.Then? && Extends(h.past, g))
  }

  // ----- the last throttle or rise -----

  predicate Rises(s: State, t: State) {
    t.gate.limit > s.gate.limit
  }

  /** When the gate was last told of a 429 or last raised its limit. */
  ghost function LastChange(h: Past): Option<int> {
    match h
    case Begin(_) => None
    case Then(g, e, t) => if e.Told? || Rises(g.state, t) then Some(g.state.now) else LastChange(g)
  }

  /** So long quiet that an attempt widens the gate. */
  ghost predicate Quiet(h: Past) {
    LastChange(h).Some? && h.state.now - LastChange(h).value >= RECOVER_AFTER
  }

  lemma {:induction false} ChangeIsKept(h: Past)
    requires Legal(h)
    ensures h.state.gate.lastThrottle == LastChange(h)
    ensures MIN_LIMIT <= h.state.gate.limit <= DEFAULT_LIMIT
    ensures h.state.gate.limit < DEFAULT_LIMIT ==> LastChange(h).Some?
  {
    if h.Begin? {
    } else {
      ChangeIsKept(h.past);
      ChangeStep(h.past.state, h.event);
    }
  }

  lemma ChangeStep(s: State, e: Event)
    requires Enabled(s, e) && MIN_LIMIT <= s.gate.limit <= DEFAULT_LIMIT
    requires s.gate.limit < DEFAULT_LIMIT ==> s.gate.lastThrottle.Some?
    ensures var t := Next(s, e);
            && t.gate.lastThrottle == (if e.Told? || Rises(s, t) then Some(s.now) else s.gate.lastThrottle)
            && MIN_LIMIT <= t.gate.limit <= DEFAULT_LIMIT
            && (t.gate.limit < DEFAULT_LIMIT ==> t.gate.lastThrottle.Some?)
  {
  }

  /** One step: a 429 halves the limit, down to one; an attempt after a quiet spell
      raises it by one, up to four; nothing else touches it. */
  lemma LimitMoves(h: Past, e: Event)
    requires Legal(h) && Enabled(h.state, e)
    ensures var s, t := h.state, Next(h.state, e);
            t.gate.limit == if e.Told? then Max(1, s.gate.limit / 2)
                            else if e.Attempt? && Quiet(h) then Min(4, s.gate.limit + 1)
                            else s.gate.limit
    ensures Rises(h.state, Next(h.state, e)) <==> e.Attempt? && Quiet(h) && h.state.gate.limit < 4
  {
    ChangeIsKept(h);
  }

  // ----- recovery -----

  /** No 429 was told to the gate between g and h. */
  ghost predicate Unthrottled(h: Past, g: Past) {
    h == g || (h.Then? && Unthrottled(h.past, g) && !h.event.Told?)
  }

  /** Attempts between g and h spaced at least RECOVER_AFTER from each other and from
      the last throttle or rise before g; and when the last of them was. */
  datatype Spell = Spell(attempts: nat, last: int)

  ghost function Spaced(h: Past, g: Past): Spell
    requires Unthrottled(h, g) && LastChange(g).Some?
  {
    if h == g then Spell(0, LastChange(g).value)
    else
      var before := Spaced(h.past, g);
      if h.event.Attempt? && h.past.state.now - before.last >= RECOVER_AFTER
      then Spell(before.attempts + 1, h.past.state.now)
      else before
  }

  /** While no 429 comes, the limit is what it was plus the spaced attempts, up to four:
      it never falls, and three spaced attempts bring any gate back. */
  lemma {:induction false} Recovers(h: Past, g: Past)
    requires Legal(h) && Legal(g) && Unthrottled(h, g) && LastChange(g).Some?
    ensures h.state.gate.limit == Min(4, g.state.gate.limit + Spaced(h, g).attempts)
    ensures Spaced(h, g).attempts >= 3 ==> h.state.gate.limit == 4
    ensures h.state.gate.limit < 4 ==> LastChange(h) == Some(Spaced(h, g).last)
  {
    ChangeIsKept(g);
    if h == g {
    } else {
      Recovers(h.past, g);
      LimitMoves(h.past, h.event);
      ChangeIsKept(h.past);
    }
  }

  /** A gate nobody ever throttled stays fully open. */
  lemma {:induction false} OpenUntilThrottled(h: Past)
    requires Legal(h) && LastChange(h).None?
    ensures h.state.gate.limit == 4
  {
    ChangeIsKept(h);
  }

  // ----- the cool-down -----

  /** The latest moment a 429 has asked the gate to wait for. */
  ghost function CoolEnd(h: Past): int {
    match h
    case Begin(_) => 0
    case Then(g, e, _) =>
      if e.Told? && e.pause > 0 then Max(CoolEnd(g), g.state.now + e.pause) else CoolEnd(g)
  }

  lemma {:induction false} CoolDownIsAsked(h: Past)
    requires Legal(h)
    ensures h.state.gate.coolUntil == CoolEnd(h)
  {
    if h.Begin? {
    } else {
      CoolDownIsAsked(h.past);
    }
  }

  /** What an attempt comes to: it sleeps exactly while a cool-down runs, until its end;
      else it is granted exactly if fewer requests are being sent than the limit, the
      raised one after a quiet spell, allows; else it queues behind everybody. */
  lemma AttemptIff(h: Past, w: Id)
    requires Legal(h) && Enabled(h.state, Attempt(w))
    ensures var s, t := h.state, Next(h.state, Attempt(w));
            var limit := if Quiet(h) then Min(4, s.gate.limit + 1) else s.gate.limit;
            && w in t.procs
            && (t.procs[w] == Sleeping(s.procs[w].attempt, CoolEnd(h)) <==> s.now < CoolEnd(h))
            && (t.procs[w] == Holding(s.procs[w].attempt) <==> CoolEnd(h) <= s.now && |Holders(s)| < limit)
            && (t.procs[w] == Waiting(s.procs[w].attempt) <==> CoolEnd(h) <= s.now && |Holders(s)| >= limit)
            && t.gate.waiters == if t.procs[w].Waiting? then s.gate.waiters + [w] else s.gate.waiters
  {
    ChangeIsKept(h);
    CoolDownIsAsked(h);
    GateInvariant(h);
  }

  // ----- five attempts -----

  /** Which attempt of its request w is at, counted from 0. */
  ghost function Tries(h: Past, w: Id): nat {
    match h
    case Begin(_) => 0
    case Then(g, e, _) =>
      if e == Arrive(w) then 0 else if e == Again(w) then Tries(g, w) + 1 else Tries(g, w)
  }

  lemma {:induction false} TriesAreCounted(h: Past, w: Id)
    requires Legal(h) && w in h.state.procs && !h.state.procs[w].Leaving?
    ensures h.state.procs[w].attempt == Tries(h, w)
  {
    if h.Begin? {
    } else if w in h.past.state.procs && !h.past.state.procs[w].Leaving? {
      TriesAreCounted(h.past, w);
    }
  }

  /** A request that draws a 429 is sent again, from the gate on, exactly if it has been
      sent fewer than five times. */
  lemma AgainIff(h: Past, w: Id)
    requires Legal(h) && Enabled(h.state, Again(w))
    ensures var t := Next(h.state, Again(w));
            && (w in t.procs <==> Tries(h, w) + 1 < 5)
            && (w in t.procs ==> Enabled(t, Attempt(w)))
  {
    TriesAreCounted(h, w);
  }
}
