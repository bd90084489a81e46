/** The re-entrancy guard of tryStartQueued (queue.go): any number of concurrent
    and nested calls share one running pass at a time. */
module Guard {
  import opened Histories

  /** tryRunning and tryAgain, under tryMu. */
  datatype Flags = Flags(running: bool, again: bool)

  /** The locked entry: become the pass, or ask the running one to go round again. */
  function Enter(f: Flags): (Flags, bool) {
    if f.running then (f.(again := true), false) else (f.(running := true), true)
  }

  /** The deferred exit: was another round asked for? */
  function Leave(f: Flags): (Flags, bool) {
    (Flags(false, false), f.again)
  }

  /** One call of tryStartQueued: made but not yet past the lock, running the pass,
      or past its last iteration with the deferred exit still to run. */
  datatype Pc = Calling | Passing | Closing

  type Id = nat

  /** unserved: the calls since which no pass has begun. */
  datatype State = State(flags: Flags, calls: map<Id, Pc>, unserved: set<Id>)

  datatype Event =
    | Call(c: Id)     // from anywhere: another goroutine, or inside the pass itself
    | Lock(c: Id)
    | PassEnds(c: Id)
    | Close(c: Id)    // the deferred exit; going round again is a new call

  predicate Enabled(s: State, e: Event) {
    match e
    case Call(c) => c !in s.calls && c !in s.unserved
    case Lock(c) => c in s.calls && s.calls[c].Calling?
    case PassEnds(c) => c in s.calls && s.calls[c].Passing?
    case Close(c) => c in s.calls && s.calls[c].Closing?
  }

  function Next(s: State, e: Event): State
    requires Enabled(s, e)
  {
    match e
    case Call(c) => s.(calls := s.calls[c := Calling], unserved := s.unserved + {c})
    case Lock(c) =>
      var (f, run) := Enter(s.flags);
      if run then State(f, s.calls[c := Passing], {})
      else s.(flags := f, calls := s.calls - {c})
    case PassEnds(c) => s.(calls := s.calls[c := Closing])
    case Close(c) =>
      var (f, again) := Leave(s.flags);
      if again then s.(flags := f, calls := s.calls[c := Calling], unserved := s.unserved + {c})
      else s.(flags := f, calls := s.calls - {c})
  }

  predicate InPass(s: State, c: Id) {
    c in s.calls && !s.calls[c].Calling?
  }

  ghost predicate Inv(s: State) {
    // One pass at a time, and tryRunning says whether there is one.
    && (forall c, d :: InPass(s, c) && InPass(s, d) ==> c == d)
    && (s.flags.running <==> exists c :: InPass(s, c))
    && (s.flags.again ==> s.flags.running)
    // A call no pass has answered yet is remembered.
    && (s.unserved != {} ==> s.flags.again || exists c :: c in s.calls && s.calls[c].Calling?)
  }

  type Past = History<State, Event>

  ghost predicate Legal(h: Past) {
    match h
    case Begin(s) => s == State(Flags(false, false), map[], {})
    case Then(g, e, t) => Legal(g) && Enabled(g.state, e) && t == Next(g.state, e)
  }

  lemma StepKeeps(s: State, e: Event)
    requires Inv(s) && Enabled(s, e)
    ensures Inv(Next(s, e))
  {
    var t := Next(s, e);
    match e
    case Call(c) =>
      assert t.calls[c].Calling?;
      assert forall d :: InPass(t, d) <==> InPass(s, d);
    case Lock(c) =>
      if s.flags.running {
        assert forall d :: InPass(t, d) <==> InPass(s, d);
      } else {
        assert InPass(t, c);
        forall d | InPass(t, d)
          ensures d == c
        {
          assert d != c ==> InPass(s, d);
        }
      }
    case PassEnds(c) =>
      assert InPass(s, c);
      assert forall d :: InPass(t, d) <==> InPass(s, d);
      assert forall d :: d in s.calls && s.calls[d].Calling? ==> d in t.calls && t.calls[d].Calling?;
    case Close(c) =>
      assert InPass(s, c);
      forall d
        ensures !InPass(t, d)
      {
        assert InPass(t, d) ==> InPass(s, d);
      }
      if s.flags.again {
        assert t.calls[c].Calling?;
      } else {
        assert forall d :: d in s.calls && s.calls[d].Calling? ==> d in t.calls && t.calls[d].Calling?;
      }
  }

  /** At most one pass runs at a time, and once every call has returned, each call
      has been followed by a pass that began at or after it and ran to its end: a
      freed slot or a raised cap is never forgotten. */
  lemma {:induction false} EveryCallIsServed(h: Past)
    requires Legal(h)
    ensures Inv(h.state)
    ensures h.state.calls == map[] ==> h.state.unserved == {} && !h.state.flags.running && !h.state.flags.again
  {
    if h.Begin? {
    } else {
      EveryCallIsServed(h.past);
      StepKeeps(h.past.state, h.event);
    }
  }

  /** A call leaves the unserved only when a pass begins. */
  lemma {:induction false} ServedByALaterPass(h: Past, from: Past, c: Id)
    requires Legal(h) && Extends(h, from) && c in from.state.unserved && c !in h.state.unserved
    ensures PassBegan(h, from)
  {
    if c in h.past.state.unserved {
      assert h.event.Lock?;
    } else {
      ServedByALaterPass(h.past, from, c);
    }
  }

  ghost predicate Extends(h: Past, from: Past) {
    h == from || (h.Then? && Extends(h.past, from))
  }

  /** On the stretch after from, some call became the pass. */
  ghost predicate PassBegan(h: Past, from: Past) {
    h != from && h.Then? &&
    ((h.event.Lock? && h.event.c in h.state.calls && h.state.calls[h.event.c].Passing?) || PassBegan(h.past, from))
  }
}
