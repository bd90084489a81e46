/** Any number of subscribers and runners of one Broadcaster (events.go), every
    interleaving. A publishing runner holds the lock from Lock to Unlock, but its
    subscribers read their channels without it, between any two of its steps. */
module BroadcastRuns {
  import opened Options
  import opened Histories
  import opened Broadcaster

  /** The locked section under way: runner r has still to serve todo; of drained it
      has emptied the channel and is about to send. */
  datatype Publishing = Publishing(r: nat, todo: set<Chan>, drained: Option<Chan>)

  datatype State = State(
    subs: set<Chan>,
    last: Payload,
    stop: Option<nat>,
    channels: map<Chan, Option<Payload>>,
    placed: map<Chan, Payload>,
    runners: seq<Runner>,
    busy: Option<Publishing>)

  datatype Event =
    | Subscribe(ch: Chan, produced: Payload) // the whole locked section: nobody else has ch yet
    | Cancel(ch: Chan)
    | Receive(ch: Chan)
    | Produce(r: nat, payload: Payload)
    | Return(r: nat)
    | Lock(r: nat)
    | Drain(ch: Chan)
    | Send
    | Unlock

  predicate Inside(s: State, r: nat) {
    s.busy.Some? && s.busy.value.r == r
  }

  /** A send is enabled when the runner comes to it, room or no room. */
  predicate Enabled(s: State, e: Event) {
    match e
    case Subscribe(ch, _) => s.busy.None? && ch !in s.channels
    case Cancel(_) => s.busy.None?
    case Receive(ch) => ch in s.channels && s.channels[ch].Some?
    case Produce(r, _) => r < |s.runners| && !s.runners[r].gone && s.runners[r].produced.None? && !Inside(s, r)
    case Return(r) => r < |s.runners| && s.runners[r].stopped && s.runners[r].produced.None? && !Inside(s, r)
    case Lock(r) => s.busy.None? && r < |s.runners| && s.runners[r].produced.Some?
    case Drain(ch) => s.busy.Some? && s.busy.value.drained.None? && ch in s.busy.value.todo
    case Send => s.busy.Some? && s.busy.value.drained.Some?
    case Unlock => s.busy.Some? && s.busy.value.drained.None? && s.busy.value.todo == {}
  }

  function Next(s: State, e: Event): State
    requires Enabled(s, e)
  {
    match e
    case Subscribe(ch, produced) =>
      var last := if s.subs == {} then produced else s.last;
      s.(subs := s.subs + {ch}, last := last,
         channels := s.channels[ch := Some(last)], placed := s.placed[ch := last],
         stop := if s.subs == {} then Some(|s.runners|) else s.stop,
         runners := if s.subs == {} then s.runners + [Runner(false, None, false)] else s.runners)
    case Cancel(ch) =>
      s.(subs := s.subs - {ch},
         runners := if s.subs == {ch} && s.stop.Some? && s.stop.value < |s.runners|
                    then s.runners[s.stop.value := s.runners[s.stop.value].(stopped := true)] else s.runners)
    case Receive(ch) => s.(channels := s.channels[ch := None])
    case Produce(r, payload) => s.(runners := s.runners[r := s.runners[r].(produced := Some(payload))])
    case Return(r) => s.(runners := s.runners[r := s.runners[r].(gone := true)])
    case Lock(r) =>
      var payload := s.runners[r].produced.value;
      var runners := s.runners[r := s.runners[r].(produced := None)];
      if payload == s.last then s.(runners := runners)
      else s.(runners := runners, last := payload, busy := Some(Publishing(r, s.subs, None)))
    case Drain(ch) =>
      var p := s.busy.value;
      s.(channels := s.channels[ch := None], busy := Some(Publishing(p.r, p.todo - {ch}, Some(ch))))
    case Send =>
      var p := s.busy.value;
      s.(channels := s.channels[p.drained.value := Some(s.last)], placed := s.placed[p.drained.value := s.last],
         busy := Some(p.(drained := None)))
    case Unlock => s.(busy := None)
  }

  // ----- the invariant -----

  /** The subscribers the locked section has still to serve. */
  function Unserved(s: State): set<Chan> {
    if s.busy.None? then {}
    else s.busy.value.todo + if s.busy.value.drained.Some? then {s.busy.value.drained.value} else {}
  }

  /** Every other subscriber's channel was last filled with the current payload, and
      what a channel holds is what it was last filled with. */
  ghost predicate ChannelsOk(s: State) {
    && s.subs <= s.channels.Keys && s.placed.Keys == s.channels.Keys && Unserved(s) <= s.subs
    && (forall ch :: ch in s.subs && ch !in Unserved(s) ==> s.placed[ch] == s.last)
    && (forall ch :: ch in s.channels && s.channels[ch].Some? ==> s.channels[ch].value == s.placed[ch])
  }

  /** Between draining a channel and sending to it, nobody else fills it. */
  ghost predicate RoomOk(s: State) {
    s.busy.Some? && s.busy.value.drained.Some? ==>
      var ch := s.busy.value.drained.value; ch in s.channels && s.channels[ch].None?
  }

  ghost predicate Inv(s: State) {
    ChannelsOk(s) && RoomOk(s) && OneRunner(s.subs, s.stop, s.runners)
  }

  lemma RunnersStep(s: State, e: Event)
    requires Inv(s) && Enabled(s, e)
    ensures var t := Next(s, e); OneRunner(t.subs, t.stop, t.runners)
  {
    if e.Subscribe? {
      FirstSubscriber(s.subs, s.stop, s.runners, e.ch);
      assert s.subs == {} ==> s.subs + {e.ch} == {e.ch};
    }
  }

  lemma ChannelsStep(s: State, e: Event)
    requires Inv(s) && Enabled(s, e)
    ensures ChannelsOk(Next(s, e)) && RoomOk(Next(s, e))
  {
  }

  // ----- histories -----

  type Past = History<State, Event>

  ghost predicate Legal(h: Past) {
    match h
    case Begin(s) => s == State({}, "", None, map[], map[], [], None)
    case Then(g, e, t) => Legal(g) && Enabled(g.state, e) && t == Next(g.state, e)
  }

  lemma {:induction false} Kept(h: Past)
    requires Legal(h)
    ensures Inv(h.state)
  {
    match h
    case Begin(_) =>
    case Then(g, e, _) =>
      Kept(g);
      RunnersStep(g.state, e);
      ChannelsStep(g.state, e);
  }

  /** No send ever blocks while the lock is held: whenever the publishing runner comes
      to a send, the channel is empty, whatever its reader has done meanwhile. */
  lemma {:induction false} SendFindsRoom(h: Past)
    requires Legal(h) && Enabled(h.state, Send)
    ensures var ch := h.state.busy.value.drained.value;
            ch in h.state.subs && ch in h.state.channels && h.state.channels[ch].None?
  {
    Kept(h);
  }

  /** The last payload placed in each subscriber's channel is the current one, except
      for those a locked section has still to serve: so a subscriber whose channel is
      empty has read the current payload, and one that is not will read it. */
  lemma {:induction false} LatestIsPlaced(h: Past, ch: Chan)
    requires Legal(h) && ch in h.state.subs && (h.state.busy.None? || ch !in Unserved(h.state))
    ensures ch in h.state.channels && ch in h.state.placed && h.state.placed[ch] == h.state.last
    ensures h.state.channels[ch].Some? ==> h.state.channels[ch].value == h.state.last
  {
    Kept(h);
  }

  /** In every reachable state exactly one runner is not stopped while anyone is
      subscribed, and none otherwise; a stale runner's last tick does not change that. */
  lemma {:induction false} RunnersMatchSubscribers(h: Past)
    requires Legal(h)
    ensures |set r | 0 <= r < |h.state.runners| && !h.state.runners[r].stopped| == if h.state.subs == {} then 0 else 1
  {
    Kept(h);
    var s := h.state;
    var live := set r | 0 <= r < |s.runners| && !s.runners[r].stopped;
    if s.subs == {} {
      assert live == {};
    } else {
      assert live == {s.stop.value};
    }
  }

  // ----- which payload is the current one -----

  /** What runner r produced last. */
  ghost function Produced(h: Past, r: nat): Option<Payload> {
    match h
    case Begin(_) => None
    case Then(g, e, _) => if e.Produce? && e.r == r then Some(e.payload) else Produced(g, r)
  }

  /** The payload that came last to the lock: the one produced for a first subscriber, or
      the last one of a runner that took the lock. */
  ghost function Current(h: Past): Option<Payload> {
    match h
    case Begin(_) => Some("")
    case Then(g, e, _) =>
      if e.Subscribe? && g.state.subs == {} then Some(e.produced)
      else if e.Lock? then Produced(g, e.r)
      else Current(g)
  }

  lemma {:induction false} RunnerHolds(h: Past, r: nat)
    requires Legal(h) && r < |h.state.runners| && h.state.runners[r].produced.Some?
    ensures Produced(h, r) == h.state.runners[r].produced
  {
    if h.Begin? {
    } else if r < |h.past.state.runners| && h.past.state.runners[r].produced.Some? {
      RunnerHolds(h.past, r);
    }
  }

  /** The feed's payload is always the one that came last to the lock. With LatestIsPlaced:
      every subscriber comes to read it, or a later one. */
  lemma {:induction false} LastIsCurrent(h: Past)
    requires Legal(h)
    ensures Some(h.state.last) == Current(h)
  {
    if h.Begin? {
    } else {
      LastIsCurrent(h.past);
      if h.event.Lock? {
        RunnerHolds(h.past, h.event.r);
      }
    }
  }

  /** A payload like the last one is not sent again: a runner that comes to the lock has
      channels to fill exactly if what it produced differs, and then all subscribers'. */
  lemma {:induction false} SentIff(h: Past, r: nat)
    requires Legal(h) && Enabled(h.state, Lock(r))
    ensures var t := Next(h.state, Lock(r));
            && (t.busy.Some? <==> Produced(h, r) != Current(h))
            && (t.busy.Some? ==> t.busy.value == Publishing(r, h.state.subs, None))
            && t.channels == h.state.channels && t.subs == h.state.subs
  {
    LastIsCurrent(h);
    RunnerHolds(h, r);
  }

  // ----- the lock comes back -----

  function ToServe(s: State): nat {
    if s.busy.None? then 0
    else 1 + 2 * |s.busy.value.todo| + if s.busy.value.drained.Some? then 1 else 0
  }

  predicate HoldersStep(e: Event) {
    e.Drain? || e.Send? || e.Unlock?
  }

  /** A locked section can always go on, each of its steps brings it nearer its end,
      and no other step takes it back. */
  lemma LockComesBack(s: State) returns (e: Event)
    requires s.busy.Some?
    ensures HoldersStep(e) && Enabled(s, e)
    ensures forall f :: Enabled(s, f) && HoldersStep(f) ==> ToServe(Next(s, f)) < ToServe(s)
    ensures forall f :: Enabled(s, f) && !HoldersStep(f) ==> Next(s, f).busy == s.busy
  {
    var p := s.busy.value;
    if p.drained.Some? {
      e := Send;
    } else if ch :| ch in p.todo {
      e := Drain(ch);
    } else {
      e := Unlock;
    }
    forall f | Enabled(s, f) && HoldersStep(f)
      ensures ToServe(Next(s, f)) < ToServe(s)
    {
      if f.Drain? {
        assert p.todo == p.todo - {f.ch} + {f.ch};
      }
    }
  }

  /** A locked section nobody interrupts does to the channels what Refill does. */
  lemma {:induction false} Refilled(h: Past) returns (r: Past)
    requires Legal(h) && h.state.busy.Some? && h.state.busy.value.drained.None?
    ensures Legal(r) && r.state.busy.None? && r.state.subs == h.state.subs && r.state.last == h.state.last
    ensures r.state.channels == Filled(h.state.channels, h.state.busy.value.todo, Some(h.state.last))
    ensures r.state.placed == Filled(h.state.placed, h.state.busy.value.todo, h.state.last)
    decreases h.state.busy.value.todo
  {
    Kept(h);
    var s := h.state;
    var todo := s.busy.value.todo;
    if todo == {} {
      r := Then(h, Unlock, Next(s, Unlock));
      assert Filled(s.channels, {}, Some(s.last)) == s.channels && Filled(s.placed, {}, s.last) == s.placed;
    } else {
      var ch :| ch in todo;
      var g := ServeOne(h, ch);
      r := Refilled(g);
      FilledTwice(s.channels, todo, ch, Some(s.last));
      FilledTwice(s.placed, todo, ch, s.last);
    }
  }

  lemma ServeOne(h: Past, ch: Chan) returns (r: Past)
    requires Legal(h) && h.state.busy.Some? && h.state.busy.value.drained.None? && ch in h.state.busy.value.todo
    ensures Legal(r)
    ensures var s, t := h.state, r.state;
            t == s.(channels := s.channels[ch := Some(s.last)], placed := s.placed[ch := s.last],
                    busy := Some(Publishing(s.busy.value.r, s.busy.value.todo - {ch}, None)))
  {
    var s1 := Next(h.state, Drain(ch));
    var s2 := Next(s1, Send);
    assert h.state.channels[ch := None][ch := Some(h.state.last)] == h.state.channels[ch := Some(h.state.last)];
    r := Then(Then(h, Drain(ch), s1), Send, s2);
  }

  lemma FilledTwice<T>(m: map<Chan, T>, keys: set<Chan>, k: Chan, v: T)
    requires k in m && k in keys
    ensures Filled(m[k := v], keys - {k}, v) == Filled(m, keys, v)
  {
  }
}
