/** events.go: a feed that hands every subscriber the latest payload. Each
    subscriber's channel holds one payload; one runner goroutine ticks while there
    is anyone to tick for. The class runs the locked sections and the goroutines'
    own steps; sending on a channel asks for room, so that a proof of a send is a
    proof that it does not block. */
module Broadcaster {
  import opened Options

  type Payload = string
  type Chan = nat

  /** A runner: waiting for its ticker or its stop channel, holding a payload it
      has produced but not yet published, or returned. stop is its stop channel. */
  datatype Runner = Runner(stopped: bool, produced: Option<Payload>, gone: bool)

  /** A subscriber's channel was last filled with the current payload; what it still
      holds is that payload, and an empty one has been read. */
  ghost predicate UpToDate(subs: set<Chan>, last: Payload, channels: map<Chan, Option<Payload>>,
                           placed: map<Chan, Payload>)
  {
    && subs <= channels.Keys && placed.Keys == channels.Keys
    && (forall ch :: ch in subs ==> placed[ch] == last)
    && (forall ch :: ch in channels && channels[ch].Some? ==> channels[ch].value == placed[ch])
  }

  /** One runner that has not been stopped while someone is subscribed, none otherwise. */
  ghost predicate OneRunner(subs: set<Chan>, stop: Option<nat>, runners: seq<Runner>) {
    && (subs != {} ==> stop.Some? && stop.value < |runners|)
    && (forall r :: 0 <= r < |runners| ==> (!runners[r].stopped <==> subs != {} && stop == Some(r)))
    && (forall r :: 0 <= r < |runners| && runners[r].gone ==> runners[r].stopped)
  }

  lemma FirstSubscriber(subs: set<Chan>, stop: Option<nat>, runners: seq<Runner>, ch: Chan)
    requires OneRunner(subs, stop, runners)
    ensures subs == {} ==> OneRunner({ch}, Some(|runners|), runners + [Runner(false, None, false)])
    ensures subs != {} ==> OneRunner(subs + {ch}, stop, runners)
  {
  }

  lemma Joined(subs: set<Chan>, last: Payload, now: Payload, channels: map<Chan, Option<Payload>>,
               placed: map<Chan, Payload>, ch: Chan)
    requires UpToDate(subs, last, channels, placed) && ch !in channels && (subs != {} ==> now == last)
    ensures UpToDate(subs + {ch}, now, channels[ch := Some(now)], placed[ch := now])
    ensures channels[ch := None][ch := Some(now)] == channels[ch := Some(now)]
    ensures placed[ch := last][ch := now] == placed[ch := now]
  {
  }

  class Broadcaster {
    var subs: set<Chan>
    var last: Payload
    var stop: Option<nat>                  // which runner's stop channel b.stop is
    var channels: map<Chan, Option<Payload>> // every channel made so far and its content
    var runners: seq<Runner>
    ghost var placed: map<Chan, Payload>   // the last payload put in each channel

    ghost predicate Valid()
      reads this
    {
      UpToDate(subs, last, channels, placed) && OneRunner(subs, stop, runners)
    }

    constructor ()
      ensures Valid() && subs == {} && runners == [] && channels == map[]
    {
      subs, last, stop, channels, runners, placed := {}, "", None, map[], [], map[];
    }

    /** ch <- p on a channel with one place: possible at once only if it is empty. */
    method Send(ch: Chan, p: Payload)
      requires ch in channels && channels[ch].None?
      modifies this`channels, this`placed
      ensures channels == old(channels)[ch := Some(p)] && placed == old(placed)[ch := p]
    {
      channels := channels[ch := Some(p)];
      placed := placed[ch := p];
    }

    /** Subscribe; produced is what produce() returns if it is called. */
    method Subscribe(produced: Payload) returns (ch: Chan)
      requires Valid()
      modifies this
      ensures Valid()
      ensures ch !in old(channels) && subs == old(subs) + {ch}
      ensures last == if old(subs) == {} then produced else old(last)
      ensures channels == old(channels)[ch := Some(last)]
      ensures old(subs) != {} ==> runners == old(runners) && stop == old(stop)
      ensures old(subs) == {} ==> runners == old(runners) + [Runner(false, None, false)] && stop == Some(|old(runners)|)
    {
      ch := FreshChan(channels.Keys);
      OnlyOne(subs, ch);
      FirstSubscriber(subs, stop, runners, ch);
      channels := channels[ch := None];
      placed := placed[ch := last];
      subs := subs + {ch};
      if |subs| == 1 {
        last := produced;
        GoRun();
      }
      Joined(old(subs), old(last), last, old(channels), old(placed), ch);
      Send(ch, last);
    }

    /** b.stop = make(chan struct{}); go b.run(b.stop). */
    method GoRun()
      modifies this`stop, this`runners
      ensures stop == Some(|old(runners)|) && runners == old(runners) + [Runner(false, None, false)]
    {
      stop := Some(|runners|);
      runners := runners + [Runner(false, None, false)];
    }

    /** The function Subscribe returns with ch. */
    method Cancel(ch: Chan)
      requires Valid()
      modifies this`subs, this`runners
      ensures Valid()
      ensures subs == old(subs) - {ch}
      ensures runners == if ch in old(subs) && old(subs) == {ch}
                         then old(runners)[stop.value := old(runners)[stop.value].(stopped := true)] else old(runners)
    {
      if ch !in subs {
        return;
      }
      subs := subs - {ch};
      if |subs| == 0 {
        runners := runners[stop.value := runners[stop.value].(stopped := true)];
      }
    }

    /** A subscriber reads its channel, subscribed or not. */
    method Receive(ch: Chan) returns (p: Payload)
      requires Valid() && ch in channels && channels[ch].Some?
      modifies this`channels
      ensures Valid() && p == placed[ch] && channels == old(channels)[ch := None]
      ensures ch in subs ==> p == last
    {
      p := channels[ch].value;
      channels := channels[ch := None];
    }

    /** A runner's ticker fires and it calls produce, outside the lock. A stopped
        runner may get here too: select takes either of two ready channels. */
    method Produce(r: nat, payload: Payload)
      requires Valid() && r < |runners| && !runners[r].gone && runners[r].produced.None?
      modifies this`runners
      ensures Valid() && runners == old(runners)[r := old(runners)[r].(produced := Some(payload))]
    {
      runners := runners[r := runners[r].(produced := Some(payload))];
    }

    /** A stopped runner sees its stop channel and returns. */
    method Return(r: nat)
      requires Valid() && r < |runners| && runners[r].stopped && runners[r].produced.None?
      modifies this`runners
      ensures Valid() && runners == old(runners)[r := old(runners)[r].(gone := true)]
    {
      runners := runners[r := runners[r].(gone := true)];
    }

    /** The runner's locked section, whichever runner it is. */
    method Publish(r: nat)
      requires Valid() && r < |runners| && runners[r].produced.Some?
      modifies this`last, this`runners, this`channels, this`placed
      ensures Valid()
      ensures last == old(runners)[r].produced.value
      ensures runners == old(runners)[r := old(runners)[r].(produced := None)]
      ensures channels.Keys == old(channels).Keys
      ensures forall ch :: ch in channels ==>
                             channels[ch] == if ch in subs && last != old(last) then Some(last) else old(channels)[ch]
    {
      var payload := runners[r].produced.value;
      runners := runners[r := runners[r].(produced := None)];
      if payload != last {
        last := payload;
        Refill(payload);
        assert subs <= channels.Keys;
      }
    }

    /** Drop what a subscriber has not read yet, then send; for every subscriber. */
    method Refill(payload: Payload)
      requires subs <= channels.Keys && placed.Keys == channels.Keys
      modifies this`channels, this`placed
      ensures channels == Filled(old(channels), subs, Some(payload))
      ensures placed == Filled(old(placed), subs, payload)
    {
      var todo := subs;
      while todo != {}
        invariant todo <= subs <= channels.Keys
        invariant channels == Filled(old(channels), subs - todo, Some(payload))
        invariant placed == Filled(old(placed), subs - todo, payload)
        decreases todo
      {
        var ch :| ch in todo;
        FilledMore(old(channels), subs - todo, ch, Some(payload));
        FilledMore(old(placed), subs - todo, ch, payload);
        assert subs - (todo - {ch}) == subs - todo + {ch};
        if channels[ch].Some? {
          channels := channels[ch := None];
        }
        Send(ch, payload);
        todo := todo - {ch};
      }
    }
  }

  /** m with v put at each of the keys it has. */
  function Filled<T>(m: map<Chan, T>, keys: set<Chan>, v: T): map<Chan, T> {
    map k | k in m :: if k in keys then v else m[k]
  }

  lemma FilledMore<T>(m: map<Chan, T>, keys: set<Chan>, k: Chan, v: T)
    requires k in m
    ensures Filled(m, keys + {k}, v) == Filled(m, keys, v)[k := v]
  {
  }

  /** make(chan): one that does not exist yet. */
  method FreshChan(used: set<Chan>) returns (ch: Chan)
    ensures ch !in used
  {
    ch := 0;
    var rest := used;
    while ch in used
      invariant rest <= used && forall c :: c in used && c >= ch ==> c in rest
      decreases rest
    {
      rest := rest - {ch};
      ch := ch + 1;
    }
  }

  lemma OnlyOne(subs: set<Chan>, ch: Chan)
    requires ch !in subs
    ensures |subs + {ch}| == 1 <==> subs == {}
  {
    if subs != {} {
      var x :| x in subs;
      assert |{x, ch}| == 2 && {x, ch} <= subs + {ch};
      assert |subs + {ch}| == |subs + {ch} - {x, ch}| + 2;
    }
  }
}
