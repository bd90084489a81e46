/** The progress accounting of a TorBox job (start_torbox.go): concurrent files move
    one shared counter by the differences of their own. */
module TorBox {
  import opened Histories

  /** One chosen file: f.done, and where its goroutine is. Between changing f.done
      and adding the difference to the shared counter it carries that difference. */
  datatype Pc = Running | Carrying(delta: int) | Comparing(result: int, delta: int)

  datatype File = File(done: int, pc: Pc)

  datatype State = State(files: seq<File>, cumulative: int)

  /** Progress(done): f.done.Swap, then cumulative.Add of the difference. After a run
      of the downloader: compare BytesDone with f.done, store it, add. A retried or
      restarted attempt may report less than before. */
  datatype Event =
    | Swap(i: nat, done: int)
    | Compare(i: nat, result: int)
    | Store(i: nat)
    | Add(i: nat)

  predicate Enabled(s: State, e: Event) {
    e.i < |s.files| &&
    match e
    case Swap(i, _) => s.files[i].pc.Running?
    case Compare(i, result) => s.files[i].pc.Running? && result > 0 && result != s.files[i].done
    case Store(i) => s.files[i].pc.Comparing?
    case Add(i) => s.files[i].pc.Carrying?
  }

  function Next(s: State, e: Event): State
    requires Enabled(s, e)
  {
    var f := s.files[e.i];
    match e
    case Swap(i, done) => s.(files := s.files[i := File(done, Carrying(done - f.done))])
    case Compare(i, result) => s.(files := s.files[i := f.(pc := Comparing(result, result - f.done))])
    case Store(i) => s.(files := s.files[i := File(f.pc.result, Carrying(f.pc.delta))])
    case Add(i) => State(s.files[i := f.(pc := Running)], s.cumulative + f.pc.delta)
  }

  function Sum(files: seq<File>): int {
    if files == [] then 0 else files[0].done + Sum(files[1..])
  }

  /** The differences on their way to the shared counter. */
  function InFlight(files: seq<File>): int {
    if files == [] then 0 else (if files[0].pc.Carrying? then files[0].pc.delta else 0) + InFlight(files[1..])
  }

  lemma {:induction false} SumUpdate(files: seq<File>, i: nat, f: File)
    requires i < |files|
    ensures Sum(files[i := f]) == Sum(files) - files[i].done + f.done
    ensures InFlight(files[i := f]) == InFlight(files)
                                       - (if files[i].pc.Carrying? then files[i].pc.delta else 0)
                                       + (if f.pc.Carrying? then f.pc.delta else 0)
  {
    if i == 0 {
      assert files[0 := f][1..] == files[1..];
    } else {
      assert files[i := f][1..] == files[1..][i - 1 := f];
      SumUpdate(files[1..], i - 1, f);
    }
  }

  /** A difference computed by Compare is still right when it is stored: a file's
      steps all come from one goroutine at a time. */
  ghost predicate Inv(s: State) {
    && s.cumulative + InFlight(s.files) == Sum(s.files)
    && forall i :: 0 <= i < |s.files| && s.files[i].pc.Comparing? ==>
                     s.files[i].pc.delta == s.files[i].pc.result - s.files[i].done
  }

  type Past = History<State, Event>

  /** Files an earlier run completed are counted up front, the others from zero. */
  ghost predicate Initial(s: State) {
    && (forall i :: 0 <= i < |s.files| ==> s.files[i].pc.Running?)
    && s.cumulative == Sum(s.files)
  }

  ghost predicate Legal(h: Past) {
    match h
    case Begin(s) => Initial(s)
    case Then(g, e, t) => Legal(g) && Enabled(g.state, e) && t == Next(g.state, e)
  }

  lemma {:induction false} NothingInFlight(files: seq<File>)
    requires forall i :: 0 <= i < |files| ==> files[i].pc.Running?
    ensures InFlight(files) == 0
  {
    if files == [] {
    } else {
      NothingInFlight(files[1..]);
    }
  }

  /** Conservation: at every moment the shared counter and the differences not yet
      added make up the sum of the files' counts; when no goroutine is in the
      middle of an update, the counter is exactly that sum. */
  lemma {:induction false} Conserved(h: Past)
    requires Legal(h)
    ensures Inv(h.state)
    ensures (forall i :: 0 <= i < |h.state.files| ==> h.state.files[i].pc.Running?) ==>
              h.state.cumulative == Sum(h.state.files)
  {
    match h
    case Begin(s) => NothingInFlight(s.files);
    case Then(g, e, t) =>
      Conserved(g);
      SumUpdate(g.state.files, e.i, t.files[e.i]);
      if forall i :: 0 <= i < |t.files| ==> t.files[i].pc.Running? {
        NothingInFlight(t.files);
      }
  }

  // ----- what a count is -----

  /** The result of the last finished run of file i's downloader that was compared. */
  ghost function LastResult(h: Past, i: nat): int {
    match h
    case Begin(_) => 0
    case Then(g, e, _) => if e.Compare? && e.i == i then e.result else LastResult(g, i)
  }

  /** The last count reported for file i, by its progress callback or as a stored
      result, from its first count on. */
  ghost function Reported(h: Past, i: nat): int
    requires i < |Start(h).files|
  {
    match h
    case Begin(s) => s.files[i].done
    case Then(g, e, _) =>
      if e.Swap? && e.i == i then e.done
      else if e == Store(i) then LastResult(g, i)
      else Reported(g, i)
  }

  /** What was reported last for the first n files. */
  ghost function ReportedSum(h: Past, n: nat): int
    requires n <= |Start(h).files|
  {
    if n == 0 then 0 else ReportedSum(h, n - 1) + Reported(h, n - 1)
  }

  /** A file's count is the last one reported for it. */
  lemma {:induction false} CountIsReported(h: Past, i: nat)
    requires Legal(h) && i < |Start(h).files|
    ensures |h.state.files| == |Start(h).files| && h.state.files[i].done == Reported(h, i)
    ensures h.state.files[i].pc.Comparing? ==> h.state.files[i].pc.result == LastResult(h, i)
  {
    match h
    case Begin(_) =>
    case Then(g, _, _) => CountIsReported(g, i);
  }

  lemma {:induction false} SumIsReported(h: Past, n: nat)
    requires Legal(h) && n <= |Start(h).files| == |h.state.files|
    ensures Sum(h.state.files[..n]) == ReportedSum(h, n)
  {
    if n == 0 {
    } else {
      SumIsReported(h, n - 1);
      CountIsReported(h, n - 1);
      assert h.state.files[..n] == h.state.files[..n - 1] + [h.state.files[n - 1]];
      SumAppend(h.state.files[..n - 1], h.state.files[n - 1]);
    }
  }

  /** When no goroutine is in the middle of an update, the job's progress is the sum of
      the last reports of its files. */
  lemma {:induction false} ProgressIsReported(h: Past)
    requires Legal(h) && forall i :: 0 <= i < |h.state.files| ==> h.state.files[i].pc.Running?
    ensures |h.state.files| == |Start(h).files|
    ensures h.state.cumulative == ReportedSum(h, |h.state.files|)
  {
    Conserved(h);
    SameFiles(h);
    SumIsReported(h, |h.state.files|);
    assert h.state.files[..|h.state.files|] == h.state.files;
  }

  lemma {:induction false} SameFiles(h: Past)
    requires Legal(h)
    ensures |h.state.files| == |Start(h).files|
  {
    match h
    case Begin(_) =>
    case Then(g, _, _) => SameFiles(g);
  }

  /** The job's counters as one goroutine moves them when no other is in between: the
      two callbacks of a download are the machine's steps one after the other. */
  class Counters {
    var done: seq<int>
    var cumulative: int

    function Value(): State
      reads this
    {
      State(seq(|done|, i requires 0 <= i < |done| reads this => File(done[i], Running)), cumulative)
    }

    /** The Progress callback. */
    method Progress(i: nat, now: int)
      requires i < |done|
      modifies this
      ensures Value() == Next(Next(old(Value()), Swap(i, now)), Add(i))
      ensures done == old(done)[i := now] && cumulative == old(cumulative) + now - old(done)[i]
    {
      var prev := done[i];
      done := done[i := now];
      cumulative := cumulative + (now - prev);
    }

    /** After downloader.Run returned with res.BytesDone. */
    method AfterRun(i: nat, bytesDone: int)
      requires i < |done|
      modifies this
      ensures Value() == if bytesDone > 0 && bytesDone != old(done)[i]
                         then Next(Next(Next(old(Value()), Compare(i, bytesDone)), Store(i)), Add(i))
                         else old(Value())
      ensures done == if bytesDone > 0 then old(done)[i := bytesDone] else old(done)
      ensures cumulative == old(cumulative) + done[i] - old(done)[i]
    {
      var delta := bytesDone - done[i];
      if bytesDone > 0 && delta != 0 {
        done := done[i := bytesDone];
        cumulative := cumulative + delta;
      }
    }
  }

  /** The start of the job: complete files are stored and added one after the other,
      the rest are left for downloading. */
  method CountComplete(lengths: seq<int>, complete: seq<bool>) returns (s: State)
    requires |lengths| == |complete|
    ensures Initial(s) && |s.files| == |lengths|
    ensures forall i :: 0 <= i < |lengths| ==> s.files[i].done == if complete[i] then lengths[i] else 0
  {
    var files: seq<File> := [];
    var cumulative := 0;
    for i := 0 to |lengths|
      invariant |files| == i && cumulative == Sum(files)
      invariant forall k :: 0 <= k < i ==> files[k] == File(if complete[k] then lengths[k] else 0, Running)
    {
      var f := File(if complete[i] then lengths[i] else 0, Running);
      SumAppend(files, f);
      files := files + [f];
      if complete[i] {
        cumulative := cumulative + lengths[i];
      }
    }
    s := State(files, cumulative);
  }

  lemma {:induction false} SumAppend(files: seq<File>, f: File)
    ensures Sum(files + [f]) == Sum(files) + f.done
  {
    if files == [] {
    } else {
      assert (files + [f])[1..] == files[1..] + [f];
      SumAppend(files[1..], f);
    }
  }
}
