/** Walk (webdav.go): a fixed pool of workers lists a remote tree through one
    shared queue, a count of active listings and a condition variable. */
module TreeWalk {
  import opened Options

  /** The remote side: what List answers for each directory. */
  datatype Tree = File(path: string) | Dir(path: string, kids: seq<Tree>)

  function DirsIn(kids: seq<Tree>): seq<Tree> {
    if kids == [] then [] else (if kids[0].Dir? then [kids[0]] else []) + DirsIn(kids[1..])
  }

  function FilesIn(kids: seq<Tree>): seq<string> {
    if kids == [] then [] else (if kids[0].File? then [kids[0].path] else []) + FilesIn(kids[1..])
  }

  /** The fields under Walk's mutex. */
  datatype Shared = Shared(queue: seq<Tree>, active: int, files: seq<string>, firstErr: bool)

  datatype Choice = Sleep | Leave | Take(dir: Tree)

  /** The locked test at the top of a worker's loop. */
  function Choose(p: Shared, cancelled: bool): (Shared, Choice) {
    if p.queue == [] && p.active > 0 && !p.firstErr && !cancelled then (p, Sleep)
    else if p.queue == [] || p.firstErr || cancelled then (p, Leave)
    else
      var last := |p.queue| - 1;
      (p.(queue := p.queue[..last], active := p.active + 1), Take(p.queue[last]))
  }

  function Found(p: Shared, kids: seq<Tree>): Shared {
    p.(active := p.active - 1, queue := p.queue + DirsIn(kids), files := p.files + FilesIn(kids))
  }

  function Missed(p: Shared, cancelled: bool): Shared {
    p.(active := p.active - 1, firstErr := p.firstErr || !cancelled)
  }

  lemma Shift<T>(a: seq<T>, x: T, rest: seq<T>)
    ensures a + ([x] + rest) == a + [x] + rest
  {
  }

  lemma SortStep(kids: seq<Tree>, i: nat)
    requires i < |kids|
    ensures DirsIn(kids[i..]) == (if kids[i].Dir? then [kids[i]] else []) + DirsIn(kids[i + 1..])
    ensures FilesIn(kids[i..]) == (if kids[i].Dir? then [] else [kids[i].path]) + FilesIn(kids[i + 1..])
  {
    assert kids[i..][0] == kids[i] && kids[i..][1..] == kids[i + 1..];
  }

  class Pool {
    var queue: seq<Tree>
    var active: int
    var files: seq<string>
    var firstErr: bool

    function Value(): Shared
      reads this
    {
      Shared(queue, active, files, firstErr)
    }

    constructor (root: Tree)
      ensures Value() == Shared([root], 0, [], false)
    {
      queue, active, files, firstErr := [root], 0, [], false;
    }

    method Decide(cancelled: bool) returns (c: Choice)
      modifies this
      ensures (Value(), c) == Choose(old(Value()), cancelled)
      ensures c.Take? <==> old(queue) != [] && !old(firstErr) && !cancelled
      ensures c.Take? ==> old(queue) == queue + [c.dir] && active == old(active) + 1
      ensures !c.Take? ==> Value() == old(Value())
    {
      if |queue| == 0 && active > 0 && !firstErr && !cancelled {
        return Sleep;
      }
      if |queue| == 0 || firstErr || cancelled {
        return Leave;
      }
      var p := queue[|queue| - 1];
      queue := queue[..|queue| - 1];
      active := active + 1;
      return Take(p);
    }

    method Deliver(children: seq<Tree>)
      modifies this
      ensures Value() == Found(old(Value()), children)
      ensures active == old(active) - 1 && old(queue) <= queue && old(files) <= files
    {
      active := active - 1;
      var i := 0;
      while i < |children|
        invariant 0 <= i <= |children|
        invariant active == old(active) - 1 && firstErr == old(firstErr)
        invariant queue + DirsIn(children[i..]) == old(queue) + DirsIn(children)
        invariant files + FilesIn(children[i..]) == old(files) + FilesIn(children)
      {
        SortStep(children, i);
        Shift(queue, children[i], DirsIn(children[i + 1..]));
        Shift(files, children[i].path, FilesIn(children[i + 1..]));
        if children[i].Dir? {
          queue := queue + [children[i]];
        } else {
          files := files + [children[i].path];
        }
        i := i + 1;
      }
    }

    method Fail(cancelled: bool)
      modifies this
      ensures Value() == Missed(old(Value()), cancelled)
      ensures active == old(active) - 1 && queue == old(queue) && files == old(files)
      ensures firstErr <==> old(firstErr) || !cancelled
    {
      active := active - 1;
      if !cancelled && !firstErr {
        firstErr := true;
      }
    }
  }

  // ----- the pool as a state machine -----

  /** A worker: about to lock and choose, in cond.Wait, inside List, about to
      broadcast and go on, about to cancel after an error, about to broadcast and
      return, returned. */
  datatype Pc = Choosing | Asleep | Listing(dir: Tree) | Announcing | Failing | Parting | Gone

  /** asked logs every directory List was called for, failed whether any List
      failed, lost the entries those failures kept out of sight. */
  datatype State = State(
    shared: Shared,
    ctxDone: bool,
    cancelCalled: bool,
    watcherDone: bool,
    workers: seq<Pc>,
    asked: seq<string>,
    failed: bool,
    lost: seq<Tree>)

  datatype Event =
    | Lock(w: nat)
    | ListOk(w: nat)
    | ListFails(w: nat)
    | CallCancel(w: nat)
    | Broadcast(w: nat)
    | WatcherWakes          // the goroutine that broadcasts once the context is done
    | CtxDone

  predicate Cancelled(s: State) {
    s.ctxDone || s.cancelCalled
  }

  function Initial(root: Tree, n: nat): State {
    State(Shared([root], 0, [], false), false, false, false, seq(n, _ => Choosing), [], false, [])
  }

  predicate Enabled(s: State, e: Event) {
    match e
    case Lock(w) => w < |s.workers| && s.workers[w].Choosing?
    case ListOk(w) => w < |s.workers| && s.workers[w].Listing? && s.workers[w].dir.Dir?
    case ListFails(w) => w < |s.workers| && s.workers[w].Listing? && s.workers[w].dir.Dir?
    case CallCancel(w) => w < |s.workers| && s.workers[w].Failing?
    case Broadcast(w) => w < |s.workers| && (s.workers[w].Announcing? || s.workers[w].Parting?)
    case WatcherWakes => Cancelled(s) && !s.watcherDone
    case CtxDone => !s.ctxDone
  }

  function Wake(ws: seq<Pc>): (r: seq<Pc>)
    ensures |r| == |ws|
    ensures forall i :: 0 <= i < |ws| ==> r[i] == if ws[i].Asleep? then Choosing else ws[i]
  {
    if ws == [] then [] else [if ws[0].Asleep? then Choosing else ws[0]] + Wake(ws[1..])
  }

  function Next(s: State, e: Event): State
    requires Enabled(s, e)
  {
    match e
    case Lock(w) =>
      var (p, c) := Choose(s.shared, Cancelled(s));
      (match c
       case Sleep => s.(workers := s.workers[w := Asleep])
       case Leave => s.(workers := s.workers[w := Parting])
       case Take(d) => s.(shared := p, workers := s.workers[w := Listing(d)], asked := s.asked + [d.path]))
    case ListOk(w) =>
      s.(shared := Found(s.shared, s.workers[w].dir.kids), workers := s.workers[w := Announcing])
    case ListFails(w) =>
      s.(shared := Missed(s.shared, Cancelled(s)), workers := s.workers[w := Failing], failed := true,
         lost := s.lost + s.workers[w].dir.kids)
    case CallCancel(w) => s.(cancelCalled := true, workers := s.workers[w := Parting])
    case Broadcast(w) => s.(workers := Wake(s.workers[w := if s.workers[w].Parting? then Gone else Choosing]))
    case WatcherWakes => s.(watcherDone := true, workers := Wake(s.workers))
    case CtxDone => s.(ctxDone := true)
  }

  // ----- what is below a tree -----

  /** What to count in a tree: directories or files. */
  datatype Sort = Directories | Files

  /** How often path p names a directory (file) of the tree, itself included. */
  function Count(t: Tree, k: Sort, p: string): nat
    decreases t, 1
  {
    match t
    case File(q) => if k.Files? && p == q then 1 else 0
    case Dir(q, kids) => (if k.Directories? && p == q then 1 else 0) + CountAll(kids, k, p)
  }

  function CountAll(ts: seq<Tree>, k: Sort, p: string): nat
    decreases ts, 0
  {
    if ts == [] then 0 else Count(ts[0], k, p) + CountAll(ts[1..], k, p)
  }

  lemma {:induction false} CountConcat(a: seq<Tree>, b: seq<Tree>, k: Sort, p: string)
    ensures CountAll(a + b, k, p) == CountAll(a, k, p) + CountAll(b, k, p)
  {
    if a == [] {
      assert a + b == b;
    } else {
      assert (a + b)[1..] == a[1..] + b;
      CountConcat(a[1..], b, k, p);
    }
  }

  lemma OneMore(q: string, ps: seq<string>, p: string)
    ensures multiset([q] + ps)[p] == multiset(ps)[p] + if p == q then 1 else 0
  {
  }

  /** A listing splits into directories to queue and files to keep. */
  lemma {:induction false} CountSplit(kids: seq<Tree>, k: Sort, p: string)
    ensures CountAll(kids, k, p) == CountAll(DirsIn(kids), k, p) + if k.Files? then multiset(FilesIn(kids))[p] else 0
  {
    if kids == [] {
    } else {
      CountSplit(kids[1..], k, p);
      if kids[0].Dir? {
        assert DirsIn(kids)[1..] == DirsIn(kids[1..]);
        assert FilesIn(kids) == FilesIn(kids[1..]);
      } else {
        assert DirsIn(kids) == DirsIn(kids[1..]);
        assert FilesIn(kids) == [kids[0].path] + FilesIn(kids[1..]);
        OneMore(kids[0].path, FilesIn(kids[1..]), p);
      }
    }
  }

  /** What the directories being listed will still bring in. */
  function Held(w: Pc, k: Sort, p: string): nat {
    if w.Listing? && w.dir.Dir? then CountAll(w.dir.kids, k, p) else 0
  }

  function HeldAll(ws: seq<Pc>, k: Sort, p: string): nat {
    if ws == [] then 0 else Held(ws[0], k, p) + HeldAll(ws[1..], k, p)
  }

  lemma {:induction false} HeldUpdate(ws: seq<Pc>, i: nat, w: Pc, k: Sort, p: string)
    requires i < |ws|
    ensures HeldAll(ws[i := w], k, p) + Held(ws[i], k, p) == HeldAll(ws, k, p) + Held(w, k, p)
  {
    if i == 0 {
      assert ws[0 := w][1..] == ws[1..];
    } else {
      assert ws[i := w][1..] == ws[1..][i - 1 := w];
      HeldUpdate(ws[1..], i - 1, w, k, p);
    }
  }

  lemma {:induction false} HeldWake(ws: seq<Pc>, k: Sort, p: string)
    ensures HeldAll(Wake(ws), k, p) == HeldAll(ws, k, p)
  {
    if ws == [] {
    } else {
      HeldWake(ws[1..], k, p);
      assert Wake(ws)[1..] == Wake(ws[1..]);
    }
  }

  // ----- counting workers -----

  /** What to add up over the workers: listings under way, listing work left,
      broadcasts owed, workers about to choose. */
  datatype Kind = Listings | Work | Owed | Choosers

  function Dirs(t: Tree): nat
    decreases t, 1
  {
    match t
    case File(_) => 0
    case Dir(_, kids) => 1 + DirsAll(kids)
  }

  function DirsAll(ts: seq<Tree>): nat
    decreases ts, 0
  {
    if ts == [] then 0 else Dirs(ts[0]) + DirsAll(ts[1..])
  }

  function Weight(w: Pc, k: Kind): nat {
    match k
    case Listings => if w.Listing? then 1 else 0
    case Work =>
      (match w
       case Listing(d) => 2 * Dirs(d)
       case Choosing => 1
       case Asleep => 1
       case Announcing => 1
       case _ => 0)
    case Owed => if w.Failing? then 2 else if w.Announcing? || w.Parting? then 1 else 0
    case Choosers => if w.Choosing? then 1 else 0
  }

  function Sum(ws: seq<Pc>, k: Kind): nat {
    if ws == [] then 0 else Weight(ws[0], k) + Sum(ws[1..], k)
  }

  lemma {:induction false} SumUpdate(ws: seq<Pc>, i: nat, w: Pc, k: Kind)
    requires i < |ws|
    ensures Sum(ws[i := w], k) + Weight(ws[i], k) == Sum(ws, k) + Weight(w, k)
  {
    if i == 0 {
      assert ws[0 := w][1..] == ws[1..];
    } else {
      assert ws[i := w][1..] == ws[1..][i - 1 := w];
      SumUpdate(ws[1..], i - 1, w, k);
    }
  }

  lemma {:induction false} SumWake(ws: seq<Pc>, k: Kind)
    requires !k.Choosers?
    ensures Sum(Wake(ws), k) == Sum(ws, k)
  {
    if ws == [] {
    } else {
      SumWake(ws[1..], k);
      assert Wake(ws)[1..] == Wake(ws[1..]);
    }
  }

  lemma {:induction false} SumPositive(ws: seq<Pc>, k: Kind)
    ensures Sum(ws, k) > 0 <==> exists i :: 0 <= i < |ws| && Weight(ws[i], k) > 0
  {
    if ws == [] {
    } else {
      SumPositive(ws[1..], k);
      assert forall i :: 0 < i < |ws| ==> ws[i] == ws[1..][i - 1];
    }
  }

  // ----- the invariant -----

  /** Every directory (file) of the tree is asked for (reported), below the queue,
      below a listing under way, or lost to a failure. */
  ghost predicate Conserved(root: Tree, s: State, k: Sort, p: string) {
    multiset(if k.Directories? then s.asked else s.shared.files)[p]
    + CountAll(s.shared.queue, k, p) + HeldAll(s.workers, k, p) + CountAll(s.lost, k, p)
    == Count(root, k, p)
  }

  ghost predicate DirsOk(s: State) {
    && (forall i :: 0 <= i < |s.shared.queue| ==> s.shared.queue[i].Dir?)
    && (forall w :: 0 <= w < |s.workers| && s.workers[w].Listing? ==> s.workers[w].dir.Dir?)
  }

  ghost predicate FlagsOk(s: State) {
    && (!s.failed ==> s.lost == [])
    && (s.failed ==> s.shared.firstErr || s.ctxDone)
    && (s.shared.firstErr ==> s.failed)
    && (s.cancelCalled ==> s.failed)
    && (forall w :: 0 <= w < |s.workers| && s.workers[w].Failing? ==> s.failed)
    && (s.watcherDone ==> Cancelled(s))
  }

  ghost predicate ShapeOk(s: State) {
    s.shared.active == Sum(s.workers, Listings) && DirsOk(s) && FlagsOk(s)
  }

  /** The tree is exhausted, or the walk has been stopped. */
  predicate Over(s: State) {
    s.shared.firstErr || Cancelled(s) || (s.shared.queue == [] && s.shared.active == 0)
  }

  /** A broadcast is on its way. */
  ghost predicate BroadcastDue(s: State) {
    || (Cancelled(s) && !s.watcherDone)
    || exists w :: 0 <= w < |s.workers| && (s.workers[w].Announcing? || s.workers[w].Failing? || s.workers[w].Parting?)
  }

  /** Nobody returns early; whoever sleeps has reason to, or will be woken. */
  ghost predicate PoolOk(s: State) {
    && (forall w :: 0 <= w < |s.workers| && (s.workers[w].Parting? || s.workers[w].Gone?) ==> Over(s))
    && (forall w :: 0 <= w < |s.workers| && s.workers[w].Asleep? ==>
                      || BroadcastDue(s)
                      || (s.shared.queue == [] && s.shared.active > 0 && !s.shared.firstErr && !Cancelled(s)))
  }

  ghost predicate Inv(root: Tree, s: State) {
    (forall k, p :: Conserved(root, s, k, p)) && ShapeOk(s) && PoolOk(s)
  }

  lemma ConservedTake(root: Tree, s: State, w: nat, k: Sort, p: string)
    requires Conserved(root, s, k, p) && ShapeOk(s)
    requires Enabled(s, Lock(w)) && Choose(s.shared, Cancelled(s)).1.Take?
    ensures Conserved(root, Next(s, Lock(w)), k, p)
  {
    var (q, c) := Choose(s.shared, Cancelled(s));
    HeldUpdate(s.workers, w, Listing(c.dir), k, p);
    CountTaken(s.shared.queue, k, p);
    AskedMore(s.asked, c.dir.path, p);
  }

  lemma CountTaken(queue: seq<Tree>, k: Sort, p: string)
    requires queue != []
    ensures CountAll(queue, k, p) == CountAll(queue[..|queue| - 1], k, p) + Count(queue[|queue| - 1], k, p)
  {
    var last := queue[|queue| - 1];
    assert queue == queue[..|queue| - 1] + [last];
    CountConcat(queue[..|queue| - 1], [last], k, p);
    assert [last][1..] == [];
  }

  lemma AskedMore(asked: seq<string>, q: string, p: string)
    ensures multiset(asked + [q])[p] == multiset(asked)[p] + if p == q then 1 else 0
  {
  }

  lemma ConservedFound(root: Tree, s: State, w: nat, k: Sort, p: string)
    requires Conserved(root, s, k, p) && Enabled(s, ListOk(w))
    ensures Conserved(root, Next(s, ListOk(w)), k, p)
  {
    var kids := s.workers[w].dir.kids;
    HeldUpdate(s.workers, w, Announcing, k, p);
    CountSplit(kids, k, p);
    CountConcat(s.shared.queue, DirsIn(kids), k, p);
  }

  lemma ConservedMissed(root: Tree, s: State, w: nat, k: Sort, p: string)
    requires Conserved(root, s, k, p) && Enabled(s, ListFails(w))
    ensures Conserved(root, Next(s, ListFails(w)), k, p)
  {
    HeldUpdate(s.workers, w, Failing, k, p);
    CountConcat(s.lost, s.workers[w].dir.kids, k, p);
  }

  /** A worker that is not listing may move to any other such place. */
  lemma ConservedMove(root: Tree, s: State, w: nat, to: Pc, k: Sort, p: string)
    requires Conserved(root, s, k, p) && w < |s.workers| && !s.workers[w].Listing? && !to.Listing?
    ensures Conserved(root, s.(workers := s.workers[w := to]), k, p)
    ensures Conserved(root, s.(workers := Wake(s.workers[w := to])), k, p)
  {
    HeldUpdate(s.workers, w, to, k, p);
    HeldWake(s.workers[w := to], k, p);
  }

  lemma ConservedStep(root: Tree, s: State, e: Event, k: Sort, p: string)
    requires Conserved(root, s, k, p) && ShapeOk(s) && Enabled(s, e)
    ensures Conserved(root, Next(s, e), k, p)
  {
    match e
    case Lock(w) =>
      match Choose(s.shared, Cancelled(s)).1 {
        case Sleep => ConservedMove(root, s, w, Asleep, k, p);
        case Leave => ConservedMove(root, s, w, Parting, k, p);
        case Take(_) => ConservedTake(root, s, w, k, p);
      }
    case ListOk(w) => ConservedFound(root, s, w, k, p);
    case ListFails(w) => ConservedMissed(root, s, w, k, p);
    case CallCancel(w) => ConservedMove(root, s, w, Parting, k, p);
    case Broadcast(w) => ConservedMove(root, s, w, if s.workers[w].Parting? then Gone else Choosing, k, p);
    case WatcherWakes => HeldWake(s.workers, k, p);
    case CtxDone =>
  }

  lemma {:induction false} DirsInAreDirs(kids: seq<Tree>)
    ensures forall i :: 0 <= i < |DirsIn(kids)| ==> DirsIn(kids)[i].Dir?
  {
    if kids == [] {
    } else {
      DirsInAreDirs(kids[1..]);
    }
  }

  lemma CountStep(s: State, e: Event)
    requires ShapeOk(s) && Enabled(s, e)
    ensures Next(s, e).shared.active == Sum(Next(s, e).workers, Listings)
  {
    match e
    case Lock(w) => SumUpdate(s.workers, w, Next(s, e).workers[w], Listings);
    case ListOk(w) => SumUpdate(s.workers, w, Announcing, Listings);
    case ListFails(w) => SumUpdate(s.workers, w, Failing, Listings);
    case CallCancel(w) => SumUpdate(s.workers, w, Parting, Listings);
    case Broadcast(w) =>
      var p := if s.workers[w].Parting? then Gone else Choosing;
      SumUpdate(s.workers, w, p, Listings);
      SumWake(s.workers[w := p], Listings);
    case WatcherWakes => SumWake(s.workers, Listings);
    case CtxDone =>
  }

  lemma DirsStep(s: State, e: Event)
    requires DirsOk(s) && Enabled(s, e)
    ensures DirsOk(Next(s, e))
  {
    if e.ListOk? {
      DirsInAreDirs(s.workers[e.w].dir.kids);
    }
  }

  lemma FlagsStep(s: State, e: Event)
    requires FlagsOk(s) && Enabled(s, e)
    ensures FlagsOk(Next(s, e))
  {
  }

  lemma ShapeStep(s: State, e: Event)
    requires ShapeOk(s) && Enabled(s, e)
    ensures ShapeOk(Next(s, e))
  {
    CountStep(s, e);
    DirsStep(s, e);
    FlagsStep(s, e);
  }

  lemma PoolLock(s: State, w: nat)
    requires ShapeOk(s) && PoolOk(s) && Enabled(s, Lock(w))
    ensures PoolOk(Next(s, Lock(w)))
  {
    var t := Next(s, Lock(w));
    assert forall x :: 0 <= x < |s.workers| && x != w ==> t.workers[x] == s.workers[x];
    assert BroadcastDue(s) ==> BroadcastDue(t);
  }

  lemma PoolListed(s: State, e: Event)
    requires ShapeOk(s) && PoolOk(s) && Enabled(s, e) && (e.ListOk? || e.ListFails? || e.CallCancel?)
    ensures PoolOk(Next(s, e))
  {
    var t := Next(s, e);
    SumPositive(s.workers, Listings);
    assert e.CallCancel? || Weight(s.workers[e.w], Listings) > 0;
    assert t.workers[e.w].Announcing? || t.workers[e.w].Failing? || t.workers[e.w].Parting?;
  }

  lemma PoolStep(s: State, e: Event)
    requires ShapeOk(s) && PoolOk(s) && Enabled(s, e)
    ensures PoolOk(Next(s, e))
  {
    match e
    case Lock(w) => PoolLock(s, w);
    case ListOk(_) => PoolListed(s, e);
    case ListFails(_) => PoolListed(s, e);
    case CallCancel(_) => PoolListed(s, e);
    case Broadcast(w) =>
    case WatcherWakes =>
    case CtxDone => assert BroadcastDue(s) ==> BroadcastDue(Next(s, e));
  }

  lemma StepKeeps(root: Tree, s: State, e: Event)
    requires Inv(root, s) && Enabled(s, e)
    ensures Inv(root, Next(s, e))
  {
    forall k, p
      ensures Conserved(root, Next(s, e), k, p)
    {
      ConservedStep(root, s, e, k, p);
    }
    ShapeStep(s, e);
    PoolStep(s, e);
  }

  lemma {:induction false} AllChoosing(n: nat, k: Sort, p: string)
    ensures HeldAll(seq(n, _ => Choosing), k, p) == 0
    ensures Sum(seq(n, _ => Choosing), Listings) == 0
  {
    if n == 0 {
    } else {
      assert seq(n, _ => Choosing)[1..] == seq(n - 1, _ => Choosing);
      AllChoosing(n - 1, k, p);
    }
  }

  lemma InitialOk(root: Tree, n: nat)
    requires root.Dir?
    ensures Inv(root, Initial(root, n))
  {
    AllChoosing(n, Files, "");
    forall k, p
      ensures Conserved(root, Initial(root, n), k, p)
    {
      AllChoosing(n, k, p);
    }
  }

  // ----- what Walk returns -----

  datatype Outcome = Entries(files: seq<string>) | Error

  /** After wg.Wait. */
  function Result(s: State): Outcome {
    if s.shared.firstErr || s.ctxDone then Error else Entries(s.shared.files)
  }

  predicate AllGone(s: State) {
    forall w :: 0 <= w < |s.workers| ==> s.workers[w].Gone?
  }

  /** The files are exactly those below the root, each as often as it is there. */
  ghost predicate WholeTree(root: Tree, files: seq<string>) {
    forall p :: multiset(files)[p] == Count(root, Files, p)
  }

  /** A result without error is the whole tree, and every directory was listed
      exactly as often as it occurs; a failed listing or a cancelled context never
      yields a partial list. */
  lemma ResultIsWhole(root: Tree, s: State)
    requires Inv(root, s) && AllGone(s) && |s.workers| > 0
    ensures Result(s).Entries? ==>
              && WholeTree(root, s.shared.files)
              && (forall p :: multiset(s.asked)[p] == Count(root, Directories, p))
    ensures s.failed || s.ctxDone ==> Result(s).Error?
  {
    if Result(s).Entries? {
      assert s.workers[0].Gone?;
      assert Over(s) && s.shared.queue == [] && s.lost == [];
      forall p
        ensures multiset(s.asked)[p] == Count(root, Directories, p)
        ensures multiset(s.shared.files)[p] == Count(root, Files, p)
      {
        assert Conserved(root, s, Directories, p) && Conserved(root, s, Files, p);
        NothingHeld(s.workers, Directories, p);
        NothingHeld(s.workers, Files, p);
      }
    }
  }

  lemma {:induction false} NothingHeld(ws: seq<Pc>, k: Sort, p: string)
    requires forall w :: 0 <= w < |ws| ==> ws[w].Gone?
    ensures HeldAll(ws, k, p) == 0
  {
    if ws == [] {
    } else {
      NothingHeld(ws[1..], k, p);
    }
  }

  /** At any moment, failures or not, no directory has been asked for more often
      than it occurs in the tree, and no file reported more often. */
  lemma NeverTwice(root: Tree, s: State, p: string)
    requires Inv(root, s)
    ensures multiset(s.asked)[p] <= Count(root, Directories, p)
    ensures multiset(s.shared.files)[p] <= Count(root, Files, p)
  {
    assert Conserved(root, s, Directories, p) && Conserved(root, s, Files, p);
  }

  /** No deadlock: unless every worker has returned, some worker or the watcher
      can take a step. */
  lemma NotStuck(root: Tree, s: State) returns (e: Event)
    requires Inv(root, s) && !AllGone(s)
    ensures Enabled(s, e) && !e.CtxDone?
  {
    var w :| 0 <= w < |s.workers| && !s.workers[w].Gone?;
    if s.workers[w].Asleep? {
      if BroadcastDue(s) {
        if Cancelled(s) && !s.watcherDone {
          return WatcherWakes;
        }
        w :| 0 <= w < |s.workers| && (s.workers[w].Announcing? || s.workers[w].Failing? || s.workers[w].Parting?);
      } else {
        SumPositive(s.workers, Listings);
        w :| 0 <= w < |s.workers| && Weight(s.workers[w], Listings) > 0;
      }
    }
    if s.workers[w].Choosing? {
      e := Lock(w);
    } else if s.workers[w].Listing? {
      e := ListOk(w);
    } else if s.workers[w].Failing? {
      e := CallCancel(w);
    } else {
      e := Broadcast(w);
    }
  }

  // ----- a stopped walk -----

  /** Where the pool is after these events, if they are possible one after the other. */
  ghost predicate Leads(s: State, es: seq<Event>, t: State)
    decreases |es|
  {
    if es == [] then t == s else Enabled(s, es[0]) && Leads(Next(s, es[0]), es[1..], t)
  }

  ghost predicate Stopped(s: State) {
    s.shared.firstErr || Cancelled(s)
  }

  lemma StoppedStep(s: State, e: Event)
    requires Stopped(s) && Enabled(s, e)
    ensures Stopped(Next(s, e)) && Next(s, e).asked == s.asked
    ensures forall w :: 0 <= w < |s.workers| && Next(s, e).workers[w].Listing? ==> s.workers[w].Listing?
  {
  }

  /** After the first failed listing, or once the context has ended, not one more
      directory is asked for, and only listings already under way go on. */
  lemma {:induction false} StoppedStays(s: State, es: seq<Event>, t: State)
    requires Stopped(s) && Leads(s, es, t)
    ensures Stopped(t) && t.asked == s.asked && |t.workers| == |s.workers|
    ensures forall w :: 0 <= w < |s.workers| && t.workers[w].Listing? ==> s.workers[w].Listing?
    decreases |es|
  {
    if es == [] {
    } else {
      StoppedStep(s, es[0]);
      StoppedStays(Next(s, es[0]), es[1..], t);
    }
  }

  /** A failed listing has ended the walk's context, or is about to. */
  ghost predicate CancelDue(s: State) {
    s.failed ==> Cancelled(s) || exists w :: 0 <= w < |s.workers| && s.workers[w].Failing?
  }

  lemma CancelDueStep(s: State, e: Event)
    requires CancelDue(s) && Enabled(s, e)
    ensures CancelDue(Next(s, e))
  {
    var t := Next(s, e);
    if e.ListFails? {
      assert t.workers[e.w].Failing?;
    } else if w :| 0 <= w < |s.workers| && s.workers[w].Failing? {
      assert e.CallCancel? || t.workers[w].Failing?;
    }
  }

  /** So when everybody has returned after a failure, requests under way were cancelled. */
  lemma {:induction false} FailureCancels(s: State, es: seq<Event>, t: State)
    requires CancelDue(s) && Leads(s, es, t)
    ensures CancelDue(t)
    ensures t.failed && AllGone(t) ==> Cancelled(t)
    decreases |es|
  {
    if es == [] {
    } else {
      CancelDueStep(s, es[0]);
      FailureCancels(Next(s, es[0]), es[1..], t);
    }
  }

  // ----- every schedule ends -----

  function WorkLeft(s: State): nat {
    Sum(s.workers, Work) + 2 * DirsAll(s.shared.queue) + if s.ctxDone then 0 else 1
  }

  function BroadcastsOwed(s: State): nat {
    Sum(s.workers, Owed) + if s.watcherDone then 0 else 1
  }

  lemma {:induction false} DirsConcat(a: seq<Tree>, b: seq<Tree>)
    ensures DirsAll(a + b) == DirsAll(a) + DirsAll(b)
  {
    if a == [] {
      assert a + b == b;
    } else {
      assert (a + b)[1..] == a[1..] + b;
      DirsConcat(a[1..], b);
    }
  }

  lemma {:induction false} DirsSplit(kids: seq<Tree>)
    ensures DirsAll(DirsIn(kids)) == DirsAll(kids)
  {
    if kids == [] {
    } else {
      DirsSplit(kids[1..]);
      if kids[0].Dir? {
        assert DirsIn(kids)[1..] == DirsIn(kids[1..]);
      } else {
        assert DirsIn(kids) == DirsIn(kids[1..]);
      }
    }
  }

  /** Less work, or the same and fewer broadcasts owed, or the same and fewer
      workers about to choose. */
  ghost predicate Smaller(t: State, s: State) {
    || WorkLeft(t) < WorkLeft(s)
    || (WorkLeft(t) == WorkLeft(s) && BroadcastsOwed(t) < BroadcastsOwed(s))
    || (WorkLeft(t) == WorkLeft(s) && BroadcastsOwed(t) == BroadcastsOwed(s)
        && Sum(t.workers, Choosers) < Sum(s.workers, Choosers))
  }

  lemma LockShrinks(s: State, w: nat)
    requires ShapeOk(s) && Enabled(s, Lock(w))
    ensures Smaller(Next(s, Lock(w)), s)
  {
    var t := Next(s, Lock(w));
    SumUpdate(s.workers, w, t.workers[w], Work);
    SumUpdate(s.workers, w, t.workers[w], Owed);
    SumUpdate(s.workers, w, t.workers[w], Choosers);
    var (q, c) := Choose(s.shared, Cancelled(s));
    if c.Take? {
      assert s.shared.queue == q.queue + [c.dir];
      DirsConcat(q.queue, [c.dir]);
    }
  }

  lemma ListShrinks(s: State, e: Event)
    requires ShapeOk(s) && Enabled(s, e) && (e.ListOk? || e.ListFails?)
    ensures Smaller(Next(s, e), s)
  {
    var kids := s.workers[e.w].dir.kids;
    SumUpdate(s.workers, e.w, Next(s, e).workers[e.w], Work);
    DirsSplit(kids);
    DirsConcat(s.shared.queue, DirsIn(kids));
  }

  lemma BroadcastShrinks(s: State, w: nat)
    requires ShapeOk(s) && Enabled(s, Broadcast(w))
    ensures Smaller(Next(s, Broadcast(w)), s)
  {
    var to := if s.workers[w].Parting? then Gone else Choosing;
    SumUpdate(s.workers, w, to, Work);
    SumUpdate(s.workers, w, to, Owed);
    SumWake(s.workers[w := to], Work);
    SumWake(s.workers[w := to], Owed);
  }

  lemma WakeShrinks(s: State, e: Event)
    requires ShapeOk(s) && Enabled(s, e) && (e.CallCancel? || e.Broadcast? || e.WatcherWakes? || e.CtxDone?)
    ensures Smaller(Next(s, e), s)
  {
    match e
    case CallCancel(w) =>
      SumUpdate(s.workers, w, Parting, Work);
      SumUpdate(s.workers, w, Parting, Owed);
    case Broadcast(w) => BroadcastShrinks(s, w);
    case WatcherWakes =>
      SumWake(s.workers, Work);
      SumWake(s.workers, Owed);
    case CtxDone =>
  }

  lemma StepShrinks(s: State, e: Event)
    requires ShapeOk(s) && Enabled(s, e)
    ensures Smaller(Next(s, e), s)
  {
    match e
    case Lock(w) => LockShrinks(s, w);
    case ListOk(_) => ListShrinks(s, e);
    case ListFails(_) => ListShrinks(s, e);
    case _ => WakeShrinks(s, e);
  }

  /** Whatever picks the next step (which worker runs, which listings fail, when
      the context ends), as long as it picks a possible one. */
  ghost predicate Scheduler(pick: (nat, State) -> Event) {
    forall k, s, e :: Enabled(s, e) && !e.CtxDone? ==> Enabled(s, pick(k, s))
  }

  /** The walk under any schedule, without fairness: it ends, its result without
      error is the whole tree, and it is without error if and only if no listing
      failed and the context did not end. */
  method Walk(root: Tree, n: nat, pick: (nat, State) -> Event) returns (r: Outcome, s: State)
    requires root.Dir? && n > 0 && Scheduler(pick)
    ensures r.Entries? ==> WholeTree(root, r.files)
    ensures r.Entries? ==> forall p :: multiset(s.asked)[p] == Count(root, Directories, p)
    ensures r.Error? <==> s.failed || s.ctxDone
    ensures r == Result(s) && AllGone(s) && |s.workers| == n
  {
    s := Initial(root, n);
    InitialOk(root, n);
    var k := 0;
    while !AllGone(s)
      invariant Inv(root, s) && |s.workers| == n
      decreases WorkLeft(s), BroadcastsOwed(s), Sum(s.workers, Choosers)
    {
      ghost var e := NotStuck(root, s);
      var step := pick(k, s);
      StepKeeps(root, s, step);
      StepShrinks(s, step);
      s := Next(s, step);
      k := k + 1;
    }
    ResultIsWhole(root, s);
    r := Result(s);
  }
}
