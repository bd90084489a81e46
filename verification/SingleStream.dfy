/** runSingle (downloader.go) over any sequence of interrupted runs of a job that
    always downloads single-stream. One run is cut off wherever its list of body
    parts ends, so a crash, a pause or a torn write is a shorter list. */
module SingleStream {
  import opened FileBytes
  import opened Options

  /** What the server answered to the GET, if anything. */
  datatype Answer = NoAnswer | Status(code: int)

  /** The environment of one run: the stored resume offset, what the probe said,
      the answer, the body as read, and whether it ended with EOF. */
  datatype Attempt = Attempt(offset: int, ranges: bool, answer: Answer, parts: seq<Content>, eof: bool)

  datatype Result = Result(bytesDone: int, completed: bool)

  class Disk {
    var file: Option<Content>
  }

  /** Where the download resumes: the stored offset, unless the file is too short
      for it. */
  function StartOf(file: Option<Content>, a: Attempt): int {
    if a.offset > 0 && a.ranges && file.Some? && |file.value| >= a.offset then a.offset else 0
  }

  function Front<T>(s: seq<T>): seq<T>
    requires s != []
  {
    s[..|s| - 1]
  }

  function Last<T>(s: seq<T>): T
    requires s != []
  {
    s[|s| - 1]
  }

  function Length(parts: seq<Content>): nat {
    if parts == [] then 0 else Length(Front(parts)) + |Last(parts)|
  }

  /** The body parts written one after the other from pos on. */
  function Copied(f: Content, pos: nat, parts: seq<Content>): Content {
    if parts == [] then f else WriteAt(Copied(f, pos, Front(parts)), pos + Length(Front(parts)), Last(parts))
  }

  lemma CopiedSnoc(f: Content, pos: nat, parts: seq<Content>, data: Content)
    ensures Copied(f, pos, parts + [data]) == WriteAt(Copied(f, pos, parts), pos + Length(parts), data)
    ensures Length(parts + [data]) == Length(parts) + |data|
  {
    assert Front(parts + [data]) == parts && Last(parts + [data]) == data;
  }

  /** The branch that answers a refused resume by starting over with whatever the
      body is: any status but 206, error pages included. */
  predicate StartsOver(file: Option<Content>, a: Attempt) {
    a.answer.Status? && StartOf(file, a) > 0 && a.answer.code != 206
  }

  predicate Copies(file: Option<Content>, a: Attempt) {
    a.answer.Status? && (StartsOver(file, a) || a.answer.code == 200 || a.answer.code == 206)
  }

  /** Where the copy loop starts. */
  function CopyFrom(file: Option<Content>, a: Attempt): int {
    if StartsOver(file, a) then 0 else StartOf(file, a)
  }

  /** The file after one run. */
  function RunOnce(file: Option<Content>, a: Attempt): Content {
    var start := CopyFrom(file, a);
    var base := if start > 0 then file.value else [];
    if Copies(file, a) then Copied(base, start, a.parts) else base
  }

  /** What one run reports as done. */
  function BytesDone(file: Option<Content>, a: Attempt): int {
    CopyFrom(file, a) + if Copies(file, a) then Length(a.parts) else 0
  }

  /** One read written where the last one ended. */
  method WriteRead(disk: Disk, pos: int, data: Content) returns (after: int)
    requires disk.file.Some? && 0 <= pos <= |disk.file.value|
    modifies disk
    ensures disk.file == Some(WriteAt(old(disk.file.value), pos, data)) && after == pos + |data|
  {
    disk.file := Some(WriteAt(disk.file.value, pos, data));
    after := pos + |data|;
  }

  /** The copy loop. */
  method CopyBody(disk: Disk, start: int, parts: seq<Content>) returns (written: int)
    requires disk.file.Some? && 0 <= start <= |disk.file.value|
    modifies disk
    ensures disk.file == Some(Copied(old(disk.file.value), start, parts))
    ensures written == start + Length(parts) <= |disk.file.value|
  {
    written := start;
    ghost var was := disk.file.value;
    var k := 0;
    while k < |parts|
      invariant 0 <= k <= |parts|
      invariant disk.file == Some(Copied(was, start, parts[..k]))
      invariant written == start + Length(parts[..k]) <= |disk.file.value|
    {
      assert parts[..k] + [parts[k]] == parts[..k + 1];
      CopiedSnoc(was, start, parts[..k], parts[k]);
      WriteAtBytes(disk.file.value, written, parts[k]);
      written := WriteRead(disk, written, parts[k]);
      k := k + 1;
    }
    assert parts[..|parts|] == parts;
  }

  /** The source's control flow, statement by statement. */
  method RunSingle(disk: Disk, a: Attempt) returns (res: Result)
    modifies disk
    ensures disk.file == Some(RunOnce(old(disk.file), a))
    ensures res.completed <==> Copies(old(disk.file), a) && a.eof
    ensures res.bytesDone == BytesDone(old(disk.file), a)
    ensures 0 <= res.bytesDone <= |disk.file.value|
  {
    var start := 0;
    if a.offset > 0 && a.ranges {
      if disk.file.Some? && |disk.file.value| >= a.offset {
        start := a.offset;
      }
    }
    if start == 0 {
      disk.file := Some([]);
    }
    if a.answer.NoAnswer? {
      return Result(start, false);
    }
    if start > 0 && a.answer.code != 206 {
      start := 0;
      disk.file := Some([]);
    } else if a.answer.code != 200 && a.answer.code != 206 {
      return Result(start, false);
    }
    var written := CopyBody(disk, start, a.parts);
    return Result(written, a.eof);
  }

  // ----- what the bytes are -----

  ghost predicate IsPrefix(source: Content, f: Content) {
    |f| <= |source| && f == source[..|f|]
  }

  /** The parts are the source's bytes from pos on. */
  ghost predicate TrueBytes(source: Content, pos: nat, parts: seq<Content>) {
    parts == [] ||
    var at := pos + Length(Front(parts));
    && TrueBytes(source, pos, Front(parts))
    && at + |Last(parts)| <= |source| && Last(parts) == source[at..at + |Last(parts)|]
  }

  /** An honest server: a 200 body is the source from 0, a 206 body the source
      from the asked offset, and EOF comes at the source's end. The body of any
      other status is whatever the server likes to say about it. */
  ghost predicate Honest(source: Content, file: Option<Content>, a: Attempt) {
    a.answer.Status? ==>
      && (a.answer.code == 200 ==> TrueBytes(source, 0, a.parts) && (a.eof ==> Length(a.parts) == |source|))
      && (a.answer.code == 206 ==>
            var start := StartOf(file, a);
            TrueBytes(source, start, a.parts) && (a.eof ==> start + Length(a.parts) == |source|))
  }

  lemma PrefixGrows(source: Content, f: Content, pos: nat, data: Content)
    requires IsPrefix(source, f) && pos <= |f|
    requires pos + |data| <= |source| && data == source[pos..pos + |data|]
    ensures IsPrefix(source, WriteAt(f, pos, data))
    ensures |WriteAt(f, pos, data)| == if |f| < pos + |data| then pos + |data| else |f|
  {
    WriteAtBytes(f, pos, data);
    var g := WriteAt(f, pos, data);
    assert forall p :: 0 <= p < |g| ==> g[p] == source[p];
  }

  lemma {:induction false} CopiedIsPrefix(source: Content, f: Content, pos: nat, parts: seq<Content>)
    requires IsPrefix(source, f) && pos <= |f| && TrueBytes(source, pos, parts)
    ensures IsPrefix(source, Copied(f, pos, parts))
    ensures |Copied(f, pos, parts)| == (if |f| < pos + Length(parts) then pos + Length(parts) else |f|)
  {
    if parts == [] {
    } else {
      CopiedIsPrefix(source, f, pos, Front(parts));
      PrefixGrows(source, Copied(f, pos, Front(parts)), pos + Length(Front(parts)), Last(parts));
    }
  }

  lemma {:induction false} CopiedBehind(f: Content, pos: nat, parts: seq<Content>)
    requires pos <= |f|
    ensures pos + Length(parts) <= |Copied(f, pos, parts)| && |f| <= |Copied(f, pos, parts)|
    ensures Copied(f, pos, parts)[..pos] == f[..pos]
  {
    if parts == [] {
    } else {
      CopiedBehind(f, pos, Front(parts));
      WriteAtBytes(Copied(f, pos, Front(parts)), pos + Length(Front(parts)), Last(parts));
    }
  }

  /** An accepted resume neither asks for nor writes a byte before the stored offset: with
      the bytes before it on disk, a body of the source's remaining bytes alone makes the
      file whole. */
  lemma ResumeKeeps(source: Content, file: Content, a: Attempt)
    requires a.ranges && 0 < a.offset <= |file| && a.answer == Status(206)
    ensures CopyFrom(Some(file), a) == a.offset && Copies(Some(file), a)
    ensures |file| <= |RunOnce(Some(file), a)| && RunOnce(Some(file), a)[..a.offset] == file[..a.offset]
    ensures IsPrefix(source, file) && TrueBytes(source, a.offset, a.parts) && a.offset + Length(a.parts) == |source| ==>
              RunOnce(Some(file), a) == source
  {
    CopiedBehind(file, a.offset, a.parts);
    if IsPrefix(source, file) && TrueBytes(source, a.offset, a.parts) {
      CopiedIsPrefix(source, file, a.offset, a.parts);
    }
  }

  ghost predicate GoodFile(source: Content, file: Option<Content>) {
    file.Some? ==> IsPrefix(source, file.value)
  }

  /** A refused resume with an error status: the family of answers on which the
      prefix is lost. */
  predicate ErrorOnResume(file: Option<Content>, a: Attempt) {
    StartsOver(file, a) && a.answer.code != 200
  }

  /** One run keeps the file a prefix of the source, and a completed run makes it
      the source, whatever offset is stored. */
  lemma AttemptIsGood(source: Content, file: Option<Content>, a: Attempt)
    requires GoodFile(source, file) && Honest(source, file, a) && !ErrorOnResume(file, a)
    ensures IsPrefix(source, RunOnce(file, a))
    ensures Copies(file, a) && a.eof ==> RunOnce(file, a) == source
  {
    if Copies(file, a) {
      var start := CopyFrom(file, a);
      CopiedIsPrefix(source, if start > 0 then file.value else [], start, a.parts);
    }
  }

  lemma OnePart(page: Content)
    ensures Copied([], 0, [page]) == page && Length([page]) == |page|
  {
    CopiedSnoc([], 0, [], page);
    WriteAtBytes([], 0, page);
    assert [] + [page] == [page] && WriteAt([], 0, page) == page;
  }

  /** On a given disk, stored offset and status, a run keeps the prefix for every
      honest body if and only if it is not an error status answering a resume. */
  lemma PrefixKeptIff(source: Content, file: Option<Content>, a: Attempt)
    requires GoodFile(source, file)
    ensures (forall parts, eof :: Honest(source, file, a.(parts := parts, eof := eof)) ==>
                                    IsPrefix(source, RunOnce(file, a.(parts := parts, eof := eof))))
            <==> !ErrorOnResume(file, a)
  {
    if ErrorOnResume(file, a) {
      var page := source + [0];
      var b := a.(parts := [page], eof := true);
      assert Honest(source, file, b);
      OnePart(page);
      assert |RunOnce(file, b)| == |source| + 1;
      assert !IsPrefix(source, RunOnce(file, a.(parts := [page], eof := true)));
    } else {
      forall parts, eof | Honest(source, file, a.(parts := parts, eof := eof))
        ensures IsPrefix(source, RunOnce(file, a.(parts := parts, eof := eof)))
      {
        AttemptIsGood(source, file, a.(parts := parts, eof := eof));
      }
    }
  }

  /** The concrete case: the whole file is on disk when the daemon dies; the next
      run asks for "bytes=2-", gets 416, and reports the 416 page as the file. */
  lemma ResumeAtEndCompletesWrong(page: Content)
    ensures var a := Attempt(2, true, Status(416), [page], true);
            var file: Option<Content> := Some([1, 2]);
            GoodFile([1, 2], file) && Honest([1, 2], file, a) && Copies(file, a) && RunOnce(file, a) == page
  {
    OnePart(page);
  }

  // ----- histories -----

  /** The file after a sequence of runs. Nothing links the stored offsets to the
      file: they may be stale in either direction. */
  function AfterAll(file: Option<Content>, runs: seq<Attempt>): Option<Content> {
    if runs == [] then file else Some(RunOnce(AfterAll(file, Front(runs)), Last(runs)))
  }

  ghost predicate AllHonest(source: Content, file: Option<Content>, runs: seq<Attempt>) {
    runs == [] ||
    var before := AfterAll(file, Front(runs));
    AllHonest(source, file, Front(runs)) && Honest(source, before, Last(runs)) && !ErrorOnResume(before, Last(runs))
  }

  /** Over any sequence of interrupted runs the file stays a prefix of the source,
      and when the last run completes it is the source. */
  lemma {:induction false} HistoryIsGood(source: Content, file: Option<Content>, runs: seq<Attempt>)
    requires GoodFile(source, file) && AllHonest(source, file, runs)
    ensures GoodFile(source, AfterAll(file, runs))
    ensures runs != [] && Copies(AfterAll(file, Front(runs)), Last(runs)) && Last(runs).eof
            ==> AfterAll(file, runs) == Some(source)
  {
    if runs == [] {
    } else {
      HistoryIsGood(source, file, Front(runs));
      AttemptIsGood(source, AfterAll(file, Front(runs)), Last(runs));
    }
  }

  /** A 206 may carry less than was asked for (RFC 9110, section 15.3.7). The loop
      takes its EOF for the end: with true bytes, a completed run leaves the
      source if and only if the body reached the end or the file was whole. */
  lemma ShortPartialIff(source: Content, file: Option<Content>, a: Attempt)
    requires GoodFile(source, file) && a.answer == Status(206) && a.eof
    requires TrueBytes(source, StartOf(file, a), a.parts)
    ensures var start := StartOf(file, a);
            RunOnce(file, a) == source <==>
            start + Length(a.parts) == |source| || (start > 0 && file.value == source)
  {
    var start := StartOf(file, a);
    CopiedIsPrefix(source, if start > 0 then file.value else [], start, a.parts);
  }
}
