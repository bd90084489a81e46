/** One download split into chunks: the even split and a chunk worker's copy
    loop (loadOrInitSidecar's split and fetchChunk in downloader.go). */
module Chunks {
  import opened FileBytes

  /** chunkState: the window [start, end) and how many of its bytes are done. */
  datatype Chunk = Chunk(start: int, end: int, done: int)

  /** The windows cover [0, total) left to right without gap or overlap. */
  predicate Tiles(cs: seq<Chunk>, total: int) {
    && |cs| > 0
    && cs[0].start == 0
    && cs[|cs| - 1].end == total
    && (forall i :: 0 <= i < |cs| ==> cs[i].start <= cs[i].end)
    && (forall i :: 0 < i < |cs| ==> cs[i].start == cs[i - 1].end)
  }

  /** What a chunk record promises: the file already holds the source's bytes in
      [start, start + done). */
  ghost predicate Claim(source: Content, f: Content, c: Chunk) {
    && |f| <= |source|
    && 0 <= c.start && 0 <= c.done && c.start + c.done <= c.end <= |source|
    && Holds(source, f, c.start, c.start + c.done)
  }

  ghost predicate Sound(source: Content, f: Content, cs: seq<Chunk>) {
    && Tiles(cs, |source|)
    && forall i :: 0 <= i < |cs| ==> Claim(source, f, cs[i])
  }

  /** The split loop. Windows are total / n bytes each, the last takes the rest. */
  method SplitEvenly(total: int, n: int) returns (chunks: seq<Chunk>)
    requires 0 <= total && 1 <= n
    ensures Tiles(chunks, total)
    ensures |chunks| == n
    ensures forall i :: 0 <= i < n ==> chunks[i].done == 0
    ensures forall i :: 0 <= i < n - 1 ==> chunks[i].end - chunks[i].start == total / n
    ensures chunks == EvenSplit(total, n)
  {
    var chunkSize := total / n;
    chunks := [];
    var i, start := 0, 0;
    while i < n
      invariant 0 <= i <= n && chunks == EvenSplit(total, n)[..i]
      invariant i < n ==> start == EvenSplit(total, n)[i].start
    {
      SplitStep(total, n, i);
      var end := start + chunkSize;
      if i == n - 1 {
        end := total;
      }
      chunks := chunks + [Chunk(start, end, 0)];
      start := end;
      i := i + 1;
    }
    EvenSplitTiles(total, n);
  }

  /** The split in closed form. */
  function EvenSplit(total: int, n: int): seq<Chunk>
    requires 0 <= total && 1 <= n
  {
    seq(n, i => Chunk(i * (total / n), if i == n - 1 then total else (i + 1) * (total / n), 0))
  }

  lemma SplitBound(total: int, n: int, k: int)
    requires 0 <= total && 1 <= n && 0 <= k <= n
    ensures 0 <= k * (total / n) <= total
  {
    assert total == n * (total / n) + total % n;
    assert (n - k) * (total / n) >= 0;
    assert n * (total / n) - k * (total / n) == (n - k) * (total / n);
  }

  lemma SplitStep(total: int, n: int, i: int)
    requires 0 <= total && 0 <= i < n
    ensures var cs := EvenSplit(total, n);
            && cs[..i + 1] == cs[..i] + [cs[i]]
            && cs[i] == Chunk(cs[i].start, if i == n - 1 then total else cs[i].start + total / n, 0)
            && (i + 1 < n ==> cs[i + 1].start == cs[i].end)
  {
    assert (i + 1) * (total / n) == i * (total / n) + total / n;
  }

  lemma SplitWidth(total: int, n: int, i: int)
    requires 0 <= total && 0 <= i < n
    ensures var c := EvenSplit(total, n)[i];
            && 0 <= c.start <= c.end <= total
            && (i < n - 1 ==> c.end - c.start == total / n)
            && (i == 0 ==> c.start == 0) && (i == n - 1 ==> c.end == total)
  {
    SplitBound(total, n, i);
    SplitBound(total, n, i + 1);
    assert (i + 1) * (total / n) == i * (total / n) + total / n;
  }

  lemma EvenSplitTiles(total: int, n: int)
    requires 0 <= total && 1 <= n
    ensures Tiles(EvenSplit(total, n), total)
    ensures forall i :: 0 <= i < n - 1 ==> EvenSplit(total, n)[i].end - EvenSplit(total, n)[i].start == total / n
  {
    var cs := EvenSplit(total, n);
    forall i | 0 <= i < n
      ensures cs[i].start <= cs[i].end
      ensures i < n - 1 ==> cs[i].end - cs[i].start == total / n
      ensures i + 1 < n ==> cs[i + 1].start == cs[i].end
      ensures (i == 0 ==> cs[i].start == 0) && (i == n - 1 ==> cs[i].end == total)
    {
      SplitWidth(total, n, i);
      SplitStep(total, n, i);
    }
    forall i | 0 < i < n
      ensures cs[i].start == cs[i - 1].end
    {
      SplitStep(total, n, i - 1);
    }
  }

  /** In a tiling windows are ordered, so they are pairwise disjoint. */
  lemma {:induction false} TilesOrdered(cs: seq<Chunk>, total: int, i: int, j: int)
    requires Tiles(cs, total) && 0 <= i < j < |cs|
    ensures cs[i].end <= cs[j].start
    decreases j - i
  {
    if i + 1 == j {
    } else {
      TilesOrdered(cs, total, i + 1, j);
    }
  }

  lemma TilesInside(cs: seq<Chunk>, total: int, i: int)
    requires Tiles(cs, total) && 0 <= i < |cs|
    ensures 0 <= cs[i].start <= cs[i].end <= total
  {
    if i > 0 {
      TilesOrdered(cs, total, 0, i);
    }
    if i < |cs| - 1 {
      TilesOrdered(cs, total, i, |cs| - 1);
    }
  }

  /** A record that claims nothing is true of any file that is not too long. */
  lemma BlankIsSound(source: Content, f: Content, cs: seq<Chunk>)
    requires Tiles(cs, |source|) && |f| <= |source|
    requires forall i :: 0 <= i < |cs| ==> cs[i].done == 0
    ensures Sound(source, f, cs)
  {
    forall i | 0 <= i < |cs|
      ensures Claim(source, f, cs[i])
    {
      TilesInside(cs, |source|, i);
    }
  }

  /** A tiling leaves no position out. */
  lemma {:induction false} TilesCover(cs: seq<Chunk>, total: int, p: int) returns (i: int)
    requires Tiles(cs, total) && 0 <= p < total
    ensures 0 <= i < |cs| && cs[i].start <= p < cs[i].end
  {
    i := 0;
    while cs[i].end <= p
      invariant 0 <= i < |cs| && cs[i].start <= p
      decreases |cs| - i
    {
      i := i + 1;
    }
  }

  lemma ByteIsHeld(source: Content, f: Content, cs: seq<Chunk>, p: int)
    requires Sound(source, f, cs) && 0 <= p < |source|
    requires forall i :: 0 <= i < |cs| ==> cs[i].done >= cs[i].end - cs[i].start
    ensures p < |f| && f[p] == source[p]
  {
    var i := TilesCover(cs, |source|, p);
    assert Claim(source, f, cs[i]);
  }

  /** Every chunk done means the whole file is the source. */
  lemma AllDoneIsSource(source: Content, f: Content, cs: seq<Chunk>)
    requires Sound(source, f, cs)
    requires forall i :: 0 <= i < |cs| ==> cs[i].done >= cs[i].end - cs[i].start
    ensures f == source
  {
    assert Claim(source, f, cs[0]);
    forall p | 0 <= p < |source|
      ensures p < |f| && f[p] == source[p]
    {
      ByteIsHeld(source, f, cs, p);
    }
    if source != [] {
      ByteIsHeld(source, f, cs, |source| - 1);
    }
  }

  /** One read of the copy loop: clip to the window, write, advance Done. */
  function FetchRead(f: Content, c: Chunk, data: Content): (Content, Chunk)
    requires 0 <= c.start + c.done < c.end
  {
    var pos := c.start + c.done;
    var m := if |data| < c.end - pos then |data| else c.end - pos;
    (WriteAt(f, pos, data[..m]), c.(done := c.done + m))
  }

  /** The whole copy loop over the reads a body delivers. */
  function Fetched(f: Content, c: Chunk, parts: seq<Content>): (Content, Chunk)
    requires 0 <= c.start + c.done
    decreases |parts|
  {
    if parts == [] || c.start + c.done >= c.end then (f, c)
    else var (g, d) := FetchRead(f, c, parts[0]); Fetched(g, d, parts[1..])
  }

  class OutputFile {
    var content: Content
  }

  class ChunkState {
    const start: int
    const end: int
    var done: int

    function Value(): Chunk
      reads this
    {
      Chunk(start, end, done)
    }
  }

  /** What a file keeps when only [lo, hi) of it is written: a file that ends before
      hi grows no further than hi, and what it gains before lo reads as zeros. */
  ghost predicate OnlyInside(f: Content, g: Content, lo: int, hi: int) {
    && |f| <= |g| && (|g| == |f| || |g| <= hi)
    && forall p :: 0 <= p < |g| && !(lo <= p < hi) ==> g[p] == if p < |f| then f[p] else 0
  }

  lemma InsideTwice(f: Content, g: Content, k: Content, lo: int, mid: int, hi: int)
    requires lo <= mid <= hi && OnlyInside(f, g, lo, mid) && OnlyInside(g, k, mid, hi)
    ensures OnlyInside(f, k, lo, hi)
  {
  }

  lemma WriteInside(f: Content, pos: nat, data: Content)
    ensures var g := WriteAt(f, pos, data);
            && OnlyInside(f, g, pos, pos + |data|) && (data != [] ==> pos + |data| <= |g|)
            && forall p :: pos <= p < pos + |data| ==> g[p] == data[p - pos]
  {
    WriteAtBytes(f, pos, data);
  }

  /** One read fills just the bytes it carries. */
  lemma ReadInside(f: Content, c: Chunk, data: Content)
    requires 0 <= c.start && 0 <= c.done && c.start + c.done < c.end
    ensures var (g, d) := FetchRead(f, c, data); var pos := c.start + c.done;
            && d == c.(done := d.done) && c.done <= d.done <= c.done + |data| && d.done <= c.end - c.start
            && (d.done < c.end - c.start ==> d.done == c.done + |data|)
            && OnlyInside(f, g, pos, c.start + d.done)
            && (d.done > c.done ==> c.start + d.done <= |g|)
            && forall p :: pos <= p < c.start + d.done ==> g[p] == data[p - pos]
  {
    var pos := c.start + c.done;
    var m := if |data| < c.end - pos then |data| else c.end - pos;
    var part := data[..m];
    WriteInside(f, pos, part);
  }

  /** Whatever a body brings, the file outside the chunk's unfetched window is
      untouched, and Done only grows and stays within the window. */
  lemma {:induction false} FetchedInside(f: Content, c: Chunk, parts: seq<Content>)
    requires 0 <= c.start && 0 <= c.done && c.start + c.done <= c.end
    ensures var (g, d) := Fetched(f, c, parts);
            && d.start == c.start && d.end == c.end && c.done <= d.done <= c.end - c.start
            && OnlyInside(f, g, c.start + c.done, c.start + d.done)
    decreases |parts|
  {
    if parts == [] || c.start + c.done >= c.end {
    } else {
      var (g, d) := FetchRead(f, c, parts[0]);
      ReadInside(f, c, parts[0]);
      FetchedInside(g, d, parts[1..]);
      var (k, e) := Fetched(f, c, parts);
      InsideTwice(f, g, k, c.start + c.done, c.start + d.done, c.start + e.done);
    }
  }

  /** A body, however it was cut into reads. */
  function Flat(parts: seq<Content>): Content {
    if parts == [] then [] else parts[0] + Flat(parts[1..])
  }

  lemma WriteJoined(f: Content, pos: nat, a: Content, b: Content, n: nat)
    requires n <= |b|
    ensures WriteAt(WriteAt(f, pos, a), pos + |a|, b[..n]) == WriteAt(f, pos, (a + b)[..|a| + n])
  {
    WriteTwice(f, pos, a, b[..n]);
    assert (a + b)[..|a| + n] == a + b[..n];
  }

  /** A read that fits, and one that fills the window. */
  lemma FetchedFirst(f: Content, c: Chunk, parts: seq<Content>)
    requires 0 <= c.start + c.done < c.end && parts != []
    ensures var pos, part := c.start + c.done, parts[0]; var room := c.end - pos;
            Fetched(f, c, parts) ==
            if |part| < room then Fetched(WriteAt(f, pos, part), c.(done := c.done + |part|), parts[1..])
            else (WriteAt(f, pos, part[..room]), c.(done := c.done + room))
  {
    assert parts[0][..|parts[0]|] == parts[0];
  }

  /** What the copy loop comes to: the body's bytes, as far as the window reaches, are
      written in one piece from the asked offset on, and Done counts them. */
  lemma {:induction false} FetchedIsWrite(f: Content, c: Chunk, parts: seq<Content>)
    requires 0 <= c.start && 0 <= c.done && c.start + c.done <= c.end
    ensures var body, room := Flat(parts), c.end - c.start - c.done;
            var m := if |body| < room then |body| else room;
            Fetched(f, c, parts) == (WriteAt(f, c.start + c.done, body[..m]), c.(done := c.done + m))
    decreases |parts|
  {
    var pos, room := c.start + c.done, c.end - c.start - c.done;
    if parts == [] || room == 0 {
      assert Flat(parts)[..0] == [];
    } else {
      var part, rest := parts[0], Flat(parts[1..]);
      FetchedFirst(f, c, parts);
      if |part| >= room {
        assert (part + rest)[..room] == part[..room];
      } else {
        FetchedIsWrite(WriteAt(f, pos, part), c.(done := c.done + |part|), parts[1..]);
        WriteJoined(f, pos, part, rest, if |rest| < room - |part| then |rest| else room - |part|);
      }
    }
  }

  /** One read of the copy loop, never past the window's end. */
  method CopyRead(f: OutputFile, c: ChunkState, pos: int, data: Content) returns (after: int)
    requires 0 <= pos == c.start + c.done < c.end
    modifies f, c`done
    ensures (f.content, c.Value()) == FetchRead(old(f.content), old(c.Value()), data)
    ensures after == c.start + c.done <= c.end
  {
    var n := |data|;
    var over := pos + n - c.end;
    if over > 0 {
      n := n - over;
    }
    after := pos;
    if n > 0 {
      f.content := WriteAt(f.content, pos, data[..n]);
      after := pos + n;
      c.done := after - c.start;
    }
  }

  /** fetchChunk once a 206 arrived. parts are whatever the server's body reads return,
      of any length and content. */
  method FetchChunk(f: OutputFile, c: ChunkState, parts: seq<Content>)
    requires 0 <= c.start && 0 <= c.done && c.start + c.done <= c.end
    modifies f, c
    ensures (f.content, c.Value()) == Fetched(old(f.content), old(c.Value()), parts)
    ensures old(c.done) <= c.done <= c.end - c.start
    ensures OnlyInside(old(f.content), f.content, c.start + old(c.done), c.start + c.done)
  {
    var pos := c.start + c.done;
    ghost var whole := Fetched(f.content, c.Value(), parts);
    FetchedInside(f.content, c.Value(), parts);
    var k := 0;
    assert parts[0..] == parts;
    while k < |parts| && pos < c.end
      invariant 0 <= k <= |parts|
      invariant 0 <= pos == c.start + c.done <= c.end
      invariant whole == Fetched(f.content, c.Value(), parts[k..])
    {
      assert parts[k..][0] == parts[k] && parts[k..][1..] == parts[k + 1..];
      pos := CopyRead(f, c, pos, parts[k]);
      k := k + 1;
    }
  }

  lemma ReadClaim(source: Content, f: Content, c: Chunk, data: Content)
    requires Claim(source, f, c) && c.start + c.done < c.end
    requires forall k :: 0 <= k < |data| && c.start + c.done + k < c.end ==> data[k] == source[c.start + c.done + k]
    ensures var (g, d) := FetchRead(f, c, data);
            && Claim(source, g, d) && d.start == c.start && d.end == c.end && d.done >= c.done
            && (d.start + d.done < d.end ==> d.done == c.done + |data|)
  {
    ReadInside(f, c, data);
  }

  /** When the delivered bytes are the source's from the asked offset on (short
      or over-long, cut into reads anyhow), the fetched chunk's claim is true. */
  lemma {:induction false} FetchedClaim(source: Content, f: Content, c: Chunk, parts: seq<Content>)
    requires Claim(source, f, c)
    requires FromOffset(source, c.start + c.done, c.end, parts)
    ensures var (g, d) := Fetched(f, c, parts);
            Claim(source, g, d) && d.start == c.start && d.end == c.end && d.done >= c.done
    decreases |parts|
  {
    if parts == [] || c.start + c.done >= c.end {
    } else {
      ReadClaim(source, f, c, parts[0]);
      var (g, d) := FetchRead(f, c, parts[0]);
      if d.start + d.done < d.end {
        FetchedClaim(source, g, d, parts[1..]);
      }
    }
  }

  /** The parts read are the source from pos on, as far as the window reaches. */
  ghost predicate FromOffset(source: Content, pos: int, end: int, parts: seq<Content>)
    decreases |parts|
  {
    parts == [] ||
    (&& (forall k :: 0 <= k < |parts[0]| && 0 <= pos + k < end && pos + k < |source| ==> parts[0][k] == source[pos + k])
     && FromOffset(source, pos + |parts[0]|, end, parts[1..]))
  }

  /** After the first read, the rest of the body is still the source's. */
  lemma FetchedRest(source: Content, f: Content, c: Chunk, parts: seq<Content>, g: Content, d: Chunk)
    requires parts != [] && 0 <= c.start + c.done < c.end && FromOffset(source, c.start + c.done, c.end, parts)
    requires (g, d) == FetchRead(f, c, parts[0])
    ensures Fetched(f, c, parts) == Fetched(g, d, parts[1..])
    ensures (d.start + d.done < d.end ==> FromOffset(source, d.start + d.done, d.end, parts[1..]))
  {
  }
}
