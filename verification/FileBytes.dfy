/** File contents as byte sequences, with the three calls the downloader makes
    on its output file: Truncate, WriteAt and sequential Write. */
module FileBytes {

  newtype Byte = b: int | 0 <= b < 256

  type Content = seq<Byte>

  /** os.File.Truncate: cut, or extend with zero bytes. */
  function Truncate(f: Content, n: nat): Content {
    if n <= |f| then f[..n] else f + seq(n - |f|, _ => 0 as Byte)
  }

  /** os.File.WriteAt: overwrite in place; a gap past the old end reads as zeros. */
  function WriteAt(f: Content, pos: nat, data: Content): Content {
    var base := if |f| < pos then Truncate(f, pos) else f;
    if |data| == 0 then f
    else if pos + |data| < |base| then base[..pos] + data + base[pos + |data|..]
    else base[..pos] + data
  }

  /** Every byte of f in [lo, hi) is there and equals the source's. */
  ghost predicate Holds(source: Content, f: Content, lo: int, hi: int) {
    && 0 <= lo && (lo < hi ==> hi <= |f|) && hi <= |source|
    && forall p :: lo <= p < hi ==> f[p] == source[p]
  }

  /** What WriteAt leaves at each position, and the new length. */
  lemma WriteAtBytes(f: Content, pos: nat, data: Content)
    ensures var g := WriteAt(f, pos, data);
            && |g| == (if |data| == 0 || pos + |data| <= |f| then |f| else pos + |data|)
            && (forall p :: 0 <= p < |g| ==>
                              g[p] == if pos <= p < pos + |data| then data[p - pos] else if p < |f| then f[p] else 0)
  {
    var base := if |f| < pos then Truncate(f, pos) else f;
    assert |base| == if |f| < pos then pos else |f|;
  }

  /** Writing true bytes never spoils a range that was already right. */
  lemma WriteAtKeeps(source: Content, f: Content, pos: nat, data: Content, lo: int, hi: int)
    requires Holds(source, f, lo, hi)
    requires forall k :: 0 <= k < |data| && pos + k < |source| ==> data[k] == source[pos + k]
    ensures Holds(source, WriteAt(f, pos, data), lo, hi)
  {
    WriteAtBytes(f, pos, data);
  }

  /** A true write extends a right range that ends where it starts. */
  lemma WriteAtExtends(source: Content, f: Content, pos: nat, data: Content, lo: int)
    requires Holds(source, f, lo, pos) && pos + |data| <= |source|
    requires forall k :: 0 <= k < |data| ==> data[k] == source[pos + k]
    ensures Holds(source, WriteAt(f, pos, data), lo, pos + |data|)
  {
    WriteAtBytes(f, pos, data);
  }

  /** There is one such content. */
  lemma WriteAtIs(f: Content, pos: nat, data: Content, g: Content)
    requires |g| == if |data| == 0 || pos + |data| <= |f| then |f| else pos + |data|
    requires forall p :: 0 <= p < |g| ==>
                           g[p] == if pos <= p < pos + |data| then data[p - pos] else if p < |f| then f[p] else 0
    ensures g == WriteAt(f, pos, data)
  {
    WriteAtBytes(f, pos, data);
  }

  /** Two writes one behind the other are one write. */
  lemma WriteTwice(f: Content, pos: nat, a: Content, b: Content)
    ensures WriteAt(WriteAt(f, pos, a), pos + |a|, b) == WriteAt(f, pos, a + b)
  {
    var g := WriteAt(f, pos, a);
    WriteAtBytes(f, pos, a);
    WriteAtBytes(g, pos + |a|, b);
    WriteAtIs(f, pos, a + b, WriteAt(g, pos + |a|, b));
  }

  /** Truncating keeps what fits and fills up with zeros. */
  lemma TruncateBytes(f: Content, n: nat)
    ensures |Truncate(f, n)| == n
    ensures forall p :: 0 <= p < n ==> Truncate(f, n)[p] == if p < |f| then f[p] else 0
  {
  }
}
