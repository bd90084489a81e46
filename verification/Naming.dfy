/** jobreq.go: distinct file names for a batch of links. */
module Naming {
  import opened Text

  /** Where strings.LastIndex(name, ".") > 0 splits a name, else its end. */
  function LastDot(name: string, i: nat): (at: nat)
    requires i <= |name|
    ensures at <= |name|
    ensures at < |name| ==> 0 < at < i && name[at] == '.'
    ensures forall k :: (if at < |name| then at + 1 else 1) <= k < i ==> name[k] != '.'
  {
    if i <= 1 then |name|
    else if name[i - 1] == '.' then i - 1
    else LastDot(name, i - 1)
  }

  /** The n-th name tried: the name itself, then "stem (2).ext" and on. */
  function Candidate(name: string, n: nat): string {
    var at := LastDot(name, |name|);
    if n <= 1 then name else name[..at] + " (" + Itoa(n) + ")" + name[at..]
  }

  lemma LastDotAt(stem: string, ext: string)
    requires stem != "" && '.' !in ext
    ensures LastDot(stem + "." + ext, |stem + "." + ext|) == |stem|
  {
    var name := stem + "." + ext;
    assert name[|stem|] == '.';
    assert forall k :: |stem| < k < |name| ==> name[k] == ext[k - |stem| - 1];
  }

  /** The number goes before the extension, which is what follows the last dot unless
      that dot comes first. */
  lemma NumberBeforeExtension(stem: string, ext: string, n: nat)
    requires stem != "" && '.' !in ext && n >= 2
    ensures Candidate(stem + "." + ext, n) == stem + " (" + Itoa(n) + ")" + ("." + ext)
    ensures Candidate(stem + "." + ext, 1) == stem + "." + ext
  {
    LastDotAt(stem, ext);
    var name := stem + "." + ext;
    assert name[..|stem|] == stem && name[|stem|..] == "." + ext;
  }

  /** A name without an extension gets it at the end. */
  lemma NumberAtEnd(name: string, n: nat)
    requires name != "" && '.' !in name[1..] && n >= 2
    ensures Candidate(name, n) == name + " (" + Itoa(n) + ")"
  {
    assert forall k :: 1 <= k < |name| ==> name[k] == name[1..][k - 1];
    assert LastDot(name, |name|) == |name|;
    assert name[..|name|] == name && name[|name|..] == "";
  }

  lemma CandidateInjective(name: string, m: nat, n: nat)
    requires m > 1 && n > 1 && Candidate(name, m) == Candidate(name, n)
    ensures m == n
  {
    var at := LastDot(name, |name|);
    var c := Candidate(name, m);
    assert c[at + 2..|c| - 1 - (|name| - at)] == Itoa(m);
    assert c[at + 2..|c| - 1 - (|name| - at)] == Itoa(n);
    ItoaInjective(m, n);
  }

  /** Numbered names that are all taken are that many different names. */
  lemma {:induction false} Pigeonhole(name: string, n: nat, taken: set<string>)
    requires n >= 2 && forall k :: 2 <= k < n ==> Candidate(name, k) in taken
    ensures n - 2 <= |taken|
  {
    if n <= 2 {
    } else {
      var last := Candidate(name, n - 1);
      forall k | 2 <= k < n - 1
        ensures Candidate(name, k) in taken - {last}
      {
        if Candidate(name, k) == last {
          CandidateInjective(name, k, n - 1);
        }
      }
      Pigeonhole(name, n - 1, taken - {last});
    }
  }

  /** chosen is the first name of the row name, "name (2)", ... that is free. */
  ghost predicate FirstFree(name: string, taken: set<string>, chosen: string) {
    && chosen !in taken
    && exists n: nat :: n >= 1 && chosen == Candidate(name, n)
                     && forall k :: 1 <= k < n ==> Candidate(name, k) in taken
  }

  /** There is one such name, and at most one number per taken name is passed over. */
  lemma FirstFreeUnique(name: string, taken: set<string>, a: string, b: string)
    requires FirstFree(name, taken, a) && FirstFree(name, taken, b)
    ensures a == b
    ensures exists n: nat :: 1 <= n <= |taken| + 2 && a == Candidate(name, n)
    ensures a == name <== name !in taken
  {
    var m: nat :| m >= 1 && a == Candidate(name, m) && forall k :: 1 <= k < m ==> Candidate(name, k) in taken;
    var n: nat :| n >= 1 && b == Candidate(name, n) && forall k :: 1 <= k < n ==> Candidate(name, k) in taken;
    assert m == n;
    assert Candidate(name, 1) == name;
    if m >= 2 {
      Pigeonhole(name, m, taken);
    }
  }

  class Batch {
    var taken: set<string>

    constructor ()
      ensures taken == {}
    {
      taken := {};
    }

    method UniqueName(name: string) returns (candidate: string)
      modifies this
      ensures FirstFree(name, old(taken), candidate)
      ensures taken == old(taken) + {candidate}
    {
      candidate := name;
      var at := LastDot(name, |name|);
      var stem, ext := name[..at], name[at..];
      var n := 2;
      while candidate in taken
        invariant n >= 2 && candidate == Candidate(name, n - 1) && taken == old(taken)
        invariant forall k :: 1 <= k < n - 1 ==> Candidate(name, k) in taken
        decreases |taken| + 2 - n
      {
        Pigeonhole(name, n, taken);
        candidate := stem + " (" + Itoa(n) + ")" + ext;
        n := n + 1;
      }
      taken := taken + {candidate};
    }
  }

  /** A destination: the output setting as it stands, completed with a name where it
      is empty, or a file of that name inside the output directory. */
  datatype Destination = Whole(output: string, name: string) | Inside(dir: string, name: string)

  function Elements(names: seq<string>): set<string> {
    set n | n in names
  }

  /** Every link of a batch gets the first free name of its own row, so no two links
      write the same file. */
  ghost predicate Distributed(links: seq<string>, nameOf: string -> string, names: seq<string>) {
    && |names| == |links|
    && (forall i :: 0 <= i < |names| ==> FirstFree(nameOf(links[i]), Elements(names[..i]), names[i]))
  }

  method URLOutputs(links: seq<string>, output: string, nameOf: string -> string)
    returns (outs: seq<Destination>, ghost names: seq<string>)
    ensures |outs| == |links| == |names|
    ensures |links| == 1 ==> outs == [Whole(output, nameOf(links[0]))]
    ensures |links| != 1 ==> Distributed(links, nameOf, names)
                             && forall i :: 0 <= i < |outs| ==> outs[i] == Inside(output, names[i])
  {
    if |links| == 1 {
      return [Whole(output, nameOf(links[0]))], [nameOf(links[0])];
    }
    var batch := new Batch();
    outs, names := [], [];
    for i := 0 to |links|
      invariant fresh(batch) && batch.taken == Elements(names)
      invariant Distributed(links[..i], nameOf, names)
      invariant |outs| == |names| && forall k :: 0 <= k < |outs| ==> outs[k] == Inside(output, names[k])
    {
      var name := batch.UniqueName(nameOf(links[i]));
      DistributedMore(links, nameOf, names, i, name);
      outs, names := outs + [Inside(output, name)], names + [name];
    }
    assert links[..|links|] == links;
  }

  lemma DistributedMore(links: seq<string>, nameOf: string -> string, names: seq<string>, i: nat, name: string)
    requires i < |links| && Distributed(links[..i], nameOf, names)
    requires FirstFree(nameOf(links[i]), Elements(names), name)
    ensures Distributed(links[..i + 1], nameOf, names + [name])
    ensures Elements(names + [name]) == Elements(names) + {name}
  {
    var more := names + [name];
    forall k | 0 <= k < |more|
      ensures FirstFree(nameOf(links[..i + 1][k]), Elements(more[..k]), more[k])
    {
      assert more[..k] == names[..k];
      if k < i {
        assert links[..i + 1][k] == links[..i][k];
      } else {
        assert names[..k] == names;
      }
    }
  }

  /** The names of a batch are pairwise distinct, and are settled by the links alone. */
  lemma {:induction false} BatchIsDistinct(links: seq<string>, nameOf: string -> string, names: seq<string>,
                                               i: nat, j: nat)
    requires Distributed(links, nameOf, names) && i < j < |names|
    ensures names[i] != names[j]
    ensures nameOf(links[j]) !in names[..j] ==> names[j] == nameOf(links[j])
  {
    assert names[i] == names[..j][i];
    if nameOf(links[j]) !in names[..j] {
      FirstFreeUnique(nameOf(links[j]), Elements(names[..j]), names[j], names[j]);
    }
  }

  lemma NextIsSettled(links: seq<string>, nameOf: string -> string, a: seq<string>, b: seq<string>, i: nat)
    requires Distributed(links, nameOf, a) && Distributed(links, nameOf, b) && i < |links|
    requires a[..i] == b[..i]
    ensures a[i] == b[i]
  {
    FirstFreeUnique(nameOf(links[i]), Elements(a[..i]), a[i], b[i]);
  }

  lemma {:induction false} BatchIsSettled(links: seq<string>, nameOf: string -> string,
                                              a: seq<string>, b: seq<string>, n: nat)
    requires Distributed(links, nameOf, a) && Distributed(links, nameOf, b) && n <= |links|
    ensures forall i :: 0 <= i < n ==> a[i] == b[i]
  {
    if n == 0 {
    } else {
      BatchIsSettled(links, nameOf, a, b, n - 1);
      assert a[..n - 1] == b[..n - 1];
      NextIsSettled(links, nameOf, a, b, n - 1);
    }
  }
}
