/** selection.go: the printed choice of a torrent's files and its parser. Glob
    matching (path.Match) is left to two functions of the caller's. */
module Selection {
  import opened Options
  import opened Text

  datatype Item = Range(lo: int, hi: int) | Glob(pattern: string)

  /** A parsed spec; no items means everything (the nil *Selection). */
  datatype Parsed = Everything | Chosen(items: seq<Item>) | Bad(part: string)

  /** parseRange: not shaped like "N" or "N-M", or shaped so but invalid, or a range. */
  datatype RangeResult = NotARange | Invalid | Bounds(lo: int, hi: int)

  function ParseRange(part: string): RangeResult {
    var (loStr, hiStr, isRange) := Cut(part, '-');
    var lo := ParseInt(TrimSpace(loStr));
    var hi := if isRange then ParseInt(TrimSpace(hiStr)) else lo;
    if lo.None? || hi.None? then NotARange
    else if lo.value < 1 || hi.value < lo.value then Invalid
    else Bounds(lo.value, hi.value)
  }

  /** One part of the spec: blank, refused, or an item. */
  datatype Part = Blank | Refused | Taken(item: Item)

  function ReadPart(part: string, badPattern: string -> bool): Part {
    if part == "" then Blank
    else
      match ParseRange(part)
      case Invalid => Refused
      case Bounds(lo, hi) => Taken(Range(lo, hi))
      case NotARange => if badPattern(part) then Refused else Taken(Glob(part))
  }

  /** The loop over the comma-separated parts. */
  function ParseParts(parts: seq<string>, badPattern: string -> bool): Parsed {
    if parts == [] then Chosen([])
    else
      var part := TrimSpace(parts[0]);
      match ReadPart(part, badPattern)
      case Blank => ParseParts(parts[1..], badPattern)
      case Refused => Bad(part)
      case Taken(item) => Continue([item], ParseParts(parts[1..], badPattern))
  }

  function Continue(items: seq<Item>, rest: Parsed): Parsed {
    if rest.Chosen? then Chosen(items + rest.items) else rest
  }

  function Parse(spec: string, badPattern: string -> bool): Parsed {
    var spec := TrimSpace(spec);
    if spec == "" then Everything
    else
      var r := ParseParts(Split(spec, ','), badPattern);
      if r == Chosen([]) then Everything else r
  }

  /** One turn of the parser's loop. */
  lemma ParseStep(items: seq<Item>, parts: seq<string>, i: nat, badPattern: string -> bool)
    requires i < |parts|
    ensures var part := TrimSpace(parts[i]);
            var rest := ParseParts(parts[i + 1..], badPattern);
            Continue(items, ParseParts(parts[i..], badPattern)) ==
            match ReadPart(part, badPattern)
            case Blank => Continue(items, rest)
            case Refused => Bad(part)
            case Taken(item) => Continue(items + [item], rest)
  {
    assert parts[i..][0] == parts[i] && parts[i..][1..] == parts[i + 1..];
    var rest := ParseParts(parts[i + 1..], badPattern);
    var read := ReadPart(TrimSpace(parts[i]), badPattern);
    if rest.Chosen? && read.Taken? {
      assert items + ([read.item] + rest.items) == items + [read.item] + rest.items;
    }
  }

  method ParseSelection(spec: string, badPattern: string -> bool) returns (r: Parsed)
    ensures r == Parse(spec, badPattern)
  {
    var text := TrimSpace(spec);
    if text == "" {
      return Everything;
    }
    var parts := Split(text, ',');
    var items: seq<Item> := [];
    var i := 0;
    ghost var whole := ParseParts(parts, badPattern);
    assert parts[0..] == parts;
    while i < |parts|
      invariant 0 <= i <= |parts|
      invariant whole == Continue(items, ParseParts(parts[i..], badPattern))
    {
      ParseStep(items, parts, i, badPattern);
      var part := TrimSpace(parts[i]);
      match ReadPart(part, badPattern) {
        case Blank =>
        case Refused => return Bad(part);
        case Taken(item) => items := items + [item];
      }
      i := i + 1;
    }
    if items == [] {
      return Everything;
    }
    return Chosen(items);
  }

  /** Match; glob(pattern, path) covers the full path and its base name. */
  predicate Matches(sel: Parsed, index: int, path: string, glob: (string, string) -> bool) {
    match sel
    case Everything => true
    case Bad(_) => false
    case Chosen(items) =>
      exists k :: 0 <= k < |items| && match items[k]
                                      case Range(lo, hi) => lo <= index <= hi
                                      case Glob(p) => glob(p, path)
  }

  // ----- the printer -----

  /** The index after the run of wanted files that starts at i. */
  function RunEnd(selected: seq<bool>, i: nat): (j: nat)
    requires i < |selected|
    ensures i < j <= |selected|
    ensures selected[i] ==> forall k :: i <= k < j ==> selected[k]
    ensures j < |selected| ==> !selected[j] || !selected[i]
    decreases |selected| - i
  {
    if selected[i] && i + 1 < |selected| && selected[i + 1] then RunEnd(selected, i + 1) else i + 1
  }

  /** The maximal runs of wanted files from i on, numbered from 1. */
  function Runs(selected: seq<bool>, i: nat): seq<(nat, nat)>
    requires i <= |selected|
    decreases |selected| - i
  {
    if i == |selected| then []
    else if !selected[i] then Runs(selected, i + 1)
    else var j := RunEnd(selected, i); [(i + 1, j)] + Runs(selected, j)
  }

  function RunText(run: (nat, nat)): string {
    if run.0 == run.1 then Itoa(run.0) else Itoa(run.0) + "-" + Itoa(run.1)
  }

  function Texts(runs: seq<(nat, nat)>): seq<string> {
    if runs == [] then [] else [RunText(runs[0])] + Texts(runs[1..])
  }

  /** One turn of the printer's loop. */
  lemma RunsStep(parts: seq<string>, selected: seq<bool>, i: nat)
    requires i < |selected| && selected[i]
    ensures var j := RunEnd(selected, i);
            parts + Texts(Runs(selected, i)) == parts + [RunText((i + 1, j))] + Texts(Runs(selected, j))
  {
    var j := RunEnd(selected, i);
    assert Runs(selected, i)[1..] == Runs(selected, j);
    assert Texts(Runs(selected, i)) == [RunText((i + 1, j))] + Texts(Runs(selected, j));
  }

  predicate AllWanted(selected: seq<bool>) {
    forall i :: 0 <= i < |selected| ==> selected[i]
  }

  function Spec(selected: seq<bool>): string {
    if AllWanted(selected) then "" else Join(Texts(Runs(selected, 0)), ',')
  }

  /** The loop that finds out whether every file is wanted. */
  method EveryWanted(selected: seq<bool>) returns (all: bool)
    ensures all == AllWanted(selected)
  {
    for k := 0 to |selected|
      invariant forall m :: 0 <= m < k ==> selected[m]
    {
      if !selected[k] {
        return false;
      }
    }
    return true;
  }

  /** The loop that finds the last wanted file of a run. */
  method LastOfRun(selected: seq<bool>, i: nat) returns (j: nat)
    requires i < |selected| && selected[i]
    ensures i <= j < |selected| && j + 1 == RunEnd(selected, i)
  {
    j := i;
    while j + 1 < |selected| && selected[j + 1]
      invariant i <= j < |selected| && selected[j]
      invariant RunEnd(selected, i) == RunEnd(selected, j)
    {
      j := j + 1;
    }
  }

  method SelectionSpec(selected: seq<bool>) returns (spec: string)
    ensures spec == Spec(selected)
  {
    var all := EveryWanted(selected);
    if all {
      return "";
    }
    var parts: seq<string> := [];
    var i := 0;
    while i < |selected|
      invariant 0 <= i <= |selected|
      invariant parts + Texts(Runs(selected, i)) == Texts(Runs(selected, 0))
    {
      if !selected[i] {
        i := i + 1;
        continue;
      }
      var j := LastOfRun(selected, i);
      RunsStep(parts, selected, i);
      var part := if i == j then Itoa(i + 1) else Itoa(i + 1) + "-" + Itoa(j + 1);
      parts := parts + [part];
      i := j + 1;
    }
    assert parts == Texts(Runs(selected, 0));
    return Join(parts, ',');
  }

  // ----- what the runs are -----

  ghost predicate InRuns(runs: seq<(nat, nat)>, n: nat) {
    exists k :: 0 <= k < |runs| && runs[k].0 <= n <= runs[k].1
  }

  lemma InRunsCons(run: (nat, nat), rest: seq<(nat, nat)>, n: nat)
    ensures InRuns([run] + rest, n) <==> run.0 <= n <= run.1 || InRuns(rest, n)
  {
    var runs := [run] + rest;
    if InRuns(rest, n) {
      var k :| 0 <= k < |rest| && rest[k].0 <= n <= rest[k].1;
      assert runs[k + 1] == rest[k];
    }
    if run.0 <= n <= run.1 {
      assert runs[0] == run;
    }
    if InRuns(runs, n) {
      var k :| 0 <= k < |runs| && runs[k].0 <= n <= runs[k].1;
      assert k > 0 ==> rest[k - 1] == runs[k];
    }
  }

  /** A file is in one of the runs exactly if it is wanted. */
  lemma {:induction false} RunsCover(selected: seq<bool>, i: nat, n: nat)
    requires i <= |selected|
    ensures InRuns(Runs(selected, i), n) <==> i < n <= |selected| && selected[n - 1]
    decreases |selected| - i
  {
    if i == |selected| {
    } else {
      if !selected[i] {
        RunsCover(selected, i + 1, n);
      } else {
        var j := RunEnd(selected, i);
        RunsCover(selected, j, n);
        InRunsCons((i + 1, j), Runs(selected, j), n);
      }
    }
  }

  /** Where runs begin: a wanted file that is first or follows an unwanted one. */
  predicate Begins(selected: seq<bool>, k: nat)
    requires k < |selected|
  {
    selected[k] && (k == 0 || !selected[k - 1])
  }

  function Beginnings(selected: seq<bool>, i: nat): nat
    requires i <= |selected|
    decreases |selected| - i
  {
    if i == |selected| then 0 else (if Begins(selected, i) then 1 else 0) + Beginnings(selected, i + 1)
  }

  lemma {:induction false} NoBeginningInside(selected: seq<bool>, i: nat, j: nat)
    requires 0 < i <= j <= |selected|
    requires forall k :: i - 1 <= k < j ==> selected[k]
    ensures Beginnings(selected, i) == Beginnings(selected, j)
    decreases j - i
  {
    if i == j {
    } else {
      NoBeginningInside(selected, i + 1, j);
    }
  }

  /** The spec has one part per maximal run. */
  lemma {:induction false} OnePartPerRun(selected: seq<bool>, i: nat)
    requires i <= |selected| && (0 < i < |selected| && selected[i] ==> !selected[i - 1])
    ensures |Texts(Runs(selected, i))| == |Runs(selected, i)| == Beginnings(selected, i)
    ensures forall k :: 0 <= k < |Runs(selected, i)| ==>
                          i < Runs(selected, i)[k].0 <= Runs(selected, i)[k].1 <= |selected|
    ensures forall k :: 0 <= k < |Texts(Runs(selected, i))| ==>
                          Texts(Runs(selected, i))[k] == RunText(Runs(selected, i)[k])
    decreases |selected| - i
  {
    if i == |selected| {
    } else {
      if !selected[i] {
        OnePartPerRun(selected, i + 1);
      } else {
        var j := RunEnd(selected, i);
        OnePartPerRun(selected, j);
        NoBeginningInside(selected, i + 1, j);
        assert Runs(selected, i)[1..] == Runs(selected, j);
      }
    }
  }

  // ----- the round trip -----

  lemma DigitsTrim(s: string)
    requires |s| > 0 && AllDigits(s)
    ensures TrimSpace(s) == s && '-' !in s && ',' !in s
  {
  }

  lemma EdgesTrim(s: string)
    requires DigitEdges(s)
    ensures TrimSpace(s) == s
  {
  }

  lemma SpanText(run: (nat, nat))
    requires run.0 != run.1
    ensures RunText(run) == Itoa(run.0) + ['-'] + Itoa(run.1)
    ensures ',' !in RunText(run)
  {
    DigitsTrim(Itoa(run.0));
    DigitsTrim(Itoa(run.1));
  }

  lemma OneParses(n: nat)
    requires 1 <= n <= MAX_INT
    ensures ParseRange(Itoa(n)) == Bounds(n, n)
  {
    var a := Itoa(n);
    DigitsTrim(a);
    ParseOfItoa(n);
    assert Index(a, '-') < 0;
  }

  lemma SpanParses(m: nat, n: nat)
    requires 1 <= m <= n <= MAX_INT
    ensures ParseRange(Itoa(m) + ['-'] + Itoa(n)) == Bounds(m, n)
  {
    DigitsTrim(Itoa(m));
    DigitsTrim(Itoa(n));
    ParseOfItoa(m);
    ParseOfItoa(n);
    CutAt(Itoa(m), '-', Itoa(n));
  }

  /** A printed run parses back to its bounds. */
  lemma RunParses(run: (nat, nat))
    requires 1 <= run.0 <= run.1 <= MAX_INT
    ensures TrimSpace(RunText(run)) == RunText(run) && RunText(run) != "" && ',' !in RunText(run)
    ensures ParseRange(RunText(run)) == Bounds(run.0, run.1)
  {
    RunEdges(run);
    EdgesTrim(RunText(run));
    if run.0 == run.1 {
      OneParses(run.0);
      DigitsTrim(Itoa(run.0));
    } else {
      SpanText(run);
      SpanParses(run.0, run.1);
    }
  }

  function Ranges(runs: seq<(nat, nat)>): seq<Item> {
    if runs == [] then [] else [Range(runs[0].0, runs[0].1)] + Ranges(runs[1..])
  }

  ghost predicate Printable(runs: seq<(nat, nat)>) {
    forall k :: 0 <= k < |runs| ==> 1 <= runs[k].0 <= runs[k].1 <= MAX_INT
  }

  lemma RunReads(run: (nat, nat), badPattern: string -> bool)
    requires 1 <= run.0 <= run.1 <= MAX_INT
    ensures ReadPart(TrimSpace(RunText(run)), badPattern) == Taken(Range(run.0, run.1))
    ensures ',' !in RunText(run)
  {
    RunParses(run);
  }

  lemma PartsCons(part: string, rest: seq<string>, badPattern: string -> bool)
    requires ReadPart(TrimSpace(part), badPattern).Taken?
    ensures var read := ReadPart(TrimSpace(part), badPattern);
            ParseParts([part] + rest, badPattern) == Continue([read.item], ParseParts(rest, badPattern))
  {
    assert ([part] + rest)[1..] == rest;
  }

  lemma {:induction false} TextsParse(runs: seq<(nat, nat)>, badPattern: string -> bool)
    requires Printable(runs)
    ensures ParseParts(Texts(runs), badPattern) == Chosen(Ranges(runs))
    ensures forall k :: 0 <= k < |Texts(runs)| ==> ',' !in Texts(runs)[k]
    ensures |Texts(runs)| == |runs|
  {
    if runs == [] {
    } else {
      RunReads(runs[0], badPattern);
      TextsParse(runs[1..], badPattern);
      PartsCons(RunText(runs[0]), Texts(runs[1..]), badPattern);
    }
  }

  lemma {:induction false} RangesMatch(runs: seq<(nat, nat)>, n: nat, path: string, glob: (string, string) -> bool)
    ensures |Ranges(runs)| == |runs|
    ensures forall k :: 0 <= k < |runs| ==> Ranges(runs)[k] == Range(runs[k].0, runs[k].1)
    ensures Matches(Chosen(Ranges(runs)), n, path, glob) <==> InRuns(runs, n)
  {
    if runs == [] {
    } else {
      RangesMatch(runs[1..], n, path, glob);
    }
    if InRuns(runs, n) {
      var k :| 0 <= k < |runs| && runs[k].0 <= n <= runs[k].1;
      assert Ranges(runs)[k] == Range(runs[k].0, runs[k].1);
    }
  }

  /** A text that begins and ends with a digit. */
  predicate DigitEdges(s: string) {
    s != "" && IsDigit(s[0]) && IsDigit(s[|s| - 1])
  }

  lemma EdgesJoin(a: string, b: string)
    requires DigitEdges(a) && DigitEdges(b)
    ensures DigitEdges(a + [','] + b)
  {
    var s := a + [','] + b;
    assert s[0] == a[0] && s[|s| - 1] == b[|b| - 1];
  }

  /** The joined parts begin and end with a digit, so trimming leaves them alone. */
  lemma {:induction false} JoinedEdges(runs: seq<(nat, nat)>)
    requires runs != []
    ensures DigitEdges(Join(Texts(runs), ','))
  {
    RunEdges(runs[0]);
    if |runs| == 1 {
    } else {
      JoinedEdges(runs[1..]);
      assert Texts(runs)[1..] == Texts(runs[1..]);
      EdgesJoin(RunText(runs[0]), Join(Texts(runs[1..]), ','));
    }
  }

  lemma RunEdges(run: (nat, nat))
    ensures DigitEdges(RunText(run))
  {
    var a, b := Itoa(run.0), Itoa(run.1);
    assert run.0 != run.1 ==> RunText(run)[0] == a[0] && RunText(run)[|RunText(run)| - 1] == b[|b| - 1];
  }

  predicate Wanted(selected: seq<bool>) {
    exists i :: 0 <= i < |selected| && selected[i]
  }

  lemma RunsIffWanted(selected: seq<bool>)
    ensures Runs(selected, 0) != [] <==> Wanted(selected)
  {
    var runs := Runs(selected, 0);
    OnePartPerRun(selected, 0);
    if Wanted(selected) {
      var i :| 0 <= i < |selected| && selected[i];
      RunsCover(selected, 0, i + 1);
    } else if runs != [] {
      RunsCover(selected, 0, runs[0].0);
    }
  }

  lemma RunsParse(runs: seq<(nat, nat)>, badPattern: string -> bool)
    requires runs != [] && Printable(runs)
    ensures Parse(Join(Texts(runs), ','), badPattern) == Chosen(Ranges(runs))
  {
    TextsParse(runs, badPattern);
    JoinedEdges(runs);
    EdgesTrim(Join(Texts(runs), ','));
    SplitOfJoin(Texts(runs), ',');
    assert Ranges(runs) != [];
  }

  /** What the printed spec parses to. */
  lemma {:induction false} SpecParses(selected: seq<bool>, badPattern: string -> bool)
    requires |selected| <= MAX_INT
    ensures Parse(Spec(selected), badPattern) ==
            if AllWanted(selected) || !Wanted(selected) then Everything else Chosen(Ranges(Runs(selected, 0)))
  {
    RunsIffWanted(selected);
    OnePartPerRun(selected, 0);
    if !AllWanted(selected) && Wanted(selected) {
      RunsParse(Runs(selected, 0), badPattern);
    } else {
      assert Spec(selected) == "";
    }
  }

  /** The choice as the parsed spec makes it. */
  predicate Faithful(selected: seq<bool>, badPattern: string -> bool, glob: (string, string) -> bool, path: string) {
    forall i :: 0 <= i < |selected| ==>
                  Matches(Parse(Spec(selected), badPattern), i + 1, path, glob) == selected[i]
  }

  /** Printing a choice and parsing it back gives the same choice, for every path,
      if and only if some file is wanted (or there is none): a choice of nothing
      prints as "", which means everything. */
  lemma RoundTripIff(selected: seq<bool>, badPattern: string -> bool, glob: (string, string) -> bool, path: string)
    requires |selected| <= MAX_INT
    ensures Faithful(selected, badPattern, glob, path) <==> Wanted(selected) || selected == []
  {
    SpecParses(selected, badPattern);
    var parsed := Parse(Spec(selected), badPattern);
    if Wanted(selected) && !AllWanted(selected) {
      forall i | 0 <= i < |selected|
        ensures Matches(parsed, i + 1, path, glob) == selected[i]
      {
        RangesMatch(Runs(selected, 0), i + 1, path, glob);
        RunsCover(selected, 0, i + 1);
      }
    } else if selected != [] && !Wanted(selected) {
      assert Matches(parsed, 0 + 1, path, glob) && !selected[0];
    }
  }
}
