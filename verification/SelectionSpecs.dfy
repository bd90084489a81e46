/** What a --files value means (selection.go): a list of words, with any blanks around
    them, written out and parsed. */
module SelectionSpecs {
  import opened Options
  import opened Text
  import opened Selection

  /** What may stand between two commas. Numbers are digits, leading zeros included;
      before and after are the blanks around a range's dash. */
  datatype Word =
    | Nothing
    | Number(digits: string)
    | Span(lo: string, before: string, after: string, hi: string)
    | Pattern(text: string)

  /** A word with the blanks around it. */
  datatype Piece = Piece(left: string, word: Word, right: string)

  predicate Blanks(s: string) {
    forall i :: 0 <= i < |s| ==> IsSpace(s[i])
  }

  /** Digits that make an int. */
  predicate Numeral(d: string) {
    d != "" && AllDigits(d) && Value(d) <= MAX_INT
  }

  /** Shaped like "N" or "N-M", N and M possibly signed. */
  predicate LooksLikeRange(text: string) {
    || ('-' !in text && ParseInt(TrimSpace(text)).Some?)
    || exists i :: 0 <= i < |text| && text[i] == '-' && '-' !in text[..i]
                   && ParseInt(TrimSpace(text[..i])).Some? && ParseInt(TrimSpace(text[i + 1..])).Some?
  }

  /** A text that begins and ends with no blank. */
  predicate Tight(s: string) {
    s != "" && !IsSpace(s[0]) && !IsSpace(s[|s| - 1])
  }

  predicate WellFormed(w: Word) {
    match w
    case Nothing => true
    case Number(d) => Numeral(d)
    case Span(lo, before, after, hi) => Numeral(lo) && Blanks(before) && Blanks(after) && Numeral(hi)
    case Pattern(text) => Tight(text) && ',' !in text && !LooksLikeRange(text)
  }

  function Shown(w: Word): string {
    match w
    case Nothing => ""
    case Number(d) => d
    case Span(lo, before, after, hi) => lo + before + ['-'] + after + hi
    case Pattern(text) => text
  }

  /** Files are numbered from 1, ranges run upwards, patterns pass the check. */
  predicate Allowed(w: Word, badPattern: string -> bool)
    requires WellFormed(w)
  {
    match w
    case Nothing => true
    case Number(d) => Value(d) >= 1
    case Span(lo, _, _, hi) => 1 <= Value(lo) <= Value(hi)
    case Pattern(text) => !badPattern(text)
  }

  /** The item a word stands for, if any. */
  function ItemsOf(w: Word): seq<Item>
    requires WellFormed(w)
  {
    match w
    case Nothing => []
    case Number(d) => [Range(Value(d), Value(d))]
    case Span(lo, _, _, hi) => [Range(Value(lo), Value(hi))]
    case Pattern(text) => [Glob(text)]
  }

  predicate PieceOk(p: Piece) {
    Blanks(p.left) && WellFormed(p.word) && Blanks(p.right)
  }

  ghost predicate AllOk(ps: seq<Piece>) {
    forall i :: 0 <= i < |ps| ==> PieceOk(ps[i])
  }

  function Items(ps: seq<Piece>): seq<Item>
    requires AllOk(ps)
  {
    if ps == [] then [] else ItemsOf(ps[0].word) + Items(ps[1..])
  }

  function Texts(ps: seq<Piece>): seq<string> {
    if ps == [] then [] else [ps[0].left + Shown(ps[0].word) + ps[0].right] + Texts(ps[1..])
  }

  // ----- trimming -----

  lemma {:induction false} TrimLeftBlanks(left: string, s: string)
    requires Blanks(left)
    ensures TrimLeft(left + s) == TrimLeft(s)
  {
    if left == "" {
      assert left + s == s;
    } else {
      assert (left + s)[1..] == left[1..] + s;
      TrimLeftBlanks(left[1..], s);
    }
  }

  lemma {:induction false} TrimRightBlanks(s: string, right: string)
    requires Blanks(right)
    ensures TrimRight(s + right) == TrimRight(s)
  {
    if right == "" {
      assert s + right == s;
    } else {
      assert (s + right)[..|s + right| - 1] == s + right[..|right| - 1];
      TrimRightBlanks(s, right[..|right| - 1]);
    }
  }

  lemma TightTrims(s: string)
    requires Tight(s) || s == ""
    ensures TrimSpace(s) == s
  {
  }

  /** Blanks around a word go, the word stays. */
  lemma Trimmed(left: string, s: string, right: string)
    requires Blanks(left) && Blanks(right) && (Tight(s) || s == "")
    ensures TrimSpace(left + s + right) == s
  {
    assert left + s + right == left + (s + right);
    TrimLeftBlanks(left, s + right);
    if s == "" {
      assert s + right == right + "";
      TrimLeftBlanks(right, "");
    } else {
      assert (s + right)[0] == s[0];
      TrimRightBlanks(s, right);
    }
  }

  /** One blank more at either end makes no difference. */
  lemma TrimIgnores(c: char, s: string)
    requires IsSpace(c)
    ensures TrimSpace([c] + s) == TrimSpace(s) && TrimSpace(s + [c]) == TrimSpace(s)
  {
    assert ([c] + s)[1..] == s;
    TrimLeftSnoc(s, c);
    if TrimLeft(s) == "" {
      TrimLeftBlanks([c], "");
    } else {
      TrimRightBlanks(TrimLeft(s), [c]);
    }
  }

  lemma {:induction false} TrimLeftSnoc(s: string, c: char)
    requires IsSpace(c)
    ensures TrimLeft(s + [c]) == if TrimLeft(s) == "" then "" else TrimLeft(s) + [c]
  {
    if s == "" {
      assert s + [c] == [c];
    } else if IsSpace(s[0]) {
      assert (s + [c])[1..] == s[1..] + [c];
      TrimLeftSnoc(s[1..], c);
    }
  }

  // ----- the parser does not see blanks at the ends -----

  /** The same parts, up to the blanks around them. */
  ghost predicate SameTrims(a: seq<string>, b: seq<string>) {
    |a| == |b| && forall i :: 0 <= i < |a| ==> TrimSpace(a[i]) == TrimSpace(b[i])
  }

  lemma {:induction false} TrimsParse(a: seq<string>, b: seq<string>, badPattern: string -> bool)
    requires SameTrims(a, b)
    ensures ParseParts(a, badPattern) == ParseParts(b, badPattern)
  {
    if a == [] {
    } else {
      TrimsParse(a[1..], b[1..], badPattern);
    }
  }

  lemma SplitFirst(c: char, s: string)
    requires c != ','
    ensures Split([c] + s, ',') == [[c] + Split(s, ',')[0]] + Split(s, ',')[1..]
  {
    if ',' in s {
      var i := Index(s, ',');
      assert s == s[..i] + [','] + s[i + 1..];
      SplitCut(s[..i], ',', s[i + 1..]);
      assert [c] + s == ([c] + s[..i]) + [','] + s[i + 1..];
      SplitCut([c] + s[..i], ',', s[i + 1..]);
    } else {
      assert ',' !in [c] + s;
    }
  }

  lemma SplitAfter(a: string, rest: string, c: char)
    requires ',' !in a
    ensures Split(a + [','] + rest, ',') == [a] + Split(rest, ',')
    ensures Split(a + [','] + rest + [c], ',') == [a] + Split(rest + [c], ',')
  {
    SplitCut(a, ',', rest);
    assert a + [','] + rest + [c] == a + [','] + (rest + [c]);
    SplitCut(a, ',', rest + [c]);
  }

  lemma LastOfMore(a: string, ps: seq<string>, c: char)
    requires ps != []
    ensures var last := |ps| - 1; var qs := [a] + ps;
            qs[..last + 1] + [qs[last + 1] + [c]] == [a] + (ps[..last] + [ps[last] + [c]])
  {
  }

  /** A list with a comma: its first part and the list of the others. */
  lemma AtComma(s: string) returns (first: string, rest: string)
    requires ',' in s
    ensures s == first + [','] + rest && ',' !in first && |rest| < |s|
  {
    var i := Index(s, ',');
    first, rest := s[..i], s[i + 1..];
  }

  lemma {:induction false} SplitLast(s: string, c: char)
    requires c != ','
    ensures var ps := Split(s, ','); var last := |ps| - 1;
            Split(s + [c], ',') == ps[..last] + [ps[last] + [c]]
    decreases |s|
  {
    if ',' in s {
      var first, rest := AtComma(s);
      SplitLast(rest, c);
      SplitAfter(first, rest, c);
      LastOfMore(first, Split(rest, ','), c);
    } else {
      OnePart(s);
      OnePart(s + [c]);
    }
  }

  lemma OnePart(s: string)
    requires ',' !in s
    ensures Split(s, ',') == [s]
  {
  }

  /** A blank at either end of the list is a blank around a part. */
  lemma BlankBefore(c: char, s: string)
    requires IsSpace(c)
    ensures SameTrims(Split(s, ','), Split([c] + s, ','))
  {
    SplitFirst(c, s);
    TrimIgnores(c, Split(s, ',')[0]);
  }

  lemma BlankBehind(s: string, c: char)
    requires IsSpace(c)
    ensures SameTrims(Split(s, ','), Split(s + [c], ','))
  {
    SplitLast(s, c);
    TrimIgnores(c, Split(s, ',')[|Split(s, ',')| - 1]);
  }

  lemma {:induction false} SplitTrimsLeft(s: string)
    ensures SameTrims(Split(TrimLeft(s), ','), Split(s, ','))
  {
    if s != "" && IsSpace(s[0]) {
      SplitTrimsLeft(s[1..]);
      BlankBefore(s[0], s[1..]);
      assert s == [s[0]] + s[1..];
    }
  }

  lemma {:induction false} SplitTrimsRight(s: string)
    ensures SameTrims(Split(TrimRight(s), ','), Split(s, ','))
    decreases |s|
  {
    if s != "" && IsSpace(s[|s| - 1]) {
      var front, c := s[..|s| - 1], s[|s| - 1];
      SplitTrimsRight(front);
      BlankBehind(front, c);
      assert s == front + [c];
    }
  }

  /** So trimming the whole value first is as good as not. */
  lemma ParseUntrimmed(spec: string, badPattern: string -> bool)
    ensures var r := ParseParts(Split(spec, ','), badPattern);
            Parse(spec, badPattern) == if r == Chosen([]) then Everything else r
  {
    SplitTrimsLeft(spec);
    SplitTrimsRight(TrimLeft(spec));
    TrimsParse(Split(TrimSpace(spec), ','), Split(spec, ','), badPattern);
    if TrimSpace(spec) == "" {
      assert Split("", ',') == [""];
      assert ParseParts([""], badPattern) == Chosen([]);
    }
  }

  // ----- reading one word -----

  lemma NumeralReads(d: string)
    requires Numeral(d)
    ensures ParseInt(d) == Some(Value(d)) && Tight(d) && '-' !in d && ',' !in d
  {
  }

  lemma NumberReads(d: string)
    requires Numeral(d)
    ensures ParseRange(d) == if Value(d) >= 1 then Bounds(Value(d), Value(d)) else Invalid
  {
    NumeralReads(d);
    TightTrims(d);
    assert Index(d, '-') < 0;
  }

  lemma SpanShown(w: Word)
    requires w.Span? && WellFormed(w)
    ensures Shown(w) == (w.lo + w.before) + ['-'] + (w.after + w.hi)
    ensures Tight(Shown(w)) && ',' !in Shown(w) && '-' !in w.lo + w.before
  {
    NumeralReads(w.lo);
    NumeralReads(w.hi);
    var s := Shown(w);
    assert s[0] == w.lo[0] && s[|s| - 1] == w.hi[|w.hi| - 1];
  }

  lemma SpanReads(w: Word)
    requires w.Span? && WellFormed(w)
    ensures ParseRange(Shown(w)) ==
            if 1 <= Value(w.lo) <= Value(w.hi) then Bounds(Value(w.lo), Value(w.hi)) else Invalid
  {
    SpanShown(w);
    CutAt(w.lo + w.before, '-', w.after + w.hi);
    NumeralReads(w.lo);
    NumeralReads(w.hi);
    assert "" + w.lo + w.before == w.lo + w.before && w.after + w.hi + "" == w.after + w.hi;
    Trimmed("", w.lo, w.before);
    Trimmed(w.after, w.hi, "");
  }

  lemma PatternReads(text: string)
    requires !LooksLikeRange(text)
    ensures ParseRange(text).NotARange?
  {
    var i := Index(text, '-');
    if i >= 0 {
      assert text[i] == '-' && '-' !in text[..i];
    }
  }

  /** What the parser makes of a well-formed word. */
  lemma WordReads(w: Word, badPattern: string -> bool)
    requires WellFormed(w)
    ensures ReadPart(Shown(w), badPattern) ==
            if !Allowed(w, badPattern) then Refused
            else if w.Nothing? then Blank
            else Taken(ItemsOf(w)[0])
    ensures Tight(Shown(w)) || Shown(w) == ""
    ensures ',' !in Shown(w)
  {
    match w
    case Nothing =>
    case Number(d) =>
      NumeralReads(d);
      NumberReads(d);
    case Span(_, _, _, _) =>
      SpanShown(w);
      SpanReads(w);
    case Pattern(text) => PatternReads(text);
  }

  // ----- reading a list of words -----

  lemma PieceReads(p: Piece, badPattern: string -> bool)
    requires PieceOk(p)
    ensures var text := p.left + Shown(p.word) + p.right;
            TrimSpace(text) == Shown(p.word) && ',' !in text
  {
    WordReads(p.word, badPattern);
    Trimmed(p.left, Shown(p.word), p.right);
  }

  lemma {:induction false} TextsAreParts(ps: seq<Piece>, badPattern: string -> bool)
    requires AllOk(ps)
    ensures |Texts(ps)| == |ps| && forall i :: 0 <= i < |ps| ==> ',' !in Texts(ps)[i]
  {
    if ps == [] {
    } else {
      PieceReads(ps[0], badPattern);
      TextsAreParts(ps[1..], badPattern);
    }
  }

  /** The first piece, and what the rest comes to. */
  lemma FirstParses(ps: seq<Piece>, badPattern: string -> bool)
    requires AllOk(ps) && ps != []
    ensures ParseParts(Texts(ps), badPattern) ==
            if Allowed(ps[0].word, badPattern)
            then Continue(ItemsOf(ps[0].word), ParseParts(Texts(ps[1..]), badPattern))
            else Bad(Shown(ps[0].word))
  {
    PieceReads(ps[0], badPattern);
    WordReads(ps[0].word, badPattern);
    var rest := ParseParts(Texts(ps[1..]), badPattern);
    assert Texts(ps)[1..] == Texts(ps[1..]);
    assert rest.Chosen? ==> [] + rest.items == rest.items;
  }

  lemma {:induction false} PiecesParse(ps: seq<Piece>, badPattern: string -> bool)
    requires AllOk(ps) && forall i :: 0 <= i < |ps| ==> Allowed(ps[i].word, badPattern)
    ensures ParseParts(Texts(ps), badPattern) == Chosen(Items(ps))
  {
    if ps == [] {
    } else {
      FirstParses(ps, badPattern);
      PiecesParse(ps[1..], badPattern);
    }
  }

  lemma {:induction false} PiecesRefused(ps: seq<Piece>, k: nat, badPattern: string -> bool)
    requires AllOk(ps) && k < |ps| && !Allowed(ps[k].word, badPattern)
    requires forall i :: 0 <= i < k ==> Allowed(ps[i].word, badPattern)
    ensures ParseParts(Texts(ps), badPattern) == Bad(Shown(ps[k].word))
  {
    FirstParses(ps, badPattern);
    if k == 0 {
    } else {
      assert ps[1..][k - 1] == ps[k];
      PiecesRefused(ps[1..], k - 1, badPattern);
    }
  }

  lemma JoinedSplits(ps: seq<Piece>, badPattern: string -> bool)
    requires AllOk(ps)
    ensures ParseParts(Split(Join(Texts(ps), ','), ','), badPattern) == ParseParts(Texts(ps), badPattern)
  {
    if ps == [] {
      assert Split("", ',') == [""];
      assert ParseParts([""], badPattern) == Chosen([]);
    } else {
      TextsAreParts(ps, badPattern);
      SplitOfJoin(Texts(ps), ',');
    }
  }

  /** Any list of allowed numbers, ranges, patterns and empty parts, with any blanks
      around them, parses to its ranges and patterns in order; without any it means
      everything. */
  lemma WordsParse(ps: seq<Piece>, badPattern: string -> bool)
    requires AllOk(ps) && forall i :: 0 <= i < |ps| ==> Allowed(ps[i].word, badPattern)
    ensures Parse(Join(Texts(ps), ','), badPattern) == if Items(ps) == [] then Everything else Chosen(Items(ps))
  {
    JoinedSplits(ps, badPattern);
    PiecesParse(ps, badPattern);
    ParseUntrimmed(Join(Texts(ps), ','), badPattern);
  }

  /** The first part that is number 0, a range that starts at 0 or runs downwards, or a bad
      pattern refuses the whole list, whatever comes after it, and is named. */
  lemma FirstBadRefuses(ps: seq<Piece>, k: nat, badPattern: string -> bool)
    requires AllOk(ps) && k < |ps| && !Allowed(ps[k].word, badPattern)
    requires forall i :: 0 <= i < k ==> Allowed(ps[i].word, badPattern)
    ensures Parse(Join(Texts(ps), ','), badPattern) == Bad(Shown(ps[k].word))
  {
    JoinedSplits(ps, badPattern);
    PiecesRefused(ps, k, badPattern);
    ParseUntrimmed(Join(Texts(ps), ','), badPattern);
  }

  // ----- what is chosen -----

  /** The word names the file: by number, in its range, or by its path. */
  predicate Names(w: Word, index: int, path: string, glob: (string, string) -> bool)
    requires WellFormed(w)
  {
    match w
    case Nothing => false
    case Number(d) => index == Value(d)
    case Span(lo, _, _, hi) => Value(lo) <= index <= Value(hi)
    case Pattern(text) => glob(text, path)
  }

  ghost predicate Named(ps: seq<Piece>, index: int, path: string, glob: (string, string) -> bool)
    requires AllOk(ps)
  {
    exists k :: 0 <= k < |ps| && Names(ps[k].word, index, path, glob)
  }

  lemma NamedCons(ps: seq<Piece>, index: int, path: string, glob: (string, string) -> bool)
    requires AllOk(ps) && ps != []
    ensures Named(ps, index, path, glob) <==>
            Names(ps[0].word, index, path, glob) || Named(ps[1..], index, path, glob)
  {
    if Named(ps[1..], index, path, glob) {
      var k :| 0 <= k < |ps[1..]| && Names(ps[1..][k].word, index, path, glob);
      assert ps[k + 1] == ps[1..][k];
    }
    if k :| 0 < k < |ps| && Names(ps[k].word, index, path, glob) {
      assert ps[1..][k - 1] == ps[k];
    }
  }

  lemma MatchesCons(items: seq<Item>, rest: seq<Item>, index: int, path: string, glob: (string, string) -> bool)
    ensures Matches(Chosen(items + rest), index, path, glob) <==>
            Matches(Chosen(items), index, path, glob) || Matches(Chosen(rest), index, path, glob)
  {
    var all := items + rest;
    assert forall k :: 0 <= k < |items| ==> all[k] == items[k];
    assert forall k :: 0 <= k < |rest| ==> all[|items| + k] == rest[k];
    assert forall k :: |items| <= k < |all| ==> all[k] == rest[k - |items|];
  }

  lemma {:induction false} ItemsMatch(ps: seq<Piece>, index: int, path: string, glob: (string, string) -> bool)
    requires AllOk(ps)
    ensures Matches(Chosen(Items(ps)), index, path, glob) <==> Named(ps, index, path, glob)
  {
    if ps == [] {
    } else {
      ItemsMatch(ps[1..], index, path, glob);
      NamedCons(ps, index, path, glob);
      MatchesCons(ItemsOf(ps[0].word), Items(ps[1..]), index, path, glob);
      var own := ItemsOf(ps[0].word);
      assert own != [] ==> own[0] in own;
    }
  }

  lemma {:induction false} NoItems(ps: seq<Piece>)
    requires AllOk(ps)
    ensures Items(ps) == [] <==> forall k :: 0 <= k < |ps| ==> ps[k].word.Nothing?
  {
    if ps == [] {
    } else {
      NoItems(ps[1..]);
      assert forall k :: 0 < k < |ps| ==> ps[k] == ps[1..][k - 1];
    }
  }

  /** A list written by hand chooses a file if and only if one of its words names it, or
      it has no words. */
  lemma WordsChoose(ps: seq<Piece>, badPattern: string -> bool, index: int, path: string,
                    glob: (string, string) -> bool)
    requires AllOk(ps) && forall i :: 0 <= i < |ps| ==> Allowed(ps[i].word, badPattern)
    ensures Matches(Parse(Join(Texts(ps), ','), badPattern), index, path, glob) <==>
            Named(ps, index, path, glob) || forall k :: 0 <= k < |ps| ==> ps[k].word.Nothing?
  {
    WordsParse(ps, badPattern);
    ItemsMatch(ps, index, path, glob);
    NoItems(ps);
  }

  /** No text with a character that is no digit, sign or blank looks like a range. */
  lemma WordyIsNoRange(text: string, k: nat)
    requires k < |text| && !IsDigit(text[k]) && text[k] != '-' && text[k] != '+' && !IsSpace(text[k])
    ensures !LooksLikeRange(text)
  {
    TrimKeeps(text, k);
    forall i | 0 <= i < |text| && text[i] == '-'
      ensures !(ParseInt(TrimSpace(text[..i])).Some? && ParseInt(TrimSpace(text[i + 1..])).Some?)
    {
      if k < i {
        TrimKeeps(text[..i], k);
      } else {
        assert text[i + 1..][k - i - 1] == text[k];
        TrimKeeps(text[i + 1..], k - i - 1);
      }
    }
  }

  /** Trimming keeps every other character, so what is left is no number. */
  lemma TrimKeeps(s: string, k: nat)
    requires k < |s| && !IsDigit(s[k]) && s[k] != '-' && s[k] != '+' && !IsSpace(s[k])
    ensures ParseInt(TrimSpace(s)).None?
  {
    var j := LeftKeeps(s, k);
    j := RightKeeps(TrimLeft(s), j);
  }

  lemma {:induction false} LeftKeeps(s: string, k: nat) returns (j: nat)
    requires k < |s| && !IsSpace(s[k])
    ensures j < |TrimLeft(s)| && TrimLeft(s)[j] == s[k]
  {
    if IsSpace(s[0]) {
      j := LeftKeeps(s[1..], k - 1);
    } else {
      j := k;
    }
  }

  lemma {:induction false} RightKeeps(s: string, k: nat) returns (j: nat)
    requires k < |s| && !IsSpace(s[k])
    ensures j < |TrimRight(s)| && TrimRight(s)[j] == s[k]
    decreases |s|
  {
    if IsSpace(s[|s| - 1]) {
      j := RightKeeps(s[..|s| - 1], k);
    } else {
      j := k;
    }
  }
}
