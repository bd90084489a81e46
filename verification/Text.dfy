/** The string functions of Go's strconv and strings packages that the parsers here
    use. */
module Text {
  import opened Options

  const MAX_INT := 0x7FFF_FFFF_FFFF_FFFF

  // ----- decimal numbers -----

  predicate IsDigit(c: char) {
    '0' <= c <= '9'
  }

  predicate AllDigits(s: string) {
    forall i :: 0 <= i < |s| ==> IsDigit(s[i])
  }

  function DigitChar(d: nat): char
    requires d < 10
  {
    '0' + d as char
  }

  /** strconv.Itoa of a number that is not negative. */
  function Itoa(n: nat): (s: string)
    ensures |s| > 0 && AllDigits(s)
  {
    if n < 10 then [DigitChar(n)] else Itoa(n / 10) + [DigitChar(n % 10)]
  }

  function Value(s: string): nat
    requires AllDigits(s)
  {
    if s == [] then 0 else 10 * Value(s[..|s| - 1]) + (s[|s| - 1] as int - '0' as int)
  }

  /** strconv.Atoi and ParseInt(s, 10, 64): an optional sign, then digits, within 64
      bits. */
  function ParseInt(s: string): Option<int> {
    var neg := |s| > 0 && s[0] == '-';
    var digits := if |s| > 0 && (s[0] == '+' || s[0] == '-') then s[1..] else s;
    if digits == [] || !AllDigits(digits) then None
    else
      var n: int := Value(digits);
      if neg then (if n <= MAX_INT + 1 then Some(-n) else None)
      else (if n <= MAX_INT then Some(n) else None)
  }

  lemma {:induction false} ValueOfItoa(n: nat)
    ensures Value(Itoa(n)) == n
  {
    if n < 10 {
    } else {
      ValueOfItoa(n / 10);
      assert Itoa(n)[..|Itoa(n)| - 1] == Itoa(n / 10);
    }
  }

  lemma ParseOfItoa(n: nat)
    requires n <= MAX_INT
    ensures ParseInt(Itoa(n)) == Some(n)
  {
    ValueOfItoa(n);
    assert IsDigit(Itoa(n)[0]);
  }

  /** Digits with a sign or none; leading zeros do not count. */
  lemma SignedReads(d: string)
    requires d != "" && AllDigits(d)
    ensures ParseInt(d) == ParseInt(['+'] + d) == if Value(d) <= MAX_INT then Some(Value(d)) else None
    ensures var n: int := Value(d); ParseInt(['-'] + d) == if n <= MAX_INT + 1 then Some(-n) else None
    ensures Value(['0'] + d) == Value(d)
  {
    assert (['+'] + d)[1..] == d && (['-'] + d)[1..] == d;
    LeadingZero(d);
  }

  lemma {:induction false} LeadingZero(d: string)
    requires AllDigits(d)
    ensures AllDigits(['0'] + d) && Value(['0'] + d) == Value(d)
  {
    if d == "" {
      assert (['0'] + d)[..0] == "";
    } else {
      LeadingZero(d[..|d| - 1]);
      assert (['0'] + d)[..|d|] == ['0'] + d[..|d| - 1];
    }
  }

  /** Nothing else is a number. */
  lemma OnlySignedReads(s: string)
    requires ParseInt(s).Some?
    ensures exists d :: d != "" && AllDigits(d) && (s == d || s == ['+'] + d || s == ['-'] + d)
  {
    var d := if s[0] == '+' || s[0] == '-' then s[1..] else s;
    assert s == d || s == [s[0]] + d;
  }

  lemma ItoaInjective(m: nat, n: nat)
    requires Itoa(m) == Itoa(n)
    ensures m == n
  {
    ValueOfItoa(m);
    ValueOfItoa(n);
  }

  // ----- cutting -----

  function Index(s: string, c: char): (i: int)
    ensures -1 <= i < |s|
    ensures i >= 0 ==> s[i] == c && c !in s[..i]
    ensures i < 0 <==> c !in s
  {
    if s == [] then -1
    else if s[0] == c then 0
    else
      var i := Index(s[1..], c);
      assert s == [s[0]] + s[1..];
      if i < 0 then -1
      else
        assert s[..i + 1] == [s[0]] + s[1..][..i];
        i + 1
  }

  /** strings.Cut at a one-byte separator. */
  function Cut(s: string, sep: char): (string, string, bool) {
    var i := Index(s, sep);
    if i < 0 then (s, "", false) else (s[..i], s[i + 1..], true)
  }

  lemma CutAt(a: string, sep: char, b: string)
    requires sep !in a
    ensures Cut(a + [sep] + b, sep) == (a, b, true)
  {
    var s := a + [sep] + b;
    assert s[..|a|] == a && s[|a|] == sep && s[|a| + 1..] == b;
    assert forall k :: 0 <= k < |a| ==> s[k] == a[k] && a[k] in a;
    assert forall k :: |a| < k <= |s| ==> s[..k][|a|] == sep;
    assert Index(s, sep) == |a|;
  }

  /** strings.CutPrefix. */
  function CutPrefix(s: string, prefix: string): (string, bool) {
    if prefix <= s then (s[|prefix|..], true) else (s, false)
  }

  lemma CutPrefixOf(prefix: string, rest: string)
    ensures CutPrefix(prefix + rest, prefix) == (rest, true)
  {
    assert (prefix + rest)[|prefix|..] == rest;
  }

  // ----- trimming -----

  /** unicode.IsSpace. */
  predicate IsSpace(c: char) {
    || c == ' ' || ('\U{0009}' <= c <= '\U{000D}') || c == '\U{0085}' || c == '\U{00A0}'
    || c == '\U{1680}' || ('\U{2000}' <= c <= '\U{200A}') || c == '\U{2028}' || c == '\U{2029}'
    || c == '\U{202F}' || c == '\U{205F}' || c == '\U{3000}'
  }

  /** The blanks of a keyboard. */
  lemma AsciiBlanks(c: char)
    requires c <= '\U{007F}'
    ensures IsSpace(c) <==> c in " \t\n\U{000B}\U{000C}\r"
  {
    var blanks := " \t\n\U{000B}\U{000C}\r";
    assert blanks[0] == ' ' && blanks[1] == '\t' && blanks[2] == '\n' && blanks[5] == '\r';
    assert blanks[3] == '\U{000B}' && blanks[4] == '\U{000C}';
  }

  function TrimLeft(s: string): string {
    if s != [] && IsSpace(s[0]) then TrimLeft(s[1..]) else s
  }

  function TrimRight(s: string): string {
    if s != [] && IsSpace(s[|s| - 1]) then TrimRight(s[..|s| - 1]) else s
  }

  function TrimSpace(s: string): string {
    TrimRight(TrimLeft(s))
  }

  // ----- splitting and joining -----

  /** strings.Split at a one-byte separator. */
  function Split(s: string, sep: char): (parts: seq<string>)
    ensures |parts| > 0
    decreases |s|
  {
    var i := Index(s, sep);
    if i < 0 then [s] else [s[..i]] + Split(s[i + 1..], sep)
  }

  function Join(parts: seq<string>, sep: char): string {
    if parts == [] then "" else if |parts| == 1 then parts[0] else parts[0] + [sep] + Join(parts[1..], sep)
  }

  lemma SplitCut(a: string, sep: char, rest: string)
    requires sep !in a
    ensures Split(a + [sep] + rest, sep) == [a] + Split(rest, sep)
  {
    CutAt(a, sep, rest);
  }

  lemma {:induction false} SplitOfJoin(parts: seq<string>, sep: char)
    requires parts != [] && forall i :: 0 <= i < |parts| ==> sep !in parts[i]
    ensures Split(Join(parts, sep), sep) == parts
  {
    if |parts| <= 1 {
    } else {
      SplitOfJoin(parts[1..], sep);
      SplitCut(parts[0], sep, Join(parts[1..], sep));
    }
  }
}
