/**
 * String operations the TypeScript sources use (`split`, `join`, `trim`, `indexOf`,
 * global literal `replace`, `toUpperCase` on ASCII, number-to-string, `<` on strings),
 * with the JavaScript meaning spelled out.
 */
module Text {
  import opened Wrappers

  // ---------------------------------------------------------------- characters

  predicate IsUpper(c: char) { 'A' <= c <= 'Z' }
  predicate IsLower(c: char) { 'a' <= c <= 'z' }
  predicate IsLetter(c: char) { IsUpper(c) || IsLower(c) }
  predicate IsDigit(c: char) { '0' <= c <= '9' }

  /** JavaScript's white space and line terminators: what `trim` removes and what `\s` matches. */
  predicate IsSpace(c: char) {
    c == ' ' || c == '\t' || c == '\n' || c == '\r' || c == '\U{000B}' || c == '\U{000C}'
    || c == '\U{00A0}' || c == '\U{1680}' || ('\U{2000}' <= c <= '\U{200A}')
    || c == '\U{2028}' || c == '\U{2029}' || c == '\U{202F}' || c == '\U{205F}'
    || c == '\U{3000}' || c == '\U{FEFF}'
  }

  function ToUpperChar(c: char): (r: char)
    ensures IsLower(c) ==> IsUpper(r) && r as int == c as int - 32
    ensures !IsLower(c) ==> r == c
  {
    if IsLower(c) then (c as int - 32) as char else c
  }

  function ToLowerChar(c: char): (r: char)
    ensures IsUpper(c) ==> IsLower(r) && r as int == c as int + 32
    ensures !IsUpper(c) ==> r == c
  {
    if IsUpper(c) then (c as int + 32) as char else c
  }

  /** `toLowerCase` on the ASCII letters; every other character is kept. */
  function Lower(s: string): (r: string)
    ensures |r| == |s|
    ensures forall i :: 0 <= i < |s| ==> r[i] == ToLowerChar(s[i])
  {
    seq(|s|, i requires 0 <= i < |s| => ToLowerChar(s[i]))
  }

  predicate AllLetters(s: string) { forall i :: 0 <= i < |s| ==> IsLetter(s[i]) }

  // ---------------------------------------------------------------- prefixes and occurrences

  predicate StartsWith(s: string, p: string) { |p| <= |s| && s[..|p|] == p }
  predicate EndsWith(s: string, p: string) { |p| <= |s| && s[|s| - |p|..] == p }

  /** `d` occurs in `s` starting at index `i`. */
  predicate Occurs(s: string, d: string, i: int) {
    0 <= i && i + |d| <= |s| && s[i..i + |d|] == d
  }

  predicate Contains(s: string, d: string) { exists i | 0 <= i <= |s| :: Occurs(s, d, i) }

  lemma OccursShift(s: string, d: string, j: int)
    requires |s| > 0 && j >= 1
    ensures Occurs(s, d, j) <==> Occurs(s[1..], d, j - 1)
  {
    if j + |d| <= |s| {
      assert s[j..j + |d|] == s[1..][j - 1..j - 1 + |d|];
    }
  }

  /** `s.indexOf(d)`: the first index where `d` occurs. */
  function IndexOf(s: string, d: string): (r: Option<nat>)
    ensures r.Some? ==> Occurs(s, d, r.value) && forall j :: 0 <= j < r.value ==> !Occurs(s, d, j)
    ensures r.None? ==> forall j :: !Occurs(s, d, j)
    decreases |s|
  {
    if |s| < |d| then None
    else if s[..|d|] == d then Some(0)
    else
      var rest := IndexOf(s[1..], d);
      assert forall j :: j >= 1 ==> (Occurs(s, d, j) <==> Occurs(s[1..], d, j - 1)) by {
        forall j | j >= 1 { OccursShift(s, d, j); }
      }
      assert !Occurs(s, d, 0);
      match rest
      case None => None
      case Some(k) => Some(k + 1)
  }

  /** For a one-character pattern, `indexOf` is the first position holding that character. */
  lemma IndexOfChar(s: string, c: char, i: nat)
    requires i < |s| && s[i] == c && forall j :: 0 <= j < i ==> s[j] != c
    ensures IndexOf(s, [c]) == Some(i)
  {
    assert Occurs(s, [c], i) by { assert s[i..i + 1] == [c]; }
    forall j | 0 <= j < i ensures !Occurs(s, [c], j) {
      assert s[j..j + 1][0] == s[j];
    }
    IndexOfFirst(s, [c], i);
  }

  /** The first occurrence is the one `indexOf` finds. */
  lemma IndexOfFirst(s: string, d: string, i: nat)
    requires Occurs(s, d, i) && forall j :: 0 <= j < i ==> !Occurs(s, d, j)
    ensures IndexOf(s, d) == Some(i)
  {
  }

  lemma IndexOfAbsentChar(s: string, c: char)
    requires forall j :: 0 <= j < |s| ==> s[j] != c
    ensures IndexOf(s, [c]) == None
  {
    forall j | 0 <= j < |s| ensures !Occurs(s, [c], j) {
      assert s[j..j + 1][0] == s[j];
    }
  }

  // ---------------------------------------------------------------- split and join

  /** `s.split(d)` for a non-empty separator: the pieces between leftmost non-overlapping occurrences. */
  function Split(s: string, d: string): (r: seq<string>)
    requires |d| > 0
    ensures |r| >= 1
    decreases |s|
  {
    match IndexOf(s, d)
    case None => [s]
    case Some(i) => [s[..i]] + Split(s[i + |d|..], d)
  }

  /** `parts.join(sep)`. */
  function Join(parts: seq<string>, sep: string): string {
    if |parts| == 0 then ""
    else if |parts| == 1 then parts[0]
    else parts[0] + sep + Join(parts[1..], sep)
  }

  /** The last piece of a join comes after the last separator. */
  lemma {:induction false} JoinLast(parts: seq<string>, sep: string)
    requires |parts| >= 1
    ensures |parts| == 1 ==> Join(parts, sep) == parts[0]
    ensures |parts| >= 2 ==> Join(parts, sep) == Join(parts[..|parts| - 1], sep) + sep + parts[|parts| - 1]
    decreases |parts|
  {
    var n := |parts|;
    if n == 2 {
      assert parts[..1] == [parts[0]];
      assert parts[1..] == [parts[1]];
    } else if n >= 3 {
      var init, tail := parts[..n - 1], parts[1..];
      JoinLast(tail, sep);
      assert tail[..n - 2] == init[1..];
      assert tail[n - 2] == parts[n - 1];
      calc {
        Join(parts, sep);
        parts[0] + sep + Join(tail, sep);
        parts[0] + sep + (Join(init[1..], sep) + sep + parts[n - 1]);
        (parts[0] + sep + Join(init[1..], sep)) + sep + parts[n - 1];
        { assert init[0] == parts[0]; }
        Join(init, sep) + sep + parts[n - 1];
      }
    }
  }

  /** The number of leftmost non-overlapping occurrences of `d` in `s`, scanning left to right. */
  function CountOccurrences(s: string, d: string): nat
    requires |d| > 0
    decreases |s|
  {
    if |s| < |d| then 0
    else if s[..|d|] == d then 1 + CountOccurrences(s[|d|..], d)
    else CountOccurrences(s[1..], d)
  }

  /** Joining the pieces of a split with the separator gives back the string. */
  lemma {:induction false} JoinSplit(s: string, d: string)
    requires |d| > 0
    ensures Join(Split(s, d), d) == s
    decreases |s|
  {
    match IndexOf(s, d)
    case None =>
    case Some(i) =>
      var rest := s[i + |d|..];
      var tail := Split(rest, d);
      JoinSplit(rest, d);
      var parts := [s[..i]] + tail;
      assert Split(s, d) == parts;
      assert parts[0] == s[..i] && parts[1..] == tail;
      assert Join(parts, d) == s[..i] + d + Join(tail, d);
      assert s[i..i + |d|] == d;
      assert s == s[..i] + s[i..i + |d|] + rest;
  }

  lemma {:induction false} CountFromFirst(s: string, d: string, i: nat)
    requires |d| > 0 && Occurs(s, d, i)
    requires forall j :: 0 <= j < i ==> !Occurs(s, d, j)
    ensures CountOccurrences(s, d) == 1 + CountOccurrences(s[i + |d|..], d)
    decreases i
  {
    if i == 0 {
      assert s[..|d|] == d;
    } else {
      CountStep(s, d);
      ShiftFree(s, d, i);
      OccursShift(s, d, i);
      CountFromFirst(s[1..], d, i - 1);
      assert s[1..][i - 1 + |d|..] == s[i + |d|..];
    }
  }

  /** Without the separator at the front, counting goes on from the second character. */
  lemma CountStep(s: string, d: string)
    requires |d| > 0 && |s| >= |d| && !Occurs(s, d, 0)
    ensures CountOccurrences(s, d) == CountOccurrences(s[1..], d)
  {
  }

  lemma {:induction false} CountNone(s: string, d: string)
    requires |d| > 0 && forall j :: !Occurs(s, d, j)
    ensures CountOccurrences(s, d) == 0
    decreases |s|
  {
    if |s| >= |d| {
      assert !Occurs(s, d, 0);
      forall j | true ensures !Occurs(s[1..], d, j) {
        if j >= 0 { OccursShift(s, d, j + 1); }
      }
      CountNone(s[1..], d);
    }
  }

  /** A split has one more piece than there are separators in the string. */
  lemma {:induction false} SplitCount(s: string, d: string)
    requires |d| > 0
    ensures |Split(s, d)| == CountOccurrences(s, d) + 1
    decreases |s|
  {
    match IndexOf(s, d)
    case None => CountNone(s, d);
    case Some(i) =>
      CountFromFirst(s, d, i);
      SplitCount(s[i + |d|..], d);
  }

  /** No piece of a split contains the separator. */
  lemma {:induction false} SplitPiecesFree(s: string, d: string, k: nat)
    requires |d| > 0 && k < |Split(s, d)|
    ensures !Contains(Split(s, d)[k], d)
    decreases |s|
  {
    match IndexOf(s, d)
    case None =>
    case Some(i) =>
      assert Split(s, d) == [s[..i]] + Split(s[i + |d|..], d);
      if k == 0 {
        var piece := s[..i];
        assert Split(s, d)[0] == piece;
        forall j | 0 <= j <= |piece| && Occurs(piece, d, j) ensures false {
          assert piece[j..j + |d|] == s[j..j + |d|];
          assert Occurs(s, d, j);
        }
      } else {
        SplitPiecesFree(s[i + |d|..], d, k - 1);
      }
  }

  // ---------------------------------------------------------------- replace and trim

  /** `s.replace(/pat/g, rep)` for a pattern that matches only itself and a replacement without `$`. */
  function ReplaceAll(s: string, pat: string, rep: string): string
    requires |pat| > 0
    decreases |s|
  {
    if |s| < |pat| then s
    else if s[..|pat|] == pat then rep + ReplaceAll(s[|pat|..], pat, rep)
    else [s[0]] + ReplaceAll(s[1..], pat, rep)
  }

  lemma {:induction false} ReplaceUpTo(s: string, pat: string, rep: string, i: nat)
    requires |pat| > 0 && i <= |s|
    requires forall j :: 0 <= j < i ==> !Occurs(s, pat, j)
    ensures ReplaceAll(s, pat, rep) == s[..i] + ReplaceAll(s[i..], pat, rep)
    decreases i
  {
    if i == 0 {
      assert s[..0] == "" && s[0..] == s;
    } else if |s| < |pat| {
      ReplaceShort(s, pat, rep);
      ReplaceShort(s[i..], pat, rep);
      assert s == s[..i] + s[i..];
    } else {
      ReplaceStep(s, pat, rep);
      ShiftFree(s, pat, i);
      ReplaceUpTo(s[1..], pat, rep, i - 1);
      assert s[1..][i - 1..] == s[i..];
      assert s[..i] == [s[0]] + s[1..][..i - 1];
    }
  }

  /** Without the pattern at the front, the first character is kept as it is. */
  lemma ReplaceStep(s: string, pat: string, rep: string)
    requires |pat| > 0 && |s| >= |pat| && !Occurs(s, pat, 0)
    ensures ReplaceAll(s, pat, rep) == [s[0]] + ReplaceAll(s[1..], pat, rep)
  {
  }

  /** No occurrence before `i` in `s` means none before `i - 1` in its tail. */
  lemma ShiftFree(s: string, pat: string, i: nat)
    requires |s| > 0 && 0 < i && forall j :: 0 <= j < i ==> !Occurs(s, pat, j)
    ensures forall j :: 0 <= j < i - 1 ==> !Occurs(s[1..], pat, j)
  {
    forall j | 0 <= j < i - 1 ensures !Occurs(s[1..], pat, j) { OccursShift(s, pat, j + 1); }
  }

  lemma ReplaceShort(s: string, pat: string, rep: string)
    requires |pat| > 0 && |s| < |pat|
    ensures ReplaceAll(s, pat, rep) == s
  {
  }

  /** A global replace equals splitting on the pattern and joining with the replacement. */
  lemma {:induction false} ReplaceAllIsSplitJoin(s: string, pat: string, rep: string)
    requires |pat| > 0
    ensures ReplaceAll(s, pat, rep) == Join(Split(s, pat), rep)
    decreases |s|
  {
    match IndexOf(s, pat)
    case None =>
      ReplaceUpTo(s, pat, rep, |s|);
      assert s[|s|..] == "";
      assert s[..|s|] == s;
    case Some(i) =>
      ReplaceUpTo(s, pat, rep, i);
      var rest := s[i + |pat|..];
      assert s[i..][..|pat|] == pat;
      assert s[i..][|pat|..] == rest;
      assert ReplaceAll(s[i..], pat, rep) == rep + ReplaceAll(rest, pat, rep);
      ReplaceAllIsSplitJoin(rest, pat, rep);
      SplitAt(s, pat, i);
      JoinCons(s[..i], Split(rest, pat), rep);
  }

  /** Splitting at the first occurrence: the piece before it, then the split of what follows. */
  lemma SplitAt(s: string, d: string, i: nat)
    requires |d| > 0 && IndexOf(s, d) == Some(i)
    ensures Split(s, d) == [s[..i]] + Split(s[i + |d|..], d)
  {
    var r := IndexOf(s, d);
    assert r.Some? && r.value == i;
  }

  /** Joining a piece in front of at least one more adds the piece and a separator. */
  lemma JoinCons(a: string, rest: seq<string>, sep: string)
    requires |rest| >= 1
    ensures Join([a] + rest, sep) == a + sep + Join(rest, sep)
  {
    assert ([a] + rest)[1..] == rest;
  }

  /** Text that does not contain the pattern comes out of a global replace unchanged. */
  lemma ReplaceAbsent(s: string, pat: string, rep: string)
    requires |pat| > 0 && !Contains(s, pat)
    ensures ReplaceAll(s, pat, rep) == s
  {
    ReplaceUpTo(s, pat, rep, |s|);
    assert s[|s|..] == "";
    assert s[..|s|] == s;
  }

  function TrimStart(s: string): (r: string)
    ensures |r| <= |s| && r == s[|s| - |r|..]
  {
    if |s| > 0 && IsSpace(s[0]) then TrimStart(s[1..]) else s
  }

  /** What `TrimStart` drops is white space, and what it keeps does not start with any. */
  lemma {:induction false} TrimStartSpaces(s: string)
    ensures forall i :: 0 <= i < |s| - |TrimStart(s)| ==> IsSpace(s[i])
    ensures TrimStart(s) != "" ==> !IsSpace(TrimStart(s)[0])
    decreases |s|
  {
    if |s| > 0 && IsSpace(s[0]) {
      TrimStartSpaces(s[1..]);
      assert forall i :: 1 <= i < |s| ==> s[i] == s[1..][i - 1];
    }
  }

  function TrimEnd(s: string): (r: string)
    ensures |r| <= |s| && r == s[..|r|]
  {
    if |s| > 0 && IsSpace(s[|s| - 1]) then TrimEnd(s[..|s| - 1]) else s
  }

  /** What `TrimEnd` drops is white space, and what it keeps does not end with any. */
  lemma {:induction false} TrimEndSpaces(s: string)
    ensures forall i :: |TrimEnd(s)| <= i < |s| ==> IsSpace(s[i])
    ensures TrimEnd(s) != "" ==> !IsSpace(TrimEnd(s)[|TrimEnd(s)| - 1])
    decreases |s|
  {
    if |s| > 0 && IsSpace(s[|s| - 1]) {
      TrimEndSpaces(s[..|s| - 1]);
    }
  }

  /** `s.trim()`. */
  function Trim(s: string): string {
    TrimEnd(TrimStart(s))
  }

  /** Text that neither starts nor ends with white space is its own trim. */
  lemma TrimUnchanged(s: string)
    requires |s| > 0 && !IsSpace(s[0]) && !IsSpace(s[|s| - 1])
    ensures Trim(s) == s
  {
    assert TrimStart(s) == s;
    assert TrimEnd(s) == s;
  }

  lemma {:induction false} TrimStartAllSpace(s: string)
    requires forall i :: 0 <= i < |s| ==> IsSpace(s[i])
    ensures TrimStart(s) == ""
    decreases |s|
  {
    if |s| > 0 {
      assert IsSpace(s[0]);
      TrimStartAllSpace(s[1..]);
    }
  }

  /** A string trims to the empty string exactly when all of it is white space. */
  lemma TrimEmpty(s: string)
    ensures Trim(s) == "" <==> forall i :: 0 <= i < |s| ==> IsSpace(s[i])
  {
    if Trim(s) == "" {
      TrimEndSpaces(TrimStart(s));
      TrimStartSpaces(s);
      assert TrimStart(s) == "";
    }
    if forall i :: 0 <= i < |s| ==> IsSpace(s[i]) {
      TrimStartAllSpace(s);
    }
  }

  // ---------------------------------------------------------------- numbers and ordering

  function DigitChar(d: nat): (c: char)
    requires d < 10
    ensures IsDigit(c) && DigitValue(c) == d
  {
    ('0' as int + d) as char
  }

  /** The value of one decimal digit. */
  function DigitValue(c: char): int { c as int - '0' as int }

  /** The number a string of decimal digits spells, most significant digit first. */
  function DigitsValue(s: string): int {
    if |s| == 0 then 0 else 10 * DigitsValue(s[..|s| - 1]) + DigitValue(s[|s| - 1])
  }

  /** `String(n)` for a natural number: its decimal digits, without leading zeros. */
  function NatToString(n: nat): (r: string)
    ensures |r| >= 1
    ensures forall i :: 0 <= i < |r| ==> IsDigit(r[i])
    ensures r[0] == '0' ==> n == 0
    ensures DigitsValue(r) == n
    decreases n
  {
    if n < 10 then [DigitChar(n)]
    else
      var r := NatToString(n / 10) + [DigitChar(n % 10)];
      assert r[..|r| - 1] == NatToString(n / 10);
      r
  }

  /** Different numbers print differently. */
  lemma NatToStringInjective(a: nat, b: nat)
    ensures NatToString(a) == NatToString(b) <==> a == b
  {
  }

  /** The value of an optionally signed decimal numeral. */
  function SignedValue(s: string): int {
    if |s| > 0 && s[0] == '-' then -DigitsValue(s[1..]) else DigitsValue(s)
  }

  /** `String(i)` for an integer: a minus sign exactly for a negative one, and the digits of its magnitude. */
  function IntToString(i: int): (r: string)
    ensures |r| >= 1
    ensures i < 0 <==> r[0] == '-'
    ensures forall k :: 0 < k < |r| ==> IsDigit(r[k])
    ensures SignedValue(r) == i
  {
    if i < 0 then
      var r := "-" + NatToString(-i);
      assert r[1..] == NatToString(-i);
      r
    else NatToString(i)
  }

  /** Different integers print differently. */
  lemma IntToStringInjective(a: int, b: int)
    ensures IntToString(a) == IntToString(b) <==> a == b
  {
  }

  /** `a < b` on strings: lexicographic order of the characters, a proper prefix first. */
  predicate LexLess(a: string, b: string)
    decreases |a|
  {
    if |a| == 0 then |b| > 0
    else if |b| == 0 then false
    else if a[0] != b[0] then a[0] < b[0]
    else LexLess(a[1..], b[1..])
  }

  /** `a >= b` on strings. */
  predicate LexGe(a: string, b: string) { !LexLess(a, b) }
}
