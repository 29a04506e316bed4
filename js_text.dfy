/** The JavaScript string operations the application relies on, with their
    ECMAScript meaning: the `\s` class and `trim`, `split` on a character
    class, `join`, `indexOf`, case-insensitive search as a regular
    expression with the `i` flag performs it, and the decimal text of an
    integral number. A string is a sequence of characters; a JavaScript
    string is a sequence of UTF-16 code units, and the two agree on every
    character outside the supplementary planes. */
module JsText {
  import opened Wrappers

  /** WhiteSpace and LineTerminator as ECMAScript defines them: the class
      `\s` matches and the characters `trim` removes. */
  predicate IsJsSpace(c: char) {
    c == '\t' || c == '\n' || c == '\U{000B}' || c == '\U{000C}' || c == '\r' || c == ' '
    || c == '\U{00A0}' || c == '\U{1680}' || ('\U{2000}' <= c <= '\U{200A}')
    || c == '\U{2028}' || c == '\U{2029}' || c == '\U{202F}' || c == '\U{205F}'
    || c == '\U{3000}' || c == '\U{FEFF}'
  }

  /** The characters `.` does not match (without the `s` flag). */
  predicate IsLineTerminator(c: char) {
    c == '\n' || c == '\r' || c == '\U{2028}' || c == '\U{2029}'
  }

  /** The class `\d`: ASCII digits only. */
  predicate IsAsciiDigit(c: char) {
    '0' <= c <= '9'
  }

  /** Case folding under the `i` flag of a non-Unicode regular expression:
      no character outside ASCII folds onto an ASCII letter, so folding is
      exactly ASCII lower-casing. */
  function LowerAscii(c: char): (r: char)
    ensures 'A' <= c <= 'Z' ==> 'a' <= r <= 'z' && r as int - c as int == 32
    ensures !('A' <= c <= 'Z') ==> r == c
  {
    if 'A' <= c <= 'Z' then (c as int + 32) as char else c
  }

  ghost predicate AllSpace(s: string) {
    forall i :: 0 <= i < |s| ==> IsJsSpace(s[i])
  }

  /** Neither end of `s` is whitespace. */
  predicate IsTrimmed(s: string) {
    |s| == 0 || (!IsJsSpace(s[0]) && !IsJsSpace(s[|s| - 1]))
  }

  /** Removes the maximal whitespace prefix. */
  function TrimStart(s: string): (r: string)
    ensures |r| <= |s| && r == s[|s| - |r|..]
    ensures |r| > 0 ==> !IsJsSpace(r[0])
    ensures forall i :: 0 <= i < |s| - |r| ==> IsJsSpace(s[i])
  {
    if |s| > 0 && IsJsSpace(s[0]) then TrimStart(s[1..]) else s
  }

  /** Removes the maximal whitespace suffix. */
  function TrimEnd(s: string): (r: string)
    ensures |r| <= |s| && r == s[..|r|]
    ensures |r| > 0 ==> !IsJsSpace(r[|r| - 1])
    ensures forall i :: |r| <= i < |s| ==> IsJsSpace(s[i])
  {
    if |s| > 0 && IsJsSpace(s[|s| - 1]) then TrimEnd(s[..|s| - 1]) else s
  }

  /** `String.prototype.trim`: the middle of `s` between its leading and
      its trailing whitespace. */
  function Trim(s: string): (r: string)
    ensures IsTrimmed(r)
    ensures r == "" <==> AllSpace(s)
    ensures IsTrimmed(s) ==> r == s
  {
    var t := TrimStart(s);
    assert IsTrimmed(s) && |s| > 0 ==> |t| == |s| && |TrimEnd(t)| == |t|;
    TrimEnd(t)
  }

  /** `r` is the slice of `s` that starts at `p` and has only whitespace
      before and after it. */
  ghost predicate IsMiddle(s: string, r: string, p: nat) {
    p + |r| <= |s| && r == s[p..p + |r|] && AllSpace(s[..p]) && AllSpace(s[p + |r|..])
  }

  /** `trim` keeps the middle of `s`: a slice with only whitespace before
      and after it, starting where `trimStart` starts. */
  lemma TrimMiddle(s: string)
    ensures IsMiddle(s, Trim(s), |s| - |TrimStart(s)|)
  {
    TrimStartEnd(s, TrimStart(s), Trim(s), |s| - |TrimStart(s)|);
  }

  lemma TrimStartEnd(s: string, t: string, r: string, p: nat)
    requires t == TrimStart(s) && r == TrimEnd(t) && p == |s| - |t|
    ensures IsMiddle(s, r, p)
  {
    TrimStartFront(s, t, p);
    TrimEndBack(t, r);
    SliceOfSlice(s, t, r, p);
  }

  lemma TrimStartFront(s: string, t: string, p: nat)
    requires t == TrimStart(s) && p == |s| - |t|
    ensures t == s[p..] && AllSpace(s[..p])
  {
    var front := s[..p];
    forall i | 0 <= i < |front| ensures IsJsSpace(front[i]) {
      assert front[i] == s[i];
    }
  }

  lemma TrimEndBack(t: string, r: string)
    requires r == TrimEnd(t)
    ensures r == t[..|r|] && AllSpace(t[|r|..])
  {
    var back := t[|r|..];
    forall i | 0 <= i < |back| ensures IsJsSpace(back[i]) {
      assert back[i] == t[|r| + i];
    }
  }

  /** A prefix `r` of the suffix `t` of `s` that starts at `p`. */
  lemma SliceOfSlice(s: string, t: string, r: string, p: nat)
    requires p <= |s| && t == s[p..] && |r| <= |t| && r == t[..|r|] && AllSpace(t[|r|..])
    ensures p + |r| <= |s| && r == s[p..p + |r|] && AllSpace(s[p + |r|..])
  {
    assert s[p + |r|..] == t[|r|..];
  }

  /** Whitespace around a trimmed, non-empty text is what `trim` removes. */
  lemma {:induction false} TrimPadded(a: string, x: string, b: string)
    requires AllSpace(a) && AllSpace(b) && IsTrimmed(x) && x != ""
    ensures Trim(a + x + b) == x
  {
    var t := x + b;
    assert a + x + b == a + t;
    TrimStartPadded(a, t);
    TrimEndPadded(x, b);
    assert Trim(a + x + b) == TrimEnd(TrimStart(a + t));
  }

  lemma {:induction false} TrimStartPadded(a: string, t: string)
    requires AllSpace(a) && |t| > 0 && !IsJsSpace(t[0])
    ensures TrimStart(a + t) == t
  {
    if |a| > 0 {
      assert (a + t)[1..] == a[1..] + t;
      TrimStartPadded(a[1..], t);
    } else {
      assert a + t == t;
    }
  }

  lemma {:induction false} TrimEndPadded(t: string, b: string)
    requires AllSpace(b) && |t| > 0 && !IsJsSpace(t[|t| - 1])
    ensures TrimEnd(t + b) == t
  {
    if |b| > 0 {
      assert (t + b)[..|t + b| - 1] == t + b[..|b| - 1];
      TrimEndPadded(t, b[..|b| - 1]);
    } else {
      assert t + b == t;
    }
  }

  /** Trimming adds no character. */
  lemma TrimAvoids(s: string, c: char)
    requires forall j :: 0 <= j < |s| ==> s[j] != c
    ensures c !in Trim(s)
  {
    var t := TrimStart(s);
    var r := Trim(s);
    assert r == TrimEnd(t);
    assert forall i :: 0 <= i < |r| ==> r[i] == t[i] == s[|s| - |t| + i];
  }

  /** No piece holds a separator character. */
  predicate NoSeparator(parts: seq<string>, isSep: char -> bool) {
    forall i, j :: 0 <= i < |parts| && 0 <= j < |parts[i]| ==> !isSep(parts[i][j])
  }

  /** `s.split(sep)` for a separator that is a single-character class: the
      pieces between separator characters, empty pieces included. */
  function Split(s: string, isSep: char -> bool): (parts: seq<string>)
    ensures |parts| >= 1
    ensures NoSeparator(parts, isSep)
  {
    if |s| == 0 then [""]
    else
      var rest := Split(s[1..], isSep);
      if isSep(s[0]) then [""] + rest else [[s[0]] + rest[0]] + rest[1..]
  }

  /** `parts.join(sep)`. */
  function Join(parts: seq<string>, sep: string): string {
    if |parts| == 0 then ""
    else if |parts| == 1 then parts[0]
    else parts[0] + sep + Join(parts[1..], sep)
  }

  predicate IsSpaceChar(c: char) { c == ' ' }
  predicate IsNewline(c: char) { c == '\n' }
  predicate IsCommaOrNewline(c: char) { c == ',' || c == '\n' }

  /** Splitting at a separator character splits both sides independently. */
  lemma {:induction false} SplitAround(a: string, c: char, b: string, isSep: char -> bool)
    requires isSep(c)
    ensures Split(a + [c] + b, isSep) == Split(a, isSep) + Split(b, isSep)
  {
    var s := a + [c] + b;
    if |a| == 0 {
      assert s[1..] == b;
      SplitStep(s, isSep);
    } else {
      var x, y := Split(a[1..], isSep), Split(b, isSep);
      assert Split(s[1..], isSep) == x + y by {
        assert s[1..] == a[1..] + [c] + b;
        SplitAround(a[1..], c, b, isSep);
      }
      SplitStep(s, isSep);
      SplitStep(a, isSep);
      StepAppend(a[0], x, y, isSep);
    }
  }

  /** How `Split` extends the pieces of the rest of the string by one
      leading character. */
  function Step(ch: char, rest: seq<string>, isSep: char -> bool): seq<string>
    requires |rest| >= 1
  {
    if isSep(ch) then [""] + rest else [[ch] + rest[0]] + rest[1..]
  }

  lemma SplitStep(s: string, isSep: char -> bool)
    requires |s| > 0
    ensures Split(s, isSep) == Step(s[0], Split(s[1..], isSep), isSep)
  {
  }

  lemma StepAppend(ch: char, x: seq<string>, y: seq<string>, isSep: char -> bool)
    requires |x| >= 1
    ensures Step(ch, x + y, isSep) == Step(ch, x, isSep) + y
  {
    assert (x + y)[1..] == x[1..] + y;
  }

  /** A string without separators is one piece. */
  lemma {:induction false} SplitWithoutSeparator(s: string, isSep: char -> bool)
    requires forall i :: 0 <= i < |s| ==> !isSep(s[i])
    ensures Split(s, isSep) == [s]
  {
    if |s| > 0 {
      SplitWithoutSeparator(s[1..], isSep);
      assert [s[0]] + s[1..] == s;
    }
  }

  /** Splitting the pieces joined with a separator character gives the
      pieces back, when none of them holds a separator. */
  lemma {:induction false} SplitJoin(parts: seq<string>, c: char, isSep: char -> bool)
    requires isSep(c) && |parts| > 0 && NoSeparator(parts, isSep)
    ensures Split(Join(parts, [c]), isSep) == parts
  {
    SplitWithoutSeparator(parts[0], isSep);
    if |parts| > 1 {
      assert forall i, j :: 0 <= i < |parts[1..]| && 0 <= j < |parts[1..][i]| ==> parts[1..][i][j] == parts[i + 1][j];
      SplitJoin(parts[1..], c, isSep);
      SplitAround(parts[0], c, Join(parts[1..], [c]), isSep);
      assert [parts[0]] + parts[1..] == parts;
    }
  }

  /** Joining the pieces with the one separator character gives the string back. */
  lemma {:induction false} JoinSplit(s: string, isSep: char -> bool, c: char)
    requires forall x :: isSep(x) <==> x == c
    ensures Join(Split(s, isSep), [c]) == s
  {
    if |s| > 0 {
      var rest := Split(s[1..], isSep);
      JoinSplit(s[1..], isSep, c);
      if isSep(s[0]) {
        assert Split(s, isSep) == [""] + rest;
        assert ([""] + rest)[1..] == rest;
        assert s == [c] + s[1..];
      } else if |rest| == 1 {
        assert Split(s, isSep) == [[s[0]] + rest[0]];
        assert s == [s[0]] + s[1..];
      } else {
        var parts := [[s[0]] + rest[0]] + rest[1..];
        assert Split(s, isSep) == parts;
        assert parts[1..] == rest[1..];
        assert Join(rest, [c]) == rest[0] + [c] + Join(rest[1..], [c]);
        assert s == [s[0]] + s[1..];
      }
    }
  }

  /** The index of the last occurrence of `c` in `s`. */
  function LastIndexOf(s: string, c: char): (r: Option<nat>)
    ensures r.Some? ==> r.value < |s| && s[r.value] == c
                        && forall i :: r.value < i < |s| ==> s[i] != c
    ensures r.None? ==> forall i :: 0 <= i < |s| ==> s[i] != c
  {
    if |s| == 0 then None
    else if s[|s| - 1] == c then Some(|s| - 1)
    else LastIndexOf(s[..|s| - 1], c)
  }

  /** `pat` occurs in `s` at index `i`. */
  predicate MatchesAt(s: string, i: nat, pat: string) {
    i + |pat| <= |s| && s[i..i + |pat|] == pat
  }

  /** `word` occurs in `s` at index `i`, letters compared as the `i` flag does. */
  predicate MatchesAtCI(s: string, i: nat, word: string) {
    i + |word| <= |s| && forall j :: 0 <= j < |word| ==> LowerAscii(s[i + j]) == LowerAscii(word[j])
  }

  /** `s.indexOf(pat, from)`, as an option. */
  function Find(s: string, pat: string, from: nat): (r: Option<nat>)
    ensures r.Some? ==> from <= r.value && MatchesAt(s, r.value, pat)
                        && forall j: nat :: from <= j < r.value ==> !MatchesAt(s, j, pat)
    ensures r.None? ==> forall j: nat :: from <= j ==> !MatchesAt(s, j, pat)
    decreases |s| - from
  {
    if from + |pat| > |s| then None
    else if MatchesAt(s, from, pat) then Some(from)
    else Find(s, pat, from + 1)
  }

  /** The first index at or after `from` where `word` matches case-insensitively. */
  function FindCI(s: string, word: string, from: nat): (r: Option<nat>)
    ensures r.Some? ==> from <= r.value && MatchesAtCI(s, r.value, word)
                        && forall j: nat :: from <= j < r.value ==> !MatchesAtCI(s, j, word)
    ensures r.None? ==> forall j: nat :: from <= j ==> !MatchesAtCI(s, j, word)
    decreases |s| - from
  {
    if from + |word| > |s| then None
    else if MatchesAtCI(s, from, word) then Some(from)
    else FindCI(s, word, from + 1)
  }

  /** `/word/i.test(s)`. */
  predicate ContainsCI(s: string, word: string) {
    FindCI(s, word, 0).Some?
  }

  /** `/w1|w2|.../i.test(s)`. */
  predicate ContainsAnyCI(s: string, words: seq<string>) {
    exists k :: 0 <= k < |words| && ContainsCI(s, words[k])
  }

  predicate AllDigits(s: string) {
    forall i :: 0 <= i < |s| ==> IsAsciiDigit(s[i])
  }

  function DigitChar(d: nat): (c: char)
    requires d < 10
    ensures IsAsciiDigit(c) && c as int - '0' as int == d
  {
    ('0' as int + d) as char
  }

  /** The value of a string of decimal digits. */
  function DigitsValue(s: string): nat
    requires AllDigits(s)
  {
    if |s| == 0 then 0 else DigitsValue(s[..|s| - 1]) * 10 + (s[|s| - 1] as int - '0' as int)
  }

  /** The decimal text JavaScript gives a non-negative integral number below 10^21. */
  function NatToString(n: nat): (r: string)
    ensures |r| > 0 && AllDigits(r)
    ensures r[0] == '0' ==> n == 0 && r == "0"
  {
    if n < 10 then [DigitChar(n)] else NatToString(n / 10) + [DigitChar(n % 10)]
  }

  /** Reading the digits back gives the number: the text is exact. */
  lemma {:induction false} NatToStringRoundTrip(n: nat)
    ensures DigitsValue(NatToString(n)) == n
  {
    if n >= 10 {
      NatToStringRoundTrip(n / 10);
      var s := NatToString(n);
      assert s[..|s| - 1] == NatToString(n / 10);
    }
  }

  /** The decimal text JavaScript gives an integral number of magnitude below 10^21. */
  function IntToString(i: int): (r: string)
    ensures |r| > 0
    ensures r[0] == '-' <==> i < 0
    ensures i >= 0 ==> r == NatToString(i)
    ensures i < 0 ==> r == "-" + NatToString(-i)
  {
    if i < 0 then "-" + NatToString(-i) else NatToString(i)
  }

  /** Distinct integers have distinct texts. */
  lemma IntToStringInjective(i: int, j: int)
    requires IntToString(i) == IntToString(j)
    ensures i == j
  {
    if i < 0 {
      assert IntToString(i)[1..] == NatToString(-i);
      assert IntToString(j)[1..] == NatToString(-j);
      NatToStringRoundTrip(-i);
      NatToStringRoundTrip(-j);
    } else {
      NatToStringRoundTrip(i);
      NatToStringRoundTrip(j);
    }
  }
}
