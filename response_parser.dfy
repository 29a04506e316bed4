/** `parseAIResponse` (utils/ai-service.ts): turns a provider's reply into a
    `ProcessedData` record. Each regular expression is modelled by the
    match it finds under ECMAScript's backtracking semantics. */
module ResponseParser {
  import opened Wrappers
  import opened JsText
  import opened ClipTypes

  // ---------------------------------------------------------------------
  // The JSON attempt

  /** The properties the JSON branch reads from the parsed object, each
      present when the key holds a value of the expected kind (a string, or
      an array of strings). */
  datatype JsonObject = JsonObject(
    topic: Option<string>,
    mainTopic: Option<string>,
    intent: Option<string>,
    primaryIntent: Option<string>,
    entities: Option<seq<string>>,
    categories: Option<seq<string>>,
    actionItems: Option<seq<string>>)

  /** JavaScript's `a || b` on an optional string: the empty string is falsy. */
  function OrElse(a: Option<string>, b: string): (r: string)
    ensures a.Some? && a.value != "" ==> r == a.value
    ensures (a.None? || a.value == "") ==> r == b
  {
    if a.Some? && a.value != "" then a.value else b
  }

  /** The record the JSON branch would return for a parsed object. */
  function FromJson(j: JsonObject): ProcessedData {
    ProcessedData(
      OrElse(j.topic, OrElse(j.mainTopic, "Unknown topic")),
      j.entities.GetOr([]),
      OrElse(j.intent, OrElse(j.primaryIntent, "note")),
      j.categories.GetOr([]),
      j.actionItems.GetOr([]))
  }

  /** The last index at or after `from` where `pat` occurs. */
  function FindLast(s: string, pat: string, from: nat): (r: Option<nat>)
    ensures r.Some? ==> from <= r.value && MatchesAt(s, r.value, pat)
    decreases |s| - from
  {
    if from + |pat| > |s| then None
    else
      var later := FindLast(s, pat, from + 1);
      if later.Some? then later else if MatchesAt(s, from, pat) then Some(from) else None
  }

  /** `content.match(/\\{.*?\\}/s) || content.match(/\\{.*\\}/s)`. In these
      patterns `\\` is a backslash and a `{` or `}` that opens no
      quantifier is literal, so the first looks for the first `\{` and the
      nearest `\}` after it. The second (greedy) pattern is tried only when
      the first fails, and then it fails too (GreedyAlternativeFails), so
      its result is the first pattern's. */
  function JsonCandidate(s: string): (r: Option<string>)
    ensures r.Some? ==> |r.value| >= 4 && r.value[0] == '\\'
  {
    match Find(s, "\\{", 0)
    case None => None
    case Some(i) =>
      match Find(s, "\\}", i + 2)
      case Some(j) =>
        assert s[i] == s[i..i + 2][0] == '\\';
        Some(s[i..j + 2])
      case None => None
  }

  /** The greedy pattern `/\\{.*\\}/s` needs a `\}` after a `\{` just as
      the lazy one does: where the lazy one fails, so does it. */
  lemma GreedyAlternativeFails(s: string, i: nat)
    requires Find(s, "\\}", i + 2).None?
    ensures FindLast(s, "\\}", i + 2).None?
  {
  }

  /** A stand-in for `JSON.parse` that, as RFC 8259 section 2 requires,
      rejects a text whose first character cannot begin a JSON text (a
      JSON text is optional space, tab, line feed or carriage return,
      then a value starting with one of `{ [ " - t f n` or a digit). */
  ghost predicate RejectsBackslashStart(jsonParse: string -> Option<JsonObject>) {
    forall t :: |t| > 0 && t[0] == '\\' ==> jsonParse(t).None?
  }

  // ---------------------------------------------------------------------
  // Pieces of the labelled patterns

  /** Where the line starting at `i` ends: the first line terminator at or
      after `i`, or the end. This is how far a greedy `.*` reaches. */
  function LineEnd(s: string, i: nat): (e: nat)
    requires i <= |s|
    ensures i <= e <= |s| && (e == |s| || IsLineTerminator(s[e]))
    ensures forall j :: i <= j < e ==> !IsLineTerminator(s[j])
    decreases |s| - i
  {
    if i == |s| || IsLineTerminator(s[i]) then i else LineEnd(s, i + 1)
  }

  /** How far a greedy `\s*` starting at `i` reaches. */
  function SpaceEnd(s: string, i: nat): (e: nat)
    requires i <= |s|
    ensures i <= e <= |s| && (e == |s| || !IsJsSpace(s[e]))
    ensures forall j :: i <= j < e ==> IsJsSpace(s[j])
    decreases |s| - i
  {
    if i == |s| || !IsJsSpace(s[i]) then i else SpaceEnd(s, i + 1)
  }

  /** The end of the capture of `(.*(?:\n.*)*?)` followed by `(?:\n\n|\n\d|$)`
      (or by `(?:\n\n|$)` when `digitStops` is false), given that its first
      line ends at `e`. The lazy loop adds one `\n`-line at a time until the
      stop follows; `None` when a line ends in a terminator other than `\n`
      before any stop, where no amount of backtracking in the loop helps. */
  function BlockEnd(s: string, e: nat, digitStops: bool): (r: Option<nat>)
    requires e <= |s|
    ensures r.Some? ==> e <= r.value <= |s| && StopAt(s, r.value, digitStops)
                        && NoStopBefore(s, e, r.value, digitStops)
    ensures OnlyLineFeeds(s) && (e == |s| || IsLineTerminator(s[e])) ==> r.Some?
    decreases |s| - e
  {
    if e == |s| then Some(e)
    else if s[e] != '\n' then None
    else if e + 1 < |s| && (s[e + 1] == '\n' || (digitStops && IsAsciiDigit(s[e + 1]))) then Some(e)
    else
      var r := BlockEnd(s, LineEnd(s, e + 1), digitStops);
      LineFeedsSkipped(s, e, LineEnd(s, e + 1), r, digitStops);
      r
  }

  /** The stop `(?:\n\n|\n\d|$)` (without `\n\d` when `digitStops` is false)
      matches at `e`. */
  predicate StopAt(s: string, e: nat, digitStops: bool)
    requires e <= |s|
  {
    e == |s| || (s[e] == '\n' && e + 1 < |s| && (s[e + 1] == '\n' || (digitStops && IsAsciiDigit(s[e + 1]))))
  }

  /** No line feed from `e` up to `r` is followed by a stop: the lazy loop
      takes the first stop it reaches. */
  predicate NoStopBefore(s: string, e: nat, r: nat, digitStops: bool)
    requires e <= r <= |s|
  {
    forall j :: e <= j < r && s[j] == '\n' ==> !StopAt(s, j, digitStops)
  }

  /** The only line terminator in the text is the line feed. */
  predicate OnlyLineFeeds(s: string) {
    forall j :: 0 <= j < |s| && IsLineTerminator(s[j]) ==> s[j] == '\n'
  }

  /** A line feed that is no stop, and the rest of the line after it, add
      no stop to the block. */
  lemma LineFeedsSkipped(s: string, e: nat, e': nat, r: Option<nat>, digitStops: bool)
    requires e < e' <= |s| && s[e] == '\n' && !StopAt(s, e, digitStops)
    requires forall j :: e < j < e' ==> !IsLineTerminator(s[j])
    requires r.Some? ==> e' <= r.value <= |s| && NoStopBefore(s, e', r.value, digitStops)
    ensures r.Some? ==> NoStopBefore(s, e, r.value, digitStops)
  {
  }

  /** `b` is the block whose first line starts at `k`: the text from `k`
      to the first stop after the end of that line. */
  predicate BlockFrom(s: string, k: nat, digitStops: bool, b: string)
    requires k <= |s|
  {
    exists e :: LineEnd(s, k) <= e <= |s| && StopAt(s, e, digitStops)
                && NoStopBefore(s, LineEnd(s, k), e, digitStops) && b == s[k..e]
  }

  /** Where the value after a label found at `i` starts: past the label,
      an optional `:` and the whole whitespace run after them. */
  function AfterLabel(s: string, i: nat, word: string): (k: nat)
    requires MatchesAtCI(s, i, word)
    ensures i + |word| <= k <= |s| && (k == |s| || !IsJsSpace(s[k]))
    ensures forall j :: i + |word| < j < k ==> IsJsSpace(s[j])
    ensures i + |word| < k ==> s[i + |word|] == ':' || IsJsSpace(s[i + |word|])
  {
    var p := i + |word|;
    SpaceEnd(s, if p < |s| && s[p] == ':' then p + 1 else p)
  }

  /** `b` is the block the labelled pattern captures at the first
      occurrence of `word`. */
  predicate Captures(s: string, word: string, digitStops: bool, b: string) {
    match FindCI(s, word, 0)
    case None => false
    case Some(i) => BlockFrom(s, AfterLabel(s, i, word), digitStops, b)
  }

  /** `\s*` backing off: the capture for the longest whitespace run from `q`
      that is at most `k` long and lets the block reach a stop. */
  function BackOff(s: string, q: nat, k: nat, digitStops: bool): (r: Option<string>)
    requires q <= k <= |s|
    ensures OnlyLineFeeds(s) ==> r.Some? && BlockFrom(s, k, digitStops, r.value)
    decreases k - q
  {
    match BlockEnd(s, LineEnd(s, k), digitStops)
    case Some(e) => Some(s[k..e])
    case None => if k == q then None else BackOff(s, q, k - 1, digitStops)
  }

  /** The capture of `word:?\s*(.*(?:\n.*)*?)(stop)` at a match of `word` at
      `i`: first with the `:` taken (when there is one), then without. */
  function BlockAt(s: string, i: nat, word: string, digitStops: bool): (r: Option<string>)
    requires MatchesAtCI(s, i, word)
    ensures OnlyLineFeeds(s) ==> r.Some? && BlockFrom(s, AfterLabel(s, i, word), digitStops, r.value)
  {
    var p := i + |word|;
    var k := AfterLabel(s, i, word);
    if p < |s| && s[p] == ':' then
      var withColon := BackOff(s, p + 1, k, digitStops);
      if withColon.Some? then withColon else BackOff(s, p, SpaceEnd(s, p), digitStops)
    else
      BackOff(s, p, k, digitStops)
  }

  /** `s.match(/word:?\s*(.*(?:\n.*)*?)(stop)/i)`: the capture at the first
      occurrence of `word`, at or after `from`, where the pattern matches. */
  function LabelBlockFrom(s: string, word: string, digitStops: bool, from: nat): (r: Option<string>)
    requires |word| > 0
    ensures OnlyLineFeeds(s) ==> (r.Some? <==> FindCI(s, word, from).Some?)
    ensures OnlyLineFeeds(s) && FindCI(s, word, from).Some? ==>
              BlockFrom(s, AfterLabel(s, FindCI(s, word, from).value, word), digitStops, r.value)
    decreases |s| - from
  {
    match FindCI(s, word, from)
    case None => None
    case Some(i) =>
      var b := BlockAt(s, i, word, digitStops);
      if b.Some? then b else LabelBlockFrom(s, word, digitStops, i + 1)
  }

  /** The first match of the labelled block pattern; there is one only
      where the label occurs, and when the line feed is the only line
      terminator there is one wherever it occurs, capturing the block at
      its first occurrence. */
  function LabelBlock(s: string, word: string, digitStops: bool): (r: Option<string>)
    requires |word| > 0
    ensures r.Some? ==> ContainsCI(s, word)
    ensures OnlyLineFeeds(s) ==> (r.Some? <==> ContainsCI(s, word))
    ensures OnlyLineFeeds(s) && r.Some? ==> Captures(s, word, digitStops, r.value)
  {
    LabelBlockAbsent(s, word, digitStops, 0);
    LabelBlockFrom(s, word, digitStops, 0)
  }

  /** `s.match(/word:?\s*(.*)/i)`: every part after `word` may be empty, so
      the first occurrence matches with `:` taken, the whole whitespace
      run (line breaks included) and the rest of that line. */
  function LabelLine(s: string, word: string): (r: Option<string>)
    ensures r.Some? <==> ContainsCI(s, word)
    ensures r.Some? ==> forall j :: 0 <= j < |r.value| ==> !IsLineTerminator(r.value[j])
    ensures r.Some? && r.value != "" ==> !IsJsSpace(r.value[0])
    ensures r.Some? ==> var k := AfterLabel(s, FindCI(s, word, 0).value, word);
                        r.value == s[k..LineEnd(s, k)]
  {
    match FindCI(s, word, 0)
    case None => None
    case Some(i) =>
      var k := AfterLabel(s, i, word);
      Some(s[k..LineEnd(s, k)])
  }

  /** `a || b` on two match results. */
  function FirstOf(a: Option<string>, b: Option<string>): Option<string> {
    if a.Some? then a else b
  }

  // ---------------------------------------------------------------------
  // Lists

  /** `xs.filter(Boolean)` on strings. */
  function DropEmpty(xs: seq<string>): (r: seq<string>)
    ensures |r| <= |xs|
    ensures forall x :: x in r <==> x in xs && x != ""
    ensures (forall i :: 0 <= i < |xs| ==> xs[i] != "") ==> r == xs
  {
    if |xs| == 0 then []
    else if xs[0] == "" then DropEmpty(xs[1..])
    else [xs[0]] + DropEmpty(xs[1..])
  }

  /** `filter` keeps the order: it works item by item, each item kept
      exactly when it is non-empty. */
  lemma {:induction false} DropEmptyAppend(a: seq<string>, b: seq<string>)
    ensures DropEmpty(a + b) == DropEmpty(a) + DropEmpty(b)
    ensures forall x :: DropEmpty([x]) == if x == "" then [] else [x]
  {
    if |a| > 0 {
      assert (a + b)[1..] == a[1..] + b;
      DropEmptyAppend(a[1..], b);
    } else {
      assert a + b == b;
    }
  }

  /** `xs.map(x => x.trim())`. */
  function TrimAll(xs: seq<string>): (r: seq<string>)
  {
    if |xs| == 0 then [] else [Trim(xs[0])] + TrimAll(xs[1..])
  }

  /** An item a list can hold: non-empty, trimmed, on one line. */
  predicate CleanItem(x: string) {
    x != "" && IsTrimmed(x) && '\n' !in x
  }

  /** Every item is clean. */
  predicate CleanItems(xs: seq<string>) {
    forall i :: 0 <= i < |xs| ==> CleanItem(xs[i])
  }

  /** No item holds a comma. */
  predicate CommaFree(xs: seq<string>) {
    forall i :: 0 <= i < |xs| ==> ',' !in xs[i]
  }

  /** `b.split(/[,\n]/).map(x => x.trim()).filter(Boolean)`: the entities or
      categories listed in a captured block. */
  function ListItems(b: string): (r: seq<string>)
    ensures CleanItems(r) && CommaFree(r)
  {
    var parts := Split(b, IsCommaOrNewline);
    TrimmedPartsAvoid(parts, ',');
    TrimmedPartsAvoid(parts, '\n');
    var r := DropEmpty(TrimAll(parts));
    assert forall i :: 0 <= i < |r| ==> r[i] in r;
    r
  }

  /** Trimmed parts are trimmed, and a character no part holds is in no
      trimmed part. */
  lemma {:induction false} TrimmedPartsAvoid(parts: seq<string>, c: char)
    requires forall i, j :: 0 <= i < |parts| && 0 <= j < |parts[i]| ==> parts[i][j] != c
    ensures forall x :: x in TrimAll(parts) ==> IsTrimmed(x) && c !in x
  {
    if |parts| > 0 {
      TrimAvoids(parts[0], c);
      TrimmedPartsAvoid(parts[1..], c);
    }
  }

  /** The non-empty trimmed piece a list keeps from a stretch of text. */
  function Kept(x: string): seq<string> {
    if Trim(x) == "" then [] else [Trim(x)]
  }

  /** Trimming and dropping empty strings work piece by piece. */
  lemma TrimDropAppend(a: seq<string>, b: seq<string>)
    ensures DropEmpty(TrimAll(a + b)) == DropEmpty(TrimAll(a)) + DropEmpty(TrimAll(b))
  {
    TrimAllAppend(a, b);
    DropEmptyAppend(TrimAll(a), TrimAll(b));
  }

  lemma {:induction false} TrimAllAppend(a: seq<string>, b: seq<string>)
    ensures TrimAll(a + b) == TrimAll(a) + TrimAll(b)
  {
    if |a| == 0 {
      assert a + b == b;
    } else {
      assert (a + b)[1..] == a[1..] + b;
      TrimAllAppend(a[1..], b);
    }
  }

  /** One piece is kept trimmed, or dropped when it is blank. */
  lemma TrimDropOne(x: string)
    ensures DropEmpty(TrimAll([x])) == Kept(x)
  {
    assert TrimAll([x]) == [Trim(x)];
    DropEmptyAppend([], []);
  }

  /** A comma or a line feed ends one item and starts the next. */
  lemma ListItemsSplit(a: string, c: char, b: string)
    requires c == ',' || c == '\n'
    ensures ListItems(a + [c] + b) == ListItems(a) + ListItems(b)
  {
    SplitAround(a, c, b, IsCommaOrNewline);
    TrimDropAppend(Split(a, IsCommaOrNewline), Split(b, IsCommaOrNewline));
  }

  /** Text without a comma or a line feed is one item, trimmed, and none
      when it is blank. */
  lemma ListItemsPiece(x: string)
    requires ',' !in x && '\n' !in x
    ensures ListItems(x) == Kept(x)
  {
    SplitWithoutSeparator(x, IsCommaOrNewline);
    TrimDropOne(x);
  }

  /** Reading back items written as `xs.join(', ')` gives `xs`, for items
      that are clean and hold no comma. */
  lemma ListItemsRoundTrip(xs: seq<string>)
    requires CleanItems(xs) && CommaFree(xs)
    ensures ListItems(Join(xs, ", ")) == xs
  {
    if |xs| == 0 {
      ListItemsPiece("");
    } else {
      ListItemsPadded("", xs);
      assert "" + Join(xs, ", ") == Join(xs, ", ");
    }
  }

  lemma {:induction false} ListItemsPadded(pad: string, xs: seq<string>)
    requires AllSpace(pad) && ',' !in pad && '\n' !in pad && |xs| > 0
    requires CleanItems(xs) && CommaFree(xs)
    ensures ListItems(pad + Join(xs, ", ")) == xs
    decreases |xs|
  {
    PaddedListItem(pad, xs[0]);
    if |xs| > 1 {
      CleanTail(xs);
      ListItemsPadded(" ", xs[1..]);
      JoinFirst(pad, xs, ", ");
      ListItemsSplit(pad + xs[0], ',', " " + Join(xs[1..], ", "));
      assert [xs[0]] + xs[1..] == xs;
    }
  }

  /** The items after the first are as clean as all of them. */
  lemma CleanTail(xs: seq<string>)
    requires |xs| > 0 && CleanItems(xs)
    ensures CleanItems(xs[1..])
    ensures CommaFree(xs) ==> CommaFree(xs[1..])
  {
    assert forall i :: 0 <= i < |xs| - 1 ==> xs[1..][i] == xs[i + 1];
  }

  /** Where the first separator of a join falls. */
  lemma JoinFirst(pad: string, xs: seq<string>, sep: string)
    requires |xs| > 1 && |sep| > 0
    ensures pad + Join(xs, sep) == (pad + xs[0]) + [sep[0]] + (sep[1..] + Join(xs[1..], sep))
  {
    assert sep == [sep[0]] + sep[1..];
  }

  /** A clean item without a comma, with whitespace before it, reads back
      as that one item. */
  lemma PaddedListItem(pad: string, x: string)
    requires AllSpace(pad) && ',' !in pad && '\n' !in pad
    requires CleanItem(x) && ',' !in x
    ensures ListItems(pad + x) == [x]
  {
    PaddedItem(pad, x);
    assert ',' !in pad + x;
    ListItemsPiece(pad + x);
  }

  /** A clean item with whitespace before it is the item once trimmed. */
  lemma PaddedItem(pad: string, x: string)
    requires AllSpace(pad) && '\n' !in pad && CleanItem(x)
    ensures Kept(pad + x) == [x] && '\n' !in pad + x
  {
    TrimPadded(pad, x, "");
    assert pad + x + "" == pad + x;
  }

  /** `a.replace(/^[-*•]/, '')`: one leading bullet removed. */
  function StripBullet(a: string): (r: string)
    ensures |a| > 0 && a[0] in "-*•" ==> r == a[1..]
    ensures (|a| == 0 || a[0] !in "-*•") ==> r == a
  {
    if |a| > 0 && (a[0] == '-' || a[0] == '*' || a[0] == '•') then a[1..] else a
  }

  /** `lines.map(a => a.replace(/^[-*•]/, ''))`. */
  function StripAll(lines: seq<string>): seq<string> {
    if |lines| == 0 then [] else [StripBullet(lines[0])] + StripAll(lines[1..])
  }

  /** Removing a bullet adds no line feed. */
  lemma {:induction false} StripAllAvoids(lines: seq<string>)
    requires NoSeparator(lines, IsNewline)
    ensures forall i, j :: 0 <= i < |StripAll(lines)| && 0 <= j < |StripAll(lines)[i]| ==> StripAll(lines)[i][j] != '\n'
  {
    if |lines| > 0 {
      var x, r := StripBullet(lines[0]), StripAll(lines[1..]);
      assert forall j :: 0 <= j < |x| ==> x[j] != '\n' by {
        assert forall j :: 0 <= j < |lines[0]| ==> !IsNewline(lines[0][j]);
      }
      assert NoSeparator(lines[1..], IsNewline) by {
        assert forall i :: 0 <= i < |lines[1..]| ==> lines[1..][i] == lines[i + 1];
      }
      StripAllAvoids(lines[1..]);
      assert StripAll(lines) == [x] + r;
    }
  }

  lemma {:induction false} StripAllAppend(a: seq<string>, b: seq<string>)
    ensures StripAll(a + b) == StripAll(a) + StripAll(b)
  {
    if |a| == 0 {
      assert a + b == b;
    } else {
      assert (a + b)[1..] == a[1..] + b;
      StripAllAppend(a[1..], b);
    }
  }

  /** `b.split(/\n/).map(a => a.replace(/^[-*•]/, '').trim()).filter(Boolean)`. */
  function ActionList(b: string): (r: seq<string>)
    ensures CleanItems(r)
  {
    var lines := Split(b, IsNewline);
    StripAllAvoids(lines);
    TrimmedPartsAvoid(StripAll(lines), '\n');
    var r := DropEmpty(TrimAll(StripAll(lines)));
    assert forall i :: 0 <= i < |r| ==> r[i] in r;
    r
  }

  /** A line feed ends one action item and starts the next. */
  lemma ActionListSplit(a: string, b: string)
    ensures ActionList(a + "\n" + b) == ActionList(a) + ActionList(b)
  {
    SplitAround(a, '\n', b, IsNewline);
    var la, lb := Split(a, IsNewline), Split(b, IsNewline);
    StripAllAppend(la, lb);
    TrimDropAppend(StripAll(la), StripAll(lb));
  }

  /** One line is one action item: its leading bullet removed, trimmed,
      and none when that leaves nothing. */
  lemma ActionListLine(x: string)
    requires '\n' !in x
    ensures ActionList(x) == Kept(StripBullet(x))
  {
    SplitWithoutSeparator(x, IsNewline);
    assert StripAll([x]) == [StripBullet(x)] + StripAll([]);
    TrimDropOne(StripBullet(x));
  }

  /** The items written as a bulleted list, one `- item` per line. */
  function Bulleted(xs: seq<string>): seq<string> {
    if |xs| == 0 then [] else ["- " + xs[0]] + Bulleted(xs[1..])
  }

  /** Reading back a bulleted list gives its items, for items that are
      clean. */
  lemma {:induction false} ActionListRoundTrip(xs: seq<string>)
    requires CleanItems(xs) && |xs| > 0
    ensures ActionList(Join(Bulleted(xs), "\n")) == xs
    decreases |xs|
  {
    BulletedLine(xs[0]);
    if |xs| > 1 {
      CleanTail(xs);
      ActionListRoundTrip(xs[1..]);
      BulletedJoin(xs);
      ActionListSplit("- " + xs[0], Join(Bulleted(xs[1..]), "\n"));
      assert [xs[0]] + xs[1..] == xs;
    }
  }

  /** Where the first line break of a bulleted list falls. */
  lemma BulletedJoin(xs: seq<string>)
    requires |xs| > 1
    ensures Join(Bulleted(xs), "\n") == ("- " + xs[0]) + "\n" + Join(Bulleted(xs[1..]), "\n")
  {
    assert Bulleted(xs) == ["- " + xs[0]] + Bulleted(xs[1..]);
  }

  /** One bulleted line reads back as its item. */
  lemma BulletedLine(x: string)
    requires CleanItem(x)
    ensures ActionList("- " + x) == [x]
  {
    var line := "- " + x;
    assert StripBullet(line) == " " + x;
    PaddedItem(" ", x);
    assert line == "-" + (" " + x);
    ActionListLine(line);
  }

  /** `content.split('\n').filter(line => line.trim() !== '')[0]`. */
  function FirstNonBlankLine(lines: seq<string>): (r: Option<string>)
    ensures r.Some? ==> r.value in lines && Trim(r.value) != ""
    ensures r.None? ==> forall l :: l in lines ==> Trim(l) == ""
  {
    if |lines| == 0 then None
    else if Trim(lines[0]) != "" then Some(lines[0])
    else FirstNonBlankLine(lines[1..])
  }

  /** The line `[0]` picks is the first non-blank one: every line before it
      is blank. */
  lemma {:induction false} FirstNonBlankLineIsFirst(lines: seq<string>, i: nat)
    requires i < |lines| && Trim(lines[i]) != ""
    requires forall j :: 0 <= j < i ==> Trim(lines[j]) == ""
    ensures FirstNonBlankLine(lines) == Some(lines[i])
  {
    if i > 0 {
      assert Trim(lines[0]) == "";
      assert lines[1..][i - 1] == lines[i];
      FirstNonBlankLineIsFirst(lines[1..], i - 1);
    }
  }

  // ---------------------------------------------------------------------
  // The parser

  /** The topic: the trimmed `topic`/`subject` line, else the first
      non-blank line of the reply, else "Unknown topic". Without either
      label it is never empty. */
  function TopicOf(c: string): (r: string)
    ensures r == "" ==> ContainsCI(c, "topic") || ContainsCI(c, "subject")
    ensures ContainsCI(c, "topic") ==> r == Trim(LabelLine(c, "topic").value)
    ensures !ContainsCI(c, "topic") && ContainsCI(c, "subject") ==>
              r == Trim(LabelLine(c, "subject").value)
  {
    var m := FirstOf(LabelLine(c, "topic"), LabelLine(c, "subject"));
    assert Trim("") == "" by { assert AllSpace(""); }
    if m.Some? then Trim(m.value) else FirstNonBlankLine(Split(c, IsNewline)).GetOr("Unknown topic")
  }

  /** The intent: the trimmed `intent`/`purpose` line, else "note". */
  function IntentOf(c: string): (r: string)
    ensures IsTrimmed(r)
    ensures !ContainsCI(c, "intent") && !ContainsCI(c, "purpose") ==> r == "note"
    ensures ContainsCI(c, "intent") ==> r == Trim(LabelLine(c, "intent").value)
    ensures !ContainsCI(c, "intent") && ContainsCI(c, "purpose") ==>
              r == Trim(LabelLine(c, "purpose").value)
  {
    var m := FirstOf(LabelLine(c, "intent"), LabelLine(c, "purpose"));
    if m.Some? then Trim(m.value) else "note"
  }

  /** The block after `entities`, up to a blank line or a line starting
      with a digit. */
  function EntitiesBlock(c: string): (r: Option<string>)
    ensures r.Some? ==> ContainsCI(c, "entities")
    ensures OnlyLineFeeds(c) ==> (r.Some? <==> ContainsCI(c, "entities"))
    ensures OnlyLineFeeds(c) && r.Some? ==> Captures(c, "entities", true, r.value)
  {
    LabelBlock(c, "entities", true)
  }

  /** The block after `categories` (or, failing that, `tags`), up to a
      blank line or a line starting with a digit. */
  function CategoriesBlock(c: string): (r: Option<string>)
    ensures r.Some? ==> ContainsCI(c, "categories") || ContainsCI(c, "tags")
    ensures OnlyLineFeeds(c) ==> (r.Some? <==> ContainsCI(c, "categories") || ContainsCI(c, "tags"))
    ensures OnlyLineFeeds(c) && ContainsCI(c, "categories") ==> Captures(c, "categories", true, r.value)
    ensures OnlyLineFeeds(c) && !ContainsCI(c, "categories") && ContainsCI(c, "tags") ==>
              Captures(c, "tags", true, r.value)
  {
    FirstOf(LabelBlock(c, "categories", true), LabelBlock(c, "tags", true))
  }

  /** The block after `action items` (or, failing that, `actions`), up to
      a blank line. */
  function ActionItemsBlock(c: string): (r: Option<string>)
    ensures r.Some? ==> ContainsCI(c, "action items") || ContainsCI(c, "actions")
    ensures OnlyLineFeeds(c) ==> (r.Some? <==> ContainsCI(c, "action items") || ContainsCI(c, "actions"))
    ensures OnlyLineFeeds(c) && ContainsCI(c, "action items") ==> Captures(c, "action items", false, r.value)
    ensures OnlyLineFeeds(c) && !ContainsCI(c, "action items") && ContainsCI(c, "actions") ==>
              Captures(c, "actions", false, r.value)
  {
    FirstOf(LabelBlock(c, "action items", false), LabelBlock(c, "actions", false))
  }

  /** The text branch (utils/ai-service.ts:159-195). */
  function TextParse(c: string): (r: ProcessedData)
    ensures IsTrimmed(r.intent)
    ensures r.topic == "" ==> ContainsCI(c, "topic") || ContainsCI(c, "subject")
  {
    var entities := EntitiesBlock(c);
    var categories := CategoriesBlock(c);
    var actionItems := ActionItemsBlock(c);
    ProcessedData(
      TopicOf(c),
      if entities.Some? then ListItems(entities.value) else [],
      IntentOf(c),
      if categories.Some? then ListItems(categories.value) else ["Miscellaneous"],
      if actionItems.Some? then ActionList(actionItems.value) else ["No action needed"])
  }

  /** `parseAIResponse(content, originalText)`, with `JSON.parse` as the
      parameter `jsonParse`. The text branch cannot throw on a string, so
      the outer `catch` and its fallback record are never reached and are
      not part of this function; `originalText` is read only there. */
  function ParseAIResponse(content: string, originalText: string,
                           jsonParse: string -> Option<JsonObject>): (r: ProcessedData)
    ensures !('{' in content && '}' in content) ==> r == TextParse(content)
    ensures JsonCandidate(content).None? ==> r == TextParse(content)
  {
    var fromJson :=
      if '{' in content && '}' in content then
        match JsonCandidate(content)
        case Some(m) => (match jsonParse(m) case Some(j) => Some(FromJson(j)) case None => None)
        case None => None
      else None;
    if fromJson.Some? then fromJson.value else TextParse(content)
  }

  // ---------------------------------------------------------------------
  // Properties

  /** The JSON branch never produces the result: whatever it extracts
      begins with a backslash, which `JSON.parse` rejects, so every reply
      is read by the text branch. */
  lemma JsonBranchNeverTaken(content: string, originalText: string,
                             jsonParse: string -> Option<JsonObject>)
    requires RejectsBackslashStart(jsonParse)
    ensures ParseAIResponse(content, originalText, jsonParse) == TextParse(content)
  {
    var m := JsonCandidate(content);
    if m.Some? {
      assert jsonParse(m.value).None?;
    }
  }

  /** Each field falls back to its default when no label for it occurs
      (letters compared without regard to case), and a list whose label is
      followed by an empty block is empty. */
  lemma TextParseDefaults(c: string)
    ensures !ContainsCI(c, "topic") && !ContainsCI(c, "subject") ==>
              TextParse(c).topic == FirstNonBlankLine(Split(c, IsNewline)).GetOr("Unknown topic")
    ensures ContainsCI(c, "topic") || ContainsCI(c, "subject") ==>
              IsTrimmed(TextParse(c).topic)
    ensures !ContainsCI(c, "intent") && !ContainsCI(c, "purpose") ==> TextParse(c).intent == "note"
    ensures !ContainsCI(c, "entities") ==> TextParse(c).entities == []
    ensures !ContainsCI(c, "categories") && !ContainsCI(c, "tags") ==>
              TextParse(c).categories == ["Miscellaneous"]
    ensures !ContainsCI(c, "action items") && !ContainsCI(c, "actions") ==>
              TextParse(c).actionItems == ["No action needed"]
    ensures EntitiesBlock(c) == Some("") ==> TextParse(c).entities == []
    ensures CategoriesBlock(c) == Some("") ==> TextParse(c).categories == []
    ensures ActionItemsBlock(c) == Some("") ==> TextParse(c).actionItems == []
  {
    LabelBlockAbsent(c, "entities", true, 0);
    LabelBlockAbsent(c, "categories", true, 0);
    LabelBlockAbsent(c, "tags", true, 0);
    LabelBlockAbsent(c, "action items", false, 0);
    LabelBlockAbsent(c, "actions", false, 0);
    ListItemsPiece("");
    ActionListLine("");
  }

  /** An entities block ends at the blank line, and its items are the
      names between the commas. */
  lemma EntitiesExample(c: string)
    requires c == "Entities: Alice, Bob\n\nIntent: x"
    ensures EntitiesBlock(c) == Some("Alice, Bob")
    ensures TextParse(c).entities == ["Alice", "Bob"]
  {
    ExampleBlock(c);
    ExampleItems("Alice", "Bob", "Alice, Bob");
    EntitiesFromBlock(c, "Alice, Bob");
  }

  /** The entities are the items of their captured block. */
  lemma EntitiesFromBlock(c: string, b: string)
    requires EntitiesBlock(c) == Some(b)
    ensures TextParse(c).entities == ListItems(b)
  {
  }

  lemma ExampleBlock(c: string)
    requires c == "Entities: Alice, Bob\n\nIntent: x"
    ensures EntitiesBlock(c) == Some("Alice, Bob")
  {
    ExampleLabel(c);
    ExampleAt(c);
    assert BlockAt(c, 0, "entities", true) == Some("Alice, Bob");
  }

  lemma ExampleAt(c: string)
    requires c == "Entities: Alice, Bob\n\nIntent: x"
    ensures MatchesAtCI(c, 0, "entities") && AfterLabel(c, 0, "entities") == 10
    ensures BackOff(c, 9, 10, true) == Some("Alice, Bob")
  {
    ExampleLabel(c);
    ExampleLine(c);
    ExampleStop(c);
  }

  lemma ExampleStop(c: string)
    requires c == "Entities: Alice, Bob\n\nIntent: x"
    ensures BlockEnd(c, 20, true) == Some(20) && c[10..20] == "Alice, Bob"
  {
  }

  lemma ExampleLabel(c: string)
    requires c == "Entities: Alice, Bob\n\nIntent: x"
    ensures FindCI(c, "entities", 0) == Some(0)
  {
    assert MatchesAtCI(c, 0, "entities");
  }

  lemma ExampleLine(c: string)
    requires c == "Entities: Alice, Bob\n\nIntent: x"
    ensures SpaceEnd(c, 9) == 10 && LineEnd(c, 10) == 20
  {
    assert IsJsSpace(c[9]) && !IsJsSpace(c[10]);
    assert IsLineTerminator(c[20]);
    assert forall j :: 10 <= j < 20 ==> !IsLineTerminator(c[j]);
  }

  lemma ExampleItems(a: string, b: string, t: string)
    requires a == "Alice" && b == "Bob" && t == "Alice, Bob"
    ensures ListItems(t) == [a, b]
  {
    ExampleClean(a, b);
    ListItemsRoundTrip([a, b]);
    ExampleJoin(a, b, t);
  }

  lemma ExampleClean(a: string, b: string)
    requires a == "Alice" && b == "Bob"
    ensures CleanItems([a, b]) && CommaFree([a, b])
  {
    assert CleanItem(a) && CleanItem(b);
    assert ',' !in a && ',' !in b;
  }

  lemma ExampleJoin(a: string, b: string, t: string)
    requires a == "Alice" && b == "Bob" && t == "Alice, Bob"
    ensures Join([a, b], ", ") == t
  {
    assert Join([a, b], ", ") == a + ", " + Join([b], ", ");
  }

  /** The stop that ends a block is unique, so a block's text is fixed by
      where its first line starts. */
  lemma BlockFromUnique(s: string, k: nat, digitStops: bool, b1: string, b2: string)
    requires k <= |s| && BlockFrom(s, k, digitStops, b1) && BlockFrom(s, k, digitStops, b2)
    ensures b1 == b2
  {
    var e1 :| LineEnd(s, k) <= e1 <= |s| && StopAt(s, e1, digitStops)
              && NoStopBefore(s, LineEnd(s, k), e1, digitStops) && b1 == s[k..e1];
    var e2 :| LineEnd(s, k) <= e2 <= |s| && StopAt(s, e2, digitStops)
              && NoStopBefore(s, LineEnd(s, k), e2, digitStops) && b2 == s[k..e2];
    assert e1 == e2;
  }

  /** A block is captured only where its label occurs. */
  lemma {:induction false} LabelBlockAbsent(s: string, word: string, digitStops: bool, from: nat)
    requires |word| > 0
    ensures LabelBlockFrom(s, word, digitStops, from).Some? ==> FindCI(s, word, from).Some?
  {
  }

  /** The two default lists are clean. */
  lemma DefaultListsClean()
    ensures CleanItems(["Miscellaneous"]) && CleanItems(["No action needed"])
  {
    assert IsTrimmed("Miscellaneous") && '\n' !in "Miscellaneous";
    assert IsTrimmed("No action needed") && '\n' !in "No action needed";
  }

  /** The entities and categories are the items of their captured blocks,
      split at commas and line feeds (ListItemsSplit, ListItemsPiece), and
      the action items are the lines of theirs (ActionListSplit,
      ActionListLine); every item is non-empty, trimmed and on one line,
      and no entity or category holds a comma. */
  lemma TextParseLists(c: string)
    ensures EntitiesBlock(c).Some? ==> TextParse(c).entities == ListItems(EntitiesBlock(c).value)
    ensures CategoriesBlock(c).Some? ==> TextParse(c).categories == ListItems(CategoriesBlock(c).value)
    ensures ActionItemsBlock(c).Some? ==> TextParse(c).actionItems == ActionList(ActionItemsBlock(c).value)
    ensures CleanItems(TextParse(c).entities) && CommaFree(TextParse(c).entities)
    ensures CleanItems(TextParse(c).categories) && CommaFree(TextParse(c).categories)
    ensures CleanItems(TextParse(c).actionItems)
  {
    EntitiesClean(c);
    CategoriesClean(c);
    ActionItemsClean(c);
  }

  lemma EntitiesClean(c: string)
    ensures CleanItems(TextParse(c).entities) && CommaFree(TextParse(c).entities)
  {
  }

  lemma CategoriesClean(c: string)
    ensures CleanItems(TextParse(c).categories) && CommaFree(TextParse(c).categories)
  {
    if CategoriesBlock(c).None? {
      DefaultListsClean();
      assert ',' !in "Miscellaneous";
    }
  }

  lemma ActionItemsClean(c: string)
    ensures CleanItems(TextParse(c).actionItems)
  {
    if ActionItemsBlock(c).None? {
      DefaultListsClean();
    }
  }
}
