/** `mockProcessText` (utils/ai-service.ts): the keyword heuristics that
    stand in for a provider, and the truncation rule that makes a topic out
    of the text. The simulated delay is left out and the simulated random
    failure is the parameter `fails`. */
module MockAi {
  import opened Wrappers
  import opened JsText
  import opened ClipTypes

  /** A label with the words whose case-insensitive occurrence selects it
      (one alternation `/w1|w2|.../i`). */
  datatype Rule = Rule(name: string, words: seq<string>)

  const IntentRules: seq<Rule> := [
    Rule("question", ["?"]),
    Rule("shopping", ["buy", "purchase", "get", "pick up"]),
    Rule("meeting", ["meet", "call", "talk", "discuss", "appointment"]),
    Rule("task", ["todo", "task", "remember", "don't forget"])]

  const ActionRules: seq<Rule> := [
    Rule("Contact someone", ["call", "email", "contact", "reach out"]),
    Rule("Purchase items", ["buy", "purchase", "get"]),
    Rule("Schedule event", ["schedule", "plan", "arrange"]),
    Rule("Review information", ["review", "check", "look at"])]

  const CategoryRules: seq<Rule> := [
    Rule("Work", ["work", "project", "client", "meeting", "deadline"]),
    Rule("Shopping", ["buy", "shop", "store", "purchase", "price"]),
    Rule("Food", ["eat", "food", "restaurant", "lunch", "dinner", "breakfast"]),
    Rule("Personal", ["family", "kids", "parents", "home"])]

  const MockFailure := "AI processing failed. Please try again."

  predicate Fires(r: Rule, text: string) {
    ContainsAnyCI(text, r.words)
  }

  function Names(rules: seq<Rule>): seq<string> {
    seq(|rules|, k requires 0 <= k < |rules| => rules[k].name)
  }

  /** `a` is `b` with some elements left out. */
  predicate IsSubsequence(a: seq<string>, b: seq<string>)
    decreases |b|
  {
    |a| == 0 || (|b| > 0 && ((a[0] == b[0] && IsSubsequence(a[1..], b[1..])) || IsSubsequence(a, b[1..])))
  }

  /** The names of the rules that fire, in the order of the table: the
      pattern of the `if (...) push(...)` sequence. */
  function Triggered(rules: seq<Rule>, text: string): (r: seq<string>)
    ensures forall x :: x in r <==> exists k :: 0 <= k < |rules| && rules[k].name == x && Fires(rules[k], text)
    ensures IsSubsequence(r, Names(rules))
  {
    if |rules| == 0 then []
    else
      var rest := Triggered(rules[1..], text);
      assert Names(rules)[1..] == Names(rules[1..]);
      assert forall k :: 0 < k < |rules| ==> rules[k] == rules[1..][k - 1];
      if Fires(rules[0], text) then [rules[0].name] + rest else rest
  }

  /** The name of the first rule that fires, or `default`: the pattern of an
      `if ... else if ...` chain. */
  function FirstFired(rules: seq<Rule>, text: string, default: string): (r: string)
    ensures forall k :: (0 <= k < |rules| && Fires(rules[k], text)
                         && (forall j :: 0 <= j < k ==> !Fires(rules[j], text))) ==> r == rules[k].name
    ensures (forall k :: 0 <= k < |rules| ==> !Fires(rules[k], text)) ==> r == default
  {
    if |rules| == 0 then default
    else if Fires(rules[0], text) then rules[0].name
    else
      var r := FirstFired(rules[1..], text, default);
      assert forall k :: 0 < k < |rules| ==> rules[k] == rules[1..][k - 1];
      r
  }

  /** `word.length > 4 && /^[A-Z]/.test(word)`. */
  predicate IsEntityWord(w: string) {
    |w| > 4 && 'A' <= w[0] <= 'Z'
  }

  function EntityWords(words: seq<string>): (r: seq<string>)
    ensures forall x :: x in r <==> x in words && IsEntityWord(x)
    ensures IsSubsequence(r, words)
  {
    if |words| == 0 then []
    else
      var rest := EntityWords(words[1..]);
      if IsEntityWord(words[0]) then [words[0]] + rest else rest
  }

  /** `filter` works word by word: each word is kept exactly when it is an
      entity word, repeats included, and the order is kept. */
  lemma {:induction false} EntityWordsAppend(a: seq<string>, b: seq<string>)
    ensures EntityWords(a + b) == EntityWords(a) + EntityWords(b)
    ensures forall w :: EntityWords([w]) == if IsEntityWord(w) then [w] else []
  {
    if |a| > 0 {
      assert (a + b)[1..] == a[1..] + b;
      EntityWordsAppend(a[1..], b);
    } else {
      assert a + b == b;
    }
    forall w ensures EntityWords([w]) == if IsEntityWord(w) then [w] else [] {
      assert [w][1..] == [];
    }
  }

  /** `text.split(/\s+/).filter(...).slice(0, 3)`. Splitting at every
      whitespace character instead of at every whitespace run yields the
      same pieces plus some empty ones, which the filter drops. */
  function MockEntities(text: string): (r: seq<string>)
    ensures |r| <= 3
    ensures forall x :: x in r ==> IsEntityWord(x) && x in Split(text, IsJsSpace)
    ensures var c := EntityWords(Split(text, IsJsSpace));
            r <= c && |r| == if |c| <= 3 then |c| else 3
  {
    var candidates := EntityWords(Split(text, IsJsSpace));
    if |candidates| <= 3 then candidates else candidates[..3]
  }

  /** `t.length > 30 ? t.substring(0, 30).split(' ').slice(0, -1).join(' ') + '...' : t`. */
  function Truncate(text: string): (r: string)
    ensures |text| <= 30 ==> r == text
    ensures |text| > 30 ==> |r| >= 3 && r[|r| - 3..] == "..."
  {
    if |text| <= 30 then text
    else
      var parts := Split(text[..30], IsSpaceChar);
      Join(parts[..|parts| - 1], " ") + "..."
  }

  /** What the truncation leaves: a short text unchanged; otherwise the
      first 30 characters up to (not including) the last space among them,
      then `...`, or `...` alone when those 30 characters hold no space. */
  lemma TruncateShape(text: string)
    ensures |text| <= 30 ==> Truncate(text) == text
    ensures |text| > 30 ==>
              match LastIndexOf(text[..30], ' ')
              case Some(k) => Truncate(text) == text[..k] + "..."
              case None => Truncate(text) == "..."
  {
    if |text| > 30 {
      var p := text[..30];
      match LastIndexOf(p, ' ')
      case Some(k) =>
        assert p == p[..k] + [' '] + p[k + 1..];
        SplitAround(p[..k], ' ', p[k + 1..], IsSpaceChar);
        SplitWithoutSeparator(p[k + 1..], IsSpaceChar);
        var parts := Split(p, IsSpaceChar);
        assert parts[..|parts| - 1] == Split(p[..k], IsSpaceChar);
        JoinSplit(p[..k], IsSpaceChar, ' ');
        assert text[..k] == p[..k];
      case None =>
        SplitWithoutSeparator(p, IsSpaceChar);
    }
  }

  /** The record the heuristics build from `text`. */
  function MockAnalysis(text: string): (r: ProcessedData)
    ensures r.topic == Truncate(text) && |r.entities| <= 3
    ensures r.intent in ["question", "shopping", "meeting", "task", "note"]
    ensures |r.categories| >= 1 && |r.actionItems| >= 1
  {
    IntentChain(text);
    var actions := Triggered(ActionRules, text);
    var categories := Triggered(CategoryRules, text);
    ProcessedData(
      Truncate(text),
      MockEntities(text),
      FirstFired(IntentRules, text, "note"),
      if |categories| == 0 then ["Miscellaneous"] else categories,
      if |actions| == 0 then ["No action needed"] else actions)
  }

  /** What a call of the mock provider yields: the injected failure, or the analysis. */
  function MockProcessing(text: string, fails: bool): (r: Result<ProcessedData, string>)
    ensures r.Failure? <==> fails
    ensures r.Failure? ==> r.error == MockFailure
    ensures r.Success? ==> r.value == MockAnalysis(text)
  {
    if fails then Failure(MockFailure) else Success(MockAnalysis(text))
  }

  /** `mockProcessText(text, promptTemplate)`. The template is not read. */
  method MockProcessText(text: string, promptTemplate: string, fails: bool)
    returns (r: Result<ProcessedData, string>)
    ensures r == MockProcessing(text, fails)
  {
    if fails {
      return Failure(MockFailure);
    }
    var entities := MockEntities(text);
    var intent := MockIntent(text);
    var actionItems := MockActionItems(text);
    var categories := MockCategories(text);
    if |categories| == 0 {
      categories := categories + ["Miscellaneous"];
    }
    var topic := Truncate(text);
    var data := ProcessedData(topic, entities, intent, categories,
                              if |actionItems| > 0 then actionItems else ["No action needed"]);
    assert data.categories == MockAnalysis(text).categories;
    assert data.actionItems == MockAnalysis(text).actionItems;
    r := Success(data);
  }

  /** The `let intent` of `mockProcessText`, reassigned along an `if`-chain. */
  method MockIntent(text: string) returns (intent: string)
    ensures intent == FirstFired(IntentRules, text, "note")
  {
    intent := "note";
    if '?' in text {
      intent := "question";
    } else if ContainsAnyCI(text, ["buy", "purchase", "get", "pick up"]) {
      intent := "shopping";
    } else if ContainsAnyCI(text, ["meet", "call", "talk", "discuss", "appointment"]) {
      intent := "meeting";
    } else if ContainsAnyCI(text, ["todo", "task", "remember", "don't forget"]) {
      intent := "task";
    }
    IntentChain(text);
  }

  /** The `actionItems` array of `mockProcessText`, before its default. */
  method MockActionItems(text: string) returns (actionItems: seq<string>)
    ensures actionItems == Triggered(ActionRules, text)
  {
    actionItems := [];
    if ContainsAnyCI(text, ["call", "email", "contact", "reach out"]) {
      actionItems := actionItems + ["Contact someone"];
    }
    if ContainsAnyCI(text, ["buy", "purchase", "get"]) {
      actionItems := actionItems + ["Purchase items"];
    }
    if ContainsAnyCI(text, ["schedule", "plan", "arrange"]) {
      actionItems := actionItems + ["Schedule event"];
    }
    if ContainsAnyCI(text, ["review", "check", "look at"]) {
      actionItems := actionItems + ["Review information"];
    }
    UnfoldFour(ActionRules, text);
  }

  /** The `categories` array of `mockProcessText`, before its default. */
  method MockCategories(text: string) returns (categories: seq<string>)
    ensures categories == Triggered(CategoryRules, text)
  {
    categories := [];
    if ContainsAnyCI(text, ["work", "project", "client", "meeting", "deadline"]) {
      categories := categories + ["Work"];
    }
    if ContainsAnyCI(text, ["buy", "shop", "store", "purchase", "price"]) {
      categories := categories + ["Shopping"];
    }
    if ContainsAnyCI(text, ["eat", "food", "restaurant", "lunch", "dinner", "breakfast"]) {
      categories := categories + ["Food"];
    }
    if ContainsAnyCI(text, ["family", "kids", "parents", "home"]) {
      categories := categories + ["Personal"];
    }
    UnfoldFour(CategoryRules, text);
  }

  /** The intent table read as the `if ... else if` chain. */
  lemma IntentChain(text: string)
    ensures FirstFired(IntentRules, text, "note") ==
      if '?' in text then "question"
      else if ContainsAnyCI(text, ["buy", "purchase", "get", "pick up"]) then "shopping"
      else if ContainsAnyCI(text, ["meet", "call", "talk", "discuss", "appointment"]) then "meeting"
      else if ContainsAnyCI(text, ["todo", "task", "remember", "don't forget"]) then "task"
      else "note"
  {
    QuestionMark(text);
    var r := IntentRules;
    assert r[1..][1..] == r[2..] && r[2..][1..] == r[3..] && r[3..][1..] == [];
    assert FirstFired(r, text, "note") == if Fires(r[0], text) then "question" else FirstFired(r[1..], text, "note");
    assert FirstFired(r[1..], text, "note") == if Fires(r[1], text) then "shopping" else FirstFired(r[2..], text, "note");
    assert FirstFired(r[2..], text, "note") == if Fires(r[2], text) then "meeting" else FirstFired(r[3..], text, "note");
    assert FirstFired(r[3..], text, "note") == if Fires(r[3], text) then "task" else "note";
  }

  /** `text.includes('?')` is the question rule firing: `?` has no case. */
  lemma QuestionMark(text: string)
    ensures Fires(IntentRules[0], text) <==> '?' in text
  {
    assert IntentRules[0].words == ["?"];
    if ContainsCI(text, "?") {
      assert ["?"][0] == "?";
    }
    if '?' in text {
      var i :| 0 <= i < |text| && text[i] == '?';
      assert MatchesAtCI(text, i, "?");
    }
    if ContainsCI(text, "?") {
      var i := FindCI(text, "?", 0).value;
      assert MatchesAtCI(text, i, "?");
      assert LowerAscii(text[i + 0]) == LowerAscii("?"[0]);
      assert text[i] == '?';
    }
  }

  /** One step of `Triggered`. */
  lemma TriggeredStep(rules: seq<Rule>, text: string)
    requires |rules| > 0
    ensures Triggered(rules, text) ==
      (if Fires(rules[0], text) then [rules[0].name] else []) + Triggered(rules[1..], text)
  {
  }

  /** The tables read rule by rule. */
  lemma UnfoldTables(text: string)
    ensures Triggered(ActionRules, text) ==
      (if Fires(ActionRules[0], text) then ["Contact someone"] else [])
      + (if Fires(ActionRules[1], text) then ["Purchase items"] else [])
      + (if Fires(ActionRules[2], text) then ["Schedule event"] else [])
      + (if Fires(ActionRules[3], text) then ["Review information"] else [])
    ensures Triggered(CategoryRules, text) ==
      (if Fires(CategoryRules[0], text) then ["Work"] else [])
      + (if Fires(CategoryRules[1], text) then ["Shopping"] else [])
      + (if Fires(CategoryRules[2], text) then ["Food"] else [])
      + (if Fires(CategoryRules[3], text) then ["Personal"] else [])
  {
    UnfoldFour(ActionRules, text);
    UnfoldFour(CategoryRules, text);
  }

  lemma UnfoldFour(rules: seq<Rule>, text: string)
    requires |rules| == 4
    ensures Triggered(rules, text) ==
      (if Fires(rules[0], text) then [rules[0].name] else [])
      + (if Fires(rules[1], text) then [rules[1].name] else [])
      + (if Fires(rules[2], text) then [rules[2].name] else [])
      + (if Fires(rules[3], text) then [rules[3].name] else [])
  {
    TriggeredStep(rules, text);
    TriggeredStep(rules[1..], text);
    TriggeredStep(rules[2..], text);
    TriggeredStep(rules[3..], text);
    assert rules[1..][1..] == rules[2..];
    assert rules[2..][1..] == rules[3..];
    assert rules[3..][1..] == [];
  }

  /** The intent follows the priority question > shopping > meeting > task > note. */
  lemma MockIntentPriority(text: string)
    ensures MockAnalysis(text).intent == "question" <==> '?' in text
    ensures MockAnalysis(text).intent == "shopping" <==> '?' !in text && Fires(IntentRules[1], text)
    ensures MockAnalysis(text).intent == "meeting" <==>
              '?' !in text && !Fires(IntentRules[1], text) && Fires(IntentRules[2], text)
    ensures MockAnalysis(text).intent == "task" <==>
              '?' !in text && !Fires(IntentRules[1], text) && !Fires(IntentRules[2], text)
              && Fires(IntentRules[3], text)
    ensures MockAnalysis(text).intent == "note" <==>
              '?' !in text && !Fires(IntentRules[1], text) && !Fires(IntentRules[2], text)
              && !Fires(IntentRules[3], text)
  {
    IntentChain(text);
  }

  /** Neither list is ever empty; each holds the labels of the rules that
      fire, in the order of the table, or else its one default. */
  lemma MockListsShape(text: string)
    ensures |MockAnalysis(text).categories| >= 1 && |MockAnalysis(text).actionItems| >= 1
    ensures MockAnalysis(text).categories == ["Miscellaneous"] <==>
              forall k :: 0 <= k < |CategoryRules| ==> !Fires(CategoryRules[k], text)
    ensures MockAnalysis(text).actionItems == ["No action needed"] <==>
              forall k :: 0 <= k < |ActionRules| ==> !Fires(ActionRules[k], text)
    ensures MockAnalysis(text).categories != ["Miscellaneous"] ==>
              IsSubsequence(MockAnalysis(text).categories, Names(CategoryRules))
    ensures MockAnalysis(text).actionItems != ["No action needed"] ==>
              IsSubsequence(MockAnalysis(text).actionItems, Names(ActionRules))
  {
    var c := Triggered(CategoryRules, text);
    var a := Triggered(ActionRules, text);
    if |c| > 0 {
      assert c[0] in c;
      assert c[0] != "Miscellaneous";
    }
    if |a| > 0 {
      assert a[0] in a;
      assert a[0] != "No action needed";
    }
    forall k | 0 <= k < |CategoryRules| && Fires(CategoryRules[k], text) ensures |c| > 0 {
      assert CategoryRules[k].name in c;
    }
    forall k | 0 <= k < |ActionRules| && Fires(ActionRules[k], text) ensures |a| > 0 {
      assert ActionRules[k].name in a;
    }
  }

  /** A word that occurs at `i` makes its rule fire. */
  lemma FiresAt(r: Rule, text: string, k: nat, i: nat)
    requires k < |r.words| && MatchesAtCI(text, i, r.words[k])
    ensures Fires(r, text)
  {
    assert FindCI(text, r.words[k], 0).Some?;
  }

  /** A question that mentions a call is a question, and still asks for contact. */
  lemma QuestionExample(t: string)
    requires t == "Call John tomorrow about the budget?"
    ensures MockAnalysis(t).intent == "question"
    ensures "Contact someone" in MockAnalysis(t).actionItems
  {
    assert MatchesAtCI(t, 0, "call") by {
      assert LowerAscii(t[0]) == 'c' && LowerAscii(t[1]) == 'a' && LowerAscii(t[2]) == 'l' && LowerAscii(t[3]) == 'l';
    }
    assert t[35] == '?';
    MockIntentPriority(t);
    assert ActionRules[0].words[0] == "call";
    FiresAt(ActionRules[0], t, 0, 0);
    var actions := Triggered(ActionRules, t);
    assert ActionRules[0].name in actions;
    assert MockAnalysis(t).actionItems == actions;
  }

  /** A shopping note is classified and filed as shopping. */
  lemma ShoppingExample(t: string)
    requires t == "Buy milk and eggs"
    ensures MockAnalysis(t).intent == "shopping"
    ensures "Shopping" in MockAnalysis(t).categories
    ensures "Purchase items" in MockAnalysis(t).actionItems
  {
    assert MatchesAtCI(t, 0, "buy") by {
      assert LowerAscii(t[0]) == 'b' && LowerAscii(t[1]) == 'u' && LowerAscii(t[2]) == 'y';
    }
    assert '?' !in t by {
      assert forall i :: 0 <= i < |t| ==> t[i] != '?';
    }
    MockIntentPriority(t);
    assert IntentRules[1].words[0] == "buy" && CategoryRules[1].words[0] == "buy"
      && ActionRules[1].words[0] == "buy";
    FiresAt(IntentRules[1], t, 0, 0);
    FiresAt(CategoryRules[1], t, 0, 0);
    FiresAt(ActionRules[1], t, 0, 0);
    assert CategoryRules[1].name in Triggered(CategoryRules, t);
    assert ActionRules[1].name in Triggered(ActionRules, t);
  }
}
