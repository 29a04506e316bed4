/** The clipboard store (store/clipboard-store.ts): the captured items, the
    settings, the processing flag and the statistics, edited by its
    actions. The clock, the local-midnight function of `Date`, and
    everything `processText` depends on are parameters. */
module Clipboard {
  import opened Wrappers
  import opened JsText
  import opened ClipTypes
  import opened ResponseParser
  import opened AiService

  const DefaultPrompt :=
    "Analyze the following text and extract structured information:\n\n{text}\n\n"
    + "Extract the following:\n1. Main topic or subject\n"
    + "2. Key entities (people, organizations, locations, dates)\n"
    + "3. Primary intent (question, task, note, event, etc.)\n"
    + "4. Relevant categories or tags\n5. Any actionable items"

  const DefaultSettings := AppSettings(SystemTheme, true, DefaultPrompt, true, "mock", "", "",
                                       "gpt-3.5-turbo", "gemini-pro")

  datatype Stats = Stats(processedToday: nat, successRate: nat)

  /** A snapshot of the store's state. */
  datatype ClipState = ClipState(items: seq<ClipboardItem>, settings: AppSettings,
                                 isProcessing: bool, stats: Stats)

  const InitialState := ClipState([], DefaultSettings, false, Stats(0, 100))

  // ---------------------------------------------------------------------
  // The list operations

  /** `items.map(item => item.id === id ? f(item) : item)`. */
  function UpdateWhere(items: seq<ClipboardItem>, id: string, f: ClipboardItem -> ClipboardItem)
    : (r: seq<ClipboardItem>)
    ensures |r| == |items|
    ensures forall i :: 0 <= i < |items| ==> r[i] == if items[i].id == id then f(items[i]) else items[i]
  {
    seq(|items|, i requires 0 <= i < |items| => if items[i].id == id then f(items[i]) else items[i])
  }

  /** The item as processing starts, with the provider of that moment. */
  function MarkProcessing(item: ClipboardItem, provider: string): (r: ClipboardItem)
    ensures r.status == ClipTypes.Processing && r.aiProvider == Some(provider)
    ensures r.(status := item.status, aiProvider := item.aiProvider) == item
  {
    item.(status := ClipTypes.Processing, aiProvider := Some(provider))
  }

  /** The item once processing succeeded: the data set, the error cleared. */
  function MarkProcessed(item: ClipboardItem, data: ProcessedData): (r: ClipboardItem)
    ensures r.status == ClipTypes.Processed && r.processedData == Some(data) && r.error.None?
    ensures r.(status := item.status, processedData := item.processedData, error := item.error) == item
  {
    item.(status := ClipTypes.Processed, processedData := Some(data), error := None)
  }

  /** The item once processing failed: the message set, the data kept. */
  function MarkFailed(item: ClipboardItem, message: string): (r: ClipboardItem)
    ensures r.status == ClipTypes.Failed && r.error == Some(message) && r.processedData == item.processedData
    ensures r.(status := item.status, error := item.error) == item
  {
    item.(status := ClipTypes.Failed, error := Some(message))
  }

  /** `items.filter(item => item.id !== id)`. */
  function RemoveId(items: seq<ClipboardItem>, id: string): (r: seq<ClipboardItem>)
    ensures |r| <= |items|
    ensures forall x :: x in r <==> x in items && x.id != id
  {
    if |items| == 0 then []
    else if items[0].id == id then RemoveId(items[1..], id)
    else [items[0]] + RemoveId(items[1..], id)
  }

  /** Removal keeps the order of what is left: it works piece by piece. */
  lemma {:induction false} RemoveIdAppend(a: seq<ClipboardItem>, b: seq<ClipboardItem>, id: string)
    ensures RemoveId(a + b, id) == RemoveId(a, id) + RemoveId(b, id)
  {
    if |a| == 0 {
      assert a + b == b;
    } else {
      assert (a + b)[0] == a[0];
      assert (a + b)[1..] == a[1..] + b;
      RemoveIdAppend(a[1..], b, id);
    }
  }

  /** `items.find(item => item.id === id)`. */
  function FindById(items: seq<ClipboardItem>, id: string): (r: Option<ClipboardItem>)
    ensures r.Some? ==> exists i :: 0 <= i < |items| && items[i] == r.value && r.value.id == id
                                    && forall j :: 0 <= j < i ==> items[j].id != id
    ensures r.None? ==> forall i :: 0 <= i < |items| ==> items[i].id != id
  {
    if |items| == 0 then None
    else if items[0].id == id then Some(items[0])
    else
      var r := FindById(items[1..], id);
      assert r.Some? ==> exists i :: 1 <= i < |items| && items[i] == r.value && r.value.id == id
                                     && forall j :: 0 <= j < i ==> items[j].id != id by {
        if r.Some? {
          var i :| 0 <= i < |items[1..]| && items[1..][i] == r.value && r.value.id == id
                   && forall j :: 0 <= j < i ==> items[1..][j].id != id;
          assert items[i + 1] == r.value;
        }
      }
      r
  }

  // ---------------------------------------------------------------------
  // Statistics

  /** `items.filter(p).length`. */
  function CountWhere(items: seq<ClipboardItem>, p: ClipboardItem -> bool): (n: nat)
    ensures n <= |items|
    ensures n == 0 <==> forall i :: 0 <= i < |items| ==> !p(items[i])
  {
    if |items| == 0 then 0
    else
      assert forall i :: 1 <= i < |items| ==> items[i] == items[1..][i - 1];
      (if p(items[0]) then 1 else 0) + CountWhere(items[1..], p)
  }

  /** The count is additive: each item adds one when it satisfies `p`,
      nothing otherwise. */
  lemma {:induction false} CountWhereAppend(a: seq<ClipboardItem>, b: seq<ClipboardItem>,
                                            p: ClipboardItem -> bool)
    ensures CountWhere(a + b, p) == CountWhere(a, p) + CountWhere(b, p)
    ensures forall x :: CountWhere([x], p) == if p(x) then 1 else 0
  {
    if |a| == 0 {
      assert a + b == b;
    } else {
      assert (a + b)[0] == a[0];
      assert (a + b)[1..] == a[1..] + b;
      CountWhereAppend(a[1..], b, p);
    }
    forall x ensures CountWhere([x], p) == if p(x) then 1 else 0 {
      assert [x][1..] == [];
    }
  }

  /** One predicate implies another: at most as many items satisfy it. */
  lemma {:induction false} CountWhereMonotone(items: seq<ClipboardItem>, p: ClipboardItem -> bool,
                                              q: ClipboardItem -> bool)
    requires forall x :: p(x) ==> q(x)
    ensures CountWhere(items, p) <= CountWhere(items, q)
  {
    if |items| > 0 {
      CountWhereMonotone(items[1..], p, q);
    }
  }

  /** `Math.round((success / total) * 100)`, or 100 without attempts, as
      integers: the nearest integer to 100·success/total, a tie rounding up. */
  function SuccessRate(success: nat, total: nat): (r: nat)
    requires success <= total
    ensures r <= 100
    ensures total == 0 ==> r == 100
    ensures total > 0 ==> -(total as int) <= 200 * success - 2 * total * r < total
  {
    if total == 0 then 100
    else
      RoundedRate(success, total);
      (200 * success + total) / (2 * total)
  }

  /** The quotient-remainder equation of the rounding division, and the
      bound 100 that `success <= total` gives it. */
  lemma RoundedRate(success: nat, total: nat)
    requires success <= total && total > 0
    ensures var r := (200 * success + total) / (2 * total);
            0 <= r <= 100 && -(total as int) <= 200 * success - 2 * total * r < total
  {
    var n := 200 * success + total;
    var d := 2 * total;
    var r := n / d;
    var m := n % d;
    assert n == d * r + m && 0 <= m < d;
    assert 200 * success - 2 * total * r == m - total;
    assert d * (r - 101) == d * r - d * 101 < 0;
    MulSign(d, r - 101);
  }

  /** A positive factor keeps the sign of the other. */
  lemma MulSign(a: int, b: int)
    requires a > 0
    ensures a * b < 0 <==> b < 0
  {
  }

  predicate IsProcessed(x: ClipboardItem) { x.status == ClipTypes.Processed }
  predicate IsFinished(x: ClipboardItem) { x.status == ClipTypes.Processed || x.status == ClipTypes.Failed }

  /** The statistics computed after a successful processing: the items
      processed that were captured on the current local day, and the
      success rate over the items that finished. `localDay` maps a
      timestamp to its local midnight. */
  function ComputeStats(items: seq<ClipboardItem>, localDay: int -> int, now: int): (s: Stats)
    ensures s.processedToday <= CountWhere(items, IsProcessed)
    ensures s.successRate <= 100
  {
    var success := CountWhere(items, IsProcessed);
    CountWhereMonotone(items, IsProcessed, IsFinished);
    CountWhereMonotone(items, x => IsProcessed(x) && localDay(x.timestamp) == localDay(now), IsProcessed);
    Stats(CountWhere(items, x => IsProcessed(x) && localDay(x.timestamp) == localDay(now)),
          SuccessRate(success, CountWhere(items, IsFinished)))
  }

  // ---------------------------------------------------------------------
  // The actions, as functions of the old state

  /** `retryItem(id)`: nothing when no item has the id; otherwise every item
      with the id is marked as processing with the current provider, the
      first such item's text is processed, and the outcome is written to
      every item with the id. Statistics are recomputed after a success
      only. */
  function Retry(st: ClipState, id: string, env: Environment, localDay: int -> int, now: int): (r: ClipState)
    ensures FindById(st.items, id).None? ==> r == st
    ensures FindById(st.items, id).Some? ==> !r.isProcessing
    ensures SameCaptures(r.items, st.items) && r.settings == st.settings
  {
    match FindById(st.items, id)
    case None => st
    case Some(item) =>
      ApplyOutcome(st, id, ProcessTextResult(item.originalText, st.settings.customPrompt, st.settings, env),
                   localDay, now)
  }

  /** The item keeps what capturing it set: its id, its text and its
      timestamp. */
  predicate SameCapture(a: ClipboardItem, b: ClipboardItem) {
    a.id == b.id && a.originalText == b.originalText && a.timestamp == b.timestamp
  }

  /** The list has the same length and each item keeps its capture. */
  predicate SameCaptures(r: seq<ClipboardItem>, items: seq<ClipboardItem>) {
    |r| == |items| && forall i :: 0 <= i < |items| ==> SameCapture(r[i], items[i])
  }

  /** The state a retry of `id` leaves once processing has produced
      `outcome`: the flag down, the captures unchanged, and the statistics
      untouched after a failure. */
  function ApplyOutcome(st: ClipState, id: string, outcome: Result<ProcessedData, string>,
                        localDay: int -> int, now: int): (r: ClipState)
    ensures SameCaptures(r.items, st.items) && r.settings == st.settings && !r.isProcessing
    ensures outcome.Failure? ==> r.stats == st.stats
  {
    var marked := MarkAllProcessing(st.items, id, st.settings.aiProvider);
    match outcome
    case Success(d) =>
      var updated := MarkAllProcessed(marked, id, d);
      ClipState(updated, st.settings, false, ComputeStats(updated, localDay, now))
    case Failure(msg) =>
      ClipState(MarkAllFailed(marked, id, msg), st.settings, false, st.stats)
  }

  /** The three `set` calls of a retry that map over the items. */
  function MarkAllProcessing(items: seq<ClipboardItem>, id: string, provider: string): seq<ClipboardItem> {
    UpdateWhere(items, id, x => MarkProcessing(x, provider))
  }

  function MarkAllProcessed(items: seq<ClipboardItem>, id: string, d: ProcessedData): seq<ClipboardItem> {
    UpdateWhere(items, id, x => MarkProcessed(x, d))
  }

  function MarkAllFailed(items: seq<ClipboardItem>, id: string, msg: string): seq<ClipboardItem> {
    UpdateWhere(items, id, x => MarkFailed(x, msg))
  }

  /** The item `addItem` creates. */
  function NewItem(text: string, now: int, settings: AppSettings): (r: ClipboardItem)
    ensures r.status == Pending && r.originalText == text && r.processedData.None?
    ensures r.aiProvider == Some(settings.aiProvider) && r.timestamp == now
    ensures r.id == IntToString(now) && r.error.None?
  {
    ClipboardItem(IntToString(now), text, None, now, Pending, None, Some(settings.aiProvider))
  }

  /** `addItem(text)`: the new item first, then processed when enabled.
      `now` is the instant of capture, which gives the id and the
      timestamp; `done` is the instant processing finished, which the
      statistics count from. */
  function Add(st: ClipState, text: string, now: int, done: int, env: Environment,
               localDay: int -> int): (r: ClipState)
    ensures |r.items| == |st.items| + 1 && r.settings == st.settings
    ensures r.items[0].id == IntToString(now) && r.items[0].originalText == text && r.items[0].timestamp == now
    ensures SameCaptures(r.items[1..], st.items)
  {
    var added := st.(items := [NewItem(text, now, st.settings)] + st.items);
    if st.settings.processingEnabled then Retry(added, IntToString(now), env, localDay, done) else added
  }

  /** The fields of a settings patch that are present. */
  datatype SettingsPatch = SettingsPatch(
    theme: Option<Theme>, notifications: Option<bool>, customPrompt: Option<string>,
    processingEnabled: Option<bool>, aiProvider: Option<string>, openaiApiKey: Option<string>,
    geminiApiKey: Option<string>, openaiModel: Option<string>, geminiModel: Option<string>)

  /** `{ ...settings, ...patch }`. */
  function Merge(s: AppSettings, p: SettingsPatch): (r: AppSettings)
    ensures r.theme == p.theme.GetOr(s.theme) && r.notifications == p.notifications.GetOr(s.notifications)
    ensures r.customPrompt == p.customPrompt.GetOr(s.customPrompt)
    ensures r.processingEnabled == p.processingEnabled.GetOr(s.processingEnabled)
    ensures r.aiProvider == p.aiProvider.GetOr(s.aiProvider)
    ensures r.openaiApiKey == p.openaiApiKey.GetOr(s.openaiApiKey)
    ensures r.geminiApiKey == p.geminiApiKey.GetOr(s.geminiApiKey)
    ensures r.openaiModel == p.openaiModel.GetOr(s.openaiModel)
    ensures r.geminiModel == p.geminiModel.GetOr(s.geminiModel)
  {
    AppSettings(p.theme.GetOr(s.theme), p.notifications.GetOr(s.notifications),
                p.customPrompt.GetOr(s.customPrompt), p.processingEnabled.GetOr(s.processingEnabled),
                p.aiProvider.GetOr(s.aiProvider), p.openaiApiKey.GetOr(s.openaiApiKey),
                p.geminiApiKey.GetOr(s.geminiApiKey), p.openaiModel.GetOr(s.openaiModel),
                p.geminiModel.GetOr(s.geminiModel))
  }

  // ---------------------------------------------------------------------
  // The store

  class ClipboardStore {
    var items: seq<ClipboardItem>
    var settings: AppSettings
    var isProcessing: bool
    var stats: Stats

    function State(): ClipState
      reads this
    {
      ClipState(items, settings, isProcessing, stats)
    }

    constructor()
      ensures State() == InitialState
    {
      items := [];
      settings := DefaultSettings;
      isProcessing := false;
      stats := Stats(0, 100);
    }

    method AddItem(text: string, now: int, done: int, env: Environment, localDay: int -> int)
      modifies this
      ensures State() == Add(old(State()), text, now, done, env, localDay)
    {
      var newItem := ClipboardItem(IntToString(now), text, None, now, Pending, None, Some(settings.aiProvider));
      items := [newItem] + items;
      if settings.processingEnabled {
        RetryItem(newItem.id, env, localDay, done);
      }
    }

    method RemoveItem(id: string)
      modifies this
      ensures State() == old(State()).(items := RemoveId(old(items), id))
    {
      items := RemoveId(items, id);
    }

    method ClearItems()
      modifies this
      ensures State() == old(State()).(items := [])
    {
      items := [];
    }

    method RetryItem(id: string, env: Environment, localDay: int -> int, now: int)
      modifies this
      ensures State() == Retry(old(State()), id, env, localDay, now)
    {
      var item := FindById(items, id);
      if item.None? {
        return;
      }
      ghost var before := State();
      var current := settings;
      Start(id);
      var outcome := ProcessText(item.value.originalText, current.customPrompt, current, env);
      RetrySettles(before, id, env, localDay, now, outcome);
      Settle(before, id, outcome, localDay, now);
    }

    /** The first `set` of a retry: the items with the id are marked as
        processing with the current provider, and the flag goes up. */
    method Start(id: string)
      modifies this
      ensures items == MarkAllProcessing(old(items), id, settings.aiProvider)
      ensures settings == old(settings) && stats == old(stats) && isProcessing
    {
      items := MarkAllProcessing(items, id, settings.aiProvider);
      isProcessing := true;
    }

    /** The second `set` of a retry, once processing has produced `outcome`. */
    method Settle(ghost before: ClipState, id: string, outcome: Result<ProcessedData, string>,
                  localDay: int -> int, now: int)
      requires items == MarkAllProcessing(before.items, id, before.settings.aiProvider)
      requires settings == before.settings && stats == before.stats
      modifies this
      ensures State() == ApplyOutcome(before, id, outcome, localDay, now)
    {
      match outcome
      case Success(d) =>
        items := MarkAllProcessed(items, id, d);
        isProcessing := false;
        stats := ComputeStats(items, localDay, now);
      case Failure(msg) =>
        items := MarkAllFailed(items, id, msg);
        isProcessing := false;
    }

    method UpdateSettings(patch: SettingsPatch)
      modifies this
      ensures State() == old(State()).(settings := Merge(old(settings), patch))
    {
      settings := Merge(settings, patch);
    }

    /** `getItemById`, which changes nothing: an item with the id when
        there is one. */
    function GetItemById(id: string): (r: Option<ClipboardItem>)
      reads this
      ensures r.Some? ==> r.value in items && r.value.id == id
      ensures r.None? ==> forall i :: 0 <= i < |items| ==> items[i].id != id
    {
      FindById(items, id)
    }
  }

  // ---------------------------------------------------------------------
  // Properties

  /** A retry touches only the items with its id; each of them ends
      processed (data set, error cleared) or failed (message set, old data
      kept), carrying the provider of the retry; the flag is down again. */
  lemma RetryEffect(st: ClipState, id: string, env: Environment, localDay: int -> int, now: int)
    requires FindById(st.items, id).Some?
    ensures var r := Retry(st, id, env, localDay, now);
            var outcome := ProcessTextResult(FindById(st.items, id).value.originalText,
                                             st.settings.customPrompt, st.settings, env);
            && |r.items| == |st.items| && r.settings == st.settings && !r.isProcessing
            && (forall i :: 0 <= i < |st.items| && st.items[i].id != id ==> r.items[i] == st.items[i])
            && (forall i :: 0 <= i < |st.items| && st.items[i].id == id ==>
                  r.items[i].aiProvider == Some(st.settings.aiProvider)
                  && r.items[i].originalText == st.items[i].originalText
                  && r.items[i].timestamp == st.items[i].timestamp
                  && (outcome.Success? ==> r.items[i].status == ClipTypes.Processed
                                           && r.items[i].processedData == Some(outcome.value)
                                           && r.items[i].error.None?)
                  && (outcome.Failure? ==> r.items[i].status == ClipTypes.Failed
                                           && r.items[i].error == Some(outcome.error)
                                           && r.items[i].processedData == st.items[i].processedData))
            && (outcome.Failure? ==> r.stats == st.stats)
  {
    var outcome := ProcessTextResult(FindById(st.items, id).value.originalText,
                                     st.settings.customPrompt, st.settings, env);
    RetryApplies(st, id, env, localDay, now);
    OutcomeEffect(st, id, outcome, localDay, now);
  }

  /** `RetryApplies` for the outcome the processing produced. */
  lemma RetrySettles(st: ClipState, id: string, env: Environment, localDay: int -> int, now: int,
                     outcome: Result<ProcessedData, string>)
    requires FindById(st.items, id).Some?
    requires outcome == ProcessTextResult(FindById(st.items, id).value.originalText,
                                          st.settings.customPrompt, st.settings, env)
    ensures Retry(st, id, env, localDay, now) == ApplyOutcome(st, id, outcome, localDay, now)
  {
    RetryApplies(st, id, env, localDay, now);
  }

  /** A retry of an id some item has applies the outcome of processing the
      text of the first such item. */
  lemma RetryApplies(st: ClipState, id: string, env: Environment, localDay: int -> int, now: int)
    requires FindById(st.items, id).Some?
    ensures Retry(st, id, env, localDay, now) ==
              ApplyOutcome(st, id, ProcessTextResult(FindById(st.items, id).value.originalText,
                                                     st.settings.customPrompt, st.settings, env),
                           localDay, now)
  {
  }

  /** `RetryEffect` for any outcome. */
  lemma OutcomeEffect(st: ClipState, id: string, outcome: Result<ProcessedData, string>,
                      localDay: int -> int, now: int)
    ensures var r := ApplyOutcome(st, id, outcome, localDay, now);
            && |r.items| == |st.items| && r.settings == st.settings && !r.isProcessing
            && (forall i :: 0 <= i < |st.items| && st.items[i].id != id ==> r.items[i] == st.items[i])
            && (forall i :: 0 <= i < |st.items| && st.items[i].id == id ==>
                  r.items[i].aiProvider == Some(st.settings.aiProvider)
                  && r.items[i].originalText == st.items[i].originalText
                  && r.items[i].timestamp == st.items[i].timestamp
                  && (outcome.Success? ==> r.items[i].status == ClipTypes.Processed
                                           && r.items[i].processedData == Some(outcome.value)
                                           && r.items[i].error.None?)
                  && (outcome.Failure? ==> r.items[i].status == ClipTypes.Failed
                                           && r.items[i].error == Some(outcome.error)
                                           && r.items[i].processedData == st.items[i].processedData))
            && (outcome.Failure? ==> r.stats == st.stats)
  {
  }

  /** Retrying an id no item has changes nothing. */
  lemma RetryAbsent(st: ClipState, id: string, env: Environment, localDay: int -> int, now: int)
    requires forall i :: 0 <= i < |st.items| ==> st.items[i].id != id
    ensures Retry(st, id, env, localDay, now) == st
  {
  }

  /** Adding puts one pending item first, with the current provider, and
      keeps the others in order; nothing else changes when processing is
      disabled. */
  lemma AddPrepends(st: ClipState, text: string, now: int, done: int, env: Environment,
                    localDay: int -> int)
    requires !st.settings.processingEnabled
    ensures var r := Add(st, text, now, done, env, localDay);
            && r.items[1..] == st.items && r.items[0].status == Pending
            && r.items[0].aiProvider == Some(st.settings.aiProvider)
            && r.settings == st.settings && r.stats == st.stats && r.isProcessing == st.isProcessing
  {
  }

  /** With processing enabled and an id no older item has, the older items
      are untouched and the new one ends processed or failed. */
  lemma AddProcesses(st: ClipState, text: string, now: int, done: int, env: Environment,
                     localDay: int -> int)
    requires st.settings.processingEnabled
    requires forall i :: 0 <= i < |st.items| ==> st.items[i].id != IntToString(now)
    ensures var r := Add(st, text, now, done, env, localDay);
            && |r.items| == |st.items| + 1 && r.items[1..] == st.items
            && (r.items[0].status == ClipTypes.Processed || r.items[0].status == ClipTypes.Failed)
            && r.items[0].originalText == text
  {
    var item := NewItem(text, now, st.settings);
    RetryFresh(st, item, env, localDay, done);
  }

  /** Retrying a new first item whose id no other item has leaves the
      other items as they were. */
  lemma RetryFresh(st: ClipState, item: ClipboardItem, env: Environment, localDay: int -> int, now: int)
    requires forall i :: 0 <= i < |st.items| ==> st.items[i].id != item.id
    ensures var r := Retry(st.(items := [item] + st.items), item.id, env, localDay, now);
            && |r.items| == |st.items| + 1 && r.items[1..] == st.items
            && (r.items[0].status == ClipTypes.Processed || r.items[0].status == ClipTypes.Failed)
            && r.items[0].originalText == item.originalText
  {
    var added := st.(items := [item] + st.items);
    FindFirst(added.items, item.id, 0);
    var outcome := ProcessTextResult(item.originalText, st.settings.customPrompt, st.settings, env);
    assert Retry(added, item.id, env, localDay, now) == ApplyOutcome(added, item.id, outcome, localDay, now);
    OutcomeFresh(st, item, outcome, localDay, now);
  }

  /** `RetryFresh` for any outcome. */
  lemma OutcomeFresh(st: ClipState, item: ClipboardItem, outcome: Result<ProcessedData, string>,
                     localDay: int -> int, now: int)
    requires forall i :: 0 <= i < |st.items| ==> st.items[i].id != item.id
    ensures var r := ApplyOutcome(st.(items := [item] + st.items), item.id, outcome, localDay, now);
            && |r.items| == |st.items| + 1 && r.items[1..] == st.items
            && (r.items[0].status == ClipTypes.Processed || r.items[0].status == ClipTypes.Failed)
            && r.items[0].originalText == item.originalText
  {
    var added := st.(items := [item] + st.items);
    OutcomeEffect(added, item.id, outcome, localDay, now);
    var r := ApplyOutcome(added, item.id, outcome, localDay, now);
    assert r.items[1..] == st.items by {
      assert forall i :: 1 <= i < |r.items| ==> r.items[i] == added.items[i] == st.items[i - 1];
    }
  }

  /** A failed item that is retried successfully ends processed, with its
      error cleared and the provider of the retry. */
  lemma RetryAfterFailure(st: ClipState, i: nat, env: Environment, localDay: int -> int, now: int)
    requires i < |st.items| && st.items[i].status == ClipTypes.Failed
    requires FindById(st.items, st.items[i].id) == Some(st.items[i])
    requires ProcessTextResult(st.items[i].originalText, st.settings.customPrompt, st.settings, env).Success?
    ensures var r := Retry(st, st.items[i].id, env, localDay, now);
            r.items[i].status == ClipTypes.Processed && r.items[i].error.None?
            && r.items[i].processedData.Some? && r.items[i].aiProvider == Some(st.settings.aiProvider)
  {
    RetryEffect(st, st.items[i].id, env, localDay, now);
  }

  /** `getItemById` finds the first item with the id. */
  lemma FindFirst(items: seq<ClipboardItem>, id: string, i: nat)
    requires i < |items| && items[i].id == id
    requires forall j :: 0 <= j < i ==> items[j].id != id
    ensures FindById(items, id) == Some(items[i])
  {
    var r := FindById(items, id);
    var k :| 0 <= k < |items| && items[k] == r.value && r.value.id == id
             && forall j :: 0 <= j < k ==> items[j].id != id;
    assert k == i;
  }
}
