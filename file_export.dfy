/** The export generators of utils/file-helper.ts: plain text, CSV and the
    record behind the JSON export, and the tier gate in front of them.
    `toLocaleString` and `toISOString` of a timestamp are the parameters
    `locale` and `iso`; writing and sharing the file is the parameter
    `share`. */
module FileExport {
  import opened Wrappers
  import opened JsText
  import opened ClipTypes
  import opened ResponseParser
  import Subscription

  // ---------------------------------------------------------------------
  // CSV

  /** `s.replace(/"/g, '""')`. */
  function DoubleQuotes(s: string): (r: string)
    ensures |r| == |s| + QuoteCount(s)
  {
    if |s| == 0 then ""
    else (if s[0] == '"' then "\"\"" else [s[0]]) + DoubleQuotes(s[1..])
  }

  function QuoteCount(s: string): nat {
    if |s| == 0 then 0 else (if s[0] == '"' then 1 else 0) + QuoteCount(s[1..])
  }

  /** `escapeCsv`: the text quoted, its quotes doubled. */
  function EscapeCsv(s: string): (r: string)
    ensures |r| == |s| + 2 + QuoteCount(s)
    ensures r[0] == '"' && r[|r| - 1] == '"'
  {
    "\"" + DoubleQuotes(s) + "\""
  }

  /** Reads back a doubled-quote body: `None` where a quote is not doubled. */
  function UndoubleQuotes(t: string): Option<string>
    decreases |t|
  {
    if |t| == 0 then Some("")
    else if t[0] != '"' then
      match UndoubleQuotes(t[1..]) case Some(r) => Some([t[0]] + r) case None => None
    else if |t| >= 2 && t[1] == '"' then
      match UndoubleQuotes(t[2..]) case Some(r) => Some("\"" + r) case None => None
    else None
  }

  /** Reads a quoted CSV field back. */
  function UnescapeCsv(t: string): Option<string> {
    if |t| >= 2 && t[0] == '"' && t[|t| - 1] == '"' then UndoubleQuotes(t[1..|t| - 1]) else None
  }

  lemma {:induction false} UndoubleDouble(s: string)
    ensures UndoubleQuotes(DoubleQuotes(s)) == Some(s)
  {
    if |s| > 0 {
      UndoubleDouble(s[1..]);
      var d := DoubleQuotes(s);
      if s[0] == '"' {
        assert d == "\"\"" + DoubleQuotes(s[1..]);
        assert d[2..] == DoubleQuotes(s[1..]);
      } else {
        assert d == [s[0]] + DoubleQuotes(s[1..]);
        assert d[1..] == DoubleQuotes(s[1..]);
      }
      assert s == [s[0]] + s[1..];
    }
  }

  /** Every text survives quoting: unquoting gives it back. */
  lemma EscapeCsvRoundTrip(s: string)
    ensures UnescapeCsv(EscapeCsv(s)) == Some(s)
  {
    var e := EscapeCsv(s);
    assert e[1..|e| - 1] == DoubleQuotes(s);
    UndoubleDouble(s);
  }

  const CsvHeader := "ID,Timestamp,Date,Status,AI Provider,Topic,Intent,Entities,Categories,Action Items,Original Text\n"

  const CsvWatermark := "\n\"Generated with AI Clipboard Free Version. Upgrade to Premium for more features.\"\n"

  /** The eleven fields of an item's row: identity, time, status and
      provider as they are, the rest quoted; list fields joined by `|`; all
      analysis fields empty when there is no analysis. */
  function CsvFields(item: ClipboardItem, iso: int -> string): (r: seq<string>)
    ensures |r| == 11 && r[0] == item.id && r[3] == StatusName(item.status)
  {
    var d := item.processedData;
    var topic := if d.Some? then d.value.topic else "";
    var intent := if d.Some? then d.value.intent else "";
    var entities := if d.Some? then Join(d.value.entities, "|") else "";
    var categories := if d.Some? then Join(d.value.categories, "|") else "";
    var actionItems := if d.Some? then Join(d.value.actionItems, "|") else "";
    [item.id, IntToString(item.timestamp), iso(item.timestamp), StatusName(item.status),
     OrElse(item.aiProvider, ""),
     EscapeCsv(topic), EscapeCsv(intent), EscapeCsv(entities), EscapeCsv(categories),
     EscapeCsv(actionItems), EscapeCsv(item.originalText)]
  }

  /** A row has one field per header column; identity and status are
      written as they are; without an analysis the five analysis fields are
      empty quoted fields; every quoted field reads back as the text it
      carries. */
  lemma CsvFieldsShape(item: ClipboardItem, iso: int -> string)
    ensures var f := CsvFields(item, iso);
            && |f| == 11 && f[0] == item.id && f[1] == IntToString(item.timestamp)
            && f[2] == iso(item.timestamp) && f[3] == StatusName(item.status)
            && f[4] == OrElse(item.aiProvider, "")
            && (item.processedData.None? ==> forall k :: 5 <= k < 10 ==> f[k] == EscapeCsv(""))
            && UnescapeCsv(f[10]) == Some(item.originalText)
            && (item.processedData.Some? ==>
                  && UnescapeCsv(f[5]) == Some(item.processedData.value.topic)
                  && UnescapeCsv(f[6]) == Some(item.processedData.value.intent)
                  && UnescapeCsv(f[7]) == Some(Join(item.processedData.value.entities, "|")))
  {
    var f := CsvFields(item, iso);
    EscapeCsvRoundTrip(item.originalText);
    if item.processedData.Some? {
      var d := item.processedData.value;
      assert f[5] == EscapeCsv(d.topic) && f[6] == EscapeCsv(d.intent) && f[7] == EscapeCsv(Join(d.entities, "|"));
      EscapeCsvRoundTrip(d.topic);
      EscapeCsvRoundTrip(d.intent);
      EscapeCsvRoundTrip(Join(d.entities, "|"));
    }
  }

  function CsvRow(item: ClipboardItem, iso: int -> string): string {
    Join(CsvFields(item, iso), ",") + "\n"
  }

  /** The concatenation of `f(x)` over the elements, in order. */
  function Rows<T>(xs: seq<T>, f: T -> string): string {
    if |xs| == 0 then "" else Rows(xs[..|xs| - 1], f) + f(xs[|xs| - 1])
  }

  /** Rows of a concatenation are the rows of each part, in order. */
  lemma {:induction false} RowsAppend<T>(a: seq<T>, b: seq<T>, f: T -> string)
    ensures Rows(a + b, f) == Rows(a, f) + Rows(b, f)
    decreases |b|
  {
    if |b| > 0 {
      var b' := b[..|b| - 1];
      assert (a + b)[..|a + b| - 1] == a + b';
      assert (a + b)[|a + b| - 1] == b[|b| - 1];
      RowsAppend(a, b', f);
    } else {
      assert a + b == a;
    }
  }

  /** The concatenation of `f(n, x)` over the elements, `n` their position counted from 1. */
  function Numbered<T>(xs: seq<T>, f: (nat, T) -> string): string {
    if |xs| == 0 then "" else Numbered(xs[..|xs| - 1], f) + f(|xs|, xs[|xs| - 1])
  }

  function CsvRows(items: seq<ClipboardItem>, iso: int -> string): string {
    Rows(items, item => CsvRow(item, iso))
  }

  /** The CSV document: the header, a row per item in order, the watermark line when asked for. */
  function CsvDocument(items: seq<ClipboardItem>, watermark: bool, iso: int -> string): (r: string)
    ensures watermark ==> r == CsvHeader + CsvRows(items, iso) + CsvWatermark
    ensures !watermark ==> r == CsvHeader + CsvRows(items, iso)
  {
    CsvHeader + CsvRows(items, iso) + (if watermark then CsvWatermark else "")
  }

  /** Exporting two lists one after the other gives the rows of the joined list. */
  lemma CsvRowsAppend(a: seq<ClipboardItem>, b: seq<ClipboardItem>, iso: int -> string)
    ensures CsvRows(a + b, iso) == CsvRows(a, iso) + CsvRows(b, iso)
    ensures |b| == 1 ==> CsvRows(a + b, iso) == CsvRows(a, iso) + CsvRow(b[0], iso)
  {
    RowsAppend(a, b, item => CsvRow(item, iso));
    if |b| == 1 {
      assert b[..0] == [];
    }
  }

  /** The rows of a prefix one item longer end with that item's row. */
  lemma CsvRowsSnoc(items: seq<ClipboardItem>, i: nat, iso: int -> string)
    requires i < |items|
    ensures CsvRows(items[..i + 1], iso) == CsvRows(items[..i], iso) + CsvRow(items[i], iso)
  {
    assert items[..i + 1][..i] == items[..i];
  }

  /** `generateCsvContent`: the header, then one `+=` per item, then the watermark. */
  method GenerateCsvContent(items: seq<ClipboardItem>, includeWatermark: bool, iso: int -> string)
    returns (content: string)
    ensures content == CsvDocument(items, includeWatermark, iso)
  {
    content := CsvHeader;
    var i := 0;
    while i < |items|
      invariant 0 <= i <= |items|
      invariant content == CsvHeader + CsvRows(items[..i], iso)
    {
      CsvRowsSnoc(items, i, iso);
      Assoc(CsvHeader, CsvRows(items[..i], iso), CsvRow(items[i], iso));
      content := content + CsvRow(items[i], iso);
      i := i + 1;
    }
    assert items[..|items|] == items;
    if includeWatermark {
      content := content + CsvWatermark;
    }
  }

  // ---------------------------------------------------------------------
  // Plain text

  const TxtWatermark := "\nGenerated with AI Clipboard Free Version. Upgrade to Premium for more features.\n"

  const SectionEnd := "\n---\n\n"

  function TxtHeader(generatedAt: string): string {
    "# AI Clipboard Export\n" + ("# Generated on " + generatedAt + "\n\n")
  }

  function ActionLine(action: string): string {
    "- " + action + "\n"
  }

  /** `- x` lines, one per action item. */
  function ActionLines(actions: seq<string>): string {
    Rows(actions, ActionLine)
  }

  function TopicLine(d: ProcessedData): string { "Topic: " + d.topic + "\n" }

  function IntentLine(d: ProcessedData): string { "Intent: " + d.intent + "\n" }

  function EntitiesLine(d: ProcessedData): string {
    if |d.entities| > 0 then "Entities: " + Join(d.entities, ", ") + "\n" else ""
  }

  function CategoriesLine(d: ProcessedData): string {
    if |d.categories| > 0 then "Categories: " + Join(d.categories, ", ") + "\n" else ""
  }

  function ActionBlock(d: ProcessedData): string {
    if |d.actionItems| > 0 then "Action Items:\n" + ActionLines(d.actionItems) else ""
  }

  /** The lines of an item's analysis: topic and intent; entities and
      categories only when there are some; the action items under a heading
      when there are some. */
  function AnalysisLines(d: ProcessedData): string {
    TopicLine(d) + IntentLine(d) + EntitiesLine(d) + CategoriesLine(d) + ActionBlock(d)
  }

  function ItemHeading(n: nat): string { "## Item " + NatToString(n) + "\n" }

  function DateLine(item: ClipboardItem, locale: int -> string): string {
    "Date: " + locale(item.timestamp) + "\n"
  }

  function StatusLine(item: ClipboardItem): string { "Status: " + StatusName(item.status) + "\n" }

  /** A missing or empty provider reads `Unknown`. */
  function ProviderLine(item: ClipboardItem): string {
    "AI Provider: " + OrElse(item.aiProvider, "Unknown") + "\n\n"
  }

  function OriginalBlock(item: ClipboardItem): string { "Original Text:\n" + item.originalText + "\n\n" }

  function AnalysisBlock(item: ClipboardItem): string {
    if item.processedData.Some? then AnalysisLines(item.processedData.value) else ""
  }

  /** The section of the item at position `n` (counting from 1). */
  function ItemSection(item: ClipboardItem, n: nat, locale: int -> string): string {
    ItemHeading(n) + DateLine(item, locale) + StatusLine(item) + ProviderLine(item)
    + OriginalBlock(item) + AnalysisBlock(item) + SectionEnd
  }

  /** An item's section opens with its numbered heading and closes with
      the separator. */
  lemma ItemSectionFrame(item: ClipboardItem, n: nat, locale: int -> string)
    ensures var r := ItemSection(item, n, locale);
            && |ItemHeading(n)| + |SectionEnd| <= |r|
            && r[..|ItemHeading(n)|] == ItemHeading(n) && r[|r| - |SectionEnd|..] == SectionEnd
  {
    var m := ItemHeading(n) + DateLine(item, locale) + StatusLine(item) + ProviderLine(item)
             + OriginalBlock(item) + AnalysisBlock(item);
    PrefixOfAppend(ItemHeading(n), DateLine(item, locale), StatusLine(item), ProviderLine(item),
                   OriginalBlock(item), AnalysisBlock(item));
    PrefixOfAppend(m, SectionEnd, "", "", "", "");
    assert m + SectionEnd + "" + "" + "" + "" == m + SectionEnd;
  }

  /** The first piece of a concatenation is its prefix. */
  lemma PrefixOfAppend(a: string, b: string, c: string, d: string, e: string, f: string)
    ensures var r := a + b + c + d + e + f;
            |a| <= |r| && r[..|a|] == a && r[|r| - |f|..] == f
  {
  }

  function Sections(items: seq<ClipboardItem>, locale: int -> string): string {
    Numbered(items, (n, item) => ItemSection(item, n, locale))
  }

  /** The text document: the header, a numbered section per item in order,
      the watermark line when asked for. */
  function TxtDocument(items: seq<ClipboardItem>, watermark: bool, generatedAt: string,
                       locale: int -> string): (r: string)
    ensures watermark ==> r == TxtHeader(generatedAt) + Sections(items, locale) + TxtWatermark
    ensures !watermark ==> r == TxtHeader(generatedAt) + Sections(items, locale)
  {
    TxtHeader(generatedAt) + Sections(items, locale) + (if watermark then TxtWatermark else "")
  }

  /** One more item adds one more section at the end, numbered after the
      others, and every section ends with the separator. */
  lemma SectionsSnoc(items: seq<ClipboardItem>, item: ClipboardItem, locale: int -> string)
    ensures Sections(items + [item], locale) == Sections(items, locale) + ItemSection(item, |items| + 1, locale)
    ensures var s := ItemSection(item, |items| + 1, locale);
            |s| >= |SectionEnd| && s[|s| - |SectionEnd|..] == SectionEnd
  {
    assert (items + [item])[..|items|] == items;
  }

  /** The inner `forEach` over the action items. */
  method AppendActionLines(content: string, actions: seq<string>) returns (r: string)
    ensures r == content + ActionLines(actions)
  {
    r := content;
    var j := 0;
    while j < |actions|
      invariant 0 <= j <= |actions|
      invariant r == content + ActionLines(actions[..j])
    {
      assert actions[..j + 1] == actions[..j] + [actions[j]];
      RowsAppend(actions[..j], [actions[j]], ActionLine);
      assert [actions[j]][..0] == [];
      r := r + "- " + actions[j] + "\n";
      j := j + 1;
    }
    assert actions[..j] == actions;
  }

  lemma Assoc(x: string, y: string, z: string)
    ensures x + y + z == x + (y + z)
  {
  }

  /** The `if (item.processedData)` block: one `+=` per line. */
  method AppendAnalysis(content: string, d: ProcessedData) returns (r: string)
    ensures r == content + AnalysisLines(d)
  {
    r := content + TopicLine(d);
    var done := TopicLine(d);
    Assoc(content, done, IntentLine(d));
    r := r + IntentLine(d);
    done := done + IntentLine(d);
    assert r == content + done;
    Assoc(content, done, EntitiesLine(d));
    if |d.entities| > 0 {
      r := r + EntitiesLine(d);
    }
    done := done + EntitiesLine(d);
    assert r == content + done;
    Assoc(content, done, CategoriesLine(d));
    if |d.categories| > 0 {
      r := r + CategoriesLine(d);
    }
    done := done + CategoriesLine(d);
    assert r == content + done;
    Assoc(content, done, ActionBlock(d));
    if |d.actionItems| > 0 {
      r := r + "Action Items:\n";
      r := AppendActionLines(r, d.actionItems);
      Assoc(content + done, "Action Items:\n", ActionLines(d.actionItems));
    }
  }

  /** The body of the outer `forEach` for the item at position `n`. */
  method AppendSection(content: string, item: ClipboardItem, n: nat, locale: int -> string)
    returns (r: string)
    ensures r == content + ItemSection(item, n, locale)
  {
    r := content + ("## Item " + NatToString(n) + "\n");
    Assoc(content, ItemHeading(n), DateLine(item, locale));
    r := r + ("Date: " + locale(item.timestamp) + "\n");
    var s := ItemHeading(n) + DateLine(item, locale);
    Assoc(content, s, StatusLine(item));
    r := r + ("Status: " + StatusName(item.status) + "\n");
    s := s + StatusLine(item);
    Assoc(content, s, ProviderLine(item));
    r := r + ("AI Provider: " + OrElse(item.aiProvider, "Unknown") + "\n\n");
    s := s + ProviderLine(item);
    Assoc(content, s, OriginalBlock(item));
    r := r + ("Original Text:\n" + item.originalText + "\n\n");
    s := s + OriginalBlock(item);
    Assoc(content, s, AnalysisBlock(item));
    if item.processedData.Some? {
      r := AppendAnalysis(r, item.processedData.value);
    }
    s := s + AnalysisBlock(item);
    Assoc(content, s, SectionEnd);
    r := r + "\n---\n\n";
  }

  /** `generateTxtContent`: the header, a section per item, the watermark. */
  method GenerateTxtContent(items: seq<ClipboardItem>, includeWatermark: bool, now: int,
                            locale: int -> string) returns (content: string)
    ensures content == TxtDocument(items, includeWatermark, locale(now), locale)
  {
    content := "# AI Clipboard Export\n";
    content := content + ("# Generated on " + locale(now) + "\n\n");
    var i := 0;
    while i < |items|
      invariant 0 <= i <= |items|
      invariant content == TxtHeader(locale(now)) + Sections(items[..i], locale)
    {
      assert items[..i + 1] == items[..i] + [items[i]];
      SectionsSnoc(items[..i], items[i], locale);
      Assoc(TxtHeader(locale(now)), Sections(items[..i], locale), ItemSection(items[i], i + 1, locale));
      content := AppendSection(content, items[i], i + 1, locale);
      i := i + 1;
    }
    assert items[..|items|] == items;
    if includeWatermark {
      content := content + TxtWatermark;
    }
  }

  // ---------------------------------------------------------------------
  // JSON

  /** One exported item of the JSON record. */
  datatype ExportedItem = ExportedItem(
    id: string, timestamp: int, date: string, status: string,
    aiProvider: Option<string>, originalText: string, processedData: Option<ProcessedData>)

  /** The value `generateJsonContent` serialises. */
  datatype ExportRecord = ExportRecord(exportDate: string, items: seq<ExportedItem>,
                                       count: nat, watermark: Option<string>)

  const JsonWatermark := "Generated with AI Clipboard Free Version"

  function ExportItem(item: ClipboardItem, iso: int -> string): ExportedItem {
    ExportedItem(item.id, item.timestamp, iso(item.timestamp), StatusName(item.status),
                 item.aiProvider, item.originalText, item.processedData)
  }

  /** The record of the JSON export: every item in order with its
      analysis, the item count, and the watermark exactly when asked for. */
  function JsonRecord(items: seq<ClipboardItem>, includeWatermark: bool, now: int, iso: int -> string)
    : (r: ExportRecord)
    ensures r.count == |items| == |r.items|
    ensures forall i :: 0 <= i < |items| ==>
              && r.items[i].id == items[i].id
              && r.items[i].originalText == items[i].originalText
              && r.items[i].processedData == items[i].processedData
    ensures r.watermark.Some? <==> includeWatermark
  {
    ExportRecord(iso(now), seq(|items|, i requires 0 <= i < |items| => ExportItem(items[i], iso)),
                 |items|, if includeWatermark then Some(JsonWatermark) else None)
  }

  // ---------------------------------------------------------------------
  // The gate and the dispatch

  datatype FileContent = Text(text: string) | Json(record: ExportRecord)

  datatype ExportFile = ExportFile(content: FileContent, fileName: string, mimeType: string)

  /** `toISOString().replace(/[:.]/g, '-')`. */
  function FileStamp(s: string): (r: string)
    ensures |r| == |s|
    ensures forall i :: 0 <= i < |s| ==> r[i] == (if s[i] == ':' || s[i] == '.' then '-' else s[i])
  {
    seq(|s|, i requires 0 <= i < |s| => if s[i] == ':' || s[i] == '.' then '-' else s[i])
  }

  /** The file `exportClipboardItems` would write: none when the tier does
      not allow the format or the format is unknown. */
  function ExportPlan(items: seq<ClipboardItem>, format: string, tier: SubscriptionTier,
                      now: int, iso: int -> string, locale: int -> string): (r: Option<ExportFile>)
    ensures format !in tier.downloadFormats ==> r.None?
    ensures r.Some? <==> format in tier.downloadFormats && format in ["txt", "json", "csv"]
  {
    if format !in tier.downloadFormats then None
    else
      var stamp := FileStamp(iso(now));
      if format == "txt" then
        Some(ExportFile(Text(TxtDocument(items, tier.watermark, locale(now), locale)),
                        "clipboard-export-" + stamp + ".txt", "text/plain"))
      else if format == "json" then
        Some(ExportFile(Json(JsonRecord(items, tier.watermark, now, iso)),
                        "clipboard-export-" + stamp + ".json", "application/json"))
      else if format == "csv" then
        Some(ExportFile(Text(CsvDocument(items, tier.watermark, iso)),
                        "clipboard-export-" + stamp + ".csv", "text/csv"))
      else None
  }

  /** `exportClipboardItems`: false without writing anything when the gate
      refuses; otherwise what saving and sharing the file reports. */
  function ExportClipboardItems(items: seq<ClipboardItem>, format: string, tier: SubscriptionTier,
                                now: int, iso: int -> string, locale: int -> string,
                                share: ExportFile -> bool): (ok: bool)
    ensures format !in tier.downloadFormats ==> !ok
  {
    match ExportPlan(items, format, tier, now, iso, locale)
    case None => false
    case Some(f) => share(f)
  }

  /** `exportClipboardItems` reading the tier from the subscription store. */
  method ExportFromStore(store: Subscription.SubscriptionStore, items: seq<ClipboardItem>, format: string,
                         now: int, iso: int -> string, locale: int -> string,
                         share: ExportFile -> bool) returns (ok: bool)
    ensures ok == ExportClipboardItems(items, format, store.CurrentTier(), now, iso, locale, share)
    ensures !store.IsFormatAllowed(format) ==> !ok
  {
    var tier := store.CurrentTier();
    if format !in tier.downloadFormats {
      return false;
    }
    var plan := ExportPlan(items, format, tier, now, iso, locale);
    if plan.None? {
      return false;
    }
    ok := share(plan.value);
  }

  /** The watermark follows the tier: the exported content carries it
      exactly when the tier says so. */
  lemma ExportWatermark(items: seq<ClipboardItem>, format: string, tier: SubscriptionTier,
                        now: int, iso: int -> string, locale: int -> string)
    requires format in tier.downloadFormats
    ensures var r := ExportPlan(items, format, tier, now, iso, locale);
            && (format == "txt" ==> r.value.content == Text(TxtDocument(items, tier.watermark, locale(now), locale)))
            && (format == "csv" ==> r.value.content == Text(CsvDocument(items, tier.watermark, iso)))
            && (format == "json" ==> r.value.content.record.watermark.Some? == tier.watermark)
  {
  }

  /** The free tier exports plain text only, watermarked; the premium
      tier exports every format, without the watermark. */
  lemma TierExports(items: seq<ClipboardItem>, now: int, iso: int -> string, locale: int -> string)
    ensures ExportPlan(items, "json", Subscription.TierOf(Free), now, iso, locale).None?
    ensures ExportPlan(items, "csv", Subscription.TierOf(Free), now, iso, locale).None?
    ensures ExportPlan(items, "txt", Subscription.TierOf(Free), now, iso, locale)
              == Some(ExportFile(Text(TxtDocument(items, true, locale(now), locale)),
                                 "clipboard-export-" + FileStamp(iso(now)) + ".txt", "text/plain"))
    ensures ExportPlan(items, "csv", Subscription.TierOf(Premium), now, iso, locale)
              == Some(ExportFile(Text(CsvDocument(items, false, iso)),
                                 "clipboard-export-" + FileStamp(iso(now)) + ".csv", "text/csv"))
  {
    Subscription.TierTable();
  }
}
