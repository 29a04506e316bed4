# AI Clipboard: a Dafny model of the analysis pipeline and its stores

This project models the decision and state logic of the AI Clipboard mobile
app in Dafny. The app captures text from the clipboard and sends it to an AI
provider (OpenAI, Gemini or a local mock). It normalises the reply into a
record of topic, entities, intent, categories and action items. It keeps the
captured items in a store and exports them as text, JSON or CSV. A
subscription tier gates the exports.

The modules follow the source files:

| module | file | source |
|---|---|---|
| `Wrappers` | `wrappers.dfy` | `Option` and `Result` |
| `JsText` | `js_text.dfy` | JavaScript string built-ins: `trim`, `split`, `join`, `indexOf`, case-insensitive search, number-to-text |
| `ClipTypes` | `clip_types.dfy` | the records of `types/clipboard.ts` and `types/user.ts` |
| `ResponseParser` | `response_parser.dfy` | `parseAIResponse` of `utils/ai-service.ts` |
| `MockAi` | `mock_ai.dfy` | `mockProcessText` of `utils/ai-service.ts` |
| `AiService` | `ai_service.dfy` | `processText` and the two provider adapters of `utils/ai-service.ts` |
| `Subscription` | `subscription.dfy` | `store/subscription-store.ts` |
| `Clipboard` | `clipboard.dfy` | `store/clipboard-store.ts` |
| `FileExport` | `file_export.dfy` | `utils/file-helper.ts` |
| `DateFormat` | `date_format.dfy` | `formatTimeAgo` of `utils/date-formatter.ts` |
| `AuthForm` | `auth_form.dfy` | `validateForm` of `components/AuthForm.tsx` |
| `AuthStore` | `auth_store.dfy` | `store/auth-store.ts` |

**Form.** Each file's Dafny form follows the source.
- Expression code becomes functions: the dispatch, the parser, the truncation, the JSON record, the validator's checks and the time buckets.
- Code that updates state becomes classes whose methods change fields: the three stores and the form's error.
  - Each method is proved equal to a step function of the old state.
  - The properties are lemmas about those step functions.
- Code that builds a value step by step becomes methods with loops or `if`-chains, proved equal to a specification function.
  - Examples: the mock's `let intent` and `push` calls, and the `+=` loops of the text and CSV exports.

**Parameters.** Side effects are parameters:
- the HTTP exchange (a function from request to reply);
- `JSON.parse`;
- the mock's random failure and the random outcome of a restore (booleans);
- `Date.now()`, the current UTC day and the local-midnight function;
- `toLocaleString`, `toISOString` and `formatDate` (functions of a timestamp);
- generated identifiers;
- saving and sharing a file.

**Behaviour of the code worth noting:**
- **The JSON path of `parseAIResponse` never produces the result.**
  - The patterns on `utils/ai-service.ts:141` are double-escaped, so every extracted candidate begins with a backslash.
  - `JSON.parse` rejects such a text (section 2 of RFC 8259).
  - So every reply is read by the text branch (`ResponseParser.JsonBranchNeverTaken`), and no JSON round trip is claimed.
- **The outer `catch` of `parseAIResponse` cannot be reached for a string reply.** Its fallback record is not modelled. The truncation rule it shares with the mock is modelled (`MockAi.Truncate`).
- **Statistics are recomputed only after a successful processing.** A failure leaves them as they were (`Clipboard.RetryEffect`).
- **A failed retry keeps the item's previous `processedData`.**
- **Only an empty API key counts as missing.** A key of spaces is sent, and its failure carries the "processing failed" prefix.
- **A label that matches with an empty block yields an empty list, not the default.** The default applies only when no label matches.
- **A topic label followed by nothing yields an empty topic.**
- **A block label can fail to capture.** A labelled list block extends line by line over line feeds only. A carriage return or another line terminator before the block's stop leaves no capture, so that list takes its default even though the label occurs. With line feeds only, a block is captured wherever its label occurs (`ResponseParser.LabelBlock`).
- **The clipboard store never consults the subscription gate**, so the gate is modelled on its own.
- **Cancelling keeps the day's counter.** After a premium day the free tier can be over its allowance (`Subscription.CancelAfterPremiumDay`).

## Model

| member | source | states |
|---|---|---|
| JsText.TrimStart | components/AuthForm.tsx:37 | the part of `trim` that drops leading whitespace: a suffix of the input, everything dropped is whitespace, and what is kept does not start with whitespace |
| JsText.TrimEnd | components/AuthForm.tsx:37 | the part of `trim` that drops trailing whitespace: a prefix of the input, everything dropped is whitespace, and what is kept does not end with whitespace |
| JsText.Trim | components/AuthForm.tsx:37 | `trim` gives a string with no whitespace at either end; it is empty iff the input is all whitespace; a trimmed string is unchanged |
| JsText.TrimMiddle | components/AuthForm.tsx:37 | the result of `trim` is a contiguous middle of the input with only whitespace before and after it |
| JsText.TrimPadded | utils/ai-service.ts:168 | a non-empty trimmed text with any whitespace around it trims back to itself |
| JsText.Split | utils/ai-service.ts:159 | `split` on a one-character separator class: at least one piece, and no piece contains a separator |
| JsText.SplitAround | utils/ai-service.ts:168 | a separator character splits a text into the pieces before it followed by the pieces after it |
| JsText.SplitJoin | utils/ai-service.ts:168 | splitting pieces joined by a separator, none of which holds one, gives the pieces back |
| JsText.JoinSplit | utils/ai-service.ts:279 | joining the pieces of a split with the separator character gives the string back |
| JsText.LastIndexOf | utils/ai-service.ts:279 | the index found holds the character and no later index does; none means the character does not occur |
| JsText.Find | utils/ai-service.ts:33 | `indexOf`: the first index at or after the start where the pattern occurs; none when it occurs nowhere after it |
| JsText.FindCI | utils/ai-service.ts:236 | the first case-insensitive occurrence of a word, as the `i` flag compares letters |
| JsText.NatToStringRoundTrip | utils/file-helper.ts:30 | the decimal text of a number reads back as that number |
| JsText.IntToString | store/clipboard-store.ts:71 | `toString` of an integer: a non-empty text that starts with a minus sign iff the number is negative; the decimal digits of the number, after a minus sign when it is negative |
| JsText.IntToStringInjective | store/clipboard-store.ts:71 | different numbers have different texts, so ids made from different instants differ |
| ResponseParser.OrElse | utils/ai-service.ts:146 | `a \|\| b` on a string: `a` unless it is missing or empty |
| ResponseParser.JsonCandidate | utils/ai-service.ts:140-142 | whatever the double-escaped patterns extract begins with a backslash and is at least four characters long |
| ResponseParser.FindLast | utils/ai-service.ts:141 | the greedy pattern's closing position is a real occurrence at or after the start |
| ResponseParser.GreedyAlternativeFails | utils/ai-service.ts:141 | where the lazy pattern finds no closing `\}`, the greedy alternative finds none either |
| ResponseParser.LineEnd | utils/ai-service.ts:162 | a greedy `.*` stops at the first line terminator or the end |
| ResponseParser.SpaceEnd | utils/ai-service.ts:162 | a greedy `\s*` covers exactly the whitespace run |
| ResponseParser.BlockEnd | utils/ai-service.ts:166 | the lazy block ends at the first line feed followed by a blank line (or, for entities and categories, by a digit), or at the end of the text; no earlier line feed is such a stop; with `\n` as the only line terminator there is always an end |
| ResponseParser.BackOff | utils/ai-service.ts:166 | when `\n` is the only line terminator, `\s*` backing off captures exactly the block whose first line starts at the end of the whitespace run (`BlockFrom`) |
| ResponseParser.BlockAt | utils/ai-service.ts:166 | when `\n` is the only line terminator, the pattern matches at every occurrence of its label and captures the block starting past the label, its optional `:` and the whitespace run |
| ResponseParser.LabelBlockFrom | utils/ai-service.ts:166 | with `\n` the only line terminator, a capture exists iff the label occurs at or after the start, and it is the block after the first such occurrence |
| ResponseParser.LabelBlock | utils/ai-service.ts:166 | a labelled block is captured only when the label occurs; with `\n` the only line terminator, whenever it occurs, and the capture is the block after its first occurrence (`Captures`) |
| ResponseParser.LabelLine | utils/ai-service.ts:162 | a labelled line matches iff the label occurs; the capture is the rest of the line from past the first occurrence, its optional `:` and the whitespace run, so it holds no line terminator and does not start with whitespace |
| ResponseParser.DropEmpty | utils/ai-service.ts:168 | `filter(Boolean)`: an item is kept iff it is in the input and non-empty; nothing is dropped when none is empty |
| ResponseParser.DropEmptyAppend | utils/ai-service.ts:168 | the filter keeps order: it works piece by piece, and a single item is kept iff it is non-empty |
| ResponseParser.TrimAllAppend | utils/ai-service.ts:168 | `map(trim)` works piece by piece, so order and count are kept |
| ResponseParser.ListItems | utils/ai-service.ts:168 | `split(/[,\n]/).map(trim).filter(Boolean)`: every entity or category is non-empty, trimmed, and holds no comma and no line feed; its items are fixed by `ListItemsSplit` and `ListItemsPiece` |
| ResponseParser.ListItemsSplit | utils/ai-service.ts:168 | a comma or line feed in a block ends one item and starts the next: the items of the whole are those of each side, in order |
| ResponseParser.ListItemsPiece | utils/ai-service.ts:168 | text without a comma or line feed gives its trimmed self as the single item, or nothing when it is blank |
| ResponseParser.ListItemsRoundTrip | utils/ai-service.ts:168 | clean, comma-free items written as `xs.join(', ')` are read back as exactly `xs` |
| ResponseParser.StripBullet | utils/ai-service.ts:186 | exactly one leading `-`, `*` or `•` is removed, and nothing else changes |
| ResponseParser.ActionList | utils/ai-service.ts:186 | `split(/\n/)`, bullet removal, `trim` and `filter(Boolean)`: an action item is non-empty, trimmed and on one line; its items are fixed by `ActionListSplit` and `ActionListLine` |
| ResponseParser.ActionListSplit | utils/ai-service.ts:186 | a line feed ends one action item and starts the next: the items of the whole are those of each side, in order |
| ResponseParser.ActionListLine | utils/ai-service.ts:186 | one line gives one item, with its leading bullet removed and trimmed, or nothing when that leaves nothing |
| ResponseParser.ActionListRoundTrip | utils/ai-service.ts:186 | clean items written one `- item` per line are read back as exactly those items |
| ResponseParser.FirstNonBlankLine | utils/ai-service.ts:159-163 | a line of the reply that is not blank after trimming; none only when every line is blank |
| ResponseParser.FirstNonBlankLineIsFirst | utils/ai-service.ts:159-163 | `lines[0]` after the filter is the first line that is not blank |
| ResponseParser.TopicOf | utils/ai-service.ts:162-163 | the topic is the trimmed `topic` line when that label occurs, else the trimmed `subject` line; it is empty only when one of the labels occurs |
| ResponseParser.IntentOf | utils/ai-service.ts:172-173 | the intent is the trimmed `intent` line when that label occurs, else the trimmed `purpose` line, else `note`; it is always trimmed |
| ResponseParser.EntitiesBlock | utils/ai-service.ts:166 | captured only when `entities` occurs; with `\n` the only line terminator, whenever it occurs, capturing the block after its first occurrence up to a blank line or a digit-initial line |
| ResponseParser.CategoriesBlock | utils/ai-service.ts:176-177 | captured only when `categories` or `tags` occurs; with `\n` the only line terminator, the block after the first `categories`, or after the first `tags` when `categories` is absent |
| ResponseParser.ActionItemsBlock | utils/ai-service.ts:183-184 | captured only when `action items` or `actions` occurs; with `\n` the only line terminator, the block after the first `action items`, or after the first `actions` when that is absent, up to a blank line |
| ResponseParser.TextParse | utils/ai-service.ts:159-195 | the text branch's intent is trimmed and its topic is empty only when a topic label occurs |
| ResponseParser.ParseAIResponse | utils/ai-service.ts:137-195 | without both braces, or without an extracted candidate, the reply is read by the text branch |
| ResponseParser.JsonBranchNeverTaken | utils/ai-service.ts:140-158 | when `JSON.parse` rejects a text that starts with a backslash, the parsed reply is the text branch's result |
| ResponseParser.TextParseDefaults | utils/ai-service.ts:159-187 | each field takes its default (first non-blank line or `Unknown topic`, `note`, `[]`, `Miscellaneous`, `No action needed`) when none of its labels occurs; a list whose label is followed by an empty block is empty; a labelled topic is trimmed |
| ResponseParser.AfterLabel | utils/ai-service.ts:162 | the value after a label starts past the label, an optional `:` and the whole whitespace run |
| ResponseParser.BlockFromUnique | utils/ai-service.ts:166 | a block's stop is the first one, so its text is fixed by where it starts |
| ResponseParser.LabelBlockAbsent | utils/ai-service.ts:166 | a labelled block is captured only where the label occurs |
| ResponseParser.DefaultListsClean | utils/ai-service.ts:180-187 | the default category and action lists are non-empty, trimmed, single-line items |
| ResponseParser.TextParseLists | utils/ai-service.ts:166-187 | each list is the items of its captured block (split at commas and line feeds, or at line feeds with bullets removed); every item is non-empty, trimmed and single-line; entities and categories hold no comma |
| ResponseParser.EntitiesFromBlock | utils/ai-service.ts:166-169 | the entities are the items of the captured entities block |
| ResponseParser.EntitiesExample | utils/ai-service.ts:166-169 | `Entities: Alice, Bob` followed by a blank line captures `Alice, Bob` and gives the entities `Alice` and `Bob` |
| MockAi.Triggered | utils/ai-service.ts:244-272 | the labels pushed are exactly those of the rules that fire, in table order |
| MockAi.FirstFired | utils/ai-service.ts:233-242 | an `else if` chain: the first rule that fires wins, else the default |
| MockAi.EntityWords | utils/ai-service.ts:228-229 | exactly the words longer than four characters that start with `A`–`Z`, in order |
| MockAi.EntityWordsAppend | utils/ai-service.ts:228-229 | the filter works word by word: a word is kept iff it is an entity word, repeats included, in order |
| MockAi.MockEntities | utils/ai-service.ts:227-230 | `slice(0, 3)` of the entity words: the first three of them, in order, or all when there are fewer |
| MockAi.Truncate | utils/ai-service.ts:278-280 | text of at most 30 characters is unchanged; longer text ends with `...` |
| MockAi.TruncateShape | utils/ai-service.ts:278-280 | text of at most 30 characters is unchanged; longer text becomes what precedes the last space in its first 30 characters, plus `...`, or `...` alone when there is no such space |
| MockAi.MockAnalysis | utils/ai-service.ts:226-288 | the topic is the truncated text, at most three entities, the intent one of the five labels, and both lists non-empty |
| MockAi.MockProcessing | utils/ai-service.ts:221-224 | fails iff the injected failure occurs, with the fixed message; otherwise the heuristic analysis |
| MockAi.MockProcessText | utils/ai-service.ts:214-289 | the method's result is the injected failure message or the heuristic analysis; the template is not read |
| MockAi.MockIntent | utils/ai-service.ts:233-242 | the `let intent` chain yields the first intent rule that fires, else `note` |
| MockAi.MockActionItems | utils/ai-service.ts:245-257 | the pushes yield the action rules that fire, in order |
| MockAi.MockCategories | utils/ai-service.ts:260-272 | the pushes yield the category rules that fire, in order |
| MockAi.IntentChain | utils/ai-service.ts:233-242 | the intent table read as the source's keyword chain |
| MockAi.QuestionMark | utils/ai-service.ts:234 | the question rule fires iff the text contains `?` |
| MockAi.UnfoldTables | utils/ai-service.ts:244-272 | the action and category lists are the four `if … push` steps in order |
| MockAi.MockIntentPriority | utils/ai-service.ts:233-242 | each intent iff its rule fires and no earlier one does: question > shopping > meeting > task > note |
| MockAi.MockListsShape | utils/ai-service.ts:259-287 | categories and action items are never empty; each is its default iff no rule fires, else an ordered selection of the table's labels |
| MockAi.QuestionExample | utils/ai-service.ts:233-248 | a question mentioning a call is a question and still asks to contact someone |
| MockAi.ShoppingExample | utils/ai-service.ts:236-265 | "Buy milk and eggs" has intent shopping, category Shopping and action Purchase items |
| AiService.SelectProvider | utils/ai-service.ts:10-18 | `openai` selects OpenAI, `gemini` selects Gemini, and every other value selects the mock |
| AiService.Substitution | utils/ai-service.ts:33 | GetSubstitution: `$$` gives `$`, `$&` the matched placeholder, `` $` `` the text before it and `$'` the text after it; the laws below extend this to every replacement |
| AiService.SubstitutionPrefix | utils/ai-service.ts:33 | a `$`-free head of any replacement is inserted verbatim, and the rest is substituted on its own |
| AiService.SubstitutionPatterns | utils/ai-service.ts:33 | each of `$$`, `$&`, `` $` ``, `$'` heading any replacement stands for its value before the rest; a final `$` stays |
| AiService.SubstitutionLoneDollar | utils/ai-service.ts:33 | a `$` that starts no pattern stays as it is |
| AiService.SubstitutionEscaped | utils/ai-service.ts:33 | any text comes out verbatim once its `$` are doubled |
| AiService.SubstitutionPlain | utils/ai-service.ts:33 | a replacement text without `$` is inserted as it is |
| AiService.BuildPrompt | utils/ai-service.ts:33 | a template without `{text}` is sent unchanged |
| AiService.BuildPromptFirst | utils/ai-service.ts:33 | for any text, the first `{text}` is replaced by the substitution of the text with the template's two sides as context, and no earlier placeholder exists |
| AiService.BuildPromptEscaped | utils/ai-service.ts:33 | a text with doubled `$` replaces the first placeholder verbatim |
| AiService.BuildPromptPlain | utils/ai-service.ts:33 | only the first `{text}` is replaced, by the text itself when it holds no `$` |
| AiService.DollarAmpersandExample | utils/ai-service.ts:91 | `$&` in the text puts the placeholder itself back |
| AiService.CallProvider | utils/ai-service.ts:22-77 | an empty key fails with the missing-key message; every other failure carries the adapter's prefix; success iff the key is set, the reply is ok and has content, and then the content is parsed |
| AiService.ProviderErrors | utils/ai-service.ts:59-75 | a rejected call reports the provider's message or the fixed default; empty content reports the no-content message; the missing-key message has no prefix |
| AiService.ProcessWithOpenAI | utils/ai-service.ts:22-77 | an empty OpenAI key fails with its missing-key message; any other failure carries the `OpenAI processing failed: ` prefix; success means the reply was ok |
| AiService.ProcessWithGemini | utils/ai-service.ts:80-134 | an empty Gemini key fails with its missing-key message; any other failure carries the `Gemini processing failed: ` prefix; success means the reply was ok |
| AiService.ProcessTextResult | utils/ai-service.ts:4-19 | any provider other than `openai` and `gemini` is the mock; every failure is the mock's message, a missing-key message, or one of the two adapter prefixes |
| AiService.ProcessText | utils/ai-service.ts:4-19 | the method's outcome is that of the adapter the settings select |
| AiService.ProcessTextRouting | utils/ai-service.ts:10-18 | the mock ignores template, keys and network; a missing key of the selected provider is reported as such; with a key set, a failure of the selected provider carries its own prefix |
| AiService.ProviderRepliesParsedAsText | utils/ai-service.ts:64-72 | a provider's reply is always read by the text branch |
| Subscription.TierOf | store/subscription-store.ts:8-25 | free allows 5 per day with watermark and no priority; premium is unbounded, without watermark, with priority |
| Subscription.Initial | store/subscription-store.ts:56-63 | a fresh store is on the free tier, with no expiry and no token, and no processing counted for today |
| Subscription.MayProcessMore | store/subscription-store.ts:70-82 | yes on a new day and on the premium tier; on the free tier's current day, yes iff fewer than five were processed |
| Subscription.Reset | store/subscription-store.ts:114-125 | the counter becomes 0 for today and nothing else changes |
| Subscription.AfterCanProcessMore | store/subscription-store.ts:70-82 | on a new day the state is the reset for today; on the same day it is unchanged; either way the counter's date is today and tier, expiry and token are kept |
| Subscription.Increment | store/subscription-store.ts:84-112 | same day: the count goes up by one; new day: the count is 1 for today; tier, expiry and token are kept |
| Subscription.Remaining | store/subscription-store.ts:217-228 | unbounded iff the tier is; never above the allowance; the whole allowance on a new day; on the free tier's current day, five minus the count, or 0 once five are used |
| Subscription.Purchase | store/subscription-store.ts:127-150 | premium, expiring thirty days from now, with the token `purchase-` and the instant, and the counter kept |
| Subscription.Cancel | store/subscription-store.ts:152-174 | free, with no expiry and no token, and the counter kept |
| Subscription.Restore | store/subscription-store.ts:176-205 | nothing to restore changes nothing; otherwise premium for thirty days, with the token `restored-` and the instant, and the counter kept |
| Subscription.SubscriptionStore.constructor | store/subscription-store.ts:56-63 | the store starts in the initial state |
| Subscription.SubscriptionStore.CanProcessMore | store/subscription-store.ts:70-82 | answers the gate's question and leaves the state `canProcessMore` leaves |
| Subscription.SubscriptionStore.IncrementProcessingCount | store/subscription-store.ts:84-112 | the new state is the increment of the old |
| Subscription.SubscriptionStore.ResetProcessingCount | store/subscription-store.ts:114-125 | the new state is the reset of the old |
| Subscription.SubscriptionStore.PurchaseSubscription | store/subscription-store.ts:127-150 | reports success, and the new state is the purchase of the old |
| Subscription.SubscriptionStore.CancelSubscription | store/subscription-store.ts:152-174 | reports success, and the new state is the cancellation of the old |
| Subscription.SubscriptionStore.RestorePurchases | store/subscription-store.ts:176-205 | reports whether there was something to restore, and the new state is the restore of the old |
| Subscription.SubscriptionStore.CurrentTier | store/subscription-store.ts:65-68 | the table entry of the current tier: its name, a watermark iff free, CSV export iff premium |
| Subscription.SubscriptionStore.IsFormatAllowed | store/subscription-store.ts:207-210 | true iff the format is in the current tier's formats |
| Subscription.SubscriptionStore.IsModelAllowed | store/subscription-store.ts:212-215 | true iff the model is in the current tier's models |
| Subscription.SubscriptionStore.GetRemainingProcessingCount | store/subscription-store.ts:217-228 | unbounded on the premium tier; at most five on the free tier |
| Subscription.GateAgreesWithRemaining | store/subscription-store.ts:70-82 | the gate says yes iff something remains |
| Subscription.GateRefusesAtLimit | store/subscription-store.ts:76-81 | on the same day the gate says no iff a bounded allowance is used up; premium is always allowed |
| Subscription.GatedProcessingWithinQuota | store/subscription-store.ts:70-112 | processing that asks the gate first never takes the count past the allowance, over any sequence of days |
| Subscription.CancelAfterPremiumDay | store/subscription-store.ts:152-174 | cancelling after seven premium uses in a day leaves the free tier over quota, with nothing remaining and the gate closed |
| Subscription.NewDay | store/subscription-store.ts:76-79 | on a new day the gate opens, the whole allowance remains, and the first use counts one |
| Subscription.TierTable | store/subscription-store.ts:8-25 | free exports only text and lacks `gpt-4`; premium has JSON, CSV and `gpt-4`, and everything free has |
| Subscription.RestoreLikePurchase | store/subscription-store.ts:184-200 | a successful restore ends where a purchase would, except for the token; a failed one changes nothing |
| Clipboard.UpdateWhere | store/clipboard-store.ts:104-110 | the items with the id are transformed and the others are kept, in place |
| Clipboard.MarkProcessing | store/clipboard-store.ts:105-109 | status processing, with the provider of the retry, and nothing else changed |
| Clipboard.MarkProcessed | store/clipboard-store.ts:124-131 | status processed, data set, error cleared, and nothing else changed |
| Clipboard.MarkFailed | store/clipboard-store.ts:164-171 | status failed, message set, data kept, and nothing else changed |
| Clipboard.RemoveId | store/clipboard-store.ts:89 | no longer than before, and an item remains iff it was there and has another id |
| Clipboard.RemoveIdAppend | store/clipboard-store.ts:87-91 | removal works piece by piece, so the order of what remains is kept |
| Clipboard.FindById | store/clipboard-store.ts:98 | an item of the list that has the id; none only when no item has it |
| Clipboard.CountWhere | store/clipboard-store.ts:136-147 | a `filter(...).length` never exceeds the list's length, and is 0 iff no item passes the filter |
| Clipboard.CountWhereAppend | store/clipboard-store.ts:136-147 | the count is additive over concatenation, and a single item counts 1 iff it passes |
| Clipboard.CountWhereMonotone | store/clipboard-store.ts:141-147 | a stricter filter counts no more items |
| Clipboard.SuccessRate | store/clipboard-store.ts:149-151 | 100 with no attempts; otherwise the nearest integer to 100·success/total, a tie rounding up; never above 100 |
| Clipboard.ComputeStats | store/clipboard-store.ts:134-151 | today's processed count is at most the processed count, and the rate is at most 100 |
| Clipboard.NewItem | store/clipboard-store.ts:70-76 | a pending item with the text, the current time, the time's text as id and the current provider, with no data and no error |
| Clipboard.Retry | store/clipboard-store.ts:97-176 | an id no item has changes nothing; otherwise processing is over; the list keeps its length and every item its id, text and timestamp; the settings are kept |
| Clipboard.ApplyOutcome | store/clipboard-store.ts:103-175 | whatever the outcome, processing is over, every item keeps its id, text and timestamp, the settings are kept, and a failure keeps the stats |
| Clipboard.Add | store/clipboard-store.ts:69-85 | one more item; the new one first with the instant's id, the text and the instant; the older items keep their id, text and timestamp; the settings are kept |
| Clipboard.Merge | store/clipboard-store.ts:178-182 | each supplied setting overwrites and the others are kept |
| Clipboard.ClipboardStore.constructor | store/clipboard-store.ts:61-67 | no items, the default settings, not processing, processed-today 0 and rate 100 |
| Clipboard.ClipboardStore.AddItem | store/clipboard-store.ts:69-85 | the new state is the add step of the old, with statistics counted from the instant processing finished |
| Clipboard.ClipboardStore.RemoveItem | store/clipboard-store.ts:87-91 | only the items change, to those with other ids |
| Clipboard.ClipboardStore.ClearItems | store/clipboard-store.ts:93-95 | only the items change, to none |
| Clipboard.ClipboardStore.RetryItem | store/clipboard-store.ts:97-176 | the new state is the retry step of the old |
| Clipboard.ClipboardStore.Start | store/clipboard-store.ts:103-112 | the first `set` of a retry: the items with the id are marked processing with the current provider, the flag goes up, and settings and stats are kept |
| Clipboard.ClipboardStore.Settle | store/clipboard-store.ts:122-174 | the second `set` of a retry: the state becomes the outcome applied to the state before the retry |
| Clipboard.ClipboardStore.UpdateSettings | store/clipboard-store.ts:178-182 | only the settings change, to the merge |
| Clipboard.ClipboardStore.GetItemById | store/clipboard-store.ts:184-186 | an item of the store with the id; none only when no item has it |
| Clipboard.RetryEffect | store/clipboard-store.ts:97-176 | a retry touches only the items with its id; each ends processed (data set, error cleared) or failed (message set, data kept) with the retry's provider; processing is over; a failure keeps the stats |
| Clipboard.RetryApplies | store/clipboard-store.ts:97-121 | a retry of an id some item has applies the outcome of processing the first such item's text with the current template and settings |
| Clipboard.RetrySettles | store/clipboard-store.ts:114-174 | the retry step is the outcome the processing produced, applied to the state |
| Clipboard.OutcomeEffect | store/clipboard-store.ts:103-175 | for any outcome, the items with other ids are kept; those with the id carry the current provider and end processed (data set, error cleared) or failed (message set, data kept); processing is over; a failure keeps the stats |
| Clipboard.RetryFresh | store/clipboard-store.ts:78-84 | retrying a new first item whose id no other item has keeps the other items in order and ends the new one processed or failed, with its text |
| Clipboard.OutcomeFresh | store/clipboard-store.ts:103-175 | the same for any outcome of the processing |
| Clipboard.RetryAbsent | store/clipboard-store.ts:98-99 | retrying an id no item has changes nothing |
| Clipboard.AddPrepends | store/clipboard-store.ts:69-85 | with processing disabled, one pending item with the current provider goes first and nothing else changes |
| Clipboard.AddProcesses | store/clipboard-store.ts:69-85 | with processing enabled, the older items are untouched and the new one ends processed or failed |
| Clipboard.RetryAfterFailure | store/clipboard-store.ts:122-132 | a failed item retried successfully ends processed, with its error cleared and the retry's provider |
| Clipboard.FindFirst | store/clipboard-store.ts:184-186 | `getItemById` returns the first item with the id |
| DateFormat.FormatTimeAgo | utils/date-formatter.ts:40-63 | `just now` under a minute, future timestamps included; the calendar date from a week on; a text ending in ` ago` in between |
| DateFormat.TimeAgoBuckets | utils/date-formatter.ts:40-63 | under a minute (future included) is `just now`; then whole minutes under an hour, whole hours under a day and whole days under a week, each singular at 1; from a week on, the calendar date |
| DateFormat.FloorTwice | utils/date-formatter.ts:41-57 | flooring twice equals flooring once by the product |
| FileExport.DoubleQuotes | utils/file-helper.ts:104 | doubling the quotes lengthens the text by its number of quotes |
| FileExport.EscapeCsv | utils/file-helper.ts:104 | the field is quoted at both ends and is two plus the number of quotes longer than the text |
| FileExport.UndoubleDouble | utils/file-helper.ts:104 | undoubling a doubled text gives it back |
| FileExport.EscapeCsvRoundTrip | utils/file-helper.ts:104 | unquoting a quoted field gives the text back |
| FileExport.CsvFields | utils/file-helper.ts:96-118 | eleven fields, the first the item's id and the fourth the name of its status |
| FileExport.CsvFieldsShape | utils/file-helper.ts:96-118 | eleven fields; id, timestamp, date, status and provider unquoted; empty quoted fields without an analysis; topic, intent, entities and original text read back from their quoted fields |
| FileExport.RowsAppend | utils/file-helper.ts:95-119 | the output for joined lists is the outputs one after the other |
| FileExport.CsvDocument | utils/file-helper.ts:90-126 | the header, the rows in item order, then the watermark line iff asked for |
| FileExport.CsvRowsAppend | utils/file-helper.ts:95-119 | exporting two lists one after the other gives the rows of the joined list |
| FileExport.CsvRowsSnoc | utils/file-helper.ts:95-119 | the rows of a prefix one item longer end with that item's row |
| FileExport.GenerateCsvContent | utils/file-helper.ts:90-126 | the `+=` loop produces the CSV document |
| FileExport.TxtDocument | utils/file-helper.ts:25-65 | the header, a numbered section per item in order, then the watermark line iff asked for |
| FileExport.ItemSectionFrame | utils/file-helper.ts:30-57 | an item's section opens with its numbered `## Item` heading and closes with the separator |
| FileExport.SectionsSnoc | utils/file-helper.ts:29-58 | one more item adds one section at the end, numbered after the others and ending with the separator |
| FileExport.AppendActionLines | utils/file-helper.ts:51-53 | the inner loop appends a `- x` line per action item, in order |
| FileExport.AppendAnalysis | utils/file-helper.ts:37-55 | the analysis lines are appended: entities and categories only when non-empty, action items under a heading |
| FileExport.AppendSection | utils/file-helper.ts:30-57 | the item's section is appended |
| FileExport.GenerateTxtContent | utils/file-helper.ts:25-65 | the nested `+=` loops produce the text document |
| FileExport.JsonRecord | utils/file-helper.ts:68-86 | the count is the number of items; every item keeps its id, text and analysis, in order; the watermark is present iff asked for |
| FileExport.FileStamp | utils/file-helper.ts:180 | every `:` and `.` becomes `-`, and nothing else changes |
| FileExport.ExportPlan | utils/file-helper.ts:170-201 | no file when the tier lacks the format; a file iff the format is allowed and is one of txt, json and csv |
| FileExport.ExportClipboardItems | utils/file-helper.ts:162-205 | false when the tier lacks the format |
| FileExport.ExportFromStore | utils/file-helper.ts:167-173 | reads the tier from the subscription store, and refuses what `isFormatAllowed` refuses |
| FileExport.ExportWatermark | utils/file-helper.ts:182-197 | each allowed format is generated with the tier's watermark flag |
| FileExport.TierExports | utils/file-helper.ts:170-197 | the free tier gets no JSON or CSV, and watermarked text; the premium tier gets CSV without the watermark |
| AuthForm.PatternHasShape | components/AuthForm.tsx:42-43 | what the email pattern accepts has no whitespace, a single `@` after the first character, and a `.` inside the domain |
| AuthForm.ShapeHasPattern | components/AuthForm.tsx:42-43 | every such string is accepted by the pattern |
| AuthForm.EmailPatternShape | components/AuthForm.tsx:42-46 | the pattern accepts a string iff it has that shape |
| AuthForm.SurroundingSpaceFails | components/AuthForm.tsx:42-46 | leading or trailing whitespace fails the untrimmed test |
| AuthForm.FormError | components/AuthForm.tsx:32-66 | each message iff its check fails and every earlier one passes, in the order email, format, password, length, name; none iff all pass |
| AuthForm.FormState.constructor | components/AuthForm.tsx:27-30 | empty fields and no error |
| AuthForm.FormState.ValidateForm | components/AuthForm.tsx:32-66 | the inputs are kept; the error shown is the first failing check's message; the result is true iff there is none |
| AuthForm.NameOnlyForSignUp | components/AuthForm.tsx:59-63 | sign-in and sign-up differ only when everything else passes and the name is blank |
| AuthStore.SignUpOutcome | store/auth-store.ts:35-46 | fails with `Email already in use` iff the address is the test address; otherwise a new email account with the given address |
| AuthStore.SignInOutcome | store/auth-store.ts:65-77 | succeeds iff the test address and password are given, with the fixed test account created a day before now |
| AuthStore.GoogleUser | store/auth-store.ts:97-104 | the fixed Google account: its id and address, a photo, the Google provider, created now |
| AuthStore.AnonymousUser | store/auth-store.ts:124-130 | the given id, the anonymous provider, no photo, created now, and an `anonymous-…@example.com` address |
| AuthStore.AnonymousEmailsDistinct | store/auth-store.ts:126 | anonymous accounts made at different instants have different addresses |
| AuthStore.Settle | store/auth-store.ts:48-55 | loading ends; success sets the user and clears the error; failure keeps the user and sets the message |
| AuthStore.SignOutState | store/auth-store.ts:142-144 | no user and no error; the loading flag is kept |
| AuthStore.MergeUser | store/auth-store.ts:150-155 | each supplied field overwrites and the others are kept |
| AuthStore.UpdateProfileState | store/auth-store.ts:146-156 | no change without a user; otherwise the user is merged with the patch |
| AuthStore.AuthStore.constructor | store/auth-store.ts:24-26 | signed out, not loading, no error |
| AuthStore.AuthStore.SignUp | store/auth-store.ts:28-56 | the new state settles the sign-up outcome; the error is rethrown iff it failed |
| AuthStore.AuthStore.SignIn | store/auth-store.ts:58-87 | the new state settles the sign-in outcome; the error is rethrown iff it failed |
| AuthStore.AuthStore.SignInWithGoogle | store/auth-store.ts:89-114 | the fixed Google account is signed in |
| AuthStore.AuthStore.SignInAnonymously | store/auth-store.ts:116-140 | a fresh anonymous account is signed in |
| AuthStore.AuthStore.SignOut | store/auth-store.ts:142-144 | the new state is the signed-out state of the old |
| AuthStore.AuthStore.UpdateProfile | store/auth-store.ts:146-156 | the new state is the profile update of the old |
| AuthStore.RejectedKeepsUser | store/auth-store.ts:28-87 | a rejected sign-up or sign-in keeps who is signed in; sign-in leaves no error iff the credentials are the test ones |
| AuthStore.SignUpSignInExclusive | store/auth-store.ts:35-68 | an address that can sign in cannot sign up; every other address can sign up but not sign in |
| AuthStore.SignOutAfterSettle | store/auth-store.ts:142-144 | signing out after any settled action gives the signed-out state; signing out twice is signing out once |
| AuthStore.UpdateProfileLaws | store/auth-store.ts:146-156 | an empty patch changes nothing; the same patch twice is the patch once; a signed-out store ignores it |

## Left out

- The HTTP requests (URLs, headers, bodies) and the network. Each exchange is a function from the request to the reply's `ok` flag, error message and content.
- The `await response.json()` of a failed response throwing (for example on a non-JSON error page). It would produce the prefixed message of that exception, and the model has no JSON text to fail on.
- The `TypeError` that `data.choices[0]` throws when `choices` is missing. The reply's content is taken as already extracted.
- The `error instanceof Error` test in the adapters. Everything they catch is an `Error`, so the `Unknown error` branch is not modelled.
- The outer `catch` of `parseAIResponse` and its fallback record. No string input reaches it.
- The delays (`setTimeout`) and `Math.random`. The mock's failure and the restore's outcome are boolean parameters.
- Persistence (zustand `persist`, AsyncStorage, the per-user storage key). It is storage plumbing.
- `saveAndShareFile` and the file-system and sharing checks. Their outcome is the parameter `share`.
- The text of `JSON.stringify`. The model builds the exported record, not its text.
- Locale and time-zone text: `toLocaleString`, `toISOString`, `formatDate` and the local midnight of `setHours(0, 0, 0, 0)` are parameters.
- Generated identifiers (`generateUUID`) are parameters, since utils/uuid-helper.ts is not part of this model.
- Concurrent `retryItem` calls and other interleavings of asynchronous actions. Actions run one after another. The transient loading and processing flags between an action's two `set` calls are not observable in the model.
- Unicode: `length` counts UTF-16 code units while Dafny strings count characters. The model agrees on text without characters outside the Basic Multilingual Plane. Case folding under the `i` flag is modelled for ASCII letters only.
- `Date.now()` read twice in one action: `addItem` (store/clipboard-store.ts:71 and 73), `purchaseSubscription` (store/subscription-store.ts:134 and 141), `restorePurchases` (store/subscription-store.ts:186 and 193) and `signInAnonymously` (store/auth-store.ts:126 and 129). Both reads are taken as the same instant `now`. The later `new Date()` of a retry's statistics (store/clipboard-store.ts:135) is a separate parameter: `done` for `addItem`, `now` for `retryItem`. The three readings of `new Date()` in an export (utils/file-helper.ts:27, 70 and 180) are one instant `now`. The two readings of `getTodayDateString()` in `canProcessMore` (store/subscription-store.ts:75 and, through `resetProcessingCount`, 121) are one day `today`, so a call that spans midnight is not modelled.
- A patch that mentions a field with the value `undefined` (in `updateSettings` and `updateProfile`). The model treats it as the field not being supplied, while the spread would overwrite the field with `undefined`.
- Clipboard.SuccessRate: computed exactly, whereas the source rounds the floating-point product `(success / total) * 100`. For 57 of 200 that product is just below 28.5, so the source gives 28 where the model gives 29.
- Clipboard.ComputeStats: states bounds only, not the counts themselves. The counts are defined by the filters they model.
- DateFormat.TimeAgoBuckets: timestamps are integers, so the millisecond difference has no fractional part.
- ResponseParser.LabelBlock: what a block captures is stated only for text whose only line terminator is `\n`. On other text a capture, when there is one, comes from a shorter whitespace run or a later occurrence of the label, and only its existence is stated.
