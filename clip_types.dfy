/** The records of the application (types/clipboard.ts, types/user.ts).
    An optional property (`x?: T`, `T | null`) is an `Option`. */
module ClipTypes {
  import opened Wrappers

  /** The structured analysis of one captured text. */
  datatype ProcessedData = ProcessedData(
    topic: string,
    entities: seq<string>,
    intent: string,
    categories: seq<string>,
    actionItems: seq<string>)

  datatype Status = Pending | Processing | Processed | Failed

  /** The status as the string the application stores and exports. */
  function StatusName(s: Status): string {
    match s
    case Pending => "pending"
    case Processing => "processing"
    case Processed => "processed"
    case Failed => "failed"
  }

  /** One captured text and what became of its analysis. */
  datatype ClipboardItem = ClipboardItem(
    id: string,
    originalText: string,
    processedData: Option<ProcessedData>,
    timestamp: int,
    status: Status,
    error: Option<string>,
    aiProvider: Option<string>)

  datatype Theme = Light | Dark | SystemTheme

  /** The settings. `aiProvider` is a string: the declared type admits
      `openai`, `gemini` and `mock`, and the dispatcher has a branch for
      every other value. */
  datatype AppSettings = AppSettings(
    theme: Theme,
    notifications: bool,
    customPrompt: string,
    processingEnabled: bool,
    aiProvider: string,
    openaiApiKey: string,
    geminiApiKey: string,
    openaiModel: string,
    geminiModel: string)

  datatype AuthProvider = EmailAuth | GoogleAuth | AnonymousAuth

  datatype User = User(
    id: string,
    email: string,
    displayName: Option<string>,
    photoURL: Option<string>,
    authProvider: AuthProvider,
    createdAt: int)

  datatype TierName = Free | Premium

  /** A daily processing allowance; `Unbounded` stands for `Infinity`. */
  datatype Limit = Bounded(n: nat) | Unbounded

  datatype SubscriptionTier = SubscriptionTier(
    name: TierName,
    maxDailyProcessing: Limit,
    allowedModels: seq<string>,
    downloadFormats: seq<string>,
    watermark: bool,
    priority: bool)

  /** How many texts were processed on the calendar day `date` (`YYYY-MM-DD`, UTC). */
  datatype ProcessingCount = ProcessingCount(today: nat, date: string)

  datatype SubscriptionState = SubscriptionState(
    tier: TierName,
    expiresAt: Option<int>,
    processingCount: ProcessingCount,
    purchaseToken: Option<string>)
}
