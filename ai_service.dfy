/** `processText` and the two network adapters (utils/ai-service.ts). The
    HTTP exchange is a parameter: a function from the request the adapter
    would send to the reply it gets. */
module AiService {
  import opened Wrappers
  import opened JsText
  import opened ClipTypes
  import opened ResponseParser
  import opened MockAi

  datatype Provider = OpenAI | Gemini | Mock

  /** The `switch` on `settings.aiProvider`: `mock` and every unknown value
      fall to the mock. */
  function SelectProvider(aiProvider: string): (p: Provider)
    ensures p == OpenAI <==> aiProvider == "openai"
    ensures p == Gemini <==> aiProvider == "gemini"
    ensures p == Mock <==> aiProvider != "openai" && aiProvider != "gemini"
  {
    if aiProvider == "openai" then OpenAI
    else if aiProvider == "gemini" then Gemini
    else Mock
  }

  /** `s.startsWith(p)`. */
  predicate HasPrefix(s: string, p: string) {
    |p| <= |s| && s[..|p|] == p
  }

  /** What an adapter sends: the key, the model and the prompt. */
  datatype Request = Request(apiKey: string, model: string, prompt: string)

  /** What an adapter reads of the reply: `response.ok`, the provider's
      `error.message` (when not ok) and the reply text (when ok). */
  datatype HttpReply = HttpReply(ok: bool, errorMessage: Option<string>, content: Option<string>)

  /** The fixed messages of one adapter. */
  datatype ProviderText = ProviderText(missingKey: string, failedPrefix: string,
                                       callFailed: string, noContent: string)

  const KeyHint := " Please add your API key in settings."

  const OpenAIText := ProviderText(
    "OpenAI API key is not configured." + KeyHint,
    "OpenAI processing failed: ",
    "Error calling OpenAI API",
    "No content returned from OpenAI")

  const GeminiText := ProviderText(
    "Gemini API key is not configured." + KeyHint,
    "Gemini processing failed: ",
    "Error calling Gemini API",
    "No content returned from Gemini")

  /** GetSubstitution of ECMAScript for a string pattern (no capture
      groups): in the replacement `$$` is `$`, `$&` the matched text, `` $` ``
      what precedes the match and `$'` what follows it; any other `$` is
      literal. */
  function Substitution(rep: string, matched: string, before: string, after: string): (r: string)
    ensures rep == "$$" ==> r == "$"
    ensures rep == "$&" ==> r == matched
    ensures rep == "$`" ==> r == before
    ensures rep == "$'" ==> r == after
    decreases |rep|
  {
    if |rep| >= 2 && rep[0] == '$' then
      var rest := Substitution(rep[2..], matched, before, after);
      if rep[1] == '$' then "$" + rest
      else if rep[1] == '&' then matched + rest
      else if rep[1] == '`' then before + rest
      else if rep[1] == '\'' then after + rest
      else "$" + Substitution(rep[1..], matched, before, after)
    else if |rep| == 0 then ""
    else [rep[0]] + Substitution(rep[1..], matched, before, after)
  }

  /** A replacement without `$` is inserted as it is. */
  lemma {:induction false} SubstitutionPlain(rep: string, matched: string, before: string, after: string)
    requires '$' !in rep
    ensures Substitution(rep, matched, before, after) == rep
  {
    if |rep| > 0 {
      assert rep[0] in rep;
      assert forall c :: c in rep[1..] ==> c in rep;
      SubstitutionPlain(rep[1..], matched, before, after);
    }
  }

  /** A `$`-free head of the replacement is inserted as it is, and the
      rest is substituted on its own. */
  lemma {:induction false} SubstitutionPrefix(a: string, b: string, matched: string, before: string, after: string)
    requires '$' !in a
    ensures Substitution(a + b, matched, before, after) == a + Substitution(b, matched, before, after)
  {
    if |a| > 0 {
      assert a[0] in a;
      assert forall c :: c in a[1..] ==> c in a;
      assert (a + b)[1..] == a[1..] + b;
      SubstitutionPrefix(a[1..], b, matched, before, after);
      assert a == [a[0]] + a[1..];
    } else {
      assert a + b == b;
    }
  }

  /** Each two-character pattern at the head of the replacement stands for
      its value, followed by the substituted rest; a final `$` stays. */
  lemma SubstitutionPatterns(b: string, matched: string, before: string, after: string)
    ensures Substitution("$$" + b, matched, before, after) == "$" + Substitution(b, matched, before, after)
    ensures Substitution("$&" + b, matched, before, after) == matched + Substitution(b, matched, before, after)
    ensures Substitution("$`" + b, matched, before, after) == before + Substitution(b, matched, before, after)
    ensures Substitution("$'" + b, matched, before, after) == after + Substitution(b, matched, before, after)
    ensures Substitution("$", matched, before, after) == "$"
  {
    assert ("$$" + b)[2..] == b;
    assert ("$&" + b)[2..] == b;
    assert ("$`" + b)[2..] == b;
    assert ("$'" + b)[2..] == b;
  }

  /** A `$` that starts no pattern stays as it is. */
  lemma SubstitutionLoneDollar(c: char, b: string, matched: string, before: string, after: string)
    requires c !in "$&`'"
    ensures Substitution(['$', c] + b, matched, before, after) == "$" + Substitution([c] + b, matched, before, after)
  {
    assert (['$', c] + b)[1..] == [c] + b;
  }

  /** The text with every `$` doubled. */
  function EscapeDollars(t: string): (r: string)
    ensures |r| >= |t|
    ensures '$' !in t ==> r == t
  {
    if |t| == 0 then ""
    else
      assert t[0] in t && forall c :: c in t[1..] ==> c in t;
      (if t[0] == '$' then "$$" else [t[0]]) + EscapeDollars(t[1..])
  }

  /** Substitution inverts the doubling of `$`: any text at all comes out
      verbatim once its dollars are doubled. */
  lemma {:induction false} SubstitutionEscaped(t: string, matched: string, before: string, after: string)
    ensures Substitution(EscapeDollars(t), matched, before, after) == t
  {
    if |t| > 0 {
      var rest := EscapeDollars(t[1..]);
      SubstitutionEscaped(t[1..], matched, before, after);
      if t[0] == '$' {
        SubstitutionPatterns(rest, matched, before, after);
      } else {
        SubstitutionPrefix([t[0]], rest, matched, before, after);
      }
      assert t == [t[0]] + t[1..];
    }
  }

  const Placeholder := "{text}"

  /** `promptTemplate.replace('{text}', text)`: the first placeholder only. */
  function BuildPrompt(template: string, text: string): (r: string)
    ensures Find(template, Placeholder, 0).None? ==> r == template
  {
    match Find(template, Placeholder, 0)
    case None => template
    case Some(i) =>
      template[..i] + Substitution(text, Placeholder, template[..i], template[i + 6..]) + template[i + 6..]
  }

  /** For any text, the prompt is the template with its first placeholder
      replaced by the substitution of the text, with the placeholder as the
      match and the template's two sides around it; no placeholder precedes
      it. */
  lemma BuildPromptFirst(template: string, text: string, i: nat)
    requires Find(template, Placeholder, 0) == Some(i)
    ensures BuildPrompt(template, text)
            == template[..i] + Substitution(text, Placeholder, template[..i], template[i + 6..]) + template[i + 6..]
    ensures Find(template[..i], Placeholder, 0).None?
  {
    forall j: nat | MatchesAt(template[..i], j, Placeholder) ensures false {
      assert template[..i][j..j + 6] == template[j..j + 6];
      assert MatchesAt(template, j, Placeholder);
    }
  }

  /** A text with its dollars doubled replaces the first placeholder
      verbatim. */
  lemma BuildPromptEscaped(template: string, text: string, i: nat)
    requires Find(template, Placeholder, 0) == Some(i)
    ensures BuildPrompt(template, EscapeDollars(text)) == template[..i] + text + template[i + 6..]
  {
    BuildPromptFirst(template, EscapeDollars(text), i);
    SubstitutionEscaped(text, Placeholder, template[..i], template[i + 6..]);
  }

  /** With a text free of `$`, the prompt is the template with its first
      placeholder replaced by the text, and no placeholder precedes it. */
  lemma BuildPromptPlain(template: string, text: string, i: nat)
    requires '$' !in text
    requires Find(template, Placeholder, 0) == Some(i)
    ensures BuildPrompt(template, text) == template[..i] + text + template[i + 6..]
    ensures Find(template[..i], Placeholder, 0).None?
  {
    BuildPromptFirst(template, text, i);
    SubstitutionPlain(text, Placeholder, template[..i], template[i + 6..]);
  }

  /** `$&` in the text puts the placeholder itself back. */
  lemma DollarAmpersandExample(template: string)
    requires template == "Q: {text}"
    ensures BuildPrompt(template, "$&") == template
  {
    assert MatchesAt(template, 3, Placeholder);
    assert template[0..6][0] == 'Q' && template[1..7][0] == ':' && template[2..8][0] == ' ';
    assert Find(template, Placeholder, 0) == Some(3);
    assert Substitution("$&", Placeholder, "Q: ", "") == Placeholder;
  }

  /** `processWithOpenAI` / `processWithGemini`: an empty key throws before
      anything is sent; every later failure is caught and re-thrown with the
      adapter's prefix. */
  function CallProvider(msgs: ProviderText, apiKey: string, model: string,
                        text: string, template: string,
                        send: Request -> HttpReply,
                        jsonParse: string -> Option<JsonObject>): (r: Result<ProcessedData, string>)
    ensures apiKey == "" ==> r == Failure(msgs.missingKey)
    ensures apiKey != "" && r.Failure? ==> |r.error| >= |msgs.failedPrefix|
                                           && r.error[..|msgs.failedPrefix|] == msgs.failedPrefix
    ensures r.Success? <==>
              apiKey != "" && send(Request(apiKey, model, BuildPrompt(template, text))).ok
              && OrElse(send(Request(apiKey, model, BuildPrompt(template, text))).content, "") != ""
    ensures r.Success? ==>
              r.value == ParseAIResponse(send(Request(apiKey, model, BuildPrompt(template, text))).content.value,
                                         text, jsonParse)
  {
    if apiKey == "" then Failure(msgs.missingKey)
    else
      var reply := send(Request(apiKey, model, BuildPrompt(template, text)));
      if !reply.ok then
        Failure(msgs.failedPrefix + OrElse(reply.errorMessage, msgs.callFailed))
      else if OrElse(reply.content, "") == "" then
        Failure(msgs.failedPrefix + msgs.noContent)
      else
        Success(ParseAIResponse(reply.content.value, text, jsonParse))
  }

  /** The message of each failure: the missing key alone, or the prefix
      and then the provider's message (or the fixed default) or the
      no-content message. The missing-key message carries no prefix. */
  lemma ProviderErrors(msgs: ProviderText, apiKey: string, model: string,
                       text: string, template: string,
                       send: Request -> HttpReply,
                       jsonParse: string -> Option<JsonObject>)
    requires msgs == OpenAIText || msgs == GeminiText
    ensures var reply := send(Request(apiKey, model, BuildPrompt(template, text)));
            var r := CallProvider(msgs, apiKey, model, text, template, send, jsonParse);
            && (apiKey != "" && !reply.ok ==>
                  r == Failure(msgs.failedPrefix + OrElse(reply.errorMessage, msgs.callFailed)))
            && (apiKey != "" && reply.ok && OrElse(reply.content, "") == "" ==>
                  r == Failure(msgs.failedPrefix + msgs.noContent))
            && msgs.missingKey[..|msgs.failedPrefix|] != msgs.failedPrefix
  {
    if msgs == OpenAIText {
      var k := "OpenAI API key is not configured.";
      assert msgs.missingKey[..26][7] == k[7] == 'A';
    } else {
      var k := "Gemini API key is not configured.";
      assert msgs.missingKey[..26][7] == k[7] == 'A';
    }
  }

  /** `processWithOpenAI`: the OpenAI key and model of the settings. */
  function ProcessWithOpenAI(text: string, template: string, settings: AppSettings,
                             send: Request -> HttpReply,
                             jsonParse: string -> Option<JsonObject>): (r: Result<ProcessedData, string>)
    ensures settings.openaiApiKey == "" ==> r == Failure(OpenAIText.missingKey)
    ensures settings.openaiApiKey != "" && r.Failure? ==> HasPrefix(r.error, "OpenAI processing failed: ")
    ensures r.Success? ==> send(Request(settings.openaiApiKey, settings.openaiModel, BuildPrompt(template, text))).ok
  {
    CallProvider(OpenAIText, settings.openaiApiKey, settings.openaiModel, text, template, send, jsonParse)
  }

  /** `processWithGemini`: the Gemini key and model of the settings. */
  function ProcessWithGemini(text: string, template: string, settings: AppSettings,
                             send: Request -> HttpReply,
                             jsonParse: string -> Option<JsonObject>): (r: Result<ProcessedData, string>)
    ensures settings.geminiApiKey == "" ==> r == Failure(GeminiText.missingKey)
    ensures settings.geminiApiKey != "" && r.Failure? ==> HasPrefix(r.error, "Gemini processing failed: ")
    ensures r.Success? ==> send(Request(settings.geminiApiKey, settings.geminiModel, BuildPrompt(template, text))).ok
  {
    CallProvider(GeminiText, settings.geminiApiKey, settings.geminiModel, text, template, send, jsonParse)
  }

  /** Everything `processText` depends on besides its arguments: the two
      HTTP exchanges, the mock's simulated failure and `JSON.parse`. */
  datatype Environment = Environment(
    openai: Request -> HttpReply,
    gemini: Request -> HttpReply,
    mockFails: bool,
    jsonParse: string -> Option<JsonObject>)

  /** The outcome of `processText(text, promptTemplate, settings)`. */
  function ProcessTextResult(text: string, template: string, settings: AppSettings,
                             env: Environment): (r: Result<ProcessedData, string>)
    ensures settings.aiProvider != "openai" && settings.aiProvider != "gemini" ==>
              r == MockProcessing(text, env.mockFails)
    ensures r.Failure? ==>
              r.error in {MockFailure, OpenAIText.missingKey, GeminiText.missingKey}
              || HasPrefix(r.error, "OpenAI processing failed: ")
              || HasPrefix(r.error, "Gemini processing failed: ")
  {
    match SelectProvider(settings.aiProvider)
    case OpenAI => ProcessWithOpenAI(text, template, settings, env.openai, env.jsonParse)
    case Gemini => ProcessWithGemini(text, template, settings, env.gemini, env.jsonParse)
    case Mock => MockProcessing(text, env.mockFails)
  }

  /** `processText`: dispatch to the adapter the settings name. */
  method ProcessText(text: string, template: string, settings: AppSettings, env: Environment)
    returns (r: Result<ProcessedData, string>)
    ensures r == ProcessTextResult(text, template, settings, env)
  {
    match SelectProvider(settings.aiProvider)
    case OpenAI =>
      r := ProcessWithOpenAI(text, template, settings, env.openai, env.jsonParse);
    case Gemini =>
      r := ProcessWithGemini(text, template, settings, env.gemini, env.jsonParse);
    case Mock =>
      r := MockProcessText(text, template, env.mockFails);
  }

  /** The mock ignores the template, the keys and the network; a missing
      key of the selected network provider is reported as such and nothing
      else about the outcome depends on the other provider's settings. */
  lemma ProcessTextRouting(text: string, template: string, settings: AppSettings, env: Environment)
    ensures SelectProvider(settings.aiProvider) == Mock ==>
              ProcessTextResult(text, template, settings, env) == MockProcessing(text, env.mockFails)
    ensures settings.aiProvider == "openai" && settings.openaiApiKey == "" ==>
              ProcessTextResult(text, template, settings, env) == Failure(OpenAIText.missingKey)
    ensures settings.aiProvider == "gemini" && settings.geminiApiKey == "" ==>
              ProcessTextResult(text, template, settings, env) == Failure(GeminiText.missingKey)
    ensures ProcessTextResult(text, template, settings, env).Failure? && settings.aiProvider == "openai"
              && settings.openaiApiKey != "" ==>
              HasPrefix(ProcessTextResult(text, template, settings, env).error, "OpenAI processing failed: ")
    ensures ProcessTextResult(text, template, settings, env).Failure? && settings.aiProvider == "gemini"
              && settings.geminiApiKey != "" ==>
              HasPrefix(ProcessTextResult(text, template, settings, env).error, "Gemini processing failed: ")
  {
  }

  /** A network reply is always read by the text branch of the parser when
      `JSON.parse` rejects what the JSON branch extracts. */
  lemma ProviderRepliesParsedAsText(msgs: ProviderText, apiKey: string, model: string,
                                    text: string, template: string,
                                    send: Request -> HttpReply,
                                    jsonParse: string -> Option<JsonObject>)
    requires RejectsBackslashStart(jsonParse)
    ensures var r := CallProvider(msgs, apiKey, model, text, template, send, jsonParse);
            r.Success? ==> r.value == TextParse(send(Request(apiKey, model, BuildPrompt(template, text))).content.value)
  {
    var r := CallProvider(msgs, apiKey, model, text, template, send, jsonParse);
    if r.Success? {
      var c := send(Request(apiKey, model, BuildPrompt(template, text))).content.value;
      JsonBranchNeverTaken(c, text, jsonParse);
    }
  }
}
