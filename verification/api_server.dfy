/** The `/api/chat` route of the ES-module server: identity check, empty
    message check, then one request to the configured provider. */
module ApiServer {
  import opened Results
  import opened Json
  import opened Text
  import opened Intent
  import opened Exchange

  const DefaultProvider: string := "gemini"
  const GeminiName: string := "gemini"
  const OpenRouterName: string := "openrouter"

  const NoMessageReply: string := "\U{26A0}\U{FE0F} No message provided."
  const NoGeminiReply: string := "\U{26A0}\U{FE0F} No response from Gemini."
  const NoOpenRouterReply: string := "\U{26A0}\U{FE0F} No response from OpenRouter."
  const InvalidProviderReply: string :=
    "\U{26A0}\U{FE0F} Invalid provider selected in .env (use 'gemini' or 'openrouter')."
  const ConnectionErrorReply: string := "\U{26A0}\U{FE0F} Error connecting to AI provider."

  const CreatorPhrases: seq<string> := [
    "who created you", "who are you", "describe yourself", "tell me about yourself",
    "introduce yourself", "i want to know more about you", "who made you",
    "who built you", "who developed you", "who invented you", "who designed you",
    "who programmed you", "who is your creator", "who is your owner",
    "who is your founder", "where do you come from", "so its Edison Chazumbwa who made you",
    "who is Edison Chazumbwa", "do you know Edison Chazumbwa", "who runs you",
    "who produced you", "who authored you", "who coded you"
  ]

  /** `candidates?.[0]?.content?.parts?.[0]?.text` */
  const GeminiPath: seq<Step> :=
    [Key("candidates"), First, Key("content"), Key("parts"), First, Key("text")]

  /** `choices?.[0]?.message?.content` */
  const OpenRouterPath: seq<Step> := [Key("choices"), First, Key("message"), Key("content")]

  /** `process.env.PROVIDER || "gemini"`: an unset or empty setting selects
      the default. */
  function ProviderSetting(env: Option<string>): (p: string)
    ensures p != ""
    ensures env == Some(p) || (p == DefaultProvider && (env == None || env == Some("")))
  {
    match env
    case Some(v) => if v != "" then v else DefaultProvider
    case None => DefaultProvider
  }

  /** Gemini's reply: the text at `GeminiPath` when it is truthy, otherwise
      the fixed fallback; the extraction never throws and never yields a
      falsy reply. */
  function GeminiReply(data: Json): (r: Json)
    ensures Truthy(r)
    ensures r == JStr(NoGeminiReply) || Walk(data, GeminiPath) == Some(r)
  {
    match Walk(data, GeminiPath)
    case Some(v) => if Truthy(v) then v else JStr(NoGeminiReply)
    case None => JStr(NoGeminiReply)
  }

  /** A present, truthy text is passed on unchanged. */
  lemma GeminiReplyFound(data: Json, v: Json)
    requires Walk(data, GeminiPath) == Some(v) && Truthy(v)
    ensures GeminiReply(data) == v
  {
  }

  /** A missing or falsy text (for instance the empty string) gives the
      fallback. */
  lemma GeminiReplyMissing(data: Json)
    requires Walk(data, GeminiPath) == None || !Truthy(Walk(data, GeminiPath).value)
    ensures GeminiReply(data) == JStr(NoGeminiReply)
  {
  }

  /** A well-formed Gemini body carrying a non-empty text yields that text. */
  lemma GeminiReplyOfWellFormedBody(t: string)
    requires t != ""
    ensures GeminiReply(Nest(GeminiPath, JStr(t))) == JStr(t)
  {
    WalkNest(GeminiPath, JStr(t));
  }

  /** A body without `candidates` gives the fallback, whatever else it holds. */
  lemma GeminiReplyWithoutCandidates(data: Json)
    requires !(data.JObj? && "candidates" in data.fields)
    ensures GeminiReply(data) == JStr(NoGeminiReply)
  {
    assert GeminiPath[..1] == [Key("candidates")];
    assert Walk(data, GeminiPath[..1]) == None;
    WalkStopsAtMissingPrefix(data, GeminiPath, 1);
  }

  /** OpenRouter's reply, `content?.trim() || fallback`: `trim` throws a
      TypeError when the content is present but neither a string nor
      `null`; otherwise the reply is a non-blank string that neither starts
      nor ends with white space. */
  function OpenRouterReply(data: Json): (r: Result<Json>)
    ensures r.Err? <==> (Walk(data, OpenRouterPath).Some?
                         && !Walk(data, OpenRouterPath).value.JStr?
                         && !Walk(data, OpenRouterPath).value.JNull?)
    ensures r.Ok? ==> r.value.JStr? && r.value.s != []
                      && !IsSpace(r.value.s[0]) && !IsSpace(r.value.s[|r.value.s| - 1])
  {
    var content := Walk(data, OpenRouterPath);
    if content.None? || content.value.JNull? then Ok(JStr(NoOpenRouterReply))
    else if content.value.JStr? then Ok(TrimmedOr(content.value.s, NoOpenRouterReply))
    else Err("TypeError: content.trim is not a function")
  }

  /** `s.trim() || fallback` for a non-blank fallback. */
  function TrimmedOr(s: string, fallback: string): (r: Json)
    requires fallback != [] && !IsSpace(fallback[0]) && !IsSpace(fallback[|fallback| - 1])
    ensures r.JStr? && r.s != [] && !IsSpace(r.s[0]) && !IsSpace(r.s[|r.s| - 1])
    ensures !AllSpace(s) ==> r == JStr(Trim(s))
    ensures AllSpace(s) ==> r == JStr(fallback)
  {
    TrimEmptyIffBlank(s);
    var t := Trim(s);
    if t != [] then JStr(t) else JStr(fallback)
  }

  /** Content with something besides white space is returned trimmed. */
  lemma OpenRouterReplyTrimmed(data: Json, s: string)
    requires Walk(data, OpenRouterPath) == Some(JStr(s))
    requires !AllSpace(s)
    ensures OpenRouterReply(data) == Ok(JStr(Trim(s)))
  {
    TrimEmptyIffBlank(s);
  }

  /** Missing, `null` or all-white-space content gives the fallback. */
  lemma OpenRouterReplyFallback(data: Json)
    requires || Walk(data, OpenRouterPath) == None
             || Walk(data, OpenRouterPath) == Some(JNull)
             || (Walk(data, OpenRouterPath).Some? && Walk(data, OpenRouterPath).value.JStr?
                 && AllSpace(Walk(data, OpenRouterPath).value.s))
    ensures OpenRouterReply(data) == Ok(JStr(NoOpenRouterReply))
  {
    match Walk(data, OpenRouterPath)
    case None =>
    case Some(v) =>
      if v.JStr? {
        TrimEmptyIffBlank(v.s);
      }
  }

  /** The `/api/chat` handler for the phrase list `phrases` (`CreatorPhrases`
      when deployed), a string `message`, the configured `provider`, the
      similarity relation, and the outcome `call` of the one provider request
      (consulted only if that request is issued). */
  function Chat(phrases: seq<string>, message: string, provider: string, similar: Similarity, call: Attempt): (h: Handled)
    // the identity check comes first and issues no request
    ensures IsCreatorQuestion(message, phrases, similar) ==>
              h == Handled(Response(200, JStr(IdentityReply)), 0)
    // an empty message that is not an identity question is a client error
    ensures !IsCreatorQuestion(message, phrases, similar) && message == "" ==>
              h == Handled(Response(400, JStr(NoMessageReply)), 0)
    // exactly the known providers are contacted, once
    ensures h.calls <= 1
    ensures h.calls == 1 <==> (!IsCreatorQuestion(message, phrases, similar) && message != ""
                               && (provider == GeminiName || provider == OpenRouterName))
    // an unknown provider is answered normally with the configuration hint
    ensures !IsCreatorQuestion(message, phrases, similar) && message != ""
            && provider != GeminiName && provider != OpenRouterName ==>
              h == Handled(Response(200, JStr(InvalidProviderReply)), 0)
    // a server error happens exactly when the provider path throws
    ensures h.response.status == 500 <==>
              (h.calls == 1 && (call.Threw?
                                || (provider == OpenRouterName && OpenRouterReply(call.body).Err?)))
    ensures h.response.status == 500 ==> h.response.reply == JStr(ConnectionErrorReply)
    ensures h.response.status in {200, 400, 500}
    ensures h.response.status == 400 <==>
              (!IsCreatorQuestion(message, phrases, similar) && message == "")
    // a provider that answered without throwing is relayed through its
    // extraction with status 200
    ensures h.calls == 1 && h.response.status != 500 && provider == GeminiName ==>
              h.response == Response(200, GeminiReply(call.body))
    ensures h.calls == 1 && h.response.status != 500 && provider == OpenRouterName ==>
              h.response.status == 200 && OpenRouterReply(call.body) == Ok(h.response.reply)
  {
    if IsCreatorQuestion(message, phrases, similar) then
      Handled(Response(200, JStr(IdentityReply)), 0)
    else if message == "" then
      Handled(Response(400, JStr(NoMessageReply)), 0)
    else if provider == GeminiName then
      match call
      case Threw => Handled(Response(500, JStr(ConnectionErrorReply)), 1)
      case Answered(data) => Handled(Response(200, GeminiReply(data)), 1)
    else if provider == OpenRouterName then
      match call
      case Threw => Handled(Response(500, JStr(ConnectionErrorReply)), 1)
      case Answered(data) =>
        match OpenRouterReply(data)
        case Ok(reply) => Handled(Response(200, reply), 1)
        case Err(_) => Handled(Response(500, JStr(ConnectionErrorReply)), 1)
    else
      Handled(Response(200, JStr(InvalidProviderReply)), 0)
  }

  /** The three phrases written with capitals never match by substring in
      this route: only the similarity test can fire for them. */
  lemma CapitalisedPhrasesNeedSimilarity(message: string, similar: Similarity)
    ensures CreatorPhrases[16] == "so its Edison Chazumbwa who made you"
    ensures CreatorPhrases[17] == "who is Edison Chazumbwa"
    ensures CreatorPhrases[18] == "do you know Edison Chazumbwa"
    ensures !Includes(Lower(message), CreatorPhrases[16])
    ensures !Includes(Lower(message), CreatorPhrases[17])
    ensures !Includes(Lower(message), CreatorPhrases[18])
  {
    assert IsUpper(CreatorPhrases[16][7]);
    CapitalisedPhraseOnlyFuzzy(message, CreatorPhrases[16], 7, similar);
    assert IsUpper(CreatorPhrases[17][7]);
    CapitalisedPhraseOnlyFuzzy(message, CreatorPhrases[17], 7, similar);
    assert IsUpper(CreatorPhrases[18][12]);
    CapitalisedPhraseOnlyFuzzy(message, CreatorPhrases[18], 12, similar);
  }
}
