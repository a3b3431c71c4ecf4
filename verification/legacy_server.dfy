/** The `/chat` route of the CommonJS server: identity check, then the
    OpenRouter models tried one after another until one answers. */
module LegacyServer {
  import opened Results
  import opened Json
  import opened Text
  import opened Intent
  import opened Exchange

  /** The free models, in the order they are tried. */
  const Models: seq<string> := [
    "meta-llama/llama-3.1-8b-instruct:free",
    "mistralai/mistral-7b-instruct:free",
    "nousresearch/nous-capybara-7b:free"
  ]

  const AllModelsFailed: string := "All models failed"
  const AllModelsFailedReply: string := "All AI models failed. Please try again later."

  const CreatorPhrases: seq<string> := [
    "who created you",
    "who are you",
    "describe yourself",
    "tell me about yourself",
    "introduce yourself",
    "i want to know more about you",
    "who made you",
    "who built you",
    "who developed you",
    "who invented you",
    "who designed you",
    "who programmed you",
    "who is your creator",
    "who is your owner",
    "who is your founder",
    "where do you come from",
    "so its Edison Chazumbwa who made you",
    "Who is Edison Chazumbwa",
    "Do you know Edison Chazumbwa",
    "who runs you",
    "who produced you",
    "who authored you",
    "who coded you"
  ]

  /** `choices?.[0]?.message?.content` */
  const ContentPath: seq<Step> := [Key("choices"), First, Key("message"), Key("content")]

  /** What one model attempt contributes: its content when the body has a
      truthy `choices[0].message.content`, nothing when the request threw or
      the content is missing or falsy. */
  function ModelContent(a: Attempt): (c: Option<Json>)
    ensures c.Some? ==> a.Answered? && Truthy(c.value) && Walk(a.body, ContentPath) == c
    ensures a.Answered? && Walk(a.body, ContentPath).Some? && Truthy(Walk(a.body, ContentPath).value)
            ==> c.Some?
  {
    match a
    case Threw => None
    case Answered(data) =>
      match Walk(data, ContentPath)
      case Some(v) => if Truthy(v) then Some(v) else None
      case None => None
  }

  predicate Succeeded(a: Attempt) {
    ModelContent(a).Some?
  }

  /** The outcome of a fallback run: the returned content or the thrown
      error, and the models requested, in order. */
  datatype Chained = Chained(result: Result<Json>, tried: seq<string>)

  /** The fallback loop from model `i` on, the models before `i` having
      already failed: the first model whose attempt succeeds wins and no
      later model is requested; when none succeeds the run throws after
      requesting every model. */
  function FallbackFrom(models: seq<string>, outcomes: seq<Attempt>, i: nat): (c: Chained)
    requires |outcomes| == |models| && i <= |models|
    ensures i <= |c.tried| <= |models|
    ensures c.tried == models[..|c.tried|]
    ensures c.result.Ok? ==>
              && |c.tried| > i
              && ModelContent(outcomes[|c.tried| - 1]) == Some(c.result.value)
              && forall j :: i <= j < |c.tried| - 1 ==> !Succeeded(outcomes[j])
    ensures c.result.Err? <==> forall j :: i <= j < |models| ==> !Succeeded(outcomes[j])
    ensures c.result.Err? ==> c.result.error == AllModelsFailed && c.tried == models
    decreases |models| - i
  {
    if i == |models| then Chained(Err(AllModelsFailed), models)
    else
      match ModelContent(outcomes[i])
      case Some(content) => Chained(Ok(content), models[..i + 1])
      case None => FallbackFrom(models, outcomes, i + 1)
  }

  /** `getAIResponse` as a function of the attempt outcomes, one per model. */
  function Chain(models: seq<string>, outcomes: seq<Attempt>): Chained
    requires |outcomes| == |models|
  {
    FallbackFrom(models, outcomes, 0)
  }

  /** The first successful attempt decides the reply, and exactly the models
      up to it are requested. */
  lemma FirstSuccessWins(models: seq<string>, outcomes: seq<Attempt>, k: nat)
    requires |outcomes| == |models| && k < |models|
    requires Succeeded(outcomes[k])
    requires forall j :: 0 <= j < k ==> !Succeeded(outcomes[j])
    ensures Chain(models, outcomes) == Chained(Ok(ModelContent(outcomes[k]).value), models[..k + 1])
  {
  }

  /** `getAIResponse`: requests the models in list order and returns the
      first truthy content verbatim; it agrees with `Chain` on the returned
      value or thrown error and on the models requested. */
  method GetAIResponse(models: seq<string>, outcomes: seq<Attempt>)
    returns (reply: Result<Json>, tried: seq<string>)
    requires |outcomes| == |models|
    ensures Chained(reply, tried) == Chain(models, outcomes)
  {
    tried := [];
    var i := 0;
    while i < |models|
      invariant 0 <= i <= |models|
      invariant tried == models[..i]
      invariant Chain(models, outcomes) == FallbackFrom(models, outcomes, i)
    {
      tried := tried + [models[i]];
      var content := ModelContent(outcomes[i]);
      if content.Some? {
        reply := Ok(content.value);
        return;
      }
      i := i + 1;
    }
    reply := Err(AllModelsFailed);
  }

  /** The `/chat` handler for the model list `models` and the phrase list
      `phrases` (`Models` and `CreatorPhrases` when deployed), a string
      `message`, the similarity relation, and the outcome each model's
      request would have. */
  function Chat(models: seq<string>, phrases: seq<string>, message: string, similar: Similarity, outcomes: seq<Attempt>): (h: Handled)
    requires |outcomes| == |models|
    // the identity check comes first and requests no model
    ensures IsCreatorQuestion(message, phrases, similar) ==>
              h == Handled(Response(200, JStr(IdentityReply)), 0)
    ensures h.calls <= |models|
    ensures h.response.status in {200, 500}
    // a server error happens exactly when every model fails
    ensures h.response.status == 500 <==>
              (!IsCreatorQuestion(message, phrases, similar)
               && forall j :: 0 <= j < |models| ==> !Succeeded(outcomes[j]))
    ensures h.response.status == 500 ==>
              h.response.reply == JStr(AllModelsFailedReply) && h.calls == |models|
    // otherwise the first successful model's content is the reply
    ensures !IsCreatorQuestion(message, phrases, similar) && h.response.status == 200 ==>
              && h.calls >= 1
              && ModelContent(outcomes[h.calls - 1]) == Some(h.response.reply)
              && forall j :: 0 <= j < h.calls - 1 ==> !Succeeded(outcomes[j])
  {
    if IsCreatorQuestion(message, phrases, similar) then
      Handled(Response(200, JStr(IdentityReply)), 0)
    else
      var c := Chain(models, outcomes);
      match c.result
      case Ok(reply) => Handled(Response(200, reply), |c.tried|)
      case Err(_) => Handled(Response(500, JStr(AllModelsFailedReply)), |c.tried|)
  }

  /** Deployed with `Models`, a request for a non-identity message costs
      between one and three model requests. */
  lemma DeployedRouteCalls(phrases: seq<string>, message: string, similar: Similarity, outcomes: seq<Attempt>)
    requires |outcomes| == 3
    requires !IsCreatorQuestion(message, phrases, similar)
    ensures 1 <= Chat(Models, phrases, message, similar, outcomes).calls <= 3
  {
  }

  /** The three phrases written with capitals never match by substring in
      this route: only the similarity test can fire for them. */
  lemma CapitalisedPhrasesNeedSimilarity(message: string, similar: Similarity)
    ensures CreatorPhrases[16] == "so its Edison Chazumbwa who made you"
    ensures CreatorPhrases[17] == "Who is Edison Chazumbwa"
    ensures CreatorPhrases[18] == "Do you know Edison Chazumbwa"
    ensures !Includes(Lower(message), CreatorPhrases[16])
    ensures !Includes(Lower(message), CreatorPhrases[17])
    ensures !Includes(Lower(message), CreatorPhrases[18])
  {
    assert IsUpper(CreatorPhrases[16][7]);
    CapitalisedPhraseOnlyFuzzy(message, CreatorPhrases[16], 7, similar);
    assert IsUpper(CreatorPhrases[17][0]);
    CapitalisedPhraseOnlyFuzzy(message, CreatorPhrases[17], 0, similar);
    assert IsUpper(CreatorPhrases[18][0]);
    CapitalisedPhraseOnlyFuzzy(message, CreatorPhrases[18], 0, similar);
  }
}
