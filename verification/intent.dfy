/** The creator/identity question detector both chat routes run before
    anything else: the message is lower-cased, then it matches when some
    reference phrase occurs in it or is similar enough to it. */
module Intent {
  import opened Text

  /** The fuzzy test `compareTwoStrings(lowerMsg, phrase) >= 0.7`. Its
      scoring lives in a third-party library, so the model takes it as a
      given relation on (lower-cased message, phrase). */
  type Similarity = (string, string) -> bool

  /** The canned answer both routes give to an identity question. */
  const IdentityReply: string :=
    "I am Webs, created and trained by Edison Chazumbwa. He is currently a student at the University of Malawi. If you want to know more about him go to the ABOUT section at the top left corner."

  /** One phrase's test inside the `some` callback: substring first, then
      similarity. */
  predicate PhraseHits(lowerMsg: string, phrase: string, similar: Similarity) {
    Includes(lowerMsg, phrase) || similar(lowerMsg, phrase)
  }

  /** `phrases.some(...)`: tries the phrases left to right and stops at the
      first hit; the answer is the existential over the whole list. */
  function AnyPhraseHits(lowerMsg: string, phrases: seq<string>, similar: Similarity): (r: bool)
    ensures r <==> exists i :: 0 <= i < |phrases| && PhraseHits(lowerMsg, phrases[i], similar)
    decreases |phrases|
  {
    if |phrases| == 0 then false
    else if PhraseHits(lowerMsg, phrases[0], similar) then true
    else
      var rest := AnyPhraseHits(lowerMsg, phrases[1..], similar);
      assert forall i :: 1 <= i < |phrases| ==> phrases[i] == phrases[1..][i - 1];
      rest
  }

  /** The classifier as the routes call it on the raw message. */
  predicate IsCreatorQuestion(message: string, phrases: seq<string>, similar: Similarity) {
    AnyPhraseHits(Lower(message), phrases, similar)
  }

  /** Reordering the phrase list never changes the verdict. */
  lemma PhraseOrderIrrelevant(lowerMsg: string, p1: seq<string>, p2: seq<string>, similar: Similarity)
    requires multiset(p1) == multiset(p2)
    ensures AnyPhraseHits(lowerMsg, p1, similar) == AnyPhraseHits(lowerMsg, p2, similar)
  {
    forall i | 0 <= i < |p1| && PhraseHits(lowerMsg, p1[i], similar)
      ensures AnyPhraseHits(lowerMsg, p2, similar)
    {
      assert p1[i] in multiset(p2);
      var j :| 0 <= j < |p2| && p2[j] == p1[i];
    }
    forall j | 0 <= j < |p2| && PhraseHits(lowerMsg, p2[j], similar)
      ensures AnyPhraseHits(lowerMsg, p1, similar)
    {
      assert p2[j] in multiset(p1);
      var i :| 0 <= i < |p1| && p1[i] == p2[j];
    }
  }

  /** A message whose lower-cased text contains a listed phrase is an
      identity question, whatever the similarity relation says. */
  lemma ContainedPhraseMatches(message: string, phrases: seq<string>, i: int, similar: Similarity)
    requires 0 <= i < |phrases|
    requires Includes(Lower(message), phrases[i])
    ensures IsCreatorQuestion(message, phrases, similar)
  {
  }

  /** A phrase with no capitals matches when it is sent verbatim. */
  lemma LowerCasePhraseMatchesItself(phrases: seq<string>, i: int, similar: Similarity)
    requires 0 <= i < |phrases|
    requires NoUpper(phrases[i])
    ensures IsCreatorQuestion(phrases[i], phrases, similar)
  {
    LowerFixesExactlyLowerCase(phrases[i]);
    IncludesItself(phrases[i]);
  }

  /** A phrase holding a capital never occurs in a lower-cased message, so
      only the similarity test can make it hit. */
  lemma CapitalisedPhraseOnlyFuzzy(message: string, phrase: string, k: int, similar: Similarity)
    requires 0 <= k < |phrase| && IsUpper(phrase[k])
    ensures !Includes(Lower(message), phrase)
    ensures PhraseHits(Lower(message), phrase, similar) <==> similar(Lower(message), phrase)
  {
    NoCapitalInsideLowerCase(Lower(message), phrase, k);
  }
}
