/**
 * The Gemini wrapper: the keyword-matching demo responder and the way a
 * query's outcome (answer, or an error with a message) becomes the reply.
 * The request to the hosted model is a parameter, `GeminiOutcome`.
 */
module GeminiService {
  import opened Wrappers
  import Seqs
  import opened Text

  const MockPrefix: string := "Based on the course materials, I found this information that might help: \""
  const MockSuffix: string := "\"\n\nNote: This is demo mode. The AI assistant is using a simple keyword matching system instead of the full Gemini model."
  const NotFoundReply: string := "I don't have enough information in the course materials to answer that question specifically.\n\nNote: This is demo mode."
  const AuthReply: string := "The Gemini AI assistant couldn't authenticate. There may be an issue with the API key configuration."
  const RateLimitReply: string := "The AI service is currently experiencing high demand. Please try your question again in a few minutes."
  const FallbackNote: string := "\n\n(Note: Using fallback mode due to an error connecting to the AI service)"

  /** The space-separated words of a (lower-cased) question that are longer than three characters. */
  function SignificantWords(q: string): (words: seq<string>)
    ensures forall k :: 0 <= k < |words| ==> |words[k]| > 3 && words[k] in Split(q, ' ')
  {
    Seqs.Filter(Split(q, ' '), w => |w| > 3)
  }

  /** A sentence is relevant when its lower-cased text contains one of the words. */
  predicate Relevant(words: seq<string>, sentence: string) {
    exists k :: 0 <= k < |words| && Contains(ToLower(sentence), words[k])
  }

  /** The non-blank sentences of the prompt that mention a significant question word. */
  function RelevantSentences(question: string, systemPrompt: string): seq<string> {
    var words := SignificantWords(ToLower(question));
    Seqs.Filter(NonBlankSentences(systemPrompt), s => Relevant(words, s))
  }

  /**
   * `generateMockResponse(question, systemPrompt)`: the not-found reply
   * exactly when no sentence is relevant; otherwise the relevant sentences
   * quoted between the fixed prefix and the demo-mode note.
   */
  function GenerateMockResponse(question: string, systemPrompt: string): (r: string)
    ensures r == NotFoundReply <==> RelevantSentences(question, systemPrompt) == []
    ensures RelevantSentences(question, systemPrompt) != [] ==>
      r == MockPrefix + Join(RelevantSentences(question, systemPrompt), ". ") + MockSuffix
  {
    var relevant := RelevantSentences(question, systemPrompt);
    if |relevant| > 0 then
      var r := MockPrefix + Join(relevant, ". ") + MockSuffix;
      assert |r| >= |MockPrefix| + |MockSuffix| > |NotFoundReply|;
      r
    else NotFoundReply
  }

  /**
   * A sentence of the prompt is quoted exactly when it is a non-blank
   * sentence and one of the significant words of the lower-cased question
   * occurs in the lower-cased sentence.
   */
  lemma {:induction false} RelevantIff(question: string, systemPrompt: string, k: nat)
    requires k < |NonBlankSentences(systemPrompt)|
    ensures var s := NonBlankSentences(systemPrompt)[k];
      s in RelevantSentences(question, systemPrompt) <==> Relevant(SignificantWords(ToLower(question)), s)
  {
  }

  /** Every quoted sentence is a non-blank sentence of the prompt, and they keep the prompt's order. */
  lemma {:induction false} RelevantInOrder(question: string, systemPrompt: string)
    ensures Seqs.IsSubsequence(RelevantSentences(question, systemPrompt), NonBlankSentences(systemPrompt))
  {
    var words := SignificantWords(ToLower(question));
    Seqs.FilterIsSubsequence(NonBlankSentences(systemPrompt), s => Relevant(words, s));
  }

  /** Matching ignores the case of the question. */
  lemma {:induction false} MockIgnoresCase(question: string, systemPrompt: string)
    ensures GenerateMockResponse(ToLower(question), systemPrompt) == GenerateMockResponse(question, systemPrompt)
  {
    ToLowerIdempotent(question);
  }

  /** A question without a word longer than three characters never finds anything. */
  lemma {:induction false} NoSignificantWords(question: string, systemPrompt: string)
    requires SignificantWords(ToLower(question)) == []
    ensures GenerateMockResponse(question, systemPrompt) == NotFoundReply
  {
    var words := SignificantWords(ToLower(question));
    var sentences := NonBlankSentences(systemPrompt);
    Seqs.FilterNone(sentences, s => Relevant(words, s));
  }

  /** A prompt made only of sentence-end characters and white space has no sentences to quote. */
  lemma {:induction false} PunctuationOnlyPrompt(question: string, systemPrompt: string)
    requires forall i :: 0 <= i < |systemPrompt| ==> IsSentenceEnd(systemPrompt[i]) || IsSpace(systemPrompt[i])
    ensures NonBlankSentences(systemPrompt) == []
    ensures GenerateMockResponse(question, systemPrompt) == NotFoundReply
  {
    var parts := SplitSentences(systemPrompt);
    forall k | 0 <= k < |parts|
      ensures Trim(parts[k]) == []
    {
      forall n | 0 <= n < |parts[k]|
        ensures IsSpace(parts[k][n])
      {
        SentenceCharsFromInput(systemPrompt, k, n);
      }
    }
    Seqs.FilterNone(parts, t => |Trim(t)| > 0);
  }

  /** Lower-casing keeps every character that is not an upper-case letter. */
  lemma LowerKeepsSentenceEnds(s: string)
    requires NoSentenceEnd(s)
    ensures NoSentenceEnd(ToLower(s))
  {
  }

  /** A question word holding `.`, `!` or `?` can never match, as sentences never contain them. */
  lemma {:induction false} PunctuatedWordNeverMatches(systemPrompt: string, k: nat, word: string, i: nat)
    requires k < |SplitSentences(systemPrompt)|
    requires i < |word| && IsSentenceEnd(word[i])
    ensures !Contains(ToLower(SplitSentences(systemPrompt)[k]), word)
  {
    var lower := ToLower(SplitSentences(systemPrompt)[k]);
    LowerKeepsSentenceEnds(SplitSentences(systemPrompt)[k]);
    if Contains(lower, word) {
      ContainsChars(lower, word, i);
    }
  }

  // -------------------------------------------------------------- queryGemini

  /** How the request to the hosted model ended: an answer, or a thrown error with its message if any. */
  datatype GeminiOutcome = Answered(text: string) | Threw(message: Option<string>)

  predicate MessageContains(message: Option<string>, phrase: string) {
    message.Some? && Contains(message.value, phrase)
  }

  /**
   * `queryGemini(question, systemPrompt)`. A missing or empty API key
   * answers with the demo responder; otherwise the outcome of the request
   * decides: its answer, an authentication or rate-limit message, or the
   * demo reply with a fallback note.
   */
  function QueryGemini(question: string, systemPrompt: string, apiKey: Option<string>, outcome: GeminiOutcome): (r: string)
    ensures apiKey.None? || apiKey == Some("") ==> r == GenerateMockResponse(question, systemPrompt)
    ensures apiKey.Some? && apiKey.value != "" ==>
      match outcome
      case Answered(text) => r == text
      case Threw(message) =>
        if MessageContains(message, "API key") then r == AuthReply
        else if MessageContains(message, "rate limit") then r == RateLimitReply
        else r == GenerateMockResponse(question, systemPrompt) + FallbackNote
  {
    if apiKey.None? || apiKey.value == "" then
      GenerateMockResponse(question, systemPrompt)
    else
      match outcome
      case Answered(text) => text
      case Threw(message) =>
        if MessageContains(message, "API key") then AuthReply
        else if MessageContains(message, "rate limit") then RateLimitReply
        else GenerateMockResponse(question, systemPrompt) + FallbackNote
  }

  /** An error mentioning both an API key and a rate limit gets the authentication message. */
  lemma {:induction false} AuthTakesPrecedence(question: string, systemPrompt: string, key: string, message: string)
    requires key != "" && Contains(message, "API key") && Contains(message, "rate limit")
    ensures QueryGemini(question, systemPrompt, Some(key), Threw(Some(message))) == AuthReply
  {
  }

  /** The fallback reply extends the demo reply: the demo reply is a prefix of it. */
  lemma {:induction false} FallbackExtendsMock(question: string, systemPrompt: string, key: string, message: Option<string>)
    requires key != "" && !MessageContains(message, "API key") && !MessageContains(message, "rate limit")
    ensures var r := QueryGemini(question, systemPrompt, Some(key), Threw(message));
      var mock := GenerateMockResponse(question, systemPrompt);
      |r| == |mock| + |FallbackNote| && r[..|mock|] == mock
  {
  }
}
