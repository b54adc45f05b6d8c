/**
 * The question-answering service: detecting follow-up questions, picking
 * the course text handed to the answering model (with its 5000-character
 * budget), turning the model's result into a reply, and deriving training
 * question/answer pairs from a material. The model itself is a parameter.
 */
module AiService {
  import opened Wrappers
  import Seqs
  import opened Text

  datatype ChatMessage = ChatMessage(role: string, content: string)

  /** What `analyzeConversationContext` returns. */
  datatype ConversationContext = ConversationContext(isFollowUp: bool, previousContext: Option<string>)

  /** The phrases that mark a question as a follow-up. */
  predicate MentionsFollowUp(question: string) {
    var q := ToLower(question);
    Contains(q, "more") || Contains(q, "elaborate") || Contains(q, "what about")
  }

  /**
   * `analyzeConversationContext(question, recentMessages)`: never a
   * follow-up with fewer than two messages; otherwise a follow-up exactly
   * when the question mentions a follow-up phrase, and then the previous
   * context is the content of the second-to-last message, whoever sent it.
   */
  function AnalyzeConversationContext(question: string, recentMessages: seq<ChatMessage>): (c: ConversationContext)
    ensures |recentMessages| < 2 ==> c == ConversationContext(false, None)
    ensures |recentMessages| >= 2 ==> (c.isFollowUp <==> MentionsFollowUp(question))
    ensures c.previousContext.Some? <==> c.isFollowUp
    ensures c.isFollowUp ==> c.previousContext == Some(recentMessages[|recentMessages| - 2].content)
  {
    if |recentMessages| < 2 then ConversationContext(false, None)
    else
      var previousMessages := Seqs.TakeLast(recentMessages, 2);
      var isFollowUp := MentionsFollowUp(question);
      ConversationContext(isFollowUp, if isFollowUp then Some(previousMessages[0].content) else None)
  }

  /** A question merely containing `more` inside a word, such as "furthermore", is a follow-up. */
  lemma {:induction false} FurthermoreIsFollowUp(question: string, recentMessages: seq<ChatMessage>)
    requires |recentMessages| >= 2 && Contains(question, "furthermore")
    ensures AnalyzeConversationContext(question, recentMessages).isFollowUp
  {
    var i :| 0 <= i <= |question| && OccursAt(question, "furthermore", i);
    var f := "furthermore";
    assert |f| == 11 && f[7] == 'm' && f[8] == 'o' && f[9] == 'r' && f[10] == 'e';
    assert f[7..11] == "more";
    assert question[i + 7..i + 11] == question[i..i + 11][7..11];
    assert OccursAt(question, "more", i + 7);
    var m := "more";
    assert ToLower(m) == m by {
      assert forall k :: 0 <= k < |m| ==> LowerChar(m[k]) == m[k];
    }
    ContainsLowered(question, m);
  }

  /** The texts searched for context: materials then transcripts, after the previous context of a follow-up. */
  function Candidates(materials: seq<string>, transcripts: seq<string>, c: ConversationContext): (r: seq<string>)
    ensures c.isFollowUp && c.previousContext.Some? && c.previousContext.value != ""
      ==> r == [c.previousContext.value] + materials + transcripts
    ensures !(c.isFollowUp && c.previousContext.Some? && c.previousContext.value != "")
      ==> r == materials + transcripts
  {
    var contextMaterials := materials + transcripts;
    if c.isFollowUp && c.previousContext.Some? && c.previousContext.value != "" then
      [c.previousContext.value] + contextMaterials
    else contextMaterials
  }

  /** The candidates that contain the whole lower-cased question. */
  function Matching(candidates: seq<string>, question: string): seq<string> {
    Seqs.Filter(candidates, t => Contains(ToLower(t), ToLower(question)))
  }

  /**
   * The context text: the first three matching candidates joined by spaces,
   * or, when that is empty, the first two candidates joined by a space.
   */
  function ContextText(candidates: seq<string>, question: string): (r: string)
    ensures Matching(candidates, question) == [] ==> r == Join(Seqs.Take(candidates, 2), " ")
  {
    var relevantContext := Join(Seqs.Take(Matching(candidates, question), 3), " ");
    if relevantContext != "" then relevantContext else Join(Seqs.Take(candidates, 2), " ")
  }

  const MaxContextLength: nat := 5000

  /** `contextText.slice(0, 5000)`: a prefix of the context, at most 5000 characters long. */
  function TruncateContext(contextText: string): (r: string)
    ensures |r| <= MaxContextLength && |r| <= |contextText| && r == contextText[..|r|]
    ensures |contextText| <= MaxContextLength ==> r == contextText
  {
    Seqs.Take(contextText, MaxContextLength)
  }

  /** A joined list with at least two parts, or whose first part is non-empty, is non-empty. */
  lemma {:induction false} JoinNonEmpty(parts: seq<string>, sep: string)
    requires |sep| > 0 && |parts| >= 1 && (|parts| >= 2 || parts[0] != "")
    ensures Join(parts, sep) != ""
  {
  }

  /**
   * When some candidate contains the lower-cased question, the context is
   * the first three such candidates in order, joined by spaces; when none
   * does, it is the first two candidates.
   */
  lemma {:induction false} ContextChoice(candidates: seq<string>, question: string)
    ensures var m := Matching(candidates, question);
      |m| >= 1 ==> ContextText(candidates, question) == Join(Seqs.Take(m, 3), " ")
    ensures (forall k :: 0 <= k < |candidates| ==> !Contains(ToLower(candidates[k]), ToLower(question)))
      ==> ContextText(candidates, question) == Join(Seqs.Take(candidates, 2), " ")
  {
    var m := Matching(candidates, question);
    if |m| >= 2 || (|m| == 1 && m[0] != "") {
      JoinNonEmpty(Seqs.Take(m, 3), " ");
    } else if |m| == 1 {
      OnlyEmptyMatch(candidates, question);
    }
    if forall k :: 0 <= k < |candidates| ==> !Contains(ToLower(candidates[k]), ToLower(question)) {
      Seqs.FilterNone(candidates, t => Contains(ToLower(t), ToLower(question)));
    }
  }

  /**
   * When the only match is the empty text, the question is empty, so every
   * candidate matches and the empty text is the only candidate: both ways
   * of building the context give the empty text.
   */
  lemma {:induction false} OnlyEmptyMatch(candidates: seq<string>, question: string)
    requires Matching(candidates, question) == [""]
    ensures candidates == [""] && ContextText(candidates, question) == ""
  {
    var p := t => Contains(ToLower(t), ToLower(question));
    var m := Seqs.Filter(candidates, p);
    assert m == Matching(candidates, question);
    assert p(m[0]);
    assert ToLower(m[0]) == "";
    assert ToLower(question) == "";
    forall k | 0 <= k < |candidates|
      ensures p(candidates[k])
    {
      assert OccursAt(ToLower(candidates[k]), "", 0);
    }
    Seqs.FilterAll(candidates, p);
    assert Seqs.Take(candidates, 2) == [""];
  }

  /** Every matching candidate contains the question, and they keep the candidates' order. */
  lemma {:induction false} MatchingInOrder(candidates: seq<string>, question: string)
    ensures Seqs.IsSubsequence(Matching(candidates, question), candidates)
    ensures forall k :: 0 <= k < |Matching(candidates, question)| ==>
      Contains(ToLower(Matching(candidates, question)[k]), ToLower(question))
  {
    Seqs.FilterIsSubsequence(candidates, t => Contains(ToLower(t), ToLower(question)));
  }

  /** What the answering model returns for a question and a context, or that it (or its loading) failed. */
  datatype ModelResult = Result(answer: Option<string>) | Failure

  const FollowUpReply: string := "I understand this is a follow-up question. Could you provide more specific details about what you'd like to know?"
  const NoAnswerReply: string := "I apologize, but I couldn't find a specific answer to your question in the course materials. Could you please rephrase your question or ask about a different topic?"
  const ErrorReply: string := "I apologize, but I encountered an error while processing your question. Please try again later."

  /**
   * The context text the model is called with: at most 5000 characters,
   * taken from the start of the assembled context.
   */
  function ModelContext(question: string, materials: seq<string>, transcripts: seq<string>, recentMessages: seq<ChatMessage>): (r: string)
    ensures var c := AnalyzeConversationContext(question, recentMessages);
      |r| <= MaxContextLength && IsPrefix(r, ContextText(Candidates(materials, transcripts, c), question))
  {
    var c := AnalyzeConversationContext(question, recentMessages);
    TruncateContext(ContextText(Candidates(materials, transcripts, c), question))
  }

  /**
   * `generateAIResponse(question, context)`: a non-empty answer of the model
   * is the reply; with no answer the reply asks for details on a follow-up
   * and apologises otherwise; any failure gives the error apology.
   */
  function GenerateAIResponse(question: string, materials: seq<string>, transcripts: seq<string>,
                              recentMessages: seq<ChatMessage>, model: (string, string) -> ModelResult): (r: string)
    ensures var result := model(question, ModelContext(question, materials, transcripts, recentMessages));
      && (result.Failure? ==> r == ErrorReply)
      && (result.Result? && result.answer.Some? && result.answer.value != "" ==> r == result.answer.value)
      && (result.Result? && (result.answer.None? || result.answer.value == "") ==>
            r == if AnalyzeConversationContext(question, recentMessages).isFollowUp then FollowUpReply else NoAnswerReply)
  {
    var c := AnalyzeConversationContext(question, recentMessages);
    var truncatedContext := ModelContext(question, materials, transcripts, recentMessages);
    var result := model(question, truncatedContext);
    match result
    case Failure => ErrorReply
    case Result(answer) =>
      if answer.Some? && answer.value != "" then answer.value
      else if c.isFollowUp then FollowUpReply
      else NoAnswerReply
  }

  // ------------------------------------------------------ training questions

  datatype TrainingPair = TrainingPair(question: string, answer: string)

  const QuestionPrefix: string := "What is described by: "
  const QuestionSuffix: string := "...?"

  /** The pair for one sentence: only sentences with more than five space-separated words give one. */
  function TrainingPairFor(sentence: string): Option<TrainingPair> {
    var words := Split(Trim(sentence), ' ');
    if |words| > 5 then
      var answer := Trim(sentence);
      Some(TrainingPair(QuestionPrefix + Join(words[..5], " ") + QuestionSuffix, answer))
    else None
  }

  /** `generateTrainingQuestions(material)`. */
  function GenerateTrainingQuestions(material: string): (r: seq<TrainingPair>)
    ensures |r| <= |NonBlankSentences(material)|
  {
    Seqs.FilterMap(NonBlankSentences(material), TrainingPairFor)
  }

  /**
   * A sentence gives a pair exactly when its trimmed text has more than
   * five words; the answer is the trimmed sentence, and the question quotes
   * its first five words, which are the start of the answer.
   */
  lemma {:induction false} TrainingPairShape(sentence: string)
    ensures TrainingPairFor(sentence).Some? <==> |Split(Trim(sentence), ' ')| > 5
    ensures TrainingPairFor(sentence).Some? ==>
      var p := TrainingPairFor(sentence).value;
      var quoted := Join(Split(Trim(sentence), ' ')[..5], " ");
      && p.answer == Trim(sentence)
      && p.question == QuestionPrefix + quoted + QuestionSuffix
      && IsPrefix(quoted, p.answer)
  {
    var words := Split(Trim(sentence), ' ');
    if |words| > 5 {
      SplitPrefix(Trim(sentence), ' ', 5);
    }
  }

  /**
   * The pairs come from distinct sentences of the material, in order, and
   * every sentence with more than five words gives one.
   */
  lemma {:induction false} TrainingPairsOrigins(material: string)
    ensures var sentences := NonBlankSentences(material);
      var pairs := GenerateTrainingQuestions(material);
      var pos := Seqs.FilterMapPositions(sentences, TrainingPairFor);
      && |pos| == |pairs| <= |sentences|
      && (forall k :: 0 <= k < |pairs| ==>
            pos[k] < |sentences| && TrainingPairFor(sentences[pos[k]]) == Some(pairs[k]) &&
            pairs[k].answer == Trim(sentences[pos[k]]))
      && (forall k, l :: 0 <= k < l < |pairs| ==> pos[k] < pos[l])
      && (forall i :: 0 <= i < |sentences| && |Split(Trim(sentences[i]), ' ')| > 5 ==> i in pos)
  {
    var sentences := NonBlankSentences(material);
    var pairs := GenerateTrainingQuestions(material);
    var pos := Seqs.FilterMapPositions(sentences, TrainingPairFor);
    Seqs.FilterMapOrigins(sentences, TrainingPairFor);
    forall k | 0 <= k < |pairs|
      ensures pos[k] < |sentences| && pairs[k].answer == Trim(sentences[pos[k]])
    {
      TrainingPairShape(sentences[pos[k]]);
    }
    forall i | 0 <= i < |sentences| && |Split(Trim(sentences[i]), ' ')| > 5
      ensures i in pos
    {
      TrainingPairShape(sentences[i]);
    }
  }
}
