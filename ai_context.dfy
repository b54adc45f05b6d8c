/**
 * The course AI context: which course the assistant is loaded for, the
 * conversation history it keeps, the guarded question handler, and the
 * helper that builds a reply from the course materials and transcripts.
 *
 * The embedding store, the material fetches, the AI answer and the
 * analytics log are outside calls; their outcomes are parameters.
 */
module CourseAIContext {
  import opened Wrappers
  import Seqs
  import opened Text

  datatype Role = User | Assistant

  datatype Entry = Entry(role: Role, content: string)

  /** The loaded course and its conversation history (always present once a course is loaded). */
  datatype CourseAIData = CourseAIData(courseId: string, courseTitle: string, history: seq<Entry>)

  /** The size of the window of history handed to the answering service. */
  const RecentWindow: nat := 5

  const NotLoadedReply: string := "Please ensure the course is loaded and AI assistant is trained with materials."

  const ErrorReply: string := "I'm sorry, I encountered an error while processing your question. Please try again later."

  // --------------------------------------------- generateContextAwareResponse

  /** The three kinds of reply the helper can give. */
  datatype ContextReply = Quoted(excerpt: string) | MoreDetails | Covered

  /** The text mentions the question: its lowercase form contains the lowercased question. */
  predicate Mentions(question: string, text: string) {
    Contains(ToLower(text), ToLower(question))
  }

  /** The filter callback of the helper. */
  function MentionsQuestion(question: string): string -> bool {
    (text: string) => Mentions(question, text)
  }

  /** The texts that mention the question, in order. */
  function Relevant(texts: seq<string>, question: string): (r: seq<string>)
    ensures forall k :: 0 <= k < |r| ==> r[k] in texts && Mentions(question, r[k])
    ensures |r| > 0 <==> exists k :: 0 <= k < |texts| && Mentions(question, texts[k])
  {
    var r := Seqs.Filter(texts, MentionsQuestion(question));
    assert forall k :: 0 <= k < |texts| && Mentions(question, texts[k]) ==> texts[k] in r;
    MemberWitness(r, texts, question);
    r
  }

  /** A non-empty selection of mentioning texts shows that some text mentions the question. */
  lemma {:induction false} MemberWitness(r: seq<string>, texts: seq<string>, question: string)
    requires forall k :: 0 <= k < |r| ==> r[k] in texts && Mentions(question, r[k])
    ensures |r| > 0 ==> exists k :: 0 <= k < |texts| && Mentions(question, texts[k])
  {
    if |r| > 0 {
      assert r[0] in texts;
      var k :| 0 <= k < |texts| && texts[k] == r[0];
      assert Mentions(question, texts[k]);
    }
  }

  /**
   * `relevantMaterials[0] || relevantTranscripts[0]`: the first relevant
   * material unless there is none or it is the empty string (which is
   * falsy); then the first relevant transcript, or `undefined`, which the
   * template prints as the word "undefined".
   */
  function Excerpt(materials: seq<string>, transcripts: seq<string>): string {
    if |materials| > 0 && materials[0] != "" then materials[0]
    else if |transcripts| > 0 then transcripts[0]
    else "undefined"
  }

  /** The question asks to go on: its lowercase form contains "more" or "elaborate". */
  predicate AsksForMore(question: string) {
    Contains(ToLower(question), "more") || Contains(ToLower(question), "elaborate")
  }

  /**
   * `generateContextAwareResponse`: a quotation when some material or
   * transcript mentions the question; else, for a follow-up (more than one
   * recent message) that asks for more, the more-details reply; else the
   * covered-in-the-course reply. Only the number of recent messages matters.
   */
  function ContextAwareReply(question: string, materials: seq<string>, transcripts: seq<string>,
                             recentMessages: seq<Entry>): (r: ContextReply)
    ensures r.Quoted? <==> |Relevant(materials, question)| > 0 || |Relevant(transcripts, question)| > 0
    ensures r.MoreDetails? ==> |recentMessages| > 1
  {
    var isFollowUpQuestion := |recentMessages| > 1;
    var relevantMaterials := Relevant(materials, question);
    var relevantTranscripts := Relevant(transcripts, question);
    if |relevantMaterials| > 0 || |relevantTranscripts| > 0 then
      Quoted(Excerpt(relevantMaterials, relevantTranscripts))
    else if isFollowUpQuestion && AsksForMore(question) then MoreDetails
    else Covered
  }

  /** The reply text, with the course title filled in. */
  function ReplyText(courseTitle: string, reply: ContextReply): (text: string)
    ensures reply.Quoted? ==> |text| >= |reply.excerpt| && text[|text| - |reply.excerpt|..] == reply.excerpt
  {
    match reply
    case Quoted(excerpt) =>
      "Based on the course materials for " + courseTitle + ", I can provide a detailed answer: " + excerpt
    case MoreDetails =>
      "Let me provide more details from " + courseTitle + "'s materials. The course covers this topic extensively with practical examples and exercises."
    case Covered =>
      "According to " + courseTitle + "'s materials, this topic is covered in the course content. Would you like me to focus on any specific aspect?"
  }

  /** The helper quotes exactly when some material or transcript mentions the question. */
  lemma {:induction false} QuotesOnlyOnMention(question: string, materials: seq<string>, transcripts: seq<string>,
                                              recent: seq<Entry>)
    ensures ContextAwareReply(question, materials, transcripts, recent).Quoted? <==>
      (exists k :: 0 <= k < |materials| && Mentions(question, materials[k])) ||
      (exists k :: 0 <= k < |transcripts| && Mentions(question, transcripts[k]))
  {
  }

  /** The first material that mentions the question is quoted when it is not empty. */
  lemma {:induction false} QuotesFirstMaterial(question: string, materials: seq<string>, transcripts: seq<string>,
                                              recent: seq<Entry>, i: nat)
    requires i < |materials| && Mentions(question, materials[i]) && materials[i] != ""
    requires forall j :: 0 <= j < i ==> !Mentions(question, materials[j])
    ensures ContextAwareReply(question, materials, transcripts, recent) == Quoted(materials[i])
  {
    Seqs.FilterFirst(materials, MentionsQuestion(question), i);
  }

  /** With no material mentioning the question, the first transcript that does is quoted. */
  lemma {:induction false} QuotesFirstTranscript(question: string, materials: seq<string>, transcripts: seq<string>,
                                                recent: seq<Entry>, i: nat)
    requires forall j :: 0 <= j < |materials| ==> !Mentions(question, materials[j])
    requires i < |transcripts| && Mentions(question, transcripts[i])
    requires forall j :: 0 <= j < i ==> !Mentions(question, transcripts[j])
    ensures ContextAwareReply(question, materials, transcripts, recent) == Quoted(transcripts[i])
  {
    Seqs.FilterNone(materials, MentionsQuestion(question));
    Seqs.FilterFirst(transcripts, MentionsQuestion(question), i);
  }

  /**
   * When the first material that mentions the question is empty and no
   * transcript mentions it, the quoted excerpt is the word "undefined":
   * the `||` fallback skips the empty material without looking further.
   */
  lemma {:induction false} EmptyMaterialQuotesUndefined(question: string, materials: seq<string>, transcripts: seq<string>,
                                                        recent: seq<Entry>, i: nat)
    requires i < |materials| && Mentions(question, materials[i]) && materials[i] == ""
    requires forall j :: 0 <= j < i ==> !Mentions(question, materials[j])
    requires forall j :: 0 <= j < |transcripts| ==> !Mentions(question, transcripts[j])
    ensures ContextAwareReply(question, materials, transcripts, recent) == Quoted("undefined")
  {
    Seqs.FilterFirst(materials, MentionsQuestion(question), i);
    Seqs.FilterNone(transcripts, MentionsQuestion(question));
  }

  /**
   * Without a mention, the more-details reply is given exactly to a
   * follow-up that asks for more, and the covered reply otherwise.
   */
  lemma {:induction false} UnmatchedReply(question: string, materials: seq<string>, transcripts: seq<string>,
                                         recent: seq<Entry>)
    requires forall j :: 0 <= j < |materials| ==> !Mentions(question, materials[j])
    requires forall j :: 0 <= j < |transcripts| ==> !Mentions(question, transcripts[j])
    ensures var r := ContextAwareReply(question, materials, transcripts, recent);
      && (r == MoreDetails <==> |recent| > 1 && AsksForMore(question))
      && (r == Covered <==> !(|recent| > 1 && AsksForMore(question)))
  {
    Seqs.FilterNone(materials, MentionsQuestion(question));
    Seqs.FilterNone(transcripts, MentionsQuestion(question));
  }

  /** An empty question is mentioned by every text, so any material at all is quoted from. */
  lemma {:induction false} EmptyQuestionQuotes(materials: seq<string>, transcripts: seq<string>, recent: seq<Entry>)
    requires |materials| > 0
    ensures ContextAwareReply("", materials, transcripts, recent).Quoted?
  {
    assert OccursAt(ToLower(materials[0]), ToLower(""), 0);
    assert Mentions("", materials[0]);
  }

  // ------------------------------------------------------------ the provider

  /**
   * The answering service as seen from the question handler: given the
   * question and the recent history, an answer, or `None` when a fetch or
   * the service failed.
   */
  type Responder = (string, seq<Entry>) -> Option<string>

  /** The history handed to the service: the last five entries, the new question included. */
  function RecentMessages(history: seq<Entry>, question: string): (recent: seq<Entry>)
    ensures |recent| == if |history| + 1 < RecentWindow then |history| + 1 else RecentWindow
    ensures recent[|recent| - 1] == Entry(User, question)
    ensures forall k :: 0 <= k < |recent| ==> recent[k] == (history + [Entry(User, question)])[|history| + 1 - |recent| + k]
  {
    Seqs.TakeLast(history + [Entry(User, question)], RecentWindow)
  }

  /** Entries older than the last four of the history never reach the service. */
  lemma {:induction false} OlderEntriesIgnored(h1: seq<Entry>, h2: seq<Entry>, question: string)
    requires |h1| >= RecentWindow - 1 && |h2| >= RecentWindow - 1
    requires h1[|h1| - (RecentWindow - 1)..] == h2[|h2| - (RecentWindow - 1)..]
    ensures RecentMessages(h1, question) == RecentMessages(h2, question)
  {
    var r1 := RecentMessages(h1, question);
    var r2 := RecentMessages(h2, question);
    forall k | 0 <= k < RecentWindow
      ensures r1[k] == r2[k]
    {
      if k < RecentWindow - 1 {
        assert r1[k] == h1[|h1| - (RecentWindow - 1) + k];
        assert r2[k] == h2[|h2| - (RecentWindow - 1) + k];
        assert h1[|h1| - (RecentWindow - 1)..][k] == h2[|h2| - (RecentWindow - 1)..][k];
      }
    }
  }

  class AIProvider {
    var isCourseAILoaded: bool
    var isLoadingAI: bool
    var courseAIData: Option<CourseAIData>

    /** A loaded assistant always has a course. */
    predicate Valid()
      reads this
    {
      isCourseAILoaded ==> courseAIData.Some?
    }

    constructor()
      ensures Valid() && !isCourseAILoaded && !isLoadingAI && courseAIData == None
    {
      isCourseAILoaded := false;
      isLoadingAI := false;
      courseAIData := None;
    }

    /**
     * `loadCourseAI`, with `stored` the number of embeddings read back
     * after storing them, or `None` when a fetch or the store failed. The
     * course is recorded with an empty history in any case; the assistant
     * counts as loaded exactly when some embeddings were read back.
     */
    method LoadCourseAI(courseId: string, courseTitle: string, stored: Option<nat>) returns (loaded: bool)
      modifies this
      ensures Valid()
      ensures courseAIData == Some(CourseAIData(courseId, courseTitle, []))
      ensures loaded <==> stored.Some? && stored.value > 0
      ensures isCourseAILoaded == loaded && !isLoadingAI
    {
      isLoadingAI := true;
      courseAIData := Some(CourseAIData(courseId, courseTitle, []));
      if stored.Some? && stored.value > 0 {
        isCourseAILoaded := true;
        loaded := true;
      } else {
        isCourseAILoaded := false;
        loaded := false;
      }
      isLoadingAI := false;
    }

    /**
     * `generateAIResponse`, with `respond` the answering service and
     * `logOk` whether logging the exchange succeeded. Without a loaded
     * course it returns the not-loaded reply and changes nothing. Otherwise
     * the question joins the history first (and stays there whatever
     * follows); the service sees only the last five entries; its answer
     * joins the history and is returned, unless the service or the log
     * failed, which gives the error reply.
     */
    method GenerateAIResponse(question: string, respond: Responder, logOk: bool) returns (response: string)
      requires Valid()
      modifies this
      ensures Valid()
      ensures isCourseAILoaded == old(isCourseAILoaded) && isLoadingAI == old(isLoadingAI)
      ensures !old(isCourseAILoaded) ==> response == NotLoadedReply && courseAIData == old(courseAIData)
      ensures old(isCourseAILoaded) ==>
        var data := old(courseAIData).value;
        var answer := respond(question, RecentMessages(data.history, question));
        && courseAIData.Some?
        && courseAIData.value.courseId == data.courseId && courseAIData.value.courseTitle == data.courseTitle
        && (answer.None? ==> courseAIData.value.history == data.history + [Entry(User, question)] &&
                             response == ErrorReply)
        && (answer.Some? ==> courseAIData.value.history ==
                               data.history + [Entry(User, question), Entry(Assistant, answer.value)] &&
                             response == if logOk then answer.value else ErrorReply)
    {
      if courseAIData.None? || !isCourseAILoaded {
        return NotLoadedReply;
      }
      var data := courseAIData.value;
      var conversationHistory := data.history + [Entry(User, question)];
      courseAIData := Some(data.(history := conversationHistory));
      var recentMessages := Seqs.TakeLast(conversationHistory, RecentWindow);
      var answer := respond(question, recentMessages);
      if answer.None? {
        return ErrorReply;
      }
      conversationHistory := conversationHistory + [Entry(Assistant, answer.value)];
      courseAIData := Some(data.(history := conversationHistory));
      response := if logOk then answer.value else ErrorReply;
    }
  }
}
