/**
 * The general AI chat assistant: a conversation that opens with a greeting,
 * a canned reply chosen by the first keyword group the question mentions,
 * the submit handler that appends the question and the reply, and the
 * suggested questions shown before anything was asked.
 *
 * The ids of the two messages come from `Date.now()` at the time of the
 * question and after the simulated delay; both are parameters. Timestamps
 * are not modelled.
 */
module ChatAssistant {
  import opened Text
  import Seqs

  // --------------------------------------------------------- the reply chain

  /** The canned replies, one per keyword group, and the generic one. */
  datatype Topic = JavaScript | Python | React | HtmlCss | Courses | Careers | Difficulty | Generic

  /**
   * The reply chosen for a question: the question is lowercased, and the
   * groups are tried in order, each matching when its lowercased text
   * contains one of the group's words anywhere.
   */
  function ReplyTopic(input: string): (t: Topic)
    ensures t != Generic ==> Mentions(ToLower(input), t)
  {
    var userInput := ToLower(input);
    MentionsPair(userInput, JavaScript, "javascript", "js");
    MentionsOne(userInput, Python, "python");
    MentionsOne(userInput, React, "react");
    MentionsPair(userInput, HtmlCss, "html", "css");
    MentionsPair(userInput, Courses, "course", "recommend");
    MentionsPair(userInput, Careers, "career", "job");
    MentionsPair(userInput, Difficulty, "difficulty", "hard");
    if Contains(userInput, "javascript") || Contains(userInput, "js") then JavaScript
    else if Contains(userInput, "python") then Python
    else if Contains(userInput, "react") then React
    else if Contains(userInput, "html") || Contains(userInput, "css") then HtmlCss
    else if Contains(userInput, "course") || Contains(userInput, "recommend") then Courses
    else if Contains(userInput, "career") || Contains(userInput, "job") then Careers
    else if Contains(userInput, "difficulty") || Contains(userInput, "hard") then Difficulty
    else Generic
  }

  /** The order in which the keyword groups are tried. */
  const TopicOrder: seq<Topic> := [JavaScript, Python, React, HtmlCss, Courses, Careers, Difficulty]

  /** The words of each group; the generic reply has none. */
  function Keywords(t: Topic): seq<string> {
    match t
    case JavaScript => ["javascript", "js"]
    case Python => ["python"]
    case React => ["react"]
    case HtmlCss => ["html", "css"]
    case Courses => ["course", "recommend"]
    case Careers => ["career", "job"]
    case Difficulty => ["difficulty", "hard"]
    case Generic => []
  }

  /** Some word of the group occurs in the (lowercased) text. */
  predicate Mentions(lower: string, t: Topic) {
    exists k :: 0 <= k < |Keywords(t)| && Contains(lower, Keywords(t)[k])
  }

  /** A reference definition of the choice: the first group of `order` the text mentions. */
  function FirstMentioned(lower: string, order: seq<Topic>): Topic {
    if order == [] then Generic
    else if Mentions(lower, order[0]) then order[0]
    else FirstMentioned(lower, order[1..])
  }

  /**
   * `FirstMentioned` picks a mentioned group with no mentioned group before
   * it, and falls back to the generic reply exactly when no group is
   * mentioned.
   */
  lemma {:induction false} FirstMentionedIsFirst(lower: string, order: seq<Topic>)
    requires Generic !in order
    ensures var t := FirstMentioned(lower, order);
      t != Generic ==>
        exists i :: 0 <= i < |order| && order[i] == t && Mentions(lower, t) &&
          forall j :: 0 <= j < i ==> !Mentions(lower, order[j])
    ensures FirstMentioned(lower, order) == Generic <==> forall i :: 0 <= i < |order| ==> !Mentions(lower, order[i])
    decreases |order|
  {
    if order != [] && !Mentions(lower, order[0]) {
      FirstMentionedIsFirst(lower, order[1..]);
      var t := FirstMentioned(lower, order);
      if t != Generic {
        var i :| 0 <= i < |order[1..]| && order[1..][i] == t && Mentions(lower, t) &&
          forall j :: 0 <= j < i ==> !Mentions(lower, order[1..][j]);
        assert order[i + 1] == t;
        assert forall j :: 0 <= j < i + 1 ==> !Mentions(lower, order[j]) by {
          forall j | 0 <= j < i + 1
            ensures !Mentions(lower, order[j])
          {
            if j > 0 {
              assert order[j] == order[1..][j - 1];
            }
          }
        }
      }
      assert forall i :: 1 <= i < |order| ==> order[i] == order[1..][i - 1];
    }
  }

  /** A group is mentioned exactly when one of its words occurs, spelled out for a two-word group. */
  lemma {:induction false} MentionsPair(lower: string, t: Topic, a: string, b: string)
    requires Keywords(t) == [a, b]
    ensures Mentions(lower, t) <==> Contains(lower, a) || Contains(lower, b)
  {
    if Contains(lower, a) {
      assert Contains(lower, Keywords(t)[0]);
    }
    if Contains(lower, b) {
      assert Contains(lower, Keywords(t)[1]);
    }
  }

  /** The same for a one-word group. */
  lemma {:induction false} MentionsOne(lower: string, t: Topic, a: string)
    requires Keywords(t) == [a]
    ensures Mentions(lower, t) <==> Contains(lower, a)
  {
    if Contains(lower, a) {
      assert Contains(lower, Keywords(t)[0]);
    }
  }

  /** The if/else-if chain is the first-mentioned group of the lowercased question. */
  lemma {:induction false} ReplyTopicIsFirstMentioned(input: string)
    ensures ReplyTopic(input) == FirstMentioned(ToLower(input), TopicOrder)
  {
    var l := ToLower(input);
    MentionsPair(l, JavaScript, "javascript", "js");
    MentionsOne(l, Python, "python");
    MentionsOne(l, React, "react");
    MentionsPair(l, HtmlCss, "html", "css");
    MentionsPair(l, Courses, "course", "recommend");
    MentionsPair(l, Careers, "career", "job");
    MentionsPair(l, Difficulty, "difficulty", "hard");
    var o0 := TopicOrder;
    var o1 := [Python, React, HtmlCss, Courses, Careers, Difficulty];
    var o2 := [React, HtmlCss, Courses, Careers, Difficulty];
    var o3 := [HtmlCss, Courses, Careers, Difficulty];
    var o4 := [Courses, Careers, Difficulty];
    var o5 := [Careers, Difficulty];
    var o6 := [Difficulty];
    assert o0[1..] == o1 && o1[1..] == o2 && o2[1..] == o3 && o3[1..] == o4;
    assert o4[1..] == o5 && o5[1..] == o6 && o6[1..] == [];
    assert FirstMentioned(l, o6) == if Mentions(l, Difficulty) then Difficulty else Generic;
    assert FirstMentioned(l, o5) == if Mentions(l, Careers) then Careers else FirstMentioned(l, o6);
    assert FirstMentioned(l, o4) == if Mentions(l, Courses) then Courses else FirstMentioned(l, o5);
    assert FirstMentioned(l, o3) == if Mentions(l, HtmlCss) then HtmlCss else FirstMentioned(l, o4);
    assert FirstMentioned(l, o2) == if Mentions(l, React) then React else FirstMentioned(l, o3);
    assert FirstMentioned(l, o1) == if Mentions(l, Python) then Python else FirstMentioned(l, o2);
    assert FirstMentioned(l, o0) == if Mentions(l, JavaScript) then JavaScript else FirstMentioned(l, o1);
  }

  /**
   * The reply is the generic one exactly when the question mentions no
   * group, and otherwise belongs to a mentioned group that no earlier group
   * pre-empts.
   */
  lemma {:induction false} ReplyTopicOrder(input: string)
    ensures var t := ReplyTopic(input);
      t != Generic ==>
        exists i :: 0 <= i < |TopicOrder| && TopicOrder[i] == t && Mentions(ToLower(input), t) &&
          forall j :: 0 <= j < i ==> !Mentions(ToLower(input), TopicOrder[j])
    ensures ReplyTopic(input) == Generic <==>
      forall i :: 0 <= i < |TopicOrder| ==> !Mentions(ToLower(input), TopicOrder[i])
  {
    ReplyTopicIsFirstMentioned(input);
    FirstMentionedIsFirst(ToLower(input), TopicOrder);
  }

  /** Matching ignores case: a question and its lowercase form get the same reply. */
  lemma {:induction false} ReplyTopicIgnoresCase(input: string)
    ensures ReplyTopic(ToLower(input)) == ReplyTopic(input)
  {
    assert ToLower(ToLower(input)) == ToLower(input);
  }

  /** Matching is by substring: any question containing "json" gets the JavaScript reply. */
  lemma {:induction false} JsonMeansJavaScript(input: string)
    requires Contains(ToLower(input), "json")
    ensures ReplyTopic(input) == JavaScript
  {
    var l := ToLower(input);
    var i :| 0 <= i <= |l| && OccursAt(l, "json", i);
    assert l[i..i + 2] == l[i..i + 4][..2];
    assert OccursAt(l, "js", i);
  }

  /** The JavaScript group comes before the React group, so a question naming both gets the JavaScript reply. */
  lemma {:induction false} JavaScriptBeforeReact(input: string)
    requires Contains(ToLower(input), "javascript") && Contains(ToLower(input), "react")
    ensures ReplyTopic(input) == JavaScript
  {
    ReplyTopicOrder(input);
    assert Mentions(ToLower(input), JavaScript) by {
      assert Contains(ToLower(input), Keywords(JavaScript)[0]);
    }
  }

  /** The opening words of each reply; only which reply is chosen matters to the rest of the model. */
  function ReplyText(t: Topic): string {
    match t
    case JavaScript => "JavaScript is a programming language"
    case Python => "Python is a high-level, general-purpose"
    case React => "React is a JavaScript library"
    case HtmlCss => "HTML and CSS are fundamental"
    case Courses => "Based on current industry trends"
    case Careers => "Technology careers are diverse"
    case Difficulty => "Learning programming or any technical skill"
    case Generic => "That's an interesting question!"
  }

  // ------------------------------------------------------------ the chat

  datatype Role = User | Assistant

  datatype Message = Message(id: string, role: Role, content: string)

  const Greeting: Message :=
    Message("1", Assistant, "Hello! I'm your AI learning assistant. How can I help you with your courses today?")

  /** The message a question receives. */
  function ReplyTo(question: string, id: string): (m: Message)
    ensures m.role == Assistant && m.content == ReplyText(ReplyTopic(question))
  {
    Message(id, Assistant, ReplyText(ReplyTopic(question)))
  }

  /** Questions at the odd positions, the greeting and the replies at the even ones. */
  predicate Alternates(messages: seq<Message>) {
    && |messages| % 2 == 1
    && forall k :: 0 <= k < |messages| ==> (messages[k].role == User <==> k % 2 == 1)
  }

  /** Every question is non-blank and is followed by the reply chosen for it. */
  predicate Answered(messages: seq<Message>) {
    forall k :: 0 <= k < |messages| && k % 2 == 1 ==>
      !IsBlank(messages[k].content) && k + 1 < |messages| &&
      messages[k + 1].content == ReplyText(ReplyTopic(messages[k].content))
  }

  /** The question as typed and the reply chosen for it, as one submit appends them. */
  function Exchange(question: string, now: nat, later: nat): (e: seq<Message>)
    ensures |e| == 2 && e[0].role == User && e[0].content == question
    ensures e[1] == ReplyTo(question, NatToString(later + 1))
  {
    [Message(NatToString(now), User, question), ReplyTo(question, NatToString(later + 1))]
  }

  /**
   * A well-formed conversation: the greeting, then pairs of a non-blank
   * question and the reply chosen for it.
   */
  predicate Conversation(messages: seq<Message>) {
    |messages| > 0 && messages[0] == Greeting && Alternates(messages) && Answered(messages)
  }

  /** In a well-formed conversation the suggestions show exactly while no question has been asked. */
  lemma {:induction false} SuggestionsUntilFirstQuestion(messages: seq<Message>)
    requires Conversation(messages)
    ensures |messages| == 1 <==> forall k :: 0 <= k < |messages| ==> messages[k].role != User
  {
    if |messages| != 1 {
      assert messages[1].role == User;
    }
  }

  /** Appending a non-blank question and the reply chosen for it keeps a conversation well formed. */
  lemma {:induction false} ConversationExtend(messages: seq<Message>, question: Message, reply: Message)
    requires Conversation(messages)
    requires question.role == User && !IsBlank(question.content)
    requires reply.role == Assistant && reply.content == ReplyText(ReplyTopic(question.content))
    ensures Conversation(messages + [question, reply])
  {
    var m := messages + [question, reply];
    assert m[0] == messages[0];
    AlternatesExtend(messages, question, reply);
    AnsweredExtend(messages, question, reply);
  }

  /** One submit's exchange keeps a conversation well formed. */
  lemma {:induction false} ExchangeExtends(messages: seq<Message>, question: string, now: nat, later: nat)
    requires Conversation(messages) && !IsBlank(question)
    ensures Conversation(messages + Exchange(question, now, later))
  {
    var e := Exchange(question, now, later);
    ConversationExtend(messages, e[0], e[1]);
    assert messages + e == messages + [e[0], e[1]];
  }

  lemma {:induction false} AlternatesExtend(messages: seq<Message>, question: Message, reply: Message)
    requires Alternates(messages) && question.role == User && reply.role == Assistant
    ensures Alternates(messages + [question, reply])
  {
    var m := messages + [question, reply];
    assert forall k :: 0 <= k < |messages| ==> m[k] == messages[k];
  }

  lemma {:induction false} AnsweredExtend(messages: seq<Message>, question: Message, reply: Message)
    requires Alternates(messages) && Answered(messages)
    requires !IsBlank(question.content) && reply.content == ReplyText(ReplyTopic(question.content))
    ensures Answered(messages + [question, reply])
  {
    var m := messages + [question, reply];
    var n := |messages|;
    forall k | 0 <= k < |m| && k % 2 == 1
      ensures !IsBlank(m[k].content) && k + 1 < |m| && m[k + 1].content == ReplyText(ReplyTopic(m[k].content))
    {
      if k == n {
        assert m[k] == question && m[k + 1] == reply;
      } else {
        assert k + 1 < n;
        assert m[k] == messages[k] && m[k + 1] == messages[k + 1];
      }
    }
  }

  class Chat {
    var input: string
    var messages: seq<Message>
    var isLoading: bool

    predicate Valid()
      reads this
    {
      Conversation(messages)
    }

    /** The suggested questions are rendered while the conversation holds exactly one message. */
    predicate ShowSuggestions()
      reads this
    {
      |messages| == 1
    }

    /** The conversation opens with the greeting alone. */
    constructor()
      ensures Valid() && messages == [Greeting] && input == "" && !isLoading && ShowSuggestions()
    {
      input := "";
      messages := [Greeting];
      isLoading := false;
    }

    /**
     * `handleSubmit`, with `now` and `later` the values of `Date.now()`
     * when the question is sent and when the reply is ready. A blank input
     * changes nothing; otherwise the input as typed (not trimmed) is
     * appended, the input is cleared, and the reply chosen for the input is
     * appended after it.
     */
    method HandleSubmit(now: nat, later: nat)
      requires Valid()
      modifies this
      ensures Valid()
      ensures IsBlank(old(input)) ==>
        messages == old(messages) && input == old(input) && isLoading == old(isLoading)
      ensures !IsBlank(old(input)) ==>
        messages == old(messages) + Exchange(old(input), now, later) && input == "" && !isLoading
    {
      if Trim(input) == "" {
        return;
      }
      Send(now, later);
    }

    /** The part of `handleSubmit` after the blank-input guard. */
    method Send(now: nat, later: nat)
      requires Valid() && !IsBlank(input)
      modifies this
      ensures Valid()
      ensures messages == old(messages) + Exchange(old(input), now, later) && input == "" && !isLoading
    {
      var question, history := input, messages;
      var exchange := Exchange(question, now, later);
      ExchangeExtends(history, question, now, later);
      messages, input, isLoading := history + [exchange[0]], "", true;
      messages, isLoading := messages + [exchange[1]], false;
      Seqs.AppendPair(history, exchange);
    }

    /** `handleSuggestionClick`: the question is put in the input, and nothing is sent. */
    method HandleSuggestionClick(question: string)
      modifies this
      ensures input == question && messages == old(messages) && isLoading == old(isLoading)
    {
      input := question;
    }
  }
}
