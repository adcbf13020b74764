/** The chat page of `eduragpt-main/app/chat/page.tsx`: the same message log
    as the later version, answered after a two-second timer by one of four
    canned texts picked at random, always with the same two sources; its
    history tab lists the questions oldest first. */
module MainChatPage {
  import opened Wrappers
  import opened Seqs
  import opened Text
  import opened Chunks
  import opened ChatMessages

  /** The greeting, with id `1`. */
  const WelcomeMessage := Message("1", WelcomeText, Assistant, None)

  const TrainingAnswer := "Based on your lecture materials, this concept refers to the process of training a model on data to make predictions or decisions without being explicitly programmed. The key steps involve data preparation, feature selection, model training, and evaluation."
  const ComplexityAnswer := "According to your notes, this algorithm has a time complexity of O(n log n) in the average case, making it more efficient than bubble sort but less efficient than some specialized sorting algorithms in certain scenarios."
  const InheritanceAnswer := "Your textbook explains that this principle is fundamental to object-oriented programming, allowing for code reuse and establishing a relationship between a parent class and its children."
  const TheoremAnswer := "From your study materials, I can see that this theorem states that for any continuous function f(x) on a closed interval [a,b], if f(a) and f(b) have opposite signs, then there exists at least one point c in the interval where f(c) = 0."

  /** The `responses` array of `generateMockResponse`. */
  const CannedResponses: seq<string> := [TrainingAnswer, ComplexityAnswer, InheritanceAnswer, TheoremAnswer]

  /** The two sources every answer cites. */
  const FixedSources: seq<Source> := [Source("Machine Learning Lecture 1.pdf", 12), Source("Data Structures Notes.pdf", 8)]

  /** `generateMockResponse(query)`: `Math.random()` picks an index; the query
      plays no part. */
  method GenerateMockResponse(query: string) returns (response: string)
    ensures response in CannedResponses
    ensures exists k :: 0 <= k < |CannedResponses| && response == CannedResponses[k]
  {
    var k: nat :| k < |CannedResponses| by {
      assert 0 < |CannedResponses|;
    }
    response := CannedResponses[k];
  }

  /** The assistant message the timer appends. */
  function ReplyMessage(id: string, text: string): (m: Message)
    ensures m.role == Assistant && m.content == text && m.sources == Some(FixedSources)
  {
    Message(id, text, Assistant, Some(FixedSources))
  }

  /** The history tab: the user messages, oldest first. */
  function History(messages: seq<Message>): (r: seq<Message>)
    ensures forall m :: m in r <==> m in messages && m.role == User
    ensures IsSubsequence(r, messages)
  {
    UserMessagesInOrder(messages);
    UserMessages(messages)
  }

  /** A new question goes to the bottom of the history; an answer leaves the
      history unchanged. */
  lemma HistoryAfterAppend(messages: seq<Message>, m: Message)
    ensures m.role == User ==> History(messages + [m]) == History(messages) + [m]
    ensures m.role == Assistant ==> History(messages + [m]) == History(messages)
  {
    UserMessagesAppend(messages, m);
    if m.role == Assistant {
      assert UserMessages(messages) + [] == UserMessages(messages);
    }
  }

  /** The page's `messages`, `input` and `isLoading` state. */
  class ChatPageState {
    var messages: seq<Message>
    var input: string
    var isLoading: bool

    /** The log starts with the greeting. */
    ghost predicate Valid()
      reads this
    {
      |messages| > 0 && messages[0] == WelcomeMessage
    }

    constructor ()
      ensures Valid()
      ensures messages == [WelcomeMessage] && input == "" && !isLoading
    {
      messages := [WelcomeMessage];
      input := "";
      isLoading := false;
    }

    /** Typing in the input. */
    method SetInput(text: string)
      requires Valid()
      modifies this
      ensures Valid()
      ensures input == text && messages == old(messages) && isLoading == old(isLoading)
    {
      input := text;
    }

    /** The form's `handleSendMessage`, up to arming the timer: blank input
        changes nothing; otherwise the untrimmed input is appended as a user
        message with id `now`, the input is cleared and loading starts. The
        input and the send button are disabled while loading. */
    method HandleSendMessage(now: nat) returns (sent: bool)
      requires Valid() && !isLoading
      modifies this
      ensures Valid()
      ensures sent <==> !IsBlank(old(input))
      ensures !sent ==> messages == old(messages) && input == old(input) && !isLoading
      ensures sent ==>
                (messages == old(messages) + [UserMessage(NatToString(now), old(input))]
                 && input == "" && isLoading)
    {
      if IsBlank(input) {
        sent := false;
        return;
      }
      sent := true;
      messages := messages + [UserMessage(NatToString(now), input)];
      input := "";
      isLoading := true;
    }

    /** The timer's callback: one canned answer with id `later + 1` and the
        two fixed sources is appended and loading ends. */
    method ResponseTimeout(later: nat)
      requires Valid() && isLoading
      modifies this
      ensures Valid()
      ensures |messages| == |old(messages)| + 1 && messages[..|old(messages)|] == old(messages)
      ensures var reply := messages[|messages| - 1];
        reply.id == NatToString(later + 1) && reply.role == Assistant
        && reply.content in CannedResponses && reply.sources == Some(FixedSources)
      ensures !isLoading && input == old(input)
    {
      var text := GenerateMockResponse(input);
      messages := messages + [ReplyMessage(NatToString(later + 1), text)];
      isLoading := false;
    }
  }
}
