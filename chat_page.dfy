/** The chat page of `eduragpt/app/chat/page.tsx`: the message log with its
    send handler, the answer step that appends exactly one assistant
    message, the visualization trigger, the material search and the history
    tab. The awaited answer is a separate step; toasts, focus and scrolling
    are not modelled. */
module ChatPage {
  import opened Wrappers
  import opened Seqs
  import opened Text
  import opened Chunks
  import opened StudyMaterials
  import opened ChatMessages
  import RagUtils

  /** The greeting, with id `welcome`. */
  const WelcomeMessage := Message("welcome", WelcomeText, Assistant, None)

  /** The answer shown when generating a response fails. */
  const ApologyText := "I'm sorry, I encountered an error processing your request. Please try again."

  /** The assistant message for the outcome of `generateRAGResponse`: the
      answer with its sources, or the apology without any. */
  function ReplyMessage(outcome: Outcome<Response>, id: string): (m: Message)
    ensures m.role == Assistant
    ensures outcome.Ok? ==> m.content == outcome.value.text && m.sources == Some(outcome.value.sources)
    ensures outcome.Failed? ==> m.content == ApologyText && m.sources == None
  {
    match outcome
    case Ok(response) => Message(id, response.text, Assistant, Some(response.sources))
    case Failed => Message(id, ApologyText, Assistant, None)
  }

  /** The question words that make the page offer a new visualization. */
  predicate VisualizationTrigger(question: string)
  {
    var lower := Lower(question);
    Contains(lower, "relationship") || Contains(lower, "connection") || Contains(lower, "compare")
  }

  /** The trigger ignores letter case. */
  lemma TriggerIgnoresCase(question: string)
    ensures VisualizationTrigger(Lower(question)) == VisualizationTrigger(question)
  {
    LowerIdempotent(question);
  }

  /** `materials.filter(material => material.name.toLowerCase().includes(searchTerm.toLowerCase()))` */
  function FilteredMaterials(materials: seq<StudyMaterial>, searchTerm: string): (r: seq<StudyMaterial>)
    ensures forall m :: m in r <==> m in materials && Contains(Lower(m.name), Lower(searchTerm))
    ensures |r| <= |materials|
  {
    Filter(materials, (m: StudyMaterial) => Contains(Lower(m.name), Lower(searchTerm)))
  }

  /** An empty search keeps every material, in order; any search keeps a
      subsequence. */
  lemma FilteredMaterialsProperties(materials: seq<StudyMaterial>, searchTerm: string)
    ensures FilteredMaterials(materials, "") == materials
    ensures IsSubsequence(FilteredMaterials(materials, searchTerm), materials)
  {
    forall m | m in materials ensures Contains(Lower(m.name), Lower("")) {
      ContainsEmpty(Lower(m.name));
    }
    FilterKeepsAll(materials, (m: StudyMaterial) => Contains(Lower(m.name), Lower("")));
    FilterIsSubsequence(materials, (m: StudyMaterial) => Contains(Lower(m.name), Lower(searchTerm)));
  }

  /** The history tab: the user messages, newest first. */
  function History(messages: seq<Message>): (r: seq<Message>)
    ensures |r| == |UserMessages(messages)|
    ensures forall m :: m in r <==> m in messages && m.role == User
  {
    var users := UserMessages(messages);
    var r := Reverse(users);
    assert forall m :: m in r <==> m in users by {
      forall m | m in users ensures m in r {
        var i :| 0 <= i < |users| && users[i] == m;
        assert r[|users| - 1 - i] == m;
      }
    }
    r
  }

  /** A new question goes to the top of the history; an answer leaves the
      history unchanged. */
  lemma HistoryAfterAppend(messages: seq<Message>, m: Message)
    ensures m.role == User ==> History(messages + [m]) == [m] + History(messages)
    ensures m.role == Assistant ==> History(messages + [m]) == History(messages)
  {
    UserMessagesAppend(messages, m);
    if m.role == User {
      ReverseAppendOne(UserMessages(messages), m);
    } else {
      assert UserMessages(messages) + [] == UserMessages(messages);
    }
  }

  /** The page's `messages`, `input`, `isLoading` and `searchTerm` state, and
      the question whose answer is awaited. */
  class ChatPageState {
    var messages: seq<Message>
    var input: string
    var isLoading: bool
    var searchTerm: string
    var pending: Option<string>

    /** The log starts with the greeting, and the page is loading exactly
        while an answer is awaited. */
    ghost predicate Valid()
      reads this
    {
      |messages| > 0 && messages[0] == WelcomeMessage && (isLoading <==> pending.Some?)
    }

    constructor ()
      ensures Valid()
      ensures messages == [WelcomeMessage] && input == "" && !isLoading && searchTerm == ""
    {
      messages := [WelcomeMessage];
      input := "";
      isLoading := false;
      searchTerm := "";
      pending := None;
    }

    /** Typing in the input, or picking a question from the history. */
    method SetInput(text: string)
      requires Valid()
      modifies this
      ensures Valid()
      ensures input == text
      ensures messages == old(messages) && isLoading == old(isLoading) && pending == old(pending)
      ensures searchTerm == old(searchTerm)
    {
      input := text;
    }

    /** Clicking a material asks about it. */
    method AskAboutMaterial(name: string)
      requires Valid()
      modifies this
      ensures Valid()
      ensures input == "Tell me about " + name
      ensures messages == old(messages) && isLoading == old(isLoading) && pending == old(pending)
      ensures searchTerm == old(searchTerm)
    {
      input := "Tell me about " + name;
    }

    /** The material search box, and its clear button with `""`. */
    method SetSearchTerm(term: string)
      requires Valid()
      modifies this
      ensures Valid()
      ensures searchTerm == term
      ensures messages == old(messages) && input == old(input) && isLoading == old(isLoading)
      ensures pending == old(pending)
    {
      searchTerm := term;
    }

    /** The first half of `handleSendMessage`: blank input changes nothing;
        otherwise the untrimmed input is appended as a user message with id
        `now`, the input is cleared and the answer is awaited for the
        submitted text. The input and the send button are disabled while
        loading. */
    method HandleSendMessage(now: nat) returns (sent: bool)
      requires Valid() && !isLoading
      modifies this
      ensures Valid()
      ensures sent <==> !IsBlank(old(input))
      ensures !sent ==> messages == old(messages) && input == old(input) && !isLoading && pending == None
      ensures sent ==>
                (messages == old(messages) + [UserMessage(NatToString(now), old(input))]
                 && input == "" && isLoading && pending == Some(old(input)))
      ensures searchTerm == old(searchTerm)
    {
      if IsBlank(input) {
        sent := false;
        return;
      }
      sent := true;
      var submitted := input;
      messages := messages + [UserMessage(NatToString(now), submitted)];
      input := "";
      isLoading := true;
      pending := Some(submitted);
    }

    /** `handleKeyDown`: Enter without Shift sends, any other key does nothing. */
    method HandleKeyDown(enter: bool, shift: bool, now: nat) returns (sent: bool)
      requires Valid() && !isLoading
      modifies this
      ensures Valid()
      ensures sent <==> enter && !shift && !IsBlank(old(input))
      ensures !sent ==> messages == old(messages) && input == old(input) && !isLoading && pending == None
      ensures sent ==>
                (messages == old(messages) + [UserMessage(NatToString(now), old(input))]
                 && input == "" && isLoading && pending == Some(old(input)))
      ensures searchTerm == old(searchTerm)
    {
      if enter && !shift {
        sent := HandleSendMessage(now);
      } else {
        sent := false;
      }
    }

    /** The second half of `handleSendMessage`, once the answer has settled:
        exactly one assistant message with id `later + 1` is appended (the
        answer, or the apology), loading ends, and the visualization toast
        fires when the answer came and the submitted text has a trigger
        word. */
    method FinishResponse(outcome: Outcome<Response>, later: nat) returns (toast: bool)
      requires Valid() && pending.Some?
      modifies this
      ensures Valid()
      ensures messages == old(messages) + [ReplyMessage(outcome, NatToString(later + 1))]
      ensures toast <==> outcome.Ok? && VisualizationTrigger(old(pending).value)
      ensures !isLoading && pending == None
      ensures input == old(input) && searchTerm == old(searchTerm)
    {
      var question := pending.value;
      messages := messages + [ReplyMessage(outcome, NatToString(later + 1))];
      toast := outcome.Ok? && VisualizationTrigger(question);
      isLoading := false;
      pending := None;
    }

    /** The awaited call itself: the retrieval layer answers the submitted
        text, which always succeeds, so the one new message, with id
        `later + 1`, is the keyword-dispatched text with the sources of the
        chunks one search of the store returned; the store keeps its chunks,
        perhaps reordered. */
    method Respond(store: RagUtils.ChunkStore, later: nat) returns (toast: bool)
      requires Valid() && pending.Some?
      modifies this, store
      ensures Valid()
      ensures exists retrieved ::
        RagUtils.SearchOutcome(old(store.chunks), store.chunks, old(pending).value, retrieved)
        && messages == old(messages)
             + [ReplyMessage(Ok(Response(RagUtils.ResponseText(old(pending).value), SourcesOf(retrieved))),
                             NatToString(later + 1))]
      ensures multiset(store.chunks) == multiset(old(store.chunks))
      ensures |messages[|messages| - 1].sources.value| <= 3
      ensures toast <==> VisualizationTrigger(old(pending).value)
      ensures !isLoading && pending == None
      ensures input == old(input) && searchTerm == old(searchTerm)
    {
      ghost var before := store.chunks;
      ghost var question := pending.value;
      var response := store.GenerateRAGResponse(pending.value);
      ghost var retrieved :| RagUtils.SearchOutcome(before, store.chunks, question, retrieved)
        && response.sources == SourcesOf(retrieved);
      RagUtils.SearchResultProperties(before, store.chunks, question, retrieved);
      ghost var reply := ReplyMessage(Ok(response), NatToString(later + 1));
      toast := FinishResponse(Ok(response), later);
      assert messages == old(messages) + [reply];
    }
  }
}
