/** The message log both versions of `app/chat/page.tsx` keep: the message
    record, the welcome text, the user-message filter behind the history tab
    and the blank-input test. Timestamps are not modelled. */
module ChatMessages {
  import opened Wrappers
  import opened Seqs
  import opened Text
  import opened Chunks

  datatype Role = User | Assistant

  /** One chat message; only assistant answers carry sources. */
  datatype Message = Message(id: string, content: string, role: Role, sources: Option<seq<Source>>)

  /** The text of the greeting the log starts with. */
  const WelcomeText := "Hello! I'm your EduRAGPT assistant. Ask me anything about your study materials."

  /** A question as the user sent it: the untrimmed input. */
  function UserMessage(id: string, content: string): Message
  {
    Message(id, content, User, None)
  }

  /** `messages.filter(msg => msg.role === "user")` */
  function UserMessages(messages: seq<Message>): (r: seq<Message>)
    ensures forall m :: m in r <==> m in messages && m.role == User
    ensures |r| <= |messages|
  {
    Filter(messages, (m: Message) => m.role == User)
  }

  /** Appending a message adds it to the user messages exactly when it is
      one; the earlier ones stay in order. */
  lemma UserMessagesAppend(messages: seq<Message>, m: Message)
    ensures UserMessages(messages + [m]) == UserMessages(messages) + (if m.role == User then [m] else [])
  {
    FilterAppend(messages, [m], (x: Message) => x.role == User);
    assert Filter([m], (x: Message) => x.role == User) == (if m.role == User then [m] else []) by {
      assert [m][1..] == [];
    }
  }

  /** The user messages are the log's user messages in their original order. */
  lemma UserMessagesInOrder(messages: seq<Message>)
    ensures IsSubsequence(UserMessages(messages), messages)
  {
    FilterIsSubsequence(messages, (m: Message) => m.role == User);
  }

  /** Reversing after appending one element puts it first. */
  lemma ReverseAppendOne<T>(xs: seq<T>, x: T)
    ensures Reverse(xs + [x]) == [x] + Reverse(xs)
  {
    var r := Reverse(xs + [x]);
    assert r[0] == x;
    forall i | 1 <= i < |r| ensures r[i] == Reverse(xs)[i - 1] {
      assert r[i] == (xs + [x])[|xs| - i];
    }
  }
}
