/** Messages of the chat transcript and the role filter applied when a
    backend request is built. */
module Transcript {

  /** One `{role, content}` record; the role is the source's string tag. */
  datatype Message = Message(role: string, content: string)

  const SystemRole := "system"
  const UserRole := "user"
  const AssistantRole := "assistant"

  /** The roles forwarded to the backend. */
  predicate IsChatRole(role: string) {
    role == SystemRole || role == UserRole || role == AssistantRole
  }

  predicate AllChatRoles(ms: seq<Message>) {
    forall i :: 0 <= i < |ms| ==> IsChatRole(ms[i].role)
  }

  /** The fixed behavioural instruction that seeds every transcript. */
  const SystemPrompt: string :=
    "You are a helpful assistant. When a user wants to subscribe or provide their information, \n"
    + "        ask for their name and email address. Once you have both pieces of information, confirm that you've saved them.\n"
    + "        Be polite and conversational. Only ask for information when the user expresses interest in subscribing or \n"
    + "        providing their details."

  const SystemMessage := Message(SystemRole, SystemPrompt)

  /** The `messages` of a backend request: the transcript's entries whose
      role is system, user or assistant, in transcript order. */
  function ChatMessages(ms: seq<Message>): (r: seq<Message>)
    ensures |r| <= |ms|
    ensures AllChatRoles(r)
    ensures forall m :: m in r <==> m in ms && IsChatRole(m.role)
  {
    if ms == [] then []
    else
      var rest := ChatMessages(ms[..|ms| - 1]);
      var last := ms[|ms| - 1];
      assert ms == ms[..|ms| - 1] + [last];
      if IsChatRole(last.role) then rest + [last] else rest
  }

  /** Filtering distributes over concatenation, so the filter keeps order. */
  lemma {:induction false} ChatMessagesAppend(a: seq<Message>, b: seq<Message>)
    ensures ChatMessages(a + b) == ChatMessages(a) + ChatMessages(b)
    decreases |b|
  {
    if b == [] {
      assert a + b == a;
    } else {
      var b' := b[..|b| - 1];
      assert (a + b)[..|a + b| - 1] == a + b';
      ChatMessagesAppend(a, b');
    }
  }

  /** A transcript that only holds chat roles is forwarded whole. */
  lemma {:induction false} ChatMessagesOfChatTranscript(ms: seq<Message>)
    requires AllChatRoles(ms)
    ensures ChatMessages(ms) == ms
    decreases |ms|
  {
    if ms != [] {
      ChatMessagesOfChatTranscript(ms[..|ms| - 1]);
    }
  }

  /** A message with any other role never reaches the backend, wherever it sits. */
  lemma {:induction false} ChatMessagesDropsOtherRoles(a: seq<Message>, m: Message, b: seq<Message>)
    requires !IsChatRole(m.role)
    ensures ChatMessages(a + [m] + b) == ChatMessages(a) + ChatMessages(b)
  {
    ChatMessagesAppend(a + [m], b);
    ChatMessagesAppend(a, [m]);
    assert [m][..0] == [];
  }
}
