/** The per-session controller: the transcript, the selected model and the
    contact-capture state, updated once per submitted prompt. */
module ChatSession {
  import opened Wrappers
  import opened Models
  import opened Transcript
  import opened IntentRouter
  import opened TokenStream

  /** One record handed to the CSV sink (its timestamp is not modelled). */
  datatype Contact = Contact(name: string, email: string)

  /** The capture dialogue's state, read off `collecting_info` and `user_info`. */
  datatype CaptureState = Idle | AwaitingName | AwaitingEmail(name: string)

  /** What the backend call produced: a stream that ran to its end, or an
      exception raised after the chunks in `chunks` had arrived (none when
      creating the request itself failed). */
  datatype Completion = Streamed(chunks: seq<Chunk>) | Raised(chunks: seq<Chunk>)

  /** The arguments of the streaming completion call. */
  datatype Request = Request(model: ModelId, messages: seq<Message>, maxTokens: int)

  const AskName := "Sure, I'd be happy to help you subscribe. Please provide your name:"
  const AskEmail := "Please also provide your email address:"

  function UserMessage(content: string): (m: Message) { Message(UserRole, content) }
  function AssistantMessage(content: string): (m: Message) { Message(AssistantRole, content) }

  /** The confirmation sent once both values are known. */
  function Confirmation(name: string, email: string): (r: string)
    ensures |r| == |name| + |email| + 94
  {
    "Thank you for the information, " + name + "! I've saved your details and you'll receive an email at " + email + " soon."
  }

  /** The confirmation quotes both captured values verbatim. */
  lemma ConfirmationQuotesBoth(name: string, email: string)
    ensures Occurs(name, Confirmation(name, email)) && Occurs(email, Confirmation(name, email))
  {
    var pre := "Thank you for the information, ";
    var mid := "! I've saved your details and you'll receive an email at ";
    var r := Confirmation(name, email);
    assert r == pre + name + mid + email + " soon.";
    assert r[|pre|..|pre| + |name|] == name;
    assert OccursAt(name, r, |pre|);
    var at := |pre| + |name| + |mid|;
    assert r[at..at + |email|] == email;
    assert OccursAt(email, r, at);
  }

  /** The session's values: `messages`, `collecting_info` and `user_info`. */
  datatype SessionState = SessionState(messages: seq<Message>, collecting: bool, name: Option<string>, email: Option<string>)
  {
    /** The transcript starts with the one system message and holds only
        chat roles; an idle session holds no name; an email is never kept
        past the turn that supplies it, which holds as long as the save at
        that turn does not raise. */
    predicate Valid() {
      |messages| >= 1 && messages[0] == SystemMessage && AllChatRoles(messages)
      && (!collecting ==> name == None)
      && email == None
    }

    /** The capture dialogue's state, read off the flag and the name. */
    function Capture(): (c: CaptureState) {
      if !collecting then Idle
      else if name.None? then AwaitingName
      else AwaitingEmail(name.value)
    }
  }

  /** The state of a new session. */
  const Initial := SessionState([SystemMessage], false, None, None)

  /** What one turn leaves behind: the new state, the request sent to the
      backend (if any), the fragments shown while streaming, and the record
      handed to the CSV sink (if any). */
  datatype TurnResult = TurnResult(after: SessionState, sent: Option<Request>, shown: seq<string>, saved: Option<Contact>)

  /** One submitted prompt: it is recorded as a user message; then an active
      capture consumes it, a keyword starts a capture, or the transcript's
      chat messages are sent and a completed reply is recorded. */
  function Turn(s: SessionState, prompt: string, model: ModelId, maxTokens: int, reply: Completion): (r: TurnResult)
    ensures |r.after.messages| > |s.messages|
    ensures r.sent.None? ==> r.shown == []
    ensures r.saved.Some? ==> r.sent.None? && !r.after.collecting
  {
    var recorded := s.messages + [UserMessage(prompt)];
    if s.collecting then
      if s.name.None? then
        TurnResult(s.(messages := recorded + [AssistantMessage(AskEmail)], name := Some(prompt)), None, [], None)
      else if s.email.None? then
        var n := s.name.value;
        TurnResult(SessionState(recorded + [AssistantMessage(Confirmation(n, prompt))], false, None, None),
                   None, [], Some(Contact(n, prompt)))
      else
        TurnResult(s.(messages := recorded), None, [], None)
    else if MentionsKeyword(prompt) then
      TurnResult(s.(messages := recorded + [AssistantMessage(AskName)], collecting := true), None, [], None)
    else
      var request := Request(model, ChatMessages(recorded), maxTokens);
      var answered := if reply.Streamed? then recorded + [AssistantMessage(AllText(reply.chunks))] else recorded;
      TurnResult(s.(messages := answered), Some(request), Fragments(reply.chunks), None)
  }

  /** A new session satisfies the invariant and is idle. */
  lemma InitialIsValid()
    ensures Initial.Valid() && Initial.Capture() == Idle
  {
  }

  /** Every turn keeps the invariant, records the prompt as a user message
      right after the unchanged history, and adds at most one more message. */
  lemma TurnRecordsPrompt(s: SessionState, prompt: string, model: ModelId, maxTokens: int, reply: Completion)
    requires s.Valid()
    ensures var r := Turn(s, prompt, model, maxTokens, reply);
      r.after.Valid()
      && |s.messages| < |r.after.messages| <= |s.messages| + 2
      && r.after.messages[..|s.messages| + 1] == s.messages + [UserMessage(prompt)]
  {
    var r := Turn(s, prompt, model, maxTokens, reply);
    var recorded := s.messages + [UserMessage(prompt)];
    assert |r.after.messages| == |recorded| || r.after.messages == recorded + [r.after.messages[|recorded|]];
  }

  /** Awaiting the name: the prompt becomes the name verbatim and the email
      is asked for; nothing is saved and the backend is not called. */
  lemma TurnTakesName(s: SessionState, prompt: string, model: ModelId, maxTokens: int, reply: Completion)
    requires s.Valid() && s.Capture() == AwaitingName
    ensures var r := Turn(s, prompt, model, maxTokens, reply);
      r.after.Capture() == AwaitingEmail(prompt) && r.after.email == None
      && r.after.messages == s.messages + [UserMessage(prompt), AssistantMessage(AskEmail)]
      && r.saved == None && r.sent == None && r.shown == []
  {
  }

  /** Awaiting the email: the pair is handed to the sink once, the
      confirmation quoting both is recorded, and the capture ends empty. */
  lemma TurnTakesEmail(s: SessionState, prompt: string, model: ModelId, maxTokens: int, reply: Completion)
    requires s.Valid() && s.Capture().AwaitingEmail?
    ensures var r := Turn(s, prompt, model, maxTokens, reply);
      r.saved == Some(Contact(s.Capture().name, prompt))
      && r.after.Capture() == Idle && r.after.name == None && r.after.email == None
      && r.after.messages == s.messages + [UserMessage(prompt), AssistantMessage(Confirmation(s.Capture().name, prompt))]
      && r.sent == None && r.shown == []
  {
  }

  /** Idle with a keyword: capture starts with an empty record, the name is
      asked for, and the backend is not called. */
  lemma TurnStartsCapture(s: SessionState, prompt: string, model: ModelId, maxTokens: int, reply: Completion)
    requires s.Valid() && s.Capture() == Idle && MentionsKeyword(prompt)
    ensures var r := Turn(s, prompt, model, maxTokens, reply);
      r.after.Capture() == AwaitingName && r.after.name == None && r.after.email == None
      && r.after.messages == s.messages + [UserMessage(prompt), AssistantMessage(AskName)]
      && r.saved == None && r.sent == None && r.shown == []
  {
  }

  /** Idle without a keyword: the whole transcript, prompt included, is the
      request (no message is filtered out), the session stays idle, and
      nothing is saved. */
  lemma TurnForwards(s: SessionState, prompt: string, model: ModelId, maxTokens: int, reply: Completion)
    requires s.Valid() && s.Capture() == Idle && !MentionsKeyword(prompt)
    ensures var r := Turn(s, prompt, model, maxTokens, reply);
      r.sent == Some(Request(model, s.messages + [UserMessage(prompt)], maxTokens))
      && r.after.Capture() == Idle && r.saved == None
  {
    ChatMessagesOfChatTranscript(s.messages + [UserMessage(prompt)]);
  }

  /** Idle without a keyword: the non-empty fragments are shown; a
      completed stream adds one assistant message holding all the streamed
      text, an exception adds none. */
  lemma TurnShowsReply(s: SessionState, prompt: string, model: ModelId, maxTokens: int, reply: Completion)
    requires s.Capture() == Idle && !MentionsKeyword(prompt)
    ensures var r := Turn(s, prompt, model, maxTokens, reply);
      r.shown == Fragments(reply.chunks)
      && Concat(r.shown) == AllText(reply.chunks)
      && (reply.Streamed? ==>
            r.after.messages == s.messages + [UserMessage(prompt), AssistantMessage(AllText(reply.chunks))])
      && (reply.Raised? ==> r.after.messages == s.messages + [UserMessage(prompt)])
  {
    JoinedFragmentsAreAllText(reply.chunks);
  }

  /** The sink is written exactly on the turn that supplies the email, and
      the backend is called exactly on an idle turn without a keyword. */
  lemma TurnSavesAndSends(s: SessionState, prompt: string, model: ModelId, maxTokens: int, reply: Completion)
    requires s.Valid()
    ensures var r := Turn(s, prompt, model, maxTokens, reply);
      (r.saved.Some? <==> s.Capture().AwaitingEmail?)
      && (r.sent.Some? <==> s.Capture() == Idle && !MentionsKeyword(prompt))
  {
  }

  /** The records a turn hands to the sink, as a log. */
  function SavedBy(r: TurnResult): (log: seq<Contact>) {
    if r.saved.Some? then [r.saved.value] else []
  }

  /** A run of prompts under one model selection, each with the backend's
      reply: the final state and every record handed to the sink, in order. */
  function Conversation(s: SessionState, model: ModelId, maxTokens: int, turns: seq<(string, Completion)>): (SessionState, seq<Contact>)
    decreases |turns|
  {
    if turns == [] then (s, [])
    else
      var r := Turn(s, turns[0].0, model, maxTokens, turns[0].1);
      var rest := Conversation(r.after, model, maxTokens, turns[1..]);
      (rest.0, SavedBy(r) + rest.1)
  }

  /** Over any run of prompts the invariant holds, the earlier transcript is
      never edited, every prompt adds at least one message, and at most one
      record is saved per prompt. */
  lemma {:induction false} ConversationKeepsHistory(s: SessionState, model: ModelId, maxTokens: int, turns: seq<(string, Completion)>)
    requires s.Valid()
    ensures var (final, log) := Conversation(s, model, maxTokens, turns);
      final.Valid()
      && |final.messages| >= |s.messages| + |turns|
      && final.messages[..|s.messages|] == s.messages
      && |log| <= |turns|
    decreases |turns|
  {
    if turns != [] {
      var r := Turn(s, turns[0].0, model, maxTokens, turns[0].1);
      TurnRecordsPrompt(s, turns[0].0, model, maxTokens, turns[0].1);
      ConversationKeepsHistory(r.after, model, maxTokens, turns[1..]);
      var final := Conversation(r.after, model, maxTokens, turns[1..]).0;
      assert final.messages[..|s.messages|] == final.messages[..|r.after.messages|][..|s.messages|];
      assert r.after.messages[..|s.messages|] == r.after.messages[..|s.messages| + 1][..|s.messages|];
    }
  }

  /** A save that raises leaves the flag set and both values kept. In that
      state a turn matches neither capture branch: the prompt is recorded
      and nothing else happens. */
  lemma TurnInStuckCapture(s: SessionState, prompt: string, model: ModelId, maxTokens: int, reply: Completion)
    requires s.collecting && s.name.Some? && s.email.Some?
    ensures var r := Turn(s, prompt, model, maxTokens, reply);
      r.after == s.(messages := s.messages + [UserMessage(prompt)])
      && r.sent == None && r.shown == [] && r.saved == None
  {
  }

  /** Once stuck, every later prompt is only recorded: the capture state
      never changes, nothing is saved and the backend is never called. */
  lemma {:induction false} StuckCaptureSwallowsAll(s: SessionState, model: ModelId, maxTokens: int, turns: seq<(string, Completion)>)
    requires s.collecting && s.name.Some? && s.email.Some?
    ensures var (final, log) := Conversation(s, model, maxTokens, turns);
      final.collecting && final.name == s.name && final.email == s.email
      && |final.messages| == |s.messages| + |turns|
      && final.messages[..|s.messages|] == s.messages
      && log == []
    decreases |turns|
  {
    if turns != [] {
      var r := Turn(s, turns[0].0, model, maxTokens, turns[0].1);
      TurnInStuckCapture(s, turns[0].0, model, maxTokens, turns[0].1);
      StuckCaptureSwallowsAll(r.after, model, maxTokens, turns[1..]);
      var final := Conversation(r.after, model, maxTokens, turns[1..]).0;
      assert final.messages[..|s.messages|] == final.messages[..|r.after.messages|][..|s.messages|];
      assert r.after.messages[..|s.messages|] == s.messages;
    }
  }

  /** A run that starts with one turn is that turn followed by the rest. */
  lemma ConversationStep(s: SessionState, model: ModelId, maxTokens: int, first: (string, Completion), rest: seq<(string, Completion)>)
    ensures var r := Turn(s, first.0, model, maxTokens, first.1);
      var tail := Conversation(r.after, model, maxTokens, rest);
      Conversation(s, model, maxTokens, [first] + rest) == (tail.0, SavedBy(r) + tail.1)
  {
    assert ([first] + rest)[1..] == rest;
  }

  /** Awaiting the email, one more prompt saves the pair and ends idle. */
  lemma EmailEndsCapture(s: SessionState, model: ModelId, maxTokens: int, email: string, r3: Completion)
    requires s.Valid() && s.Capture().AwaitingEmail?
    ensures var (final, log) := Conversation(s, model, maxTokens, [(email, r3)]);
      log == [Contact(s.Capture().name, email)] && final.Capture() == Idle
      && final.messages == s.messages + [UserMessage(email), AssistantMessage(Confirmation(s.Capture().name, email))]
  {
    TurnTakesEmail(s, email, model, maxTokens, r3);
    var t3 := Turn(s, email, model, maxTokens, r3);
    ConversationStep(s, model, maxTokens, (email, r3), []);
    assert [(email, r3)] + [] == [(email, r3)];
    assert SavedBy(t3) + [] == SavedBy(t3);
  }

  /** Awaiting the name, a name and then an email save exactly that pair
      and end idle again. */
  lemma NameThenEmail(s: SessionState, model: ModelId, maxTokens: int,
                      name: string, email: string, r2: Completion, r3: Completion)
    requires s.Valid() && s.Capture() == AwaitingName
    ensures var (final, log) := Conversation(s, model, maxTokens, [(name, r2), (email, r3)]);
      log == [Contact(name, email)] && final.Capture() == Idle
      && final.messages == s.messages + [
           UserMessage(name), AssistantMessage(AskEmail),
           UserMessage(email), AssistantMessage(Confirmation(name, email))]
  {
    var t2 := Turn(s, name, model, maxTokens, r2);
    TurnTakesName(s, name, model, maxTokens, r2);
    TurnRecordsPrompt(s, name, model, maxTokens, r2);
    EmailEndsCapture(t2.after, model, maxTokens, email, r3);
    ConversationStep(s, model, maxTokens, (name, r2), [(email, r3)]);
    assert [(name, r2)] + [(email, r3)] == [(name, r2), (email, r3)];
    assert SavedBy(t2) == [];
    ExchangeTranscript(s.messages, UserMessage(name), AssistantMessage(AskEmail),
      UserMessage(email), AssistantMessage(Confirmation(name, email)));
  }

  /** Two exchanges appended in turn are both appended once. */
  lemma ExchangeTranscript(ms: seq<Message>, a: Message, b: Message, c: Message, d: Message)
    ensures ms + [a, b] + [c, d] == ms + [a, b, c, d]
  {
  }

  /** From any idle state, a prompt with a keyword, then a name, then an
      email, saves exactly that pair and ends idle again. */
  lemma CaptureDialogue(s: SessionState, model: ModelId, maxTokens: int,
                        ask: string, name: string, email: string, r1: Completion, r2: Completion, r3: Completion)
    requires s.Valid() && s.Capture() == Idle && MentionsKeyword(ask)
    ensures var (final, log) := Conversation(s, model, maxTokens, [(ask, r1), (name, r2), (email, r3)]);
      log == [Contact(name, email)] && final.Capture() == Idle
      && final.messages == s.messages + [
           UserMessage(ask), AssistantMessage(AskName),
           UserMessage(name), AssistantMessage(AskEmail),
           UserMessage(email), AssistantMessage(Confirmation(name, email))]
  {
    var t1 := Turn(s, ask, model, maxTokens, r1);
    TurnStartsCapture(s, ask, model, maxTokens, r1);
    TurnRecordsPrompt(s, ask, model, maxTokens, r1);
    NameThenEmail(t1.after, model, maxTokens, name, email, r2, r3);
    ConversationStep(s, model, maxTokens, (ask, r1), [(name, r2), (email, r3)]);
    assert [(ask, r1)] + [(name, r2), (email, r3)] == [(ask, r1), (name, r2), (email, r3)];
    assert SavedBy(t1) == [];
    DialogueTranscript(s.messages, UserMessage(ask), AssistantMessage(AskName),
      UserMessage(name), AssistantMessage(AskEmail), UserMessage(email), AssistantMessage(Confirmation(name, email)));
  }

  /** Exchanges appended in turn are the whole dialogue appended once. */
  lemma DialogueTranscript(ms: seq<Message>, a: Message, b: Message, c: Message, d: Message, e: Message, f: Message)
    ensures ms + [a, b] + [c, d, e, f] == ms + [a, b, c, d, e, f]
    ensures ms + [a, b] + [c, d] + [e, f] == ms + [a, b, c, d, e, f]
  {
  }

  class Session {
    /** `st.session_state.messages` */
    var messages: seq<Message>
    /** `st.session_state.selected_model` */
    var selectedModel: Option<ModelId>
    /** `st.session_state.collecting_info` */
    var collecting: bool
    /** `st.session_state.user_info["name"]` and `["email"]` */
    var name: Option<string>
    var email: Option<string>
    /** The records written to the CSV sink, oldest first. */
    ghost var saved: seq<Contact>

    function State(): (s: SessionState)
      reads this
    {
      SessionState(messages, collecting, name, email)
    }

    ghost predicate Valid()
      reads this
    {
      State().Valid()
    }

    function Capture(): (c: CaptureState)
      reads this
    {
      State().Capture()
    }

    /** First run of a session: the transcript is seeded with the system
        message, nothing is collected and no model is recorded yet. */
    constructor Init()
      ensures Valid()
      ensures State() == Initial
      ensures selectedModel == None
      ensures Capture() == Idle && saved == []
    {
      messages := [SystemMessage];
      selectedModel := None;
      collecting := false;
      name, email := None, None;
      saved := [];
    }

    /** The select box's value is compared with the recorded model; a
        different one reseeds the transcript and is recorded. The capture
        state is left as it is either way. */
    method SelectModel(option: ModelId) returns (reset: bool)
      requires Valid()
      modifies this`messages, this`selectedModel
      ensures Valid()
      ensures reset <==> old(selectedModel) != Some(option)
      ensures selectedModel == Some(option)
      ensures messages == if reset then [SystemMessage] else old(messages)
      ensures collecting == old(collecting) && name == old(name) && email == old(email)
      ensures saved == old(saved)
    {
      reset := selectedModel != Some(option);
      if reset {
        messages := [];
        selectedModel := Some(option);
        messages := messages + [SystemMessage];
      }
    }

    /** One submitted prompt, as `Turn` specifies it: the new values, the
        request issued, the fragments shown and the record saved. */
    method HandlePrompt(prompt: string, model: ModelId, maxTokens: int, reply: Completion)
      returns (sent: Option<Request>, shown: seq<string>)
      requires Valid()
      modifies this
      ensures Valid()
      ensures var r := Turn(old(State()), prompt, model, maxTokens, reply);
        State() == r.after && sent == r.sent && shown == r.shown
        && saved == old(saved) + SavedBy(r)
      ensures selectedModel == old(selectedModel)
    {
      ghost var before := State();
      RecordPrompt(prompt);
      sent, shown := None, [];
      if collecting {
        if name.None? {
          TurnTakesName(before, prompt, model, maxTokens, reply);
          TakeName(prompt);
          assert old(messages) + [UserMessage(prompt)] + [AssistantMessage(AskEmail)] == old(messages) + [UserMessage(prompt), AssistantMessage(AskEmail)];
        } else if email.None? {
          TurnTakesEmail(before, prompt, model, maxTokens, reply);
          var confirmation := TakeEmail(prompt);
          assert old(messages) + [UserMessage(prompt)] + [AssistantMessage(confirmation)] == old(messages) + [UserMessage(prompt), AssistantMessage(confirmation)];
        }
      } else if MentionsKeyword(prompt) {
        TurnStartsCapture(before, prompt, model, maxTokens, reply);
        StartCapture();
        assert old(messages) + [UserMessage(prompt)] + [AssistantMessage(AskName)] == old(messages) + [UserMessage(prompt), AssistantMessage(AskName)];
      } else {
        TurnForwards(before, prompt, model, maxTokens, reply);
        TurnShowsReply(before, prompt, model, maxTokens, reply);
        sent, shown := Forward(model, maxTokens, reply);
        if reply.Streamed? {
          assert old(messages) + [UserMessage(prompt)] + [messages[|messages| - 1]] == old(messages) + [UserMessage(prompt), messages[|messages| - 1]];
        }
      }
    }

    /** The prompt is appended to the transcript as a user message. */
    method RecordPrompt(prompt: string)
      requires Valid()
      modifies this`messages
      ensures Valid()
      ensures messages == old(messages) + [UserMessage(prompt)]
    {
      messages := messages + [UserMessage(prompt)];
    }

    /** A keyword in an idle session's prompt starts the capture and asks
        for the name. */
    method StartCapture()
      requires Valid() && !collecting
      modifies this`messages, this`collecting
      ensures Valid()
      ensures Capture() == AwaitingName
      ensures messages == old(messages) + [AssistantMessage(AskName)]
    {
      collecting := true;
      messages := messages + [AssistantMessage(AskName)];
    }

    /** Awaiting the name: the prompt is kept verbatim as the name and the
        email is asked for. */
    method TakeName(prompt: string)
      requires Valid() && collecting && name == None
      modifies this`messages, this`name
      ensures Valid()
      ensures Capture() == AwaitingEmail(prompt) && email == None
      ensures messages == old(messages) + [AssistantMessage(AskEmail)]
    {
      name := Some(prompt);
      messages := messages + [AssistantMessage(AskEmail)];
    }

    /** Awaiting the email: the prompt is the email, the pair goes to the
        sink once, the confirmation is recorded, and the capture ends. */
    method TakeEmail(prompt: string) returns (confirmation: string)
      requires Valid() && collecting && name.Some?
      modifies this`messages, this`collecting, this`name, this`email, this`saved
      ensures Valid()
      ensures confirmation == Confirmation(old(name).value, prompt)
      ensures !collecting && name == None && email == None
      ensures saved == old(saved) + [Contact(old(name).value, prompt)]
      ensures messages == old(messages) + [AssistantMessage(confirmation)]
    {
      email := Some(prompt);
      saved := saved + [Contact(name.value, email.value)];
      confirmation := Confirmation(name.value, email.value);
      messages := messages + [AssistantMessage(confirmation)];
      collecting := false;
      name, email := None, None;
    }

    /** The transcript's chat-role messages are sent to the backend; the
        fragments of its stream are shown as they come, and a stream that
        ends normally is appended as one assistant message. */
    method Forward(model: ModelId, maxTokens: int, reply: Completion)
      returns (sent: Option<Request>, shown: seq<string>)
      requires Valid()
      modifies this`messages
      ensures Valid()
      ensures sent == Some(Request(model, ChatMessages(old(messages)), maxTokens))
      ensures sent.value.messages == old(messages)
      ensures shown == Fragments(reply.chunks)
      ensures reply.Streamed? ==> messages == old(messages) + [AssistantMessage(AllText(reply.chunks))]
      ensures reply.Raised? ==> messages == old(messages)
    {
      ChatMessagesOfChatTranscript(messages);
      sent := Some(Request(model, ChatMessages(messages), maxTokens));
      shown := GenerateChatResponses(reply.chunks);
      if reply.Streamed? {
        var full := JoinFragments(shown);
        messages := messages + [AssistantMessage(full)];
      }
    }

    /** One run of the page script for an existing session: the model is
        selected (possibly reseeding the transcript) and then, when the chat
        input holds a non-empty prompt, that prompt is handled with the
        selected model and the slider's value. */
    method Rerun(option: ModelId, maxTokens: int, input: Option<string>, reply: Completion)
      returns (reset: bool, sent: Option<Request>, shown: seq<string>)
      requires Valid()
      modifies this
      ensures Valid()
      ensures selectedModel == Some(option)
      ensures reset <==> old(selectedModel) != Some(option)
      ensures var start := old(State()).(messages := if reset then [SystemMessage] else old(messages));
        if input.Some? && input.value != "" then
          var r := Turn(start, input.value, option, maxTokens, reply);
          State() == r.after && sent == r.sent && shown == r.shown && saved == old(saved) + SavedBy(r)
        else
          State() == start && sent == None && shown == [] && saved == old(saved)
    {
      reset := SelectModel(option);
      sent, shown := None, [];
      if input.Some? && input.value != "" {
        sent, shown := HandlePrompt(input.value, option, maxTokens, reply);
      }
    }
  }
}
