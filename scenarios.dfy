/** Client code that drives a session through its contracts alone. */
module Scenarios {
  import opened Wrappers
  import opened Models
  import opened Transcript
  import opened IntentRouter
  import opened TokenStream
  import opened ChatSession

  /** Idle, a prompt with a keyword asks for the name. */
  method AskToRegister(s: Session, prompt: string, model: ModelId, maxTokens: int)
    requires s.Valid() && s.Capture() == Idle && MentionsKeyword(prompt)
    modifies s
    ensures s.Valid() && s.Capture() == AwaitingName
    ensures s.saved == old(s.saved) && s.selectedModel == old(s.selectedModel)
    ensures s.messages == old(s.messages) + [UserMessage(prompt), AssistantMessage(AskName)]
  {
    TurnStartsCapture(s.State(), prompt, model, maxTokens, Raised([]));
    var sent, shown := s.HandlePrompt(prompt, model, maxTokens, Raised([]));
  }

  /** Awaiting the name, the prompt is kept as the name and the email is
      asked for. */
  method GiveName(s: Session, name: string, model: ModelId, maxTokens: int)
    requires s.Valid() && s.Capture() == AwaitingName
    modifies s
    ensures s.Valid() && s.Capture() == AwaitingEmail(name)
    ensures s.saved == old(s.saved) && s.selectedModel == old(s.selectedModel)
    ensures s.messages == old(s.messages) + [UserMessage(name), AssistantMessage(AskEmail)]
  {
    TurnTakesName(s.State(), name, model, maxTokens, Raised([]));
    var sent, shown := s.HandlePrompt(name, model, maxTokens, Raised([]));
  }

  /** Awaiting the email, the pair is saved once and the session is idle
      again. */
  method GiveEmail(s: Session, name: string, email: string, model: ModelId, maxTokens: int)
    requires s.Valid() && s.Capture() == AwaitingEmail(name)
    modifies s
    ensures s.Valid() && s.Capture() == Idle
    ensures s.saved == old(s.saved) + [Contact(name, email)] && s.selectedModel == old(s.selectedModel)
    ensures s.messages == old(s.messages) + [UserMessage(email), AssistantMessage(Confirmation(name, email))]
  {
    TurnTakesEmail(s.State(), email, model, maxTokens, Raised([]));
    var sent, shown := s.HandlePrompt(email, model, maxTokens, Raised([]));
  }

  /** From any idle session, "I'd like to register", "Jane Doe",
      "jane@x.com": the pair is saved once, the session is idle again, and
      the transcript records the whole dialogue. */
  method RegistrationDialogue(s: Session, model: ModelId, maxTokens: int)
    requires s.Valid() && s.Capture() == Idle
    modifies s
    ensures s.Valid() && s.Capture() == Idle
    ensures s.saved == old(s.saved) + [Contact("Jane Doe", "jane@x.com")]
    ensures s.messages == old(s.messages) + [
      UserMessage("I'd like to register"), AssistantMessage(AskName),
      UserMessage("Jane Doe"), AssistantMessage(AskEmail),
      UserMessage("jane@x.com"), AssistantMessage(Confirmation("Jane Doe", "jane@x.com"))]
  {
    KeywordAnywhere("I'd like to ", 4, "");
    assert "I'd like to " + Keywords[4] + "" == "I'd like to register";
    AskToRegister(s, "I'd like to register", model, maxTokens);
    GiveName(s, "Jane Doe", model, maxTokens);
    GiveEmail(s, "Jane Doe", "jane@x.com", model, maxTokens);
    DialogueTranscript(old(s.messages), UserMessage("I'd like to register"), AssistantMessage(AskName),
      UserMessage("Jane Doe"), AssistantMessage(AskEmail),
      UserMessage("jane@x.com"), AssistantMessage(Confirmation("Jane Doe", "jane@x.com")));
  }

  /** Switching models while the email is awaited reseeds the transcript but
      keeps the captured name: the next prompt still completes the pair. */
  method SwitchModelDuringCapture(s: Session)
    requires s.Valid() && s.Capture() == Idle && s.selectedModel == Some(Llama3_8b)
    modifies s
    ensures s.Valid() && s.Capture() == Idle && s.selectedModel == Some(Mixtral)
    ensures s.saved == old(s.saved) + [Contact("Jane Doe", "jane@x.com")]
    ensures s.messages == [SystemMessage, UserMessage("jane@x.com"), AssistantMessage(Confirmation("Jane Doe", "jane@x.com"))]
  {
    MoreInformationPleaseIsCaptured();
    AskToRegister(s, "more information please", Llama3_8b, 4096);
    GiveName(s, "Jane Doe", Llama3_8b, 4096);
    var reset := s.SelectModel(Mixtral);
    assert reset && s.messages == [SystemMessage] && s.Capture() == AwaitingEmail("Jane Doe");
    GiveEmail(s, "Jane Doe", "jane@x.com", Mixtral, 4096);
    ExchangeAfter(SystemMessage, UserMessage("jane@x.com"), AssistantMessage(Confirmation("Jane Doe", "jane@x.com")));
  }

  /** One exchange appended to a one-message transcript. */
  lemma ExchangeAfter(m: Message, a: Message, b: Message)
    ensures [m] + [a, b] == [m, a, b]
  {
  }

  /** From any idle session, a greeting goes to the backend with the whole
      transcript; a stream that breaks after one fragment shows it and
      leaves only the prompt behind. */
  method InterruptedStream(s: Session) returns (sent: Option<Request>, shown: seq<string>)
    requires s.Valid() && s.Capture() == Idle
    modifies s
    ensures s.Valid() && s.Capture() == Idle && s.saved == old(s.saved)
    ensures s.messages == old(s.messages) + [UserMessage("Hello there")]
    ensures sent == Some(Request(Mixtral, s.messages, 1024))
    ensures shown == ["Hel"]
  {
    GreetingIsNotCaptured();
    TurnForwards(s.State(), "Hello there", Mixtral, 1024, Raised([Some("Hel")]));
    TurnShowsReply(s.State(), "Hello there", Mixtral, 1024, Raised([Some("Hel")]));
    sent, shown := s.HandlePrompt("Hello there", Mixtral, 1024, Raised([Some("Hel")]));
    assert [Some("Hel")][..0] == [];
  }

  /** From any idle session, a complete stream with absent and empty chunks
      shows only the three fragments and appends their join as the reply. */
  method CompletedStream(s: Session) returns (shown: seq<string>)
    requires s.Valid() && s.Capture() == Idle
    modifies s
    ensures s.Valid() && s.Capture() == Idle && s.saved == old(s.saved)
    ensures shown == ["Hel", "lo, ", "world!"]
    ensures s.messages == old(s.messages) + [UserMessage("Hello there"), AssistantMessage("Hello, world!")]
  {
    GreetingIsNotCaptured();
    var chunks: seq<Chunk> := [Some("Hel"), None, Some("lo, "), Some(""), Some("world!")];
    HelloWorld();
    TurnForwards(s.State(), "Hello there", Gemma2_9b, 8192, Streamed(chunks));
    TurnShowsReply(s.State(), "Hello there", Gemma2_9b, 8192, Streamed(chunks));
    var sent;
    sent, shown := s.HandlePrompt("Hello there", Gemma2_9b, 8192, Streamed(chunks));
  }
}
