/** The chat widget and the request handler put together: the widget posts
    its message list, the handler answers, and the widget shows the answer. */
module System {
  import opened Options
  import opened Text
  import opened Messages
  import ChatRoute
  import ChatWidget

  /** How the widget reads the handler's response: a 200 body carries
      `response`, a 500 body carries both `error` and `details`. */
  function Deliver(r: ChatRoute.HttpResponse): (o: ChatWidget.Outcome)
    ensures r.Ok? <==> o.Answered?
    ensures r.Ok? ==> o.response == r.response
    ensures r.ServerError? && r.details != "" ==> ChatWidget.ErrorOf(o) == Some(r.details)
    ensures r.ServerError? && r.details == "" && r.error != "" ==> ChatWidget.ErrorOf(o) == Some(r.error)
  {
    match r
    case Ok(text) => ChatWidget.Answered(text)
    case ServerError(error, details) => ChatWidget.Refused(Some(details), Some(error))
  }

  /** One turn of the whole system: type `text`, send, the handler answers
      (with `generation` standing for what the model does with the prompt). */
  function ServeTurn(s: ChatWidget.State, text: string, generation: ChatRoute.GenerationOutcome): ChatWidget.State {
    var sub := ChatWidget.Submit(ChatWidget.SetInput(s, text));
    match sub.request
    case None => sub.state
    case Some(ms) =>
      ChatWidget.Resolve(sub.state, Deliver(ChatRoute.Post(ToWireAll(ms), generation)))
  }

  /** The list the handler receives after an accepted send ends with the
      typed text, and everything before it is the widget's earlier history. */
  lemma RequestEndsWithTypedText(s: ChatWidget.State, text: string)
    requires !s.isLoading && !IsBlank(text)
    ensures var ms := ChatWidget.Submit(ChatWidget.SetInput(s, text)).request;
      && ms.Some?
      && var wire := ToWireAll(ms.value);
      && wire != []
      && wire[|wire| - 1] == WireMessage("user", text)
      && wire[..|wire| - 1] == ToWireAll(s.messages)
  {
    var ms := s.messages + [UserSays(text)];
    ToWirePrefix(ms, |s.messages|);
    assert ms[..|s.messages|] == s.messages;
  }

  /** A question about the developer is answered from the template, whatever
      the model would have said, and no error is shown. */
  lemma DeveloperQuestionAnsweredLocally(s: ChatWidget.State, text: string, generation: ChatRoute.GenerationOutcome)
    requires !s.isLoading && !IsBlank(text)
    requires ChatRoute.IsAskingAboutDeveloper(text)
    ensures ServeTurn(s, text, generation).messages
         == s.messages + [UserSays(text), BotSays(ChatRoute.DeveloperReply(ChatRoute.Developer))]
    ensures ServeTurn(s, text, generation).error == None
    ensures !ServeTurn(s, text, generation).isLoading
  {
    var sub := ChatWidget.Submit(ChatWidget.SetInput(s, text));
    RequestEndsWithTypedText(s, text);
    var wire := ToWireAll(sub.request.value);
    var response := ChatRoute.Post(wire, generation);
    assert response == ChatRoute.Ok(ChatRoute.DeveloperReply(ChatRoute.Developer));
    assert ServeTurn(s, text, generation) == ChatWidget.Turn(s, text, Deliver(response));
    ChatWidget.TurnFromIdle(s, text, Deliver(response));
  }

  /** Any other question reaches the model with a prompt made of the
      widget's earlier history followed by the marker for the typed text. */
  lemma OtherQuestionReachesModel(s: ChatWidget.State, text: string)
    requires !s.isLoading && !IsBlank(text)
    requires !ChatRoute.IsAskingAboutDeveloper(text)
    ensures var ms := ChatWidget.Submit(ChatWidget.SetInput(s, text)).request.value;
      ChatRoute.Decide(ToWireAll(ms))
        == ChatRoute.Generate(ChatRoute.Prompt(ToWireAll(s.messages), text))
  {
    RequestEndsWithTypedText(s, text);
  }

  /** A failing model yields the apology and shows the failure's message, or
      the handler's generic label when that message is empty. */
  lemma ModelFailureShowsApology(s: ChatWidget.State, text: string, message: string)
    requires !s.isLoading && !IsBlank(text)
    requires !ChatRoute.IsAskingAboutDeveloper(text)
    ensures var r := ServeTurn(s, text, ChatRoute.GenerationFailed(message));
      && r.messages == s.messages + [UserSays(text), BotSays(ChatWidget.Apology)]
      && r.error == Some(if message != "" then message else ChatRoute.FailedToGenerate)
  {
    var g := ChatRoute.GenerationFailed(message);
    var sub := ChatWidget.Submit(ChatWidget.SetInput(s, text));
    RequestEndsWithTypedText(s, text);
    OtherQuestionReachesModel(s, text);
    var response := ChatRoute.Post(ToWireAll(sub.request.value), g);
    assert response == ChatRoute.ServerError(ChatRoute.FailedToGenerate, message);
    var o := Deliver(response);
    assert ChatWidget.ErrorOf(o) == Some(if message != "" then message else ChatRoute.FailedToGenerate);
    assert ServeTurn(s, text, g) == ChatWidget.Turn(s, text, o);
    ChatWidget.TurnFromIdle(s, text, o);
  }
}
