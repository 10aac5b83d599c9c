/** The chat widget's turn state machine. The asynchronous send handler is
    split into a `Submit` step (the synchronous part before the request is
    awaited) and a `Resolve` step (the success or failure branch together
    with the `finally` that clears the loading flag). */
module ChatWidget {
  import opened Options
  import opened Text
  import opened Messages

  const Greeting := "Hi there! I'm your AI assistant created by Dr. Pritam Kumar Modak. How can I help you today?"

  /** The bot message shown when a turn fails. */
  const Apology := "I'm sorry, I encountered an error. Please try again later."

  /** The error text used when a failure response names no reason. */
  const NoReason := "Failed to get response"

  datatype State = State(
    messages: seq<Message>,
    input: string,
    isLoading: bool,
    error: Option<string>)

  /** The state a freshly mounted widget starts in. */
  function Initial(): (s: State)
    ensures s.messages == [BotSays(Greeting)]
    ensures s.input == "" && !s.isLoading && s.error == None
  {
    State([BotSays(Greeting)], "", false, None)
  }

  /** Typing into the text box. The box is disabled while a request is in
      flight, so keystrokes then are lost. */
  function SetInput(s: State, text: string): (r: State)
    ensures s.isLoading ==> r == s
    ensures !s.isLoading ==> r.input == text
    ensures r.messages == s.messages && r.isLoading == s.isLoading && r.error == s.error
  {
    if s.isLoading then s else s.(input := text)
  }

  /** The result of the send handler's synchronous part: the new state and,
      when the send was accepted, the message list posted to the server. */
  datatype Submitted = Submitted(state: State, request: Option<seq<Message>>)

  /** The send guard: something other than whitespace was typed and no
      request is in flight. */
  predicate CanSubmit(s: State) {
    !IsBlank(s.input) && !s.isLoading
  }

  function Submit(s: State): (r: Submitted)
    ensures !CanSubmit(s) ==> r.state == s && r.request == None
    ensures CanSubmit(s) ==>
      && r.state.messages == s.messages + [UserSays(s.input)]
      && r.state.input == ""
      && r.state.isLoading
      && r.state.error == None
      && r.request == Some(r.state.messages)
  {
    if !CanSubmit(s) then Submitted(s, None)
    else
      var userMessage := UserSays(s.input);
      Submitted(
        State(s.messages + [userMessage], "", true, None),
        Some(s.messages + [userMessage]))
  }

  /** How the request ended, as the handler sees it: a success body, a
      non-success status with the body's optional `details` and `error`
      fields, or a rejected `fetch` / unparsable body carrying an error message. */
  datatype Outcome =
    | Answered(response: string)
    | Refused(details: Option<string>, error: Option<string>)
    | Rejected(message: string)

  /** A JavaScript string field read in a boolean context: absent and empty are falsy. */
  predicate Truthy(field: Option<string>) {
    field.Some? && field.value != ""
  }

  /** `details || error || "Failed to get response"`. */
  function FailureText(details: Option<string>, error: Option<string>): (t: string)
    ensures Truthy(details) ==> t == details.value
    ensures !Truthy(details) && Truthy(error) ==> t == error.value
    ensures !Truthy(details) && !Truthy(error) ==> t == NoReason
    ensures t != ""
  {
    if Truthy(details) then details.value
    else if Truthy(error) then error.value
    else NoReason
  }

  /** The error text shown for a failed turn, `None` for a successful one:
      the message of the `Error` thrown for a refusal, or the rejection's own
      message. */
  function ErrorOf(o: Outcome): (e: Option<string>)
    ensures e.None? <==> o.Answered?
    ensures o.Refused? ==> e == Some(FailureText(o.details, o.error)) && e.value != ""
    ensures o.Rejected? ==> e == Some(o.message)
  {
    match o
    case Answered(_) => None
    case Refused(details, error) => Some(FailureText(details, error))
    case Rejected(message) => Some(message)
  }

  /** The reply appended for an outcome: the answer's text, or the apology
      for every kind of failure. */
  function ReplyOf(o: Outcome): (reply: string)
    ensures o.Answered? ==> reply == o.response
    ensures !o.Answered? ==> reply == Apology
  {
    if o.Answered? then o.response else Apology
  }

  /** The `try` / `catch` / `finally` after the request settles: exactly one
      bot message is appended, and the loading flag is cleared. */
  function Resolve(s: State, o: Outcome): (r: State)
    ensures r.messages == s.messages + [BotSays(ReplyOf(o))]
    ensures o.Answered? ==> ReplyOf(o) == o.response && r.error == s.error
    ensures !o.Answered? ==> ReplyOf(o) == Apology && r.error == ErrorOf(o)
    ensures o.Refused? ==> r.error == Some(FailureText(o.details, o.error))
    ensures o.Rejected? ==> r.error == Some(o.message)
    ensures r.input == s.input && !r.isLoading
  {
    match o
    case Answered(text) =>
      s.(messages := s.messages + [BotSays(text)], isLoading := false)
    case _ =>
      s.(messages := s.messages + [BotSays(Apology)], isLoading := false, error := ErrorOf(o))
  }

  /** One complete turn: type `text`, press send and, if the send is
      accepted, let the request settle with `o`. */
  function Turn(s: State, text: string, o: Outcome): State {
    var sub := Submit(SetInput(s, text));
    if sub.request.Some? then Resolve(sub.state, o) else sub.state
  }

  /** A turn from an idle widget ends idle, and either adds nothing (blank
      text) or adds the user's message followed by exactly one bot reply. */
  lemma TurnFromIdle(s: State, text: string, o: Outcome)
    requires !s.isLoading
    ensures !Turn(s, text, o).isLoading
    ensures IsBlank(text) ==> Turn(s, text, o).messages == s.messages
    ensures !IsBlank(text) ==>
      Turn(s, text, o).messages == s.messages + [UserSays(text), BotSays(ReplyOf(o))]
    ensures !IsBlank(text) ==> Turn(s, text, o).error == ErrorOf(o)
  {
    var t := SetInput(s, text);
    if !IsBlank(text) {
      var m := Submit(t).state;
      var r := Resolve(m, o);
      assert r.messages == m.messages + [BotSays(ReplyOf(o))];
      assert m.messages + [BotSays(ReplyOf(o))] == s.messages + [UserSays(text), BotSays(ReplyOf(o))];
    }
  }

  /** `s` after a sequence of turns, each given by its typed text and outcome. */
  function Run(s: State, turns: seq<(string, Outcome)>): State {
    if turns == [] then s
    else
      var last := turns[|turns| - 1];
      Turn(Run(s, turns[..|turns| - 1]), last.0, last.1)
  }

  /** Number of turns whose typed text is not blank: every turn counts
      exactly when no typed text is blank. */
  function Accepted(turns: seq<(string, Outcome)>): (n: nat)
    ensures n <= |turns|
    ensures n == |turns| <==> forall i :: 0 <= i < |turns| ==> !IsBlank(turns[i].0)
  {
    if turns == [] then 0
    else Accepted(turns[..|turns| - 1]) + (if IsBlank(turns[|turns| - 1].0) then 0 else 1)
  }

  predicate IsPrefix(a: seq<Message>, b: seq<Message>) {
    |a| <= |b| && b[..|a|] == a
  }

  /** From an idle widget, every run ends idle, grows the list by two
      messages per accepted turn, and only ever appends. */
  lemma {:induction false} RunAppendsTwoPerTurn(s: State, turns: seq<(string, Outcome)>)
    requires !s.isLoading
    ensures !Run(s, turns).isLoading
    ensures |Run(s, turns).messages| == |s.messages| + 2 * Accepted(turns)
    ensures IsPrefix(s.messages, Run(s, turns).messages)
  {
    if turns != [] {
      var init := turns[..|turns| - 1];
      var last := turns[|turns| - 1];
      RunAppendsTwoPerTurn(s, init);
      TurnFromIdle(Run(s, init), last.0, last.1);
    }
  }

  /** Every earlier state's message list is a prefix of every later one. */
  lemma {:induction false} RunIsPrefixClosed(s: State, turns: seq<(string, Outcome)>, k: nat)
    requires !s.isLoading
    requires k <= |turns|
    ensures IsPrefix(Run(s, turns[..k]).messages, Run(s, turns).messages)
    decreases |turns|
  {
    if k < |turns| {
      var init := turns[..|turns| - 1];
      var last := turns[|turns| - 1];
      assert init[..k] == turns[..k];
      RunIsPrefixClosed(s, init, k);
      RunAppendsTwoPerTurn(s, init);
      TurnFromIdle(Run(s, init), last.0, last.1);
    } else {
      assert turns[..k] == turns;
    }
  }

  /** After N turns with non-blank text the greeting is followed by 2N messages. */
  lemma GreetingPlusTwoPerTurn(turns: seq<(string, Outcome)>)
    requires forall i :: 0 <= i < |turns| ==> !IsBlank(turns[i].0)
    ensures |Run(Initial(), turns).messages| == 1 + 2 * |turns|
    ensures Run(Initial(), turns).messages[0] == BotSays(Greeting)
  {
    var s0 := Initial();
    RunAppendsTwoPerTurn(s0, turns);
    var ms := Run(s0, turns).messages;
    assert ms[0] == ms[..1][0] == s0.messages[0];
  }
}
