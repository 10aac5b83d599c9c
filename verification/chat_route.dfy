/** The `POST /api/chat` request handler: a keyword intercept that answers
    questions about the developer from a fixed template, and otherwise the
    flattening of the conversation into one prompt for the generation
    endpoint, whose answer is passed back verbatim. */
module ChatRoute {
  import opened Text
  import opened Messages

  /** The static contact record the intercept branch reports. */
  datatype DeveloperInfo = DeveloperInfo(name: string, phone: string, email: string, address: string)

  const Developer := DeveloperInfo(
    "Dr. Pritam Kumar Modak",
    "9064662830",
    "modakpritam06@gmail.com",
    "Puratan hat, Kalna, West Bengal, 713434")

  /** Lower-case fragments whose presence in the latest message diverts it
      to the intercept branch. */
  const DeveloperKeywords: seq<string> := [
    "who made you",
    "who created you",
    "who developed you",
    "who built you",
    "developer",
    "creator",
    "author",
    "owner",
    "pritam",
    "modak",
    "contact",
    "phone",
    "email",
    "address",
    "personal details"
  ]

  /** Error label of every failure response. */
  const FailedToGenerate := "Failed to generate response"

  /** The message the JavaScript runtime gives when `messages[messages.length - 1]`
      is `undefined` and its `content` is read: the details of the failure
      response for an empty message list. */
  const MissingLastMessage := "Cannot read properties of undefined (reading 'content')"

  /** The text of the intercept reply: a fixed template over the contact record. */
  function DeveloperReply(info: DeveloperInfo): (r: string)
    ensures StartsWith(r, "This chatbot was developed by " + info.name + ".")
    ensures Contains(r, "Phone: " + info.phone)
    ensures Contains(r, "Email: " + info.email)
    ensures EndsWith(r, "Address: " + info.address)
  {
    var opening := "This chatbot was developed by " + info.name + ".";
    var phone := "Phone: " + info.phone;
    var email := "Email: " + info.email;
    var address := "Address: " + info.address;
    var upToPhone := opening + "\n\nContact Information:\n" + phone;
    var upToEmail := upToPhone + "\n" + email;
    var r := upToEmail + "\n" + address;
    assert StartsWith(opening + "\n\nContact Information:\n", opening) by {
      assert (opening + "\n\nContact Information:\n")[..|opening|] == opening;
    }
    StartsWithExtended(opening + "\n\nContact Information:\n", phone, opening);
    StartsWithExtended(upToPhone, "\n", opening);
    StartsWithExtended(upToPhone + "\n", email, opening);
    StartsWithExtended(upToEmail, "\n", opening);
    StartsWithExtended(upToEmail + "\n", address, opening);
    ContainsTail(opening + "\n\nContact Information:\n", phone);
    ContainsExtended(upToPhone, "\n", phone);
    ContainsExtended(upToPhone + "\n", email, phone);
    ContainsExtended(upToEmail, "\n", phone);
    ContainsExtended(upToEmail + "\n", address, phone);
    ContainsTail(upToPhone + "\n", email);
    ContainsExtended(upToEmail, "\n", email);
    ContainsExtended(upToEmail + "\n", address, email);
    assert r[|r| - |address|..] == address;
    r
  }

  /** `keywords.some(k => text.includes(k))`, scanned in list order. */
  function MentionsAny(text: string, keywords: seq<string>): bool {
    if keywords == [] then false
    else Contains(text, keywords[0]) || MentionsAny(text, keywords[1..])
  }

  /** The scan answers yes exactly when some keyword of the list occurs. */
  lemma {:induction false} MentionsAnyIff(text: string, keywords: seq<string>)
    ensures MentionsAny(text, keywords) <==> exists j :: 0 <= j < |keywords| && Contains(text, keywords[j])
  {
    if keywords != [] {
      MentionsAnyIff(text, keywords[1..]);
      if MentionsAny(text, keywords[1..]) {
        var j :| 0 <= j < |keywords[1..]| && Contains(text, keywords[1..][j]);
        assert Contains(text, keywords[j + 1]);
      }
      if exists j :: 0 <= j < |keywords| && Contains(text, keywords[j]) {
        var j :| 0 <= j < |keywords| && Contains(text, keywords[j]);
        if j > 0 {
          assert keywords[1..][j - 1] == keywords[j];
        }
      }
    }
  }

  /** The intercept test: the lower-cased message contains some keyword. */
  predicate IsAskingAboutDeveloper(userMessage: string) {
    MentionsAny(Lower(userMessage), DeveloperKeywords)
  }

  /** The intercept holds exactly when a keyword occurs in the lower-cased message. */
  lemma InterceptIff(userMessage: string)
    ensures IsAskingAboutDeveloper(userMessage)
        <==> exists j :: 0 <= j < |DeveloperKeywords| && Contains(Lower(userMessage), DeveloperKeywords[j])
  {
    MentionsAnyIff(Lower(userMessage), DeveloperKeywords);
  }

  /** The intercept ignores letter case: messages that agree once lower-cased
      get the same decision, in particular a message and its lower-cased form. */
  lemma InterceptCaseInsensitive(m1: string, m2: string)
    requires Lower(m1) == Lower(m2)
    ensures IsAskingAboutDeveloper(m1) == IsAskingAboutDeveloper(m2)
    ensures IsAskingAboutDeveloper(m1) == IsAskingAboutDeveloper(Lower(m1))
  {
    LowerIdempotent(m1);
  }

  /** `role` of a history entry as it is written into the prompt. */
  function Label(role: string): (l: string)
    ensures l == "User" <==> role == "user"
    ensures l == "User" || l == "Assistant"
  {
    if role == "user" then "User" else "Assistant"
  }

  /** One history entry as a paragraph of the prompt. */
  function Block(m: WireMessage): string {
    Label(m.role) + ": " + m.content + "\n\n"
  }

  /** The history paragraphs, in order. */
  function Flatten(history: seq<WireMessage>): string {
    if history == [] then ""
    else Flatten(history[..|history| - 1]) + Block(history[|history| - 1])
  }

  /** Flattening one more entry appends its paragraph. */
  lemma FlattenSnoc(h: seq<WireMessage>, m: WireMessage)
    ensures Flatten(h + [m]) == Flatten(h) + Block(m)
  {
    assert (h + [m])[..|h|] == h;
  }

  /** Flattening is a homomorphism from message lists to strings. */
  lemma {:induction false} FlattenAppend(h1: seq<WireMessage>, h2: seq<WireMessage>)
    ensures Flatten(h1 + h2) == Flatten(h1) + Flatten(h2)
    decreases |h2|
  {
    if h2 == [] {
      assert h1 + h2 == h1;
    } else {
      var init := h2[..|h2| - 1];
      var last := h2[|h2| - 1];
      assert h1 + h2 == (h1 + init) + [last];
      assert h2 == init + [last];
      FlattenSnoc(h1 + init, last);
      FlattenAppend(h1, init);
      FlattenSnoc(init, last);
    }
  }

  /** A history of one entry flattens to that entry's paragraph. */
  lemma FlattenSingle(m: WireMessage)
    ensures Flatten([m]) == Label(m.role) + ": " + m.content + "\n\n"
  {
    assert [m][..0] == [];
  }

  /** The closing marker that hands the turn to the model. */
  function Marker(utterance: string): string {
    "User: " + utterance + "\n\nAssistant:"
  }

  /** The full prompt: the flattened history, then the marker for the latest message. */
  function Prompt(history: seq<WireMessage>, utterance: string): (p: string)
    ensures StartsWith(p, Flatten(history))
    ensures EndsWith(p, "User: " + utterance + "\n\nAssistant:")
    ensures |p| == |Flatten(history)| + |Marker(utterance)|
  {
    var p := Flatten(history) + Marker(utterance);
    assert p[..|Flatten(history)|] == Flatten(history);
    assert p[|p| - |Marker(utterance)|..] == Marker(utterance);
    p
  }

  /** The prompt assembly as the handler performs it: an accumulator grown by
      one paragraph per history entry, then the closing marker. */
  method AssemblePrompt(history: seq<WireMessage>, utterance: string) returns (prompt: string)
    ensures prompt == Prompt(history, utterance)
    ensures EndsWith(prompt, "User: " + utterance + "\n\nAssistant:")
  {
    prompt := "";
    var k := 0;
    while k < |history|
      invariant 0 <= k <= |history|
      invariant prompt == Flatten(history[..k])
    {
      assert history[..k + 1][..k] == history[..k];
      prompt := prompt + Block(history[k]);
      k := k + 1;
    }
    assert history[..k] == history;
    prompt := prompt + "User: " + utterance + "\n\nAssistant:";
  }

  /** What the handler does with a request body's message list. */
  datatype Decision =
    | Malformed(details: string)
    | Intercept(reply: string)
    | Generate(prompt: string)

  function Decide(messages: seq<WireMessage>): (d: Decision)
    ensures d.Malformed? <==> messages == []
    ensures messages != [] ==>
      (d.Intercept? <==> IsAskingAboutDeveloper(messages[|messages| - 1].content))
    ensures d.Intercept? ==> d.reply == DeveloperReply(Developer)
    ensures d.Generate? ==>
      && EndsWith(d.prompt, "User: " + messages[|messages| - 1].content + "\n\nAssistant:")
      && StartsWith(d.prompt, Flatten(messages[..|messages| - 1]))
      && |d.prompt| == |Flatten(messages[..|messages| - 1])| + |Marker(messages[|messages| - 1].content)|
  {
    if messages == [] then Malformed(MissingLastMessage)
    else
      var userMessage := messages[|messages| - 1].content;
      if IsAskingAboutDeveloper(userMessage) then Intercept(DeveloperReply(Developer))
      else Generate(Prompt(messages[..|messages| - 1], userMessage))
  }

  /** A conversation of one message that is not about the developer is
      sent to the model as just the marker. */
  lemma SingleMessageDecision(m: WireMessage)
    ensures !IsAskingAboutDeveloper(m.content) ==>
      Decide([m]) == Generate("User: " + m.content + "\n\nAssistant:")
  {
    assert [m][..0] == [];
  }

  /** What the generation endpoint did with the prompt it was given. */
  datatype GenerationOutcome = Generated(text: string) | GenerationFailed(message: string)

  /** The JSON response: `{ response }` with status 200, or `{ error, details }` with 500. */
  datatype HttpResponse = Ok(response: string) | ServerError(error: string, details: string)

  /** The handler end to end. `generation` is what the endpoint returns for
      the prompt, and is consulted only when the decision is to generate. */
  function Post(messages: seq<WireMessage>, generation: GenerationOutcome): (r: HttpResponse)
    ensures messages == [] ==> r == ServerError(FailedToGenerate, MissingLastMessage)
    ensures messages != [] && IsAskingAboutDeveloper(messages[|messages| - 1].content) ==>
      r == Ok(DeveloperReply(Developer))
    ensures Decide(messages).Generate? && generation.Generated? ==> r == Ok(generation.text)
    ensures Decide(messages).Generate? && generation.GenerationFailed? ==>
      r == ServerError(FailedToGenerate, generation.message)
  {
    match Decide(messages)
    case Malformed(details) => ServerError(FailedToGenerate, details)
    case Intercept(reply) => Ok(reply)
    case Generate(_) =>
      match generation
      case Generated(text) => Ok(text)
      case GenerationFailed(message) => ServerError(FailedToGenerate, message)
  }

  /** The intercept branch never depends on the model: any two generation
      outcomes give the same response, the developer template. */
  lemma InterceptSkipsModel(messages: seq<WireMessage>, g1: GenerationOutcome, g2: GenerationOutcome)
    requires messages != [] && IsAskingAboutDeveloper(messages[|messages| - 1].content)
    ensures !Decide(messages).Generate?
    ensures Post(messages, g1) == Post(messages, g2) == Ok(DeveloperReply(Developer))
  {
  }

  /** An occurrence of any keyword anywhere in the lower-cased message,
      whatever the case it was typed in, diverts it to the intercept branch. */
  lemma KeywordOccurrenceIntercepts(m: string, j: int, i: int)
    requires 0 <= j < |DeveloperKeywords|
    requires OccursAt(Lower(m), DeveloperKeywords[j], i)
    ensures IsAskingAboutDeveloper(m)
  {
    ContainsIffOccurs(Lower(m), DeveloperKeywords[j]);
    InterceptIff(m);
  }

  /** A question in capitals is intercepted all the same. */
  lemma ShoutedEmailIsIntercepted(m: string)
    requires m == "What is your EMAIL?"
    ensures IsAskingAboutDeveloper(m)
  {
    var l := Lower(m);
    assert l[13..18] == "email" by {
      assert l[13] == 'e' && l[14] == 'm' && l[15] == 'a' && l[16] == 'i' && l[17] == 'l';
    }
    KeywordOccurrenceIntercepts(m, 12, 13);
  }

  /** The worked example of a two-entry history followed by a new question. */
  lemma TwoTurnPromptExample()
    ensures Prompt([WireMessage("user", "Hi"), WireMessage("assistant", "Hello")], "How are you?")
         == "User: Hi\n\nAssistant: Hello\n\nUser: How are you?\n\nAssistant:"
  {
    var h := [WireMessage("user", "Hi"), WireMessage("assistant", "Hello")];
    assert h == [h[0]] + [h[1]];
    FlattenAppend([h[0]], [h[1]]);
    FlattenSingle(h[0]);
    FlattenSingle(h[1]);
    assert Label("assistant") == "Assistant";
    ExampleText();
  }

  /** The paragraphs of the worked example, spelled out as one literal.
      This and `ExampleParagraphs` state no property of the model: they only
      normalise concatenations of string literals, which the verifier does
      not do on its own, for `TwoTurnPromptExample`. */
  lemma ExampleText()
    ensures ("User" + ": " + "Hi" + "\n\n") + ("Assistant" + ": " + "Hello" + "\n\n")
          + ("User: " + "How are you?" + "\n\nAssistant:")
         == "User: Hi\n\nAssistant: Hello\n\nUser: How are you?\n\nAssistant:"
  {
    ExampleParagraphs();
    var history := "User: Hi\n\n" + "Assistant: Hello\n\n";
    assert forall i | 0 <= i < |history| :: history[i] == "User: Hi\n\nAssistant: Hello\n\n"[i];
    var expected := "User: Hi\n\nAssistant: Hello\n\nUser: How are you?\n\nAssistant:";
    var text := "User: Hi\n\nAssistant: Hello\n\n" + "User: How are you?\n\nAssistant:";
    assert forall i | 0 <= i < |text| :: text[i] == expected[i];
  }

  /** Each paragraph of the worked example as a single literal. */
  lemma ExampleParagraphs()
    ensures "User" + ": " + "Hi" + "\n\n" == "User: Hi\n\n"
    ensures "Assistant" + ": " + "Hello" + "\n\n" == "Assistant: Hello\n\n"
    ensures "User: " + "How are you?" + "\n\nAssistant:" == "User: How are you?\n\nAssistant:"
  {
    var a := "User" + ": " + "Hi" + "\n\n";
    var b := "Assistant" + ": " + "Hello" + "\n\n";
    var c := "User: " + "How are you?" + "\n\nAssistant:";
    assert forall i | 0 <= i < |a| :: a[i] == "User: Hi\n\n"[i];
    assert forall i | 0 <= i < |b| :: b[i] == "Assistant: Hello\n\n"[i];
    assert forall i | 0 <= i < |c| :: c[i] == "User: How are you?\n\nAssistant:"[i];
  }
}
