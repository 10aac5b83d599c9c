# Chat widget and portfolio assistant, modelled in Dafny

The system is a small chat front end. Three parts of it carry logic of their own.

- **The `POST /api/chat` handler.** It reads the posted message list and takes the latest message. If the lower-cased message contains one of fifteen fixed keywords, the handler answers with a fixed developer-contact template and never calls the model. Otherwise it flattens the earlier messages into `"<Role>: <content>\n\n"` paragraphs. It adds the marker `"User: <message>\n\nAssistant:"` and sends this single prompt to the generation endpoint.
- **The chat widget.** It holds `{messages, input, isLoading, error}`. A send is accepted only when the input is not blank and no request is in flight. An accepted send appends the user message optimistically and posts the whole list. When the request settles, the widget appends either the answer or a fixed apology. It then clears the loading flag.
- **The portfolio assistant.** It detects an "add a project" intent with a keyword test. It edits a draft `PortfolioItem`: field setters, add a trimmed tag, remove a tag by index. Submitting the draft adds it to the page and resets it.

Everything is modelled as immutable datatypes and pure functions:

- `text.dfy` (`Text`): `toLowerCase` (ASCII), `trim`, the blank test and `includes`.
- `messages.dfy` (`Messages`): the message record and its wire form.
- `chat_route.dfy` (`ChatRoute`): the request handler.
- `chat_widget.dfy` (`ChatWidget`): the chat widget, as a `Submit` step followed by a `Resolve` step.
- `portfolio_bot.dfy` (`PortfolioBot`): the portfolio assistant.
- `system.dfy` (`System`): the widget and the handler put together.
- `options.dfy` (`Options`): an `Option` type.

The generation endpoint, `fetch` and the DOM are not modelled as code. They appear only as parameters:

- a `GenerationOutcome` for what the model returns;
- an `Outcome` for how the widget's request settles;
- a `containerPresent` flag for whether the page has the element that cards are inserted into.

The cards themselves are modelled as a list of shown items.

## Model

| member | source | states |
|---|---|---|
| Text.Lower | app/api/chat/route.ts:45 | lower-casing keeps the length, maps each character on its own, and leaves no upper-case letter |
| Text.LowerIdempotent | app/api/chat/route.ts:45 | lower-casing twice is the same as lower-casing once |
| Text.Trim | components/chat-bot.tsx:32 | the input splits as leading whitespace, then the result, then trailing whitespace; the result has no whitespace at either end; it is empty exactly when the input is all whitespace |
| Text.BlankIffTrimmedEmpty | components/chat-bot.tsx:32 | the blank test `!s.trim()` holds exactly when trimming leaves nothing; the model states it as "every character is whitespace" |
| Text.IsBlank | components/portfolio-bot.tsx:42 | the falsy test `!s.trim()`; `Text.BlankIffTrimmedEmpty` shows it holds exactly when trimming leaves nothing |
| Text.TrimIdempotent | components/portfolio-bot.tsx:84 | trimming an already trimmed string changes nothing |
| Text.TrimNotBlank | components/portfolio-bot.tsx:81-84 | a non-blank string is still non-blank after trimming, so the tag `AddTag` appends is never blank |
| Text.ContainsIffOccurs | app/api/chat/route.ts:45 | the substring scan answers yes exactly when the needle occurs at some position of the text |
| Text.Contains | components/portfolio-bot.tsx:54-55 | `includes`; `Text.ContainsIffOccurs` shows it holds exactly when the needle occurs at some position |
| Text.ContainsSpliced | components/portfolio-bot.tsx:127 | a string contains any piece spliced into it |
| Messages.ToWire | components/chat-bot.tsx:51-53 | serialising keeps the content, and the role reads "user" exactly for user messages |
| Messages.ToWireAll | components/chat-bot.tsx:51-53 | the posted list has one entry per message, in order |
| Messages.ToWirePrefix | components/chat-bot.tsx:52 | serialising a prefix of the list gives the prefix of the serialised list |
| Messages.RoleName | components/chat-bot.tsx:10 | the wire role is "user" exactly for the user role |
| ChatRoute.DeveloperReply | app/api/chat/route.ts:47-52 | the template starts with the developer's name and contains the phone and email lines; it ends with the address line |
| ChatRoute.MentionsAnyIff | app/api/chat/route.ts:45 | the `some` scan over a keyword list is true exactly when some keyword occurs in the text |
| ChatRoute.MentionsAny | app/api/chat/route.ts:45 | the `some` scan over a keyword list; `ChatRoute.MentionsAnyIff` shows it holds exactly when some keyword occurs in the text |
| ChatRoute.InterceptIff | app/api/chat/route.ts:19-45 | the intercept holds exactly when one of the fifteen keywords occurs in the lower-cased message |
| ChatRoute.IsAskingAboutDeveloper | app/api/chat/route.ts:44 | the intercept test; `ChatRoute.InterceptIff` and `ChatRoute.InterceptCaseInsensitive` characterise it |
| ChatRoute.InterceptCaseInsensitive | app/api/chat/route.ts:45 | messages equal up to letter case get the same intercept decision, in particular a message and its lower-cased form |
| ChatRoute.KeywordOccurrenceIntercepts | app/api/chat/route.ts:45-47 | a keyword occurring anywhere in the lower-cased message, typed in any case, triggers the intercept |
| ChatRoute.ShoutedEmailIsIntercepted | app/api/chat/route.ts:45-52 | "What is your EMAIL?" is intercepted |
| ChatRoute.Label | app/api/chat/route.ts:66 | the label is "User" exactly when the role is "user", and "Assistant" for every other role |
| ChatRoute.Block | app/api/chat/route.ts:66-67 | one history paragraph; `ChatRoute.FlattenSingle` shows it is `Label(role) + ": " + content + "\n\n"` |
| ChatRoute.Flatten | app/api/chat/route.ts:61-69 | the history paragraphs in order; `ChatRoute.FlattenSnoc`, `ChatRoute.FlattenAppend` and `ChatRoute.AssemblePrompt` relate it to the handler's loop |
| ChatRoute.FlattenSnoc | app/api/chat/route.ts:65-68 | one more history entry appends exactly its `Label: content` paragraph |
| ChatRoute.FlattenAppend | app/api/chat/route.ts:61-69 | flattening the concatenation of two histories gives the concatenation of their flattenings |
| ChatRoute.FlattenSingle | app/api/chat/route.ts:66-67 | one history entry flattens to `Label(role) + ": " + content + "\n\n"` |
| ChatRoute.Marker | app/api/chat/route.ts:72 | the closing `"User: " + message + "\n\nAssistant:"`; `ChatRoute.Prompt` places it right after the history |
| ChatRoute.Prompt | app/api/chat/route.ts:58-72 | the prompt starts with the flattened history, ends with `"User: " + message + "\n\nAssistant:"`, and is exactly as long as the two together, so nothing comes between them |
| ChatRoute.AssemblePrompt | app/api/chat/route.ts:61-72 | the accumulating loop builds the same prompt; after k entries the accumulator is the flattening of the first k entries |
| ChatRoute.SingleMessageDecision | app/api/chat/route.ts:41-72 | a one-message list whose message is not about the developer is sent to the model as exactly `"User: " + message + "\n\nAssistant:"` |
| ChatRoute.Decide | app/api/chat/route.ts:42-72 | an empty list is malformed; otherwise the message is intercepted exactly when it mentions a keyword, and the intercept reply is the template; otherwise the prompt is the flattening of all but the last message immediately followed by the marker for the last one |
| ChatRoute.Post | app/api/chat/route.ts:37-99 | an empty list gives a 500 with the runtime's error text; an intercepted message gives 200 with the template; otherwise a 200 with the generated text, or a 500 with the generator's error message |
| ChatRoute.InterceptSkipsModel | app/api/chat/route.ts:47-52 | on an intercepted message the decision is not to generate, and every model outcome gives the same template response |
| ChatRoute.TwoTurnPromptExample | app/api/chat/route.ts:58-72 | history `[user "Hi", assistant "Hello"]` with new message "How are you?" gives `"User: Hi\n\nAssistant: Hello\n\nUser: How are you?\n\nAssistant:"` |
| ChatWidget.Initial | components/chat-bot.tsx:15-23 | the widget starts with the single greeting, empty input, not loading and no error |
| ChatWidget.SetInput | components/chat-bot.tsx:138-143 | typing replaces the input when idle, and is ignored while a request is in flight |
| ChatWidget.CanSubmit | components/chat-bot.tsx:32 | the send guard; `ChatWidget.Submit` states what happens on each side of it |
| ChatWidget.Submit | components/chat-bot.tsx:31-53 | a blank input or a pending request leaves the whole state unchanged and posts nothing; otherwise the widget appends one user message with the untrimmed input, clears the input, sets loading and clears the error, and posts the earlier messages plus that message |
| ChatWidget.FailureText | components/chat-bot.tsx:58-59 | the failure text is `details` if it is non-empty, else `error` if it is non-empty, else "Failed to get response" |
| ChatWidget.Truthy | components/chat-bot.tsx:58 | a string field is truthy when present and non-empty; `ChatWidget.FailureText` states the `||` chain in terms of it |
| ChatWidget.ErrorOf | components/chat-bot.tsx:58-71 | no error exactly for an answer; a refusal shows `FailureText(details, error)`, which is never empty; a rejected request or unparsable body shows its own message |
| ChatWidget.ReplyOf | components/chat-bot.tsx:61-77 | the bot reply is the answer's text on success and the apology for every kind of failure |
| ChatWidget.Resolve | components/chat-bot.tsx:61-81 | exactly one bot message is appended and earlier messages are kept; success appends the response text and keeps the error; failure appends the apology and shows `FailureText(details, error)` for a refusal or the rejection's own message otherwise; loading ends either way |
| ChatWidget.Turn | components/chat-bot.tsx:31-81 | one complete turn; `ChatWidget.TurnFromIdle` states its effect |
| ChatWidget.TurnFromIdle | components/chat-bot.tsx:31-81 | a turn from an idle widget ends idle; blank text adds nothing; other text adds the user message then exactly one bot reply |
| ChatWidget.Run | components/chat-bot.tsx:31-81 | a sequence of turns; `ChatWidget.RunAppendsTwoPerTurn` and `ChatWidget.RunIsPrefixClosed` state its effect |
| ChatWidget.Accepted | components/chat-bot.tsx:32 | the number of turns that pass the blank test is at most the number of turns, and equals it exactly when no typed text is blank |
| ChatWidget.RunAppendsTwoPerTurn | components/chat-bot.tsx:39-81 | from an idle state, a run ends idle, adds two messages per accepted turn, and keeps the earlier list as a prefix |
| ChatWidget.RunIsPrefixClosed | components/chat-bot.tsx:39-78 | the message list after any earlier turn is a prefix of the list after any later one |
| ChatWidget.GreetingPlusTwoPerTurn | components/chat-bot.tsx:15-81 | from the greeting, N turns with non-blank text give 1 + 2N messages, with the greeting first |
| PortfolioBot.Initial | components/portfolio-bot.tsx:24-39 | the assistant starts with its welcome message, the form closed and the empty draft with the placeholder image |
| PortfolioBot.HasAddIntent | components/portfolio-bot.tsx:53-56 | the add-intent test; `PortfolioBot.AddIntentIff` and `PortfolioBot.AddIntentCaseInsensitive` characterise it |
| PortfolioBot.AddIntentCaseInsensitive | components/portfolio-bot.tsx:53-56 | texts equal up to letter case get the same intent decision |
| PortfolioBot.AddIntentIff | components/portfolio-bot.tsx:53-56 | the intent holds exactly when "add" occurs in the lower-cased text and "project" or "portfolio" occurs too |
| PortfolioBot.SendMessage | components/portfolio-bot.tsx:41-78 | blank input changes nothing; otherwise the user message and one bot reply are appended and the input is cleared; with intent the reply is the form prompt and the form opens; without it the reply is the nudge and the form flag stays as it was |
| PortfolioBot.SendTwiceIsNoOp | components/portfolio-bot.tsx:41-51 | sending again right after a send changes nothing, because the input box has been cleared |
| PortfolioBot.AddTag | components/portfolio-bot.tsx:80-87 | a blank tag input changes nothing; otherwise the trimmed tag goes at the end of the tags and the tag input is cleared; title, description, image and everything else are unchanged |
| PortfolioBot.AddedTagIsTrimmed | components/portfolio-bot.tsx:84 | the added tag is non-blank and has no surrounding whitespace |
| PortfolioBot.RemoveAt | components/portfolio-bot.tsx:92 | removing an index in range leaves the tags before it followed by the tags after it; any other index leaves the list as it was |
| PortfolioBot.RemoveTag | components/portfolio-bot.tsx:89-94 | every other tag is kept in its original order; the count drops by one for an index in range, and any other index changes nothing; nothing outside the tags changes |
| PortfolioBot.RemoveUndoesAdd | components/portfolio-bot.tsx:80-94 | removing the tag just added restores the previous tags |
| PortfolioBot.AddedMessage | components/portfolio-bot.tsx:123-129 | the confirmation starts "Great! I've added " and contains the quoted project title |
| PortfolioBot.CanSubmitProject | components/portfolio-bot.tsx:97 | the submit guard; `PortfolioBot.SubmitProject` states what happens on each side of it |
| PortfolioBot.SubmitProject | components/portfolio-bot.tsx:96-138 | an empty title or description leaves the state unchanged (whitespace-only text passes); otherwise the draft is shown if the container exists, one confirmation with the title is appended, the form closes, and the draft is reset to empty fields and the placeholder image |
| PortfolioBot.SubmitThenSubmitIsNoOp | components/portfolio-bot.tsx:96-137 | a second submit right after a successful one changes nothing |
| PortfolioBot.SetTitle | components/portfolio-bot.tsx:180 | only the draft's title changes |
| PortfolioBot.SetDescription | components/portfolio-bot.tsx:193 | only the draft's description changes |
| PortfolioBot.SetImageUrl | components/portfolio-bot.tsx:208 | only the draft's image URL changes |
| PortfolioBot.SetTagInput | components/portfolio-bot.tsx:226 | only the tag input changes |
| PortfolioBot.SetMessageInput | components/portfolio-bot.tsx:285 | only the message input changes |
| PortfolioBot.FillAndSubmit | components/portfolio-bot.tsx:96-208 | setting title, description and image, then submitting with the card container present, shows exactly that project with its tags, resets the draft and posts the confirmation for that title |
| System.Deliver | components/chat-bot.tsx:56-71 | a 200 becomes an answer with the same text; a 500 becomes a failure whose error text is `details`, or `error` when `details` is empty |
| System.ServeTurn | components/chat-bot.tsx:31-81 | one turn through widget and handler; `System.DeveloperQuestionAnsweredLocally` and `System.ModelFailureShowsApology` state its effect |
| System.RequestEndsWithTypedText | components/chat-bot.tsx:34-53 | the posted list ends with a "user" entry holding the typed text, preceded by the widget's earlier messages |
| System.DeveloperQuestionAnsweredLocally | app/api/chat/route.ts:45-52 | a developer question typed into the widget is answered by the template for every model outcome, with no error shown |
| System.OtherQuestionReachesModel | app/api/chat/route.ts:58-72 | any other question is sent to the model as the widget's earlier history followed by the marker for the typed text |
| System.ModelFailureShowsApology | components/chat-bot.tsx:58-78 | a failing model gives the apology, and the shown error is the failure message, or "Failed to generate response" when that message is empty |

## Left out

- Unicode case mapping. `Text.Lower` maps only the ASCII letters A to Z, while `toLowerCase` maps all of Unicode. For example, `toLowerCase` turns the Kelvin sign into "k", so "MODA" followed by a Kelvin sign is intercepted in the real handler but not in the model.
- UTF-16 strings. Strings here are sequences of code points, not UTF-16 code units. `trim` is otherwise modelled with ECMAScript's exact whitespace and line-terminator set.
- The generation client: the API-key setup, the model name `gemini-1.5-flash` and the `generateContent` call. These are foreign library calls. The model's answer is an input, `GenerationOutcome`.
- Generation parameters: temperature 0.7, topK 40, topP 0.95 and maxOutputTokens 1000. They are passed to the external service and have no behaviour in the handler.
- Request-body parsing. A body without a `messages` array, or with entries that are not `{role, content}` records, is not modelled. An empty list is modelled, with the runtime's TypeError text as the `details`.
- The HTTP side of the widget: `fetch`, JSON decoding and status codes. They are reduced to the `Outcome` of `Resolve`. `Answered` is the success body. `Refused` is a non-success status with the body's optional `details` and `error`. `Rejected` is a rejected fetch or an unparsable body. The `"An unknown error occurred"` branch of the catch is not modelled, because every value this handler can throw is an `Error`.
- Timing. The 500 ms delays before the portfolio assistant replies are folded into the same step. So is the await in the chat widget. If two portfolio messages are sent within 500 ms, their replies are interleaved; this is not modelled.
- Rendering: React, auto-scroll, the loading dots, the styling and the disabled state of the send buttons.
- The card HTML. The portfolio card is built with `innerHTML` from unescaped user text. Only the fact that the draft is added to the shown list is modelled.
- The form's visibility. The tag, field and submit controls are only rendered while `isAddingProject` is true (components/portfolio-bot.tsx:169-272). `AddTag`, `RemoveTag`, the draft setters and `SubmitProject` are modelled as callable in any state, so the model allows more sequences than the page does.
- `console.error` logging.
- Other pages. `app/embed/page.tsx` imports a component that is not part of this model; its only logic is an append to a list. `app/page.tsx` and `app/chat/page.tsx` are layout only.
