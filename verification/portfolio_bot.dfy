/** The portfolio assistant: a keyword test that decides whether to open the
    "add project" form, and the operations on the draft project that form
    edits. Adding a card to the page is modelled as appending the draft to
    the list of cards shown. */
module PortfolioBot {
  import opened Text
  import opened Messages

  datatype PortfolioItem = PortfolioItem(
    title: string,
    description: string,
    tags: seq<string>,
    imageUrl: string)

  const PlaceholderImage := "/placeholder.svg?height=200&width=400"

  /** The draft every form starts from. */
  const EmptyDraft := PortfolioItem("", "", [], PlaceholderImage)

  const Welcome := "Hi there! I'm your portfolio assistant. I can help you add new projects to your portfolio. Would you like to add a new project now?"

  /** The reply that opens the form. */
  const FormPrompt := "Great! Let's add a new project to your portfolio. Please fill out the form below."

  /** The reply to anything that is not a request to add a project. */
  const Nudge := "I'm here to help you add projects to your portfolio. Would you like to add a new project?"

  datatype State = State(
    messages: seq<Message>,
    input: string,
    isAddingProject: bool,
    draft: PortfolioItem,
    tagInput: string,
    shown: seq<PortfolioItem>)

  function Initial(): (s: State)
    ensures s.messages == [BotSays(Welcome)] && !s.isAddingProject
    ensures s.draft == EmptyDraft && s.input == "" && s.tagInput == "" && s.shown == []
  {
    State([BotSays(Welcome)], "", false, EmptyDraft, "", [])
  }

  /** The add-intent test on the lower-cased text: "add", and also "project"
      or "portfolio". */
  predicate HasAddIntent(input: string) {
    var l := Lower(input);
    Contains(l, "add") && (Contains(l, "project") || Contains(l, "portfolio"))
  }

  /** The intent test ignores letter case. */
  lemma AddIntentCaseInsensitive(a: string, b: string)
    requires Lower(a) == Lower(b)
    ensures HasAddIntent(a) == HasAddIntent(b)
    ensures HasAddIntent(a) == HasAddIntent(Lower(a))
  {
    LowerIdempotent(a);
  }

  /** The intent holds exactly when the needed words occur somewhere in the
      lower-cased text, at any positions and in any order. */
  lemma AddIntentIff(input: string)
    ensures HasAddIntent(input) <==>
      Occurs(Lower(input), "add")
      && (Occurs(Lower(input), "project") || Occurs(Lower(input), "portfolio"))
  {
    var l := Lower(input);
    assert HasAddIntent(input) <==> Contains(l, "add") && (Contains(l, "project") || Contains(l, "portfolio"));
    ContainsIffOccurs(l, "add");
    ContainsIffOccurs(l, "project");
    ContainsIffOccurs(l, "portfolio");
  }

  /** The send handler, with the delayed bot reply taken in the same step. */
  function SendMessage(s: State): (r: State)
    ensures IsBlank(s.input) ==> r == s
    ensures !IsBlank(s.input) ==>
      && r.messages == s.messages
           + [UserSays(s.input), BotSays(if HasAddIntent(s.input) then FormPrompt else Nudge)]
      && r.input == ""
      && r.isAddingProject == (HasAddIntent(s.input) || s.isAddingProject)
      && r.draft == s.draft && r.tagInput == s.tagInput && r.shown == s.shown
  {
    if IsBlank(s.input) then s
    else
      var withUser := s.(messages := s.messages + [UserSays(s.input)], input := "");
      if HasAddIntent(s.input) then
        withUser.(messages := withUser.messages + [BotSays(FormPrompt)], isAddingProject := true)
      else
        withUser.(messages := withUser.messages + [BotSays(Nudge)])
  }

  /** A send clears the input box, so pressing send again does nothing. */
  lemma SendTwiceIsNoOp(s: State)
    ensures SendMessage(SendMessage(s)) == SendMessage(s)
  {
  }

  /** Adding the typed tag: its trimmed text goes at the end of the draft's tags. */
  function AddTag(s: State): (r: State)
    ensures IsBlank(s.tagInput) ==> r == s
    ensures !IsBlank(s.tagInput) ==>
      && r.draft.tags == s.draft.tags + [Trim(s.tagInput)]
      && r.tagInput == ""
      && r.draft.title == s.draft.title
      && r.draft.description == s.draft.description
      && r.draft.imageUrl == s.draft.imageUrl
      && r.messages == s.messages && r.input == s.input
      && r.isAddingProject == s.isAddingProject && r.shown == s.shown
  {
    if IsBlank(s.tagInput) then s
    else s.(draft := s.draft.(tags := s.draft.tags + [Trim(s.tagInput)]), tagInput := "")
  }

  /** Every tag added is non-blank and has no surrounding whitespace. */
  lemma AddedTagIsTrimmed(s: State)
    requires !IsBlank(s.tagInput)
    ensures var t := AddTag(s).draft.tags[|s.draft.tags|];
      !IsBlank(t) && t == Trim(t)
  {
    TrimNotBlank(s.tagInput);
    TrimIdempotent(s.tagInput);
  }

  /** `tags.filter((_, i) => i !== index)`, scanning the list from the end. */
  function RemoveAt(tags: seq<string>, index: int): (r: seq<string>)
    ensures 0 <= index < |tags| ==> r == tags[..index] + tags[index + 1..]
    ensures !(0 <= index < |tags|) ==> r == tags
  {
    if tags == [] then []
    else
      var n := |tags| - 1;
      var kept := RemoveAt(tags[..n], index);
      assert tags == tags[..n] + [tags[n]];
      if index == n then kept
      else
        assert 0 <= index < n ==> tags[..n][..index] == tags[..index];
        assert 0 <= index < n ==> tags[..n][index + 1..] + [tags[n]] == tags[index + 1..];
        kept + [tags[n]]
  }

  /** Removing by index: keeps, in order, every tag at another position. */
  function RemoveTag(s: State, index: int): (r: State)
    ensures !(0 <= index < |s.draft.tags|) ==> r == s
    ensures 0 <= index < |s.draft.tags| ==> |r.draft.tags| == |s.draft.tags| - 1
    ensures forall j :: 0 <= j < |r.draft.tags| ==>
      r.draft.tags[j] == s.draft.tags[if 0 <= index <= j then j + 1 else j]
    ensures r.draft.title == s.draft.title && r.draft.description == s.draft.description
    ensures r.draft.imageUrl == s.draft.imageUrl
    ensures r.messages == s.messages && r.input == s.input && r.tagInput == s.tagInput
    ensures r.isAddingProject == s.isAddingProject && r.shown == s.shown
  {
    s.(draft := s.draft.(tags := RemoveAt(s.draft.tags, index)))
  }

  /** Removing the tag just added gives back the tags from before. */
  lemma RemoveUndoesAdd(s: State)
    requires !IsBlank(s.tagInput)
    ensures RemoveTag(AddTag(s), |s.draft.tags|).draft.tags == s.draft.tags
  {
    var t := AddTag(s).draft.tags;
    assert t[..|s.draft.tags|] == s.draft.tags;
  }

  /** The submit guard: both title and description are non-empty strings.
      Whitespace-only text passes. */
  predicate CanSubmitProject(d: PortfolioItem) {
    d.title != "" && d.description != ""
  }

  /** The confirmation the bot posts after adding a project. */
  function AddedMessage(title: string): (m: string)
    ensures Contains(m, "\"" + title + "\"")
    ensures StartsWith(m, "Great! I've added ")
  {
    var m := "Great! I've added " + ("\"" + title + "\"") + " to your portfolio. Would you like to add another project?";
    ContainsSpliced("Great! I've added ", "\"" + title + "\"", " to your portfolio. Would you like to add another project?");
    assert m[..|"Great! I've added "|] == "Great! I've added ";
    m
  }

  /** Submitting the draft. `containerPresent` says whether the page has the
      element the card is inserted into; without it the card is skipped but
      the rest still happens. */
  function SubmitProject(s: State, containerPresent: bool): (r: State)
    ensures !CanSubmitProject(s.draft) ==> r == s
    ensures CanSubmitProject(s.draft) ==>
      && r.messages == s.messages + [BotSays(AddedMessage(s.draft.title))]
      && !r.isAddingProject
      && r.draft == EmptyDraft
      && r.shown == (if containerPresent then s.shown + [s.draft] else s.shown)
      && r.input == s.input && r.tagInput == s.tagInput
  {
    if !CanSubmitProject(s.draft) then s
    else
      s.(shown := if containerPresent then s.shown + [s.draft] else s.shown,
         messages := s.messages + [BotSays(AddedMessage(s.draft.title))],
         isAddingProject := false,
         draft := EmptyDraft)
  }

  /** After a successful submit nothing more can be submitted until both
      fields are filled in again. */
  lemma SubmitThenSubmitIsNoOp(s: State, c1: bool, c2: bool)
    requires CanSubmitProject(s.draft)
    ensures SubmitProject(SubmitProject(s, c1), c2) == SubmitProject(s, c1)
  {
  }

  /** The draft's field setters and the two text boxes: each changes its own
      field and nothing else. */
  function SetTitle(s: State, v: string): (r: State)
    ensures r.draft.title == v
    ensures r.draft.description == s.draft.description && r.draft.tags == s.draft.tags
    ensures r.draft.imageUrl == s.draft.imageUrl
    ensures r.messages == s.messages && r.input == s.input && r.tagInput == s.tagInput
    ensures r.isAddingProject == s.isAddingProject && r.shown == s.shown
  {
    s.(draft := s.draft.(title := v))
  }

  function SetDescription(s: State, v: string): (r: State)
    ensures r.draft.description == v
    ensures r.draft.title == s.draft.title && r.draft.tags == s.draft.tags
    ensures r.draft.imageUrl == s.draft.imageUrl
    ensures r.messages == s.messages && r.input == s.input && r.tagInput == s.tagInput
    ensures r.isAddingProject == s.isAddingProject && r.shown == s.shown
  {
    s.(draft := s.draft.(description := v))
  }

  function SetImageUrl(s: State, v: string): (r: State)
    ensures r.draft.imageUrl == v
    ensures r.draft.title == s.draft.title && r.draft.description == s.draft.description
    ensures r.draft.tags == s.draft.tags
    ensures r.messages == s.messages && r.input == s.input && r.tagInput == s.tagInput
    ensures r.isAddingProject == s.isAddingProject && r.shown == s.shown
  {
    s.(draft := s.draft.(imageUrl := v))
  }

  function SetTagInput(s: State, v: string): (r: State)
    ensures r.tagInput == v
    ensures r.draft == s.draft && r.messages == s.messages && r.input == s.input
    ensures r.isAddingProject == s.isAddingProject && r.shown == s.shown
  {
    s.(tagInput := v)
  }

  function SetMessageInput(s: State, v: string): (r: State)
    ensures r.input == v
    ensures r.draft == s.draft && r.messages == s.messages && r.tagInput == s.tagInput
    ensures r.isAddingProject == s.isAddingProject && r.shown == s.shown
  {
    s.(input := v)
  }

  /** Filling in the form field by field and submitting shows exactly that
      project and leaves a fresh draft. */
  lemma FillAndSubmit(s: State, title: string, description: string, url: string)
    requires title != "" && description != ""
    ensures var filled := SetImageUrl(SetDescription(SetTitle(s, title), description), url);
      var r := SubmitProject(filled, true);
      && r.shown == s.shown + [PortfolioItem(title, description, s.draft.tags, url)]
      && r.draft == EmptyDraft
      && r.messages[|s.messages|] == BotSays(AddedMessage(title))
  {
  }
}
