/** The proposal editor: ten pieces of state, changed by typing, by the
    line-item calculator, by "Generate Proposal" and by the two save
    buttons. The server's answers are arguments of the methods that wait
    for them. The state is also described as a value, `EditorState`, and
    each handler as a function on it; the class's methods are proved to
    move the state exactly as those functions say. */
module LiveEditor {
  import opened Js
  import opened LineItemCalculator
  import GenerateRoute
  import ProposalsRoute

  /** The values the theme radio buttons offer. */
  const Themes: seq<string> := ["corporate", "creative", "minimal"]

  const Placeholder := "*Proposal content will appear here...*"

  /** The editor's state as values. */
  datatype EditorState = EditorState(
    clientName: string,
    rawNotes: string,
    markdown: string,
    theme: string,
    lineItems: seq<Item>,
    totalAmount: int,
    status: string,
    isGenerating: bool,
    isSaving: bool,
    savedProposalId: Option<string>)

  /** The state when the editor opens. */
  const Initial := EditorState("", "", Placeholder, "corporate", [], 0, "Draft", false, false, None)

  /** The total shown is the total of the line items held, the status is
      never empty and the theme is one the buttons offer. */
  predicate Consistent(s: EditorState) {
    s.totalAmount == Sum(s.lineItems) && s.status != "" && s.theme in Themes
  }

  lemma InitialIsConsistent()
    ensures Consistent(Initial)
  {
  }

  /** The rows the calculator is given: the line items, or one blank row
      standing in for an empty list. */
  function Shown(items: seq<Item>): (r: seq<Item>)
    ensures |r| >= 1
    ensures |items| > 0 ==> r == items
    ensures |items| == 0 ==> r == [Blank]
  {
    if |items| > 0 then items else [Blank]
  }

  /** The stand-in row adds nothing to the total. */
  lemma SumShown(items: seq<Item>)
    ensures Sum(Shown(items)) == Sum(items)
  {
    if items == [] {
      assert [Blank][..0] == [];
    }
  }

  // Generating

  /** Generation starts only when the notes hold more than white space. */
  predicate CanGenerate(s: EditorState) {
    Trim(s.rawNotes) != ""
  }

  /** The response carries a non-empty markdown. */
  predicate HasMarkdown(reply: Option<GenerateRoute.Response>) {
    reply.Some? && reply.value.Generated? && reply.value.markdown != ""
  }

  /** ... and a non-empty array of line items beside it. */
  predicate HasItems(reply: Option<GenerateRoute.Response>) {
    HasMarkdown(reply) && reply.value.lineItems.ItemArray? && |reply.value.lineItems.items| > 0
  }

  /** The request `handleGenerate` sends: the notes, and the theme as the
      tone; none when the notes are blank. */
  function GenerateRequest(s: EditorState): (r: Option<GenerateRoute.Body>)
    ensures r.None? <==> !CanGenerate(s)
    ensures r.Some? ==> r.value.rawNotes == Some(s.rawNotes) && r.value.tone == Some(s.theme)
  {
    if CanGenerate(s) then Some(GenerateRoute.Body(Some(s.rawNotes), Some(s.theme))) else None
  }

  /** The state once `handleGenerate` is done. `reply` is the parsed
      response, None when the request or its parsing failed. */
  function AfterGenerate(s: EditorState, reply: Option<GenerateRoute.Response>): (t: EditorState)
    ensures !CanGenerate(s) ==> t == s
    ensures CanGenerate(s) ==>
              t.clientName == s.clientName && t.rawNotes == s.rawNotes && t.theme == s.theme
              && t.status == s.status && t.isSaving == s.isSaving && t.savedProposalId == s.savedProposalId
              && !t.isGenerating
    ensures CanGenerate(s) && HasMarkdown(reply) ==> t.markdown == reply.value.markdown
    ensures !(CanGenerate(s) && HasMarkdown(reply)) ==> t.markdown == s.markdown
    ensures CanGenerate(s) && HasItems(reply) ==>
              t.lineItems == reply.value.lineItems.items && t.totalAmount == SumOfRows(t.lineItems)
    ensures !(CanGenerate(s) && HasItems(reply)) ==> t.lineItems == s.lineItems && t.totalAmount == s.totalAmount
    ensures Consistent(s) ==> Consistent(t)
  {
    if !CanGenerate(s) then s
    else
      var done := s.(isGenerating := false);
      if !HasMarkdown(reply) then done
      else
        var written := done.(markdown := reply.value.markdown);
        if !HasItems(reply) then written
        else
          var items := reply.value.lineItems.items;
          SumIsSumOfRows(items);
          written.(lineItems := items, totalAmount := Sum(items))
  }

  /** Every request the editor sends passes the route's check and is
      turned into a prompt that carries the theme as the tone. */
  lemma GenerateRequestIsAccepted(s: EditorState, upstream: GenerateRoute.Upstream)
    requires Consistent(s) && CanGenerate(s)
    ensures GenerateRoute.Post(GenerateRequest(s), upstream).prompt == Some(GenerateRoute.Prompt(Some(s.theme), s.rawNotes))
    ensures GenerateRoute.Tone(Some(s.theme)) == s.theme
    ensures GenerateRoute.Post(GenerateRequest(s), upstream).response != GenerateRoute.Failed(400, GenerateRoute.MissingNotes)
  {
    assert s.rawNotes != "";
    assert s.theme != "";
  }

  /** Markdown the route produced reaches the editor when it is non-empty,
      and the line items with it when they form a non-empty array. */
  lemma GeneratedMarkdownReachesEditor(s: EditorState, markdown: string, items: seq<Item>)
    requires CanGenerate(s) && markdown != "" && items != []
    ensures AfterGenerate(s, Some(GenerateRoute.Generated(markdown, GenerateRoute.ItemArray(items)))).markdown == markdown
    ensures AfterGenerate(s, Some(GenerateRoute.Generated(markdown, GenerateRoute.ItemArray(items)))).lineItems == items
  {
  }

  // Saving

  /** The body of a save request. */
  datatype Payload = Payload(
    clientName: string,
    rawInput: string,
    refinedMarkdown: string,
    status: string,
    totalAmount: int,
    lineItems: seq<Item>)

  /** A first save creates the proposal; later saves update it by its id. */
  datatype SaveRequest = PostProposal(payload: Payload) | PutProposal(id: string, payload: Payload)

  /** `newStatus || status` */
  function SaveStatus(s: EditorState, newStatus: Option<string>): (r: string)
    ensures Truthy(newStatus) ==> r == newStatus.value
    ensures !Truthy(newStatus) ==> r == s.status
  {
    OrElse(newStatus, s.status)
  }

  /** What a save sends: the fields as held, with "Untitled Client" for a
      missing client name. */
  function PayloadOf(s: EditorState): (p: Payload)
    ensures p.clientName != ""
    ensures s.clientName != "" ==> p.clientName == s.clientName
    ensures s.clientName == "" ==> p.clientName == "Untitled Client"
    ensures p.rawInput == s.rawNotes && p.refinedMarkdown == s.markdown && p.status == s.status
    ensures p.totalAmount == s.totalAmount && p.lineItems == s.lineItems
  {
    Payload(OrElse(Some(s.clientName), "Untitled Client"), s.rawNotes, s.markdown, s.status, s.totalAmount, s.lineItems)
  }

  /** The request `handleSave(newStatus)` sends: to the id it remembers,
      if any, and carrying the status it is about to show. */
  function SaveRequestOf(s: EditorState, newStatus: Option<string>): (r: SaveRequest)
    ensures r.payload == PayloadOf(s.(status := SaveStatus(s, newStatus)))
    ensures r.PutProposal? <==> Truthy(s.savedProposalId)
    ensures r.PutProposal? ==> r.id == s.savedProposalId.value
  {
    var payload := PayloadOf(s.(status := SaveStatus(s, newStatus)));
    if Truthy(s.savedProposalId) then PutProposal(s.savedProposalId.value, payload) else PostProposal(payload)
  }

  /** The state once `handleSave` is done. `returnedId` is the `id` of the
      answer to a POST (None when there was none or the request failed);
      the answer to a PUT is not read. The new status stays whatever the
      outcome. */
  function AfterSave(s: EditorState, newStatus: Option<string>, returnedId: Option<string>): (t: EditorState)
    ensures t.status == SaveStatus(s, newStatus)
    ensures !Truthy(s.savedProposalId) && Truthy(returnedId) ==> t.savedProposalId == returnedId
    ensures Truthy(s.savedProposalId) || !Truthy(returnedId) ==> t.savedProposalId == s.savedProposalId
    ensures !t.isSaving
    ensures t.(status := s.status, savedProposalId := s.savedProposalId, isSaving := s.isSaving) == s
    ensures Consistent(s) ==> Consistent(t)
  {
    var saved := s.(isSaving := false, status := SaveStatus(s, newStatus));
    if !Truthy(s.savedProposalId) && Truthy(returnedId) then saved.(savedProposalId := returnedId) else saved
  }

  /** Once a save has recorded an id, every later save goes to that id. */
  lemma SavedIdIsKept(s: EditorState, first: Option<string>, returnedId: Option<string>,
                      later: Option<string>, laterId: Option<string>)
    requires Truthy(AfterSave(s, first, returnedId).savedProposalId)
    ensures var t := AfterSave(s, first, returnedId);
            AfterSave(t, later, laterId).savedProposalId == t.savedProposalId
            && SaveRequestOf(AfterSave(t, later, laterId), None) == PutProposal(t.savedProposalId.value, SaveRequestOf(AfterSave(t, later, laterId), None).payload)
  {
  }

  /** How the proposals route reads a payload: every field present. */
  function Sent(p: Payload): (b: ProposalsRoute.CreateBody)
    ensures b.clientName == Some(p.clientName) && b.rawInput == Some(p.rawInput)
    ensures b.refinedMarkdown == Some(p.refinedMarkdown) && b.status == Some(p.status)
    ensures b.totalAmount == Some(p.totalAmount) && b.lineItems == Some(p.lineItems) && b.userId.None?
  {
    ProposalsRoute.CreateBody(Some(p.clientName), Some(p.rawInput), Some(p.refinedMarkdown), Some(p.status),
                              Some(p.totalAmount), Some(p.lineItems), None)
  }

  /** A first save from a consistent editor stores what the editor shows:
      its client name (or "Untitled Client"), its status, its line items,
      and a total that is their sum; none of the route's defaults apply. */
  lemma FirstSaveStoresEditor(s: EditorState, newStatus: Option<string>, id: string, now: int)
    requires Consistent(s)
    ensures var t := s.(status := SaveStatus(s, newStatus));
            var p := ProposalsRoute.NewProposal(Sent(SaveRequestOf(s, newStatus).payload), id, now);
            p.clientName == PayloadOf(t).clientName && p.rawInput == s.rawNotes
            && p.refinedMarkdown == s.markdown && p.status == t.status
            && p.lineItems == s.lineItems && p.totalAmount == Sum(p.lineItems)
  {
    assert SaveStatus(s, newStatus) != "";
  }

  // The editor

  class Editor {
    var clientName: string
    var rawNotes: string
    var markdown: string
    var theme: string
    var lineItems: seq<Item>
    var totalAmount: int
    var status: string
    var isGenerating: bool
    var isSaving: bool
    var savedProposalId: Option<string>

    /** The state as a value. */
    function State(): EditorState
      reads this
    {
      EditorState(clientName, rawNotes, markdown, theme, lineItems, totalAmount, status,
                  isGenerating, isSaving, savedProposalId)
    }

    predicate Valid()
      reads this
    {
      Consistent(State())
    }

    constructor ()
      ensures Valid() && State() == Initial
    {
      clientName, rawNotes, markdown, theme := "", "", Placeholder, "corporate";
      lineItems, totalAmount, status := [], 0, "Draft";
      isGenerating, isSaving, savedProposalId := false, false, None;
    }

    method EditClientName(v: string)
      requires Valid()
      modifies this
      ensures Valid() && State() == old(State()).(clientName := v)
    {
      clientName := v;
    }

    method EditNotes(v: string)
      requires Valid()
      modifies this
      ensures Valid() && State() == old(State()).(rawNotes := v)
    {
      rawNotes := v;
    }

    method EditMarkdown(v: string)
      requires Valid()
      modifies this
      ensures Valid() && State() == old(State()).(markdown := v)
    {
      markdown := v;
    }

    method SelectTheme(t: string)
      requires Valid() && t in Themes
      modifies this
      ensures Valid() && State() == old(State()).(theme := t)
    {
      theme := t;
    }

    /** `onItemsChange(items, total)`: takes both as reported. The editor
        stays consistent when the total is the total of exactly those items. */
    method OnItemsChange(items: seq<Item>, total: int)
      modifies this
      ensures State() == old(State()).(lineItems := items, totalAmount := total)
      ensures old(Valid()) && total == Sum(items) ==> Valid()
    {
      lineItems, totalAmount := items, total;
    }

    /** A field of row index edited in the calculator: the calculator
        reports the rows it was given, with that row changed, and their
        total. */
    method EditItem(index: nat, change: Change)
      requires Valid() && index < |Shown(lineItems)|
      modifies this
      ensures Valid()
      ensures State() == old(State()).(lineItems := ChangeRow(Shown(old(lineItems)), index, change),
                                       totalAmount := Sum(ChangeRow(Shown(old(lineItems)), index, change)))
      ensures totalAmount == old(totalAmount) - Subtotal(Shown(old(lineItems))[index]) + Subtotal(lineItems[index])
    {
      SumShown(lineItems);
      var rows := ChangeRow(Shown(lineItems), index, change);
      OnItemsChange(rows, Sum(rows));
    }

    /** "+ Add Line Item". On an empty list the stand-in row is kept, so
        the list then holds two blank rows. */
    method AddRow()
      requires Valid()
      modifies this
      ensures Valid()
      ensures State() == old(State()).(lineItems := Shown(old(lineItems)) + [Blank])
      ensures |lineItems| == if |old(lineItems)| == 0 then 2 else |old(lineItems)| + 1
    {
      SumShown(lineItems);
      SumAppend(Shown(lineItems), [Blank]);
      assert Sum([Blank]) == 0 by {
        assert [Blank][..0] == [];
      }
      var rows := Shown(lineItems) + [Blank];
      OnItemsChange(rows, Sum(rows));
    }

    /** The remove button of row index. */
    method RemoveRow(index: int)
      requires Valid()
      modifies this
      ensures Valid()
      ensures State() == old(State()).(lineItems := Without(Shown(old(lineItems)), index),
                                       totalAmount := Sum(Without(Shown(old(lineItems)), index)))
      ensures 0 <= index < |Shown(old(lineItems))| ==>
                totalAmount == old(totalAmount) - Subtotal(Shown(old(lineItems))[index])
    {
      SumShown(lineItems);
      if 0 <= index < |Shown(lineItems)| {
        SumRemove(Shown(lineItems), index);
      }
      var rows := Without(Shown(lineItems), index);
      OnItemsChange(rows, Sum(rows));
    }

    /** `handleGenerate`, with the route's answer as `reply`; returns the
        request it sends, if it sends one. */
    method Generate(reply: Option<GenerateRoute.Response>) returns (request: Option<GenerateRoute.Body>)
      requires Valid()
      modifies this
      ensures Valid()
      ensures request == GenerateRequest(old(State()))
      ensures State() == AfterGenerate(old(State()), reply)
    {
      ghost var s0 := State();
      if Trim(rawNotes) == "" {
        return None;
      }
      request := Some(GenerateRoute.Body(Some(rawNotes), Some(theme)));
      isGenerating := true;
      if HasMarkdown(reply) {
        markdown := reply.value.markdown;
        if HasItems(reply) {
          var items := reply.value.lineItems.items;
          lineItems, totalAmount := items, Sum(items);
        }
      }
      isGenerating := false;
      assert State() == AfterGenerate(s0, reply);
    }

    /** `handleSave(newStatus)`, with the `id` of the answer to a POST as
        `returnedId`; returns the request it sends. */
    method Save(newStatus: Option<string>, returnedId: Option<string>) returns (request: SaveRequest)
      requires Valid()
      modifies this
      ensures Valid()
      ensures request == SaveRequestOf(old(State()), newStatus)
      ensures State() == AfterSave(old(State()), newStatus, returnedId)
    {
      ghost var s0 := State();
      isSaving := true;
      var saveStatus := OrElse(newStatus, status);
      var payload := Payload(OrElse(Some(clientName), "Untitled Client"), rawNotes, markdown, saveStatus,
                             totalAmount, lineItems);
      if Truthy(savedProposalId) {
        request := PutProposal(savedProposalId.value, payload);
      } else {
        request := PostProposal(payload);
      }
      status := saveStatus;
      if !Truthy(savedProposalId) && Truthy(returnedId) {
        savedProposalId := returnedId;
      }
      isSaving := false;
      assert State() == AfterSave(s0, newStatus, returnedId);
    }
  }
}
