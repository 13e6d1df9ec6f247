/** POST /api/generate: checks the raw notes, builds one prompt, makes one
    call to the text-generation service and shapes what comes back into
    `{markdown, lineItems}`. The service call and `JSON.parse` are not
    modelled: their outcome is an input. */
module GenerateRoute {
  import opened Js
  import opened LineItemCalculator

  /** The fields of the request body the handler reads. */
  datatype Body = Body(rawNotes: Option<string>, tone: Option<string>)

  /** What `parsed.markdown` holds: nothing (undefined or null), a string,
      or some other JSON value, on which `.trim()` throws. */
  datatype MarkdownValue = NoMarkdown | MarkdownText(text: string) | MarkdownOther

  /** What a `lineItems` field holds: nothing, a falsy value, an array of
      items, or some other truthy value. No array check is made. */
  datatype ItemsValue = NoItems | FalsyItems | ItemArray(items: seq<Item>) | OtherItems

  /** What `JSON.parse` returned: `null`, on which any field access throws,
      or another value, read through its two fields (a number, a string or
      an array has neither). */
  datatype Parsed = NullValue | Value(markdown: MarkdownValue, lineItems: ItemsValue)

  /** The service call: it threw, or it answered with text that did or did
      not parse as JSON. */
  datatype Upstream = CallFailed | Answered(parsed: Option<Parsed>)

  /** The HTTP response: 200 with the two fields, or an error status with
      its message. */
  datatype Response = Generated(markdown: string, lineItems: ItemsValue) | Failed(status: int, error: string)

  /** A request's outcome: the response, and the prompt sent to the service
      if a call was made. */
  datatype Exchange = Exchange(response: Response, prompt: Option<string>)

  const MissingNotes := "rawNotes are required."
  const ParseFailure := "Failed to parse AI output."
  const GenerateFailure := "Failed to generate proposal."
  const DefaultTone := "Professional"

  /** The prompt text before the tone. */
  const PromptHead: string :=
    "You are a professional business consultant. Take the following raw notes and format them into a structured business proposal. Follow these rules strictly:\n        1. Use "

  /** The prompt text between the tone and the raw notes. */
  const PromptRules: string :=
    " tone.\n"
    + "        2. Generate a structured JSON response containing TWO keys: \"markdown\" and \"lineItems\".\n"
    + "        3. The \"markdown\" key should contain the proposal string formatted in valid Markdown with sections: Executive Summary, Detailed Scope, and Technical Stack. Do not include pricing in the markdown.\n"
    + "        4. The \"lineItems\" key should contain an array of objects, where each object has \"description\" (string), \"quantity\" (number), and \"unit_price\" (number). Extract any measurable costs or features from the notes. If none exist, provide a sensible default line item for the service described.\n"
    + "\n"
    + "    Raw Notes:\n"
    + "    "

  /** `tone || "Professional"` */
  function Tone(tone: Option<string>): (r: string)
    ensures r != ""
    ensures Truthy(tone) ==> r == tone.value
    ensures !Truthy(tone) ==> r == DefaultTone
  {
    OrElse(tone, DefaultTone)
  }

  /** The prompt template with the tone and the raw notes filled in. */
  function Prompt(tone: Option<string>, rawNotes: string): string {
    PromptHead + Tone(tone) + PromptRules + rawNotes
  }

  /** The prompt carries the tone right after "Use " and ends with the raw
      notes exactly as given. */
  lemma PromptLayout(tone: Option<string>, rawNotes: string)
    ensures var p := Prompt(tone, rawNotes);
            |p| == |PromptHead| + |Tone(tone)| + |PromptRules| + |rawNotes|
            && p[..|PromptHead|] == PromptHead
            && p[|PromptHead|..|PromptHead| + |Tone(tone)|] == Tone(tone)
            && p[|p| - |rawNotes|..] == rawNotes
  {
    FourPartLayout(PromptHead, Tone(tone), PromptRules, rawNotes);
  }

  /** Where the four parts of a concatenation sit in it. */
  lemma FourPartLayout(a: string, b: string, c: string, d: string)
    ensures var p := a + b + c + d;
            |p| == |a| + |b| + |c| + |d| && p[..|a|] == a && p[|a|..|a| + |b|] == b && p[|p| - |d|..] == d
  {
    var p := a + b + c + d;
    assert p == a + b + (c + d);
    assert p[|a|..][..|b|] == b;
  }

  /** Different notes under the same tone give different prompts. */
  lemma PromptDeterminesNotes(tone: Option<string>, a: string, b: string)
    requires Prompt(tone, a) == Prompt(tone, b)
    ensures a == b
  {
    PromptLayout(tone, a);
    PromptLayout(tone, b);
  }

  /** `parsed.markdown?.trim() || ""`; None when `.trim` is not a function
      and the call throws. */
  function MarkdownOut(m: MarkdownValue): (r: Option<string>)
    ensures r.None? <==> m.MarkdownOther?
    ensures r.Some? ==> Trim(r.value) == r.value
    ensures m.MarkdownText? ==> r == Some(Trim(m.text))
    ensures m.NoMarkdown? ==> r == Some("")
  {
    match m
    case NoMarkdown => Some("")
    case MarkdownText(s) => TrimIdempotent(s); Some(Trim(s))
    case MarkdownOther => None
  }

  /** `parsed.lineItems || []` */
  function ItemsOut(v: ItemsValue): (r: ItemsValue)
    ensures r.ItemArray? || r.OtherItems?
    ensures v.ItemArray? || v.OtherItems? ==> r == v
    ensures v.NoItems? || v.FalsyItems? ==> r == ItemArray([])
  {
    match v
    case NoItems => ItemArray([])
    case FalsyItems => ItemArray([])
    case _ => v
  }

  /** The handler. A missing body (text that is not JSON) lands in the outer
      catch, like a failed call and a `.trim` on a value that is not a string. */
  function Post(body: Option<Body>, upstream: Upstream): (r: Exchange)
    ensures r.prompt.Some? <==> body.Some? && Truthy(body.value.rawNotes)
    ensures r.prompt.Some? ==> r.prompt.value == Prompt(body.value.tone, body.value.rawNotes.value)
    ensures body.None? ==> r.response == Failed(500, GenerateFailure)
    ensures body.Some? && !Truthy(body.value.rawNotes) ==> r.response == Failed(400, MissingNotes)
    ensures r.prompt.Some? && upstream.CallFailed? ==> r.response == Failed(500, GenerateFailure)
    ensures r.prompt.Some? && upstream.Answered? && upstream.parsed.None? ==> r.response == Failed(500, ParseFailure)
    ensures r.prompt.Some? && upstream.Answered? && upstream.parsed.Some?
            && (upstream.parsed.value.NullValue? || upstream.parsed.value.markdown.MarkdownOther?)
            ==> r.response == Failed(500, GenerateFailure)
    ensures r.response.Generated? ==> r.prompt.Some? && upstream.Answered? && upstream.parsed.Some?
    ensures r.response.Generated? ==> Trim(r.response.markdown) == r.response.markdown
    ensures r.response.Generated? ==> r.response.lineItems.ItemArray? || r.response.lineItems.OtherItems?
    ensures r.response.Failed? ==> r.response.status in {400, 500}
  {
    match body
    case None => Exchange(Failed(500, GenerateFailure), None)
    case Some(b) =>
      if !Truthy(b.rawNotes) then Exchange(Failed(400, MissingNotes), None)
      else
        var prompt := Prompt(b.tone, b.rawNotes.value);
        var response :=
          match upstream
          case CallFailed => Failed(500, GenerateFailure)
          case Answered(None) => Failed(500, ParseFailure)
          case Answered(Some(NullValue)) => Failed(500, GenerateFailure)
          case Answered(Some(Value(m, items))) =>
            match MarkdownOut(m)
            case None => Failed(500, GenerateFailure)
            case Some(md) => Generated(md, ItemsOut(items));
        Exchange(response, Some(prompt))
  }

  /** A successful answer: the markdown trimmed (empty when absent) and the
      line items as parsed (an empty array when absent or falsy). */
  lemma SuccessShape(b: Body, m: MarkdownValue, items: ItemsValue)
    requires Truthy(b.rawNotes) && !m.MarkdownOther?
    ensures Post(Some(b), Answered(Some(Value(m, items)))).response
         == Generated(if m.MarkdownText? then Trim(m.text) else "",
                      if items.NoItems? || items.FalsyItems? then ItemArray([]) else items)
  {
  }

  /** Notes made only of white space are accepted and sent. */
  lemma BlankNotesAreSent(b: Body, upstream: Upstream)
    requires b.rawNotes.Some? && b.rawNotes.value != "" && AllSpace(b.rawNotes.value)
    ensures Post(Some(b), upstream).prompt.Some?
  {
  }
}
