/** The PDF document built from a proposal: theme selection, the line-based
    Markdown subset, the pricing table over described items, and the title.
    Page layout and the style tables themselves are not modelled; a document
    is the list of what it shows, in order. */
module PDFPreview {
  import opened Js
  import opened LineItemCalculator

  /** Which of the three style tables a document uses. */
  datatype Styles = CorporateStyles | CreativeStyles | MinimalStyles

  /** `getStyles`: the creative and minimal names pick their tables; any
      other value, known or not, falls back to corporate. */
  function GetStyles(theme: string): (r: Styles)
    ensures r == CreativeStyles <==> theme == "creative"
    ensures r == MinimalStyles <==> theme == "minimal"
    ensures r == CorporateStyles <==> theme != "creative" && theme != "minimal"
  {
    match theme
    case "creative" => CreativeStyles
    case "minimal" => MinimalStyles
    case _ => CorporateStyles
  }

  /** One rendered line of the body, by the style it is drawn with. */
  datatype Block = Header(text: string) | SubHeader(text: string) | Text(text: string)

  /** The bullet literal as the component writes it: the UTF-8 bytes of
      U+2022 read back as Windows-1252, followed by a space. */
  const WrittenBullet: string := "\U{00E2}\U{20AC}\U{00A2} "

  /** The bullet the component evidently means: U+2022 and a space. */
  const Bullet: string := "\U{2022} "

  /** How many '#' characters the text starts with. */
  function HashRun(s: string): (k: nat)
    ensures k <= |s| && (forall i :: 0 <= i < k ==> s[i] == '#') && (k < |s| ==> s[k] != '#')
  {
    if s != [] && s[0] == '#' then 1 + HashRun(s[1..]) else 0
  }

  predicate IsDigit(c: char) { '0' <= c <= '9' }

  /** How many decimal digits the text starts with. */
  function DigitRun(s: string): (k: nat)
    ensures k <= |s| && (forall i :: 0 <= i < k ==> IsDigit(s[i])) && (k < |s| ==> !IsDigit(s[k]))
  {
    if s != [] && IsDigit(s[0]) then 1 + DigitRun(s[1..]) else 0
  }

  /** `s.replace(/^#\s/, '')` */
  function StripHash(s: string): string {
    if |s| >= 2 && s[0] == '#' && IsSpace(s[1]) then s[2..] else s
  }

  /** `s.replace(/^#+\s/, '')`: the greedy run of '#' cannot give back a
      '#' to `\s`, so the regular expression matches exactly when the whole
      run is followed by white space. */
  function StripHashes(s: string): string {
    var k := HashRun(s);
    if 0 < k < |s| && IsSpace(s[k]) then s[k + 1..] else s
  }

  /** `s.replace(/^[\*-]\s/, '')` */
  function StripMarker(s: string): string {
    if |s| >= 2 && (s[0] == '*' || s[0] == '-') && IsSpace(s[1]) then s[2..] else s
  }

  /** `s.match(/^\d+\.\s/)` */
  predicate IsNumbered(s: string) {
    var k := DigitRun(s);
    0 < k && k + 1 < |s| && s[k] == '.' && IsSpace(s[k + 1])
  }

  predicate IsHeading(t: string) {
    StartsWith(t, "# ") || StartsWith(t, "## ") || StartsWith(t, "### ")
  }

  predicate IsBullet(t: string) {
    StartsWith(t, "* ") || StartsWith(t, "- ")
  }

  /** The block a trimmed, non-empty line becomes, with the given bullet
      literal, following the branches of `renderMarkdownToPDF` in order. */
  function TrimmedBlock(bullet: string, t: string): (r: Block)
    requires t != []
    ensures StartsWith(t, "# ") ==> r == Header(t[2..])
    ensures StartsWith(t, "## ") ==> r == SubHeader(t[3..])
    ensures StartsWith(t, "### ") ==> r == SubHeader(t[4..])
    ensures IsBullet(t) ==> r == Text(bullet + t[2..])
    ensures !IsHeading(t) && !IsBullet(t) ==> r == Text(t)
  {
    if StartsWith(t, "# ") then Header(StripHash(t))
    else if StartsWith(t, "## ") || StartsWith(t, "### ") then
      assert StartsWith(t, "## ") ==> HashRun(t) == 2 by {
        if StartsWith(t, "## ") { assert t[0] == '#' && t[1] == '#' && t[2] == ' '; }
      }
      assert StartsWith(t, "### ") ==> HashRun(t) == 3 by {
        if StartsWith(t, "### ") { assert t[0] == '#' && t[1] == '#' && t[2] == '#' && t[3] == ' '; }
      }
      SubHeader(StripHashes(t))
    else if StartsWith(t, "* ") || StartsWith(t, "- ") then Text(bullet + StripMarker(t))
    else if IsNumbered(t) then Text(t)
    else Text(t)
  }

  /** The block one line of Markdown becomes: a line that is blank once
      trimmed is kept as a single space, any other is classified trimmed. */
  function LineBlockWith(bullet: string, line: string): (r: Block)
    ensures Trim(line) == [] ==> r == Text(" ")
    ensures Trim(line) != [] ==> r == TrimmedBlock(bullet, Trim(line))
  {
    var t := Trim(line);
    if t == [] then Text(" ") else TrimmedBlock(bullet, t)
  }

  /** Every line of the body as blocks, one per `\n`-separated line, in
      order; an empty body renders nothing. */
  function RenderWith(bullet: string, markdown: string): (r: seq<Block>)
    ensures markdown == "" ==> r == []
    ensures markdown != "" ==> |r| == |Split(markdown, '\n')| == Count(markdown, '\n') + 1
    ensures markdown != "" ==> forall i :: 0 <= i < |r| ==> r[i] == LineBlockWith(bullet, Split(markdown, '\n')[i])
  {
    if markdown == "" then []
    else
      var lines := Split(markdown, '\n');
      SplitCount(markdown, '\n');
      seq(|lines|, i requires 0 <= i < |lines| => LineBlockWith(bullet, lines[i]))
  }

  /** `renderMarkdownToPDF` as the component writes it. */
  function RenderMarkdownAsWritten(markdown: string): seq<Block> {
    RenderWith(WrittenBullet, markdown)
  }

  /** `renderMarkdownToPDF` with the bullet glyph it evidently means. */
  function RenderMarkdown(markdown: string): seq<Block> {
    RenderWith(Bullet, markdown)
  }

  /** Rendering a body given as its lines renders each line in turn. */
  lemma RenderLines(bullet: string, lines: seq<string>)
    requires |lines| >= 1 && Join(lines, '\n') != ""
    requires forall i :: 0 <= i < |lines| ==> '\n' !in lines[i]
    ensures |RenderWith(bullet, Join(lines, '\n'))| == |lines|
    ensures forall i :: 0 <= i < |lines| ==> RenderWith(bullet, Join(lines, '\n'))[i] == LineBlockWith(bullet, lines[i])
  {
    SplitJoin(lines, '\n');
  }

  /** A bullet line becomes text made of the bullet literal and the line
      without its two-character marker. */
  lemma BulletLine(markdown: string, i: nat)
    requires markdown != "" && i < |Split(markdown, '\n')|
    requires IsBullet(Trim(Split(markdown, '\n')[i]))
    ensures RenderMarkdown(markdown)[i] == Text(Bullet + Trim(Split(markdown, '\n')[i])[2..])
    ensures RenderMarkdownAsWritten(markdown)[i] == Text(WrittenBullet + Trim(Split(markdown, '\n')[i])[2..])
  {
  }

  /** The header and sub-header branches strip only their own markers: four
      hashes, or a hash not followed by a space, stay plain text. */
  lemma MoreHashesArePlainText(line: string)
    requires StartsWith(Trim(line), "####") || (StartsWith(Trim(line), "#") && |Trim(line)| >= 2 && Trim(line)[1] != ' ' && Trim(line)[1] != '#')
    ensures LineBlockWith(Bullet, line) == Text(Trim(line))
  {
    var t := Trim(line);
    assert !IsHeading(t) && !IsBullet(t) by {
      assert t[0] == '#';
      if StartsWith(t, "####") { assert t[1] == '#' && t[2] == '#' && t[3] == '#'; }
    }
  }

  /** A numbered line keeps its own numeral: it is drawn as the trimmed line. */
  lemma NumberedLineKeepsNumeral(line: string)
    requires IsNumbered(Trim(line))
    ensures LineBlockWith(Bullet, line) == Text(Trim(line))
  {
    var t := Trim(line);
    assert IsDigit(t[0]);
    assert !IsHeading(t) && !IsBullet(t) by {
      assert t[0] != '#' && t[0] != '*' && t[0] != '-';
    }
  }

  /** A body without a line break renders as that one line. */
  lemma RenderOneLine(bullet: string, line: string)
    requires line != "" && '\n' !in line
    ensures RenderWith(bullet, line) == [LineBlockWith(bullet, line)]
  {
    SplitPiece(line, '\n');
  }

  lemma SampleHeaderLine()
    ensures LineBlockWith(Bullet, "# Title") == Header("Title")
  {
    TrimUnchanged("# Title");
    assert StartsWith("# Title", "# ");
  }

  lemma SampleBlankLine()
    ensures LineBlockWith(Bullet, "") == Text(" ")
  {
  }

  /** A line with no surrounding white space that starts with none of
      '#', '*' and '-' is drawn as it is. */
  lemma PlainLine(bullet: string, t: string)
    requires t != [] && !IsSpace(t[0]) && !IsSpace(t[|t| - 1]) && t[0] != '#' && t[0] != '*' && t[0] != '-'
    ensures LineBlockWith(bullet, t) == Text(t)
  {
    TrimUnchanged(t);
    assert !IsHeading(t) && !IsBullet(t) by {
      assert !StartsWith(t, "# ") && !StartsWith(t, "## ") && !StartsWith(t, "### ") by {
        assert t[0] != '#';
      }
    }
  }

  /** "- " before text that does not end in white space is drawn with the
      bullet in place of the marker. */
  lemma DashLine(bullet: string, rest: string)
    requires rest != [] && !IsSpace(rest[|rest| - 1])
    ensures LineBlockWith(bullet, "- " + rest) == Text(bullet + rest)
  {
    var t := "- " + rest;
    assert t[0] == '-' && t[|t| - 1] == rest[|rest| - 1];
    TrimUnchanged(t);
    assert t[..2] == "- ";
    assert t[2..] == rest;
  }

  lemma SampleTextLine()
    ensures LineBlockWith(Bullet, "Some *italic* and **bold** text") == Text("Some *italic* and **bold** text")
  {
    var t := "Some *italic* and **bold** text";
    assert t[0] == 'S' && t[|t| - 1] == 't';
    PlainLine(Bullet, t);
  }

  lemma SampleBulletLine()
    ensures LineBlockWith(Bullet, "- item one") == Text("\U{2022} item one")
  {
    var rest := "item one";
    assert rest[|rest| - 1] == 'e';
    DashLine(Bullet, rest);
    assert "- " + rest == "- item one";
    assert Bullet + rest == "\U{2022} item one";
  }

  /** The four-line sample body, given as its lines: a header, a blank line
      kept as a blank text line, a paragraph kept verbatim (no inline
      emphasis), and a bullet. */
  lemma SampleDocument(parts: seq<string>)
    requires parts == ["# Title", "", "Some *italic* and **bold** text", "- item one"]
    ensures |RenderMarkdown(Join(parts, '\n'))| == 4
    ensures RenderMarkdown(Join(parts, '\n'))[0] == Header("Title")
    ensures RenderMarkdown(Join(parts, '\n'))[1] == Text(" ")
    ensures RenderMarkdown(Join(parts, '\n'))[2] == Text("Some *italic* and **bold** text")
    ensures RenderMarkdown(Join(parts, '\n'))[3] == Text("\U{2022} item one")
  {
    var md := Join(parts, '\n');
    assert md != "" by { assert md[0] == '#'; }
    var r := RenderMarkdown(md);
    assert |r| == 4 && forall i :: 0 <= i < 4 ==> r[i] == LineBlockWith(Bullet, parts[i]) by {
      RenderLines(Bullet, parts);
    }
    assert r[0] == Header("Title") by { SampleHeaderLine(); }
    assert r[1] == Text(" ") by { SampleBlankLine(); }
    assert r[2] == Text("Some *italic* and **bold** text") by { SampleTextLine(); }
    assert r[3] == Text("\U{2022} item one") by { SampleBulletLine(); }
  }

  /** As written, the sample bullet line starts with three stray characters. */
  lemma WrittenBulletLine()
    ensures LineBlockWith(WrittenBullet, "- item one") == Text("\U{00E2}\U{20AC}\U{00A2} item one")
  {
    var rest := "item one";
    assert rest[|rest| - 1] == 'e';
    DashLine(WrittenBullet, rest);
    assert "- " + rest == "- item one";
    assert WrittenBullet + rest == "\U{00E2}\U{20AC}\U{00A2} item one";
  }

  lemma GarbledBulletLine()
    ensures LineBlockWith(WrittenBullet, "- item one") == Text("\U{00E2}\U{20AC}\U{00A2} item one")
    ensures LineBlockWith(Bullet, "- item one") == Text("\U{2022} item one")
  {
    WrittenBulletLine();
    SampleBulletLine();
  }

  /** Finding: as written, a bullet line starts with three stray characters
      instead of the bullet glyph. */
  lemma BulletAsWrittenIsGarbled()
    ensures RenderMarkdownAsWritten("- item one") == [Text("\U{00E2}\U{20AC}\U{00A2} item one")]
    ensures RenderMarkdown("- item one") == [Text("\U{2022} item one")]
    ensures RenderMarkdownAsWritten("- item one") != RenderMarkdown("- item one")
  {
    GarbledBulletLine();
    RenderOneLine(WrittenBullet, "- item one");
    RenderOneLine(Bullet, "- item one");
    assert "\U{00E2}\U{20AC}\U{00A2} item one"[0] != "\U{2022} item one"[0];
  }

  /** A line item is worth a table row when its trimmed description is not empty. */
  predicate Described(item: Item) {
    Trim(item.description) != ""
  }

  /** `lineItems.filter(item => item.description.trim() !== "")` */
  function ValidItems(items: seq<Item>): (r: seq<Item>)
    ensures |r| <= |items|
    ensures forall i :: 0 <= i < |r| ==> Described(r[i])
    ensures forall x :: x in items && Described(x) ==> x in r
    ensures forall x :: x in r ==> x in items
  {
    if items == [] then []
    else (if Described(items[0]) then [items[0]] else []) + ValidItems(items[1..])
  }

  /** The rows the filter drops; they stay in the editable list. */
  function HiddenItems(items: seq<Item>): seq<Item> {
    if items == [] then []
    else (if Described(items[0]) then [] else [items[0]]) + HiddenItems(items[1..])
  }

  /** The filter keeps the original order: it works piece by piece. */
  lemma {:induction false} ValidItemsAppend(a: seq<Item>, b: seq<Item>)
    ensures ValidItems(a + b) == ValidItems(a) + ValidItems(b)
  {
    if a == [] {
      assert a + b == b;
    } else {
      assert (a + b)[1..] == a[1..] + b;
      ValidItemsAppend(a[1..], b);
    }
  }

  /** There is something to show exactly when some item is described. */
  lemma {:induction false} ValidItemsEmpty(items: seq<Item>)
    ensures ValidItems(items) == [] <==> forall i :: 0 <= i < |items| ==> !Described(items[i])
  {
    if items != [] {
      ValidItemsEmpty(items[1..]);
      assert forall i :: 1 <= i < |items| ==> items[i] == items[1..][i - 1];
    }
  }

  /** The full total splits into what the table rows show and what the
      filter hid. */
  lemma {:induction false} SumSplitsByFilter(items: seq<Item>)
    ensures Sum(items) == Sum(ValidItems(items)) + Sum(HiddenItems(items))
  {
    if items != [] {
      SumSplitsByFilter(items[1..]);
      SumIsSumOfRows(items);
      SumIsSumOfRows(items[1..]);
      SumAppend([items[0]], ValidItems(items[1..]));
      SumAppend([items[0]], HiddenItems(items[1..]));
      assert Sum([items[0]]) == Subtotal(items[0]) by { assert [items[0]][..0] == []; }
      assert Sum([]) == 0;
      assert [] + ValidItems(items[1..]) == ValidItems(items[1..]);
      assert [] + HiddenItems(items[1..]) == HiddenItems(items[1..]);
    }
  }

  /** One row of the pricing table. */
  datatype Row = Row(description: string, quantity: int, unitPrice: int, subtotal: int)

  /** The pricing table: its rows and the amount on its total line. */
  datatype Table = Table(rows: seq<Row>, total: int)

  function RowOf(item: Item): Row {
    Row(item.description, item.quantity, item.unitPrice, Subtotal(item))
  }

  /** The "Estimated Investment" block: present only when some item is
      described, one row per described item in order, and a total line that
      shows the amount it is given rather than a sum of its rows. */
  function PricingTable(items: seq<Item>, totalAmount: int): (r: Option<Table>)
    ensures r.Some? <==> exists i :: 0 <= i < |items| && Described(items[i])
    ensures r.Some? ==> r.value.total == totalAmount
    ensures r.Some? ==> |r.value.rows| == |ValidItems(items)|
    ensures r.Some? ==> forall i :: 0 <= i < |r.value.rows| ==> r.value.rows[i] == RowOf(ValidItems(items)[i])
  {
    var valid := ValidItems(items);
    ValidItemsEmpty(items);
    if |valid| > 0 then Some(Table(seq(|valid|, i requires 0 <= i < |valid| => RowOf(valid[i])), totalAmount))
    else None
  }

  /** When the amount shown is the editor's total, the total line exceeds the
      sum of the shown rows by exactly the subtotals of the hidden rows. */
  lemma TableTotalCountsHiddenRows(items: seq<Item>)
    requires PricingTable(items, Sum(items)).Some?
    ensures PricingTable(items, Sum(items)).value.total == Sum(ValidItems(items)) + Sum(HiddenItems(items))
  {
    SumSplitsByFilter(items);
  }

  /** `"Proposal for " + (clientName || "Client")` */
  function Title(clientName: string): (r: string)
    ensures clientName != "" ==> r == "Proposal for " + clientName
    ensures clientName == "" ==> r == "Proposal for Client"
  {
    "Proposal for " + OrElse(Some(clientName), "Client")
  }

  /** A rendered proposal: the styles, the title, the body blocks and the
      pricing table if there is one. */
  datatype Document = Document(styles: Styles, title: string, body: seq<Block>, table: Option<Table>)

  /** `ProposalPDF` as the component writes it: a function of its inputs
      only, re-rendered on every edit, with the bullet literal of line 45. */
  function ProposalPDF(theme: string, clientName: string, markdown: string, lineItems: seq<Item>, totalAmount: int): (r: Document)
    ensures r.styles == GetStyles(theme) && r.title == Title(clientName)
    ensures markdown == "" ==> r.body == []
    ensures markdown != "" ==> |r.body| == |Split(markdown, '\n')| == Count(markdown, '\n') + 1
    ensures markdown != "" ==>
              forall i :: 0 <= i < |r.body| ==> r.body[i] == LineBlockWith(WrittenBullet, Split(markdown, '\n')[i])
    ensures r.table.Some? <==> exists i :: 0 <= i < |lineItems| && Described(lineItems[i])
    ensures r.table.Some? ==> r.table.value.total == totalAmount
  {
    Document(GetStyles(theme), Title(clientName), RenderMarkdownAsWritten(markdown), PricingTable(lineItems, totalAmount))
  }

  /** The document with the bullet glyph the component evidently means. */
  function ProposalPDFCorrected(theme: string, clientName: string, markdown: string, lineItems: seq<Item>, totalAmount: int): (r: Document)
    ensures r.styles == GetStyles(theme) && r.title == Title(clientName)
    ensures markdown == "" ==> r.body == []
    ensures markdown != "" ==> |r.body| == |Split(markdown, '\n')| == Count(markdown, '\n') + 1
    ensures markdown != "" ==>
              forall i :: 0 <= i < |r.body| ==> r.body[i] == LineBlockWith(Bullet, Split(markdown, '\n')[i])
    ensures r.table.Some? <==> exists i :: 0 <= i < |lineItems| && Described(lineItems[i])
    ensures r.table.Some? ==> r.table.value.total == totalAmount
  {
    Document(GetStyles(theme), Title(clientName), RenderMarkdown(markdown), PricingTable(lineItems, totalAmount))
  }

  /** The two documents agree on everything but the bullet lines: same
      styles, title, table and number of blocks, and the same block for
      every line that is not a bullet. */
  lemma CorrectionTouchesOnlyBullets(theme: string, clientName: string, markdown: string, lineItems: seq<Item>,
                                     totalAmount: int, i: nat)
    requires markdown != "" && i < |Split(markdown, '\n')|
    ensures var w := ProposalPDF(theme, clientName, markdown, lineItems, totalAmount);
            var c := ProposalPDFCorrected(theme, clientName, markdown, lineItems, totalAmount);
            w.styles == c.styles && w.title == c.title && w.table == c.table && |w.body| == |c.body|
            && (!IsBullet(Trim(Split(markdown, '\n')[i])) <==> w.body[i] == c.body[i])
  {
    SplitCount(markdown, '\n');
    var line := Split(markdown, '\n')[i];
    var t := Trim(line);
    if IsBullet(t) {
      var w := WrittenBullet + t[2..];
      var c := Bullet + t[2..];
      assert w[0] != c[0];
    }
  }
}
