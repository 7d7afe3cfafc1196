/** components/BriefOutput.tsx: the "copy as markdown" export and the list rendering rule. */
module BriefOutput {
  import opened Wrappers
  import opened Types
  import JsString
  import TemplateLiteral

  // ---------------------------------------------------------------- list rendering

  const NoneIdentified: string := "None identified."

  /** What `ListItems` renders: the placeholder paragraph, or one entry per item keyed by
      its index. */
  datatype ListView = Placeholder(message: string) | Entries(entries: seq<(nat, string)>)

  function ListItems(items: seq<string>): (v: ListView)
    ensures v.Placeholder? <==> items == []
    ensures v.Placeholder? ==> v.message == NoneIdentified
    ensures v.Entries? ==>
      |v.entries| == |items| && forall i :: 0 <= i < |items| ==> v.entries[i] == (i, items[i])
  {
    if |items| == 0 then Placeholder(NoneIdentified)
    else Entries(seq(|items|, i requires 0 <= i < |items| => (i, items[i])))
  }

  /** The rendered brief. Objectives, deliverables and the three constraint categories go
      through `ListItems`; the ambiguities, assumptions and risks panels list their items
      directly, so an empty one shows no placeholder. */
  datatype BriefView = BriefView(
    summary: string,
    objectives: ListView,
    targetAudience: string,
    deliverables: ListView,
    technical: ListView,
    timeline: ListView,
    budget: ListView,
    ambiguities: seq<string>,
    assumptions: seq<string>,
    risks: seq<string>)

  /** The component: nothing at all without data, the rendered brief otherwise. */
  function Render(data: Option<StructuredBrief>): (v: Option<BriefView>)
    ensures v.None? <==> data.None?
    ensures data.Some? ==> var b, w := data.value, v.value;
      w.summary == b.summary && w.targetAudience == b.targetAudience &&
      w.objectives == ListItems(b.objectives) && w.deliverables == ListItems(b.deliverables) &&
      w.technical == ListItems(b.constraints.technical) &&
      w.timeline == ListItems(b.constraints.timeline) &&
      w.budget == ListItems(b.constraints.budget) &&
      w.ambiguities == b.ambiguities && w.assumptions == b.assumptions && w.risks == b.risks
  {
    match data
    case None => None
    case Some(b) => Some(BriefView(
      b.summary, ListItems(b.objectives), b.targetAudience, ListItems(b.deliverables),
      ListItems(b.constraints.technical), ListItems(b.constraints.timeline),
      ListItems(b.constraints.budget), b.ambiguities, b.assumptions, b.risks))
  }

  // ---------------------------------------------------------------- markdown export

  /** `items.map(i => `- ${i}`)` */
  function BulletLines(items: seq<string>): seq<string> {
    seq(|items|, i requires 0 <= i < |items| => "- " + items[i])
  }

  /** `items.map(i => `- ${i}`).join('\n')`: empty for an empty list, a bullet line per
      item otherwise. */
  function Bullets(items: seq<string>): string {
    JsString.JoinLines(BulletLines(items))
  }

  /** The bullet text is empty exactly for an empty list, and otherwise opens with the
      bullet line of the first item. */
  lemma BulletsShape(items: seq<string>)
    ensures Bullets(items) == "" <==> items == []
    ensures items != [] ==>
      2 + |items[0]| <= |Bullets(items)| && Bullets(items)[..2 + |items[0]|] == "- " + items[0]
  {
    var lines := BulletLines(items);
    JsString.JoinOpensWithFirst(lines);
    if items != [] {
      assert lines[0] == "- " + items[0];
    }
  }

  /** The bullet text splits back into one `- item` line per item, in order, as long as no
      item holds a newline. */
  lemma BulletsSplit(items: seq<string>)
    requires items != []
    requires forall i :: 0 <= i < |items| ==> '\n' !in items[i]
    ensures JsString.SplitLines(Bullets(items)) == BulletLines(items)
    ensures forall i :: 0 <= i < |items| ==> JsString.SplitLines(Bullets(items))[i] == "- " + items[i]
  {
    var lines := BulletLines(items);
    forall i | 0 <= i < |lines| ensures '\n' !in lines[i] {
      assert lines[i] == "- " + items[i];
    }
    JsString.SplitJoin(lines);
  }

  /** The sections of the export, each an interpolated value of the template. */
  datatype Section =
    | Summary | Objectives | TargetAudience | Deliverables
    | Technical | Timeline | Budget | Ambiguities | Assumptions | Risks

  /** The section order of the template. */
  const Order: seq<Section> :=
    [Summary, Objectives, TargetAudience, Deliverables, Technical, Timeline, Budget,
     Ambiguities, Assumptions, Risks]

  /** The heading line right above each section's body; the ambiguities go under
      "Clarifications Needed". */
  function Heading(s: Section): string {
    match s
    case Summary => "## Summary"
    case Objectives => "## Objectives"
    case TargetAudience => "## Target Audience"
    case Deliverables => "## Deliverables"
    case Technical => "### Technical"
    case Timeline => "### Timeline"
    case Budget => "### Budget"
    case Ambiguities => "## Clarifications Needed"
    case Assumptions => "## Assumptions"
    case Risks => "## Risks"
  }

  predicate IsList(s: Section) {
    s != Summary && s != TargetAudience
  }

  /** The brief's list that a list section exports. */
  function Items(b: StructuredBrief, s: Section): seq<string>
    requires IsList(s)
  {
    match s
    case Objectives => b.objectives
    case Deliverables => b.deliverables
    case Technical => b.constraints.technical
    case Timeline => b.constraints.timeline
    case Budget => b.constraints.budget
    case Ambiguities => b.ambiguities
    case Assumptions => b.assumptions
    case Risks => b.risks
  }

  /** What a section exports: the text field verbatim, or the bullet lines of the list. */
  function Body(b: StructuredBrief, s: Section): string {
    if IsList(s) then Bullets(Items(b, s))
    else if s == Summary then b.summary
    else b.targetAudience
  }

  /** What stands before a section's heading line in the template: the title before the
      summary, a blank line before the other top-level sections, the "Constraints" heading
      before the technical constraints, and a bare line break between the other two
      constraint categories. */
  function Lead(k: nat): string {
    if k == 0 then "\n# Project Brief\n\n"
    else if k == 4 then "\n\n## Constraints\n"
    else if k == 5 || k == 6 then "\n"
    else "\n\n"
  }

  /** The literal pieces of the template, between the interpolations: before each section
      its lead and its heading line, and finally a line break and four spaces of indentation. */
  function Pieces(): seq<string> {
    seq(|Order| + 1, k => Piece(k))
  }

  /** Piece k of the template. */
  function Piece(k: int): string {
    if 0 <= k < |Order| then Lead(k) + Heading(Order[k]) + "\n" else "\n    "
  }

  /** The interpolated values of the template: the section bodies, in template order. */
  function Values(b: StructuredBrief): seq<string> {
    seq(|Order|, k => if 0 <= k < |Order| then Body(b, Order[k]) else "")
  }

  /** The text `handleCopyMarkdown` puts on the clipboard; it depends on the brief alone. */
  function Markdown(b: StructuredBrief): string {
    TemplateLiteral.Fill(Pieces(), Values(b))
  }

  /** Where the body of the k-th section starts in the export. */
  function BodyStart(b: StructuredBrief, k: nat): nat
    requires k < |Order|
  {
    TemplateLiteral.ValueStart(Pieces(), Values(b), k)
  }

  /** Where the heading of the k-th section starts in the export. */
  function HeadingStart(b: StructuredBrief, k: nat): int
    requires k < |Order|
  {
    BodyStart(b, k) - |Heading(Order[k]) + "\n"|
  }

  /** The piece before each section ends with that section's heading line. */
  lemma PieceEndsWithHeading(k: nat)
    requires k < |Order|
    ensures TemplateLiteral.EndsWith(Pieces()[k], Heading(Order[k]) + "\n")
  {
    var lead, h := Lead(k), Heading(Order[k]) + "\n";
    assert Pieces()[k] == lead + h;
    assert (lead + h)[|lead|..] == h;
  }

  /** Every piece after a section starts a new line. */
  lemma PieceOpensLine(k: nat)
    requires 0 < k <= |Order|
    ensures |Pieces()[k]| > 0 && Pieces()[k][0] == '\n'
  {
    if k < |Order| {
      var lead := Lead(k);
      assert lead[0] == '\n';
      assert Pieces()[k] == lead + Heading(Order[k]) + "\n";
    } else {
      assert Pieces()[k] == "\n    ";
    }
  }

  /** The export opens with the title and the summary heading, then the summary verbatim. */
  lemma ExportOpening(b: StructuredBrief)
    ensures TemplateLiteral.OccursAt(Markdown(b), 0, "\n# Project Brief\n\n## Summary\n" + b.summary)
  {
    assert Pieces()[0] == "\n# Project Brief\n\n## Summary\n";
    assert Values(b)[0] == b.summary;
    TemplateLiteral.FillOpening(Pieces(), Values(b));
  }

  /** The export closes with the risks bullets, a line break and four spaces. */
  lemma ExportClosing(b: StructuredBrief)
    ensures TemplateLiteral.EndsWith(Markdown(b), Bullets(b.risks) + "\n    ")
  {
    assert Values(b)[9] == Bullets(b.risks);
    assert Pieces()[10] == "\n    ";
    TemplateLiteral.EndsWithLastValue(Pieces(), Values(b), "");
    assert "" + Bullets(b.risks) == Bullets(b.risks);
  }

  /** Each section's heading line stands right above its body. */
  lemma HeadingAbove(b: StructuredBrief, k: nat)
    requires k < |Order|
    ensures TemplateLiteral.OccursAt(Markdown(b), HeadingStart(b, k), Heading(Order[k]) + "\n")
  {
    PieceEndsWithHeading(k);
    TemplateLiteral.ValueAfter(Pieces(), Values(b), k, Heading(Order[k]) + "\n");
  }

  /** Each section's body stands verbatim at its offset, followed by a line break. */
  lemma SectionAt(b: StructuredBrief, k: nat)
    requires k < |Order|
    ensures TemplateLiteral.OccursAt(Markdown(b), BodyStart(b, k), Body(b, Order[k]) + "\n")
  {
    PieceOpensLine(k + 1);
    TemplateLiteral.ValueThen(Pieces(), Values(b), k, '\n');
  }

  /** The heading line and the body of a section, read as one stretch of the export. */
  lemma HeadedSection(b: StructuredBrief, k: nat)
    requires k < |Order|
    ensures TemplateLiteral.OccursAt(Markdown(b), HeadingStart(b, k),
      (Heading(Order[k]) + "\n") + (Body(b, Order[k]) + "\n"))
  {
    HeadingAbove(b, k);
    SectionAt(b, k);
    TemplateLiteral.OccursConcat(Markdown(b), HeadingStart(b, k), Heading(Order[k]) + "\n", BodyStart(b, k), Body(b, Order[k]) + "\n");
  }

  /** The ambiguities (section position `k` of the template) are exported under
      "Clarifications Needed", not under their field name. */
  lemma ClarificationsSection(b: StructuredBrief, k: nat)
    requires k < |Order| && Order[k] == Ambiguities
    ensures TemplateLiteral.OccursAt(Markdown(b), HeadingStart(b, k),
      "## Clarifications Needed\n" + (Bullets(b.ambiguities) + "\n"))
  {
    HeadedSection(b, k);
    assert Heading(Ambiguities) + "\n" == "## Clarifications Needed\n";
  }

  /** The section headings come in template order. */
  lemma HeadingsInOrder(b: StructuredBrief, i: nat, j: nat)
    requires i < j < |Order|
    ensures 0 <= HeadingStart(b, i)
    ensures HeadingStart(b, i) + |Heading(Order[i])| < HeadingStart(b, j)
  {
    var vs := Values(b);
    TemplateLiteral.ValueAt(Pieces(), vs, i);
    PieceEndsWithHeading(i);
    PieceEndsWithHeading(j);
    if i + 1 < j {
      TemplateLiteral.PiecesInOrder(Pieces(), vs, i + 1, j);
    }
  }

  const ConstraintsHeading: string := "## Constraints\n"

  /** The "Constraints" heading line and the "Technical" heading line, one after the other. */
  const ConstraintsLines: string := ConstraintsHeading + (Heading(Technical) + "\n")

  /** The piece before the technical constraints (section position `k` of the template) ends
      with the "Constraints" heading line and the "Technical" heading line. */
  lemma PieceEndsWithConstraints(k: nat)
    requires k < |Order| && Order[k] == Technical
    ensures TemplateLiteral.EndsWith(Pieces()[k], ConstraintsLines)
    ensures |Pieces()[k]| == 2 + |ConstraintsLines|
    ensures 0 < k && Order[k - 1] == Deliverables
  {
    var lead, h := ConstraintsHeading, Heading(Technical) + "\n";
    assert k == 4;
    assert Pieces()[k] == "\n\n" + (lead + h);
    assert ("\n\n" + (lead + h))[2..] == lead + h;
  }

  /** The "Constraints" heading line stands directly above the "Technical" heading line, which
      stands directly above the technical constraints (section position `k` of the template). */
  lemma ConstraintsAbove(b: StructuredBrief, k: nat)
    requires k < |Order| && Order[k] == Technical
    ensures |ConstraintsLines| <= BodyStart(b, k)
    ensures TemplateLiteral.OccursAt(Markdown(b), BodyStart(b, k) - |ConstraintsLines|, ConstraintsLines)
  {
    PieceEndsWithConstraints(k);
    TemplateLiteral.ValueAfter(Pieces(), Values(b), k, ConstraintsLines);
  }

  /** The "Constraints" heading line comes after the body of the section before it, the
      deliverables. */
  lemma ConstraintsAfterDeliverables(b: StructuredBrief, k: nat)
    requires k < |Order| && Order[k] == Technical
    ensures 0 < k && Order[k - 1] == Deliverables
    ensures BodyStart(b, k - 1) + |Body(b, Deliverables)| < BodyStart(b, k) - |ConstraintsLines|
  {
    var pieces, values := Pieces(), Values(b);
    PieceEndsWithConstraints(k);
    TemplateLiteral.ValueAt(pieces, values, k - 1);
    assert values[k - 1] == Body(b, Order[k - 1]);
  }

  /** An empty list still gets its heading line, with an empty body: the heading line is
      followed directly by a line break, so no bullet line follows it. */
  lemma EmptyListSection(b: StructuredBrief, k: nat)
    requires k < |Order| && IsList(Order[k]) && Items(b, Order[k]) == []
    ensures Body(b, Order[k]) == ""
    ensures TemplateLiteral.OccursAt(Markdown(b), HeadingStart(b, k), (Heading(Order[k]) + "\n") + "\n")
  {
    BulletsShape(Items(b, Order[k]));
    HeadedSection(b, k);
    assert Body(b, Order[k]) + "\n" == "\n";
  }

  /** With no risks, the export ends with the risks heading, a blank line and the closing
      indentation. */
  lemma NoRisksEnding(b: StructuredBrief)
    requires b.risks == []
    ensures TemplateLiteral.EndsWith(Markdown(b), "## Risks\n\n    ")
  {
    var h := Heading(Risks) + "\n";
    PieceEndsWithHeading(9);
    BulletsShape(b.risks);
    assert Values(b)[9] == "" && Pieces()[10] == "\n    ";
    TemplateLiteral.EndsWithLastValue(Pieces(), Values(b), h);
    assert h + "" + "\n    " == "## Risks\n\n    ";
  }
}
