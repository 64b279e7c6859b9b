/**
 * The result view's rules (components/AnalysisResult.tsx): the badge colour
 * for a risk level, and the PDF report: which lines `generatePDF` prints, in
 * what order and style, and where `printText` places each block, breaking
 * to a new page when a block would cross the bottom margin. The number of
 * lines jsPDF wraps a text to is an input; dates arrive as already formatted
 * text.
 */
module Report {
  import opened Json
  import opened Types

  // ---------------------------------------------------------------------------
  // getRiskColor
  // ---------------------------------------------------------------------------

  const HighRiskColor: string := "bg-red-100 text-red-800 border-red-200"
  const MediumRiskColor: string := "bg-yellow-100 text-yellow-800 border-yellow-200"
  const LowRiskColor: string := "bg-green-100 text-green-800 border-green-200"
  const UnknownRiskColor: string := "bg-slate-100 text-slate-800 border-slate-200"

  /** The badge classes for a risk level as the server spelled it. */
  function RiskColor(level: string): (classes: string)
    ensures level == "ALTO" ==> classes == HighRiskColor
    ensures level == "MÉDIO" ==> classes == MediumRiskColor
    ensures level == "BAIXO" ==> classes == LowRiskColor
    ensures level !in RiskLevelNames ==> classes == UnknownRiskColor
  {
    match level
    case "ALTO" => HighRiskColor
    case "MÉDIO" => MediumRiskColor
    case "BAIXO" => LowRiskColor
    case _ => UnknownRiskColor
  }

  /** Each of the three levels has its own colour, and none of them falls back to the neutral one. */
  lemma RiskColorsDistinct(a: RiskLevel, b: RiskLevel)
    ensures RiskColor(RiskLevelName(a)) != UnknownRiskColor
    ensures a != b ==> RiskColor(RiskLevelName(a)) != RiskColor(RiskLevelName(b))
  {
  }

  // ---------------------------------------------------------------------------
  // The lines of the report
  // ---------------------------------------------------------------------------

  datatype Style = Normal | Bold | Italic

  /** The text colours `printText` sets: red (220,38,38), blue (2,132,199), gray (100,116,139), black. */
  datatype TextColor = Black | Red | Blue | Gray

  /** One `printText` call: its text, font size, style and colour. */
  datatype Line = Line(text: string, fontSize: nat, style: Style, color: TextColor)

  /** A step of `generatePDF`: a `printText` call, or a bare `cursorY += amount`. */
  datatype Step = Print(line: Line) | Advance(amount: nat)

  const ReportTitle: string := "ThemisScan - Relatório de Análise"
  const NoRiskText: string := "Nenhuma cláusula de alto risco detectada."

  function HeaderSteps(date: string, time: string): seq<Step>
  {
    [Print(Line(ReportTitle, 18, Bold, Blue)),
     Print(Line("Data da Análise: " + date + " às " + time, 10, Normal, Gray)),
     Advance(5)]
  }

  /** The global-risk line: red only for a high risk. */
  function RiskLine(level: RiskLevel): (line: Line)
    ensures line.text == "Risco Global: " + RiskLevelName(level)
    ensures line.color == Red <==> level == Alto
  {
    Line("Risco Global: " + RiskLevelName(level), 12, Bold, if level == Alto then Red else Black)
  }

  /** The summary block. */
  function SummarySteps(data: AnalysisResponse): (steps: seq<Step>)
    ensures |steps| == 5 && steps[1].Print?
    ensures steps[1].line.text == "Risco Global: " + RiskLevelName(data.riskLevel)
    ensures steps[1].line.color == Red <==> data.riskLevel == Alto
  {
    [Print(Line("Resumo Executivo", 14, Bold, Black)),
     Print(RiskLine(data.riskLevel)),
     Print(Line(data.executiveSummary, 11, Normal, Black)),
     Print(Line("Tipo de Contrato: " + data.contractType, 10, Italic, Gray)),
     Advance(5)]
  }

  /** The four steps for one risk clause: clause, problem, recommendation, then a small gap. */
  function ClauseBlock(risk: RiskClause): seq<Step>
  {
    [Print(Line("• " + risk.clause, 11, Bold, Black)),
     Print(Line("  Problema: " + risk.reason, 10, Normal, Black)),
     Print(Line("  Recomendação: " + risk.recommendation, 10, Normal, Black)),
     Advance(2)]
  }

  /** `riskClauses.forEach(...)`: the blocks of the clauses in list order. */
  function ClauseBlocks(risks: seq<RiskClause>): (steps: seq<Step>)
    ensures |steps| == 4 * |risks|
  {
    if risks == [] then [] else ClauseBlocks(risks[..|risks| - 1]) + ClauseBlock(risks[|risks| - 1])
  }

  function RiskSteps(risks: seq<RiskClause>): seq<Step>
  {
    if |risks| > 0 then
      [Print(Line("Cláusulas de Risco (Prioridade Alta)", 14, Bold, Red))] + ClauseBlocks(risks) + [Advance(5)]
    else
      [Print(Line(NoRiskText, 11, Normal, Gray)), Advance(5)]
  }

  function TermLines(terms: seq<string>): (steps: seq<Step>)
    ensures |steps| == |terms|
    ensures forall i :: 0 <= i < |terms| ==> steps[i] == Print(Line("• " + terms[i], 10, Normal, Black))
  {
    seq(|terms|, i requires 0 <= i < |terms| => Print(Line("• " + terms[i], 10, Normal, Black)))
  }

  /** The missing-terms section, absent altogether when there are none. */
  function MissingSteps(terms: seq<string>): seq<Step>
  {
    if |terms| > 0 then [Print(Line("Termos Faltantes", 14, Bold, Black))] + TermLines(terms) + [Advance(5)] else []
  }

  /** `practicalRecommendations.forEach((rec, idx) => ...)`: one numbered line per recommendation. */
  function NumberedLines(recs: seq<string>): (steps: seq<Step>)
    ensures |steps| == |recs|
  {
    if recs == [] then []
    else NumberedLines(recs[..|recs| - 1]) + [Print(Line(NatToString(|recs|) + ". " + recs[|recs| - 1], 10, Normal, Black))]
  }

  function PlanSteps(recs: seq<string>): seq<Step>
  {
    [Print(Line("Plano de Ação", 14, Bold, Black))] + NumberedLines(recs)
  }

  /**
   * Everything `generatePDF` prints, in order: the title first, the global risk as the fifth step, the
   * clause blocks right after the risk heading, and the numbered plan closing the report.
   */
  function ReportSteps(data: AnalysisResponse, date: string, time: string): (steps: seq<Step>)
    ensures |steps| > 4 && steps[0] == Print(Line(ReportTitle, 18, Bold, Blue))
    ensures steps[4] == Print(RiskLine(data.riskLevel))
    ensures data.riskClauses != [] ==> |steps| >= 9 + 4 * |data.riskClauses|
                                       && steps[9..9 + 4 * |data.riskClauses|] == ClauseBlocks(data.riskClauses)
    ensures var recs := data.practicalRecommendations;
            |steps| > |recs| && steps[|steps| - |recs| - 1] == Print(Line("Plano de Ação", 14, Bold, Black))
            && steps[|steps| - |recs|..] == NumberedLines(recs)
  {
    var header := HeaderSteps(date, time);
    var summary := SummarySteps(data);
    var risks := RiskSteps(data.riskClauses);
    var plan := PlanSteps(data.practicalRecommendations);
    var n := |data.riskClauses|;
    ReportSections(header, summary, risks, MissingSteps(data.missingTerms), plan, if n > 0 then 1 else 0, if n > 0 then 1 + 4 * n else 0);
    assert n > 0 ==> risks[1..1 + 4 * n] == ClauseBlocks(data.riskClauses);
    assert plan[1..] == NumberedLines(data.practicalRecommendations);
    header + summary + risks + MissingSteps(data.missingTerms) + plan
  }

  /**
   * Where the sections of the report sit in the whole: the header's first step, the summary's second,
   * any stretch `a..b` of the risk section from step 8 on, and the plan, with its heading, at the end.
   */
  lemma ReportSections(header: seq<Step>, summary: seq<Step>, risks: seq<Step>, missing: seq<Step>, plan: seq<Step>,
                       a: nat, b: nat)
    requires |header| == 3 && |summary| == 5 && a <= b <= |risks| && plan != []
    ensures var s := header + summary + risks + missing + plan;
            && s[0] == header[0] && s[4] == summary[1]
            && s[8 + a..8 + b] == risks[a..b]
            && s[|s| - |plan|] == plan[0] && s[|s| - |plan| + 1..] == plan[1..]
  {
    var s := header + summary + risks + missing + plan;
    assert s == (header + summary) + (risks + missing + plan);
    assert (risks + missing + plan)[a..b] == risks[a..b];
    assert s == (header + summary + risks + missing) + plan;
  }

  /** Recommendation `i` (0-based) is printed as `"<i+1>. <rec>"`, so the plan is numbered 1..n in list order. */
  lemma {:induction false} NumberedLinesAt(recs: seq<string>, i: nat)
    requires i < |recs|
    ensures NumberedLines(recs)[i] == Print(Line(NatToString(i + 1) + ". " + recs[i], 10, Normal, Black))
    decreases |recs|
  {
    if i < |recs| - 1 {
      NumberedLinesAt(recs[..|recs| - 1], i);
    }
  }

  /** Clause `i`'s block starts at step `4 * i` of the clause steps: the clauses print in list order. */
  lemma {:induction false} ClauseBlocksAt(risks: seq<RiskClause>, i: nat)
    requires i < |risks|
    ensures ClauseBlocks(risks)[4 * i..4 * i + 4] == ClauseBlock(risks[i])
    decreases |risks|
  {
    var init := risks[..|risks| - 1];
    if i < |risks| - 1 {
      ClauseBlocksAt(init, i);
      assert ClauseBlocks(risks)[4 * i..4 * i + 4] == ClauseBlocks(init)[4 * i..4 * i + 4];
    } else {
      assert ClauseBlocks(risks)[4 * i..] == ClauseBlock(risks[i]);
    }
  }

  /** With no risk clauses the risk section is the single gray line; otherwise it opens with the red heading. */
  lemma RiskSection(risks: seq<RiskClause>)
    ensures risks == [] ==> RiskSteps(risks) == [Print(Line(NoRiskText, 11, Normal, Gray)), Advance(5)]
    ensures risks != [] ==> RiskSteps(risks)[0] == Print(Line("Cláusulas de Risco (Prioridade Alta)", 14, Bold, Red))
                            && |RiskSteps(risks)| == 4 * |risks| + 2
  {
  }

  /** The missing-terms section is omitted exactly when the list is empty; otherwise it has a heading and one line per term. */
  lemma MissingSection(terms: seq<string>)
    ensures MissingSteps(terms) == [] <==> terms == []
    ensures terms != [] ==> |MissingSteps(terms)| == |terms| + 2
  {
  }

  /** The impact of a clause, the favourable terms and the client questions never affect the report. */
  lemma ReportIgnoresUnprintedFields(data: AnalysisResponse, other: AnalysisResponse, date: string, time: string)
    requires other.executiveSummary == data.executiveSummary && other.contractType == data.contractType
    requires other.riskLevel == data.riskLevel && other.missingTerms == data.missingTerms
    requires other.practicalRecommendations == data.practicalRecommendations
    requires |other.riskClauses| == |data.riskClauses|
    requires forall i :: 0 <= i < |data.riskClauses| ==>
               other.riskClauses[i].clause == data.riskClauses[i].clause
               && other.riskClauses[i].reason == data.riskClauses[i].reason
               && other.riskClauses[i].recommendation == data.riskClauses[i].recommendation
    ensures ReportSteps(other, date, time) == ReportSteps(data, date, time)
  {
    ClauseBlocksPrinted(data.riskClauses, other.riskClauses);
  }

  lemma {:induction false} ClauseBlocksPrinted(a: seq<RiskClause>, b: seq<RiskClause>)
    requires |a| == |b|
    requires forall i :: 0 <= i < |a| ==>
               a[i].clause == b[i].clause && a[i].reason == b[i].reason && a[i].recommendation == b[i].recommendation
    ensures ClauseBlocks(a) == ClauseBlocks(b)
    decreases |a|
  {
    if a != [] {
      ClauseBlocksPrinted(a[..|a| - 1], b[..|b| - 1]);
    }
  }

  // ---------------------------------------------------------------------------
  // Placement on pages
  // ---------------------------------------------------------------------------

  type Length = r: real | 0.0 <= r

  const Margin: real := 20.0
  const Top: real := 20.0

  /**
   * The page: its height, and how many lines `splitTextToSize` wraps a text to at the content width
   * (font metrics are jsPDF's, so the count is an input).
   */
  datatype Geometry = Geometry(pageHeight: real, lineCount: Line -> nat)

  /** `fontSize * 0.4`. */
  function LineHeight(fontSize: nat): Length
  {
    fontSize as real * 0.4
  }

  /** `lines.length * lineHeight`. */
  function BlockHeight(g: Geometry, line: Line): Length
  {
    var n := g.lineCount(line) as real;
    var h := LineHeight(line.fontSize);
    assert n * h >= 0.0;
    n * h
  }

  /** Where a block was drawn: its page (1-based), the cursor it was drawn at, and its height. */
  datatype Placement = Placement(line: Line, page: nat, y: real, height: Length)

  /** The document as `generatePDF` builds it: pages so far, the cursor, and the blocks drawn. */
  datatype Layout = Layout(pageCount: nat, cursorY: real, placed: seq<Placement>)

  const InitialLayout: Layout := Layout(1, Top, [])

  /** `printText` for a block of height `h`: a new page first when the block would cross the bottom margin. */
  function Place(pageHeight: real, l: Layout, line: Line, h: Length): (r: Layout)
    // The earlier blocks stay as they were, and exactly one block is added for the line.
    ensures |r.placed| == |l.placed| + 1 && r.placed[..|l.placed|] == l.placed
    ensures r.placed[|l.placed|].line == line && r.placed[|l.placed|].height == h
    // A block that would cross the bottom margin goes to the top of a new page.
    ensures l.cursorY + h > pageHeight - Margin ==>
      r.placed[|l.placed|].page == l.pageCount + 1 && r.placed[|l.placed|].y == Top
    // Otherwise it is drawn at the cursor on the current page.
    ensures l.cursorY + h <= pageHeight - Margin ==>
      r.placed[|l.placed|].page == l.pageCount && r.placed[|l.placed|].y == l.cursorY
    // The cursor ends 6 units below the block, on the block's page.
    ensures r.pageCount == r.placed[|l.placed|].page && r.cursorY == r.placed[|l.placed|].y + h + 6.0
  {
    var l' := if l.cursorY + h > pageHeight - Margin then Layout(l.pageCount + 1, Top, l.placed) else l;
    Layout(l'.pageCount, l'.cursorY + h + 6.0, l'.placed + [Placement(line, l'.pageCount, l'.cursorY, h)])
  }

  /** One step of `generatePDF`. */
  function Apply(g: Geometry, l: Layout, step: Step): Layout
  {
    match step
    case Advance(amount) => l.(cursorY := l.cursorY + amount as real)
    case Print(line) => Place(g.pageHeight, l, line, BlockHeight(g, line))
  }

  function Run(g: Geometry, l: Layout, steps: seq<Step>): Layout
  {
    if steps == [] then l else Apply(g, Run(g, l, steps[..|steps| - 1]), steps[|steps| - 1])
  }

  lemma {:induction false} RunAppend(g: Geometry, l: Layout, a: seq<Step>, b: seq<Step>)
    ensures Run(g, l, a + b) == Run(g, Run(g, l, a), b)
    decreases |b|
  {
    if b == [] {
      assert a + b == a;
    } else {
      assert (a + b)[..|a + b| - 1] == a + b[..|b| - 1];
      RunAppend(g, l, a, b[..|b| - 1]);
    }
  }

  /** Block `p` comes before block `q`: on an earlier page, or lower on the same page with at least the 6-unit gap. */
  predicate Before(p: Placement, q: Placement)
  {
    p.page < q.page || (p.page == q.page && p.y + p.height + 6.0 <= q.y)
  }

  /**
   * The placement rule: blocks follow one another down the pages, pages are numbered without gaps,
   * every block either fits above the bottom margin or starts at the top of a fresh page, and the cursor
   * is below the last block.
   */
  predicate WellPlaced(g: Geometry, l: Layout)
  {
    && 1 <= l.pageCount
    && (forall i :: 0 <= i < |l.placed| - 1 ==> Before(l.placed[i], l.placed[i + 1]))
    && (forall i :: 0 <= i < |l.placed| - 1 ==> l.placed[i + 1].page <= l.placed[i].page + 1)
    && (forall i :: 0 <= i < |l.placed| ==>
          1 <= l.placed[i].page <= l.pageCount
          && (l.placed[i].y == Top || l.placed[i].y + l.placed[i].height <= g.pageHeight - Margin))
    && (l.placed != [] ==>
          var last := l.placed[|l.placed| - 1];
          last.page == l.pageCount && last.y + last.height + 6.0 <= l.cursorY)
    && (l.placed == [] ==> l.pageCount == 1)
  }

  lemma ApplyKeepsWellPlaced(g: Geometry, l: Layout, step: Step)
    requires WellPlaced(g, l)
    ensures WellPlaced(g, Apply(g, l, step))
    ensures |Apply(g, l, step).placed| == |l.placed| + (if step.Print? then 1 else 0)
    ensures Apply(g, l, step).placed[..|l.placed|] == l.placed
  {
    if step.Print? {
      PrintKeepsWellPlaced(g, l, step.line);
    } else {
      assert Apply(g, l, step).placed[..|l.placed|] == l.placed;
    }
  }

  lemma PrintKeepsWellPlaced(g: Geometry, l: Layout, line: Line)
    requires WellPlaced(g, l)
    ensures WellPlaced(g, Apply(g, l, Print(line)))
    ensures |Apply(g, l, Print(line)).placed| == |l.placed| + 1
    ensures Apply(g, l, Print(line)).placed[..|l.placed|] == l.placed
  {
    PlaceKeepsWellPlaced(g, l, line, BlockHeight(g, line));
  }

  lemma PlaceKeepsWellPlaced(g: Geometry, l: Layout, line: Line, h: Length)
    requires WellPlaced(g, l)
    ensures WellPlaced(g, Place(g.pageHeight, l, line, h))
    ensures |Place(g.pageHeight, l, line, h).placed| == |l.placed| + 1
    ensures Place(g.pageHeight, l, line, h).placed[..|l.placed|] == l.placed
  {
    var brk := l.cursorY + h > g.pageHeight - Margin;
    var page := if brk then l.pageCount + 1 else l.pageCount;
    var y := if brk then Top else l.cursorY;
    var p := Placement(line, page, y, h);
    assert Place(g.pageHeight, l, line, h) == Layout(page, y + h + 6.0, l.placed + [p]);
    AppendKeepsWellPlaced(g, l, p);
  }

  /** A block drawn at the cursor of the current page, or at the top of a fresh one, keeps the placement rule. */
  lemma AppendKeepsWellPlaced(g: Geometry, l: Layout, p: Placement)
    requires WellPlaced(g, l)
    requires (p.page == l.pageCount && p.y == l.cursorY) || (p.page == l.pageCount + 1 && p.y == Top)
    requires p.y == Top || p.y + p.height <= g.pageHeight - Margin
    ensures WellPlaced(g, Layout(p.page, p.y + p.height + 6.0, l.placed + [p]))
    ensures (l.placed + [p])[..|l.placed|] == l.placed
  {
    var placed := l.placed + [p];
    assert placed[..|l.placed|] == l.placed;
    assert placed[|placed| - 1] == p;
    if l.placed != [] {
      var last := l.placed[|l.placed| - 1];
      assert last.page == l.pageCount && last.y + last.height + 6.0 <= l.cursorY;
      assert Before(last, p) && p.page <= last.page + 1;
    }
    AppendOrder(l.placed, p);
    AppendBounds(g, l, p);
    var r := Layout(p.page, p.y + p.height + 6.0, placed);
    assert 1 <= r.pageCount;
    assert forall i :: 0 <= i < |r.placed| - 1 ==> Before(r.placed[i], r.placed[i + 1]);
    assert forall i :: 0 <= i < |r.placed| - 1 ==> r.placed[i + 1].page <= r.placed[i].page + 1;
  }

  /** Appending a block that comes after the last one keeps the blocks in order. */
  lemma AppendOrder(placed: seq<Placement>, p: Placement)
    requires forall i :: 0 <= i < |placed| - 1 ==> Before(placed[i], placed[i + 1])
    requires forall i :: 0 <= i < |placed| - 1 ==> placed[i + 1].page <= placed[i].page + 1
    requires placed != [] ==> Before(placed[|placed| - 1], p) && p.page <= placed[|placed| - 1].page + 1
    ensures var all := placed + [p];
            forall i :: 0 <= i < |all| - 1 ==> Before(all[i], all[i + 1]) && all[i + 1].page <= all[i].page + 1
  {
    var all := placed + [p];
    forall i | 0 <= i < |all| - 1
      ensures Before(all[i], all[i + 1]) && all[i + 1].page <= all[i].page + 1
    {
      assert all[i] == placed[i];
      if i < |placed| - 1 {
        assert all[i + 1] == placed[i + 1];
      } else {
        assert all[i + 1] == p;
      }
    }
  }

  /** Appending a block on the last page or the next one keeps every block within the pages and margins. */
  lemma AppendBounds(g: Geometry, l: Layout, p: Placement)
    requires forall i :: 0 <= i < |l.placed| ==>
               1 <= l.placed[i].page <= l.pageCount
               && (l.placed[i].y == Top || l.placed[i].y + l.placed[i].height <= g.pageHeight - Margin)
    requires 1 <= l.pageCount <= p.page
    requires p.y == Top || p.y + p.height <= g.pageHeight - Margin
    ensures var all := l.placed + [p];
            forall i :: 0 <= i < |all| ==>
              1 <= all[i].page <= p.page
              && (all[i].y == Top || all[i].y + all[i].height <= g.pageHeight - Margin)
  {
    var all := l.placed + [p];
    forall i | 0 <= i < |all|
      ensures 1 <= all[i].page <= p.page
      ensures all[i].y == Top || all[i].y + all[i].height <= g.pageHeight - Margin
    {
      if i < |l.placed| {
        assert all[i] == l.placed[i];
      } else {
        assert all[i] == p;
      }
    }
  }

  /** Running any sequence of steps from the first page keeps the placement rule. */
  lemma {:induction false} RunWellPlaced(g: Geometry, steps: seq<Step>)
    ensures WellPlaced(g, Run(g, InitialLayout, steps))
    decreases |steps|
  {
    if steps != [] {
      RunWellPlaced(g, steps[..|steps| - 1]);
      ApplyKeepsWellPlaced(g, Run(g, InitialLayout, steps[..|steps| - 1]), steps[|steps| - 1]);
    }
  }

  /** The blocks drawn are exactly the printed lines, in the order of the steps. */
  function Printed(steps: seq<Step>): (lines: seq<Line>)
  {
    if steps == [] then []
    else Printed(steps[..|steps| - 1]) + (if steps[|steps| - 1].Print? then [steps[|steps| - 1].line] else [])
  }

  lemma {:induction false} RunPlacesPrinted(g: Geometry, l: Layout, steps: seq<Step>)
    ensures var r := Run(g, l, steps);
            |r.placed| == |l.placed| + |Printed(steps)|
            && r.placed[..|l.placed|] == l.placed
            && forall i :: 0 <= i < |Printed(steps)| ==> r.placed[|l.placed| + i].line == Printed(steps)[i]
    decreases |steps|
  {
    if steps != [] {
      var init := steps[..|steps| - 1];
      RunPlacesPrinted(g, l, init);
      var r0 := Run(g, l, init);
      var r := Run(g, l, steps);
      if steps[|steps| - 1].Print? {
        assert r.placed == r0.placed + [r.placed[|r.placed| - 1]];
        assert r.placed[..|l.placed|] == r0.placed[..|l.placed|];
      } else {
        assert r.placed == r0.placed;
      }
    }
  }

  // ---------------------------------------------------------------------------
  // The document object
  // ---------------------------------------------------------------------------

  /** The jsPDF document with the `cursorY` variable of `generatePDF`. */
  class PdfDocument {
    const geometry: Geometry
    var pageCount: nat
    var cursorY: real
    var placed: seq<Placement>

    function Snapshot(): Layout
      reads this
    {
      Layout(pageCount, cursorY, placed)
    }

    /** `new jsPDF()` and `let cursorY = 20`. */
    constructor(g: Geometry)
      ensures geometry == g && Snapshot() == InitialLayout
    {
      geometry := g;
      pageCount := 1;
      cursorY := Top;
      placed := [];
    }

    /** `printText`: break to a new page if the block would cross the bottom margin, draw it, move the cursor down. */
    method PrintText(line: Line)
      modifies this
      ensures Snapshot() == Apply(geometry, old(Snapshot()), Print(line))
    {
      var h := BlockHeight(geometry, line);
      if cursorY + h > geometry.pageHeight - Margin {
        pageCount := pageCount + 1;
        cursorY := Top;
      }
      placed := placed + [Placement(line, pageCount, cursorY, h)];
      cursorY := cursorY + h + 6.0;
    }

    /** `cursorY += amount`. */
    method MoveCursor(amount: nat)
      modifies this
      ensures Snapshot() == Apply(geometry, old(Snapshot()), Advance(amount))
    {
      cursorY := cursorY + amount as real;
    }
  }

  /** Running one more step is applying it to the state the earlier steps produced. */
  lemma RunStep(g: Geometry, l: Layout, steps: seq<Step>, step: Step)
    ensures Run(g, l, steps + [step]) == Apply(g, Run(g, l, steps), step)
  {
    assert (steps + [step])[..|steps|] == steps;
  }

  /** Running one more step of a list is applying it to the state the steps before it produced. */
  lemma RunPrefix(g: Geometry, l: Layout, steps: seq<Step>, k: nat)
    requires k < |steps|
    ensures Run(g, l, steps[..k + 1]) == Apply(g, Run(g, l, steps[..k]), steps[k])
  {
    assert steps[..k + 1][..k] == steps[..k];
  }

  /** The header: title, date line, then a 5-unit gap. */
  method PrintHeader(doc: PdfDocument, date: string, time: string)
    modifies doc
    ensures doc.Snapshot() == Run(doc.geometry, old(doc.Snapshot()), HeaderSteps(date, time))
  {
    ghost var l0 := doc.Snapshot();
    ghost var steps := HeaderSteps(date, time);
    doc.PrintText(Line(ReportTitle, 18, Bold, Blue));
    RunPrefix(doc.geometry, l0, steps, 0);
    doc.PrintText(Line("Data da Análise: " + date + " às " + time, 10, Normal, Gray));
    RunPrefix(doc.geometry, l0, steps, 1);
    doc.MoveCursor(5);
    RunPrefix(doc.geometry, l0, steps, 2);
    assert steps[..3] == steps;
  }

  /** The summary: heading, global risk, summary text, contract type, then a 5-unit gap. */
  method PrintSummary(doc: PdfDocument, data: AnalysisResponse)
    modifies doc
    ensures doc.Snapshot() == Run(doc.geometry, old(doc.Snapshot()), SummarySteps(data))
  {
    ghost var l0 := doc.Snapshot();
    ghost var steps := SummarySteps(data);
    doc.PrintText(Line("Resumo Executivo", 14, Bold, Black));
    RunPrefix(doc.geometry, l0, steps, 0);
    doc.PrintText(RiskLine(data.riskLevel));
    RunPrefix(doc.geometry, l0, steps, 1);
    doc.PrintText(Line(data.executiveSummary, 11, Normal, Black));
    RunPrefix(doc.geometry, l0, steps, 2);
    doc.PrintText(Line("Tipo de Contrato: " + data.contractType, 10, Italic, Gray));
    RunPrefix(doc.geometry, l0, steps, 3);
    doc.MoveCursor(5);
    RunPrefix(doc.geometry, l0, steps, 4);
    assert steps[..5] == steps;
  }

  /** One clause's block: its three lines and the 2-unit gap. */
  method PrintClause(doc: PdfDocument, risk: RiskClause)
    modifies doc
    ensures doc.Snapshot() == Run(doc.geometry, old(doc.Snapshot()), ClauseBlock(risk))
  {
    ghost var l0 := doc.Snapshot();
    ghost var steps := ClauseBlock(risk);
    doc.PrintText(Line("• " + risk.clause, 11, Bold, Black));
    RunPrefix(doc.geometry, l0, steps, 0);
    doc.PrintText(Line("  Problema: " + risk.reason, 10, Normal, Black));
    RunPrefix(doc.geometry, l0, steps, 1);
    doc.PrintText(Line("  Recomendação: " + risk.recommendation, 10, Normal, Black));
    RunPrefix(doc.geometry, l0, steps, 2);
    doc.MoveCursor(2);
    RunPrefix(doc.geometry, l0, steps, 3);
    assert steps[..4] == steps;
  }

  /** `riskClauses.forEach(...)`: the clause blocks in list order. */
  method PrintClauses(doc: PdfDocument, risks: seq<RiskClause>)
    modifies doc
    ensures doc.Snapshot() == Run(doc.geometry, old(doc.Snapshot()), ClauseBlocks(risks))
  {
    ghost var l0 := doc.Snapshot();
    for i := 0 to |risks|
      invariant doc.Snapshot() == Run(doc.geometry, l0, ClauseBlocks(risks[..i]))
    {
      PrintClause(doc, risks[i]);
      RunAppend(doc.geometry, l0, ClauseBlocks(risks[..i]), ClauseBlock(risks[i]));
      assert risks[..i + 1][..i] == risks[..i];
    }
    assert risks[..|risks|] == risks;
  }

  /** The risk section: the red heading and every clause in order, or the single "none" line. */
  method PrintRisks(doc: PdfDocument, risks: seq<RiskClause>)
    modifies doc
    ensures doc.Snapshot() == Run(doc.geometry, old(doc.Snapshot()), RiskSteps(risks))
  {
    ghost var l0 := doc.Snapshot();
    if |risks| > 0 {
      var heading := Print(Line("Cláusulas de Risco (Prioridade Alta)", 14, Bold, Red));
      doc.PrintText(heading.line);
      RunStep(doc.geometry, l0, [], heading);
      PrintClauses(doc, risks);
      RunAppend(doc.geometry, l0, [heading], ClauseBlocks(risks));
      doc.MoveCursor(5);
      RunStep(doc.geometry, l0, [heading] + ClauseBlocks(risks), Advance(5));
    } else {
      var none := Print(Line(NoRiskText, 11, Normal, Gray));
      doc.PrintText(none.line);
      RunStep(doc.geometry, l0, [], none);
      doc.MoveCursor(5);
      RunStep(doc.geometry, l0, [none], Advance(5));
    }
  }

  /** `missingTerms.forEach(...)`: one bulleted line per term, in list order. */
  method PrintTermLines(doc: PdfDocument, terms: seq<string>)
    modifies doc
    ensures doc.Snapshot() == Run(doc.geometry, old(doc.Snapshot()), TermLines(terms))
  {
    ghost var l0 := doc.Snapshot();
    for i := 0 to |terms|
      invariant doc.Snapshot() == Run(doc.geometry, l0, TermLines(terms[..i]))
    {
      var step := Print(Line("• " + terms[i], 10, Normal, Black));
      doc.PrintText(step.line);
      RunStep(doc.geometry, l0, TermLines(terms[..i]), step);
      assert TermLines(terms[..i + 1]) == TermLines(terms[..i]) + [step];
    }
    assert terms[..|terms|] == terms;
  }

  /** The missing-terms section, skipped when there are no terms. */
  method PrintMissingTerms(doc: PdfDocument, terms: seq<string>)
    modifies doc
    ensures doc.Snapshot() == Run(doc.geometry, old(doc.Snapshot()), MissingSteps(terms))
  {
    ghost var l0 := doc.Snapshot();
    if |terms| > 0 {
      var heading := Print(Line("Termos Faltantes", 14, Bold, Black));
      doc.PrintText(heading.line);
      RunStep(doc.geometry, l0, [], heading);
      PrintTermLines(doc, terms);
      RunAppend(doc.geometry, l0, [heading], TermLines(terms));
      doc.MoveCursor(5);
      RunStep(doc.geometry, l0, [heading] + TermLines(terms), Advance(5));
    }
  }

  /** `practicalRecommendations.forEach((rec, idx) => ...)`: the recommendations numbered from 1. */
  method PrintNumbered(doc: PdfDocument, recs: seq<string>)
    modifies doc
    ensures doc.Snapshot() == Run(doc.geometry, old(doc.Snapshot()), NumberedLines(recs))
  {
    ghost var l0 := doc.Snapshot();
    for idx := 0 to |recs|
      invariant doc.Snapshot() == Run(doc.geometry, l0, NumberedLines(recs[..idx]))
    {
      var step := Print(Line(NatToString(idx + 1) + ". " + recs[idx], 10, Normal, Black));
      doc.PrintText(step.line);
      RunStep(doc.geometry, l0, NumberedLines(recs[..idx]), step);
      assert recs[..idx + 1][..idx] == recs[..idx];
      assert NumberedLines(recs[..idx + 1]) == NumberedLines(recs[..idx]) + [step];
    }
    assert recs[..|recs|] == recs;
  }

  /** The action plan: its heading, then the numbered recommendations. */
  method PrintPlan(doc: PdfDocument, recs: seq<string>)
    modifies doc
    ensures doc.Snapshot() == Run(doc.geometry, old(doc.Snapshot()), PlanSteps(recs))
  {
    ghost var l0 := doc.Snapshot();
    var heading := Print(Line("Plano de Ação", 14, Bold, Black));
    doc.PrintText(heading.line);
    RunStep(doc.geometry, l0, [], heading);
    PrintNumbered(doc, recs);
    RunAppend(doc.geometry, l0, [heading], NumberedLines(recs));
  }

  /**
   * `generatePDF` up to `doc.save`: the header, the summary, the risk clauses, the missing terms and the
   * action plan. The document it produces is the run of `ReportSteps`, so every block obeys the page rule
   * and the blocks appear in the order of the report's lines.
   */
  method GeneratePdf(data: AnalysisResponse, date: string, time: string, g: Geometry) returns (doc: PdfDocument)
    ensures fresh(doc) && doc.geometry == g
    ensures doc.Snapshot() == Run(g, InitialLayout, ReportSteps(data, date, time))
    ensures WellPlaced(g, doc.Snapshot())
    ensures |doc.placed| == |Printed(ReportSteps(data, date, time))|
    ensures forall i :: 0 <= i < |doc.placed| ==> doc.placed[i].line == Printed(ReportSteps(data, date, time))[i]
  {
    doc := new PdfDocument(g);
    ghost var s1 := HeaderSteps(date, time);
    ghost var s2 := s1 + SummarySteps(data);
    ghost var s3 := s2 + RiskSteps(data.riskClauses);
    ghost var s4 := s3 + MissingSteps(data.missingTerms);
    PrintHeader(doc, date, time);
    PrintSummary(doc, data);
    RunAppend(g, InitialLayout, s1, SummarySteps(data));
    PrintRisks(doc, data.riskClauses);
    RunAppend(g, InitialLayout, s2, RiskSteps(data.riskClauses));
    PrintMissingTerms(doc, data.missingTerms);
    RunAppend(g, InitialLayout, s3, MissingSteps(data.missingTerms));
    PrintPlan(doc, data.practicalRecommendations);
    RunAppend(g, InitialLayout, s4, PlanSteps(data.practicalRecommendations));
    ghost var all := s4 + PlanSteps(data.practicalRecommendations);
    assert all == ReportSteps(data, date, time);
    RunWellPlaced(g, all);
    RunPlacesPrinted(g, InitialLayout, all);
  }
}
