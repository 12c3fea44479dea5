/** The sustainability report page (app/dashboard/report/page.jsx): the CSV
    export, export dispatch and file naming of `ReportFilter`, and the change
    indicator of `ReportStat`.  Numbers in the report data are carried in the
    text form JavaScript's template literals give them. */
module Report {
  import opened Options
  import opened Text

  datatype CarbonOffset = CarbonOffset(total: string, unit: string, change: string, goal: string)
  datatype TreesPlanted = TreesPlanted(total: string, unit: string, change: string, survivalRate: string)
  datatype SpeciesRecovery = SpeciesRecovery(current: string, target: string)
  datatype Biodiversity = Biodiversity(indexImprovement: string, unit: string, change: string,
                                       speciesRecovery: SpeciesRecovery)
  datatype WaterConservation = WaterConservation(saved: string, unit: string, change: string, efficiency: string)
  datatype Activity = Activity(date: string, name: string, impact: string, status: string)
  datatype Recommendation = Recommendation(title: string, description: string)

  datatype ReportData = ReportData(
    carbonOffset: CarbonOffset,
    treesPlanted: TreesPlanted,
    biodiversityImpact: Biodiversity,
    waterConservation: WaterConservation,
    activities: seq<Activity>,
    recommendations: seq<Recommendation>)

  /** The page's mock activities. */
  const SampleActivities: seq<Activity> := [
    Activity("2023-05-15", "Tree Planting", "Carbon reduction: 2.5 tons", "Completed"),
    Activity("2023-06-02", "Wildlife Monitoring", "Biodiversity index: +12%", "Completed"),
    Activity("2023-06-20", "Soil Restoration", "Area: 5 hectares", "In Progress"),
    Activity("2023-07-10", "Water Conservation", "Water saved: 15,000 liters", "Planned")
  ]

  // ---------------------------------------------------------------------
  // The CSV layout, as lines of fields

  const CsvHeader: string := "Category,Metric,Value,Unit,Change"
  const ActivitiesTitle: string := "Activities"
  const ActivitiesHeader: string := "Date,Activity,Impact,Status"

  /** Category and metric of the eight metric rows, in order. */
  const Categories: seq<string> :=
    ["Carbon Offset", "Carbon Offset", "Trees Planted", "Trees Planted",
     "Biodiversity", "Biodiversity", "Water Conservation", "Water Conservation"]
  const Metrics: seq<string> :=
    ["Total", "Progress to Goal", "Total", "Survival Rate",
     "Index Improvement", "Species Recovery", "Water Saved", "Efficiency"]

  // The five fields (category, metric, value, unit, change) of each metric
  // row.  The total and index rows carry a change; the progress and ratio
  // rows leave the change field empty.

  function CarbonTotalFields(co: CarbonOffset): seq<string>
  {
    ["Carbon Offset", "Total", co.total, co.unit, co.change + "%"]
  }

  function CarbonProgressFields(co: CarbonOffset): seq<string>
  {
    ["Carbon Offset", "Progress to Goal", co.total + "/" + co.goal, co.unit, ""]
  }

  function TreesTotalFields(tp: TreesPlanted): seq<string>
  {
    ["Trees Planted", "Total", tp.total, tp.unit, tp.change + "%"]
  }

  function SurvivalFields(tp: TreesPlanted): seq<string>
  {
    ["Trees Planted", "Survival Rate", tp.survivalRate, "%", ""]
  }

  function IndexFields(bi: Biodiversity): seq<string>
  {
    ["Biodiversity", "Index Improvement", bi.indexImprovement, bi.unit, bi.change + "%"]
  }

  function SpeciesFields(sr: SpeciesRecovery): seq<string>
  {
    ["Biodiversity", "Species Recovery", sr.current + "/" + sr.target, "", ""]
  }

  function WaterSavedFields(wc: WaterConservation): seq<string>
  {
    ["Water Conservation", "Water Saved", wc.saved, wc.unit, wc.change + "%"]
  }

  function EfficiencyFields(wc: WaterConservation): seq<string>
  {
    ["Water Conservation", "Efficiency", wc.efficiency, "% of goal", ""]
  }

  /** The fields of the eight metric rows, in export order. */
  function MetricFields(d: ReportData): (rows: seq<seq<string>>)
    ensures |rows| == 8
  {
    var co, tp, bi, wc := d.carbonOffset, d.treesPlanted, d.biodiversityImpact, d.waterConservation;
    [CarbonTotalFields(co), CarbonProgressFields(co), TreesTotalFields(tp), SurvivalFields(tp),
     IndexFields(bi), SpeciesFields(bi.speciesRecovery), WaterSavedFields(wc), EfficiencyFields(wc)]
  }

  /** The changes the metric rows report, by row (empty for rows without). */
  function Changes(d: ReportData): seq<string>
  {
    [d.carbonOffset.change, "", d.treesPlanted.change, "", d.biodiversityImpact.change, "",
     d.waterConservation.change, ""]
  }

  /** The eight metric rows of the export. */
  function MetricLines(d: ReportData): (lines: seq<string>)
    ensures |lines| == 8
  {
    var m := MetricFields(d);
    [Join(m[0], ','), Join(m[1], ','), Join(m[2], ','), Join(m[3], ','),
     Join(m[4], ','), Join(m[5], ','), Join(m[6], ','), Join(m[7], ',')]
  }

  function ActivityFields(a: Activity): seq<string>
  {
    [a.date, a.name, a.impact, a.status]
  }

  function ActivityRow(a: Activity): string
  {
    Join(ActivityFields(a), ',')
  }

  function ActivityRows(acts: seq<Activity>): (rows: seq<string>)
    ensures |rows| == |acts|
  {
    seq(|acts|, i requires 0 <= i < |acts| => ActivityRow(acts[i]))
  }

  /** The lines before the activity rows: header, eight metric rows, an empty
      line, the section title and the activity header. */
  function Preamble(d: ReportData): (lines: seq<string>)
    ensures |lines| == 12
  {
    [CsvHeader] + MetricLines(d) + ["", ActivitiesTitle, ActivitiesHeader]
  }

  /** Every line of the CSV export, in order. */
  function CsvLines(d: ReportData): seq<string>
  {
    Preamble(d) + ActivityRows(d.activities)
  }

  // Each metric row the page's template writes is the comma-join of that
  // row's fields, terminated by a line feed.

  lemma CarbonTotalRow(co: CarbonOffset)
    ensures Join(CarbonTotalFields(co), ',') + "\n" == "Carbon Offset,Total," + co.total + "," + co.unit + "," + co.change + "%\n"
  {
    Join5("Carbon Offset", "Total", co.total, co.unit, co.change + "%", ',');
    assert "Carbon Offset" + "," + "Total" + "," == "Carbon Offset,Total,";
    AppendAssoc("Carbon Offset,Total," + co.total + "," + co.unit + "," + co.change, "%", "\n");
    assert "%" + "\n" == "%\n";
  }

  lemma CarbonProgressRow(co: CarbonOffset)
    ensures Join(CarbonProgressFields(co), ',') + "\n" == "Carbon Offset,Progress to Goal," + co.total + "/" + co.goal + "," + co.unit + ",\n"
  {
    Join5("Carbon Offset", "Progress to Goal", co.total + "/" + co.goal, co.unit, "", ',');
    assert "Carbon Offset" + "," + "Progress to Goal" + "," == "Carbon Offset,Progress to Goal,";
    Regroup3("Carbon Offset,Progress to Goal,", co.total, "/", co.goal);
    var z := "Carbon Offset,Progress to Goal," + co.total + "/" + co.goal + "," + co.unit;
    assert z + "," + "" == z + ",";
    AppendAssoc(z, ",", "\n");
    assert "," + "\n" == ",\n";
  }

  lemma TreesTotalRow(tp: TreesPlanted)
    ensures Join(TreesTotalFields(tp), ',') + "\n" == "Trees Planted,Total," + tp.total + "," + tp.unit + "," + tp.change + "%\n"
  {
    Join5("Trees Planted", "Total", tp.total, tp.unit, tp.change + "%", ',');
    assert "Trees Planted" + "," + "Total" + "," == "Trees Planted,Total,";
    AppendAssoc("Trees Planted,Total," + tp.total + "," + tp.unit + "," + tp.change, "%", "\n");
    assert "%" + "\n" == "%\n";
  }

  lemma SurvivalRow(tp: TreesPlanted)
    ensures Join(SurvivalFields(tp), ',') + "\n" == "Trees Planted,Survival Rate," + tp.survivalRate + "," + "%" + ",\n"
  {
    Join5("Trees Planted", "Survival Rate", tp.survivalRate, "%", "", ',');
    assert "Trees Planted" + "," + "Survival Rate" + "," == "Trees Planted,Survival Rate,";
    var z := "Trees Planted,Survival Rate," + tp.survivalRate + "," + "%";
    assert z + "," + "" == z + ",";
    AppendAssoc(z, ",", "\n");
    assert "," + "\n" == ",\n";
  }

  lemma IndexRow(bi: Biodiversity)
    ensures Join(IndexFields(bi), ',') + "\n" == "Biodiversity,Index Improvement," + bi.indexImprovement + "," + bi.unit + "," + bi.change + "%\n"
  {
    Join5("Biodiversity", "Index Improvement", bi.indexImprovement, bi.unit, bi.change + "%", ',');
    assert "Biodiversity" + "," + "Index Improvement" + "," == "Biodiversity,Index Improvement,";
    AppendAssoc("Biodiversity,Index Improvement," + bi.indexImprovement + "," + bi.unit + "," + bi.change, "%", "\n");
    assert "%" + "\n" == "%\n";
  }

  lemma SpeciesRow(sr: SpeciesRecovery)
    ensures Join(SpeciesFields(sr), ',') + "\n" == "Biodiversity,Species Recovery," + sr.current + "/" + sr.target + ",,\n"
  {
    Join5("Biodiversity", "Species Recovery", sr.current + "/" + sr.target, "", "", ',');
    assert "Biodiversity" + "," + "Species Recovery" + "," == "Biodiversity,Species Recovery,";
    Regroup3("Biodiversity,Species Recovery,", sr.current, "/", sr.target);
    var z := "Biodiversity,Species Recovery," + sr.current + "/" + sr.target;
    assert z + "," + "" + "," + "" == z + "," + ",";
    Regroup3(z, ",", ",", "\n");
    assert "," + "," + "\n" == ",,\n";
  }

  lemma WaterSavedRow(wc: WaterConservation)
    ensures Join(WaterSavedFields(wc), ',') + "\n" == "Water Conservation,Water Saved," + wc.saved + "," + wc.unit + "," + wc.change + "%\n"
  {
    Join5("Water Conservation", "Water Saved", wc.saved, wc.unit, wc.change + "%", ',');
    assert "Water Conservation" + "," + "Water Saved" + "," == "Water Conservation,Water Saved,";
    AppendAssoc("Water Conservation,Water Saved," + wc.saved + "," + wc.unit + "," + wc.change, "%", "\n");
    assert "%" + "\n" == "%\n";
  }

  lemma EfficiencyRow(wc: WaterConservation)
    ensures Join(EfficiencyFields(wc), ',') + "\n" == "Water Conservation,Efficiency," + wc.efficiency + "," + "% of goal" + ",\n"
  {
    Join5("Water Conservation", "Efficiency", wc.efficiency, "% of goal", "", ',');
    assert "Water Conservation" + "," + "Efficiency" + "," == "Water Conservation,Efficiency,";
    var z := "Water Conservation,Efficiency," + wc.efficiency + "," + "% of goal";
    assert z + "," + "" == z + ",";
    AppendAssoc(z, ",", "\n");
    assert "," + "\n" == ",\n";
  }

  /** The header line the export starts with. */
  lemma HeaderText()
    ensures Unlines([CsvHeader]) == "Category,Metric,Value,Unit,Change\n"
  {
    assert Unlines([CsvHeader]) == CsvHeader + "\n" + Unlines([]);
    assert "Category,Metric,Value,Unit,Change\n" == CsvHeader + "\n";
  }

  // The activities section is appended as one literal; these split it at
  // its line feeds, each in a proof of its own to keep the solver's work
  // on string literals small.

  lemma SectionEnd()
    ensures "\nActivities\nDate,Activity,Impact,Status\n" == "\nActivities\nDate,Activity,Impact,Status" + "\n"
  {
  }

  lemma SectionHeader()
    ensures "\nActivities\nDate,Activity,Impact,Status" == "\nActivities\n" + "Date,Activity,Impact,Status"
  {
  }

  lemma SectionTitle()
    ensures "\nActivities\n" == "\n" + "Activities" + "\n"
  {
  }

  /** The activities section the export appends in one piece is the text of
      its three lines. */
  lemma ActivitiesSectionText()
    ensures Unlines(["", ActivitiesTitle, ActivitiesHeader]) == "\nActivities\nDate,Activity,Impact,Status\n"
  {
    Unlines3("", ActivitiesTitle, ActivitiesHeader);
    SectionEnd();
    SectionHeader();
    SectionTitle();
  }

  /** Appending one terminated line to the text of some lines. */
  lemma AppendLine(csv: string, lines: seq<string>, line: string, text: string)
    requires csv == Unlines(lines) && text == line + "\n"
    ensures csv + text == Unlines(lines + [line])
  {
    UnlinesSnoc(lines, line);
  }

  /** `exportAsCSV`: builds the text by appending, as the page does, and
      returns it with the download name. */
  method ExportAsCsv(d: ReportData, fileName: string) returns (csv: string, downloadName: string)
    ensures csv == Unlines(CsvLines(d))
    ensures downloadName == fileName + ".csv"
  {
    var co, tp, bi, wc := d.carbonOffset, d.treesPlanted, d.biodiversityImpact, d.waterConservation;
    ghost var ml := MetricLines(d);

    csv := "Category,Metric,Value,Unit,Change\n";
    ghost var lines: seq<string> := [CsvHeader];
    HeaderText();
    var row: string;

    row := "Carbon Offset,Total," + co.total + "," + co.unit + "," + co.change + "%\n";
    CarbonTotalRow(co);
    AppendLine(csv, lines, ml[0], row);
    csv, lines := csv + row, lines + [ml[0]];
    row := "Carbon Offset,Progress to Goal," + co.total + "/" + co.goal + "," + co.unit + ",\n";
    CarbonProgressRow(co);
    AppendLine(csv, lines, ml[1], row);
    csv, lines := csv + row, lines + [ml[1]];

    row := "Trees Planted,Total," + tp.total + "," + tp.unit + "," + tp.change + "%\n";
    TreesTotalRow(tp);
    AppendLine(csv, lines, ml[2], row);
    csv, lines := csv + row, lines + [ml[2]];
    row := "Trees Planted,Survival Rate," + tp.survivalRate + "," + "%" + ",\n";
    SurvivalRow(tp);
    AppendLine(csv, lines, ml[3], row);
    csv, lines := csv + row, lines + [ml[3]];

    row := "Biodiversity,Index Improvement," + bi.indexImprovement + "," + bi.unit + "," + bi.change + "%\n";
    IndexRow(bi);
    AppendLine(csv, lines, ml[4], row);
    csv, lines := csv + row, lines + [ml[4]];
    row := "Biodiversity,Species Recovery," + bi.speciesRecovery.current + "/" + bi.speciesRecovery.target + ",,\n";
    SpeciesRow(bi.speciesRecovery);
    AppendLine(csv, lines, ml[5], row);
    csv, lines := csv + row, lines + [ml[5]];

    row := "Water Conservation,Water Saved," + wc.saved + "," + wc.unit + "," + wc.change + "%\n";
    WaterSavedRow(wc);
    AppendLine(csv, lines, ml[6], row);
    csv, lines := csv + row, lines + [ml[6]];
    row := "Water Conservation,Efficiency," + wc.efficiency + "," + "% of goal" + ",\n";
    EfficiencyRow(wc);
    AppendLine(csv, lines, ml[7], row);
    csv, lines := csv + row, lines + [ml[7]];

    Snoc8(CsvHeader, ml);
    ActivitiesSectionText();
    UnlinesAppend(lines, ["", ActivitiesTitle, ActivitiesHeader]);
    csv := csv + "\nActivities\nDate,Activity,Impact,Status\n";

    var acts := d.activities;
    ghost var rows := ActivityRows(acts);
    assert Preamble(d) + rows[..0] == Preamble(d) by { AppendEmpty(Preamble(d), rows[..0]); }
    for i := 0 to |acts|
      invariant csv == Unlines(Preamble(d) + rows[..i])
    {
      var a := acts[i];
      row := a.date + "," + a.name + "," + a.impact + "," + a.status + "\n";
      Join4(a.date, a.name, a.impact, a.status, ',');
      TakeSnoc(rows, i);
      AppendAssoc(Preamble(d), rows[..i], [rows[i]]);
      AppendLine(csv, Preamble(d) + rows[..i], rows[i], row);
      csv := csv + row;
    }
    TakeAll(rows);
    downloadName := fileName + ".csv";
  }

  // ---------------------------------------------------------------------
  // Properties of the CSV layout

  /** Line positions of the export: the header first, the eight metric rows,
      the activities section, then one row per activity in order. */
  lemma CsvShape(d: ReportData)
    ensures |CsvLines(d)| == 12 + |d.activities|
    ensures CsvLines(d)[0] == CsvHeader
    ensures forall k :: 0 <= k < 8 ==> CsvLines(d)[1 + k] == Join(MetricFields(d)[k], ',')
    ensures CsvLines(d)[9] == "" && CsvLines(d)[10] == ActivitiesTitle && CsvLines(d)[11] == ActivitiesHeader
    ensures forall i :: 0 <= i < |d.activities| ==> CsvLines(d)[12 + i] == ActivityRow(d.activities[i])
  {
    var ml := MetricLines(d);
    assert forall k :: 0 <= k < 8 ==> Preamble(d)[1 + k] == ml[k];
  }

  /** Each metric row names its category and metric, and carries the change
      with a percent sign exactly on the rows that have one. */
  lemma MetricRowLabels(d: ReportData, k: nat)
    requires k < 8
    ensures |MetricFields(d)[k]| == 5
    ensures MetricFields(d)[k][0] == Categories[k] && MetricFields(d)[k][1] == Metrics[k]
    ensures MetricFields(d)[k][4] == if k % 2 == 0 then Changes(d)[k] + "%" else ""
  {
  }

  /** No field the export writes holds `c`. */
  predicate FieldsAvoid(d: ReportData, c: char)
  {
    (forall k :: 0 <= k < 8 ==> NoneContains(MetricFields(d)[k], c))
    && forall i :: 0 <= i < |d.activities| ==> NoneContains(ActivityFields(d.activities[i]), c)
  }

  /** When no field holds a line break, splitting the export on line breaks
      gives back its lines (and the empty piece after the final break). */
  lemma {:induction false} CsvSplitsIntoLines(d: ReportData)
    requires FieldsAvoid(d, '\n')
    ensures Split(Unlines(CsvLines(d)), '\n') == CsvLines(d) + [[]]
  {
    var lines := CsvLines(d);
    CsvShape(d);
    assert '\n' !in CsvHeader && '\n' !in ActivitiesTitle && '\n' !in ActivitiesHeader by {}
    forall j | 0 <= j < |lines|
      ensures '\n' !in lines[j]
    {
      if 1 <= j < 9 {
        JoinAvoids(MetricFields(d)[j - 1], ',', '\n');
      } else if j >= 12 {
        JoinAvoids(ActivityFields(d.activities[j - 12]), ',', '\n');
      }
    }
    SplitUnlines(lines);
  }

  /** When no field holds a comma, every metric row splits back into its
      five fields and every activity row into its four. */
  lemma {:induction false} CsvRowsSplitIntoFields(d: ReportData)
    requires FieldsAvoid(d, ',')
    ensures forall k :: 0 <= k < 8 ==> Split(CsvLines(d)[1 + k], ',') == MetricFields(d)[k]
    ensures forall i :: 0 <= i < |d.activities| ==> Split(CsvLines(d)[12 + i], ',') == ActivityFields(d.activities[i])
  {
    CsvShape(d);
    forall k | 0 <= k < 8
      ensures Split(CsvLines(d)[1 + k], ',') == MetricFields(d)[k]
    {
      SplitJoin(MetricFields(d)[k], ',');
    }
    forall i | 0 <= i < |d.activities|
      ensures Split(CsvLines(d)[12 + i], ',') == ActivityFields(d.activities[i])
    {
      SplitJoin(ActivityFields(d.activities[i]), ',');
    }
  }

  /** Fields are written unquoted: an activity row splits into its four
      fields plus one more piece for every comma inside them, so into exactly
      four pieces iff no field holds a comma. */
  lemma ActivityRowPieces(a: Activity)
    ensures |Split(ActivityRow(a), ',')| == 4 + CountAll(ActivityFields(a), ',')
    ensures |Split(ActivityRow(a), ',')| == 4 <==> NoneContains(ActivityFields(a), ',')
  {
    SplitCount(ActivityRow(a), ',');
    CountJoin(ActivityFields(a), ',');
    CountAllZero(ActivityFields(a), ',');
  }

  /** Fields are written unquoted, so the fourth sample activity, whose impact
      reads "Water saved: 15,000 liters", comes back as five fields under the
      four-column activity header. */
  lemma SampleRowHasFiveFields()
    ensures Split(ActivityRow(SampleActivities[3]), ',')
         == ["2023-07-10", "Water Conservation", "Water saved: 15", "000 liters", "Planned"]
  {
    var p1, p2, p3, p4, p5 := "2023-07-10", "Water Conservation", "Water saved: 15", "000 liters", "Planned";
    var impact := "Water saved: 15,000 liters";
    Display4(p1, p2, impact, p5);
    JoinCons(p1, [p2] + ([impact] + [p5]), ',');
    JoinCons(p2, [impact] + [p5], ',');
    JoinCons(impact, [p5], ',');
    assert Join([p5], ',') == p5;
    assert impact == p3 + "," + p4 by {}
    AppendAssoc(p3 + ",", p4, ",");
    AppendAssoc(p3 + ",", p4 + ",", p5);
    assert ',' !in p1 && ',' !in p2 && ',' !in p3 && ',' !in p4 && ',' !in p5 by {}
    SplitFirst(p4, p5, ',');
    SplitFirst(p3, p4 + "," + p5, ',');
    SplitFirst(p2, Join([impact] + [p5], ','), ',');
    SplitFirst(p1, Join([p2] + ([impact] + [p5]), ','), ',');
    assert Split(p5, ',') == [p5];
    Display5(p1, p2, p3, p4, p5);
  }

  // ---------------------------------------------------------------------
  // File naming and the format switch (`handleExport`)

  const ReportPrefix: string := "sustainability-report-"

  /** `toLocaleDateString().replace(/\//g, '-')`: every slash becomes a dash,
      every other character stays where it was. */
  function SlashesToDashes(s: string): (r: string)
    ensures |r| == |s|
    ensures forall i :: 0 <= i < |s| ==> r[i] == if s[i] == '/' then '-' else s[i]
  {
    if s == [] then []
    else [if s[0] == '/' then '-' else s[0]] + SlashesToDashes(s[1..])
  }

  lemma SlashesGone(s: string)
    ensures '/' !in SlashesToDashes(s)
    ensures SlashesToDashes(SlashesToDashes(s)) == SlashesToDashes(s)
    ensures '/' !in s ==> SlashesToDashes(s) == s
  {
    var r := SlashesToDashes(s);
    assert forall i :: 0 <= i < |r| ==> r[i] != '/';
  }

  /** The file name without extension: prefix, timeframe, a dash and the
      date with its slashes replaced. */
  function FileBase(timeframe: string, localeDate: string): (base: string)
    ensures |base| == |ReportPrefix| + |timeframe| + 1 + |localeDate|
    ensures '/' in base <==> '/' in timeframe
  {
    SlashesGone(localeDate);
    assert '/' !in ReportPrefix;
    var base := ReportPrefix + timeframe + "-" + SlashesToDashes(localeDate);
    assert '/' in timeframe ==> '/' in base by {
      if '/' in timeframe {
        var i :| 0 <= i < |timeframe| && timeframe[i] == '/';
        assert base[|ReportPrefix| + i] == '/';
      }
    }
    base
  }

  datatype ExportKind = JsonExport | CsvExport | PdfDemoExport

  /** The `switch` on the chosen format; anything but "csv" and "pdf",
      "json" included, falls to the JSON exporter. */
  function ExportKindOf(format: string): (k: ExportKind)
    ensures k == CsvExport <==> format == "csv"
    ensures k == PdfDemoExport <==> format == "pdf"
    ensures k == JsonExport <==> format != "csv" && format != "pdf"
  {
    if format == "json" then JsonExport
    else if format == "csv" then CsvExport
    else if format == "pdf" then PdfDemoExport
    else JsonExport
  }

  /** The ending each exporter gives the download. */
  function Suffix(k: ExportKind): string
  {
    match k
    case JsonExport => ".json"
    case CsvExport => ".csv"
    case PdfDemoExport => "-demo.txt"
  }

  function ExportFileName(format: string, base: string): (name: string)
    ensures |name| > |base| && name[..|base|] == base
  {
    base + Suffix(ExportKindOf(format))
  }

  /** The three endings have different lengths, so the download's name tells
      which exporter ran. */
  lemma FileNameDeterminesKind(f1: string, f2: string, base: string)
    ensures ExportFileName(f1, base) == ExportFileName(f2, base) <==> ExportKindOf(f1) == ExportKindOf(f2)
  {
    if ExportFileName(f1, base) == ExportFileName(f2, base) {
      assert |Suffix(ExportKindOf(f1))| == |Suffix(ExportKindOf(f2))|;
    }
  }

  /** `dataToExport`: the timeframe, the ISO timestamp and the report. */
  datatype ExportPayload = ExportPayload(timeframe: string, date: string, data: ReportData)

  /** What is written to the file: the JSON and PDF-demo exporters render the
      payload (their text is not modelled), the CSV exporter its text. */
  datatype ExportContent = JsonOf(payload: ExportPayload) | CsvText(text: string) | PdfDemoOf(payload: ExportPayload)

  datatype Download = Download(fileName: string, content: ExportContent)

  /** What one press of Download produces for the given component state. */
  function ExportDownload(format: string, timeframe: string, isoDate: string, localeDate: string,
                          data: ReportData): (dl: Download)
    ensures dl.fileName == ExportFileName(format, FileBase(timeframe, localeDate))
    ensures dl.content.CsvText? <==> format == "csv"
    ensures dl.content.CsvText? ==> dl.content.text == Unlines(CsvLines(data))
    ensures dl.content.PdfDemoOf? <==> format == "pdf"
    ensures !dl.content.CsvText? ==> dl.content.payload == ExportPayload(timeframe, isoDate, data)
  {
    var payload := ExportPayload(timeframe, isoDate, data);
    var name := ExportFileName(format, FileBase(timeframe, localeDate));
    match ExportKindOf(format)
    case JsonExport => Download(name, JsonOf(payload))
    case CsvExport => Download(name, CsvText(Unlines(CsvLines(data))))
    case PdfDemoExport => Download(name, PdfDemoOf(payload))
  }

  /** The file names the switch produces, format by format. */
  lemma ExportNames(timeframe: string, isoDate: string, localeDate: string, data: ReportData, format: string)
    ensures var base := ReportPrefix + timeframe + "-" + SlashesToDashes(localeDate);
      ExportDownload(format, timeframe, isoDate, localeDate, data).fileName
        == if format == "csv" then base + ".csv"
           else if format == "pdf" then base + "-demo.txt"
           else base + ".json"
  {
  }

  // ---------------------------------------------------------------------
  // The change indicator of `ReportStat`

  /** What `ReportStat` shows after the unit. */
  datatype Indicator = NoIndicator | ZeroText | Arrow(up: bool, magnitude: nat)

  function Abs(x: int): nat
  {
    if x < 0 then -x else x
  }

  /** `{change && (<span>…</span>)}` as React renders it: an absent change
      renders nothing, but a change of 0 makes the expression evaluate to the
      number 0, which React renders as the text "0". */
  function RenderedChange(change: Option<int>): (ind: Indicator)
    ensures ind == NoIndicator <==> change == None
    ensures ind == ZeroText <==> change == Some(0)
    ensures ind.Arrow? ==> change.Some? && (ind.up <==> change.value > 0) && ind.magnitude == Abs(change.value)
  {
    match change
    case None => NoIndicator
    case Some(c) => if c == 0 then ZeroText else Arrow(c > 0, Abs(c))
  }

  /** The indicator the component is meant to show: none for an absent or
      zero change, otherwise the arrow and the magnitude. */
  function ChangeIndicator(change: Option<int>): (ind: Indicator)
    ensures ind == NoIndicator <==> change == None || change == Some(0)
    ensures !ind.ZeroText?
    ensures ind.Arrow? ==> change.Some? && (ind.up <==> change.value > 0) && ind.magnitude == Abs(change.value)
  {
    match change
    case None => NoIndicator
    case Some(c) => if c == 0 then NoIndicator else Arrow(c > 0, Abs(c))
  }

  /** A change of 0 shows a stray "0" where no indicator is meant; every
      other change renders as intended. */
  lemma ZeroChangeRendersDigit(change: Option<int>)
    ensures RenderedChange(Some(0)) == ZeroText && IndicatorText(ZeroText) == "0"
    ensures ChangeIndicator(Some(0)) == NoIndicator
    ensures change != Some(0) ==> RenderedChange(change) == ChangeIndicator(change)
  {
  }

  /** Opposite changes show the same magnitude with opposite arrows. */
  lemma IndicatorAntisymmetric(c: int)
    requires c != 0
    ensures ChangeIndicator(Some(-c)).magnitude == ChangeIndicator(Some(c)).magnitude
    ensures ChangeIndicator(Some(-c)).up == !ChangeIndicator(Some(c)).up
  {
  }

  /** The colour class of the indicator's span: green for a rise, red
      otherwise. */
  function IndicatorClass(change: int): (cls: string)
    ensures cls == "text-green-500" <==> change > 0
    ensures cls == "text-red-500" <==> change <= 0
  {
    if change > 0 then "text-green-500" else "text-red-500"
  }

  /** The colour and the arrow of a shown indicator always agree. */
  lemma ColourMatchesArrow(c: int)
    requires c != 0
    ensures ChangeIndicator(Some(c)).up <==> IndicatorClass(c) == "text-green-500"
    ensures !ChangeIndicator(Some(c)).up <==> IndicatorClass(c) == "text-red-500"
  {
  }

  function Digit(n: nat): (c: char)
    requires n < 10
    ensures '0' <= c <= '9'
  {
    ('0' as int + n) as char
  }

  predicate IsDigits(s: string)
  {
    forall i :: 0 <= i < |s| ==> '0' <= s[i] <= '9'
  }

  /** How a whole number prints: its decimal digits, without leading zeros. */
  function NatText(n: nat): (s: string)
    ensures |s| >= 1 && IsDigits(s)
    ensures |s| > 1 ==> s[0] != '0'
  {
    if n < 10 then [Digit(n)] else NatText(n / 10) + [Digit(n % 10)]
  }

  /** The value of a string of decimal digits. */
  function DigitsValue(s: string): nat
    requires IsDigits(s)
  {
    if s == [] then 0 else DigitsValue(s[..|s| - 1]) * 10 + (s[|s| - 1] as int - '0' as int)
  }

  lemma {:induction false} NatTextValue(n: nat)
    ensures DigitsValue(NatText(n)) == n
  {
    if n >= 10 {
      var s := NatText(n);
      assert s[..|s| - 1] == NatText(n / 10);
      NatTextValue(n / 10);
    }
  }

  /** The indicator's text: the arrow, a space, the magnitude and a percent
      sign. */
  function IndicatorText(ind: Indicator): string
  {
    match ind
    case NoIndicator => ""
    case ZeroText => "0"
    case Arrow(up, m) => (if up then "↑" else "↓") + " " + NatText(m) + "%"
  }

  /** The number shown can be read back from the text: it is the absolute
      value of the change. */
  lemma IndicatorTextReadsBack(c: int)
    requires c != 0
    ensures var t := IndicatorText(ChangeIndicator(Some(c)));
      |t| >= 4 && t[0] == (if c > 0 then '↑' else '↓') && t[1] == ' ' && t[|t| - 1] == '%'
      && IsDigits(t[2..|t| - 1]) && DigitsValue(t[2..|t| - 1]) == Abs(c)
  {
    var m := Abs(c);
    var t := IndicatorText(ChangeIndicator(Some(c)));
    assert t[2..|t| - 1] == NatText(m);
    NatTextValue(m);
  }

  // ---------------------------------------------------------------------
  // The `ReportFilter` component's state

  class ReportFilter {
    var timeframe: string
    var exportFormat: string
    var showExportOptions: bool

    constructor ()
      ensures timeframe == "monthly" && exportFormat == "json" && !showExportOptions
    {
      timeframe := "monthly";
      exportFormat := "json";
      showExportOptions := false;
    }

    /** `handleChange`: stores the chosen timeframe and returns the value
        handed on to `onFilter`. */
    method HandleChange(value: string) returns (filtered: string)
      modifies this`timeframe
      ensures timeframe == value && filtered == value
    {
      timeframe := value;
      filtered := value;
    }

    /** A radio button's `onChange`. */
    method SelectFormat(format: string)
      modifies this`exportFormat
      ensures exportFormat == format
    {
      exportFormat := format;
    }

    /** The Export Report button. */
    method ToggleExportOptions()
      modifies this`showExportOptions
      ensures showExportOptions == !old(showExportOptions)
    {
      showExportOptions := !showExportOptions;
    }

    /** The document's `mousedown` listener: a press outside the dropdown
        closes it. */
    method OnMouseDown(insideDropdown: bool)
      modifies this`showExportOptions
      ensures showExportOptions == (old(showExportOptions) && insideDropdown)
    {
      if !insideDropdown {
        showExportOptions := false;
      }
    }

    /** `handleExport`: builds the file name, runs the exporter the format
        selects, and closes the dropdown.  The ISO timestamp and the locale
        date come in as parameters. */
    method HandleExport(data: ReportData, isoDate: string, localeDate: string) returns (download: Download)
      modifies this`showExportOptions
      ensures download == ExportDownload(exportFormat, timeframe, isoDate, localeDate, data)
      ensures !showExportOptions
    {
      var payload := ExportPayload(timeframe, isoDate, data);
      var currentDate := SlashesToDashes(localeDate);
      var fileName := ReportPrefix + timeframe + "-" + currentDate;
      if exportFormat == "json" {
        download := Download(fileName + ".json", JsonOf(payload));
      } else if exportFormat == "csv" {
        var text, name := ExportAsCsv(data, fileName);
        download := Download(name, CsvText(text));
      } else if exportFormat == "pdf" {
        download := Download(fileName + "-demo.txt", PdfDemoOf(payload));
      } else {
        download := Download(fileName + ".json", JsonOf(payload));
      }
      showExportOptions := false;
    }
  }
}
