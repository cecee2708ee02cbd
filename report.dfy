/**
 * The individual student report: one row per distinct assessment tool of the
 * course (improvement tests excluded), scored from the student's marks
 * records, with the improvement score shown beside it for reference.
 */
module IndividualReport {
  import opened Js
  import opened Distribution
  import opened Configuration
  import opened MarksEntry

  /** One row of the assessment table; the percentage is not modelled. */
  datatype ReportRow = ReportRow(
    name: string,
    toolType: string,
    obtained: int,
    original: int,
    improvement: Option<int>,
    max: int)

  // ---------------------------------------------------------------------------
  // Distinct tools

  function Names(tools: seq<Tool>): set<string> {
    set i | 0 <= i < |tools| :: tools[i].name
  }

  /**
   * The tools left after skipping every tool whose name is in `seen` or was
   * borne by an earlier tool, in their order.
   */
  function FirstOfEachNameFrom(tools: seq<Tool>, seen: set<string>): seq<Tool>
    decreases |tools|
  {
    if |tools| == 0 then []
    else if tools[0].name in seen then FirstOfEachNameFrom(tools[1..], seen)
    else [tools[0]] + FirstOfEachNameFrom(tools[1..], seen + {tools[0].name})
  }

  /** The first tool of each name. */
  function FirstOfEachName(tools: seq<Tool>): seq<Tool> {
    FirstOfEachNameFrom(tools, {})
  }

  lemma NamesCons(tools: seq<Tool>)
    requires |tools| > 0
    ensures Names(tools) == {tools[0].name} + Names(tools[1..])
  {
    forall x | x in Names(tools)
      ensures x in {tools[0].name} + Names(tools[1..])
    {
      var k :| 0 <= k < |tools| && tools[k].name == x;
      if k > 0 {
        assert tools[1..][k - 1] == tools[k];
      }
    }
    forall x | x in Names(tools[1..])
      ensures x in Names(tools)
    {
      var k :| 0 <= k < |tools[1..]| && tools[1..][k].name == x;
      assert tools[k + 1] == tools[1..][k];
    }
  }

  /** The kept tools bear the names not yet seen, each once, in their order. */
  lemma {:induction false} FirstOfEachNameFromProperties(tools: seq<Tool>, seen: set<string>)
    ensures var r := FirstOfEachNameFrom(tools, seen);
            Names(r) == Names(tools) - seen &&
            (forall i, j :: 0 <= i < j < |r| ==> r[i].name != r[j].name) &&
            Subsequence(r, tools)
    decreases |tools|
  {
    var r := FirstOfEachNameFrom(tools, seen);
    if |tools| > 0 {
      NamesCons(tools);
      var x := tools[0];
      if x.name in seen {
        FirstOfEachNameFromProperties(tools[1..], seen);
        if |r| > 0 {
          assert r[0].name in Names(r);
        }
      } else {
        var rest := FirstOfEachNameFrom(tools[1..], seen + {x.name});
        FirstOfEachNameFromProperties(tools[1..], seen + {x.name});
        assert r == [x] + rest;
        assert r[1..] == rest;
        NamesCons(r);
        forall i, j | 0 <= i < j < |r|
          ensures r[i].name != r[j].name
        {
          if i == 0 {
            assert r[j] == rest[j - 1];
            assert rest[j - 1].name in Names(rest);
          } else {
            assert r[i] == rest[i - 1] && r[j] == rest[j - 1];
          }
        }
      }
    }
  }

  /** Each kept tool is the first tool of its name. */
  lemma {:induction false} FirstOfEachNameFromKeepsFirst(tools: seq<Tool>, seen: set<string>)
    ensures var r := FirstOfEachNameFrom(tools, seen);
            forall k :: 0 <= k < |r| ==>
              IndexOfName(tools, r[k].name).Some? && tools[IndexOfName(tools, r[k].name).value] == r[k]
    decreases |tools|
  {
    var r := FirstOfEachNameFrom(tools, seen);
    if |tools| > 0 {
      var x := tools[0];
      var seenNext := if x.name in seen then seen else seen + {x.name};
      var rest := FirstOfEachNameFrom(tools[1..], seenNext);
      FirstOfEachNameFromKeepsFirst(tools[1..], seenNext);
      FirstOfEachNameFromProperties(tools[1..], seenNext);
      forall k | 0 <= k < |r|
        ensures IndexOfName(tools, r[k].name).Some? && tools[IndexOfName(tools, r[k].name).value] == r[k]
      {
        if x.name !in seen && k == 0 {
          assert r[0] == x;
        } else {
          var m := if x.name in seen then k else k - 1;
          assert r[k] == rest[m];
          assert rest[m].name in Names(rest);
          assert r[k].name != x.name;
          var j := IndexOfName(tools[1..], r[k].name).value;
          assert IndexOfName(tools, r[k].name) == Some(j + 1);
        }
      }
    }
  }

  /** The deduplicated list has the configuration's names, each once, and keeps its order. */
  lemma FirstOfEachNameProperties(tools: seq<Tool>)
    ensures Names(FirstOfEachName(tools)) == Names(tools)
    ensures forall i, j :: 0 <= i < j < |FirstOfEachName(tools)| ==>
              FirstOfEachName(tools)[i].name != FirstOfEachName(tools)[j].name
    ensures Subsequence(FirstOfEachName(tools), tools)
    ensures forall k :: 0 <= k < |FirstOfEachName(tools)| ==>
              var t := FirstOfEachName(tools)[k];
              IndexOfName(tools, t.name).Some? && tools[IndexOfName(tools, t.name).value] == t
  {
    FirstOfEachNameFromProperties(tools, {});
    FirstOfEachNameFromKeepsFirst(tools, {});
  }

  /** The report's deduplication: a tool is kept unless a tool of the same name came before it. */
  method UniqueTools(tools: seq<Tool>) returns (unique: seq<Tool>)
    ensures unique == FirstOfEachName(tools)
  {
    var seen: set<string> := {};
    unique := [];
    var i := 0;
    while i < |tools|
      invariant 0 <= i <= |tools|
      invariant unique + FirstOfEachNameFrom(tools[i..], seen) == FirstOfEachName(tools)
    {
      var tool := tools[i];
      assert tools[i..][1..] == tools[i + 1..];
      if tool.name !in seen {
        seen := seen + {tool.name};
        unique := unique + [tool];
      }
      i := i + 1;
    }
  }

  // ---------------------------------------------------------------------------
  // Scores

  /** The score keys the report reads, chosen by the tool's type alone. */
  function ValidKeys(t: Tool): seq<string> {
    if t.toolType == SemesterEndExam then ["External"]
    else if t.toolType == Activity then ["Score"]
    else Keys(t.coDistribution)
  }

  /** `parseInt(cell)`, NaN counted as 0. */
  function ScoreValue(c: Option<Cell>): int {
    match c
    case None => 0
    case Some(Num(n)) => ParseInt(IntToString(n)).GetOr(0)
    case Some(Text(t)) => ParseInt(t).GetOr(0)
  }

  function SumKeys(keys: seq<string>, row: Row): int
    decreases |keys|
  {
    if |keys| == 0 then 0 else SumKeys(keys[..|keys| - 1], row) + ScoreValue(CellAt(row, keys[|keys| - 1]))
  }

  /** `getPreciseScore`: no record, or one without scores, scores 0. */
  function PreciseScore(record: Option<MarkRecord>, t: Tool): int {
    match record
    case None => 0
    case Some(r) =>
      match r.scores
      case None => 0
      case Some(row) => SumKeys(ValidKeys(t), row)
  }

  /** Only the keys the tool's type selects count: a score under any other key is ignored. */
  lemma {:induction false} SumKeysIgnoresOtherKeys(keys: seq<string>, row: Row, k: string, c: Cell)
    requires k !in keys
    ensures SumKeys(keys, row[k := c]) == SumKeys(keys, row)
    decreases |keys|
  {
    if |keys| > 0 {
      SumKeysIgnoresOtherKeys(keys[..|keys| - 1], row, k, c);
      assert keys[|keys| - 1] in keys;
    }
  }

  lemma PreciseScoreIgnoresOtherKeys(r: MarkRecord, t: Tool, row: Row, k: string, c: Cell)
    requires r.scores == Some(row) && k !in ValidKeys(t)
    ensures PreciseScore(Some(r.(scores := Some(row[k := c]))), t) == PreciseScore(Some(r), t)
  {
    SumKeysIgnoresOtherKeys(ValidKeys(t), row, k, c);
  }

  /** The first record of the named assessment. */
  function RecordFor(marks: seq<MarkRecord>, name: string): (r: Option<MarkRecord>)
    ensures r.Some? ==> r.value in marks && r.value.assessment == name
    ensures r.None? ==> forall i :: 0 <= i < |marks| ==> marks[i].assessment != name
    ensures forall i :: 0 <= i < |marks| && marks[i].assessment == name
              && (forall j :: 0 <= j < i ==> marks[j].assessment != name)
              ==> r == Some(marks[i])
    decreases |marks|
  {
    if |marks| == 0 then None
    else if marks[0].assessment == name then Some(marks[0])
    else RecordFor(marks[1..], name)
  }

  /** An improvement record for a target: its assessment starts with "Improvement" and it names the target. */
  predicate ImprovesOn(m: MarkRecord, target: string) {
    (m.assessment == ImprovementTest || StartsWith(m.assessment, "Improvement")) && m.improvementTarget == Some(target)
  }

  function ImprovementRecordFor(marks: seq<MarkRecord>, target: string): (r: Option<MarkRecord>)
    ensures r.Some? ==> r.value in marks && ImprovesOn(r.value, target)
    ensures r.None? ==> forall i :: 0 <= i < |marks| ==> !ImprovesOn(marks[i], target)
    ensures forall i :: 0 <= i < |marks| && ImprovesOn(marks[i], target)
              && (forall j :: 0 <= j < i ==> !ImprovesOn(marks[j], target))
              ==> r == Some(marks[i])
    decreases |marks|
  {
    if |marks| == 0 then None
    else if ImprovesOn(marks[0], target) then Some(marks[0])
    else ImprovementRecordFor(marks[1..], target)
  }

  /**
   * `findImprovementScore`: none without an improvement record; 0 when no tool bears the target name;
   * otherwise the first improvement record's score, read with the first tool of the target name.
   */
  function ImprovementScore(marks: seq<MarkRecord>, unique: seq<Tool>, target: string): (r: Option<int>)
    ensures r.None? <==> forall i :: 0 <= i < |marks| ==> !ImprovesOn(marks[i], target)
    ensures r.Some? && (forall i :: 0 <= i < |unique| ==> unique[i].name != target) ==> r == Some(0)
    ensures r.Some? && IndexOfName(unique, target).Some? ==>
              r == Some(PreciseScore(ImprovementRecordFor(marks, target), unique[IndexOfName(unique, target).value]))
  {
    match ImprovementRecordFor(marks, target)
    case None => None
    case Some(r) =>
      match IndexOfName(unique, target)
      case None => Some(0)
      case Some(i) => Some(PreciseScore(Some(r), unique[i]))
  }

  /**
   * Records written by the marks-entry screen carry no improvement target, so
   * the report finds no improvement score among them.
   */
  lemma GridRecordsShowNoImprovement(marks: seq<MarkRecord>, unique: seq<Tool>, target: string)
    requires forall i :: 0 <= i < |marks| ==> marks[i].improvementTarget.None?
    ensures ImprovementScore(marks, unique, target).None?
  {
    if ImprovementRecordFor(marks, target).Some? {
      assert false;
    }
  }

  /** Every record a save posts has no improvement target. */
  lemma PostedRecordsHaveNoTarget(courseId: string, assessment: string, meta: map<string, MarkRecord>,
                                  sid: string, row: Row)
    ensures WriteFor(courseId, assessment, meta, sid, row).Post? ==>
              WriteFor(courseId, assessment, meta, sid, row).record.improvementTarget.None?
  {
  }

  // ---------------------------------------------------------------------------
  // The report

  function RowFor(t: Tool, marks: seq<MarkRecord>, unique: seq<Tool>): (r: ReportRow)
    ensures r.name == t.name && r.toolType == t.toolType && r.max == t.maxMarks
    ensures r.obtained == r.original
    ensures r.original == PreciseScore(RecordFor(marks, t.name), t)
    ensures r.improvement == ImprovementScore(marks, unique, t.name)
  {
    var original := PreciseScore(RecordFor(marks, t.name), t);
    ReportRow(t.name, t.toolType, original, original, ImprovementScore(marks, unique, t.name), t.maxMarks)
  }

  function StandardTools(unique: seq<Tool>): (r: seq<Tool>)
    ensures forall i :: 0 <= i < |r| ==> r[i] in unique && r[i].toolType != ImprovementTest
    ensures forall i :: 0 <= i < |unique| && unique[i].toolType != ImprovementTest ==> unique[i] in r
    ensures forall t :: t in unique ==> multiset(r)[t] == if t.toolType != ImprovementTest then multiset(unique)[t] else 0
    ensures Subsequence(r, unique)
  {
    Filter(unique, (t: Tool) => t.toolType != ImprovementTest)
  }

  function ReportRows(standard: seq<Tool>, marks: seq<MarkRecord>, unique: seq<Tool>): (rows: seq<ReportRow>)
    ensures |rows| == |standard|
    ensures forall i :: 0 <= i < |standard| ==> rows[i] == RowFor(standard[i], marks, unique)
    decreases |standard|
  {
    if |standard| == 0 then []
    else ReportRows(standard[..|standard| - 1], marks, unique) + [RowFor(standard[|standard| - 1], marks, unique)]
  }

  function SumObtained(rows: seq<ReportRow>): int
    decreases |rows|
  {
    if |rows| == 0 then 0 else SumObtained(rows[..|rows| - 1]) + rows[|rows| - 1].obtained
  }

  function SumRowMax(rows: seq<ReportRow>): int
    decreases |rows|
  {
    if |rows| == 0 then 0 else SumRowMax(rows[..|rows| - 1]) + rows[|rows| - 1].max
  }

  /** The loop of `reportData`: one row per tool and running totals of the obtained and maximum marks. */
  method ScoreTools(standard: seq<Tool>, marks: seq<MarkRecord>, unique: seq<Tool>)
    returns (rows: seq<ReportRow>, totalObtained: int, totalMax: int)
    ensures rows == ReportRows(standard, marks, unique)
    ensures totalObtained == SumObtained(rows) && totalMax == SumRowMax(rows)
  {
    rows := [];
    totalObtained, totalMax := 0, 0;
    var i := 0;
    while i < |standard|
      invariant 0 <= i <= |standard|
      invariant rows == ReportRows(standard[..i], marks, unique)
      invariant totalObtained == SumObtained(rows) && totalMax == SumRowMax(rows)
    {
      var tool := standard[i];
      var record := RecordFor(marks, tool.name);
      var originalScore := PreciseScore(record, tool);
      var improvementScore := ImprovementScore(marks, unique, tool.name);
      var finalScore := originalScore;
      var row := ReportRow(tool.name, tool.toolType, finalScore, originalScore, improvementScore, tool.maxMarks);
      assert row == RowFor(tool, marks, unique);
      assert standard[..i + 1][..i] == standard[..i];
      assert (rows + [row])[..|rows|] == rows;
      rows := rows + [row];
      totalObtained := totalObtained + finalScore;
      totalMax := totalMax + tool.maxMarks;
      i := i + 1;
    }
    assert standard[..i] == standard;
  }

  /**
   * `reportData`: the rows of the distinct non-improvement tools, each scored
   * from its first record alone, and the totals over the rows.
   */
  method BuildReport(tools: seq<Tool>, marks: seq<MarkRecord>)
    returns (rows: seq<ReportRow>, totalObtained: int, totalMax: int)
    ensures var unique := FirstOfEachName(tools);
            rows == ReportRows(StandardTools(unique), marks, unique)
    ensures totalObtained == SumObtained(rows) && totalMax == SumRowMax(rows)
    ensures forall i :: 0 <= i < |rows| ==> rows[i].toolType != ImprovementTest && rows[i].obtained == rows[i].original
    ensures forall i, j :: 0 <= i < j < |rows| ==> rows[i].name != rows[j].name
  {
    var unique := UniqueTools(tools);
    var standard := StandardTools(unique);
    rows, totalObtained, totalMax := ScoreTools(standard, marks, unique);
    StandardNamesDistinct(tools);
  }

  /** The report table and its totals. */
  datatype Report = Report(rows: seq<ReportRow>, totalObtained: int, totalMax: int)

  /**
   * The report is computed only once both the course (its tools, an absent
   * list counting as empty) and the student's marks are loaded.
   */
  method ReportData(courseTools: Option<seq<Tool>>, marks: Option<seq<MarkRecord>>) returns (r: Option<Report>)
    ensures r.None? <==> courseTools.None? || marks.None?
    ensures r.Some? ==>
              var unique := FirstOfEachName(courseTools.value);
              var rows := ReportRows(StandardTools(unique), marks.value, unique);
              r.value == Report(rows, SumObtained(rows), SumRowMax(rows))
  {
    if courseTools.None? || marks.None? {
      return None;
    }
    var rows, totalObtained, totalMax := BuildReport(courseTools.value, marks.value);
    r := Some(Report(rows, totalObtained, totalMax));
  }

  /** The sum of each tool's score from its own first record. */
  function SumOriginal(standard: seq<Tool>, marks: seq<MarkRecord>): int
    decreases |standard|
  {
    if |standard| == 0 then 0
    else
      var t := standard[|standard| - 1];
      SumOriginal(standard[..|standard| - 1], marks) + PreciseScore(RecordFor(marks, t.name), t)
  }

  /**
   * The improvement score is shown beside a row but never counted: the total
   * obtained is the sum of the original scores, whatever the improvement
   * records hold.
   */
  lemma {:induction false} ImprovementNeverCounts(standard: seq<Tool>, marks: seq<MarkRecord>, unique: seq<Tool>)
    ensures SumObtained(ReportRows(standard, marks, unique)) == SumOriginal(standard, marks)
    decreases |standard|
  {
    if |standard| > 0 {
      var n := |standard| - 1;
      ImprovementNeverCounts(standard[..n], marks, unique);
      var rows := ReportRows(standard, marks, unique);
      assert rows[..n] == ReportRows(standard[..n], marks, unique);
    }
  }

  /** The total maximum is the sum of the tools' maximum marks. */
  lemma {:induction false} TotalMaxIsToolMaxima(standard: seq<Tool>, marks: seq<MarkRecord>, unique: seq<Tool>)
    ensures SumRowMax(ReportRows(standard, marks, unique)) == SumMaxMarks(standard)
    decreases |standard|
  {
    if |standard| > 0 {
      var n := |standard| - 1;
      TotalMaxIsToolMaxima(standard[..n], marks, unique);
      var rows := ReportRows(standard, marks, unique);
      assert rows[..n] == ReportRows(standard[..n], marks, unique);
    }
  }

  function SumMaxMarks(standard: seq<Tool>): int
    decreases |standard|
  {
    if |standard| == 0 then 0 else SumMaxMarks(standard[..|standard| - 1]) + standard[|standard| - 1].maxMarks
  }

  /** The report's tools bear distinct names. */
  lemma StandardNamesDistinct(tools: seq<Tool>)
    ensures var standard := StandardTools(FirstOfEachName(tools));
            forall i, j :: 0 <= i < j < |standard| ==> standard[i].name != standard[j].name
  {
    var unique := FirstOfEachName(tools);
    FirstOfEachNameProperties(tools);
    SubsequenceDistinctNames(StandardTools(unique), unique);
  }

  /** A subsequence of a list with distinct names has distinct names. */
  lemma {:induction false} SubsequenceDistinctNames(a: seq<Tool>, b: seq<Tool>)
    requires Subsequence(a, b)
    requires forall i, j :: 0 <= i < j < |b| ==> b[i].name != b[j].name
    ensures forall i, j :: 0 <= i < j < |a| ==> a[i].name != a[j].name
    decreases |b|
  {
    if |a| > 0 {
      assert forall i, j :: 0 <= i < j < |b[1..]| ==> b[1..][i].name != b[1..][j].name by {
        forall i, j | 0 <= i < j < |b[1..]|
          ensures b[1..][i].name != b[1..][j].name
        {
          assert b[1..][i] == b[i + 1] && b[1..][j] == b[j + 1];
        }
      }
      if a[0] == b[0] {
        SubsequenceDistinctNames(a[1..], b[1..]);
        SubsequenceMembers(a[1..], b[1..]);
        forall j | 0 < j < |a|
          ensures a[0].name != a[j].name
        {
          assert a[j] == a[1..][j - 1];
          var k :| 0 <= k < |b[1..]| && b[1..][k] == a[j];
          assert b[k + 1] == a[j];
        }
        forall i, j | 0 < i < j < |a|
          ensures a[i].name != a[j].name
        {
          assert a[i] == a[1..][i - 1] && a[j] == a[1..][j - 1];
        }
      } else {
        SubsequenceDistinctNames(a, b[1..]);
      }
    }
  }

  lemma {:induction false} SubsequenceMembers(a: seq<Tool>, b: seq<Tool>)
    requires Subsequence(a, b)
    ensures forall i :: 0 <= i < |a| ==> exists k :: 0 <= k < |b| && b[k] == a[i]
    decreases |b|
  {
    if |a| > 0 {
      if a[0] == b[0] {
        SubsequenceMembers(a[1..], b[1..]);
        forall i | 0 <= i < |a|
          ensures exists k :: 0 <= k < |b| && b[k] == a[i]
        {
          if i == 0 {
            assert b[0] == a[0];
          } else {
            assert a[i] == a[1..][i - 1];
            var k :| 0 <= k < |b[1..]| && b[1..][k] == a[1..][i - 1];
            assert b[k + 1] == a[i];
          }
        }
      } else {
        SubsequenceMembers(a, b[1..]);
        forall i | 0 <= i < |a|
          ensures exists k :: 0 <= k < |b| && b[k] == a[i]
        {
          var k :| 0 <= k < |b[1..]| && b[1..][k] == a[i];
          assert b[k + 1] == a[i];
        }
      }
    }
  }

  // ---------------------------------------------------------------------------
  // Agreement with the marks-entry grid

  /** The report reads a cell exactly as the comparison dialog does. */
  lemma ScoreValueIsParsedOrZero(c: Option<Cell>)
    ensures ScoreValue(c) == ParsedOrZero(c)
  {
    if c.Some? && c.value.Num? && c.value.n == 0 {
      ParseIntOfIntToString(0);
    } else if c.Some? && c.value.Text? && c.value.t == "" {
      ParseIntEmpty();
    }
  }

  lemma {:induction false} SumKeysMatchesComparison(keys: seq<string>, qs: seq<Question>, row: Row)
    requires |keys| == |qs|
    requires forall i :: 0 <= i < |keys| ==> keys[i] == qs[i].q
    ensures SumKeys(keys, row) == ComparisonTotal(qs, row)
    decreases |keys|
  {
    if |keys| > 0 {
      var n := |keys| - 1;
      SumKeysMatchesComparison(keys[..n], qs[..n], row);
      ScoreValueIsParsedOrZero(CellAt(row, keys[n]));
    }
  }

  /**
   * The grid picks a tool's columns by its type or its name, the report by its
   * type alone; they agree when the name does not suggest a different kind.
   */
  predicate NamedAsTyped(t: Tool) {
    (SeeLike(t) ==> t.toolType == SemesterEndExam) &&
    (ActivityLike(t) && !SeeLike(t) ==> t.toolType == Activity)
  }

  /**
   * For a tool whose name agrees with its type, the report scores a record as
   * the comparison dialog totals it and, on a row of numbers, as the grid
   * totals it.
   */
  lemma ReportAgreesWithGrid(t: Tool, r: MarkRecord, row: Row)
    requires NamedAsTyped(t)
    requires r.scores == Some(row)
    ensures PreciseScore(Some(r), t) == ComparisonTotal(SchemaForTool(t).questions, row)
    ensures NumericRow(row) ==> PreciseScore(Some(r), t) == RowTotal(SchemaForTool(t).questions, row)
  {
    var qs := SchemaForTool(t).questions;
    SumKeysMatchesComparison(ValidKeys(t), qs, row);
    if NumericRow(row) {
      TotalsAgreeOnNumbers(qs, row);
    }
  }

  /**
   * An Internal Assessment named "Activity Quiz" gets a single "Score" column in
   * the grid, but the report, going by type, reads its CO keys: a full score
   * entered in the grid is reported as 0.
   */
  lemma ScreensDisagreeOnActivityNamedTool()
    ensures var t := Tool("t", "Activity Quiz", InternalAssessment, "Other", "Activity Quiz", "", 10, 0, [("CO1", 10)]);
            var row := map["Score" := Num(10)];
            var r := MarkRecord("m", "s", "c", t.name, None, Some(row));
            RowTotal(SchemaForTool(t).questions, row) == 10 && PreciseScore(Some(r), t) == 0
  {
    var t := Tool("t", "Activity Quiz", InternalAssessment, "Other", "Activity Quiz", "", 10, 0, [("CO1", 10)]);
    assert t.name[..|Activity|] == Activity;
    var qs := SchemaForTool(t).questions;
    assert qs == [Question("Score", "-", 10)];
    assert qs[..0] == [];
    var keys := ValidKeys(t);
    assert keys == ["CO1"];
    assert keys[..0] == [];
  }

  /**
   * With two records of one assessment for a student, the grid loads the last
   * and the report scores the first.
   */
  lemma ScreensDisagreeOnDuplicateRecords()
    ensures var first := MarkRecord("m1", "s", "c", "IA1", None, Some(map["CO1" := Num(3)]));
            var second := MarkRecord("m2", "s", "c", "IA1", None, Some(map["CO1" := Num(7)]));
            Latest([first, second])["s"] == second && RecordFor([first, second], "IA1") == Some(first)
  {
    var first := MarkRecord("m1", "s", "c", "IA1", None, Some(map["CO1" := Num(3)]));
    var second := MarkRecord("m2", "s", "c", "IA1", None, Some(map["CO1" := Num(7)]));
    assert [first, second][..1] == [first];
    assert [first][..0] == [];
  }
}
