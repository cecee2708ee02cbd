/**
 * The faculty marks-entry screen: the question layout derived from the chosen
 * assessment tool, the per-student score grid with its edits, the improvement
 * comparison and override, the plan of writes a save sends, and the CSV
 * template and bulk upload.
 */
module MarksEntry {
  import opened Js
  import opened Distribution
  import opened Configuration

  /** One student's scores: question id to the value stored in the cell. */
  type Row = map<string, Cell>

  datatype Student = Student(id: string, usn: string, name: string)

  /** A stored marks record; `scores` may be absent. */
  datatype MarkRecord = MarkRecord(
    id: string,
    studentId: string,
    courseId: string,
    assessment: string,
    improvementTarget: Option<string>,
    scores: Option<Row>)

  /** One column of the grid: its key in the score row, its CO label and its maximum. */
  datatype Question = Question(q: string, co: string, max: int)

  /** `currentAssessmentConfig`. */
  datatype Schema = Schema(total: int, isExternal: bool, isImprovement: bool, questions: seq<Question>)

  // ---------------------------------------------------------------------------
  // The question layout

  /** The grid treats a tool as the Semester End Exam by its type or its exact name. */
  predicate SeeLike(t: Tool) {
    t.toolType == SemesterEndExam || t.name == SemesterEndExam
  }

  /** ... as an activity by its type or a name starting with "Activity". */
  predicate ActivityLike(t: Tool) {
    t.toolType == Activity || StartsWith(t.name, Activity)
  }

  /** ... as an improvement test by its type or a name starting with "Improvement". */
  predicate ImprovementLike(t: Tool) {
    t.toolType == ImprovementTest || StartsWith(t.name, "Improvement")
  }

  /** The column for one CO of the distribution; its maximum is `parseInt(marks) || 0`. */
  function CoQuestion(e: (string, int)): (q: Question)
    ensures q == Question(e.0, e.0, e.1)
  {
    ParseIntOfIntToString(e.1);
    Question(e.0, e.0, ParseInt(IntToString(e.1)).GetOr(0))
  }

  function CoQuestions(d: Dist): (qs: seq<Question>)
    ensures |qs| == |d|
    ensures forall i :: 0 <= i < |d| ==> qs[i] == Question(d[i].0, d[i].0, d[i].1)
  {
    seq(|d|, i requires 0 <= i < |d| => CoQuestion(d[i]))
  }

  function SchemaForTool(t: Tool): Schema {
    var questions :=
      if SeeLike(t) then [Question("External", "", if t.maxMarks == 0 then 100 else t.maxMarks)]
      else if ActivityLike(t) then [Question("Score", "-", t.maxMarks)]
      else CoQuestions(t.coDistribution);
    Schema(t.maxMarks, SeeLike(t), ImprovementLike(t), questions)
  }

  /** The layout of the tool with the chosen name; none when no tool bears it. */
  function SchemaOf(tools: seq<Tool>, name: string): (r: Option<Schema>)
    ensures r.None? <==> forall i :: 0 <= i < |tools| ==> tools[i].name != name
    ensures r.Some? ==> exists i :: 0 <= i < |tools| && tools[i].name == name && r.value == SchemaForTool(tools[i])
    ensures r.Some? ==> r.value == SchemaForTool(tools[IndexOfName(tools, name).value])
  {
    match IndexOfName(tools, name)
    case None => None
    case Some(i) => Some(SchemaForTool(tools[i]))
  }

  /** The column layout of a tool, by the rule the screen applies; the total is its conducted marks. */
  lemma SchemaForToolShape(t: Tool)
    ensures SchemaForTool(t).total == t.maxMarks
    ensures SchemaForTool(t).isExternal <==> SeeLike(t)
    ensures SchemaForTool(t).isImprovement <==> ImprovementLike(t)
    ensures SeeLike(t) ==>
              SchemaForTool(t).questions == [Question("External", "", if t.maxMarks == 0 then 100 else t.maxMarks)]
    ensures !SeeLike(t) && ActivityLike(t) ==> SchemaForTool(t).questions == [Question("Score", "-", t.maxMarks)]
    ensures !SeeLike(t) && !ActivityLike(t) ==>
              |SchemaForTool(t).questions| == |t.coDistribution|
              && forall i :: 0 <= i < |t.coDistribution| ==>
                   SchemaForTool(t).questions[i] == Question(t.coDistribution[i].0, t.coDistribution[i].0,
                                                             t.coDistribution[i].1)
  {
  }

  function SumMax(qs: seq<Question>): int
    decreases |qs|
  {
    if |qs| == 0 then 0 else qs[0].max + SumMax(qs[1..])
  }

  lemma {:induction false} SumMaxCo(d: Dist)
    ensures SumMax(CoQuestions(d)) == Total(d)
    decreases |d|
  {
    if |d| > 0 {
      SumMaxCo(d[1..]);
      assert CoQuestions(d)[1..] == CoQuestions(d[1..]);
    }
  }

  /**
   * For a tool that passes the configuration screen's allocation check, the
   * column maxima of its grid add up to its conducted marks, except for a
   * Semester End Exam whose marks are 0, whose only column defaults to 100.
   */
  lemma ValidatedToolColumnsSumToTotal(t: Tool)
    requires IsBalanced(t)
    requires SeeLike(t) ==> t.maxMarks != 0
    ensures SumMax(SchemaForTool(t).questions) == SchemaForTool(t).total
  {
    if !SeeLike(t) && !ActivityLike(t) {
      SumMaxCo(t.coDistribution);
    }
  }

  lemma UnsetSeeMarksDefaultTo100(t: Tool)
    requires t.toolType == SemesterEndExam && t.maxMarks == 0
    ensures SumMax(SchemaForTool(t).questions) == 100 && SchemaForTool(t).total == 0
  {
  }

  // ---------------------------------------------------------------------------
  // Cells and totals

  /** `Number(cell) || 0`, the grid's reading of a cell (an absent cell is NaN). */
  function NumberOrZero(c: Option<Cell>): int {
    match c
    case None => 0
    case Some(Num(n)) => n
    case Some(Text(t)) => NumberOf(t).GetOr(0)
  }

  /** `parseInt(cell || 0) || 0`, the comparison dialog's reading; a number is printed first. */
  function ParsedOrZero(c: Option<Cell>): int {
    match c
    case None => 0
    case Some(Num(n)) => if n == 0 then 0 else ParseInt(IntToString(n)).GetOr(0)
    case Some(Text(t)) => if t == "" then 0 else ParseInt(t).GetOr(0)
  }

  function CellAt(row: Row, q: string): Option<Cell> {
    if q in row then Some(row[q]) else None
  }

  /** `calculateTotal`'s sum for one row. */
  function RowTotal(qs: seq<Question>, row: Row): int
    decreases |qs|
  {
    if |qs| == 0 then 0 else RowTotal(qs[..|qs| - 1], row) + NumberOrZero(CellAt(row, qs[|qs| - 1].q))
  }

  /** `calcTotal` of the comparison dialog. */
  function ComparisonTotal(qs: seq<Question>, row: Row): int
    decreases |qs|
  {
    if |qs| == 0 then 0 else ComparisonTotal(qs[..|qs| - 1], row) + ParsedOrZero(CellAt(row, qs[|qs| - 1].q))
  }

  predicate NumericRow(row: Row) {
    forall k :: k in row ==> row[k].Num?
  }

  /** On a row of numbers the grid's total and the comparison dialog's total agree. */
  lemma {:induction false} TotalsAgreeOnNumbers(qs: seq<Question>, row: Row)
    requires NumericRow(row)
    ensures RowTotal(qs, row) == ComparisonTotal(qs, row)
    decreases |qs|
  {
    if |qs| > 0 {
      TotalsAgreeOnNumbers(qs[..|qs| - 1], row);
      var q := qs[|qs| - 1].q;
      if q in row {
        ParseIntOfIntToString(row[q].n);
      }
    }
  }

  /** A text cell "12abc" counts 0 in the grid but 12 in the comparison dialog. */
  lemma TotalsDisagreeOnTrailingText()
    ensures var qs := [Question("CO1", "CO1", 20)];
            var row := map["CO1" := Text("12abc")];
            RowTotal(qs, row) == 0 && ComparisonTotal(qs, row) == 12
  {
    TrailingTextReadings();
    var qs := [Question("CO1", "CO1", 20)];
    assert qs[..0] == [];
  }

  /** `Number("12abc")` is NaN while `parseInt("12abc")` is 12. */
  lemma TrailingTextReadings()
    ensures NumberOf("12abc") == None && ParseInt("12abc") == Some(12)
  {
    var t := "12abc";
    DigitRunOfTrailingText();
    assert TrimStart(t) == t;
    assert TrimEnd(t) == t;
    assert Trim(t) == t;
    assert NumberOf(t) == None;
    assert t[..2] == "12";
    assert DigitsValue("12") == 12 by {
      assert "12"[..1] == "1";
      assert "1"[..0] == "";
    }
  }

  lemma DigitRunOfTrailingText()
    ensures DigitRun("12abc") == 2
  {
    assert DigitRun("2abc") == 1 by { assert "2abc"[1..] == "abc"; }
    assert "12abc"[1..] == "2abc";
  }

  /** The total is a sum over the columns: cells of other keys do not count. */
  lemma {:induction false} RowTotalIgnoresOtherKeys(qs: seq<Question>, row: Row, k: string, c: Cell)
    requires forall i :: 0 <= i < |qs| ==> qs[i].q != k
    ensures RowTotal(qs, row[k := c]) == RowTotal(qs, row)
    decreases |qs|
  {
    if |qs| > 0 {
      RowTotalIgnoresOtherKeys(qs[..|qs| - 1], row, k, c);
    }
  }

  // ---------------------------------------------------------------------------
  // Entering one mark

  /** The bound a typed mark is clamped to: the column's maximum, or the total when that is 0 or absent. */
  function EntryMax(s: Schema, q: string): int
    decreases |s.questions|
  {
    match FirstQuestion(s.questions, q)
    case Some(i) => if s.questions[i].max != 0 then s.questions[i].max else s.total
    case None => s.total
  }

  function FirstQuestion(qs: seq<Question>, q: string): (r: Option<nat>)
    ensures r.Some? ==> r.value < |qs| && qs[r.value].q == q
    ensures r.Some? ==> forall j :: 0 <= j < r.value ==> qs[j].q != q
    ensures r.None? ==> forall j :: 0 <= j < |qs| ==> qs[j].q != q
    decreases |qs|
  {
    if |qs| == 0 then None
    else if qs[0].q == q then Some(0)
    else match FirstQuestion(qs[1..], q)
      case None => None
      case Some(i) => Some(i + 1)
  }

  /** `Math.max(0, Math.min(v, max))`. */
  function Clamp(v: int, max: int): (r: int)
    ensures r >= 0
    ensures max >= 0 ==> r <= max
    ensures 0 <= v <= max ==> r == v
    ensures max < 0 ==> r == 0
    ensures 0 <= max < v ==> r == max
    ensures v < 0 ==> r == 0
  {
    if v < max then (if v < 0 then 0 else v) else (if max < 0 then 0 else max)
  }

  /**
   * `handleMarksChange`: an empty input deletes the cell; a number is clamped
   * and stored (creating the row); other input, and an empty input for a
   * student without a row (which throws), change nothing.
   */
  function ChangeMark(s: Schema, marks: map<string, Row>, sid: string, q: string, value: string)
    : (r: map<string, Row>)
    ensures value == "" && sid in marks ==> r == marks[sid := marks[sid] - {q}]
    ensures value == "" && sid !in marks ==> r == marks
    ensures value != "" && ParseInt(value).None? ==> r == marks
    ensures value != "" && ParseInt(value).Some? ==>
              sid in r && r.Keys == marks.Keys + {sid}
              && CellAt(r[sid], q) == Some(Num(Clamp(ParseInt(value).value, EntryMax(s, q))))
              && (forall k :: k != q && k in r[sid] ==> sid in marks && k in marks[sid] && r[sid][k] == marks[sid][k])
              && (forall k :: k != q && sid in marks && k in marks[sid] ==> k in r[sid])
              && (forall o :: o in marks && o != sid ==> r[o] == marks[o])
  {
    if value == "" then
      if sid in marks then marks[sid := marks[sid] - {q}] else marks
    else match ParseInt(value)
      case None => marks
      case Some(v) =>
        var row := if sid in marks then marks[sid] else map[];
        var c := Num(Clamp(v, EntryMax(s, q)));
        SetCellFacts(marks, sid, q, c);
        marks[sid := row[q := c]]
  }

  /** Setting one cell of one student's row (creating the row) leaves every other cell and row as it was. */
  lemma SetCellFacts(marks: map<string, Row>, sid: string, q: string, c: Cell)
    ensures var r := marks[sid := (if sid in marks then marks[sid] else map[])[q := c]];
            sid in r && r.Keys == marks.Keys + {sid}
            && CellAt(r[sid], q) == Some(c)
            && (forall k :: k != q && k in r[sid] ==> sid in marks && k in marks[sid] && r[sid][k] == marks[sid][k])
            && (forall k :: k != q && sid in marks && k in marks[sid] ==> k in r[sid])
            && (forall o :: o in marks && o != sid ==> r[o] == marks[o])
  {
  }

  /** Every cell of a column holds a number between 0 and the bound the grid clamps to. */
  predicate WithinEntryLimits(s: Schema, marks: map<string, Row>) {
    forall sid, k :: sid in marks && k in marks[sid] ==> CellWithin(s, k, marks[sid][k])
  }

  predicate CellWithin(s: Schema, k: string, c: Cell) {
    c.Num? && 0 <= c.n <= (if EntryMax(s, k) < 0 then 0 else EntryMax(s, k))
  }

  /** Typing into the grid keeps every cell within its limits. */
  lemma ChangeMarkKeepsLimits(s: Schema, marks: map<string, Row>, sid: string, q: string, value: string)
    requires WithinEntryLimits(s, marks)
    ensures WithinEntryLimits(s, ChangeMark(s, marks, sid, q, value))
  {
    var r := ChangeMark(s, marks, sid, q, value);
    forall o: string, k: string | o in r && k in r[o]
      ensures CellWithin(s, k, r[o][k])
    {
      if o == sid && k == q && value != "" && ParseInt(value).Some? {
        assert CellAt(r[sid], q) == Some(r[o][k]);
      }
    }
  }

  // ---------------------------------------------------------------------------
  // Loading the grid

  /** The records of a fetch as `forEach` leaves them keyed by student: the last record of each student wins. */
  function Latest(records: seq<MarkRecord>): (m: map<string, MarkRecord>)
    ensures forall i :: 0 <= i < |records| ==> records[i].studentId in m
    ensures forall sid :: sid in m ==> m[sid] in records && m[sid].studentId == sid
    decreases |records|
  {
    if |records| == 0 then map[]
    else
      var r := records[|records| - 1];
      Latest(records[..|records| - 1])[r.studentId := r]
  }

  /** A record that no later record of the same student follows is the one kept. */
  lemma {:induction false} LatestKeepsLast(records: seq<MarkRecord>, i: nat)
    requires i < |records|
    requires forall j :: i < j < |records| ==> records[j].studentId != records[i].studentId
    ensures Latest(records)[records[i].studentId] == records[i]
    decreases |records|
  {
    if i < |records| - 1 {
      var init := records[..|records| - 1];
      assert forall j :: i < j < |init| ==> init[j] == records[j];
      LatestKeepsLast(init, i);
    }
  }

  /** `initialMarks` as the records leave it: each record's scores, or an empty row. */
  function ScoresOf(meta: map<string, MarkRecord>): map<string, Row> {
    map sid | sid in meta :: meta[sid].scores.GetOr(map[])
  }

  /** `fetchedImpMarks`: each linked improvement record's scores, possibly absent. */
  function ImprovementScoresOf(meta: map<string, MarkRecord>): map<string, Option<Row>> {
    map sid | sid in meta :: meta[sid].scores
  }

  function RosterIds(roster: seq<Student>): set<string> {
    set i | 0 <= i < |roster| :: roster[i].id
  }

  /** The grid after loading: outside an improvement test, every rostered student without a record gets an empty row. */
  function InitialMarks(isImprovement: bool, meta: map<string, MarkRecord>, roster: seq<Student>): map<string, Row> {
    if isImprovement then ScoresOf(meta)
    else map sid | sid in meta.Keys + RosterIds(roster) :: if sid in meta then meta[sid].scores.GetOr(map[]) else map[]
  }

  /** The rows that open unlocked: exactly those just created empty. */
  function InitialEditable(isImprovement: bool, meta: map<string, MarkRecord>, roster: seq<Student>): map<string, bool> {
    if isImprovement then map[] else map sid | sid in RosterIds(roster) - meta.Keys :: true
  }

  /** Outside an improvement test every rostered student has a row; inside one, only students with a record do. */
  lemma LoadedRows(isImprovement: bool, meta: map<string, MarkRecord>, roster: seq<Student>)
    ensures !isImprovement ==> forall i :: 0 <= i < |roster| ==> roster[i].id in InitialMarks(isImprovement, meta, roster)
    ensures isImprovement ==> InitialMarks(isImprovement, meta, roster).Keys == meta.Keys
    ensures forall sid :: sid in meta ==>
              InitialMarks(isImprovement, meta, roster)[sid] == meta[sid].scores.GetOr(map[])
    ensures forall sid :: sid in InitialEditable(isImprovement, meta, roster) ==>
              sid !in meta && sid in InitialMarks(isImprovement, meta, roster)
  {
  }

  /** `t` is an improvement test linked to the assessment `name`. */
  predicate LinksTo(t: Tool, name: string) {
    t.toolType == ImprovementTest && t.linkedAssessment == name
  }

  /** The improvement test linked to the chosen assessment: the first tool of that type naming it. */
  function LinkedImprovementTool(tools: seq<Tool>, name: string): (r: Option<Tool>)
    ensures r.Some? ==> r.value in tools && LinksTo(r.value, name)
    ensures r.None? ==> forall i :: 0 <= i < |tools| ==> !LinksTo(tools[i], name)
    ensures forall i :: 0 <= i < |tools| && LinksTo(tools[i], name) && (forall j :: 0 <= j < i ==> !LinksTo(tools[j], name))
              ==> r == Some(tools[i])
    decreases |tools|
  {
    if |tools| == 0 then None
    else if LinksTo(tools[0], name) then Some(tools[0])
    else
      var r := LinkedImprovementTool(tools[1..], name);
      assert forall i :: 0 < i < |tools| ==> tools[i] == tools[1..][i - 1];
      r
  }

  /** The students whose rows a view shows: all of them, or in an improvement test those with a row. */
  function Shown(isImprovement: bool, students: seq<Student>, marks: map<string, Row>): (r: seq<Student>)
    ensures !isImprovement ==> r == students
    ensures isImprovement ==> forall i :: 0 <= i < |r| ==> r[i] in students && r[i].id in marks
    ensures isImprovement ==> forall i :: 0 <= i < |students| && students[i].id in marks ==> students[i] in r
    ensures isImprovement ==> forall st :: st in students ==>
              multiset(r)[st] == if st.id in marks then multiset(students)[st] else 0
    ensures Subsequence(r, students)
  {
    if isImprovement then WithRows(students, marks) else SubsequenceRefl(students); students
  }

  /** The students that have a row, in their order. */
  function WithRows(students: seq<Student>, marks: map<string, Row>): (r: seq<Student>)
    ensures forall i :: 0 <= i < |r| ==> r[i] in students && r[i].id in marks
    ensures forall i :: 0 <= i < |students| && students[i].id in marks ==> students[i] in r
    ensures forall st :: st in students ==> multiset(r)[st] == if st.id in marks then multiset(students)[st] else 0
    ensures |r| <= |students| && Subsequence(r, students)
  {
    Filter(students, (s: Student) => s.id in marks)
  }

  // ---------------------------------------------------------------------------
  // Saving

  /** One request of a save. */
  datatype Write = Patch(recordId: string, scores: Row) | Post(record: MarkRecord)

  /** The id a new record is posted under: `M_<course>_<student>_<assessment without whitespace>`. */
  function PostId(courseId: string, studentId: string, assessment: string): string {
    "M_" + courseId + "_" + studentId + "_" + RemoveWhitespace(assessment)
  }

  /** Within one course and assessment, different students' new records get different ids. */
  lemma PostIdInjective(courseId: string, s1: string, s2: string, assessment: string)
    requires PostId(courseId, s1, assessment) == PostId(courseId, s2, assessment)
    ensures s1 == s2
  {
    var p := "M_" + courseId + "_";
    var tail := "_" + RemoveWhitespace(assessment);
    assert PostId(courseId, s1, assessment) == p + s1 + tail;
    assert PostId(courseId, s2, assessment) == p + s2 + tail;
    CancelAround(p, s1, s2, tail);
  }

  /** Two strings with the same text before and after them are equal when the whole strings are. */
  lemma CancelAround(p: string, a: string, b: string, tail: string)
    requires p + a + tail == p + b + tail
    ensures a == b
  {
    var x, y := p + a + tail, p + b + tail;
    assert |a| == |b|;
    assert a == x[|p|..|p| + |a|];
    assert b == y[|p|..|p| + |b|];
  }

  /** The request for one student's row: a patch of the record loaded for them, else a post of a new one. */
  function WriteFor(courseId: string, assessment: string, meta: map<string, MarkRecord>, sid: string, row: Row): Write {
    if sid in meta then Patch(meta[sid].id, row)
    else Post(MarkRecord(PostId(courseId, sid, assessment), sid, courseId, assessment, None, Some(row)))
  }

  /** The requests a save may send: one per shown student with a row. */
  function WritesOf(courseId: string, assessment: string, shown: seq<Student>, marks: map<string, Row>,
                    meta: map<string, MarkRecord>): set<Write> {
    set s | s in shown && s.id in marks :: WriteFor(courseId, assessment, meta, s.id, marks[s.id])
  }

  /**
   * `handleSaveChanges`' requests, one per shown student that has a row, in display order:
   * the k-th request is the write for the k-th such student.
   */
  function SaveWrites(courseId: string, assessment: string, shown: seq<Student>, marks: map<string, Row>,
                      meta: map<string, MarkRecord>): (w: seq<Write>)
    ensures |w| == |WithRows(shown, marks)| <= |shown|
    ensures forall k :: 0 <= k < |w| ==>
              w[k] == WriteFor(courseId, assessment, meta, WithRows(shown, marks)[k].id, marks[WithRows(shown, marks)[k].id])
    ensures forall i :: 0 <= i < |shown| && shown[i].id in marks ==>
              WriteFor(courseId, assessment, meta, shown[i].id, marks[shown[i].id]) in w
    ensures forall k :: 0 <= k < |w| ==> w[k] in WritesOf(courseId, assessment, shown, marks, meta)
  {
    var saved := WithRows(shown, marks);
    var w := seq(|saved|, k requires 0 <= k < |saved| => WriteFor(courseId, assessment, meta, saved[k].id, marks[saved[k].id]));
    forall k | 0 <= k < |w|
      ensures w[k] in WritesOf(courseId, assessment, shown, marks, meta)
    {
      var st := saved[k];
      assert st in shown && st.id in marks;
      assert w[k] == WriteFor(courseId, assessment, meta, st.id, marks[st.id]);
    }
    forall i | 0 <= i < |shown| && shown[i].id in marks
      ensures WriteFor(courseId, assessment, meta, shown[i].id, marks[shown[i].id]) in w
    {
      var k :| 0 <= k < |saved| && saved[k] == shown[i];
      assert w[k] == WriteFor(courseId, assessment, meta, shown[i].id, marks[shown[i].id]);
    }
    w
  }


  /** In an improvement test, the records of students whose rows were removed are deleted. */
  function SaveDeletes(isImprovement: bool, marks: map<string, Row>, meta: map<string, MarkRecord>): (d: set<string>)
    ensures isImprovement ==> forall sid :: sid in meta && sid !in marks ==> meta[sid].id in d
    ensures forall id :: id in d ==> isImprovement && exists sid :: sid in meta && sid !in marks && meta[sid].id == id
    ensures !isImprovement ==> d == {}
  {
    if isImprovement then set sid | sid in meta && sid !in marks :: meta[sid].id else {}
  }

  /** Loaded records are distinct: no two students' records share an id. */
  predicate DistinctRecordIds(meta: map<string, MarkRecord>) {
    forall s1, s2 :: s1 in meta && s2 in meta && meta[s1].id == meta[s2].id ==> s1 == s2
  }

  /** No record is both patched and deleted by the same save. */
  lemma NoRecordPatchedAndDeleted(courseId: string, assessment: string, isImprovement: bool, shown: seq<Student>,
                                  marks: map<string, Row>, meta: map<string, MarkRecord>, id: string)
    requires DistinctRecordIds(meta)
    ensures !(id in SaveDeletes(isImprovement, marks, meta)
              && exists k :: 0 <= k < |SaveWrites(courseId, assessment, shown, marks, meta)|
                   && SaveWrites(courseId, assessment, shown, marks, meta)[k].Patch?
                   && SaveWrites(courseId, assessment, shown, marks, meta)[k].recordId == id)
  {
    var w := SaveWrites(courseId, assessment, shown, marks, meta);
    if id in SaveDeletes(isImprovement, marks, meta) {
      forall k | 0 <= k < |w| && w[k].Patch?
        ensures w[k].recordId != id
      {
        var st :| st in shown && st.id in marks && w[k] == WriteFor(courseId, assessment, meta, st.id, marks[st.id]);
        assert st.id in meta;
      }
    }
  }

  // ---------------------------------------------------------------------------
  // The CSV template and the bulk upload

  /** The header of a column: `<q> (<max>)`. */
  function HeaderCell(q: Question): string {
    q.q + " (" + IntToString(q.max) + ")"
  }

  function HeaderFields(qs: seq<Question>): seq<string> {
    ["USN", "Name"] + seq(|qs|, i requires 0 <= i < |qs| => HeaderCell(qs[i]))
  }

  /** `marks[id]?.[q] || ''`: an absent cell, a 0 and an empty text are all written as nothing. */
  function CellText(c: Option<Cell>): (t: string)
    ensures c.None? || c == Some(Num(0)) ==> t == "" && ParseInt(t) == None
    ensures c.Some? && c.value.Num? && c.value.n != 0 ==> ParseInt(t) == Some(c.value.n)
  {
    match c
    case None => ParseIntEmpty(); ""
    case Some(Num(n)) => if n == 0 then ParseIntEmpty(); "" else ParseIntOfIntToString(n); IntToString(n)
    case Some(Text(t)) => t
  }

  function RowOf(marks: map<string, Row>, sid: string): Option<Row> {
    if sid in marks then Some(marks[sid]) else None
  }

  function CellOf(row: Option<Row>, q: string): Option<Cell> {
    match row
    case None => None
    case Some(r) => CellAt(r, q)
  }

  /** The fields of a student's template line: USN, name, then one per column. */
  function StudentFields(qs: seq<Question>, marks: map<string, Row>, st: Student): (f: seq<string>)
    ensures |f| == |qs| + 2 && f[0] == st.usn && f[1] == st.name
    ensures forall i :: 0 <= i < |qs| ==> f[i + 2] == CellText(CellOf(RowOf(marks, st.id), qs[i].q))
  {
    [st.usn, st.name] + seq(|qs|, i requires 0 <= i < |qs| => CellText(CellOf(RowOf(marks, st.id), qs[i].q)))
  }

  function TemplateLines(qs: seq<Question>, shown: seq<Student>, marks: map<string, Row>): (lines: seq<string>)
    ensures |lines| == |shown| + 1
    ensures lines[0] == Join(HeaderFields(qs), ',')
    ensures forall i :: 0 <= i < |shown| ==> lines[i + 1] == Join(StudentFields(qs, marks, shown[i]), ',')
  {
    [Join(HeaderFields(qs), ',')] + seq(|shown|, i requires 0 <= i < |shown| => Join(StudentFields(qs, marks, shown[i]), ','))
  }

  /** `handleDownloadTemplate`'s file, without the data-URI prefix; nothing when no student is shown. */
  function Template(s: Schema, shown: seq<Student>, marks: map<string, Row>): (r: Option<string>)
    ensures r.None? <==> |shown| == 0
  {
    if |shown| == 0 then None else Some(Join(TemplateLines(s.questions, shown, marks), '\n'))
  }

  /** `currentStudents.find(s => s.usn === usn)`. */
  function FindByUsn(students: seq<Student>, usn: string): (r: Option<Student>)
    ensures r.Some? ==> r.value in students && r.value.usn == usn
    ensures r.None? ==> forall i :: 0 <= i < |students| ==> students[i].usn != usn
    decreases |students|
  {
    if |students| == 0 then None
    else if students[0].usn == usn then Some(students[0])
    else FindByUsn(students[1..], usn)
  }

  /** `find` stops at the first student with the USN. */
  lemma {:induction false} FindByUsnFirst(students: seq<Student>, usn: string, i: nat)
    requires i < |students| && students[i].usn == usn
    requires forall j :: 0 <= j < i ==> students[j].usn != usn
    ensures FindByUsn(students, usn) == Some(students[i])
    decreases i
  {
    if i > 0 {
      FindByUsnFirst(students[1..], usn, i - 1);
    }
  }

  /** `parseInt(row[idx + 2])`; a missing field is `undefined`, which parses to NaN. */
  function FieldValue(fields: seq<string>, idx: nat): Option<int> {
    if idx + 2 < |fields| then ParseInt(fields[idx + 2]) else None
  }

  /** The parsed fields of a line, one per column. */
  function FieldValues(fields: seq<string>, n: nat): (vals: seq<Option<int>>)
    ensures |vals| == n && forall i :: 0 <= i < n ==> vals[i] == FieldValue(fields, i)
  {
    seq(n, i requires 0 <= i < n => FieldValue(fields, i))
  }

  /**
   * The first `n` columns of one line, parsed into `vals`, stored into a row:
   * a value only when it is a number not above the column's maximum.
   */
  function ImportCells(row: Row, qs: seq<Question>, vals: seq<Option<int>>, n: nat): (r: (Row, nat))
    requires n <= |qs| && n <= |vals|
    ensures r.1 <= n
    decreases n
  {
    if n == 0 then (row, 0)
    else
      var prev := ImportCells(row, qs, vals, n - 1);
      var q := qs[n - 1];
      match vals[n - 1]
      case Some(v) => if v <= q.max then (prev.0[q.q := Num(v)], prev.1 + 1) else prev
      case None => prev
  }

  lemma ImportCellsStep(row: Row, qs: seq<Question>, vals: seq<Option<int>>, n: nat)
    requires n < |qs| && n < |vals|
    ensures var prev := ImportCells(row, qs, vals, n);
            ImportCells(row, qs, vals, n + 1) ==
              if vals[n].Some? && vals[n].value <= qs[n].max then (prev.0[qs[n].q := Num(vals[n].value)], prev.1 + 1)
              else prev
  {
  }

  /** Importing a line keeps every key of the row and adds only keys of columns. */
  lemma {:induction false} ImportCellsKeys(row: Row, qs: seq<Question>, vals: seq<Option<int>>, n: nat)
    requires n <= |qs| && n <= |vals|
    ensures forall k :: k in row ==> k in ImportCells(row, qs, vals, n).0
    ensures forall k :: k in ImportCells(row, qs, vals, n).0 ==> k in row || exists i :: 0 <= i < n && qs[i].q == k
    decreases n
  {
    if n > 0 {
      ImportCellsKeys(row, qs, vals, n - 1);
      var prev := ImportCells(row, qs, vals, n - 1).0;
      var r := ImportCells(row, qs, vals, n).0;
      assert r == prev || r == prev[qs[n - 1].q := Num(vals[n - 1].value)];
    }
  }

  /**
   * A cell the import changes holds a number the line gives for a column of
   * that key, not above that column's maximum.
   */
  lemma {:induction false} ImportCellsValues(row: Row, qs: seq<Question>, vals: seq<Option<int>>, n: nat, k: string)
    requires n <= |qs| && n <= |vals|
    requires k in ImportCells(row, qs, vals, n).0
    requires k !in row || ImportCells(row, qs, vals, n).0[k] != row[k]
    ensures ImportCells(row, qs, vals, n).0[k].Num?
    ensures exists i :: 0 <= i < n && qs[i].q == k && vals[i] == Some(ImportCells(row, qs, vals, n).0[k].n)
                        && ImportCells(row, qs, vals, n).0[k].n <= qs[i].max
    decreases n
  {
    var r := ImportCells(row, qs, vals, n).0;
    var prev := ImportCells(row, qs, vals, n - 1).0;
    var q := qs[n - 1];
    var v := vals[n - 1];
    if v.Some? && v.value <= q.max && k == q.q {
      assert r[k] == Num(v.value);
      assert qs[n - 1].q == k && vals[n - 1] == Some(r[k].n) && r[k].n <= qs[n - 1].max;
    } else {
      assert k in prev && r[k] == prev[k];
      ImportCellsValues(row, qs, vals, n - 1, k);
      var i :| 0 <= i < n - 1 && qs[i].q == k && vals[i] == Some(prev[k].n) && prev[k].n <= qs[i].max;
      assert 0 <= i < n;
    }
  }

  /**
   * One line of the upload: lines with fewer than three fields and unknown
   * USNs are skipped, and in an improvement test so are students without a row.
   */
  function ImportLine(s: Schema, students: seq<Student>, marks: map<string, Row>, fields: seq<string>)
    : (map<string, Row>, nat)
  {
    if |fields| < 3 then (marks, 0)
    else match FindByUsn(students, Trim(fields[0]))
      case None => (marks, 0)
      case Some(st) =>
        if s.isImprovement && st.id !in marks then (marks, 0)
        else
          var base := if st.id in marks then marks[st.id] else map[];
          var cells := ImportCells(base, s.questions, FieldValues(fields, |s.questions|), |s.questions|);
          (marks[st.id := cells.0], cells.1)
  }

  /** A line changes at most the row of the student its USN names, and in an improvement test adds no row. */
  lemma ImportLineScope(s: Schema, students: seq<Student>, marks: map<string, Row>, fields: seq<string>)
    ensures var r := ImportLine(s, students, marks, fields);
            (forall sid :: sid in marks ==> sid in r.0)
            && (s.isImprovement ==> r.0.Keys == marks.Keys)
            && (forall sid :: sid in r.0 && (sid !in marks || r.0[sid] != marks[sid]) ==>
                  |fields| >= 3 && FindByUsn(students, Trim(fields[0])).Some?
                  && FindByUsn(students, Trim(fields[0])).value.id == sid)
  {
  }

  function ImportLines(s: Schema, students: seq<Student>, marks: map<string, Row>, rows: seq<seq<string>>)
    : (map<string, Row>, nat)
    decreases |rows|
  {
    if |rows| == 0 then (marks, 0)
    else
      var prev := ImportLines(s, students, marks, rows[..|rows| - 1]);
      var line := ImportLine(s, students, prev.0, rows[|rows| - 1]);
      (line.0, prev.1 + line.1)
  }

  /** An upload drops no row, and in an improvement test adds none. */
  lemma {:induction false} ImportLinesKeepRows(s: Schema, students: seq<Student>, marks: map<string, Row>,
                                               rows: seq<seq<string>>)
    ensures forall sid :: sid in marks ==> sid in ImportLines(s, students, marks, rows).0
    ensures s.isImprovement ==> ImportLines(s, students, marks, rows).0.Keys == marks.Keys
    decreases |rows|
  {
    if |rows| > 0 {
      var prev := ImportLines(s, students, marks, rows[..|rows| - 1]);
      ImportLinesKeepRows(s, students, marks, rows[..|rows| - 1]);
      ImportLineScope(s, students, prev.0, rows[|rows| - 1]);
    }
  }

  /** The file split into lines and the lines into fields: the rows, rejoined, are the text, and no field holds a comma. */
  function CsvRows(text: string): (rows: seq<seq<string>>)
    ensures |rows| >= 1
    ensures Join(seq(|rows|, i requires 0 <= i < |rows| => Join(rows[i], ',')), '\n') == text
    ensures forall i, j :: 0 <= i < |rows| && 0 <= j < |rows[i]| ==> ',' !in rows[i][j]
  {
    var lines := Split(text, '\n');
    var rows := seq(|lines|, i requires 0 <= i < |lines| => Split(lines[i], ','));
    assert seq(|rows|, i requires 0 <= i < |rows| => Join(rows[i], ',')) == lines;
    rows
  }

  /** `handleBulkUpload`'s effect on the grid after the header line is dropped, and its count of stored values. */
  function Import(s: Schema, students: seq<Student>, marks: map<string, Row>, text: string): (map<string, Row>, nat)
  {
    ImportLines(s, students, marks, CsvRows(text)[1..])
  }

  /** The upload checks a value only against the column's maximum: any negative mark is stored. */
  lemma ImportStoresNegativeMark(st: Student, n: int)
    requires Trim(st.usn) == st.usn && n < 0
    ensures var s := Schema(20, false, false, [Question("CO1", "CO1", 20)]);
            var r := ImportLine(s, [st], map[], [st.usn, st.name, IntToString(n)]);
            st.id in r.0 && r.0[st.id] == map["CO1" := Num(n)]
  {
    ParseIntOfIntToString(n);
    ImportOneField(Schema(20, false, false, [Question("CO1", "CO1", 20)]), st, IntToString(n), n);
  }

  /** A line for a one-column test whose field reads as a number within the maximum stores exactly that number. */
  lemma ImportOneField(s: Schema, st: Student, t: string, v: int)
    requires |s.questions| == 1 && !s.isImprovement && Trim(st.usn) == st.usn
    requires ParseInt(t) == Some(v) && v <= s.questions[0].max
    ensures ImportLine(s, [st], map[], [st.usn, st.name, t]).0 == map[st.id := map[s.questions[0].q := Num(v)]]
  {
    var fields := [st.usn, st.name, t];
    var vals := FieldValues(fields, 1);
    assert vals[0] == FieldValue(fields, 0);
    assert FindByUsn([st], Trim(fields[0])) == Some(st);
    ImportCellsStep(map[], s.questions, vals, 0);
  }

  // ---------------------------------------------------------------------------
  // Downloading the template and uploading it again

  /** A field with no comma and no line break survives the split of the file. */
  predicate Plain(t: string) {
    ',' !in t && '\n' !in t
  }

  lemma CellTextPlain(c: Option<Cell>)
    requires c.None? || c.value.Num?
    ensures Plain(CellText(c))
  {
    if c.Some? && c.value.n != 0 {
      IntToStringChars(c.value.n, ',');
      IntToStringChars(c.value.n, '\n');
    }
  }

  lemma HeaderHasNoLineBreak(qs: seq<Question>)
    requires forall i :: 0 <= i < |qs| ==> '\n' !in qs[i].q
    ensures '\n' !in Join(HeaderFields(qs), ',')
  {
    var f := HeaderFields(qs);
    forall i | 0 <= i < |f|
      ensures '\n' !in f[i]
    {
      if i >= 2 {
        IntToStringChars(qs[i - 2].max, '\n');
        assert f[i] == qs[i - 2].q + " (" + IntToString(qs[i - 2].max) + ")";
      }
    }
    JoinAvoids(f, ',', '\n');
  }

  /** A shown student's line splits back into its fields and holds no line break. */
  lemma StudentLineSplits(qs: seq<Question>, marks: map<string, Row>, st: Student)
    requires Plain(st.usn) && Plain(st.name)
    requires st.id in marks && NumericRow(marks[st.id])
    ensures Split(Join(StudentFields(qs, marks, st), ','), ',') == StudentFields(qs, marks, st)
    ensures '\n' !in Join(StudentFields(qs, marks, st), ',')
  {
    var f := StudentFields(qs, marks, st);
    forall i | 0 <= i < |f|
      ensures Plain(f[i])
    {
      if i >= 2 {
        CellTextPlain(CellOf(RowOf(marks, st.id), qs[i - 2].q));
      }
    }
    SplitJoin(f, ',');
    JoinAvoids(f, ',', '\n');
  }

  /** The lines after the header of a template are the shown students' fields. */
  lemma TemplateRows(s: Schema, shown: seq<Student>, marks: map<string, Row>)
    requires |shown| > 0
    requires forall i :: 0 <= i < |s.questions| ==> '\n' !in s.questions[i].q
    requires forall i :: 0 <= i < |shown| ==>
               Plain(shown[i].usn) && Plain(shown[i].name) && shown[i].id in marks && NumericRow(marks[shown[i].id])
    ensures |CsvRows(Template(s, shown, marks).value)| == |shown| + 1
    ensures forall i :: 0 <= i < |shown| ==>
              CsvRows(Template(s, shown, marks).value)[i + 1] == StudentFields(s.questions, marks, shown[i])
  {
    var lines := TemplateLines(s.questions, shown, marks);
    HeaderHasNoLineBreak(s.questions);
    forall i | 0 <= i < |shown|
      ensures Split(lines[i + 1], ',') == StudentFields(s.questions, marks, shown[i])
      ensures '\n' !in lines[i + 1]
    {
      StudentLineSplits(s.questions, marks, shown[i]);
    }
    assert forall i :: 0 <= i < |lines| ==> '\n' !in lines[i] by {
      forall i | 0 <= i < |lines|
        ensures '\n' !in lines[i]
      {
        if i > 0 {
          assert '\n' !in lines[(i - 1) + 1];
        }
      }
    }
    SplitJoin(lines, '\n');
  }

  lemma ParseIntEmpty()
    ensures ParseInt("") == None
  {
    assert TrimStart("") == "";
  }

  /** Storing values that each repeat the row's own number in that column gives back the same row. */
  lemma {:induction false} ImportCellsSame(row: Row, qs: seq<Question>, vals: seq<Option<int>>, n: nat)
    requires n <= |qs| && |vals| == |qs|
    requires forall i :: 0 <= i < |qs| && vals[i].Some? ==> qs[i].q in row && row[qs[i].q] == Num(vals[i].value)
    ensures ImportCells(row, qs, vals, n).0 == row
    decreases n
  {
    if n > 0 {
      ImportCellsSame(row, qs, vals, n - 1);
      ImportCellsStep(row, qs, vals, n - 1);
      var v := vals[n - 1];
      if v.Some? && v.value <= qs[n - 1].max {
        assert row[qs[n - 1].q := Num(v.value)] == row;
      }
    }
  }

  /** A shown student's template line, uploaded, leaves the grid as it was. */
  lemma ImportLineSame(s: Schema, students: seq<Student>, marks: map<string, Row>, st: Student)
    requires st in students && Trim(st.usn) == st.usn
    requires forall a, b :: a in students && b in students && a.usn == b.usn ==> a == b
    requires st.id in marks && NumericRow(marks[st.id])
    ensures ImportLine(s, students, marks, StudentFields(s.questions, marks, st)).0 == marks
  {
    var fields := StudentFields(s.questions, marks, st);
    if |fields| >= 3 {
      var found := FindByUsn(students, Trim(fields[0]));
      assert found == Some(st);
      var qs := s.questions;
      var vals := FieldValues(fields, |qs|);
      forall i | 0 <= i < |qs| && vals[i].Some?
        ensures qs[i].q in marks[st.id] && marks[st.id][qs[i].q] == Num(vals[i].value)
      {
        assert fields[i + 2] == CellText(CellOf(RowOf(marks, st.id), qs[i].q));
        assert vals[i] == ParseInt(CellText(CellAt(marks[st.id], qs[i].q)));
      }
      ImportCellsSame(marks[st.id], qs, vals, |qs|);
    }
  }

  lemma {:induction false} ImportLinesSame(s: Schema, students: seq<Student>, marks: map<string, Row>,
                                           rows: seq<seq<string>>)
    requires forall i :: 0 <= i < |rows| ==> ImportLine(s, students, marks, rows[i]).0 == marks
    ensures ImportLines(s, students, marks, rows).0 == marks
    decreases |rows|
  {
    if |rows| > 0 {
      ImportLinesSame(s, students, marks, rows[..|rows| - 1]);
    }
  }

  /**
   * Uploading the downloaded template, unedited, leaves every row as it was,
   * provided the rows hold numbers, USNs are distinct and have no surrounding
   * whitespace, and no USN, name or column id holds a comma or a line break
   * (the file is split on those without quoting).
   */
  lemma TemplateImportRoundTrip(s: Schema, students: seq<Student>, marks: map<string, Row>)
    requires forall st :: st in students ==> Plain(st.usn) && Plain(st.name) && Trim(st.usn) == st.usn
    requires forall a, b :: a in students && b in students && a.usn == b.usn ==> a == b
    requires forall i :: 0 <= i < |s.questions| ==> '\n' !in s.questions[i].q
    requires forall st :: st in Shown(s.isImprovement, students, marks) ==> st.id in marks && NumericRow(marks[st.id])
    ensures var shown := Shown(s.isImprovement, students, marks);
            Template(s, shown, marks).Some? ==> Import(s, students, marks, Template(s, shown, marks).value).0 == marks
  {
    var shown := Shown(s.isImprovement, students, marks);
    if |shown| > 0 {
      assert forall i :: 0 <= i < |shown| ==> shown[i] in students;
      TemplateRows(s, shown, marks);
      var rows := CsvRows(Template(s, shown, marks).value)[1..];
      forall i | 0 <= i < |rows|
        ensures ImportLine(s, students, marks, rows[i]).0 == marks
      {
        assert rows[i] == StudentFields(s.questions, marks, shown[i]);
        ImportLineSame(s, students, marks, shown[i]);
      }
      ImportLinesSame(s, students, marks, rows);
    }
  }

  // ---------------------------------------------------------------------------
  // The grid

  /** The data of the comparison dialog. */
  datatype Comparison = Comparison(student: Student, original: Row, improvement: Row, schema: Schema)

  /** The marks-entry page once "Load Students" has filled the grid. */
  class MarksGrid {
    var courseId: string
    var assessment: string
    var schema: Schema
    var students: seq<Student>
    var marks: map<string, Row>
    var improvement: map<string, Option<Row>>
    var meta: map<string, MarkRecord>
    var editable: map<string, bool>
    var comparison: Option<Comparison>

    /**
     * `handleLoadStudents` after its fetches: the roster, the chosen
     * assessment's records and, when an improvement test links to it, that
     * test's records.
     */
    constructor Init(courseId: string, assessment: string, schema: Schema, roster: seq<Student>,
                     records: seq<MarkRecord>, improvementRecords: seq<MarkRecord>)
      ensures this.courseId == courseId && this.assessment == assessment && this.schema == schema
      ensures students == roster
      ensures meta == Latest(records)
      ensures marks == InitialMarks(schema.isImprovement, Latest(records), roster)
      ensures editable == InitialEditable(schema.isImprovement, Latest(records), roster)
      ensures improvement == ImprovementScoresOf(Latest(improvementRecords))
      ensures comparison == None
    {
      this.courseId := courseId;
      this.assessment := assessment;
      this.schema := schema;
      students := roster;
      comparison := None;
      var fetched := LoadImprovementScores(improvementRecords);
      improvement := fetched;
      var initialMeta := LoadRecords(records);
      var initialMarks, initialEditable := PadRoster(schema.isImprovement, initialMeta, roster);
      marks := initialMarks;
      meta := initialMeta;
      editable := initialEditable;
    }

    /** The students the grid shows. */
    function Displayed(): seq<Student>
      reads this
    {
      Shown(schema.isImprovement, students, marks)
    }

    /**
     * `handleUpdateStudentMapping`: selected students without a row get an
     * empty, unlocked one; rows of students not selected are dropped.
     */
    method UpdateStudentMapping(selected: set<string>)
      modifies this
      ensures marks.Keys == selected
      ensures forall sid :: sid in marks ==> marks[sid] == if sid in old(marks) then old(marks)[sid] else map[]
      ensures editable.Keys == (old(editable).Keys + (selected - old(marks).Keys)) - (old(marks).Keys - selected)
      ensures forall sid :: sid in editable ==>
                editable[sid] == if sid in selected && sid !in old(marks) then true else old(editable)[sid]
      ensures courseId == old(courseId) && assessment == old(assessment) && schema == old(schema)
      ensures students == old(students) && improvement == old(improvement) && meta == old(meta)
      ensures comparison == old(comparison)
    {
      var addedMarks, addedEditable := AddSelected(marks, editable, selected);
      var newMarks, newEditable := DropUnselected(addedMarks, addedEditable, selected);
      marks := newMarks;
      editable := newEditable;
    }

    /** `openComparisonModal`: the student's row and improvement row, an absent one shown as empty. */
    method OpenComparison(s: Student)
      modifies this
      ensures comparison == Some(Comparison(s, if s.id in marks then marks[s.id] else map[],
                                            if s.id in improvement && improvement[s.id].Some?
                                            then improvement[s.id].value else map[], schema))
      ensures marks == old(marks) && editable == old(editable) && students == old(students)
      ensures improvement == old(improvement) && meta == old(meta) && schema == old(schema)
      ensures courseId == old(courseId) && assessment == old(assessment)
    {
      var original := if s.id in marks then marks[s.id] else map[];
      var better := if s.id in improvement then improvement[s.id].GetOr(map[]) else map[];
      comparison := Some(Comparison(s, original, better, schema));
    }

    /** `handleOverrideConfirm`: the improvement scores replace the student's row, which is unlocked. */
    method OverrideConfirm()
      modifies this
      ensures old(comparison).None? ==> marks == old(marks) && editable == old(editable) && comparison == None
      ensures old(comparison).Some? ==>
                var c := old(comparison).value;
                marks == old(marks)[c.student.id := c.improvement]
                && editable == old(editable)[c.student.id := true]
                && comparison == None
      ensures students == old(students) && improvement == old(improvement) && meta == old(meta)
      ensures schema == old(schema) && courseId == old(courseId) && assessment == old(assessment)
    {
      if comparison.Some? {
        var c := comparison.value;
        marks := marks[c.student.id := c.improvement];
        editable := editable[c.student.id := true];
        comparison := None;
      }
    }

    /** `handleMarksChange`. */
    method MarksChange(sid: string, q: string, value: string)
      modifies this
      ensures marks == ChangeMark(schema, old(marks), sid, q, value)
      ensures editable == old(editable) && students == old(students) && improvement == old(improvement)
      ensures meta == old(meta) && schema == old(schema) && comparison == old(comparison)
      ensures courseId == old(courseId) && assessment == old(assessment)
      ensures WithinEntryLimits(schema, old(marks)) ==> WithinEntryLimits(schema, marks)
    {
      if WithinEntryLimits(schema, marks) {
        ChangeMarkKeepsLimits(schema, marks, sid, q, value);
      }
      marks := ChangeMark(schema, marks, sid, q, value);
    }

    /** `toggleEditRow`: locks an unlocked row and unlocks any other. */
    method ToggleEditRow(sid: string)
      modifies this
      ensures editable == old(editable)[sid := !(sid in old(editable) && old(editable)[sid])]
      ensures marks == old(marks) && students == old(students) && improvement == old(improvement)
      ensures meta == old(meta) && schema == old(schema) && comparison == old(comparison)
      ensures courseId == old(courseId) && assessment == old(assessment)
    {
      var was := sid in editable && editable[sid];
      editable := editable[sid := !was];
    }

    /** `calculateTotal`: the row's cells read as numbers and added up; no row totals 0. */
    method CalculateTotal(sid: string) returns (total: int)
      ensures total == if sid in marks then RowTotal(schema.questions, marks[sid]) else 0
    {
      if sid !in marks {
        return 0;
      }
      var row := marks[sid];
      var qs := schema.questions;
      total := 0;
      var i := 0;
      while i < |qs|
        invariant 0 <= i <= |qs|
        invariant total == RowTotal(qs[..i], row)
      {
        total := total + NumberOrZero(CellAt(row, qs[i].q));
        assert qs[..i + 1][..i] == qs[..i];
        i := i + 1;
      }
      assert qs[..i] == qs;
    }

    /** The requests a save sends: the writes, and the record ids deleted. */
    function SavePlan(): (seq<Write>, set<string>)
      reads this
    {
      (SaveWrites(courseId, assessment, Displayed(), marks, meta), SaveDeletes(schema.isImprovement, marks, meta))
    }

    /** The template file offered for download. */
    function DownloadTemplate(): Option<string>
      reads this
    {
      Template(schema, Displayed(), marks)
    }

    /** `handleBulkUpload` on the file's text: the grid afterwards, and the count of values stored. */
    method BulkUpload(text: string) returns (updatedCount: nat)
      modifies this
      ensures marks == Import(schema, students, old(marks), text).0
      ensures updatedCount == Import(schema, students, old(marks), text).1
      ensures editable == old(editable) && students == old(students) && improvement == old(improvement)
      ensures meta == old(meta) && schema == old(schema) && comparison == old(comparison)
      ensures courseId == old(courseId) && assessment == old(assessment)
    {
      var lines := Split(text, '\n');
      var rows := seq(|lines|, i requires 0 <= i < |lines| => Split(lines[i], ','));
      assert rows == CsvRows(text);
      rows := rows[1..];
      var newMarks, count := ImportAll(schema, students, marks, rows);
      updatedCount := count;
      marks := newMarks;
    }
  }

  /** `fetchedImpMarks`, filled record by record. */
  method LoadImprovementScores(records: seq<MarkRecord>) returns (fetched: map<string, Option<Row>>)
    ensures fetched == ImprovementScoresOf(Latest(records))
  {
    fetched := map[];
    ghost var seen: map<string, MarkRecord> := map[];
    var k := 0;
    while k < |records|
      invariant 0 <= k <= |records|
      invariant seen == Latest(records[..k])
      invariant fetched == ImprovementScoresOf(seen)
    {
      var r := records[k];
      ImprovementScoresOfUpdate(seen, r);
      LatestStep(records, k);
      fetched := fetched[r.studentId := r.scores];
      seen := seen[r.studentId := r];
      k := k + 1;
    }
    assert records[..k] == records;
  }

  lemma LatestStep(records: seq<MarkRecord>, k: nat)
    requires k < |records|
    ensures Latest(records[..k + 1]) == Latest(records[..k])[records[k].studentId := records[k]]
  {
    assert records[..k + 1][..k] == records[..k];
  }

  lemma ImprovementScoresOfUpdate(meta: map<string, MarkRecord>, r: MarkRecord)
    ensures ImprovementScoresOf(meta[r.studentId := r]) == ImprovementScoresOf(meta)[r.studentId := r.scores]
  {
    var a, b := ImprovementScoresOf(meta[r.studentId := r]), ImprovementScoresOf(meta)[r.studentId := r.scores];
    assert a.Keys == b.Keys;
    forall sid | sid in a
      ensures a[sid] == b[sid]
    {
    }
  }

  /** `initialMeta`, filled record by record; `initialMarks` before the roster pass is `ScoresOf` of it. */
  method LoadRecords(records: seq<MarkRecord>) returns (meta: map<string, MarkRecord>)
    ensures meta == Latest(records)
  {
    meta := map[];
    var i := 0;
    while i < |records|
      invariant 0 <= i <= |records|
      invariant meta == Latest(records[..i])
    {
      var r := records[i];
      LatestStep(records, i);
      meta := meta[r.studentId := r];
      i := i + 1;
    }
    assert records[..i] == records;
  }

  /** The roster pass of `handleLoadStudents`: empty, unlocked rows for students without a record. */
  method PadRoster(isImprovement: bool, meta: map<string, MarkRecord>, roster: seq<Student>)
    returns (marks: map<string, Row>, editable: map<string, bool>)
    ensures marks == InitialMarks(isImprovement, meta, roster)
    ensures editable == InitialEditable(isImprovement, meta, roster)
  {
    marks := ScoresOf(meta);
    editable := map[];
    var j := 0;
    assert roster[..0] == [];
    assert RosterIds(roster[..0]) == {};
    while j < |roster|
      invariant 0 <= j <= |roster|
      invariant marks == InitialMarks(isImprovement, meta, roster[..j])
      invariant editable == InitialEditable(isImprovement, meta, roster[..j])
    {
      var sid := roster[j].id;
      PadStep(isImprovement, meta, roster, j);
      if !isImprovement && sid !in marks {
        marks := marks[sid := map[]];
        editable := editable[sid := true];
      }
      j := j + 1;
    }
    assert roster[..j] == roster;
  }

  /** The upload's `forEach` over the lines after the header. */
  method ImportAll(s: Schema, students: seq<Student>, marks: map<string, Row>, rows: seq<seq<string>>)
    returns (newMarks: map<string, Row>, count: nat)
    ensures newMarks == ImportLines(s, students, marks, rows).0 && count == ImportLines(s, students, marks, rows).1
  {
    newMarks := marks;
    count := 0;
    var j := 0;
    while j < |rows|
      invariant 0 <= j <= |rows|
      invariant newMarks == ImportLines(s, students, marks, rows[..j]).0
      invariant count == ImportLines(s, students, marks, rows[..j]).1
    {
      assert rows[..j + 1][..j] == rows[..j];
      newMarks, count := ImportRow(s, students, newMarks, rows[j], count);
      j := j + 1;
    }
    assert rows[..j] == rows;
  }

  /** The body of that `forEach` for one line; `count` is the running count. */
  method ImportRow(s: Schema, students: seq<Student>, marks: map<string, Row>, row: seq<string>, count: nat)
    returns (newMarks: map<string, Row>, newCount: nat)
    ensures newMarks == ImportLine(s, students, marks, row).0
    ensures newCount == count + ImportLine(s, students, marks, row).1
  {
    newMarks, newCount := marks, count;
    if |row| < 3 {
      return;
    }
    var usn := Trim(row[0]);
    var found := FindByUsn(students, usn);
    if found.None? {
      return;
    }
    var st := found.value;
    if s.isImprovement && st.id !in marks {
      return;
    }
    var base: Row := if st.id in marks then marks[st.id] else map[];
    var cells, stored := StoreFields(base, s.questions, row);
    newMarks := marks[st.id := cells];
    newCount := count + stored;
  }

  /** The inner `forEach` over the columns: each parsed value not above its column's maximum is stored. */
  method StoreFields(base: Row, qs: seq<Question>, row: seq<string>) returns (cells: Row, stored: nat)
    ensures var vals := FieldValues(row, |qs|);
            cells == ImportCells(base, qs, vals, |qs|).0 && stored == ImportCells(base, qs, vals, |qs|).1
  {
    ghost var vals := FieldValues(row, |qs|);
    cells, stored := base, 0;
    var idx := 0;
    while idx < |qs|
      invariant 0 <= idx <= |qs|
      invariant cells == ImportCells(base, qs, vals, idx).0
      invariant stored == ImportCells(base, qs, vals, idx).1
    {
      var q := qs[idx];
      var val := FieldValue(row, idx);
      assert val == vals[idx];
      ImportCellsStep(base, qs, vals, idx);
      if val.Some? && val.value <= q.max {
        cells := cells[q.q := Num(val.value)];
        stored := stored + 1;
      }
      idx := idx + 1;
    }
  }

  /** The first pass of `handleUpdateStudentMapping`: selected students without a row get an empty, unlocked one. */
  method AddSelected(marks: map<string, Row>, editable: map<string, bool>, selected: set<string>)
    returns (newMarks: map<string, Row>, newEditable: map<string, bool>)
    ensures newMarks.Keys == marks.Keys + selected
    ensures forall sid :: sid in newMarks ==> newMarks[sid] == if sid in marks then marks[sid] else map[]
    ensures newEditable.Keys == editable.Keys + (selected - marks.Keys)
    ensures forall sid :: sid in newEditable ==>
              newEditable[sid] == if sid in selected && sid !in marks then true else editable[sid]
  {
    newMarks := marks;
    newEditable := editable;
    var todo := selected;
    ghost var done: set<string> := {};
    while todo != {}
      invariant todo <= selected && done == selected - todo
      invariant forall sid :: sid in newMarks <==> sid in marks || sid in done
      invariant forall sid :: sid in newMarks ==> newMarks[sid] == if sid in marks then marks[sid] else map[]
      invariant forall sid :: sid in newEditable <==> sid in editable || (sid in done && sid !in marks)
      invariant forall sid :: sid in newEditable ==>
                  newEditable[sid] == if sid in done && sid !in marks then true else editable[sid]
      decreases todo
    {
      var id :| id in todo;
      if id !in newMarks {
        newMarks := newMarks[id := map[]];
        newEditable := newEditable[id := true];
      }
      todo := todo - {id};
      done := done + {id};
    }
  }

  /** The second pass: every row whose student is not selected is dropped, with its lock state. */
  method DropUnselected(marks: map<string, Row>, editable: map<string, bool>, selected: set<string>)
    returns (newMarks: map<string, Row>, newEditable: map<string, bool>)
    ensures newMarks.Keys == marks.Keys * selected
    ensures forall sid :: sid in newMarks ==> newMarks[sid] == marks[sid]
    ensures newEditable.Keys == editable.Keys - (marks.Keys - selected)
    ensures forall sid :: sid in newEditable ==> newEditable[sid] == editable[sid]
  {
    newMarks := marks;
    newEditable := editable;
    var keys := marks.Keys;
    while keys != {}
      invariant keys <= marks.Keys
      invariant newMarks.Keys == marks.Keys - ((marks.Keys - keys) - selected)
      invariant forall sid :: sid in newMarks ==> newMarks[sid] == marks[sid]
      invariant newEditable.Keys == editable.Keys - ((marks.Keys - keys) - selected)
      invariant forall sid :: sid in newEditable ==> newEditable[sid] == editable[sid]
      decreases keys
    {
      var id :| id in keys;
      if id !in selected {
        newMarks := newMarks - {id};
        newEditable := newEditable - {id};
      }
      keys := keys - {id};
    }
  }

  /** One student of the roster pass. */
  lemma PadStep(isImprovement: bool, meta: map<string, MarkRecord>, roster: seq<Student>, j: nat)
    requires j < |roster|
    ensures var before := InitialMarks(isImprovement, meta, roster[..j]);
            var sid := roster[j].id;
            InitialMarks(isImprovement, meta, roster[..j + 1])
            == if !isImprovement && sid !in before then before[sid := map[]] else before
    ensures var before := InitialMarks(isImprovement, meta, roster[..j]);
            var sid := roster[j].id;
            InitialEditable(isImprovement, meta, roster[..j + 1])
            == if !isImprovement && sid !in before
               then InitialEditable(isImprovement, meta, roster[..j])[sid := true]
               else InitialEditable(isImprovement, meta, roster[..j])
  {
    RosterIdsStep(roster, j);
  }

  lemma RosterIdsStep(roster: seq<Student>, j: nat)
    requires j < |roster|
    ensures RosterIds(roster[..j + 1]) == RosterIds(roster[..j]) + {roster[j].id}
  {
    var a, b := roster[..j + 1], roster[..j];
    forall x | x in RosterIds(a)
      ensures x in RosterIds(b) + {roster[j].id}
    {
      var i :| 0 <= i < |a| && a[i].id == x;
      if i < j {
        assert b[i] == a[i];
      }
    }
    forall x | x in RosterIds(b) + {roster[j].id}
      ensures x in RosterIds(a)
    {
      if x == roster[j].id {
        assert a[j] == roster[j];
      } else {
        var i :| 0 <= i < |b| && b[i].id == x;
        assert a[i] == b[i];
      }
    }
  }

  /**
   * `handleLoadStudents`: nothing is loaded when no course or no assessment is
   * chosen or no tool bears the name; otherwise the grid is filled from the
   * roster and from what `fetch` returns for the assessment and for the
   * improvement test linked to it.
   */
  method LoadGrid(courseId: string, tools: seq<Tool>, name: string, roster: seq<Student>,
                  fetch: string -> seq<MarkRecord>) returns (g: MarksGrid?)
    ensures g == null <==> courseId == "" || name == "" || SchemaOf(tools, name).None?
    ensures g != null ==> fresh(g) && g.schema == SchemaOf(tools, name).value && g.students == roster
    ensures g != null ==> g.courseId == courseId && g.assessment == name && g.comparison == None
    ensures g != null ==>
              g.meta == Latest(fetch(name))
              && g.marks == InitialMarks(g.schema.isImprovement, Latest(fetch(name)), roster)
              && g.editable == InitialEditable(g.schema.isImprovement, Latest(fetch(name)), roster)
    ensures g != null ==> g.improvement == match LinkedImprovementTool(tools, name)
              case None => map[]
              case Some(t) => ImprovementScoresOf(Latest(fetch(t.name)))
  {
    if courseId == "" || name == "" {
      return null;
    }
    var schema := SchemaOf(tools, name);
    if schema.None? {
      return null;
    }
    var improvementRecords := match LinkedImprovementTool(tools, name)
      case None => []
      case Some(t) => fetch(t.name);
    g := new MarksGrid.Init(courseId, name, schema.value, roster, fetch(name), improvementRecords);
  }

  // ---------------------------------------------------------------------------
  // The student mapping dialog of an improvement test

  /** `handleToggle`. */
  function Toggled(selected: set<string>, id: string): (r: set<string>)
    ensures id in r <==> id !in selected
    ensures forall other :: other != id ==> (other in r <==> other in selected)
  {
    if id in selected then selected - {id} else selected + {id}
  }

  /** `handleSelectAll`: a selection as large as the roster is cleared, any other becomes the whole roster. */
  function AfterSelectAll(selected: set<string>, roster: seq<Student>): set<string> {
    if |selected| == |roster| then {} else RosterIds(roster)
  }

  /** With distinct ids, the roster has as many ids as students. */
  lemma {:induction false} RosterIdsCount(roster: seq<Student>)
    requires forall i, j :: 0 <= i < |roster| && 0 <= j < |roster| && roster[i].id == roster[j].id ==> i == j
    ensures |RosterIds(roster)| == |roster|
    decreases |roster|
  {
    if |roster| > 0 {
      var n := |roster| - 1;
      var init := roster[..n];
      RosterIdsCount(init);
      RosterIdsStep(roster, n);
      assert roster[..n + 1] == roster;
    }
  }

  lemma {:induction false} SubsetSize(a: set<string>, b: set<string>)
    requires a <= b
    ensures |a| <= |b|
    decreases |b|
  {
    if b != {} {
      var y :| y in b;
      SubsetSize(a - {y}, b - {y});
    }
  }

  lemma SubsetOfSameSize(a: set<string>, b: set<string>)
    requires a <= b && |a| == |b|
    ensures a == b
  {
    if a != b {
      var x :| x in b && x !in a;
      SubsetSize(a, b - {x});
    }
  }

  /**
   * When the roster's ids are distinct and the selection holds only rostered
   * students, the size test of "Select All" means exactly that everyone is selected.
   */
  lemma SelectAllTestMeansEveryone(selected: set<string>, roster: seq<Student>)
    requires forall i, j :: 0 <= i < |roster| && 0 <= j < |roster| && roster[i].id == roster[j].id ==> i == j
    requires selected <= RosterIds(roster)
    ensures |selected| == |roster| <==> selected == RosterIds(roster)
  {
    RosterIdsCount(roster);
    if |selected| == |roster| {
      SubsetOfSameSize(selected, RosterIds(roster));
    }
  }

  /**
   * The dialog opens with the ids of the grid's rows, which may include a
   * student no longer on the roster; the size test then reads a partial
   * selection as complete and "Select All" clears it.
   */
  lemma StaleIdDefeatsSelectAll()
    ensures var roster := [Student("s1", "U1", "A"), Student("s2", "U2", "B")];
            var selected := {"s1", "gone"};
            "s2" !in selected && AfterSelectAll(selected, roster) == {}
  {
    var selected := {"s1", "gone"};
    assert |selected| == 2;
  }

  /** An open mapping dialog: the roster it lists and the ids ticked so far. */
  class StudentSelection {
    var roster: seq<Student>
    var selected: set<string>

    /** The dialog opens with the ids of the students that have a row. */
    constructor Open(roster: seq<Student>, rowIds: set<string>)
      ensures this.roster == roster && selected == rowIds
    {
      this.roster := roster;
      selected := rowIds;
    }

    method Toggle(id: string)
      modifies this
      ensures selected == Toggled(old(selected), id)
      ensures roster == old(roster)
    {
      if id in selected {
        selected := selected - {id};
      } else {
        selected := selected + {id};
      }
    }

    method SelectAll()
      modifies this
      ensures selected == AfterSelectAll(old(selected), roster)
      ensures roster == old(roster)
    {
      if |selected| == |roster| {
        selected := {};
      } else {
        selected := set i | 0 <= i < |roster| :: roster[i].id;
      }
    }
  }
}
