# Outcome-based assessment: tool configuration, marks entry and the student report

This project models the logic of three faculty screens of an outcome-based
education (OBE) front end and proves properties of it.

- **Assessment-tool configuration** (module `Configuration`). A course draft
  holds a list of course outcomes (COs) and a list of assessment tools. Each
  tool has a type, sub-type, custom name, improvement-test link, maximum
  marks, weightage and a CO distribution. A tool's name is derived from four
  of those fields by a fixed priority rule. When a course is loaded, a
  heuristic parser reads the fields back from the stored name. The class
  `CourseDraft` holds the two lists, and its methods are the page's handlers:
  - adding and removing COs (removal cascades into every distribution);
  - editing a CO;
  - adding and removing tools;
  - editing a tool's fields, including an improvement-test link that copies
    another tool's marks configuration;
  - editing one CO's marks in a tool;
  - the validation that decides whether saving may proceed.
- **Marks-entry grid** (module `MarksEntry`).
  - Each tool gives a question layout: one `External` column, one `Score`
    column, or one column per CO.
  - The class `MarksGrid` holds the loaded marks, the editable flags, the
    improvement-test scores and the comparison dialog. Its methods cover:
    - mark edits clamped to each question's maximum;
    - row totals;
    - improvement-test row mapping;
    - the "override with improvement marks" action;
    - CSV template building and CSV import.
  - The save plan is which students get a PATCH, which a POST with a
    synthesised id, and which improvement rows are deleted.
  - The class `StudentSelection` is the student-mapping dialog, with its
    toggle and select-all.
- **Individual report** (module `IndividualReport`). It de-duplicates tools
  by name, keeping the first tool of each name. It scores each remaining
  non-improvement tool from the student's first record of that assessment,
  reading the keys its type selects. Improvement scores are looked up and
  shown beside each row. The report sums the obtained and maximum marks.

Two further modules supply shared pieces:

- **`Js`** models the JavaScript built-ins the screens rely on:
  - `parseInt` and `Number` on strings;
  - `String.prototype.replace` with a string pattern (first occurrence only);
  - the regular expression `\((.*?)\)`;
  - `split`, `join` and `trim`;
  - `Array.prototype.filter`.
- **`Distribution`** models a tool's `coDistribution`, a JavaScript object.
  Its keys that are not array indices keep insertion order, and every CO id
  the page creates (`CO1`, `CO2`, ...) is such a key. It is a sequence of
  (CO id, marks) pairs in insertion order.

A score cell is `Num(n)` when the page stored a number and `Text(t)` when it
holds a string. The cell's type matters: `calculateTotal` uses `Number`, while
the comparison dialog and the report use `parseInt`. These read `"12abc"`
differently (`MarksEntry.TotalsDisagreeOnTrailingText`).

Calls to the server are parameters:

- `MarksEntry.LoadGrid` receives the roster, and a function from an
  assessment name to its records in place of `/marks?...`.
- `IndividualReport.ReportData` receives the course's tools and the
  student's records.

Tool ids are parameters in place of `Date.now()`. `window.confirm` is taken
as granted.

Where the handlers' behaviour is surprising, the model keeps it and states
it as a lemma:

- A bare `"Activity"` name does not survive a reload.
- A custom name `"Internal Assessment Other"` is lost on reload.
- A new CO's id can repeat an existing one after a deletion.
- A negative mark passes the CSV import.
- The selection dialog's select-all compares counts, so one stale id defeats
  it.
- The grid picks columns by type or name, but the report picks keys by type
  alone. So an Internal Assessment named `"Activity Quiz"` is entered under
  `Score` but reported as 0.
- With duplicate records, the grid loads the last one and the report the
  first.

On deleting a mark from a row that does not exist: `handleMarksChange` with
an empty value then throws when it deletes from an undefined row. The model
leaves the marks unchanged in that case, as the state update never happens.

## Model

| member | source | states |
|---|---|---|
| Js.ReplaceFirstOfPrefix | src/app/views/marks-management/Faculty/FacultyConfigurationPage.jsx:75-85 | on a name that starts with the pattern, replacing the first occurrence strips exactly that prefix |
| Js.ReplaceFirst | src/app/views/marks-management/Faculty/FacultyConfigurationPage.jsx:75-85 | definition of `replace` with a string pattern (first occurrence only); its effect on a name starting with the pattern is stated by Js.ReplaceFirstOfPrefix |
| Js.CloseParenAfter | src/app/views/marks-management/Faculty/FacultyConfigurationPage.jsx:71 | the lazy group of `\((.*?)\)` ends at the first `)` after the `(`, provided the text between has no `)` or line terminator |
| Js.ParenGroup | src/app/views/marks-management/Faculty/FacultyConfigurationPage.jsx:71 | definition of the first group of `match(/\((.*?)\)/)`; where the group starts and ends is stated by Js.ParenGroupSkips and Js.CloseParenAfter |
| Js.ParenGroupSkips | src/app/views/marks-management/Faculty/FacultyConfigurationPage.jsx:71 | the regular expression's match starts at the first `(`: skipping text without `(` does not change the group |
| Js.SplitJoin | src/app/views/marks-management/Faculty/MarksEntryPage.jsx:503-521 | splitting a joined list on its separator gives the list back when no part contains the separator |
| Js.Split | src/app/views/marks-management/Faculty/MarksEntryPage.jsx:521 | `split` yields at least one part; the parts hold no separator and joined with it give back the text |
| Js.Join | src/app/views/marks-management/Faculty/MarksEntryPage.jsx:503-505 | definition of `join` with a one-character separator; Js.Split and Js.SplitJoin state that splitting inverts it |
| Js.ParseIntOfIntToString | src/app/views/marks-management/Faculty/MarksEntryPage.jsx:128 | `parseInt(String(n)) === n` for every integer (with line 278) |
| Js.ParseInt | src/app/views/marks-management/Faculty/MarksEntryPage.jsx:533 | definition of `parseInt` on decimal text: leading whitespace, an optional sign, then the longest digit run, NaN when there is none; Js.ParseIntOfIntToString states that it reads back printed integers |
| Js.NumberOf | src/app/views/marks-management/Faculty/MarksEntryPage.jsx:432 | definition of `Number` on integer text: the whole trimmed text must be a signed digit run, an empty text reads as 0; MarksEntry.TrailingTextReadings contrasts it with `parseInt` |
| Js.IntToStringChars | src/app/views/marks-management/Faculty/MarksEntryPage.jsx:503 | a printed integer contains no character other than digits and `-` (so no comma or newline) |
| Js.Filter | src/app/views/marks-management/Faculty/FacultyConfigurationPage.jsx:114-156 | `filter` keeps exactly the elements satisfying the predicate, in order, each as many times as it occurs in the input |
| Js.FilterCountsStep | src/app/views/marks-management/Faculty/FacultyConfigurationPage.jsx:114-156 | one more element at the head is counted once more in the result exactly when it passes the predicate |
| Js.FilterStep | src/app/views/marks-management/Faculty/FacultyConfigurationPage.jsx:114-156 | keeping or dropping the head preserves membership, the length bound and order |
| Js.TrimStart | src/app/views/marks-management/Faculty/MarksEntryPage.jsx:527 | the result is a suffix that does not start with whitespace, everything removed before it is whitespace, and it equals the input when that does not start with whitespace |
| Js.TrimEnd | src/app/views/marks-management/Faculty/MarksEntryPage.jsx:527 | the result is a prefix that does not end with whitespace, everything removed after it is whitespace, and it equals the input when that does not end with whitespace |
| Js.Trim | src/app/views/marks-management/Faculty/MarksEntryPage.jsx:527 | definition of `trim` as TrimEnd after TrimStart; what each removes is stated by Js.TrimStart and Js.TrimEnd |
| Js.RemoveWhitespace | src/app/views/marks-management/Faculty/MarksEntryPage.jsx:461 | `replace(/\s/g, '')` keeps every non-whitespace character and leaves no whitespace |
| Js.RemoveWhitespaceIsFilter | src/app/views/marks-management/Faculty/MarksEntryPage.jsx:461 | removing whitespace is filtering out the whitespace characters: the others stay, in order and with their multiplicity |
| Distribution.Lookup | src/app/views/marks-management/Faculty/FacultyConfigurationPage.jsx:205-218 | a key is found iff it is among the object's keys, with its stored value |
| Distribution.Assign | src/app/views/marks-management/Faculty/FacultyConfigurationPage.jsx:211 | `d[k] = v` sets `k` to `v` and leaves every other key's value alone |
| Distribution.AssignOrder | src/app/views/marks-management/Faculty/FacultyConfigurationPage.jsx:211 | an existing key keeps its place; a new key is appended last (insertion order, which JavaScript keeps for keys that are not array indices; see "## Left out") |
| Distribution.AssignKeepsUnique | src/app/views/marks-management/Faculty/FacultyConfigurationPage.jsx:211 | assignment into a distribution with unique keys never duplicates a key |
| Distribution.Delete | src/app/views/marks-management/Faculty/FacultyConfigurationPage.jsx:116-119 | `delete d[k]` removes `k` and only `k`; the other entries keep their values and order (with line 213) |
| Configuration.LoadTool | src/app/views/marks-management/Faculty/FacultyConfigurationPage.jsx:58-93 | a stored tool is loaded with its type, sub-type, custom name and link parsed from its name, everything else kept |
| Configuration.ParseName | src/app/views/marks-management/Faculty/FacultyConfigurationPage.jsx:58-93 | definition of the heuristic parse of a stored name into type, sub-type, custom name and link; the round-trips are stated by the Configuration.RoundTrip* lemmas and their failures by Configuration.BareActivityDoesNotRoundTrip and Configuration.OtherSubTypeNameDoesNotRoundTrip |
| Configuration.DeriveName | src/app/views/marks-management/Faculty/FacultyConfigurationPage.jsx:185-199 | definition of the name-priority rule (Semester End Exam, Activity, Improvement Test, custom name for sub-type Other, else type and sub-type); the same lemmas state that it inverts ParseName |
| Configuration.RoundTripSemesterEndExam | src/app/views/marks-management/Faculty/FacultyConfigurationPage.jsx:58-93 | "Semester End Exam" parses to fields that derive the same name (with lines 185-199) |
| Configuration.RoundTripNumbered | src/app/views/marks-management/Faculty/FacultyConfigurationPage.jsx:77-90 | "Internal Assessment k" and "Assignment k", k in 1..3, survive parse and derive (with lines 198-199) |
| Configuration.RoundTripActivity | src/app/views/marks-management/Faculty/FacultyConfigurationPage.jsx:73-76 | "Activity - c" survives parse and derive for every non-empty c (with lines 187-189) |
| Configuration.RoundTripImprovement | src/app/views/marks-management/Faculty/FacultyConfigurationPage.jsx:69-72 | "Improvement Test (X)" survives parse and derive when X has no `)` or line break (with lines 190-193) |
| Configuration.RoundTripCustom | src/app/views/marks-management/Faculty/FacultyConfigurationPage.jsx:58-93 | a custom name matching none of the numbered or prefixed forms survives parse and derive (with lines 194-197) |
| Configuration.BareActivityDoesNotRoundTrip | src/app/views/marks-management/Faculty/FacultyConfigurationPage.jsx:73-76 | a bare "Activity" name reloads with custom name "Activity" and re-derives as "Activity - Activity" (with lines 187-189) |
| Configuration.OtherSubTypeNameDoesNotRoundTrip | src/app/views/marks-management/Faculty/FacultyConfigurationPage.jsx:77-83 | the custom name "Internal Assessment Other" reloads as sub-type Other with an empty custom name, deriving "" (with lines 194-197) |
| Configuration.LoadedToolConsistent | src/app/views/marks-management/Faculty/FacultyConfigurationPage.jsx:58-93 | a loaded tool whose name round-trips has the name its fields derive (with lines 185-199) |
| Configuration.IndexOfName | src/app/views/marks-management/Faculty/FacultyConfigurationPage.jsx:172 | `find` by name: the first tool bearing the name, or none when no tool bears it |
| Configuration.ImprovementTargets | src/app/views/marks-management/Faculty/FacultyConfigurationPage.jsx:155-160 | exactly the Internal Assessment tools other than the current one, in list order, each as many times as it occurs in the list |
| Configuration.Edited | src/app/views/marks-management/Faculty/FacultyConfigurationPage.jsx:163-203 | the edited field is set; a name-field edit recomputes the name by the priority rule, other edits keep it; linking to an existing tool copies its max marks, weightage and distribution, and otherwise (including linking to a name no tool has) those stay; the distribution is emptied only when the type becomes Semester End Exam or Activity |
| Configuration.WithCoMarks | src/app/views/marks-management/Faculty/FacultyConfigurationPage.jsx:205-218 | a positive parsed value is stored, anything else deletes the key; other COs are untouched; all-positive and unique keys are preserved |
| Configuration.NoErrorsIff | src/app/views/marks-management/Faculty/FacultyConfigurationPage.jsx:224-240 | validation yields no error iff every CO-mapped tool is balanced and every name is complete (with lines 457-458) |
| Configuration.UnbalancedToolReported | src/app/views/marks-management/Faculty/FacultyConfigurationPage.jsx:226-232 | each unbalanced tool's allocation message is among the errors |
| Configuration.UnbalancedExample | src/app/views/marks-management/Faculty/FacultyConfigurationPage.jsx:226-232 | a tool IA1 with 25 of 30 marks allocated yields exactly "IA1: Allocated 25 marks, but Max Marks is 30" |
| Configuration.NewCoIdCanRepeat | src/app/views/marks-management/Faculty/FacultyConfigurationPage.jsx:102-110 | the new CO id counts the list, so after deleting CO1 of two the next id repeats CO2 |
| Configuration.NewTool | src/app/views/marks-management/Faculty/FacultyConfigurationPage.jsx:131-147 | a new tool has the given id, an empty distribution and a name consistent with its fields |
| Configuration.WithoutCo | src/app/views/marks-management/Faculty/FacultyConfigurationPage.jsx:114 | exactly the COs whose id differs, in order, each as many times as it occurs in the list |
| Configuration.WithoutTool | src/app/views/marks-management/Faculty/FacultyConfigurationPage.jsx:151 | exactly the tools whose id differs, in order, each as many times as it occurs in the list |
| Configuration.CourseDraft.Load | src/app/views/marks-management/Faculty/FacultyConfigurationPage.jsx:54-96 | the draft holds the stored COs and every stored tool as loaded |
| Configuration.CourseDraft.AddCo | src/app/views/marks-management/Faculty/FacultyConfigurationPage.jsx:102-110 | one new CO is appended; tools unchanged |
| Configuration.CourseDraft.RemoveCo | src/app/views/marks-management/Faculty/FacultyConfigurationPage.jsx:112-122 | every CO with the id is removed and its key deleted from every tool's distribution, nothing else changing; no tool keeps the key |
| Configuration.CourseDraft.UpdateCo | src/app/views/marks-management/Faculty/FacultyConfigurationPage.jsx:124-128 | only the CO at the index gets the edited field |
| Configuration.CourseDraft.AddTool | src/app/views/marks-management/Faculty/FacultyConfigurationPage.jsx:131-147 | a new tool is appended; name consistency of the list is preserved |
| Configuration.CourseDraft.RemoveTool | src/app/views/marks-management/Faculty/FacultyConfigurationPage.jsx:149-153 | the tools with that id are removed, the rest kept in order |
| Configuration.CourseDraft.UpdateToolMeta | src/app/views/marks-management/Faculty/FacultyConfigurationPage.jsx:163-203 | only the tool with the id is edited; name consistency is preserved |
| Configuration.CourseDraft.UpdateToolCoDistribution | src/app/views/marks-management/Faculty/FacultyConfigurationPage.jsx:205-218 | only the tool with the id has its CO marks changed; name consistency is preserved |
| Configuration.CourseDraft.Validate | src/app/views/marks-management/Faculty/FacultyConfigurationPage.jsx:220-240 | the errors pushed by the loop, and saving proceeds iff every tool is balanced and named |
| MarksEntry.CoQuestions | src/app/views/marks-management/Faculty/MarksEntryPage.jsx:273-279 | one question per CO entry in order, its max the entry's marks |
| MarksEntry.SchemaOf | src/app/views/marks-management/Faculty/MarksEntryPage.jsx:254-283 | a layout exists iff some tool bears the chosen name, and it is the layout of the first such tool |
| MarksEntry.SchemaForTool | src/app/views/marks-management/Faculty/MarksEntryPage.jsx:258-283 | definition of `currentAssessmentConfig` for one tool; its layout per kind of tool is stated by MarksEntry.SchemaForToolShape |
| MarksEntry.SchemaForToolShape | src/app/views/marks-management/Faculty/MarksEntryPage.jsx:254-283 | Semester End Exam gives one `External` question of max maxMarks, or 100 when that is unset; an activity one `Score` question; otherwise one question per CO; total is `maxMarks` |
| MarksEntry.SumMaxCo | src/app/views/marks-management/Faculty/MarksEntryPage.jsx:273-279 | the CO columns' maxima add up to the distribution's total |
| MarksEntry.ValidatedToolColumnsSumToTotal | src/app/views/marks-management/Faculty/MarksEntryPage.jsx:254-283 | for a tool that passes validation (and a set exam maximum) the columns' maxima add up to the total |
| MarksEntry.UnsetSeeMarksDefaultTo100 | src/app/views/marks-management/Faculty/MarksEntryPage.jsx:262-271 | an exam with no maximum gets a 100-mark column while its total stays 0 |
| MarksEntry.TotalsAgreeOnNumbers | src/app/views/marks-management/Faculty/MarksEntryPage.jsx:127-129 | on rows of numbers the grid's and the comparison dialog's totals agree (with lines 426-436) |
| MarksEntry.RowTotal | src/app/views/marks-management/Faculty/MarksEntryPage.jsx:426-436 | definition of `calculateTotal`: `Number` of each question's cell, NaN counted as 0; MarksEntry.TotalsAgreeOnNumbers and MarksEntry.RowTotalIgnoresOtherKeys state its properties |
| MarksEntry.ComparisonTotal | src/app/views/marks-management/Faculty/MarksEntryPage.jsx:127-129 | definition of the comparison dialog's `calcTotal`: `parseInt` of each question's cell, NaN counted as 0; MarksEntry.TotalsAgreeOnNumbers and MarksEntry.TotalsDisagreeOnTrailingText compare it with the grid total |
| MarksEntry.TotalsDisagreeOnTrailingText | src/app/views/marks-management/Faculty/MarksEntryPage.jsx:127-129 | on "12abc" the grid totals 0 and the dialog totals 12 (with lines 426-436) |
| MarksEntry.RowTotalIgnoresOtherKeys | src/app/views/marks-management/Faculty/MarksEntryPage.jsx:426-436 | a key that is not a question does not affect the total |
| MarksEntry.FirstQuestion | src/app/views/marks-management/Faculty/MarksEntryPage.jsx:411 | the first question with the identifier, or none |
| MarksEntry.Clamp | src/app/views/marks-management/Faculty/MarksEntryPage.jsx:418 | the result is within 0..max: the value itself when already within, max when above a non-negative max, 0 when negative or when max is negative |
| MarksEntry.ChangeMark | src/app/views/marks-management/Faculty/MarksEntryPage.jsx:409-424 | "" deletes the key from an existing row; a non-number changes nothing; a number is stored clamped to the question's max, or the total when that is absent or 0; no other student or question changes |
| MarksEntry.ChangeMarkKeepsLimits | src/app/views/marks-management/Faculty/MarksEntryPage.jsx:409-424 | mark edits keep every stored number within 0 and its entry limit |
| MarksEntry.Latest | src/app/views/marks-management/Faculty/MarksEntryPage.jsx:326-329 | every record's student gets an entry, and each entry is one of that student's records |
| MarksEntry.LatestKeepsLast | src/app/views/marks-management/Faculty/MarksEntryPage.jsx:326-329 | a student's last record is the one kept |
| MarksEntry.LatestStep | src/app/views/marks-management/Faculty/MarksEntryPage.jsx:326-329 | taking one more record overwrites only that record's student entry |
| MarksEntry.LoadedRows | src/app/views/marks-management/Faculty/MarksEntryPage.jsx:323-343 | a normal assessment gives every student a row and new rows are editable; an improvement test has rows only for students with records |
| MarksEntry.LinkedImprovementTool | src/app/views/marks-management/Faculty/MarksEntryPage.jsx:310-312 | the first improvement test linked to the assessment (any earlier tool is not one), or none when no tool is |
| MarksEntry.Shown | src/app/views/marks-management/Faculty/MarksEntryPage.jsx:404-407 | all students for a normal assessment; for an improvement test exactly those with a row, in roster order, each as often as in the roster |
| MarksEntry.MarksGrid.Displayed | src/app/views/marks-management/Faculty/MarksEntryPage.jsx:404-407 | definition of `displayedStudents` as Shown over the grid's roster and rows |
| MarksEntry.WithRows | src/app/views/marks-management/Faculty/MarksEntryPage.jsx:404-407 | exactly the students that have a row, in roster order, each as often as in the roster |
| MarksEntry.PostIdInjective | src/app/views/marks-management/Faculty/MarksEntryPage.jsx:461 | synthesised record ids of two students differ |
| MarksEntry.SaveWrites | src/app/views/marks-management/Faculty/MarksEntryPage.jsx:445-466 | one write per shown student with a row, in display order: the k-th write is the PATCH of the k-th such student's record, or a POST of a new one when none was loaded; every write is one of those |
| MarksEntry.SaveDeletes | src/app/views/marks-management/Faculty/MarksEntryPage.jsx:468-478 | exactly the records of unmapped students are deleted, and only on an improvement test |
| MarksEntry.MarksGrid.SavePlan | src/app/views/marks-management/Faculty/MarksEntryPage.jsx:442-477 | definition of the requests `handleSaveChanges` sends: the SaveWrites of the displayed students and the SaveDeletes of the grid; MarksEntry.NoRecordPatchedAndDeleted states that they never clash |
| MarksEntry.NoRecordPatchedAndDeleted | src/app/views/marks-management/Faculty/MarksEntryPage.jsx:445-478 | no record is both patched and deleted by one save |
| MarksEntry.CellText | src/app/views/marks-management/Faculty/MarksEntryPage.jsx:500-502 | an absent or 0 mark exports as an empty cell; any other number exports as text that parses back to it |
| MarksEntry.StudentFields | src/app/views/marks-management/Faculty/MarksEntryPage.jsx:498-503 | a student's line holds USN, name, then one cell per question |
| MarksEntry.TemplateLines | src/app/views/marks-management/Faculty/MarksEntryPage.jsx:493-505 | a header line then one line per shown student |
| MarksEntry.Template | src/app/views/marks-management/Faculty/MarksEntryPage.jsx:493-505 | no template iff no student is shown |
| MarksEntry.MarksGrid.DownloadTemplate | src/app/views/marks-management/Faculty/MarksEntryPage.jsx:491-505 | definition of `handleDownloadTemplate`'s file as the Template of the displayed students; MarksEntry.TemplateImportRoundTrip states that uploading it changes nothing |
| MarksEntry.FindByUsn | src/app/views/marks-management/Faculty/MarksEntryPage.jsx:528 | a student with the USN, or none when no student has it (which one: MarksEntry.FindByUsnFirst) |
| MarksEntry.FindByUsnFirst | src/app/views/marks-management/Faculty/MarksEntryPage.jsx:528 | `find` returns the first student with the USN: the one at index i when every earlier student has another USN |
| MarksEntry.ImportCellsValues | src/app/views/marks-management/Faculty/MarksEntryPage.jsx:532-538 | a changed cell holds the parsed value of its column's field, and that value is not above the column's maximum |
| MarksEntry.ImportCells | src/app/views/marks-management/Faculty/MarksEntryPage.jsx:532-538 | the per-question loop of `handleBulkUpload` on one row stores at most one cell per question read; what it stores is stated by MarksEntry.ImportCellsKeys, MarksEntry.ImportCellsValues and MarksEntry.ImportCellsStep |
| MarksEntry.ImportCellsKeys | src/app/views/marks-management/Faculty/MarksEntryPage.jsx:532-538 | import keeps every existing key and adds only question keys |
| MarksEntry.ImportCellsStep | src/app/views/marks-management/Faculty/MarksEntryPage.jsx:532-538 | one more column stores its value and counts it exactly when the value is a number not above the maximum, and otherwise changes nothing |
| MarksEntry.FieldValues | src/app/views/marks-management/Faculty/MarksEntryPage.jsx:533-534 | one parsed value per column, each read from the field two places after the column's index (missing fields read as nothing) |
| MarksEntry.ImportLineScope | src/app/views/marks-management/Faculty/MarksEntryPage.jsx:525-539 | one CSV line changes at most one student's row: the one with the trimmed USN |
| MarksEntry.ImportLine | src/app/views/marks-management/Faculty/MarksEntryPage.jsx:525-539 | definition of one line of `handleBulkUpload`: skipped when short, unknown or unmapped in an improvement test; MarksEntry.ImportLineScope and MarksEntry.ImportLineSame state its effect |
| MarksEntry.ImportLinesKeepRows | src/app/views/marks-management/Faculty/MarksEntryPage.jsx:521-540 | no row is lost; on an improvement test no row is created |
| MarksEntry.ImportLines | src/app/views/marks-management/Faculty/MarksEntryPage.jsx:524-540 | definition of the line loop of `handleBulkUpload`, summing the counts; MarksEntry.ImportLinesKeepRows states that no row is lost |
| MarksEntry.Import | src/app/views/marks-management/Faculty/MarksEntryPage.jsx:519-541 | definition of `handleBulkUpload` on the text: split into rows, drop the header, import the rest; MarksEntry.TemplateImportRoundTrip states its round-trip with the template |
| MarksEntry.CsvRows | src/app/views/marks-management/Faculty/MarksEntryPage.jsx:521 | at least one row; the rows, each joined with commas and then joined with line breaks, give back the text, and no field holds a comma |
| MarksEntry.ImportStoresNegativeMark | src/app/views/marks-management/Faculty/MarksEntryPage.jsx:533-536 | a field holding any negative number is stored as that number, since only the upper bound is checked |
| MarksEntry.ImportOneField | src/app/views/marks-management/Faculty/MarksEntryPage.jsx:533-536 | in a one-column test, a known student's line whose field parses to a number not above the maximum leaves exactly that number in the student's new row |
| MarksEntry.StudentLineSplits | src/app/views/marks-management/Faculty/MarksEntryPage.jsx:498-521 | a student's exported line splits back into its fields |
| MarksEntry.TemplateRows | src/app/views/marks-management/Faculty/MarksEntryPage.jsx:505-521 | the exported text splits into the header and each student's fields |
| MarksEntry.ImportCellsSame | src/app/views/marks-management/Faculty/MarksEntryPage.jsx:532-538 | storing values that each repeat the row's own number in that column leaves the row unchanged |
| MarksEntry.ImportLineSame | src/app/views/marks-management/Faculty/MarksEntryPage.jsx:525-539 | importing a student's own exported line leaves the marks unchanged |
| MarksEntry.TemplateImportRoundTrip | src/app/views/marks-management/Faculty/MarksEntryPage.jsx:493-540 | import of the downloaded template leaves every mark and row unchanged, provided USNs are unique and trimmed, USNs and names hold no comma or line break, no column id holds a line break, and every shown student has a row of numbers |
| MarksEntry.MarksGrid.Init | src/app/views/marks-management/Faculty/MarksEntryPage.jsx:302-350 | the grid holds the roster, the latest record per student, the initial rows and editable flags, and the linked improvement scores |
| MarksEntry.LoadGrid | src/app/views/marks-management/Faculty/MarksEntryPage.jsx:298-356 | nothing is loaded without a course, an assessment or its layout; otherwise a new grid for that course and assessment, with no comparison open, loaded from the fetched records and the linked improvement test's records |
| MarksEntry.LoadRecords | src/app/views/marks-management/Faculty/MarksEntryPage.jsx:326-329 | the loop's records map is the latest record per student |
| MarksEntry.LoadImprovementScores | src/app/views/marks-management/Faculty/MarksEntryPage.jsx:315-320 | each student's scores from their latest improvement record |
| MarksEntry.ImprovementScoresOfUpdate | src/app/views/marks-management/Faculty/MarksEntryPage.jsx:315-320 | replacing one student's latest record replaces only that student's scores |
| MarksEntry.PadRoster | src/app/views/marks-management/Faculty/MarksEntryPage.jsx:323-343 | the loop builds the initial rows and editable flags |
| MarksEntry.MarksGrid.UpdateStudentMapping | src/app/views/marks-management/Faculty/MarksEntryPage.jsx:360-381 | the rows become exactly the selected ids; new rows are empty and editable; kept rows unchanged; removed rows lose their flag |
| MarksEntry.AddSelected | src/app/views/marks-management/Faculty/MarksEntryPage.jsx:364-369 | each selected id without a row gets an empty, editable row |
| MarksEntry.DropUnselected | src/app/views/marks-management/Faculty/MarksEntryPage.jsx:371-376 | rows and flags of unselected ids are deleted, the rest kept |
| MarksEntry.MarksGrid.OpenComparison | src/app/views/marks-management/Faculty/MarksEntryPage.jsx:383-390 | the dialog shows the student's row and improvement scores, empty when absent |
| MarksEntry.MarksGrid.OverrideConfirm | src/app/views/marks-management/Faculty/MarksEntryPage.jsx:392-402 | without an open dialog nothing changes; otherwise that student's row becomes the improvement scores and is editable, the dialog closes, other rows untouched |
| MarksEntry.MarksGrid.MarksChange | src/app/views/marks-management/Faculty/MarksEntryPage.jsx:409-424 | the marks become the changed marks, nothing else changes, and entry limits are kept |
| MarksEntry.MarksGrid.ToggleEditRow | src/app/views/marks-management/Faculty/MarksEntryPage.jsx:438-440 | only that student's flag flips (an absent flag counts as false) |
| MarksEntry.MarksGrid.CalculateTotal | src/app/views/marks-management/Faculty/MarksEntryPage.jsx:426-436 | the sum over the layout's questions of the row's numeric values; 0 for a student without a row |
| MarksEntry.MarksGrid.BulkUpload | src/app/views/marks-management/Faculty/MarksEntryPage.jsx:517-545 | marks and count are those of importing the text; nothing else changes |
| MarksEntry.ImportAll | src/app/views/marks-management/Faculty/MarksEntryPage.jsx:524-540 | the loop over rows computes the import |
| MarksEntry.ImportRow | src/app/views/marks-management/Faculty/MarksEntryPage.jsx:525-539 | one row's update and stored-cell count |
| MarksEntry.StoreFields | src/app/views/marks-management/Faculty/MarksEntryPage.jsx:532-538 | the per-question loop computes the row's cells and count |
| MarksEntry.Toggled | src/app/views/marks-management/Faculty/MarksEntryPage.jsx:19-27 | the id's membership flips; no other id changes |
| MarksEntry.SelectAllTestMeansEveryone | src/app/views/marks-management/Faculty/MarksEntryPage.jsx:29-35 | for a selection drawn from a roster of distinct ids, the size test holds iff everyone is selected |
| MarksEntry.StaleIdDefeatsSelectAll | src/app/views/marks-management/Faculty/MarksEntryPage.jsx:29-35 | one stale id in the selection makes select-all clear it although a rostered student is missing |
| MarksEntry.StudentSelection.Open | src/app/views/marks-management/Faculty/MarksEntryPage.jsx:9-15 | the dialog opens with the grid's row ids selected |
| MarksEntry.StudentSelection.Toggle | src/app/views/marks-management/Faculty/MarksEntryPage.jsx:19-27 | the selection becomes the toggled set |
| MarksEntry.StudentSelection.SelectAll | src/app/views/marks-management/Faculty/MarksEntryPage.jsx:29-35 | the selection is cleared when its size equals the roster's, else becomes every rostered id |
| IndividualReport.FirstOfEachNameProperties | src/app/views/marks-management/Faculty/StudentIndividualReportPage.jsx:78-83 | de-duplication keeps, in order, the first tool of each name: same names, pairwise distinct, each kept tool the first of its name |
| IndividualReport.FirstOfEachNameFromKeepsFirst | src/app/views/marks-management/Faculty/StudentIndividualReportPage.jsx:78-83 | each kept tool is the first tool bearing its name |
| IndividualReport.UniqueTools | src/app/views/marks-management/Faculty/StudentIndividualReportPage.jsx:78-83 | the loop with the seen-set computes the first tool of each name |
| IndividualReport.PreciseScoreIgnoresOtherKeys | src/app/views/marks-management/Faculty/StudentIndividualReportPage.jsx:86-103 | a score stored under a key the tool's type does not select never changes the score |
| IndividualReport.PreciseScore | src/app/views/marks-management/Faculty/StudentIndividualReportPage.jsx:86-103 | definition of `getPreciseScore`: 0 without a record or scores, else the sum of `parseInt` of the type's keys, NaN counted as 0; IndividualReport.PreciseScoreIgnoresOtherKeys and IndividualReport.ReportAgreesWithGrid state its properties |
| IndividualReport.RecordFor | src/app/views/marks-management/Faculty/StudentIndividualReportPage.jsx:126 | the first record of the assessment (any earlier record is of another), or none when no record is |
| IndividualReport.ImprovementRecordFor | src/app/views/marks-management/Faculty/StudentIndividualReportPage.jsx:107-110 | the first improvement record targeting the tool (any earlier record is not one), or none |
| IndividualReport.ImprovementScore | src/app/views/marks-management/Faculty/StudentIndividualReportPage.jsx:106-119 | null iff no improvement record targets the tool; 0 when no tool bears the target name; otherwise the precise score of the first improvement record, read with the first tool of that name |
| IndividualReport.GridRecordsShowNoImprovement | src/app/views/marks-management/Faculty/StudentIndividualReportPage.jsx:106-119 | records without an improvement target never give an improvement score |
| IndividualReport.PostedRecordsHaveNoTarget | src/app/views/marks-management/Faculty/MarksEntryPage.jsx:451-462 | the records the marks-entry save posts carry no improvement target |
| IndividualReport.RowFor | src/app/views/marks-management/Faculty/StudentIndividualReportPage.jsx:124-140 | a row's obtained score is its original score, from the tool's first record; its max is the tool's |
| IndividualReport.StandardTools | src/app/views/marks-management/Faculty/StudentIndividualReportPage.jsx:122 | exactly the tools not of type Improvement Test, in order, each as many times as it occurs in the list |
| IndividualReport.ReportRows | src/app/views/marks-management/Faculty/StudentIndividualReportPage.jsx:124-140 | one row per standard tool, in order |
| IndividualReport.ScoreTools | src/app/views/marks-management/Faculty/StudentIndividualReportPage.jsx:124-148 | the loop's rows and running totals are the rows and their sums |
| IndividualReport.BuildReport | src/app/views/marks-management/Faculty/StudentIndividualReportPage.jsx:72-148 | rows for the distinct non-improvement tools with obtained equal to original and distinct names; totals are the sums of obtained and max |
| IndividualReport.ReportData | src/app/views/marks-management/Faculty/StudentIndividualReportPage.jsx:69-70 | no report until both the course and the marks are loaded |
| IndividualReport.ImprovementNeverCounts | src/app/views/marks-management/Faculty/StudentIndividualReportPage.jsx:129-146 | the total obtained is the sum of the original scores, whatever the improvement records hold |
| IndividualReport.TotalMaxIsToolMaxima | src/app/views/marks-management/Faculty/StudentIndividualReportPage.jsx:147 | the total maximum is the sum of the tools' maximum marks |
| IndividualReport.StandardNamesDistinct | src/app/views/marks-management/Faculty/StudentIndividualReportPage.jsx:78-122 | the report's tools bear distinct names |
| IndividualReport.ScoreValueIsParsedOrZero | src/app/views/marks-management/Faculty/StudentIndividualReportPage.jsx:100-101 | the report reads a cell as the comparison dialog does |
| IndividualReport.ReportAgreesWithGrid | src/app/views/marks-management/Faculty/StudentIndividualReportPage.jsx:86-103 | for a tool whose name agrees with its type, the report scores a record as the comparison dialog totals it, and as the grid totals a row of numbers |
| IndividualReport.ScreensDisagreeOnActivityNamedTool | src/app/views/marks-management/Faculty/StudentIndividualReportPage.jsx:90-97 | an Internal Assessment named "Activity Quiz" with 10 entered under `Score` is reported as 0 |
| IndividualReport.ScreensDisagreeOnDuplicateRecords | src/app/views/marks-management/Faculty/StudentIndividualReportPage.jsx:126 | with two records of one assessment the grid loads the second and the report scores the first |

## Left out

- All HTTP requests (`api.get/patch/post/delete`), React effects and state setters, loading and success flags, and `alert` texts. The fetched rosters and records are parameters.
- The asynchronous execution of the save (`Promise.all` and the un-awaited deletes) and the reload after it: only the plan of writes and deletes is modelled.
- `FileReader`, `encodeURI`, the `data:` URI prefix and the download link: only the CSV text and its splitting are modelled.
- Percentages, `toFixed`, pass/fail thresholds, chart datasets and printing on the report: floating point and presentation.
- The save payload beyond validation (`handleSave` with course settings), and the course-settings inputs.
- Search filtering in the student dialog (`toLowerCase`, Unicode case folding).
- `Date.now()` tool ids: ids are parameters.
- `window.confirm` before removing a CO or tool: taken as granted.
- `parseInt('')` yielding NaN for max marks and weightage inputs: those fields are integers.
- `parseInt` with a hexadecimal prefix or on text Number reads as a float, and `Number` on fractional or exponent forms: only decimal integers are modelled.
- Integers of 1e21 and above, which JavaScript prints in exponent form: printing is modelled in plain decimal.
- Integers beyond 2^53 in magnitude: `Js.ParseInt`, `Js.NumberOf`, `MarksEntry.RowTotal`, `MarksEntry.ComparisonTotal`, `Distribution.Total`, `IndividualReport.SumKeys`, `IndividualReport.PreciseScore` and the report's sums read and add them exactly, where JavaScript rounds each to the nearest double (`parseInt("9007199254740993")` is 9007199254740992 there).
- Distribution.AssignOrder: keeps insertion order for every key. JavaScript lists the keys that are array indices (canonical decimal integers below 2^32 - 1, such as a CO id edited to "7") first, in ascending numeric order, before the other keys. So for such ids the order of grid columns, the template header and the upload columns differs from the model. Sums, validation and the template round-trip do not depend on the order.
- Shared references made by shallow copies in `updateCo` and the bulk upload: the model works on values, so aliasing is not captured.
- StudentReportsPage.jsx, CourseAssignment.jsx and routes.jsx are not part of this model.
- MarksEntry.ImportCells: its contract states only the count bound; what it stores is stated by MarksEntry.ImportCellsKeys and MarksEntry.ImportCellsValues.
