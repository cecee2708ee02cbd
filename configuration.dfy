/**
 * The faculty configuration screen: the draft of one course's course outcomes
 * (COs) and assessment tools, each tool's name derived from its type,
 * sub-type, custom name and improvement target, the heuristic that reads those
 * fields back from a stored name, and the checks run before saving.
 */
module Configuration {
  import opened Js
  import opened Distribution

  // The tool types offered by the type selector, and the sub-types.
  const InternalAssessment: string := "Internal Assessment"
  const Assignment: string := "Assignment"
  const SemesterEndExam: string := "Semester End Exam"
  const Activity: string := "Activity"
  const ImprovementTest: string := "Improvement Test"
  const SubTypes: seq<string> := ["1", "2", "3", "Other"]

  const IncompleteToolError: string :=
    "An assessment tool is incomplete. Please check Activity Names or Improvement Targets."

  datatype CourseOutcome = CourseOutcome(id: string, description: string, modules: string, kLevel: string)

  /** An assessment tool; `toolType` is the record's `type` field. */
  datatype Tool = Tool(
    id: string,
    name: string,
    toolType: string,
    subType: string,
    customName: string,
    linkedAssessment: string,
    maxMarks: int,
    weightage: int,
    coDistribution: Dist)

  /** The four fields a tool's name is built from. */
  datatype NameFields = NameFields(toolType: string, subType: string, customName: string, linkedAssessment: string)

  function FieldsOf(t: Tool): NameFields {
    NameFields(t.toolType, t.subType, t.customName, t.linkedAssessment)
  }

  // ---------------------------------------------------------------------------
  // Names

  /** The name of a tool, by the first rule that applies (an empty string is falsy). */
  function DeriveName(f: NameFields): string {
    if f.toolType == SemesterEndExam then SemesterEndExam
    else if f.toolType == Activity then
      (if f.customName != "" then "Activity - " + f.customName else Activity)
    else if f.toolType == ImprovementTest then
      (if f.linkedAssessment != "" then "Improvement Test (" + f.linkedAssessment + ")" else ImprovementTest)
    else if f.subType == "Other" then f.customName
    else f.toolType + " " + f.subType
  }

  /** The tool's name is the one its fields derive. */
  predicate NameConsistent(t: Tool) {
    t.name == DeriveName(FieldsOf(t))
  }

  predicate AllNamesConsistent(tools: seq<Tool>) {
    forall i :: 0 <= i < |tools| ==> NameConsistent(tools[i])
  }

  /** The fields read back from a stored name when a course is loaded. */
  function ParseName(name: string): NameFields {
    if name == SemesterEndExam then NameFields(SemesterEndExam, "", name, "")
    else if StartsWith(name, ImprovementTest) then
      NameFields(ImprovementTest, "Other", name, ParenGroup(name).GetOr(""))
    else if StartsWith(name, Activity) then
      NameFields(Activity, "Other", ReplaceFirst(name, "Activity - ", ""), "")
    else if StartsWith(name, InternalAssessment) then NumberedOrCustom(InternalAssessment, name)
    else if StartsWith(name, Assignment) then NumberedOrCustom(Assignment, name)
    else NameFields(InternalAssessment, "Other", name, "")
  }

  /** "<kind> <sub-type>" gives that sub-type; anything else keeps the name as custom. */
  function NumberedOrCustom(kind: string, name: string): NameFields {
    var part := ReplaceFirst(name, kind + " ", "");
    if part in SubTypes then NameFields(kind, part, "", "") else NameFields(kind, "Other", name, "")
  }

  /** A stored tool as loaded: its name is kept and the four name fields are parsed from it. */
  function LoadTool(t: Tool): (r: Tool)
    ensures FieldsOf(r) == ParseName(t.name)
    ensures r.id == t.id && r.name == t.name && r.maxMarks == t.maxMarks
    ensures r.weightage == t.weightage && r.coDistribution == t.coDistribution
  {
    var f := ParseName(t.name);
    t.(toolType := f.toolType, subType := f.subType, customName := f.customName,
       linkedAssessment := f.linkedAssessment)
  }

  lemma RoundTripSemesterEndExam()
    ensures DeriveName(ParseName(SemesterEndExam)) == SemesterEndExam
  {
  }

  /** "Internal Assessment k" and "Assignment k", k in 1..3, are read back and rebuilt unchanged. */
  lemma RoundTripNumbered(kind: string, k: string)
    requires kind == InternalAssessment || kind == Assignment
    requires k == "1" || k == "2" || k == "3"
    ensures DeriveName(ParseName(kind + " " + k)) == kind + " " + k
  {
    var n := kind + " " + k;
    ReplaceFirstOfPrefix(n, kind + " ", "");
    assert n[|kind + " "|..] == k;
    assert n[..|kind|] == kind;
    DiffersAt(n, SemesterEndExam, 0);
    DiffersAt(n, ImprovementTest, 1);
    DiffersAt(n, Activity, 1);
    if kind == Assignment {
      DiffersAt(n, InternalAssessment, 0);
    }
    assert k == SubTypes[0] || k == SubTypes[1] || k == SubTypes[2];
    assert ReplaceFirst(n, kind + " ", "") == k;
    assert StartsWith(n, kind);
    assert NumberedOrCustom(kind, n) == NameFields(kind, k, "", "");
    assert ParseName(n) == NameFields(kind, k, "", "");
  }

  /** "Activity - c" with a non-empty c is read back and rebuilt unchanged. */
  lemma RoundTripActivity(c: string)
    requires c != ""
    ensures DeriveName(ParseName("Activity - " + c)) == "Activity - " + c
  {
    var n := "Activity - " + c;
    ReplaceFirstOfPrefix(n, "Activity - ", "");
    assert n[|"Activity - "|..] == c;
    assert n[..|Activity|] == Activity;
    DiffersAt(n, ImprovementTest, 0);
    DiffersAt(n, SemesterEndExam, 0);
    assert ParseName(n) == NameFields(Activity, "Other", c, "");
  }

  /**
   * "Improvement Test (X)" is read back and rebuilt unchanged when X is not
   * empty and holds no ')' and no line break.
   */
  lemma RoundTripImprovement(x: string)
    requires x != ""
    requires forall k :: 0 <= k < |x| ==> x[k] != ')' && !IsLineTerminator(x[k])
    ensures DeriveName(ParseName("Improvement Test (" + x + ")")) == "Improvement Test (" + x + ")"
  {
    var n := "Improvement Test (" + x + ")";
    assert n[..|ImprovementTest|] == ImprovementTest;
    assert n != SemesterEndExam by { assert n[0] != 'S'; }
    assert n[18..18 + |x|] == x;
    CloseParenAfter(n, 18, x);
    ParenGroupSkips(n, 0, 17);
    assert n[17] == '(';
    assert ParenGroup(n) == Some(n[18..18 + |x|]);
  }

  /**
   * A custom name is read back and rebuilt unchanged unless it starts with
   * "Improvement Test" or "Activity", or is "Internal Assessment"/"Assignment"
   * followed by a sub-type.
   */
  lemma RoundTripCustom(n: string)
    requires !StartsWith(n, ImprovementTest) && !StartsWith(n, Activity)
    requires StartsWith(n, InternalAssessment) ==> ReplaceFirst(n, InternalAssessment + " ", "") !in SubTypes
    requires StartsWith(n, Assignment) ==> ReplaceFirst(n, Assignment + " ", "") !in SubTypes
    ensures DeriveName(ParseName(n)) == n
  {
  }

  /** A bare "Activity" is not rebuilt: it reads back with custom name "Activity". */
  lemma BareActivityDoesNotRoundTrip()
    ensures ParseName(Activity).customName == Activity
    ensures DeriveName(ParseName(Activity)) == "Activity - Activity"
  {
    assert FindFrom(Activity, "Activity - ", 0) == None;
  }

  /** "Internal Assessment Other" reads back as sub-type Other with an empty custom name. */
  lemma OtherSubTypeNameDoesNotRoundTrip()
    ensures DeriveName(ParseName("Internal Assessment Other")) == ""
  {
    var n := "Internal Assessment Other";
    ReplaceFirstOfPrefix(n, InternalAssessment + " ", "");
    assert n[|InternalAssessment + " "|..] == "Other";
    assert n[..|InternalAssessment|] == InternalAssessment;
    DiffersAt(n, SemesterEndExam, 0);
    DiffersAt(n, ImprovementTest, 1);
    DiffersAt(n, Activity, 0);
    assert SubTypes[3] == "Other";
    assert ReplaceFirst(n, InternalAssessment + " ", "") == "Other";
    assert NumberedOrCustom(InternalAssessment, n) == NameFields(InternalAssessment, "Other", "", "");
  }

  /** A loaded tool whose stored name has a round-tripping form keeps a consistent name. */
  lemma LoadedToolConsistent(t: Tool)
    requires DeriveName(ParseName(t.name)) == t.name
    ensures NameConsistent(LoadTool(t))
  {
  }

  // ---------------------------------------------------------------------------
  // Finding tools

  /** `tools.findIndex(t => t.name === name)`: the first tool with that name. */
  function IndexOfName(tools: seq<Tool>, name: string): (r: Option<nat>)
    ensures r.Some? ==> r.value < |tools| && tools[r.value].name == name
    ensures r.Some? ==> forall j :: 0 <= j < r.value ==> tools[j].name != name
    ensures r.None? ==> forall j :: 0 <= j < |tools| ==> tools[j].name != name
    decreases |tools|
  {
    if |tools| == 0 then None
    else if tools[0].name == name then Some(0)
    else match IndexOfName(tools[1..], name)
      case None => None
      case Some(i) => Some(i + 1)
  }

  /** The tools an improvement test may be linked to: Internal Assessments other than itself. */
  function ImprovementTargets(tools: seq<Tool>, currentId: string): (r: seq<Tool>)
    ensures forall i :: 0 <= i < |r| ==> r[i] in tools && r[i].id != currentId && r[i].toolType == InternalAssessment
    ensures forall i :: 0 <= i < |tools| && tools[i].id != currentId && tools[i].toolType == InternalAssessment
              ==> tools[i] in r
    ensures forall t :: t in tools ==>
              multiset(r)[t] == if t.id != currentId && t.toolType == InternalAssessment then multiset(tools)[t] else 0
    ensures Subsequence(r, tools)
  {
    Filter(tools, (t: Tool) => t.id != currentId && t.toolType == InternalAssessment)
  }

  // ---------------------------------------------------------------------------
  // Editing one tool

  /** One field edit offered by the tool card. */
  datatype Edit =
    | SetType(newType: string)
    | SetSubType(newSubType: string)
    | SetCustomName(newCustomName: string)
    | SetLinked(target: string)
    | SetMaxMarks(newMaxMarks: int)
    | SetWeightage(newWeightage: int)

  /** The edits to a field the name is built from. */
  predicate Renames(e: Edit) {
    e.SetType? || e.SetSubType? || e.SetCustomName? || e.SetLinked?
  }

  /** The type edits that drop the CO distribution. */
  predicate ClearsDistribution(e: Edit) {
    e.SetType? && (e.newType == SemesterEndExam || e.newType == Activity)
  }

  /**
   * The tool `t` after edit `e`, where `tools` is the list the edit is made in:
   * the field is set; linking copies the marks configuration of the first tool
   * bearing the chosen name; a name field recomputes the name.
   */
  function Edited(tools: seq<Tool>, t: Tool, e: Edit): (u: Tool)
    ensures u.id == t.id
    ensures Renames(e) ==> NameConsistent(u)
    ensures !Renames(e) ==> u.name == t.name
    ensures u.toolType == (if e.SetType? then e.newType else t.toolType)
    ensures u.subType == (if e.SetSubType? then e.newSubType else t.subType)
    ensures u.customName == (if e.SetCustomName? then e.newCustomName else t.customName)
    ensures u.linkedAssessment == (if e.SetLinked? then e.target else t.linkedAssessment)
    ensures e.SetLinked? && IndexOfName(tools, e.target).Some? ==>
              var source := tools[IndexOfName(tools, e.target).value];
              u.maxMarks == source.maxMarks && u.weightage == source.weightage
              && u.coDistribution == source.coDistribution
    ensures !(e.SetLinked? && IndexOfName(tools, e.target).Some?) ==>
              u.maxMarks == (if e.SetMaxMarks? then e.newMaxMarks else t.maxMarks)
              && u.weightage == (if e.SetWeightage? then e.newWeightage else t.weightage)
    ensures ClearsDistribution(e) ==> u.coDistribution == []
    ensures !ClearsDistribution(e) && !(e.SetLinked? && IndexOfName(tools, e.target).Some?) ==>
              u.coDistribution == t.coDistribution
  {
    var changed := match e
      case SetType(v) => t.(toolType := v)
      case SetSubType(v) => t.(subType := v)
      case SetCustomName(v) => t.(customName := v)
      case SetLinked(v) => t.(linkedAssessment := v)
      case SetMaxMarks(v) => t.(maxMarks := v)
      case SetWeightage(v) => t.(weightage := v);
    var linked :=
      if e.SetLinked? then
        match IndexOfName(tools, e.target)
        case Some(i) =>
          changed.(maxMarks := tools[i].maxMarks, weightage := tools[i].weightage,
               coDistribution := tools[i].coDistribution)
        case None => changed
      else changed;
    if Renames(e) then
      var renamed := linked.(name := DeriveName(FieldsOf(linked)));
      if e.SetType? && (linked.toolType == SemesterEndExam || linked.toolType == Activity)
      then renamed.(coDistribution := [])
      else renamed
    else linked
  }

  /** `updateToolCoDistribution`'s change to one distribution: positive marks are stored, others delete the key. */
  function WithCoMarks(d: Dist, coId: string, input: string): (r: Dist)
    ensures ParseInt(input).GetOr(0) > 0 ==> Lookup(r, coId) == Some(ParseInt(input).value)
    ensures ParseInt(input).GetOr(0) <= 0 ==> coId !in Keys(r)
    ensures forall j :: j != coId ==> Lookup(r, j) == Lookup(d, j)
    ensures AllPositive(d) ==> AllPositive(r)
    ensures UniqueKeys(d) ==> UniqueKeys(r)
  {
    var v := ParseInt(input).GetOr(0);
    if v > 0 then
      AssignKeepsUnique(d, coId, v);
      Assign(d, coId, v)
    else Delete(d, coId)
  }

  // ---------------------------------------------------------------------------
  // Validation before save

  /** Semester End Exams and Activities carry no CO mapping. */
  predicate UsesCoMapping(t: Tool) {
    t.toolType != SemesterEndExam && t.toolType != Activity
  }

  /** The allocation badge of the tool card: CO marks add up to the conducted marks. */
  predicate IsBalanced(t: Tool) {
    UsesCoMapping(t) ==> Total(t.coDistribution) == t.maxMarks
  }

  /** A name that is empty or still the bare "Activity"/"Improvement Test" label is incomplete. */
  predicate NameComplete(t: Tool) {
    t.name != "" && t.name != Activity && t.name != ImprovementTest
  }

  function AllocationError(t: Tool): string {
    t.name + ": Allocated " + IntToString(Total(t.coDistribution)) + " marks, but Max Marks is "
    + IntToString(t.maxMarks)
  }

  /** The errors one tool contributes, in the order they are pushed. */
  function ToolErrors(t: Tool): seq<string> {
    (if IsBalanced(t) then [] else [AllocationError(t)])
    + (if NameComplete(t) then [] else [IncompleteToolError])
  }

  function ValidationErrors(tools: seq<Tool>): seq<string>
    decreases |tools|
  {
    if |tools| == 0 then [] else ValidationErrors(tools[..|tools| - 1]) + ToolErrors(tools[|tools| - 1])
  }

  /** Saving finds no error exactly when every tool is balanced and completely named. */
  lemma {:induction false} NoErrorsIff(tools: seq<Tool>)
    ensures ValidationErrors(tools) == [] <==>
              forall i :: 0 <= i < |tools| ==> IsBalanced(tools[i]) && NameComplete(tools[i])
    decreases |tools|
  {
    if |tools| > 0 {
      var init := tools[..|tools| - 1];
      NoErrorsIff(init);
      assert forall i :: 0 <= i < |init| ==> init[i] == tools[i];
    }
  }

  /** Every unbalanced tool is reported with its allocation message. */
  lemma {:induction false} UnbalancedToolReported(tools: seq<Tool>, i: nat)
    requires i < |tools| && !IsBalanced(tools[i])
    ensures AllocationError(tools[i]) in ValidationErrors(tools)
    decreases |tools|
  {
    var init := tools[..|tools| - 1];
    if i < |tools| - 1 {
      assert init[i] == tools[i];
      UnbalancedToolReported(init, i);
    } else {
      assert AllocationError(tools[i]) in ToolErrors(tools[i]);
    }
  }

  /**
   * A tool "IA1" with 30 conducted marks and 15 + 10 allotted is rejected with
   * the message "IA1: Allocated 25 marks, but Max Marks is 30" (written below
   * as the concatenation of its literal parts).
   */
  lemma UnbalancedExample()
    ensures ValidationErrors([Tool("t1", "IA1", InternalAssessment, "Other", "IA1", "", 30, 0,
                                   [("CO1", 15), ("CO2", 10)])])
            == ["IA1" + ": Allocated " + "25" + " marks, but Max Marks is " + "30"]
  {
    var t := Tool("t1", "IA1", InternalAssessment, "Other", "IA1", "", 30, 0, [("CO1", 15), ("CO2", 10)]);
    assert Total(t.coDistribution) == 25;
    ExampleDecimals();
    var m := AllocationError(t);
    assert m == "IA1" + ": Allocated " + "25" + " marks, but Max Marks is " + "30";
    assert ToolErrors(t) == [m];
    assert ValidationErrors([t]) == ValidationErrors([t][..0]) + ToolErrors(t);
  }

  lemma ExampleDecimals()
    ensures IntToString(25) == "25" && IntToString(30) == "30"
  {
    assert NatToString(2) == "2" && NatToString(5) == "5";
    assert NatToString(3) == "3" && NatToString(0) == "0";
  }

  // ---------------------------------------------------------------------------
  // The course draft

  /** The next CO a click on "Add CO" appends. */
  function NewCo(cos: seq<CourseOutcome>): CourseOutcome {
    CourseOutcome("CO" + IntToString(|cos| + 1), "", "", "K1")
  }

  /** The id of a new CO counts the list, so after a deletion it can repeat an existing id. */
  lemma NewCoIdCanRepeat()
    ensures var cos := [CourseOutcome("CO2", "", "", "K1")];
            NewCo(cos).id == cos[0].id
  {
    assert IntToString(2) == "2";
  }

  /** The tool "Add Tool" appends, under the given id. */
  function NewTool(id: string): (t: Tool)
    ensures NameConsistent(t) && t.id == id && t.coDistribution == []
  {
    Tool(id, "Internal Assessment 1", InternalAssessment, "1", "", "", 0, 0, [])
  }

  /** The fields of a CO row. */
  datatype CoEdit = SetCoId(id: string) | SetDescription(description: string)
                  | SetModules(modules: string) | SetKLevel(kLevel: string)

  function EditedCo(c: CourseOutcome, e: CoEdit): CourseOutcome {
    match e
    case SetCoId(v) => c.(id := v)
    case SetDescription(v) => c.(description := v)
    case SetModules(v) => c.(modules := v)
    case SetKLevel(v) => c.(kLevel := v)
  }

  function WithoutCo(cos: seq<CourseOutcome>, id: string): (r: seq<CourseOutcome>)
    ensures forall i :: 0 <= i < |r| ==> r[i] in cos && r[i].id != id
    ensures forall i :: 0 <= i < |cos| && cos[i].id != id ==> cos[i] in r
    ensures forall c :: c in cos ==> multiset(r)[c] == if c.id != id then multiset(cos)[c] else 0
    ensures Subsequence(r, cos)
  {
    Filter(cos, (c: CourseOutcome) => c.id != id)
  }

  function WithoutTool(tools: seq<Tool>, id: string): (r: seq<Tool>)
    ensures forall i :: 0 <= i < |r| ==> r[i] in tools && r[i].id != id
    ensures forall i :: 0 <= i < |tools| && tools[i].id != id ==> tools[i] in r
    ensures forall t :: t in tools ==> multiset(r)[t] == if t.id != id then multiset(tools)[t] else 0
    ensures Subsequence(r, tools)
  {
    Filter(tools, (t: Tool) => t.id != id)
  }

  /** The draft of one course's configuration during an editing session. */
  class CourseDraft {
    var cos: seq<CourseOutcome>
    var tools: seq<Tool>

    /** Selecting a course: its COs as stored, its tools with name fields parsed from their names. */
    constructor Load(storedCos: seq<CourseOutcome>, storedTools: seq<Tool>)
      ensures cos == storedCos
      ensures |tools| == |storedTools|
      ensures forall i :: 0 <= i < |tools| ==> tools[i] == LoadTool(storedTools[i])
    {
      cos := storedCos;
      tools := seq(|storedTools|, i requires 0 <= i < |storedTools| => LoadTool(storedTools[i]));
    }

    method AddCo()
      modifies this
      ensures cos == old(cos) + [NewCo(old(cos))]
      ensures tools == old(tools)
    {
      cos := cos + [NewCo(cos)];
    }

    /** Deleting CO `id` (confirmation granted) also deletes key `id` from every tool. */
    method RemoveCo(id: string)
      modifies this
      ensures cos == WithoutCo(old(cos), id)
      ensures |tools| == |old(tools)|
      ensures forall i :: 0 <= i < |tools| ==>
                tools[i] == old(tools)[i].(coDistribution := Delete(old(tools)[i].coDistribution, id))
      ensures forall i :: 0 <= i < |tools| ==> id !in Keys(tools[i].coDistribution)
      ensures AllNamesConsistent(old(tools)) ==> AllNamesConsistent(tools)
    {
      cos := WithoutCo(cos, id);
      var before := tools;
      tools := seq(|before|, i requires 0 <= i < |before| =>
                 before[i].(coDistribution := Delete(before[i].coDistribution, id)));
    }

    /** Editing a field of the CO in row `idx`; an index past the end throws and changes nothing. */
    method UpdateCo(idx: nat, e: CoEdit)
      modifies this
      ensures cos == if idx < |old(cos)| then old(cos)[idx := EditedCo(old(cos)[idx], e)] else old(cos)
      ensures tools == old(tools)
    {
      if idx < |cos| {
        cos := cos[idx := EditedCo(cos[idx], e)];
      }
    }

    method AddTool(newId: string)
      modifies this
      ensures tools == old(tools) + [NewTool(newId)]
      ensures cos == old(cos)
      ensures AllNamesConsistent(old(tools)) ==> AllNamesConsistent(tools)
    {
      tools := tools + [NewTool(newId)];
    }

    /** Removing a tool (confirmation granted). */
    method RemoveTool(id: string)
      modifies this
      ensures tools == WithoutTool(old(tools), id)
      ensures cos == old(cos)
    {
      tools := WithoutTool(tools, id);
    }

    /** `updateToolMeta`: every tool with the given id is edited, all others are kept. */
    method UpdateToolMeta(id: string, e: Edit)
      modifies this
      ensures cos == old(cos)
      ensures |tools| == |old(tools)|
      ensures forall i :: 0 <= i < |tools| ==>
                tools[i] == if old(tools)[i].id == id then Edited(old(tools), old(tools)[i], e) else old(tools)[i]
      ensures AllNamesConsistent(old(tools)) ==> AllNamesConsistent(tools)
    {
      var before := tools;
      tools := seq(|before|, i requires 0 <= i < |before| =>
                 if before[i].id == id then Edited(before, before[i], e) else before[i]);
    }

    /** `updateToolCoDistribution`: the marks typed for one CO in one tool. */
    method UpdateToolCoDistribution(toolId: string, coId: string, input: string)
      modifies this
      ensures cos == old(cos)
      ensures |tools| == |old(tools)|
      ensures forall i :: 0 <= i < |tools| ==>
                tools[i] == if old(tools)[i].id == toolId
                            then old(tools)[i].(coDistribution := WithCoMarks(old(tools)[i].coDistribution, coId, input))
                            else old(tools)[i]
      ensures AllNamesConsistent(old(tools)) ==> AllNamesConsistent(tools)
    {
      var before := tools;
      tools := seq(|before|, i requires 0 <= i < |before| =>
                 if before[i].id == toolId
                 then before[i].(coDistribution := WithCoMarks(before[i].coDistribution, coId, input))
                 else before[i]);
    }

    /** The validation of `handleSave`: the collected errors, and whether saving goes ahead. */
    method Validate() returns (errors: seq<string>, proceed: bool)
      ensures errors == ValidationErrors(tools)
      ensures proceed <==> forall i :: 0 <= i < |tools| ==> IsBalanced(tools[i]) && NameComplete(tools[i])
    {
      errors := [];
      var i := 0;
      while i < |tools|
        invariant 0 <= i <= |tools|
        invariant errors == ValidationErrors(tools[..i])
      {
        var tool := tools[i];
        if UsesCoMapping(tool) {
          var allotted := Total(tool.coDistribution);
          if allotted != tool.maxMarks {
            errors := errors + [AllocationError(tool)];
          }
        }
        if tool.name == "" || tool.name == Activity || tool.name == ImprovementTest {
          errors := errors + [IncompleteToolError];
        }
        assert tools[..i + 1][..i] == tools[..i];
        i := i + 1;
      }
      assert tools[..|tools|] == tools;
      NoErrorsIff(tools);
      proceed := |errors| == 0;
    }
  }
}
