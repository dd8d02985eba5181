/**
 * The task-creation form of the teacher's task list page: editing the list
 * of draft test cases, and the checks and clean-up before a task is sent.
 *
 * Every handler builds a new value from the old one; the API call's outcome
 * is a parameter.
 */
module TaskForm {
  import opened Common
  import TaskSerializers

  /** A test case as the form edits it. */
  datatype CaseDraft = CaseDraft(inputData: string, expected: string, isHidden: bool, order: int, weight: real)

  /** The task fields of the form. */
  datatype TaskFields = TaskFields(title: string, description: string, language: string, deadline: string,
                                   solutionMode: string, functionName: string, templateCode: string)

  /** The whole form: fields, draft cases, the chosen class (none while the selector is empty), and whether it is shown. */
  datatype FormState = FormState(fields: TaskFields, cases: seq<CaseDraft>, selectedClass: Option<int>, open: bool)

  /** A fresh draft case at position `order`. */
  function Blank(order: int): CaseDraft {
    CaseDraft("", "", false, order, 1.0)
  }

  const InitialFields := TaskFields("", "", "python", "", "full", "", "")
  const InitialCases := [Blank(0)]

  /** handleAddTestCase: one blank case appended, numbered with the old length. */
  function AddTestCase(cases: seq<CaseDraft>): (r: seq<CaseDraft>)
    ensures |r| == |cases| + 1 && r[..|cases|] == cases
    ensures r[|cases|] == Blank(|cases|)
  {
    cases + [Blank(|cases|)]
  }

  /** handleRemoveTestCase: every case except the one at `index`, in order. */
  function RemoveTestCase(cases: seq<CaseDraft>, index: int): (r: seq<CaseDraft>)
    ensures 0 <= index < |cases| ==> r == cases[..index] + cases[index + 1..]
    ensures !(0 <= index < |cases|) ==> r == cases
  {
    if |cases| == 0 then []
    else if index == 0 then cases[1..]
    else [cases[0]] + RemoveTestCase(cases[1..], index - 1)
  }

  /** Removing the case just added gives the list back. */
  lemma RemoveUndoesAdd(cases: seq<CaseDraft>)
    ensures RemoveTestCase(AddTestCase(cases), |cases|) == cases
  {
    var added := AddTestCase(cases);
    assert added[..|cases|] + added[|cases| + 1..] == cases;
  }

  /** One field of a draft case with its new value. */
  datatype Edit =
    | InputData(inputData: string)
    | ExpectedOutput(expected: string)
    | Hidden(isHidden: bool)
    | Order(order: int)
    | Weight(weight: real)

  function Edited(c: CaseDraft, e: Edit): CaseDraft {
    match e
    case InputData(v) => c.(inputData := v)
    case ExpectedOutput(v) => c.(expected := v)
    case Hidden(v) => c.(isHidden := v)
    case Order(v) => c.(order := v)
    case Weight(v) => c.(weight := v)
  }

  /** handleTestCaseChange: only the named field of the case at `index` changes. */
  function ChangeTestCase(cases: seq<CaseDraft>, index: int, e: Edit): (r: seq<CaseDraft>)
    requires 0 <= index < |cases|
    ensures |r| == |cases|
    ensures forall k :: 0 <= k < |cases| && k != index ==> r[k] == cases[k]
    ensures e.InputData? ==> r[index] == cases[index].(inputData := e.inputData)
    ensures e.ExpectedOutput? ==> r[index] == cases[index].(expected := e.expected)
    ensures e.Hidden? ==> r[index] == cases[index].(isHidden := e.isHidden)
    ensures e.Order? ==> r[index] == cases[index].(order := e.order)
    ensures e.Weight? ==> r[index] == cases[index].(weight := e.weight)
  {
    cases[index := Edited(cases[index], e)]
  }

  /**
   * The weight box: the number typed, or 1.0 when it does not parse (`None`)
   * or parses to zero.
   */
  function WeightFromInput(parsed: Option<real>): (w: real)
    ensures w != 0.0
    ensures parsed.Some? && parsed.value != 0.0 ==> w == parsed.value
    ensures parsed.None? || parsed.value == 0.0 ==> w == 1.0
  {
    if parsed.Some? && parsed.value != 0.0 then parsed.value else 1.0
  }

  /** A case is kept when its input and its expected output are both non-blank after trimming. */
  predicate IsValidCase(c: CaseDraft) {
    Trim(c.inputData) != "" && Trim(c.expected) != ""
  }

  /** The valid drafts, in their order. */
  function ValidCases(cases: seq<CaseDraft>): (r: seq<CaseDraft>)
    ensures |r| <= |cases|
    ensures forall k :: 0 <= k < |r| ==> IsValidCase(r[k])
  {
    if cases == [] then []
    else
      var rest := ValidCases(cases[1..]);
      if IsValidCase(cases[0]) then [cases[0]] + rest else rest
  }

  /** A draft is sent exactly when it is valid, so nothing is sent exactly when no draft is valid. */
  lemma {:induction false} ValidCasesMembers(cases: seq<CaseDraft>, c: CaseDraft)
    ensures c in ValidCases(cases) <==> c in cases && IsValidCase(c)
    ensures ValidCases(cases) == [] <==> forall k :: 0 <= k < |cases| ==> !IsValidCase(cases[k])
  {
    if cases != [] {
      assert cases == [cases[0]] + cases[1..];
      ValidCasesMembers(cases[1..], c);
      if ValidCases(cases) == [] {
        forall k | 0 <= k < |cases|
          ensures !IsValidCase(cases[k])
        {
          if k > 0 {
            assert cases[k] == cases[1..][k - 1];
          }
        }
      }
    }
  }

  /** What the form sends for the k-th valid case: trimmed, numbered by position, a zero weight replaced by 1.0. */
  function PayloadCase(c: CaseDraft, k: int): TaskSerializers.CaseData {
    TaskSerializers.CaseData(Trim(c.inputData), Trim(c.expected), Some(c.isHidden), Some(k),
                             Some(if c.weight == 0.0 then 1.0 else c.weight))
  }

  /** The request body of a new task. */
  datatype TaskPayload = TaskPayload(fields: TaskFields, classObj: int, testCases: seq<TaskSerializers.CaseData>)

  datatype CreateCheck =
    | Refused(message: string)
    | Send(payload: TaskPayload)

  const NoClassMessage := "请选择班级"
  const NoValidCaseMessage := "请至少添加一个有效的测试用例（输入和输出都不能为空）"
  const NoFunctionNameMessage := "函数模式下必须指定函数名称"

  /**
   * handleCreate before the request: a class must be chosen, then at least
   * one valid case must exist, then function mode needs a function name.
   */
  function CheckCreate(form: FormState): (r: CreateCheck)
    ensures form.selectedClass.None? ==> r == Refused(NoClassMessage)
    ensures form.selectedClass.Some? && ValidCases(form.cases) == [] ==> r == Refused(NoValidCaseMessage)
    ensures form.selectedClass.Some? && ValidCases(form.cases) != [] &&
            form.fields.solutionMode == "function" && Trim(form.fields.functionName) == "" ==>
            r == Refused(NoFunctionNameMessage)
    ensures r.Send? <==> form.selectedClass.Some? && ValidCases(form.cases) != [] &&
                         !(form.fields.solutionMode == "function" && Trim(form.fields.functionName) == "")
    ensures r.Send? ==> r.payload.fields == form.fields && r.payload.classObj == form.selectedClass.value
  {
    if form.selectedClass.None? then Refused(NoClassMessage)
    else
      var valid := ValidCases(form.cases);
      if valid == [] then Refused(NoValidCaseMessage)
      else if form.fields.solutionMode == "function" && Trim(form.fields.functionName) == "" then
        Refused(NoFunctionNameMessage)
      else
        Send(TaskPayload(form.fields, form.selectedClass.value,
                         seq(|valid|, k requires 0 <= k < |valid| => PayloadCase(valid[k], k))))
  }

  /**
   * The cases sent are exactly the valid drafts in order, trimmed, with
   * non-blank texts, positions 0..n-1 and non-zero weights.
   */
  lemma SentCasesAreClean(form: FormState)
    requires CheckCreate(form).Send?
    ensures var sent := CheckCreate(form).payload.testCases;
      var valid := ValidCases(form.cases);
      && |sent| == |valid| > 0
      && forall k :: 0 <= k < |sent| ==>
        && sent[k].inputData == Trim(valid[k].inputData) != ""
        && sent[k].expected == Trim(valid[k].expected) != ""
        && sent[k].order == Some(k) && sent[k].isHidden == Some(valid[k].isHidden)
        && sent[k].weight.Some? && sent[k].weight.value != 0.0
  {
  }

  /** Stored by the server, the sent cases keep their positions as `order` and their non-zero weights. */
  lemma StoredCasesKeepPositions(form: FormState, firstId: int)
    requires CheckCreate(form).Send?
    ensures var stored := TaskSerializers.Materialized(firstId, CheckCreate(form).payload.testCases);
      forall k :: 0 <= k < |stored| ==> stored[k].order == k && stored[k].weight != 0.0 &&
                                        stored[k].isHidden == ValidCases(form.cases)[k].isHidden
  {
  }

  /** After the task is created the form is closed and back to its initial values; after a failure nothing changes. */
  function AfterCreate(form: FormState, created: bool): (r: FormState)
    requires CheckCreate(form).Send?
    ensures created ==> r == FormState(InitialFields, InitialCases, None, false)
    ensures !created ==> r == form
  {
    if created then FormState(InitialFields, InitialCases, None, false) else form
  }
}
