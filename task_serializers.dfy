/**
 * TaskCreateSerializer's create and update over the task table, and the
 * test-case count of TaskSerializer.
 *
 * An update's validated data is a sequence of attribute assignments, applied
 * in order by the `setattr` loop; its `test_cases` entry, when present,
 * replaces all of the task's cases.
 */
module TaskSerializers {
  import opened Common
  import opened Tasks

  /** One validated test case; absent fields take the model defaults. */
  datatype CaseData = CaseData(inputData: string, expected: string, isHidden: Option<bool>, order: Option<int>,
                               weight: Option<real>)

  /** A stored case made from validated data, with the defaults `is_hidden` false, `order` 0 and `weight` 1.0. */
  function Materialize(id: int, d: CaseData): (c: TestCase)
    ensures c.id == id && c.inputData == d.inputData && c.expected == d.expected
    ensures c.isHidden == (d.isHidden == Some(true))
    ensures c.order == (if d.order.Some? then d.order.value else 0)
    ensures c.weight == (if d.weight.Some? then d.weight.value else 1.0)
  {
    TestCase(id, d.inputData, d.expected, d.isHidden.GetOr(false), d.order.GetOr(0), d.weight.GetOr(1.0))
  }

  /** The cases made from `data`, numbered from `first` on. */
  function Materialized(first: int, data: seq<CaseData>): (r: seq<TestCase>)
    ensures |r| == |data|
    ensures forall k :: 0 <= k < |data| ==> r[k] == Materialize(first + k, data[k])
  {
    seq(|data|, k requires 0 <= k < |data| => Materialize(first + k, data[k]))
  }

  /** One writable task attribute with its new value. */
  datatype Attr =
    | Title(title: string)
    | Description(description: string)
    | Language(language: string)
    | ClassObj(classId: int)
    | Deadline(deadline: Option<int>)
    | IsActive(isActive: bool)
    | TemplateCode(templateCode: string)
    | FunctionName(functionName: string)
    | SolutionMode(solutionMode: string)

  /** The attribute an assignment names, numbered 0 to 8. */
  function Field(a: Attr): nat {
    match a
    case Title(_) => 0
    case Description(_) => 1
    case Language(_) => 2
    case ClassObj(_) => 3
    case Deadline(_) => 4
    case IsActive(_) => 5
    case TemplateCode(_) => 6
    case FunctionName(_) => 7
    case SolutionMode(_) => 8
  }

  /** A task's current value of attribute `f`. */
  function Read(t: Task, f: nat): (a: Attr)
    requires f < 9
    ensures Field(a) == f
  {
    if f == 0 then Title(t.title)
    else if f == 1 then Description(t.description)
    else if f == 2 then Language(t.language)
    else if f == 3 then ClassObj(t.classId)
    else if f == 4 then Deadline(t.deadline)
    else if f == 5 then IsActive(t.isActive)
    else if f == 6 then TemplateCode(t.templateCode)
    else if f == 7 then FunctionName(t.functionName)
    else SolutionMode(t.solutionMode)
  }

  /** `setattr(instance, attr, value)`. */
  function SetAttr(t: Task, a: Attr): (r: Task)
    ensures r.cases == t.cases && r.createdBy == t.createdBy
    ensures forall f :: 0 <= f < 9 ==> Read(r, f) == if f == Field(a) then a else Read(t, f)
  {
    match a
    case Title(v) => t.(title := v)
    case Description(v) => t.(description := v)
    case Language(v) => t.(language := v)
    case ClassObj(v) => t.(classId := v)
    case Deadline(v) => t.(deadline := v)
    case IsActive(v) => t.(isActive := v)
    case TemplateCode(v) => t.(templateCode := v)
    case FunctionName(v) => t.(functionName := v)
    case SolutionMode(v) => t.(solutionMode := v)
  }

  /** The task after assigning `edits` in order. */
  function Apply(t: Task, edits: seq<Attr>): (r: Task)
    ensures r.cases == t.cases && r.createdBy == t.createdBy
  {
    if edits == [] then t else SetAttr(Apply(t, edits[..|edits| - 1]), edits[|edits| - 1])
  }

  /** The last assignment to attribute `f` among `edits`, if any. */
  function LastFor(edits: seq<Attr>, f: nat): (r: Option<Attr>)
    ensures r.Some? ==> r.value in edits && Field(r.value) == f
    ensures r.None? <==> forall k :: 0 <= k < |edits| ==> Field(edits[k]) != f
  {
    if edits == [] then None
    else if Field(edits[|edits| - 1]) == f then Some(edits[|edits| - 1])
    else LastFor(edits[..|edits| - 1], f)
  }

  /** The last assignment wins; an attribute nobody assigns keeps its value. */
  lemma {:induction false} LastWriteWins(t: Task, edits: seq<Attr>, f: nat)
    requires f < 9
    ensures Read(Apply(t, edits), f) == if LastFor(edits, f).Some? then LastFor(edits, f).value else Read(t, f)
  {
    if edits != [] {
      LastWriteWins(t, edits[..|edits| - 1], f);
    }
  }

  /** The task table; test cases live inside their task, so deleting a task deletes its cases. */
  class TaskStore {
    var tasks: map<int, Task>
    var nextTaskId: int
    var nextCaseId: int

    predicate Valid()
      reads this
    {
      forall id | id in tasks :: id < nextTaskId && forall c | c in tasks[id].cases :: c.id < nextCaseId
    }

    constructor ()
      ensures Valid() && tasks == map[]
    {
      tasks, nextTaskId, nextCaseId := map[], 1, 1;
    }

    /** Store one case per element of `data`, with fresh ids in order. */
    method CreateCases(data: seq<CaseData>) returns (cases: seq<TestCase>)
      modifies this
      ensures cases == Materialized(old(nextCaseId), data)
      ensures nextCaseId == old(nextCaseId) + |data|
      ensures tasks == old(tasks) && nextTaskId == old(nextTaskId)
    {
      cases := [];
      for k := 0 to |data|
        invariant nextCaseId == old(nextCaseId) + k
        invariant cases == Materialized(old(nextCaseId), data[..k])
        invariant tasks == old(tasks) && nextTaskId == old(nextTaskId)
      {
        cases := cases + [Materialize(nextCaseId, data[k])];
        nextCaseId := nextCaseId + 1;
      }
      assert data[..|data|] == data;
    }

    /**
     * create (with perform_create's `created_by`): a new task holding one
     * case per element of `test_cases`, which defaults to none.
     */
    method Create(fields: Task, testCases: Option<seq<CaseData>>, creator: int) returns (id: int)
      requires Valid()
      modifies this
      ensures Valid()
      ensures id !in old(tasks)
      ensures tasks == old(tasks)[id := fields.(createdBy := creator,
                                              cases := Materialized(old(nextCaseId), testCases.GetOr([])))]
      ensures TestCaseCount(tasks[id]) == |testCases.GetOr([])|
    {
      var cases := CreateCases(testCases.GetOr([]));
      id := nextTaskId;
      tasks := tasks[id := fields.(createdBy := creator, cases := cases)];
      nextTaskId := nextTaskId + 1;
    }

    /**
     * update: assign every validated attribute in order; then, when
     * `test_cases` was sent (even empty), delete all the task's cases and
     * store the new ones. Other tasks are not touched.
     */
    method Update(id: int, edits: seq<Attr>, testCases: Option<seq<CaseData>>)
      requires Valid() && id in tasks
      modifies this
      ensures Valid()
      ensures tasks.Keys == old(tasks).Keys
      ensures forall other | other in tasks && other != id :: tasks[other] == old(tasks)[other]
      ensures tasks[id] == Apply(old(tasks)[id], edits).(cases :=
        if testCases.None? then old(tasks)[id].cases else Materialized(old(nextCaseId), testCases.value))
    {
      var task := tasks[id];
      for k := 0 to |edits|
        invariant task == Apply(old(tasks)[id], edits[..k])
      {
        assert edits[..k + 1][..k] == edits[..k];
        task := SetAttr(task, edits[k]);
      }
      assert edits[..|edits|] == edits;
      tasks := tasks[id := task];
      if testCases.Some? {
        var cases := CreateCases(testCases.value);
        tasks := tasks[id := task.(cases := cases)];
      }
    }
  }

  /** get_test_case_count: how many cases the task has. */
  function TestCaseCount(t: Task): (r: nat)
    ensures r == |ByOrder(t.cases)|
  {
    |t.cases|
  }
}
