/**
 * The back end's submission views: trying code on the visible test cases,
 * submitting code for a weighted score (one submission per task and
 * student), the visibility of submissions, and the parameters of the grade
 * export.
 *
 * The judge is the oracle of the execution service; tables are maps keyed by
 * id, with `index` playing the database's (task, student) uniqueness index.
 */
module SubmissionViews {
  import opened Common
  import opened Permissions
  import opened Tasks
  import opened Judge
  import Export
  import ApiClient

  datatype Submission = Submission(taskId: int, studentId: int, code: string, language: string, score: real,
                                   testCount: nat)

  /** A stored test result. */
  datatype ResultRow = ResultRow(testCaseId: int, passed: bool, output: string, errorMessage: string)

  /** One entry of a trial's `test_results`: the case's id, input and expected output, then the execution. */
  datatype Entry = Entry(testCaseId: int, inputData: string, expectedOutput: string, execution: Execution)

  /** A recorded TestAttempt. */
  datatype Attempt = Attempt(taskId: int, studentId: int, code: string, language: string, results: seq<Entry>)

  /** What every execution of one request shares: the service settings, the judge, the code and its language. */
  datatype Run = Run(settings: Settings, judge: Judge0, code: string, language: string)

  /** The execution of one test case, with the case's expected output. */
  function Outcome(run: Run, c: TestCase): Execution {
    Execute(run.settings, run.judge, run.code, run.language, c.inputData, Some(c.expected)).0
  }

  /** `result.get("passed", False)`: only a completed run can pass. */
  predicate Verdict(e: Execution) {
    e.Completed? && e.passed
  }

  /**
   * A trial entry: the execution's keys come after the case's, so a
   * completed run's stripped expected output replaces the stored one.
   */
  function EntryOf(run: Run, c: TestCase): (r: Entry)
    ensures r.testCaseId == c.id && r.inputData == c.inputData && r.execution == Outcome(run, c)
    ensures r.expectedOutput == if r.execution.Completed? then r.execution.expected else c.expected
  {
    var e := Outcome(run, c);
    Entry(c.id, c.inputData, if e.Completed? then e.expected else c.expected, e)
  }

  /** `stdout`, or "" when the result has none. */
  function OutputOf(e: Execution): string {
    if e.Completed? then e.output else e.stdout.GetOr("")
  }

  /** `stderr or compile_output or error`: the first non-empty one, else "". */
  function ErrorMessageOf(e: Execution): (r: string)
    ensures Filled(e.stderr) ==> r == e.stderr.value
    ensures e.Completed? && !Filled(e.stderr) ==> r == (if Filled(e.compileOutput) then e.compileOutput.value else "")
    ensures e.Failed? && !Filled(e.stderr) ==> r == e.error
  {
    if Filled(e.stderr) then e.stderr.value
    else if e.Completed? then (if Filled(e.compileOutput) then e.compileOutput.value else "")
    else e.error
  }

  function ResultOf(run: Run, c: TestCase): (r: ResultRow)
    ensures r.testCaseId == c.id && r.passed == Verdict(Outcome(run, c))
  {
    var e := Outcome(run, c);
    ResultRow(c.id, Verdict(e), OutputOf(e), ErrorMessageOf(e))
  }

  /** How many entries passed. */
  function PassedCount(entries: seq<Entry>): (n: nat)
    ensures n <= |entries|
  {
    if entries == [] then 0
    else PassedCount(entries[..|entries| - 1]) + (if Verdict(entries[|entries| - 1].execution) then 1 else 0)
  }

  /** All entries pass exactly when the count reaches the total. */
  lemma {:induction false} AllPassIffFullCount(entries: seq<Entry>)
    ensures PassedCount(entries) == |entries| <==> forall k :: 0 <= k < |entries| ==> Verdict(entries[k].execution)
  {
    if entries != [] {
      var init := entries[..|entries| - 1];
      AllPassIffFullCount(init);
      assert forall k :: 0 <= k < |init| ==> init[k] == entries[k];
    }
  }

  // ---------------------------------------------------------------------------
  // Weighted score
  // ---------------------------------------------------------------------------

  function TotalWeight(cases: seq<TestCase>): real {
    if cases == [] then 0.0 else TotalWeight(cases[..|cases| - 1]) + cases[|cases| - 1].weight
  }

  /** The weight of the passed cases. */
  function PassedWeight(cases: seq<TestCase>, passed: seq<bool>): real
    requires |passed| == |cases|
  {
    if cases == [] then 0.0
    else PassedWeight(cases[..|cases| - 1], passed[..|passed| - 1]) +
         (if passed[|passed| - 1] then cases[|cases| - 1].weight else 0.0)
  }

  /** The verdict of every case, in order. */
  function Verdicts(run: Run, cases: seq<TestCase>): (r: seq<bool>)
    ensures |r| == |cases| && forall k :: 0 <= k < |cases| ==> r[k] == Verdict(Outcome(run, cases[k]))
  {
    seq(|cases|, k requires 0 <= k < |cases| => Verdict(Outcome(run, cases[k])))
  }

  /** The score: the passed share of the total weight, in percent; 0 without weight. */
  function Score(total: real, passedWeight: real): real {
    if total > 0.0 then passedWeight / total * 100.0 else 0.0
  }

  predicate NonNegativeWeights(cases: seq<TestCase>) {
    forall k :: 0 <= k < |cases| ==> cases[k].weight >= 0.0
  }

  lemma {:induction false} PassedWithinTotal(cases: seq<TestCase>, passed: seq<bool>)
    requires |passed| == |cases| && NonNegativeWeights(cases)
    ensures 0.0 <= PassedWeight(cases, passed) <= TotalWeight(cases)
  {
    if cases != [] {
      PassedWithinTotal(cases[..|cases| - 1], passed[..|passed| - 1]);
    }
  }

  lemma {:induction false} AllPassedWeighsAll(cases: seq<TestCase>, passed: seq<bool>)
    requires |passed| == |cases| && forall k :: 0 <= k < |passed| ==> passed[k]
    ensures PassedWeight(cases, passed) == TotalWeight(cases)
  {
    if cases != [] {
      AllPassedWeighsAll(cases[..|cases| - 1], passed[..|passed| - 1]);
    }
  }

  /** With non-negative weights the score is a percentage, and passing every case of positive weight gives 100. */
  lemma ScoreBounds(cases: seq<TestCase>, passed: seq<bool>)
    requires |passed| == |cases| && NonNegativeWeights(cases)
    ensures 0.0 <= Score(TotalWeight(cases), PassedWeight(cases, passed)) <= 100.0
    ensures (forall k :: 0 <= k < |passed| ==> passed[k]) && TotalWeight(cases) > 0.0 ==>
      Score(TotalWeight(cases), PassedWeight(cases, passed)) == 100.0
    ensures (forall k :: 0 <= k < |passed| ==> !passed[k]) ==> Score(TotalWeight(cases), PassedWeight(cases, passed)) == 0.0
  {
    var total, won := TotalWeight(cases), PassedWeight(cases, passed);
    PassedWithinTotal(cases, passed);
    if total > 0.0 {
      ShareAtMostOne(won, total);
    }
    if forall k :: 0 <= k < |passed| ==> passed[k] {
      AllPassedWeighsAll(cases, passed);
      if total > 0.0 {
        assert won == total;
        FullShare(total);
      }
    }
    if forall k :: 0 <= k < |passed| ==> !passed[k] {
      NoneWeighsNothing(cases, passed);
    }
  }

  lemma ShareAtMostOne(part: real, whole: real)
    requires 0.0 <= part <= whole && whole > 0.0
    ensures 0.0 <= part / whole <= 1.0
  {
    assert part / whole * whole == part;
  }

  lemma FullShare(whole: real)
    requires whole > 0.0
    ensures whole / whole == 1.0
  {
  }

  lemma {:induction false} NoneWeighsNothing(cases: seq<TestCase>, passed: seq<bool>)
    requires |passed| == |cases| && forall k :: 0 <= k < |passed| ==> !passed[k]
    ensures PassedWeight(cases, passed) == 0.0
  {
    if cases != [] {
      NoneWeighsNothing(cases[..|cases| - 1], passed[..|passed| - 1]);
    }
  }

  // ---------------------------------------------------------------------------
  // The two execution loops
  // ---------------------------------------------------------------------------

  /** One call of the execution service for one case. */
  method RunCase(run: Run, c: TestCase) returns (e: Execution)
    ensures e == Outcome(run, c)
  {
    var requests;
    e, requests := ExecuteCode(run.settings, run.judge, run.code, run.language, c.inputData, Some(c.expected));
  }

  /** test_code's loop: one entry per case, in order. */
  method TryCases(run: Run, cases: seq<TestCase>) returns (entries: seq<Entry>)
    ensures |entries| == |cases|
    ensures forall k :: 0 <= k < |cases| ==> entries[k] == EntryOf(run, cases[k])
  {
    entries := [];
    ghost var want := seq(|cases|, i requires 0 <= i < |cases| => EntryOf(run, cases[i]));
    for k := 0 to |cases|
      invariant entries == want[..k]
    {
      var c := cases[k];
      var e := RunCase(run, c);
      var entry := Entry(c.id, c.inputData, if e.Completed? then e.expected else c.expected, e);
      assert entry == want[k];
      PrefixGrows(want, k);
      entries := entries + [entry];
    }
    assert want[..|cases|] == want;
  }

  /** The prefix one longer is the prefix followed by the next element. */
  lemma PrefixGrows<T>(s: seq<T>, k: int)
    requires 0 <= k < |s|
    ensures s[..k + 1] == s[..k] + [s[k]]
  {
  }

  /** Extending a prefix by one case adds that case's weight to the total, and to the passed weight when it passed. */
  lemma WeightsStep(cases: seq<TestCase>, passed: seq<bool>, p: bool, k: int)
    requires |passed| == k && 0 <= k < |cases|
    ensures TotalWeight(cases[..k + 1]) == TotalWeight(cases[..k]) + cases[k].weight
    ensures PassedWeight(cases[..k + 1], passed + [p]) ==
      PassedWeight(cases[..k], passed) + (if p then cases[k].weight else 0.0)
  {
    assert cases[..k + 1][..k] == cases[..k] && (passed + [p])[..k] == passed;
  }

  /** submit_code's loop: one result row per case, with the total and the passed weight. */
  method GradeCases(run: Run, cases: seq<TestCase>) returns (rows: seq<ResultRow>, total: real, won: real)
    ensures |rows| == |cases|
    ensures forall k :: 0 <= k < |cases| ==> rows[k] == ResultOf(run, cases[k])
    ensures total == TotalWeight(cases) && won == PassedWeight(cases, Verdicts(run, cases))
  {
    rows, total, won := [], 0.0, 0.0;
    ghost var want, verdicts, passes := ResultsOf(run, cases), Verdicts(run, cases), [];
    for k := 0 to |cases|
      invariant rows == want[..k] && passes == verdicts[..k]
      invariant total == TotalWeight(cases[..k]) && won == PassedWeight(cases[..k], passes)
    {
      var c := cases[k];
      var e := RunCase(run, c);
      var passed := Verdict(e);
      WeightsStep(cases, passes, passed, k);
      total := total + c.weight;
      won := won + if passed then c.weight else 0.0;
      var row := ResultRow(c.id, passed, OutputOf(e), ErrorMessageOf(e));
      assert row == want[k] && passed == verdicts[k];
      PrefixGrows(want, k);
      PrefixGrows(verdicts, k);
      rows, passes := rows + [row], passes + [passed];
    }
    assert cases[..|cases|] == cases && verdicts[..|cases|] == verdicts && want[..|cases|] == want;
  }

  /** The stored results of a submission: one row per case, in order. */
  function ResultsOf(run: Run, cases: seq<TestCase>): (r: seq<ResultRow>)
    ensures |r| == |cases| && forall k :: 0 <= k < |cases| ==> r[k] == ResultOf(run, cases[k])
  {
    seq(|cases|, k requires 0 <= k < |cases| => ResultOf(run, cases[k]))
  }

  /** The score a submission of `run` earns on `cases`. */
  function GradeOf(run: Run, cases: seq<TestCase>): real {
    Score(TotalWeight(cases), PassedWeight(cases, Verdicts(run, cases)))
  }

  /** How many trials a student recorded for a task. */
  function AttemptCount(attempts: seq<Attempt>, taskId: int, studentId: int): (n: nat)
    ensures n <= |attempts|
  {
    if attempts == [] then 0
    else AttemptCount(attempts[..|attempts| - 1], taskId, studentId) +
         (var a := attempts[|attempts| - 1]; if a.taskId == taskId && a.studentId == studentId then 1 else 0)
  }

  /** Recording one trial raises that student's count for that task by one, and no other count. */
  lemma AttemptCountAfterTrial(attempts: seq<Attempt>, a: Attempt, taskId: int, studentId: int)
    ensures AttemptCount(attempts + [a], taskId, studentId) ==
      AttemptCount(attempts, taskId, studentId) + (if a.taskId == taskId && a.studentId == studentId then 1 else 0)
  {
    assert (attempts + [a])[..|attempts|] == attempts;
  }

  datatype TrialReply = TrialRefused(status: int, message: string) | Tried(entries: seq<Entry>, passedCount: nat,
                                                                          totalCount: nat)

  datatype SubmitReply = SubmitRefused(status: int, message: string) | Submitted(status: int, message: string, id: int)

  datatype DetailReply = DetailRefused(status: int, message: string) | Detail(submission: Submission,
                                                                            results: seq<ResultRow>)

  datatype ListReply = ListRefused(status: int, message: string) | Ids(ids: set<int>)

  datatype ExportReply = ExportRefused(status: int, message: string) | File(exported: Export.Exported)

  /** The message for code in another language than the task's. */
  function LanguageMismatch(taskLanguage: string, language: string): string {
    "任务要求使用" + LanguageDisplay(taskLanguage) + "，但提交的是" + language
  }

  class Grading {
    var tasks: map<int, Task>
    var teacherOf: map<int, int>           // class id -> its teacher
    var joined: map<int, set<int>>         // student id -> ids of the classes joined
    var attempts: seq<Attempt>
    var submissions: map<int, Submission>
    var index: map<(int, int), int>        // (task, student) -> submission id
    var results: map<int, seq<ResultRow>>  // submission id -> its test results
    var nextSubmissionId: int

    /** The uniqueness index and the submission table describe each other exactly. */
    predicate Valid()
      reads this
    {
      && (forall p | p in index :: index[p] in submissions &&
            (submissions[index[p]].taskId, submissions[index[p]].studentId) == p)
      && (forall id | id in submissions ::
            (submissions[id].taskId, submissions[id].studentId) in index &&
            index[(submissions[id].taskId, submissions[id].studentId)] == id)
      && (forall id | id in submissions :: id < nextSubmissionId)
      && results.Keys == submissions.Keys
    }

    constructor (tasks: map<int, Task>, teacherOf: map<int, int>, joined: map<int, set<int>>)
      ensures Valid() && this.tasks == tasks && this.teacherOf == teacherOf && this.joined == joined
      ensures attempts == [] && submissions == map[]
    {
      this.tasks, this.teacherOf, this.joined := tasks, teacherOf, joined;
      attempts, submissions, index, results, nextSubmissionId := [], map[], map[], map[], 1;
    }

    function JoinedBy(student: int): set<int>
      reads this
    {
      if student in joined then joined[student] else {}
    }

    /** The cases a request runs: test_code the visible ones, submit_code all, both in case order. */
    function Selection(taskId: int, all: bool): (r: seq<TestCase>)
      reads this
      requires taskId in tasks
      ensures InCaseOrder(r)
      ensures all ==> multiset(r) == multiset(tasks[taskId].cases)
      ensures !all ==> forall k :: 0 <= k < |r| ==> !r[k].isHidden
    {
      var sorted := ByOrder(tasks[taskId].cases);
      if all then sorted else VisibleKeepsOrder(sorted); Visible(sorted)
    }

    /**
     * The guard ladder shared by test_code and submit_code: authentication,
     * student role (with the view's own message), an existing active task,
     * membership of its class, a valid body, the task's language, and at
     * least one case to run.
     */
    function Refusal(requester: Requester, taskId: int, valid: bool, language: string, all: bool,
                     studentMessage: string): (r: Option<Answer>)
      reads this
      ensures requester.Anonymous? ==> r == Some(Answer(401, ""))
      ensures requester.Authenticated? && !IsStudentRole(requester.account.role) ==> r == Some(Answer(403, studentMessage))
      ensures r.None? <==>
        && IsStudent(requester) && taskId in tasks && tasks[taskId].isActive
        && tasks[taskId].classId in JoinedBy(requester.account.id)
        && valid && language == tasks[taskId].language && Selection(taskId, all) != []
    {
      if requester.Anonymous? then Some(Answer(401, ""))
      else if !IsStudentRole(requester.account.role) then Some(Answer(403, studentMessage))
      else if taskId !in tasks || !tasks[taskId].isActive then Some(Answer(404, "任务不存在"))
      else if tasks[taskId].classId !in JoinedBy(requester.account.id) then Some(Answer(403, "您没有权限访问此任务"))
      else if !valid then Some(Answer(400, ""))
      else if language != tasks[taskId].language then Some(Answer(400, LanguageMismatch(tasks[taskId].language, language)))
      else if Selection(taskId, all) == [] then Some(Answer(400, "该任务没有测试用例"))
      else None
    }

    /**
     * test_code: after the guards, run the visible cases in case order,
     * record exactly one attempt, and report how many passed.
     */
    method TestCode(requester: Requester, taskId: int, valid: bool, run: Run) returns (reply: TrialReply)
      requires Valid()
      modifies this
      ensures Valid()
      ensures tasks == old(tasks) && joined == old(joined) && teacherOf == old(teacherOf)
      ensures submissions == old(submissions) && index == old(index) && results == old(results)
      ensures var refusal := Refusal(requester, taskId, valid, run.language, false, "只有学生可以测试代码");
        if refusal.Some? then
          reply == TrialRefused(refusal.value.status, refusal.value.message) && attempts == old(attempts)
        else
          var cases := Selection(taskId, false);
          && reply.Tried?
          && |reply.entries| == |cases| == reply.totalCount
          && (forall k :: 0 <= k < |cases| ==> reply.entries[k] == EntryOf(run, cases[k]) && !cases[k].isHidden)
          && reply.passedCount == PassedCount(reply.entries) <= reply.totalCount
          && attempts == old(attempts) + [Attempt(taskId, requester.account.id, run.code, run.language, reply.entries)]
    {
      var refusal := Refusal(requester, taskId, valid, run.language, false, "只有学生可以测试代码");
      if refusal.Some? {
        return TrialRefused(refusal.value.status, refusal.value.message);
      }
      var cases := Selection(taskId, false);
      var entries := TryCases(run, cases);
      attempts := attempts + [Attempt(taskId, requester.account.id, run.code, run.language, entries)];
      reply := Tried(entries, PassedCount(entries), |entries|);
    }

    /**
     * submit_code: after the guards, run every case in case order, score
     * the weights, and create or update the one submission of this task and
     * student, replacing its results; 201 when created, 200 when updated.
     * No attempt is recorded.
     */
    method SubmitCode(requester: Requester, taskId: int, valid: bool, run: Run) returns (reply: SubmitReply)
      requires Valid()
      modifies this
      ensures Valid()
      ensures tasks == old(tasks) && joined == old(joined) && teacherOf == old(teacherOf)
      ensures attempts == old(attempts)
      ensures var refusal := Refusal(requester, taskId, valid, run.language, true, "只有学生可以提交代码");
        if refusal.Some? then
          && reply == SubmitRefused(refusal.value.status, refusal.value.message)
          && submissions == old(submissions) && index == old(index) && results == old(results)
        else
          var me := requester.account.id;
          var cases := Selection(taskId, true);
          && reply.Submitted? && reply.message == "提交成功"
          && (if (taskId, me) in old(index) then reply.status == 200 && reply.id == old(index)[(taskId, me)]
              else reply.status == 201 && reply.id == old(nextSubmissionId) && reply.id !in old(submissions))
          && index == old(index)[(taskId, me) := reply.id]
          && submissions == old(submissions)[reply.id := Submission(taskId, me, run.code, run.language,
                                                                    GradeOf(run, cases), AttemptCount(attempts, taskId, me))]
          && results == old(results)[reply.id := ResultsOf(run, cases)]
    {
      var refusal := Refusal(requester, taskId, valid, run.language, true, "只有学生可以提交代码");
      if refusal.Some? {
        return SubmitRefused(refusal.value.status, refusal.value.message);
      }
      var me := requester.account.id;
      var cases := Selection(taskId, true);
      var rows, total, won := GradeCases(run, cases);
      var score := if total > 0.0 then won / total * 100.0 else 0.0;
      assert rows == ResultsOf(run, cases) && score == GradeOf(run, cases);
      var testCount := AttemptCount(attempts, taskId, me);
      var record := Submission(taskId, me, run.code, run.language, score, testCount);
      var id, status := Upsert(taskId, me, record, rows);
      reply := Submitted(status, "提交成功", id);
    }

    /**
     * update_or_create on (task, student), then the results replaced: the
     * existing submission is overwritten (200), or a new one is made (201).
     */
    method Upsert(taskId: int, student: int, record: Submission, rows: seq<ResultRow>) returns (id: int, status: int)
      requires Valid() && record.taskId == taskId && record.studentId == student
      modifies this
      ensures Valid()
      ensures tasks == old(tasks) && joined == old(joined) && teacherOf == old(teacherOf)
      ensures attempts == old(attempts)
      ensures if (taskId, student) in old(index) then status == 200 && id == old(index)[(taskId, student)]
              else status == 201 && id == old(nextSubmissionId) && id !in old(submissions)
      ensures index == old(index)[(taskId, student) := id]
      ensures submissions == old(submissions)[id := record]
      ensures results == old(results)[id := rows]
    {
      if (taskId, student) in index {
        id, status := index[(taskId, student)], 200;
      } else {
        id, status := nextSubmissionId, 201;
        nextSubmissionId := nextSubmissionId + 1;
        index := index[(taskId, student) := id];
      }
      submissions := submissions[id := record];
      results := results[id := rows];
    }

    /**
     * my_submissions: a student's own, a teacher's on tasks of the classes
     * they teach, everyone else's all; then the optional task filter.
     */
    function MySubmissions(account: Account, taskFilter: Option<int>): (r: set<int>)
      reads this
      ensures r <= submissions.Keys
      ensures forall id | id in submissions :: id in r <==>
        && (taskFilter.None? || submissions[id].taskId == taskFilter.value)
        && (IsStudentRole(account.role) ==> submissions[id].studentId == account.id)
        && (IsTeacherRole(account.role) ==> TaughtBy(submissions[id].taskId, account.id))
    {
      set id | id in submissions && (taskFilter.None? || submissions[id].taskId == taskFilter.value) &&
        (if IsStudentRole(account.role) then submissions[id].studentId == account.id
         else if IsTeacherRole(account.role) then TaughtBy(submissions[id].taskId, account.id)
         else true)
    }

    /** The task exists and its class is taught by `teacher`. */
    predicate TaughtBy(taskId: int, teacher: int)
      reads this
    {
      taskId in tasks && tasks[taskId].classId in teacherOf && teacherOf[tasks[taskId].classId] == teacher
    }

    /** submission_detail: 404, then a student may open only their own, a teacher only their classes'. */
    function SubmissionDetail(requester: Requester, id: int): (r: DetailReply)
      reads this
      requires Valid()
      ensures requester.Anonymous? ==> r == DetailRefused(401, "")
      ensures requester.Authenticated? ==>
        if id !in submissions then r == DetailRefused(404, "提交不存在")
        else if IsStudentRole(requester.account.role) && submissions[id].studentId != requester.account.id then
          r == DetailRefused(403, "无权限")
        else if IsTeacherRole(requester.account.role) && !TaughtBy(submissions[id].taskId, requester.account.id) then
          r == DetailRefused(403, "无权限")
        else r == Detail(submissions[id], results[id])
    {
      if requester.Anonymous? then DetailRefused(401, "")
      else if id !in submissions then DetailRefused(404, "提交不存在")
      else if IsStudentRole(requester.account.role) && submissions[id].studentId != requester.account.id then
        DetailRefused(403, "无权限")
      else if IsTeacherRole(requester.account.role) && !TaughtBy(submissions[id].taskId, requester.account.id) then
        DetailRefused(403, "无权限")
      else Detail(submissions[id], results[id])
    }

    /**
     * class_submissions: teachers and admins; every submission on a task
     * of the class, whoever teaches it; then the optional task filter.
     */
    function ClassSubmissions(requester: Requester, classId: int, taskFilter: Option<int>): (r: ListReply)
      reads this
      ensures !IsTeacherOrAdmin(requester) ==>
        r.ListRefused? && Some(Answer(r.status, r.message)) == Denial(requester, false)
      ensures IsTeacherOrAdmin(requester) ==>
        && r.Ids? && r.ids <= submissions.Keys
        && forall id | id in submissions :: id in r.ids <==>
          && submissions[id].taskId in tasks && tasks[submissions[id].taskId].classId == classId
          && (taskFilter.None? || submissions[id].taskId == taskFilter.value)
    {
      if !IsTeacherOrAdmin(requester) then
        var denial := Denial(requester, false).value;
        ListRefused(denial.status, denial.message)
      else
        Ids(set id | id in submissions && submissions[id].taskId in tasks &&
                     tasks[submissions[id].taskId].classId == classId &&
                     (taskFilter.None? || submissions[id].taskId == taskFilter.value))
    }

    /** The export's records: every submission joined with its student, task and class. */
    method ExportGrades(requester: Requester, classRaw: Option<string>, taskRaw: Option<string>,
                        formatRaw: Option<string>, records: seq<Export.Record>)
      returns (reply: ExportReply)
      ensures !IsTeacherOrAdmin(requester) ==>
        reply.ExportRefused? && Some(Answer(reply.status, reply.message)) == Denial(requester, false)
      ensures IsTeacherOrAdmin(requester) ==>
        var format := ExportFormat(formatRaw);
        var classId, taskId := ParseId(classRaw), ParseId(taskRaw);
        && reply.File?
        && reply.exported.filename == (if format.Excel? then Export.ExcelFilename(classId, taskId)
                                       else Export.CsvFilename(classId, taskId))
        && reply.exported.table.header == Export.Columns
        && |reply.exported.table.rows| == |Export.Filtered(records, classId, taskId)|
        && forall k :: 0 <= k < |reply.exported.table.rows| ==>
             reply.exported.table.rows[k] == Export.RowOf(Export.Filtered(records, classId, taskId)[k])
    {
      if !IsTeacherOrAdmin(requester) {
        var denial := Denial(requester, false).value;
        return ExportRefused(denial.status, denial.message);
      }
      var exported := Export.ExportSubmissions(ExportFormat(formatRaw), records, ParseId(classRaw), ParseId(taskRaw));
      reply := File(exported);
    }
  }

  /** At most one submission exists per task and student. */
  lemma OneSubmissionPerPair(g: Grading, a: int, b: int)
    requires g.Valid() && a in g.submissions && b in g.submissions
    requires g.submissions[a].taskId == g.submissions[b].taskId
    requires g.submissions[a].studentId == g.submissions[b].studentId
    ensures a == b
  {
  }

  /** `int(raw) if raw else None`, with a value `int` refuses also giving None. */
  function ParseId(raw: Option<string>): (r: Option<int>)
    ensures raw.None? || raw.value == "" ==> r.None?
    ensures raw.Some? && raw.value != "" ==> r == ParseInt(raw.value)
  {
    if raw.None? || raw.value == "" then None else ParseInt(raw.value)
  }

  /** `format` is "csv" for a CSV file; anything else, and no value, gives Excel. */
  function ExportFormat(raw: Option<string>): (f: Export.Format)
    ensures f.Csv? <==> raw == Some("csv")
  {
    if raw.GetOr("excel") == "csv" then Export.Csv else Export.Excel
  }

  /**
   * The client's exportGrades and this view agree on the ids: an id the
   * client sends comes back as the same id, and one it leaves out reads as
   * none, so both sides filter by the same ids.
   */
  lemma ExportIdRoundTrip(name: string, id: Option<int>)
    ensures var params := ApiClient.IdQuery(name, id);
      ParseId(if name in params then Some(params[name]) else None) == (if TruthyId(id) then id else None)
  {
  }

  /** The client's default format, "excel", and a missing one select the same file kind. */
  lemma ExportFormatDefault(format: Option<string>)
    ensures ExportFormat(Some(format.GetOr("excel"))) == ExportFormat(format)
    ensures ExportFormat(Some("csv")).Csv? && ExportFormat(None).Excel?
  {
  }
}
