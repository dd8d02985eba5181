/**
 * Programming tasks and their test cases, as the database stores them, with
 * the order in which the related test cases are read: by `order`, then by id.
 */
module Tasks {
  import opened Common

  /** A stored test case. Weights are reals. */
  datatype TestCase = TestCase(id: int, inputData: string, expected: string, isHidden: bool, order: int,
                               weight: real)

  /**
   * A stored task with its test cases in creation order (increasing id).
   * `templateCode`, `functionName` and `solutionMode` are the attributes the
   * serializers and the front end read and write.
   */
  datatype Task = Task(title: string, description: string, language: string, classId: int, createdBy: int,
                       deadline: Option<int>, isActive: bool, templateCode: string, functionName: string,
                       solutionMode: string, cases: seq<TestCase>)

  /** The display name of a language choice; other values pass through. */
  function LanguageDisplay(language: string): (r: string)
    ensures language == "java" ==> r == "Java"
    ensures language == "python" ==> r == "Python"
    ensures language != "java" && language != "python" ==> r == language
  {
    if language == "java" then "Java" else if language == "python" then "Python" else language
  }

  /** The test-case ordering: by `order`, ties by id. */
  predicate CaseBefore(a: TestCase, b: TestCase) {
    a.order < b.order || (a.order == b.order && a.id <= b.id)
  }

  predicate InCaseOrder(s: seq<TestCase>) {
    forall i, j :: 0 <= i < j < |s| ==> CaseBefore(s[i], s[j])
  }

  /** Insert one case before the first case it precedes. */
  function Insert(c: TestCase, s: seq<TestCase>): (r: seq<TestCase>)
    ensures multiset(r) == multiset(s) + multiset{c} && |r| == |s| + 1
  {
    if s == [] || CaseBefore(c, s[0]) then [c] + s
    else
      assert s == [s[0]] + s[1..];
      [s[0]] + Insert(c, s[1..])
  }

  lemma {:induction false} InsertKeepsOrder(c: TestCase, s: seq<TestCase>)
    requires InCaseOrder(s)
    ensures InCaseOrder(Insert(c, s))
  {
    if s != [] && !CaseBefore(c, s[0]) {
      var rest := Insert(c, s[1..]);
      InsertKeepsOrder(c, s[1..]);
      assert s == [s[0]] + s[1..];
      forall k | 0 <= k < |rest|
        ensures CaseBefore(s[0], rest[k])
      {
        assert rest[k] in multiset(rest);
        if rest[k] != c {
          assert rest[k] in multiset(s[1..]);
          var i :| 0 <= i < |s[1..]| && s[1..][i] == rest[k];
          assert s[i + 1] == rest[k];
        }
      }
    }
  }

  /** The cases of a task as `task.test_cases.order_by("order")` reads them: the same cases, sorted. */
  function ByOrder(s: seq<TestCase>): (r: seq<TestCase>)
    ensures InCaseOrder(r) && multiset(r) == multiset(s) && |r| == |s|
  {
    if s == [] then []
    else
      assert s == [s[0]] + s[1..];
      var rest := ByOrder(s[1..]);
      InsertKeepsOrder(s[0], rest);
      Insert(s[0], rest)
  }

  /** A list without its hidden cases. */
  function Visible(s: seq<TestCase>): (r: seq<TestCase>)
    ensures |r| <= |s|
    ensures forall k :: 0 <= k < |r| ==> !r[k].isHidden
  {
    if s == [] then []
    else
      assert s == [s[0]] + s[1..];
      if s[0].isHidden then Visible(s[1..]) else [s[0]] + Visible(s[1..])
  }

  /** Filtering distributes over concatenation: the kept cases stay in their order. */
  lemma {:induction false} VisibleOfConcat(a: seq<TestCase>, b: seq<TestCase>)
    ensures Visible(a + b) == Visible(a) + Visible(b)
    decreases |a|
  {
    if a == [] {
      assert a + b == b;
    } else {
      var ab := a + b;
      assert ab != [] && ab[0] == a[0] && ab[1..] == a[1..] + b;
      VisibleOfConcat(a[1..], b);
      if a[0].isHidden {
        assert Visible(ab) == Visible(a[1..] + b);
        assert Visible(a) == Visible(a[1..]);
      } else {
        assert Visible(ab) == [a[0]] + Visible(a[1..] + b);
        assert Visible(a) == [a[0]] + Visible(a[1..]);
        assert [a[0]] + (Visible(a[1..]) + Visible(b)) == ([a[0]] + Visible(a[1..])) + Visible(b);
      }
    }
  }

  /** A case is kept exactly when it is in the list and not hidden. */
  lemma {:induction false} VisibleMembers(s: seq<TestCase>, c: TestCase)
    ensures c in Visible(s) <==> c in s && !c.isHidden
  {
    if s != [] {
      assert s == [s[0]] + s[1..];
      VisibleMembers(s[1..], c);
    }
  }

  /** Each visible case is kept as often as it occurs; each hidden one is dropped. */
  lemma {:induction false} VisibleCounts(s: seq<TestCase>, c: TestCase)
    ensures multiset(Visible(s))[c] == if c.isHidden then 0 else multiset(s)[c]
  {
    if s != [] {
      assert s == [s[0]] + s[1..];
      VisibleCounts(s[1..], c);
    }
  }

  /** A filtered ordered list is still ordered. */
  lemma {:induction false} VisibleKeepsOrder(s: seq<TestCase>)
    requires InCaseOrder(s)
    ensures InCaseOrder(Visible(s))
  {
    if s != [] {
      VisibleKeepsOrder(s[1..]);
      forall k | 0 <= k < |Visible(s[1..])|
        ensures Visible(s[1..])[k] in s[1..]
      {
        VisibleMembers(s[1..], Visible(s[1..])[k]);
      }
    }
  }
}
