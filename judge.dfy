/**
 * The code-execution service: it submits a program and one input to a Judge0
 * server, polls for the verdict a bounded number of times, and decides
 * whether the output passes.
 *
 * The server is an oracle: `post` answers the submission, `poll` answers the
 * k-th status request for a token. Optional JSON fields are `None` when
 * missing or null.
 */
module Judge {
  import opened Common

  /** The server settings the service reads. */
  datatype Settings = Settings(apiUrl: string, apiKey: string, rapidApiHost: string)

  /** What the service sends to create a submission. */
  datatype Payload = Payload(source: string, languageId: int, stdin: string,
                             cpuTimeLimit: int, memoryLimit: int, expected: Option<string>)

  /** The creation response: HTTP status, the `token` field and the raw body text. */
  datatype PostReply = Posted(status: int, token: Option<string>, text: string) | PostRaised(message: string)

  /** A status response: HTTP status, Judge0 status id and description, and the run's streams. */
  datatype PollReply =
    | Polled(status: int, statusId: Option<int>, description: Option<string>,
             stdout: Option<string>, stderr: Option<string>, compileOutput: Option<string>)
    | PollRaised(message: string)

  datatype Judge0 = Judge0(post: Payload -> PostReply, poll: (string, nat) -> PollReply)

  /** The `details` of a failure: one of the two fixed configuration hints, or the body of the server's reply. */
  datatype Details = MissingKeyHint | AuthFailureHint | ResponseText(text: string)

  /** The service's result dictionary. */
  datatype Execution =
    | Completed(passed: bool, output: string, stderr: Option<string>, compileOutput: Option<string>,
                expected: string)
    | Failed(error: string, details: Option<Details>, statusId: Option<int>,
             stdout: Option<string>, stderr: Option<string>)

  const MaxAttempts := 30

  /** LANGUAGE_IDS, looked up with the language lower-cased. */
  function LanguageId(language: string): (r: Option<int>)
    ensures r == Some(62) <==> Lower(language) == "java"
    ensures r == Some(71) <==> Lower(language) == "python"
    ensures r.None? <==> Lower(language) != "java" && Lower(language) != "python"
  {
    var key := Lower(language);
    if key == "java" then Some(62) else if key == "python" then Some(71) else None
  }

  predicate IsRapidApi(s: Settings) {
    Contains(Lower(s.apiUrl), "rapidapi.com")
  }

  datatype HeaderResult = HeadersOk(headers: map<string, string>) | MissingKey(message: string)

  /** _get_headers: always a JSON content type; RapidAPI mode adds the key and host, or fails without a key. */
  function Headers(s: Settings): (r: HeaderResult)
    ensures r.HeadersOk? ==> "Content-Type" in r.headers && r.headers["Content-Type"] == "application/json"
    ensures r.MissingKey? <==> IsRapidApi(s) && s.apiKey == ""
    ensures r.HeadersOk? && IsRapidApi(s) ==>
      r.headers.Keys == {"Content-Type", "X-RapidAPI-Key", "X-RapidAPI-Host"} &&
      r.headers["X-RapidAPI-Key"] == s.apiKey && r.headers["X-RapidAPI-Host"] == s.rapidApiHost
    ensures r.HeadersOk? && !IsRapidApi(s) ==> r.headers.Keys == {"Content-Type"}
  {
    var base := map["Content-Type" := "application/json"];
    if !IsRapidApi(s) then HeadersOk(base)
    else if s.apiKey != "" then
      HeadersOk(base["X-RapidAPI-Key" := s.apiKey]["X-RapidAPI-Host" := s.rapidApiHost])
    else MissingKey("使用RapidAPI模式需要配置JUDGE0_API_KEY环境变量")
  }

  /** A Python string value is truthy when present and non-empty. */
  predicate Filled(s: Option<string>) {
    s.Some? && s.value != ""
  }

  /** The submission body: the expected output is included only when it is non-empty. */
  function BuildPayload(source: string, languageId: int, stdin: string, expected: Option<string>): (p: Payload)
    ensures p.expected.Some? <==> Filled(expected)
    ensures p.expected.Some? ==> p.expected == expected
    ensures p.cpuTimeLimit == 2 && p.memoryLimit == 128000
  {
    Payload(source, languageId, stdin, 2, 128000, if Filled(expected) then expected else None)
  }

  /**
   * _parse_result: outputs are compared after stripping trailing white space;
   * without an expected output, a run passes when it wrote nothing to stderr
   * and produced no compiler output.
   */
  function ParseResult(stdout: Option<string>, stderr: Option<string>, compileOutput: Option<string>,
                       expected: Option<string>): (r: Execution)
    ensures r.Completed?
    ensures r.output == (if Filled(stdout) then TrimEnd(stdout.value) else "")
    ensures r.expected == (if Filled(expected) then TrimEnd(expected.value) else "")
    ensures r.expected != "" ==> (r.passed <==> r.output == r.expected)
    ensures r.expected == "" ==> (r.passed <==> !Filled(stderr) && !Filled(compileOutput))
  {
    var out := if Filled(stdout) then TrimEnd(stdout.value) else "";
    var want := if Filled(expected) then TrimEnd(expected.value) else "";
    var passed := if want != "" then out == want else !Filled(stderr) && !Filled(compileOutput);
    Completed(passed, out, stderr, compileOutput, want)
  }

  /** Trailing white space on either side never changes a verdict. */
  lemma VerdictIgnoresTrailingSpace(out: string, want: string, pad: string, stderr: Option<string>,
                                    compileOutput: Option<string>)
    requires forall i :: 0 <= i < |pad| ==> IsSpace(pad[i])
    ensures ParseResult(Some(out + pad), stderr, compileOutput, Some(want)).passed ==
            ParseResult(Some(out), stderr, compileOutput, Some(want + pad)).passed
  {
    TrimEndOfPadded(out, pad);
    TrimEndOfPadded(want, pad);
  }

  /** Appending white space does not change a right-strip. */
  lemma {:induction false} TrimEndOfPadded(s: string, pad: string)
    requires forall i :: 0 <= i < |pad| ==> IsSpace(pad[i])
    ensures TrimEnd(s + pad) == TrimEnd(s)
    decreases |pad|
  {
    if pad == [] {
      assert s + pad == s;
    } else {
      var shorter := pad[..|pad| - 1];
      assert (s + pad)[..|s + pad| - 1] == s + shorter;
      TrimEndOfPadded(s, shorter);
    }
  }

  /** The polling loop's outcome from attempt k on, counting the status requests it makes. */
  function PollFrom(judge: Judge0, token: string, expected: Option<string>, k: nat): (r: (Execution, nat))
    requires k <= MaxAttempts
    ensures r.1 <= MaxAttempts - k
    decreases MaxAttempts - k
  {
    if k == MaxAttempts then (Failed("执行超时", None, None, None, None), 0)
    else match judge.poll(token, k)
      case PollRaised(message) => (Failed("网络请求异常: " + message, None, None, None, None), 1)
      case Polled(status, statusId, description, stdout, stderr, compileOutput) =>
        if status != 200 then (Failed("获取结果失败: " + IntToString(status), None, None, None, None), 1)
        else if statusId == Some(3) then (ParseResult(stdout, stderr, compileOutput, expected), 1)
        else if statusId.Some? && 4 <= statusId.value <= 12 then
          (Failed(description.GetOr("执行失败"), None, statusId, stdout, stderr), 1)
        else
          var rest := PollFrom(judge, token, expected, k + 1);
          (rest.0, rest.1 + 1)
  }

  const AuthFailureDetails := "如果使用RapidAPI，请检查JUDGE0_API_KEY是否正确。访问https://rapidapi.com/judge0-official/api/judge0-ce获取有效的API key。如需使用免费的Judge0 CE公共实例，请将JUDGE0_API_URL设置为https://ce.judge0.com并清除JUDGE0_API_KEY。"
  const MissingKeyDetails := "请配置JUDGE0_API_KEY环境变量，或使用Judge0 CE公共实例（设置JUDGE0_API_URL=https://ce.judge0.com）。"

  /** The text the service puts under "details". */
  function DetailsText(d: Details): (r: string)
    ensures d.MissingKeyHint? ==> r == MissingKeyDetails
    ensures d.AuthFailureHint? ==> r == AuthFailureDetails
    ensures d.ResponseText? ==> r == d.text
  {
    match d
    case MissingKeyHint => MissingKeyDetails
    case AuthFailureHint => AuthFailureDetails
    case ResponseText(text) => text
  }

  /** execute_code: its result and the number of HTTP requests it makes. */
  function Execute(s: Settings, judge: Judge0, source: string, language: string, stdin: string,
                   expected: Option<string>): (r: (Execution, nat))
    ensures r.1 <= 1 + MaxAttempts
  {
    var languageId := LanguageId(language);
    if languageId.None? then (Failed("不支持的语言: " + language, None, None, None, None), 0)
    else match Headers(s)
      case MissingKey(message) => (Failed(message, Some(MissingKeyHint), None, None, None), 0)
      case HeadersOk(_) =>
        match judge.post(BuildPayload(source, languageId.value, stdin, expected))
        case PostRaised(message) => (Failed("网络请求异常: " + message, None, None, None, None), 1)
        case Posted(status, token, text) =>
          if status == 401 then (Failed("Judge0 API认证失败", Some(AuthFailureHint), None, None, None), 1)
          else if status != 201 then
            (Failed("API请求失败: " + IntToString(status), Some(ResponseText(text)), None, None, None), 1)
          else if !Filled(token) then (Failed("未获取到执行token", None, None, None, None), 1)
          else
            var polled := PollFrom(judge, token.value, expected, 0);
            (polled.0, polled.1 + 1)
  }

  /** execute_code, with its bounded polling loop. */
  method ExecuteCode(s: Settings, judge: Judge0, source: string, language: string, stdin: string,
                     expected: Option<string>)
    returns (r: Execution, requests: nat)
    ensures (r, requests) == Execute(s, judge, source, language, stdin, expected)
  {
    var languageId := LanguageId(language);
    if languageId.None? {
      return Failed("不支持的语言: " + language, None, None, None, None), 0;
    }
    var payload := BuildPayload(source, languageId.value, stdin, expected);
    var headers := Headers(s);
    if headers.MissingKey? {
      return Failed(headers.message, Some(MissingKeyHint), None, None, None), 0;
    }
    var reply := judge.post(payload);
    requests := 1;
    if reply.PostRaised? {
      return Failed("网络请求异常: " + reply.message, None, None, None, None), requests;
    }
    if reply.status == 401 {
      return Failed("Judge0 API认证失败", Some(AuthFailureHint), None, None, None), requests;
    }
    if reply.status != 201 {
      return Failed("API请求失败: " + IntToString(reply.status), Some(ResponseText(reply.text)), None, None, None),
        requests;
    }
    if !Filled(reply.token) {
      return Failed("未获取到执行token", None, None, None, None), requests;
    }
    var polled, polls := Poll(judge, reply.token.value, expected);
    return polled, polls + 1;
  }

  /** The polling loop of execute_code: at most 30 status requests. */
  method Poll(judge: Judge0, token: string, expected: Option<string>) returns (r: Execution, requests: nat)
    ensures (r, requests) == PollFrom(judge, token, expected, 0)
  {
    var attempt := 0;
    requests := 0;
    while attempt < MaxAttempts
      invariant 0 <= attempt <= MaxAttempts && requests == attempt
      invariant PollFrom(judge, token, expected, 0).0 == PollFrom(judge, token, expected, attempt).0
      invariant PollFrom(judge, token, expected, 0).1 == PollFrom(judge, token, expected, attempt).1 + attempt
    {
      var answer := judge.poll(token, attempt);
      requests := requests + 1;
      if answer.PollRaised? {
        return Failed("网络请求异常: " + answer.message, None, None, None, None), requests;
      }
      if answer.status != 200 {
        return Failed("获取结果失败: " + IntToString(answer.status), None, None, None, None), requests;
      }
      if answer.statusId == Some(3) {
        return ParseResult(answer.stdout, answer.stderr, answer.compileOutput, expected), requests;
      }
      if answer.statusId.Some? && 4 <= answer.statusId.value <= 12 {
        return Failed(answer.description.GetOr("执行失败"), None, answer.statusId, answer.stdout, answer.stderr),
               requests;
      }
      attempt := attempt + 1;
    }
    return Failed("执行超时", None, None, None, None), requests;
  }

  /** An unsupported language or a RapidAPI URL without a key fails before any request. */
  lemma FailsBeforeRequests(s: Settings, judge: Judge0, source: string, language: string, stdin: string,
                            expected: Option<string>)
    requires LanguageId(language).None? || (IsRapidApi(s) && s.apiKey == "")
    ensures var r := Execute(s, judge, source, language, stdin, expected);
      r.1 == 0 && r.0.Failed? &&
      (LanguageId(language).None? ==> r.0.error == "不支持的语言: " + language)
  {
  }

  /** A status response is "still pending" when it keeps the loop polling. */
  predicate Pending(reply: PollReply) {
    reply.Polled? && reply.status == 200 && reply.statusId != Some(3) &&
    !(reply.statusId.Some? && 4 <= reply.statusId.value <= 12)
  }

  /** If every status response is pending, the loop gives up after exactly 30 requests with "执行超时". */
  lemma {:induction false} PendingTimesOut(judge: Judge0, token: string, expected: Option<string>, k: nat)
    requires k <= MaxAttempts
    requires forall j :: k <= j < MaxAttempts ==> Pending(judge.poll(token, j))
    ensures PollFrom(judge, token, expected, k) == (Failed("执行超时", None, None, None, None), MaxAttempts - k)
    decreases MaxAttempts - k
  {
    if k < MaxAttempts {
      PendingTimesOut(judge, token, expected, k + 1);
    }
  }

  /**
   * Judge0 statuses 13 and 14 (internal error, exec format error) are final
   * but not in the failure list, so the loop treats them as pending.
   */
  lemma UnlistedStatusIsPending(reply: PollReply)
    requires reply.Polled? && reply.status == 200 && reply.statusId.Some? && reply.statusId.value in {13, 14}
    ensures Pending(reply)
  {
  }

  /** A completed status after pending ones yields the parsed verdict, after k + 1 status requests. */
  lemma {:induction false} CompletedAfterPending(judge: Judge0, token: string, expected: Option<string>, k: nat)
    requires k < MaxAttempts
    requires forall j :: 0 <= j < k ==> Pending(judge.poll(token, j))
    requires judge.poll(token, k).Polled? && judge.poll(token, k).status == 200
    requires judge.poll(token, k).statusId == Some(3)
    ensures var p := judge.poll(token, k);
      PollFrom(judge, token, expected, 0) == (ParseResult(p.stdout, p.stderr, p.compileOutput, expected), k + 1)
  {
    CompletedFrom(judge, token, expected, 0, k);
  }

  lemma {:induction false} CompletedFrom(judge: Judge0, token: string, expected: Option<string>, i: nat, k: nat)
    requires i <= k < MaxAttempts
    requires forall j :: i <= j < k ==> Pending(judge.poll(token, j))
    requires judge.poll(token, k).Polled? && judge.poll(token, k).status == 200
    requires judge.poll(token, k).statusId == Some(3)
    ensures var p := judge.poll(token, k);
      PollFrom(judge, token, expected, i) == (ParseResult(p.stdout, p.stderr, p.compileOutput, expected), k + 1 - i)
    decreases k - i
  {
    if i < k {
      CompletedFrom(judge, token, expected, i + 1, k);
    }
  }

  // ---------------------------------------------------------------------------
  // test_code of the service
  // ---------------------------------------------------------------------------

  /** A test case as the service receives it. */
  datatype CaseInput = CaseInput(id: Option<int>, inputData: string, expected: string)

  /** One entry of the service's result list: the execution tagged with the case's id and input. */
  datatype CaseRun = CaseRun(testCaseId: Option<int>, inputData: string, execution: Execution)

  function RunCase(s: Settings, judge: Judge0, source: string, language: string, c: CaseInput): CaseRun {
    CaseRun(c.id, c.inputData, Execute(s, judge, source, language, c.inputData, Some(c.expected)).0)
  }

  /** The service's test_code: one run per case, in order. */
  method TestCode(s: Settings, judge: Judge0, source: string, language: string, cases: seq<CaseInput>)
    returns (results: seq<CaseRun>)
    ensures |results| == |cases|
    ensures forall i :: 0 <= i < |cases| ==>
      results[i] == RunCase(s, judge, source, language, cases[i]) &&
      results[i].testCaseId == cases[i].id && results[i].inputData == cases[i].inputData
  {
    results := [];
    for i := 0 to |cases|
      invariant |results| == i
      invariant forall j :: 0 <= j < i ==> results[j] == RunCase(s, judge, source, language, cases[j])
    {
      var run, _ := ExecuteCode(s, judge, source, language, cases[i].inputData, Some(cases[i].expected));
      results := results + [CaseRun(cases[i].id, cases[i].inputData, run)];
    }
  }
}
