/**
 * The front end's error-message normaliser: one display string for whatever a
 * failed call threw, taking into account the HTTP status, the response body
 * (Django REST framework's shapes), the request URL and a caller default.
 *
 * Response bodies are JSON values as the browser holds them after parsing;
 * numbers are integers here. Where the JavaScript itself would throw a
 * TypeError (calling `includes` on a number or an object, `Object.keys(null)`),
 * the outcome is `TypeError` rather than a string.
 */
module ErrorHandler {
  import opened Common

  datatype Json =
    | Undefined
    | Null
    | Bool(b: bool)
    | Num(n: int)
    | Str(s: string)
    | Arr(items: seq<Json>)
    | Obj(fields: seq<(string, Json)>)  // own keys in enumeration order

  /** JavaScript truthiness. */
  predicate Truthy(v: Json) {
    match v
    case Undefined => false
    case Null => false
    case Bool(b) => b
    case Num(n) => n != 0
    case Str(s) => s != ""
    case Arr(_) => true
    case Obj(_) => true
  }

  function Lookup(fields: seq<(string, Json)>, key: string): Json {
    if fields == [] then Undefined
    else if fields[0].0 == key then fields[0].1
    else Lookup(fields[1..], key)
  }

  /** `v?.key`: only objects carry the keys of a response body. */
  function Prop(v: Json, key: string): Json {
    if v.Obj? then Lookup(v.fields, key) else Undefined
  }

  /** `String(v)`, which is also what a template literal `${v}` produces. */
  function ToText(v: Json): string
    decreases v
  {
    match v
    case Undefined => "undefined"
    case Null => "null"
    case Bool(b) => if b then "true" else "false"
    case Num(n) => IntToString(n)
    case Str(s) => s
    case Arr(items) =>
      // Array.prototype.join prints null and undefined elements as empty strings
      Join(seq(|items|, i requires 0 <= i < |items| =>
             if items[i].Null? || items[i].Undefined? then "" else ToText(items[i])), ",")
    case Obj(_) => "[object Object]"
  }

  /** What a caught value looks like to the normaliser. */
  datatype Caught =
    | Nullish  // `null` or `undefined` was thrown
    | Thrown(message: string, text: string, response: Option<Response>, url: string)
      // message: `error.message` ("" when absent); text: `error.toString()`;
      // url: `error.config.url` ("" when absent)

  datatype Response = Response(status: int, data: Json)

  /** The normaliser's outcome: a display string, or the TypeError the source throws. */
  datatype Display = Text(text: string) | TypeError

  const SessionExpired := "登录已过期，请重新登录"
  const WrongCredentials := "用户名或密码错误"
  const Forbidden := "您没有权限执行此操作"
  const NotFound := "请求的资源不存在"
  const ServerError := "服务器错误，请稍后重试"
  const BadRequest := "请求失败，请检查输入"
  const Separator := "；"

  // ---------------------------------------------------------------------------
  // getFieldName
  // ---------------------------------------------------------------------------

  const FieldNames: map<string, string> := map[
    "username" := "用户名", "password" := "密码", "password2" := "确认密码",
    "email" := "邮箱", "name" := "名称", "title" := "标题", "description" := "描述",
    "class_obj" := "班级", "language" := "编程语言", "deadline" := "截止时间",
    "test_cases" := "测试用例", "input_data" := "输入数据", "expected_output" := "期望输出",
    "code_content" := "代码内容", "role" := "角色", "first_name" := "名", "last_name" := "姓"]

  /** The localised name of a validation field; unknown keys are shown as they are. */
  function FieldName(key: string): (r: string)
    ensures key in FieldNames ==> r == FieldNames[key] && r != key
    ensures key !in FieldNames ==> r == key
  {
    if key in FieldNames then FieldNames[key] else key
  }

  /** Members every JavaScript object literal inherits from Object.prototype. */
  const PrototypeMembers: set<string> := {
    "constructor", "hasOwnProperty", "isPrototypeOf", "propertyIsEnumerable",
    "toLocaleString", "toString", "valueOf", "__defineGetter__", "__defineSetter__",
    "__lookupGetter__", "__lookupSetter__", "__proto__"}

  /**
   * getFieldName as the source writes it: `fieldMap[field] || field` on an
   * object literal also finds the inherited members, and the template literal
   * that uses the result prints them as source text.
   */
  function FieldNameAsWritten(key: string): string {
    if key in FieldNames then FieldNames[key]
    else if key == "__proto__" then "[object Object]"
    else if key == "constructor" then "function Object() { [native code] }"
    else if key in PrototypeMembers then "function " + key + "() { [native code] }"
    else key
  }

  /** The inherited member names are not shown as themselves by the source. */
  lemma FieldNameAsWrittenShowsPrototype(key: string)
    requires key in PrototypeMembers
    ensures FieldNameAsWritten(key) != key
    ensures FieldName(key) == key
  {
    assert key !in FieldNames;
    if key != "__proto__" && key != "constructor" {
      assert |FieldNameAsWritten(key)| > |key|;
    }
  }

  /** On every other key, the corrected lookup agrees with the source. */
  lemma FieldNameAgreesOffPrototype(key: string)
    requires key !in PrototypeMembers
    ensures FieldNameAsWritten(key) == FieldName(key)
  {
  }

  // ---------------------------------------------------------------------------
  // formatError
  // ---------------------------------------------------------------------------

  /** Every string the idiom translation can produce besides the message itself. */
  const Translations: set<string> := {
    "密码过短，请至少使用8个字符", "密码过于简单，请使用更复杂的密码", "密码不能全为数字",
    "密码与用户名过于相似", "两次密码输入不一致", "用户名已存在，请使用其他用户名", "请输入用户名",
    "邮箱已被注册，请使用其他邮箱", "邮箱格式不正确", "请输入邮箱地址", SessionExpired,
    "账号不存在或未激活", "无法连接到服务器，请检查后端服务是否运行", Forbidden, NotFound,
    "网络连接失败，请检查网络设置", "请求超时，请稍后重试"}

  /** The ordered idiom rules of formatError; the first rule that matches decides. */
  function Translate(m: string): (r: string)
    ensures r == m || r in Translations
  {
    if Contains(m, "This password is too short") then "密码过短，请至少使用8个字符"
    else if Contains(m, "This password is too common") then "密码过于简单，请使用更复杂的密码"
    else if Contains(m, "This password is entirely numeric") then "密码不能全为数字"
    else if Contains(m, "password") && Contains(m, "similar") then "密码与用户名过于相似"
    else if Contains(m, "password") && Contains(m, "match") then "两次密码输入不一致"
    else if Contains(m, "user") && Contains(m, "already exists") then "用户名已存在，请使用其他用户名"
    else if Contains(m, "username") && Contains(m, "already exists") then "用户名已存在，请使用其他用户名"
    else if Contains(m, "username") && Contains(m, "required") then "请输入用户名"
    else if Contains(m, "email") && Contains(m, "already exists") then "邮箱已被注册，请使用其他邮箱"
    else if Contains(m, "email") && Contains(m, "invalid") then "邮箱格式不正确"
    else if Contains(m, "email") && Contains(m, "required") then "请输入邮箱地址"
    // both inner branches of the source's authentication rule return the same string
    else if Contains(m, "authentication") || Contains(m, "credentials") then SessionExpired
    else if Contains(m, "token") && Contains(m, "invalid") then SessionExpired
    else if Contains(m, "Invalid token") || Contains(m, "Token is invalid") || Contains(m, "token is invalid") then SessionExpired
    else if Contains(m, "No active account") then "账号不存在或未激活"
    else if Contains(m, "Network Error") || Contains(m, "ERR_CONNECTION_REFUSED") || Contains(m, "Failed to fetch") then "无法连接到服务器，请检查后端服务是否运行"
    else if Contains(m, "permission") || Contains(m, "not authorized") then Forbidden
    else if Contains(m, "not found") || Contains(m, "does not exist") then NotFound
    else if Contains(m, "Network Error") || Contains(m, "network") then "网络连接失败，请检查网络设置"
    else if Contains(m, "timeout") then "请求超时，请稍后重试"
    else m
  }

  /** formatError: strings go through the idiom rules, anything else is printed with `String()`. */
  function FormatError(v: Json): (r: string)
    ensures v.Str? ==> r == Translate(v.s)
    ensures !v.Str? ==> r == ToText(v)
  {
    if v.Str? then Translate(v.s) else ToText(v)
  }

  predicate IsAsciiLetter(c: char) {
    'a' <= c <= 'z' || 'A' <= c <= 'Z'
  }

  /** A keyword that begins with a letter cannot occur in a message without letters. */
  lemma AbsentKeyword(m: string, kw: string)
    requires kw != [] && IsAsciiLetter(kw[0])
    requires forall i :: 0 <= i < |m| ==> !IsAsciiLetter(m[i])
    ensures !Contains(m, kw)
  {
    if Contains(m, kw) {
      ContainsChar(m, kw, 0);
      assert false;
    }
  }

  /** A message that is already localised (no Latin letters) passes through unchanged. */
  lemma LocalisedPassesThrough(m: string)
    requires forall i :: 0 <= i < |m| ==> !IsAsciiLetter(m[i])
    ensures Translate(m) == m
  {
    AbsentKeyword(m, "This password is too short");
    AbsentKeyword(m, "This password is too common");
    AbsentKeyword(m, "This password is entirely numeric");
    AbsentKeyword(m, "password");
    AbsentKeyword(m, "user");
    AbsentKeyword(m, "username");
    AbsentKeyword(m, "email");
    AbsentKeyword(m, "authentication");
    AbsentKeyword(m, "credentials");
    AbsentKeyword(m, "token");
    AbsentKeyword(m, "Invalid token");
    AbsentKeyword(m, "Token is invalid");
    AbsentKeyword(m, "token is invalid");
    AbsentKeyword(m, "No active account");
    AbsentKeyword(m, "Network Error");
    AbsentKeyword(m, "ERR_CONNECTION_REFUSED");
    AbsentKeyword(m, "Failed to fetch");
    AbsentKeyword(m, "permission");
    AbsentKeyword(m, "not authorized");
    AbsentKeyword(m, "not found");
    AbsentKeyword(m, "does not exist");
    AbsentKeyword(m, "network");
    AbsentKeyword(m, "timeout");
  }

  /** The "credentials" rule comes first: such a message never reaches the "No active account" rule. */
  lemma CredentialsShadowNoActiveAccount(m: string)
    requires Contains(m, "credentials")
    ensures Translate(m) != "账号不存在或未激活"
  {
  }


  // ---------------------------------------------------------------------------
  // getErrorMessage
  // ---------------------------------------------------------------------------

  /** `errorMessage` of the source: the string body, else a truthy `detail`, else a truthy `error`, else "". */
  function ErrorText(data: Json): (r: Json)
    ensures r.Str? || Truthy(r)
  {
    if data.Str? then data
    else if Truthy(Prop(data, "detail")) then Prop(data, "detail")
    else if Truthy(Prop(data, "error")) then Prop(data, "error")
    else Str("")
  }

  /** `v.includes(needle)` on a string or an array; anything else has no `includes`. */
  predicate Includes(v: Json, needle: string)
    requires v.Str? || v.Arr?
  {
    if v.Str? then Contains(v.s, needle) else Str(needle) in v.items
  }

  predicate IncludesAny(v: Json, needles: seq<string>)
    requires v.Str? || v.Arr?
  {
    exists k :: 0 <= k < |needles| && Includes(v, needles[k])
  }

  const ExpiryHints := ["token", "登录已过期", "Invalid token", "Token", "not provided",
                        "Authentication credentials were not provided"]
  const CredentialHints := ["password", "username", "No active account"]

  /** The 401 branch: token expiry first, then the login-page credential check, then expiry again. */
  function Unauthorized(data: Json, url: string): Display {
    if Truthy(Prop(data, "token_expired")) then Text(SessionExpired)
    else
      var msg := ErrorText(data);
      if !msg.Str? && !msg.Arr? then TypeError
      else if IncludesAny(msg, ExpiryHints) then Text(SessionExpired)
      else if Contains(url, "/auth/login/") && IncludesAny(msg, CredentialHints) then Text(WrongCredentials)
      else Text(SessionExpired)
  }

  /** The fixed strings for a response without a (truthy) body. */
  function StatusFallback(status: int, default: string): (r: string)
    ensures status == 403 ==> r == Forbidden
    ensures status == 404 ==> r == NotFound
    ensures status >= 500 ==> r == ServerError
    ensures 400 <= status < 500 && status != 403 && status != 404 ==> r == BadRequest
    ensures status < 400 ==> r == default
  {
    if status == 403 then Forbidden
    else if status == 404 then NotFound
    else if status == 500 then ServerError
    else if status >= 500 then ServerError
    else if status >= 400 then BadRequest
    else default
  }

  /** The lines one key of a validation body adds; `None` where `Object.keys(null)` throws. */
  function Contribution(field: (string, Json)): Option<seq<string>> {
    var (key, value) := field;
    if key == "detail" || key == "error" then Some([])
    else match value
      case Arr(items) => Some(seq(|items|, i requires 0 <= i < |items| => FieldName(key) + ": " + ToText(items[i])))
      case Str(s) => Some([FieldName(key) + ": " + s])
      case Obj(nested) => Some(seq(|nested|, i requires 0 <= i < |nested| =>
                            FieldName(key) + "." + FieldName(nested[i].0) + ": " + ToText(nested[i].1)))
      case Null => None
      case _ => Some([])
  }

  /** The field-level messages of a validation body, in key order. */
  function FieldErrors(fields: seq<(string, Json)>): Option<seq<string>> {
    if fields == [] then Some([])
    else
      var init := FieldErrors(fields[..|fields| - 1]);
      var last := Contribution(fields[|fields| - 1]);
      if init.None? || last.None? then None else Some(init.value + last.value)
  }

  /** getErrorMessage. */
  function ErrorMessage(error: Caught, default: string): Display {
    match error
    case Nullish => Text(default)
    case Thrown(message, text, response, url) =>
      if response.None? then Text(if message != "" then message else text)
      else
        var status := response.value.status;
        var data := response.value.data;
        if status == 401 then Unauthorized(data, url)
        else if !Truthy(data) then Text(StatusFallback(status, default))
        else if data.Obj? then
          match FieldErrors(data.fields)
          case None => TypeError
          case Some(lines) =>
            if lines != [] then Text(Join(lines, Separator))
            else if Truthy(Prop(data, "detail")) then Text(FormatError(Prop(data, "detail")))
            else if Truthy(Prop(data, "error")) then Text(FormatError(Prop(data, "error")))
            else Text(default)
        else if data.Str? then Text(FormatError(data))
        else if data.Arr? && |data.items| > 0 then
          Text(Join(seq(|data.items|, i requires 0 <= i < |data.items| => FormatError(data.items[i])), Separator))
        else Text(default)
  }

  /** Collects the field-level messages the way the source does, pushing inside a loop over the keys. */
  method CollectFieldErrors(fields: seq<(string, Json)>) returns (lines: seq<string>, threw: bool)
    ensures threw <==> FieldErrors(fields).None?
    ensures !threw ==> FieldErrors(fields) == Some(lines)
  {
    lines, threw := [], false;
    var i := 0;
    while i < |fields|
      invariant 0 <= i <= |fields|
      invariant FieldErrors(fields[..i]) == Some(lines)
    {
      var (key, value) := fields[i];
      ghost var before := lines;
      ghost var added := Contribution(fields[i]);
      if key != "detail" && key != "error" {
        match value {
          case Arr(items) =>
            var j := 0;
            while j < |items|
              invariant 0 <= j <= |items|
              invariant lines == before + added.value[..j]
            {
              lines := lines + [FieldName(key) + ": " + ToText(items[j])];
              assert added.value[..j + 1] == added.value[..j] + [added.value[j]];
              j := j + 1;
            }
            assert added.value[..j] == added.value;
          case Str(s) =>
            lines := lines + [FieldName(key) + ": " + s];
            assert added == Some([FieldName(key) + ": " + s]);
          case Obj(nested) =>
            var j := 0;
            while j < |nested|
              invariant 0 <= j <= |nested|
              invariant lines == before + added.value[..j]
            {
              lines := lines + [FieldName(key) + "." + FieldName(nested[j].0) + ": " + ToText(nested[j].1)];
              assert added.value[..j + 1] == added.value[..j] + [added.value[j]];
              j := j + 1;
            }
            assert added.value[..j] == added.value;
          case Null =>
            // Object.keys(null) throws
            assert fields[..i + 1][..i] == fields[..i];
            NoneStaysNone(fields, i + 1);
            return [], true;
          case _ =>
            assert added == Some([]);
        }
      } else {
        assert added == Some([]);
      }
      assert added.Some? && lines == before + added.value;
      assert fields[..i + 1][..i] == fields[..i];
      i := i + 1;
    }
    assert fields[..|fields|] == fields;
  }

  /** Once a prefix throws, the whole body throws. */
  lemma {:induction false} NoneStaysNone(fields: seq<(string, Json)>, n: nat)
    requires n <= |fields| && FieldErrors(fields[..n]) == None
    ensures FieldErrors(fields) == None
    decreases |fields| - n
  {
    if n < |fields| {
      assert fields[..n + 1][..n] == fields[..n];
      NoneStaysNone(fields, n + 1);
    } else {
      assert fields[..n] == fields;
    }
  }

  /**
   * getErrorMessage, following the source's control flow. `default` is always
   * given: every page passes its own text, so the declared fallback is never used.
   */
  method GetErrorMessage(error: Caught, default: string) returns (r: Display)
    ensures r == ErrorMessage(error, default)
  {
    if error.Nullish? {
      return Text(default);
    }
    if error.response.None? {
      if error.message != "" {
        return Text(error.message);
      }
      return Text(error.text);
    }
    var response := error.response.value;
    var data := response.data;
    if response.status == 401 {
      return Unauthorized(data, error.url);
    }
    if !Truthy(data) {
      return Text(StatusFallback(response.status, default));
    }
    if data.Obj? {
      var lines, threw := CollectFieldErrors(data.fields);
      if threw {
        return TypeError;
      }
      if |lines| > 0 {
        return Text(Join(lines, Separator));
      }
      if Truthy(Prop(data, "detail")) {
        return Text(FormatError(Prop(data, "detail")));
      }
      if Truthy(Prop(data, "error")) {
        return Text(FormatError(Prop(data, "error")));
      }
    }
    if data.Str? {
      return Text(FormatError(data));
    }
    if data.Arr? && |data.items| > 0 {
      return Text(Join(seq(|data.items|, i requires 0 <= i < |data.items| => FormatError(data.items[i])), Separator));
    }
    return Text(default);
  }

  // ---------------------------------------------------------------------------
  // Properties of getErrorMessage
  // ---------------------------------------------------------------------------

  /** Without a response the caller sees the error's own message or text, never a status string. */
  lemma NoResponseUsesErrorText(error: Caught, default: string)
    requires error.Thrown? && error.response.None?
    ensures ErrorMessage(error, default) == Text(if error.message != "" then error.message else error.text)
  {
  }

  /**
   * A 401 shows one of two strings; the only other outcome is the source's
   * TypeError, when the body's detail or error is a truthy number, boolean or object.
   */
  lemma UnauthorizedShowsTwoStrings(error: Caught, default: string)
    requires error.Thrown? && error.response.Some? && error.response.value.status == 401
    ensures var r := ErrorMessage(error, default);
      r == Text(SessionExpired) || r == Text(WrongCredentials) ||
      (r == TypeError && !Truthy(Prop(error.response.value.data, "token_expired")) &&
       !ErrorText(error.response.value.data).Str? && !ErrorText(error.response.value.data).Arr?)
  {
  }

  /** "用户名或密码错误" exactly when no expiry hint matched, the URL is the login endpoint and a credential hint matched. */
  lemma WrongCredentialsExactly(error: Caught, default: string)
    requires error.Thrown? && error.response.Some? && error.response.value.status == 401
    ensures var data := error.response.value.data;
      var msg := ErrorText(data);
      ErrorMessage(error, default) == Text(WrongCredentials) <==>
        && !Truthy(Prop(data, "token_expired"))
        && (msg.Str? || msg.Arr?)
        && !IncludesAny(msg, ExpiryHints)
        && Contains(error.url, "/auth/login/")
        && IncludesAny(msg, CredentialHints)
  {
    assert SessionExpired != WrongCredentials by {
      assert SessionExpired[0] != WrongCredentials[0];
    }
  }

  /** A body carrying `token_expired` always reads as an expired session. */
  lemma TokenExpiredFlagWins(error: Caught, default: string)
    requires error.Thrown? && error.response.Some? && error.response.value.status == 401
    requires Truthy(Prop(error.response.value.data, "token_expired"))
    ensures ErrorMessage(error, default) == Text(SessionExpired)
  {
  }

  /** A non-401 response without a truthy body maps to the fixed status strings. */
  lemma FalsyBodyUsesStatus(error: Caught, default: string)
    requires error.Thrown? && error.response.Some?
    requires error.response.value.status != 401 && !Truthy(error.response.value.data)
    ensures var status := error.response.value.status;
      var r := ErrorMessage(error, default);
      && (status == 403 ==> r == Text(Forbidden))
      && (status == 404 ==> r == Text(NotFound))
      && (status >= 500 ==> r == Text(ServerError))
      && (400 <= status < 500 && status != 403 && status != 404 ==> r == Text(BadRequest))
      && (status < 400 ==> r == Text(default))
  {
  }

  /** The lines of a prefix stay the first lines of the whole body. */
  lemma {:induction false} FieldErrorsPrefix(fields: seq<(string, Json)>, n: nat)
    requires n <= |fields| && FieldErrors(fields).Some?
    ensures FieldErrors(fields[..n]).Some?
    ensures FieldErrors(fields[..n]).value <= FieldErrors(fields).value
    decreases |fields| - n
  {
    if n == |fields| {
      assert fields[..n] == fields;
    } else {
      FieldErrorsPrefix(fields, n + 1);
      assert fields[..n + 1][..n] == fields[..n];
    }
  }

  /** Each line a key contributes appears among the lines of the whole body. */
  lemma ContributionReported(fields: seq<(string, Json)>, j: nat, k: nat)
    requires j < |fields| && FieldErrors(fields).Some?
    ensures Contribution(fields[j]).Some?
    ensures k < |Contribution(fields[j]).value| ==>
      Contribution(fields[j]).value[k] in FieldErrors(fields).value
  {
    FieldErrorsPrefix(fields, j + 1);
    var prefix := fields[..j + 1];
    assert prefix[..j] == fields[..j];
    assert prefix[j] == fields[j];
    var init := FieldErrors(fields[..j]).value;
    var added := Contribution(fields[j]).value;
    assert FieldErrors(prefix).value == init + added;
    if k < |added| {
      assert FieldErrors(prefix).value[|init| + k] == added[k];
      assert FieldErrors(fields).value[|init| + k] == added[k];
    }
  }

  /** A string-valued field is reported as "<field name>: <message>", untranslated. */
  lemma StringFieldReported(fields: seq<(string, Json)>, j: nat)
    requires j < |fields| && FieldErrors(fields).Some?
    requires fields[j].0 != "detail" && fields[j].0 != "error" && fields[j].1.Str?
    ensures FieldName(fields[j].0) + ": " + fields[j].1.s in FieldErrors(fields).value
  {
    ContributionReported(fields, j, 0);
  }

  /** Every element of an array-valued field is reported under the field's name. */
  lemma ArrayFieldReported(fields: seq<(string, Json)>, j: nat, k: nat)
    requires j < |fields| && FieldErrors(fields).Some?
    requires fields[j].0 != "detail" && fields[j].0 != "error"
    requires fields[j].1.Arr? && k < |fields[j].1.items|
    ensures FieldName(fields[j].0) + ": " + ToText(fields[j].1.items[k]) in FieldErrors(fields).value
  {
    ContributionReported(fields, j, k);
  }

  /** A key whose value is `null` makes the source throw, whatever else the body holds. */
  lemma NullFieldThrows(fields: seq<(string, Json)>, j: nat)
    requires j < |fields| && fields[j].0 != "detail" && fields[j].0 != "error" && fields[j].1.Null?
    ensures FieldErrors(fields) == None
  {
    assert fields[..j + 1][..j] == fields[..j];
    assert fields[..j + 1][j] == fields[j];
    NoneStaysNone(fields, j + 1);
  }

  /**
   * Field errors take precedence over `detail` and `error`: when a validation
   * body yields any field line, the display is those lines joined by "；", and
   * it contains every one of them.
   */
  lemma FieldErrorsWin(error: Caught, default: string, k: nat)
    requires error.Thrown? && error.response.Some?
    requires error.response.value.status != 401 && error.response.value.data.Obj?
    requires FieldErrors(error.response.value.data.fields).Some?
    requires k < |FieldErrors(error.response.value.data.fields).value|
    ensures var lines := FieldErrors(error.response.value.data.fields).value;
      ErrorMessage(error, default) == Text(Join(lines, Separator)) &&
      Contains(Join(lines, Separator), lines[k])
  {
    JoinContainsPart(FieldErrors(error.response.value.data.fields).value, Separator, k);
  }

  /** With no field lines, `detail` (translated) is preferred over `error`. */
  lemma DetailBeforeError(error: Caught, default: string)
    requires error.Thrown? && error.response.Some?
    requires error.response.value.status != 401 && error.response.value.data.Obj?
    requires FieldErrors(error.response.value.data.fields) == Some([])
    requires Truthy(Prop(error.response.value.data, "detail"))
    ensures ErrorMessage(error, default) == Text(FormatError(Prop(error.response.value.data, "detail")))
  {
  }

  /** An array body: each element formatted and joined; an empty array gives the default. */
  lemma ArrayBody(error: Caught, default: string)
    requires error.Thrown? && error.response.Some?
    requires error.response.value.status != 401 && error.response.value.data.Arr?
    ensures var items := error.response.value.data.items;
      ErrorMessage(error, default) ==
        if items == [] then Text(default)
        else Text(Join(seq(|items|, i requires 0 <= i < |items| => FormatError(items[i])), Separator))
  {
  }
}
