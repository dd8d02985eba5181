/**
 * The back end's user administration: registration, and the admin-only
 * operations that change a user's role, edit a user, or delete one, each an
 * ordered ladder of guards before a change to the user table.
 */
module UserViews {
  import opened Common
  import opened Permissions

  /** The stored fields of an account. */
  datatype Profile = Profile(username: string, email: string, firstName: string, lastName: string, role: string)

  /** A registration request, after field validation. */
  datatype Registration = Registration(username: string, email: string, password: string,
                                       password2: string, role: Option<string>,
                                       firstName: string, lastName: string)

  datatype RegisterAnswer =
    | Rejected(status: int, errors: map<string, string>)
    | Created(status: int, id: int, user: Profile, refresh: string, access: string)

  /** The ids of the admins in a user table. */
  function AdminIds(users: map<int, Profile>): set<int> {
    set id | id in users && users[id].role == "admin"
  }

  function AdminCount(users: map<int, Profile>): nat {
    |AdminIds(users)|
  }

  /** Setting one user's role moves that one id in or out of the admin set. */
  lemma AdminIdsAfterRoleChange(users: map<int, Profile>, id: int, role: string)
    requires id in users
    ensures var after := users[id := users[id].(role := role)];
      AdminIds(after) == if role == "admin" then AdminIds(users) + {id} else AdminIds(users) - {id}
  {
  }

  /** Removing a user who is not an admin leaves the admin set as it was. */
  lemma AdminIdsAfterRemoval(users: map<int, Profile>, id: int)
    requires id in users && users[id].role != "admin"
    ensures AdminIds(users - {id}) == AdminIds(users)
  {
  }

  /**
   * When the requester is a stored admin and the target is another admin,
   * there are at least two admins, so the last-admin guard cannot fire after
   * the self-check.
   */
  lemma TwoAdminsPresent(users: map<int, Profile>, self: int, target: int)
    requires self in users && users[self].role == "admin"
    requires target in users && users[target].role == "admin" && target != self
    ensures AdminCount(users) >= 2
  {
    var pair, admins := {self, target}, AdminIds(users);
    assert pair <= admins;
    assert |pair| == 2;
    assert admins == pair + (admins - pair) && pair * (admins - pair) == {};
  }

  /** The user table. */
  class UserDirectory {
    var users: map<int, Profile>
    var nextId: int

    predicate Valid()
      reads this
    {
      forall id | id in users :: id < nextId
    }

    constructor ()
      ensures Valid() && users == map[] && nextId == 1
    {
      users, nextId := map[], 1;
    }

    /**
     * update_user_role: 404, then not oneself, then a valid role, then never
     * demote the last admin; on success only the target's role changes.
     */
    method UpdateUserRole(requester: Requester, target: int, role: Option<string>) returns (answer: Answer)
      requires Valid()
      modifies this
      ensures Valid() && nextId == old(nextId)
      ensures !IsAdmin(requester) ==>
        Some(answer) == Denial(requester, false) && users == old(users)
      ensures IsAdmin(requester) ==>
        if target !in old(users) then answer == Answer(404, "用户不存在") && users == old(users)
        else if target == requester.account.id then answer == Answer(400, "不能修改自己的角色") && users == old(users)
        else if role.None? || role.value !in Roles then answer == Answer(400, "无效的角色") && users == old(users)
        else if old(users)[target].role == "admin" && role.value != "admin" && AdminCount(old(users)) <= 1 then
          answer.status == 400 && users == old(users)
        else answer.status == 200 && users == old(users)[target := old(users)[target].(role := role.value)]
      ensures AdminCount(old(users)) >= 1 ==> AdminCount(users) >= 1
    {
      var denied := Denial(requester, IsAdmin(requester));
      if denied.Some? {
        return denied.value;
      }
      if target !in users {
        return Answer(404, "用户不存在");
      }
      if target == requester.account.id {
        return Answer(400, "不能修改自己的角色");
      }
      if role.None? || role.value !in Roles {
        return Answer(400, "无效的角色");
      }
      if users[target].role == "admin" && role.value != "admin" {
        if AdminCount(users) <= 1 {
          return Answer(400, "系统中至少需要保留一个管理员，请先指定其他管理员后再修改此用户的角色");
        }
      }
      AdminIdsAfterRoleChange(users, target, role.value);
      if users[target].role == "admin" && role.value != "admin" {
        assert AdminIds(users) == AdminIds(users[target := users[target].(role := role.value)]) + {target};
      }
      users := users[target := users[target].(role := role.value)];
      return Answer(200, "");
    }

    /**
     * delete_user: 404, then not oneself, then never an admin; on success
     * exactly the target is removed and the admin count is unchanged.
     */
    method DeleteUser(requester: Requester, target: int) returns (answer: Answer)
      requires Valid()
      modifies this
      ensures Valid() && nextId == old(nextId)
      ensures !IsAdmin(requester) ==>
        Some(answer) == Denial(requester, false) && users == old(users)
      ensures IsAdmin(requester) ==>
        if target !in old(users) then answer == Answer(404, "用户不存在") && users == old(users)
        else if target == requester.account.id then answer == Answer(400, "不能删除自己的账号") && users == old(users)
        else if old(users)[target].role == "admin" then answer.status == 400 && users == old(users)
        else answer == Answer(200, "用户删除成功") && users == old(users) - {target}
      ensures AdminCount(users) == AdminCount(old(users))
    {
      var denied := Denial(requester, IsAdmin(requester));
      if denied.Some? {
        return denied.value;
      }
      if target !in users {
        return Answer(404, "用户不存在");
      }
      if target == requester.account.id {
        return Answer(400, "不能删除自己的账号");
      }
      if users[target].role == "admin" {
        return Answer(400, "不能直接删除管理员，请先将管理员角色转给其他用户");
      }
      AdminIdsAfterRemoval(users, target);
      users := users - {target};
      return Answer(200, "用户删除成功");
    }

    /**
     * update_user: 404, then the serializer's validation (`valid`), then a
     * request naming `role` is refused without saving; otherwise the given
     * editable fields are written.
     */
    method UpdateUser(requester: Requester, target: int, data: map<string, string>, valid: bool)
      returns (answer: Answer)
      requires Valid()
      modifies this
      ensures Valid() && nextId == old(nextId)
      ensures !IsAdmin(requester) ==>
        Some(answer) == Denial(requester, false) && users == old(users)
      ensures IsAdmin(requester) ==>
        if target !in old(users) then answer == Answer(404, "用户不存在") && users == old(users)
        else if !valid then answer.status == 400 && users == old(users)
        else if "role" in data then answer == Answer(400, "请使用角色更新接口修改用户角色") && users == old(users)
        else answer.status == 200 && users == old(users)[target := Patch(old(users)[target], data)]
      ensures users.Keys == old(users).Keys
      ensures forall id | id in users :: users[id].role == old(users)[id].role
    {
      var denied := Denial(requester, IsAdmin(requester));
      if denied.Some? {
        return denied.value;
      }
      if target !in users {
        return Answer(404, "用户不存在");
      }
      if !valid {
        return Answer(400, "");
      }
      if "role" in data {
        return Answer(400, "请使用角色更新接口修改用户角色");
      }
      users := users[target := Patch(users[target], data)];
      return Answer(200, "");
    }

    /**
     * RegisterView.create: after field validation and the password match,
     * a new account is stored (role defaulting to student) and answered with
     * 201, the account and a token pair.
     */
    method Register(form: Registration, valid: bool, tokens: int -> (string, string))
      returns (answer: RegisterAnswer)
      requires Valid()
      modifies this
      ensures Valid()
      ensures !valid ==> answer.Rejected? && answer.status == 400 && users == old(users)
      ensures valid && form.password != form.password2 ==>
        answer == Rejected(400, map["password" := "两次密码输入不一致"]) && users == old(users)
      ensures valid && form.password == form.password2 ==>
        && answer.Created? && answer.status == 201
        && answer.id == old(nextId) && answer.id !in old(users)
        && answer.user == Profile(form.username, form.email, form.firstName, form.lastName, form.role.GetOr("student"))
        && users == old(users)[answer.id := answer.user]
        && (answer.refresh, answer.access) == tokens(answer.id)
    {
      if !valid {
        return Rejected(400, map[]);
      }
      if form.password != form.password2 {
        return Rejected(400, map["password" := "两次密码输入不一致"]);
      }
      var id := nextId;
      var user := Profile(form.username, form.email, form.firstName, form.lastName, form.role.GetOr("student"));
      users := users[id := user];
      nextId := nextId + 1;
      var (refresh, access) := tokens(id);
      return Created(201, id, user, refresh, access);
    }
  }

  /** A partial update of the editable fields; other keys are ignored. */
  function Patch(p: Profile, data: map<string, string>): (r: Profile)
    ensures r.role == p.role
    ensures r.username == (if "username" in data then data["username"] else p.username)
    ensures r.email == (if "email" in data then data["email"] else p.email)
    ensures r.firstName == (if "first_name" in data then data["first_name"] else p.firstName)
    ensures r.lastName == (if "last_name" in data then data["last_name"] else p.lastName)
  {
    p.(username := if "username" in data then data["username"] else p.username,
       email := if "email" in data then data["email"] else p.email,
       firstName := if "first_name" in data then data["first_name"] else p.firstName,
       lastName := if "last_name" in data then data["last_name"] else p.lastName)
  }

  /** An admin-only operation never leaves a table with admins without any. */
  lemma RoleChangeKeepsAnAdmin(users: map<int, Profile>, target: int, role: string)
    requires target in users && AdminCount(users) >= 1
    requires !(users[target].role == "admin" && role != "admin" && AdminCount(users) <= 1)
    ensures AdminCount(users[target := users[target].(role := role)]) >= 1
  {
    AdminIdsAfterRoleChange(users, target, role);
    var after := users[target := users[target].(role := role)];
    if role == "admin" {
      assert target in AdminIds(after);
    } else if users[target].role == "admin" {
      assert AdminIds(users) == AdminIds(after) + {target};
    } else {
      assert AdminIds(after) == AdminIds(users);
    }
  }
}
