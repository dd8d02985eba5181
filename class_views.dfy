/**
 * The back end's class views: listing and creating classes, issuing
 * invitation codes, and students joining a class with a code.
 */
module ClassViews {
  import opened Common
  import opened Permissions
  import opened Invitations

  datatype ClassRecord = ClassRecord(name: string, description: Option<string>, teacher: int, students: set<int>)

  /**
   * A required serializer `CharField`: present (and not null), trimmed, not
   * blank, and at most `maxLength` characters once trimmed; `None` is a 400.
   */
  function CleanField(raw: Option<string>, maxLength: nat): (r: Option<string>)
    ensures r.Some? ==> raw.Some? && r.value == Trim(raw.value) && r.value != "" && |r.value| <= maxLength
    ensures raw.Some? && Trim(raw.value) != "" && |Trim(raw.value)| <= maxLength ==> r.Some?
  {
    if raw.None? then None
    else
      var text := Trim(raw.value);
      if text == "" || |text| > maxLength then None else Some(text)
  }

  /** JoinClassSerializer's `code`: required, trimmed, not blank, at most 20 characters. */
  function CleanCode(raw: Option<string>): (r: Option<string>)
    ensures r.Some? ==> raw.Some? && r.value == Trim(raw.value) && r.value != "" && |r.value| <= 20
    ensures raw.Some? && Trim(raw.value) != "" && |Trim(raw.value)| <= 20 ==> r.Some?
  {
    CleanField(raw, 20)
  }

  /** ClassSerializer's `name`, from the model's 100-character field: required, trimmed, not blank. */
  function CleanName(raw: Option<string>): (r: Option<string>)
    ensures r.Some? ==> raw.Some? && r.value == Trim(raw.value) && r.value != "" && |r.value| <= 100
    ensures raw.Some? && Trim(raw.value) != "" && |Trim(raw.value)| <= 100 ==> r.Some?
  {
    CleanField(raw, 100)
  }

  /** ClassSerializer's `description`: optional and nullable (missing or null is stored as null), trimmed. */
  function CleanDescription(raw: Option<string>): (r: Option<string>)
    ensures r.Some? <==> raw.Some?
    ensures r.Some? ==> r.value == Trim(raw.value)
  {
    if raw.Some? then Some(Trim(raw.value)) else None
  }

  class ClassRegistry {
    var classes: map<int, ClassRecord>
    var codes: map<string, InvitationCode>
    var nextClassId: int

    /** Each code object is filed under its own code, for an existing class. */
    predicate Valid()
      reads this, codes.Values
    {
      && (forall c | c in codes :: codes[c].code == c && codes[c].classId in classes)
      && (forall id | id in classes :: id < nextClassId)
    }

    constructor ()
      ensures Valid() && classes == map[] && codes == map[]
    {
      classes, codes, nextClassId := map[], map[], 1;
    }

    /** The list and detail querysets: everything for an admin, otherwise the classes one teaches. */
    function ClassQueryset(account: Account): (r: set<int>)
      reads this
      ensures r <= classes.Keys
      ensures IsAdminRole(account.role) ==> r == classes.Keys
      ensures !IsAdminRole(account.role) ==> forall id :: id in r <==> id in classes && classes[id].teacher == account.id
    {
      if IsAdminRole(account.role) then classes.Keys
      else set id | id in classes && classes[id].teacher == account.id
    }

    /** my_classes: teachers and admins get the classes they teach, students the classes they joined. */
    function MyClasses(account: Account): (r: set<int>)
      reads this
      ensures r <= classes.Keys
      ensures IsTeacherRole(account.role) || IsAdminRole(account.role) ==>
        forall id :: id in r <==> id in classes && classes[id].teacher == account.id
      ensures !IsTeacherRole(account.role) && !IsAdminRole(account.role) ==>
        forall id :: id in r <==> id in classes && account.id in classes[id].students
    {
      if IsTeacherRole(account.role) || IsAdminRole(account.role) then
        set id | id in classes && classes[id].teacher == account.id
      else
        set id | id in classes && account.id in classes[id].students
    }

    /**
     * The class list's create: non-staff are refused; then the serializer
     * refuses a missing, blank or over-long name with 400 and stores nothing;
     * otherwise perform_create stores a new class taught by the requester.
     */
    method CreateClass(requester: Requester, name: Option<string>, description: Option<string>)
      returns (answer: Answer, id: Option<int>)
      requires Valid()
      modifies this
      ensures Valid() && codes == old(codes)
      ensures !IsTeacherOrAdmin(requester) ==>
        Some(answer) == Denial(requester, false) && id.None? && classes == old(classes)
      ensures IsTeacherOrAdmin(requester) ==>
        if CleanName(name).None? then answer.status == 400 && id.None? && classes == old(classes)
        else
          && answer.status == 201 && id.Some? && id.value !in old(classes)
          && classes == old(classes)[id.value := ClassRecord(CleanName(name).value, CleanDescription(description),
                                                             requester.account.id, {})]
    {
      if !IsTeacherOrAdmin(requester) {
        return Denial(requester, false).value, None;
      }
      var cleaned := CleanName(name);
      if cleaned.None? {
        return Answer(400, ""), None;
      }
      var newId := AddClass(ClassRecord(cleaned.value, CleanDescription(description), requester.account.id, {}));
      answer, id := Answer(201, ""), Some(newId);
    }

    /** The insert behind perform_create: the record under a fresh id, the codes untouched. */
    method AddClass(record: ClassRecord) returns (newId: int)
      requires Valid()
      modifies this
      ensures Valid() && codes == old(codes)
      ensures newId !in old(classes) && classes == old(classes)[newId := record]
    {
      newId := nextClassId;
      classes := classes[newId := record];
      nextClassId := nextClassId + 1;
    }

    /**
     * create_invitation_code: 404 for a missing class, 403 for a teacher who
     * does not teach it, otherwise a new active code with the given limit
     * (0 when none is sent); existing codes are left as they are.
     */
    method CreateInvitationCode(requester: Requester, classId: int, maxUses: Option<int>, uuids: seq<string>)
      returns (answer: Answer, code: Option<string>)
      requires Valid()
      requires forall k :: 0 <= k < |uuids| ==> |uuids[k]| >= 8
      requires FirstFreshCode(codes.Keys, uuids).Some?
      modifies this
      ensures Valid() && classes == old(classes)
      ensures old(codes).Keys <= codes.Keys && forall c | c in old(codes) :: codes[c] == old(codes)[c]
      ensures !IsTeacherOrAdmin(requester) ==>
        Some(answer) == Denial(requester, false) && codes == old(codes)
      ensures IsTeacherOrAdmin(requester) ==>
        if classId !in classes then answer == Answer(404, "班级不存在") && codes == old(codes)
        else if !IsAdminRole(requester.account.role) && classes[classId].teacher != requester.account.id then
          answer == Answer(403, "无权限") && codes == old(codes)
        else
          && answer.status == 201 && code == FirstFreshCode(old(codes).Keys, uuids)
          && code.value !in old(codes) && codes.Keys == old(codes).Keys + {code.value}
          && fresh(codes[code.value])
          && codes[code.value].classId == classId && codes[code.value].maxUses == maxUses.GetOr(0)
          && codes[code.value].currentUses == 0 && codes[code.value].isActive
    {
      if !IsTeacherOrAdmin(requester) {
        return Denial(requester, false).value, None;
      }
      if classId !in classes {
        return Answer(404, "班级不存在"), None;
      }
      if !IsAdminRole(requester.account.role) && classes[classId].teacher != requester.account.id {
        return Answer(403, "无权限"), None;
      }
      code := GenerateCode(codes.Keys, uuids);
      var invitation := new InvitationCode(code.value, classId, maxUses.GetOr(0));
      codes := codes[code.value := invitation];
      answer := Answer(201, "");
    }

    /**
     * join_class: students only; then a well-formed code that exists, is
     * usable and belongs to a class the student has not joined. On success
     * the student is added to exactly that class and the code's use count
     * rises by one; on any failure nothing changes.
     */
    method JoinClass(requester: Requester, raw: Option<string>, now: int) returns (answer: Answer)
      requires Valid()
      modifies this, codes.Values
      ensures Valid() && codes == old(codes)
      ensures forall c | c in codes ::
        (codes[c].maxUses == old(codes[c].maxUses) && codes[c].isActive == old(codes[c].isActive) &&
         codes[c].expiresAt == old(codes[c].expiresAt))
      ensures answer.status != 200 ==>
        classes == old(classes) && forall c | c in codes :: codes[c].currentUses == old(codes[c].currentUses)
      ensures requester.Anonymous? ==> answer == Answer(401, "")
      ensures requester.Authenticated? && !IsStudentRole(requester.account.role) ==>
        answer == Answer(403, "只有学生可以加入班级")
      ensures IsStudent(requester) && CleanCode(raw).None? ==> answer.status == 400
      ensures IsStudent(requester) && CleanCode(raw).Some? ==>
        var code := CleanCode(raw).value;
        if code !in old(codes) then answer == Answer(404, "邀请码不存在")
        else
          var inv := old(codes)[code];
          var cid := inv.classId;
          if !old(inv.CanUse(now)).0 then answer == Answer(400, old(inv.CanUse(now)).1)
          else if requester.account.id in old(classes)[cid].students then answer == Answer(400, "您已经加入该班级")
          else
            && answer == Answer(200, "成功加入班级")
            && classes == old(classes)[cid := old(classes)[cid].(students := old(classes)[cid].students + {requester.account.id})]
            && inv.currentUses == old(inv.currentUses) + 1
            && cid in MyClasses(requester.account)
            && (forall c | c in codes && c != code :: codes[c].currentUses == old(codes[c].currentUses))
    {
      if requester.Anonymous? {
        return Answer(401, "");
      }
      if !IsStudentRole(requester.account.role) {
        return Answer(403, "只有学生可以加入班级");
      }
      var cleaned := CleanCode(raw);
      if cleaned.None? {
        return Answer(400, "");
      }
      var code := cleaned.value;
      if code !in codes {
        return Answer(404, "邀请码不存在");
      }
      var invitation := codes[code];
      var (usable, message) := invitation.CanUse(now);
      if !usable {
        return Answer(400, message);
      }
      var cid := invitation.classId;
      var me := requester.account.id;
      if me in classes[cid].students {
        return Answer(400, "您已经加入该班级");
      }
      classes := classes[cid := classes[cid].(students := classes[cid].students + {me})];
      var used := invitation.Use(now);
      return Answer(200, "成功加入班级");
    }
  }
}
