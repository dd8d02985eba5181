/**
 * The profile page: cancelling an edit, the password-change checks, and the
 * role label.
 *
 * The password request is a parameter: `None` when it succeeds, or the
 * message the error handler made of its failure.
 */
module ProfilePage {
  import opened Common

  /** The profile as loaded; a field the server left out is `None`. */
  datatype Profile = Profile(username: string, role: string, email: Option<string>, firstName: Option<string>,
                             lastName: Option<string>)

  datatype EditForm = EditForm(email: string, firstName: string, lastName: string)

  /** The editing part of the page. */
  datatype EditState = EditState(editing: bool, form: EditForm, error: string, success: string)

  /** handleCancelEdit: leave edit mode, clear both messages, and refill the form from the loaded profile if any. */
  function CancelEdit(s: EditState, loaded: Option<Profile>): (r: EditState)
    ensures !r.editing && r.error == "" && r.success == ""
    ensures loaded.None? ==> r.form == s.form
    ensures loaded.Some? ==>
      r.form == EditForm(loaded.value.email.GetOr(""), loaded.value.firstName.GetOr(""), loaded.value.lastName.GetOr(""))
  {
    var form := if loaded.Some? then
                  EditForm(loaded.value.email.GetOr(""), loaded.value.firstName.GetOr(""), loaded.value.lastName.GetOr(""))
                else s.form;
    EditState(false, form, "", "")
  }

  datatype PasswordForm = PasswordForm(oldPassword: string, newPassword: string, newPassword2: string)

  const EmptyPasswordForm := PasswordForm("", "", "")
  const MismatchMessage := "两次新密码输入不一致"
  const TooShortMessage := "新密码长度至少为8位"
  const ChangedMessage := "密码修改成功"
  const MinPasswordLength := 8

  /** The page after a password submission, and whether the request was made. */
  datatype PasswordOutcome = PasswordOutcome(error: string, success: string, form: PasswordForm, requested: bool)

  /**
   * handlePasswordChange: both messages cleared; the two new passwords must
   * agree, then be at least 8 long; only then the request is made, after
   * which the form is emptied, or the failure message is shown and the form
   * kept.
   */
  function ChangePassword(form: PasswordForm, reply: Option<string>): (r: PasswordOutcome)
    ensures form.newPassword != form.newPassword2 ==> r == PasswordOutcome(MismatchMessage, "", form, false)
    ensures form.newPassword == form.newPassword2 && |form.newPassword| < MinPasswordLength ==>
      r == PasswordOutcome(TooShortMessage, "", form, false)
    ensures r.requested <==> form.newPassword == form.newPassword2 && |form.newPassword| >= MinPasswordLength
    ensures r.requested && reply.None? ==> r == PasswordOutcome("", ChangedMessage, EmptyPasswordForm, true)
    ensures r.requested && reply.Some? ==> r == PasswordOutcome(reply.value, "", form, true)
  {
    if form.newPassword != form.newPassword2 then PasswordOutcome(MismatchMessage, "", form, false)
    else if |form.newPassword| < MinPasswordLength then PasswordOutcome(TooShortMessage, "", form, false)
    else if reply.None? then PasswordOutcome("", ChangedMessage, EmptyPasswordForm, true)
    else PasswordOutcome(reply.value, "", form, true)
  }

  /** A submission the checks stop does not depend on what the server would have answered. */
  lemma RefusedIgnoresReply(form: PasswordForm, reply1: Option<string>, reply2: Option<string>)
    requires !ChangePassword(form, reply1).requested
    ensures ChangePassword(form, reply1) == ChangePassword(form, reply2)
    ensures ChangePassword(form, reply1).form == form && ChangePassword(form, reply1).success == ""
  {
  }

  /** getRoleDisplay: the Chinese name of the three roles; any other text is shown as it is. */
  function RoleDisplay(role: string): (r: string)
    ensures role == "admin" ==> r == "管理员"
    ensures role == "teacher" ==> r == "教师"
    ensures role == "student" ==> r == "学生"
    ensures role != "admin" && role != "teacher" && role != "student" ==> r == role
  {
    if role == "admin" then "管理员"
    else if role == "teacher" then "教师"
    else if role == "student" then "学生"
    else role
  }
}
