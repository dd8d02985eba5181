/**
 * The back end's role model: every account has one of three roles, and three
 * permission checks guard the views.
 */
module Permissions {
  import opened Common

  /** The role choices of an account. */
  const Roles: set<string> := {"admin", "teacher", "student"}

  /** What an authenticated request knows of its account. */
  datatype Account = Account(id: int, role: string)

  /** `request.user`: anonymous, or an authenticated account. */
  datatype Requester = Anonymous | Authenticated(account: Account)

  predicate IsAdminRole(role: string) { role == "admin" }
  predicate IsTeacherRole(role: string) { role == "teacher" }
  predicate IsStudentRole(role: string) { role == "student" }

  /** IsAdmin: authenticated and the role is admin. */
  predicate IsAdmin(r: Requester) {
    r.Authenticated? && IsAdminRole(r.account.role)
  }

  /** IsTeacherOrAdmin (the classes app declares an identical check). */
  predicate IsTeacherOrAdmin(r: Requester) {
    r.Authenticated? && (IsTeacherRole(r.account.role) || IsAdminRole(r.account.role))
  }

  /** IsStudent: authenticated and the role is student. */
  predicate IsStudent(r: Requester) {
    r.Authenticated? && IsStudentRole(r.account.role)
  }

  /** An HTTP answer: status and the `error`/`message` text, if any. */
  datatype Answer = Answer(status: int, message: string)

  /** The answer of a permission class that refuses: 401 without credentials, 403 otherwise. */
  function Denial(requester: Requester, allowed: bool): (r: Option<Answer>)
    ensures r.None? <==> allowed
    ensures !allowed && requester.Anonymous? ==> r == Some(Answer(401, ""))
    ensures !allowed && requester.Authenticated? ==> r == Some(Answer(403, ""))
  {
    if allowed then None
    else if requester.Anonymous? then Some(Answer(401, ""))
    else Some(Answer(403, ""))
  }

  /** With a valid role, an account is either a student or a teacher-or-admin, never both. */
  lemma StudentOrStaff(r: Requester)
    requires r.Authenticated? && r.account.role in Roles
    ensures IsStudent(r) <==> !IsTeacherOrAdmin(r)
  {
  }

  /** Every admin passes the teacher-or-admin check. */
  lemma AdminIsStaff(r: Requester)
    requires IsAdmin(r)
    ensures IsTeacherOrAdmin(r)
  {
  }

  /** An anonymous request, or one whose role is not one of the three, passes no check. */
  lemma OthersDenied(r: Requester)
    requires r.Anonymous? || r.account.role !in Roles
    ensures !IsAdmin(r) && !IsTeacherOrAdmin(r) && !IsStudent(r)
  {
  }
}
