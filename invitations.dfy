/**
 * Class invitation codes: the usability check (active, not expired, usage
 * limit not reached, where a limit of 0 means unlimited), counting a use, and
 * drawing a fresh code.
 *
 * Times are integers on one clock; `now` is a parameter.
 */
module Invitations {
  import opened Common

  const Inactive := "邀请码已失效"
  const Expired := "邀请码已过期"
  const LimitReached := "邀请码使用次数已达上限"
  const Usable := "可以使用"

  class InvitationCode {
    const code: string
    const classId: int
    var expiresAt: Option<int>
    var maxUses: int      // 0: unlimited
    var currentUses: int
    var isActive: bool

    /** A new code as the database creates it: active, unused, no expiry. */
    constructor (code: string, classId: int, maxUses: int)
      ensures this.code == code && this.classId == classId && this.maxUses == maxUses
      ensures expiresAt == None && currentUses == 0 && isActive
    {
      this.code, this.classId, this.maxUses := code, classId, maxUses;
      expiresAt, currentUses, isActive := None, 0, true;
    }

    /** A set expiry strictly before now. */
    predicate HasExpired(now: int)
      reads this
    {
      expiresAt.Some? && expiresAt.value < now
    }

    /** A positive limit that the count has reached. */
    predicate IsExhausted()
      reads this
    {
      maxUses > 0 && currentUses >= maxUses
    }

    /** can_use: the first failing check decides the message. */
    function CanUse(now: int): (r: (bool, string))
      reads this
      ensures r.0 <==> isActive && !HasExpired(now) && !IsExhausted()
      ensures !isActive ==> r.1 == Inactive
      ensures isActive && HasExpired(now) ==> r.1 == Expired
      ensures isActive && !HasExpired(now) && IsExhausted() ==> r.1 == LimitReached
      ensures r.0 ==> r.1 == Usable
    {
      if !isActive then (false, Inactive)
      else if expiresAt.Some? && expiresAt.value < now then (false, Expired)
      else if maxUses > 0 && currentUses >= maxUses then (false, LimitReached)
      else (true, Usable)
    }

    /** use: counts one use exactly when the code is usable; nothing else changes. */
    method Use(now: int) returns (ok: bool)
      modifies this
      ensures ok == old(CanUse(now)).0
      ensures currentUses == if ok then old(currentUses) + 1 else old(currentUses)
      ensures expiresAt == old(expiresAt) && maxUses == old(maxUses) && isActive == old(isActive)
      ensures old(maxUses > 0 && currentUses <= maxUses) ==> currentUses <= maxUses
    {
      var (usable, _) := CanUse(now);
      if usable {
        currentUses := currentUses + 1;
        return true;
      }
      return false;
    }
  }

  /** With a limit of 0 the count never blocks a code. */
  lemma UnlimitedNeverExhausted(c: InvitationCode, now: int)
    requires c.maxUses == 0
    ensures c.CanUse(now).0 <==> c.isActive && !c.HasExpired(now)
  {
  }

  /** A code without an expiry never expires, and one expiring exactly now is still usable. */
  lemma ExpiryIsStrict(c: InvitationCode, now: int)
    requires c.expiresAt.None? || c.expiresAt.value >= now
    ensures c.CanUse(now).0 <==> c.isActive && !c.IsExhausted()
  {
  }

  /** A usable code with a positive limit stays within it after one more use. */
  lemma UseStaysWithinLimit(c: InvitationCode, now: int)
    requires c.maxUses > 0 && c.CanUse(now).0
    ensures c.currentUses + 1 <= c.maxUses
  {
  }

  // ---------------------------------------------------------------------------
  // generate_code
  // ---------------------------------------------------------------------------

  /** A candidate code: the first eight characters of a UUID string, upper-cased. */
  function Candidate(uuid: string): (r: string)
    requires |uuid| >= 8
    ensures |r| == 8 && forall i :: 0 <= i < 8 ==> !('a' <= r[i] <= 'z')
  {
    Upper(uuid[..8])
  }

  /**
   * The code generate_code settles on, drawing UUIDs in order: the first
   * candidate not already taken; `None` if every drawn UUID collides.
   */
  function FirstFreshCode(taken: set<string>, uuids: seq<string>): (r: Option<string>)
    requires forall k :: 0 <= k < |uuids| ==> |uuids[k]| >= 8
    ensures r.Some? ==> r.value !in taken && |r.value| == 8
    ensures r.Some? ==> exists k :: 0 <= k < |uuids| && r.value == Candidate(uuids[k])
    ensures r.None? <==> forall k :: 0 <= k < |uuids| ==> Candidate(uuids[k]) in taken
  {
    if uuids == [] then None
    else if Candidate(uuids[0]) !in taken then Some(Candidate(uuids[0]))
    else
      var rest := FirstFreshCode(taken, uuids[1..]);
      assert forall k :: 1 <= k < |uuids| ==> uuids[k] == uuids[1..][k - 1];
      rest
  }

  /** generate_code: draw until a candidate is not in use. */
  method GenerateCode(taken: set<string>, uuids: seq<string>) returns (r: Option<string>)
    requires forall k :: 0 <= k < |uuids| ==> |uuids[k]| >= 8
    ensures r == FirstFreshCode(taken, uuids)
  {
    var i := 0;
    while i < |uuids|
      invariant 0 <= i <= |uuids|
      invariant FirstFreshCode(taken, uuids) == FirstFreshCode(taken, uuids[i..])
    {
      var code := Candidate(uuids[i]);
      if code !in taken {
        return Some(code);
      }
      assert uuids[i..][1..] == uuids[i + 1..];
      i := i + 1;
    }
    return None;
  }
}
