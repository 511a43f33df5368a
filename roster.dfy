/**
 * The membership roster of a company: its CEO, its employees and its pending
 * invitations, and the transitions the company's commands apply to them.
 * The functions here are the specifications of the imperative methods of
 * `Companies.Company`; the lemmas state what the roster promises.
 */
module Membership {
  import opened Wrappers

  /** A player of the game. */
  datatype User = User(id: nat)

  /** The roster state: `Ceo`, `Employees` and `InviteList`. */
  datatype Roster = Roster(ceo: Option<User>, employees: set<User>, invites: set<User>)

  /** Why a roster command was refused. */
  datatype RosterError =
    | NotCeo            // the invoker is not the CEO
    | AlreadyInvited    // the target is already on the invite list
    | AlreadyEmployee   // the target is already the CEO or an employee
    | NotInvited        // the target is not on the invite list
    | NotEmployee       // the target is neither the CEO nor an employee
    | TargetIsCeo       // the CEO cannot be fired and cannot resign
    | AlreadyEmployed   // the user already has an employer
    | HasHomestead      // property limits forbid joining while holding a homestead deed
    | Rejected          // the external action pack refused the transition

  datatype Outcome = Ok | Err(error: RosterError)

  /** `AllEmployees`: the employees with the CEO prepended, kept with multiplicity. */
  function AllEmployees(r: Roster): (all: multiset<User>)
    ensures |all| == |r.employees| + (if r.ceo.Some? then 1 else 0)
    ensures forall u :: u in all <==> u in r.employees || r.ceo == Some(u)
  {
    multiset(r.employees) + (if r.ceo.Some? then multiset{r.ceo.value} else multiset{})
  }

  /** The users `AllEmployees` enumerates, as the set an authorization list is set to. */
  function Members(r: Roster): (m: set<User>)
    ensures forall u :: u in m <==> u in AllEmployees(r)
  {
    r.employees + (if r.ceo.Some? then {r.ceo.value} else {})
  }

  /** `IsEmployee`: the CEO counts as an employee. */
  predicate IsEmployee(r: Roster, u: User): (b: bool)
    ensures b <==> r.ceo == Some(u) || u in r.employees
  {
    u in AllEmployees(r)
  }

  /** The CEO is not among the employees. */
  predicate CeoNotEmployee(r: Roster) {
    r.ceo.Some? ==> r.ceo.value !in r.employees
  }

  /**
   * `AllEmployees` counts each distinct member once, except the CEO when the
   * CEO is also listed among the employees.
   */
  lemma MembersCount(r: Roster)
    ensures |AllEmployees(r)| == |Members(r)| + if CeoNotEmployee(r) then 0 else 1
  {
    if r.ceo.Some? && r.ceo.value !in r.employees {
      assert |r.employees + {r.ceo.value}| == |r.employees| + 1;
    } else if r.ceo.Some? {
      assert r.employees + {r.ceo.value} == r.employees;
    }
  }

  /** `TryInvite`: only the CEO invites, and only someone neither invited nor employed. */
  function Invite(r: Roster, invoker: User, target: User): (res: (Roster, Outcome))
  {
    if r.ceo != Some(invoker) then (r, Err(NotCeo))
    else if target in r.invites then (r, Err(AlreadyInvited))
    else if IsEmployee(r, target) then (r, Err(AlreadyEmployee))
    else (r.(invites := r.invites + {target}), Ok)
  }

  /** `TryUninvite`: only the CEO withdraws, and only an existing invitation. */
  function Uninvite(r: Roster, invoker: User, target: User): (res: (Roster, Outcome))
  {
    if r.ceo != Some(invoker) then (r, Err(NotCeo))
    else if target !in r.invites then (r, Err(NotInvited))
    else (r.(invites := r.invites - {target}), Ok)
  }

  /**
   * The post-effect of a successful join: take the user off the invite list and
   * add them to the employees. It does nothing when the invitation is already gone.
   */
  function JoinCommit(r: Roster, u: User): (r': Roster)
  {
    if u !in r.invites then r
    else r.(invites := r.invites - {u}, employees := r.employees + {u})
  }

  /** Whether the join post-effect goes on to run the employee-change cascade. */
  predicate JoinCascades(r: Roster, u: User) {
    u in r.invites && u !in r.employees
  }

  /**
   * `TryJoin`. `employed` is "the registry finds an employer for the user" (this
   * company included), `hasHomestead` is "the user holds a homestead deed",
   * `accepted` is the verdict of the external action pack.
   */
  function Join(r: Roster, u: User, employed: bool, hasHomestead: bool, limits: bool, accepted: bool)
    : (res: (Roster, Outcome))
  {
    if employed then (r, Err(AlreadyEmployed))
    else if u !in r.invites then (r, Err(NotInvited))
    else if limits && hasHomestead then (r, Err(HasHomestead))
    else if !accepted then (r, Err(Rejected))
    else (JoinCommit(r, u), Ok)
  }

  /** The post-effect of firing or resigning: drop the user from the employees. */
  function RemoveEmployee(r: Roster, u: User): (r': Roster)
  {
    r.(employees := r.employees - {u})
  }

  /** `TryFire`: the CEO fires an employee who is not the CEO. */
  function Fire(r: Roster, invoker: User, target: User, accepted: bool): (res: (Roster, Outcome))
  {
    if r.ceo != Some(invoker) then (r, Err(NotCeo))
    else if !IsEmployee(r, target) then (r, Err(NotEmployee))
    else if r.ceo == Some(target) then (r, Err(TargetIsCeo))
    else if !accepted then (r, Err(Rejected))
    else (RemoveEmployee(r, target), Ok)
  }

  /** `TryLeave`: an employee who is not the CEO resigns. */
  function Leave(r: Roster, u: User, accepted: bool): (res: (Roster, Outcome))
  {
    if !IsEmployee(r, u) then (r, Err(NotEmployee))
    else if r.ceo == Some(u) then (r, Err(TargetIsCeo))
    else if !accepted then (r, Err(Rejected))
    else (RemoveEmployee(r, u), Ok)
  }

  /** `ForceJoin`, as it affects this company's roster. */
  function ForceJoin(r: Roster, u: User): (r': Roster)
  {
    if IsEmployee(r, u) then r
    else r.(employees := r.employees + {u}, invites := r.invites - {u})
  }

  /** `ForceLeave`: ejects anyone but the CEO. */
  function ForceLeave(r: Roster, u: User): (r': Roster)
  {
    if r.ceo == Some(u) then r else RemoveEmployee(r, u)
  }

  /** `AddCeoAsEmployee`: the current CEO, if any, is added to the employees. */
  function AddCeoAsEmployee(r: Roster): (r': Roster)
  {
    if r.ceo.Some? then r.(employees := r.employees + {r.ceo.value}) else r
  }

  /**
   * `ChangeCeo`: the new CEO leaves the employees, then the old CEO joins them,
   * then the new CEO takes over. The invite list is not touched.
   */
  function ChangeCeo(r: Roster, n: User): (r': Roster)
  {
    AddCeoAsEmployee(r.(employees := r.employees - {n})).(ceo := Some(n))
  }

  /** `DemoteCeo`: refused unless `u` is the CEO; otherwise the CEO becomes an employee. */
  function DemoteCeo(r: Roster, u: User): (res: (Roster, bool))
  {
    if r.ceo != Some(u) then (r, false)
    else (AddCeoAsEmployee(r).(ceo := None), true)
  }

  /** The four messages of `PerUserTooltip`. */
  datatype Standing = IsCeo | IsEmployeeOf | IsInvited | IsOutsider

  /** `PerUserTooltip`: how the company sees a user. */
  function PerUserTooltip(r: Roster, u: User): (s: Standing)
    ensures s == IsCeo <==> r.ceo == Some(u)
    ensures s == IsEmployeeOf <==> r.ceo != Some(u) && u in r.employees
    ensures s == IsInvited <==> !IsEmployee(r, u) && u in r.invites
    ensures s == IsOutsider <==> !IsEmployee(r, u) && u !in r.invites
  {
    if r.ceo == Some(u) then IsCeo
    else if IsEmployee(r, u) then IsEmployeeOf
    else if u in r.invites then IsInvited
    else IsOutsider
  }

  // ---------------------------------------------------------------------------
  // What the transitions promise
  // ---------------------------------------------------------------------------

  /** An invitation succeeds exactly under the three guards, and then adds the target alone. */
  lemma InviteOutcome(r: Roster, invoker: User, target: User)
    ensures Invite(r, invoker, target).1 == Ok <==>
      r.ceo == Some(invoker) && target !in r.invites && !IsEmployee(r, target)
    ensures Invite(r, invoker, target).1 == Ok ==>
      Invite(r, invoker, target).0 == r.(invites := r.invites + {target})
    ensures Invite(r, invoker, target).1 != Ok ==> Invite(r, invoker, target).0 == r
  {
  }

  /** Inviting the same user twice: the second call is refused and the invitations stay as they were. */
  lemma InviteTwiceRefused(r: Roster, invoker: User, target: User)
    requires Invite(r, invoker, target).1 == Ok
    ensures var r1 := Invite(r, invoker, target).0;
      Invite(r1, invoker, target) == (r1, Err(AlreadyInvited)) && |r1.invites| == |r.invites| + 1
  {
  }

  /** Withdrawing an invitation needs the CEO and an invitation, and removes only that one. */
  lemma UninviteOutcome(r: Roster, invoker: User, target: User)
    ensures Uninvite(r, invoker, target).1 == Ok <==> r.ceo == Some(invoker) && target in r.invites
    ensures Uninvite(r, invoker, target).1 == Ok ==>
      Uninvite(r, invoker, target).0 == r.(invites := r.invites - {target})
    ensures Uninvite(r, invoker, target).1 != Ok ==> Uninvite(r, invoker, target).0 == r
  {
  }

  /**
   * Joining fails with no change when the user is employed, not invited, holds a
   * homestead under property limits, or the action pack refuses; otherwise the
   * user moves from the invitations to the employees.
   */
  lemma JoinOutcome(r: Roster, u: User, employed: bool, hasHomestead: bool, limits: bool, accepted: bool)
    ensures var (r', o) := Join(r, u, employed, hasHomestead, limits, accepted);
      (o == Ok <==> !employed && u in r.invites && !(limits && hasHomestead) && accepted) &&
      (o != Ok ==> r' == r) &&
      (o == Ok ==> r'.ceo == r.ceo && r'.employees == r.employees + {u} && r'.invites == r.invites - {u})
  {
  }

  /** The join post-effect delivered twice has the effect of one delivery, and only the first cascades. */
  lemma JoinCommitIdempotent(r: Roster, u: User)
    ensures JoinCommit(JoinCommit(r, u), u) == JoinCommit(r, u)
    ensures !JoinCascades(JoinCommit(r, u), u)
  {
  }

  /** No removal path removes the CEO, and each removes at most the one user named. */
  lemma RemovalsKeepCeo(r: Roster, invoker: User, target: User, accepted: bool)
    ensures var r' := Fire(r, invoker, target, accepted).0;
      r'.ceo == r.ceo && r'.invites == r.invites && (r'.employees == r.employees || r'.employees == r.employees - {target})
    ensures var r' := Leave(r, target, accepted).0;
      r'.ceo == r.ceo && r'.invites == r.invites && (r'.employees == r.employees || r'.employees == r.employees - {target})
    ensures var r' := ForceLeave(r, target);
      r'.ceo == r.ceo && r'.invites == r.invites && (r'.employees == r.employees || r'.employees == r.employees - {target})
    ensures r.ceo == Some(target) ==>
      Fire(r, invoker, target, accepted) == (r, if invoker == target then Err(TargetIsCeo) else Err(NotCeo)) &&
      Leave(r, target, accepted) == (r, Err(TargetIsCeo)) &&
      ForceLeave(r, target) == r
  {
  }

  /**
   * Firing needs the CEO as invoker, a target who is an employee but not the CEO,
   * and the action pack's consent; resigning needs the same of the user. On
   * success exactly that user leaves the employees; otherwise nothing changes.
   */
  lemma RemovalOutcome(r: Roster, invoker: User, target: User, accepted: bool)
    ensures Fire(r, invoker, target, accepted).1 == Ok <==>
      r.ceo == Some(invoker) && target in r.employees && r.ceo != Some(target) && accepted
    ensures Leave(r, target, accepted).1 == Ok <==>
      target in r.employees && r.ceo != Some(target) && accepted
    ensures Fire(r, invoker, target, accepted).1 == Ok ==>
      Fire(r, invoker, target, accepted).0 == r.(employees := r.employees - {target})
    ensures Leave(r, target, accepted).1 == Ok ==>
      Leave(r, target, accepted).0 == r.(employees := r.employees - {target})
    ensures Fire(r, invoker, target, accepted).1 != Ok ==> Fire(r, invoker, target, accepted).0 == r
    ensures Leave(r, target, accepted).1 != Ok ==> Leave(r, target, accepted).0 == r
  {
  }

  /** `ForceJoin` is idempotent and leaves the user employed and no longer invited. */
  lemma ForceJoinOutcome(r: Roster, u: User)
    ensures ForceJoin(ForceJoin(r, u), u) == ForceJoin(r, u)
    ensures IsEmployee(ForceJoin(r, u), u)
    ensures !IsEmployee(r, u) ==> u in ForceJoin(r, u).employees && u !in ForceJoin(r, u).invites
    ensures IsEmployee(r, u) ==> ForceJoin(r, u) == r
  {
  }

  /** An invitation by the CEO followed by an accepted join has the roster effect of `ForceJoin`. */
  lemma InviteThenJoinIsForceJoin(r: Roster, ceo: User, u: User, hasHomestead: bool, limits: bool)
    requires r.ceo == Some(ceo) && !IsEmployee(r, u) && u !in r.invites
    requires !(limits && hasHomestead)
    ensures var (r1, o1) := Invite(r, ceo, u);
      var (r2, o2) := Join(r1, u, false, hasHomestead, limits, true);
      o1 == Ok && o2 == Ok && r2 == ForceJoin(r, u)
  {
  }

  /**
   * A user who is another company's CEO survives that company's `ForceLeave`, so
   * `ForceJoin` leaves them on both rosters.
   */
  lemma ForceJoinOfOtherCeo(r: Roster, other: Roster, u: User)
    requires other.ceo == Some(u)
    ensures ForceLeave(other, u) == other
    ensures IsEmployee(ForceLeave(other, u), u) && IsEmployee(ForceJoin(r, u), u)
  {
  }

  /** After `ChangeCeo` the CEO is outside the employees exactly when the CEO actually changed. */
  lemma ChangeCeoKeepsCeoApart(r: Roster, n: User)
    ensures CeoNotEmployee(ChangeCeo(r, n)) <==> r.ceo != Some(n)
    ensures Members(ChangeCeo(r, n)) == Members(r) + {n}
    ensures ChangeCeo(r, n).ceo == Some(n) && ChangeCeo(r, n).invites == r.invites
  {
  }

  /**
   * `ChangeCeo` with the current CEO puts the CEO among the employees, so
   * `AllEmployees` lists the CEO twice and counts one more than before.
   */
  lemma ChangeCeoToSelfCountsTwice(r: Roster, c: User)
    requires r.ceo == Some(c) && CeoNotEmployee(r)
    ensures AllEmployees(ChangeCeo(r, c))[c] == 2
    ensures |AllEmployees(ChangeCeo(r, c))| == |AllEmployees(r)| + 1
    ensures Members(ChangeCeo(r, c)) == Members(r)
  {
    var r' := ChangeCeo(r, c);
    assert r'.employees == r.employees + {c};
    assert multiset(r'.employees)[c] == 1;
  }

  /** `DemoteCeo` refuses anyone but the CEO; otherwise it keeps the same people and the same count. */
  lemma DemoteCeoOutcome(r: Roster, u: User)
    ensures DemoteCeo(r, u).1 <==> r.ceo == Some(u)
    ensures !DemoteCeo(r, u).1 ==> DemoteCeo(r, u).0 == r
    ensures DemoteCeo(r, u).1 ==>
      DemoteCeo(r, u).0.ceo == None && Members(DemoteCeo(r, u).0) == Members(r) &&
      DemoteCeo(r, u).0.employees == r.employees + {u}
    ensures DemoteCeo(r, u).1 && CeoNotEmployee(r) ==>
      |AllEmployees(DemoteCeo(r, u).0)| == |AllEmployees(r)|
  {
    if DemoteCeo(r, u).1 && CeoNotEmployee(r) {
      assert |r.employees + {u}| == |r.employees| + 1;
    }
  }

  /** Every roster transition except `ChangeCeo` keeps the CEO apart from the employees. */
  lemma TransitionsKeepCeoApart(r: Roster, a: User, b: User, employed: bool, hasHomestead: bool, limits: bool, accepted: bool)
    requires CeoNotEmployee(r)
    requires IsEmployee(r, b) ==> employed  // the registry finds this company as `b`'s employer
    ensures CeoNotEmployee(Invite(r, a, b).0)
    ensures CeoNotEmployee(Uninvite(r, a, b).0)
    ensures CeoNotEmployee(Join(r, b, employed, hasHomestead, limits, accepted).0)
    ensures CeoNotEmployee(Fire(r, a, b, accepted).0)
    ensures CeoNotEmployee(Leave(r, b, accepted).0)
    ensures CeoNotEmployee(ForceJoin(r, b))
    ensures CeoNotEmployee(ForceLeave(r, b))
    ensures CeoNotEmployee(DemoteCeo(r, b).0)
    ensures r.ceo != Some(b) ==> CeoNotEmployee(ChangeCeo(r, b))
  {
  }

  /** The per-user tooltip follows the user through an invitation and a join. */
  lemma StandingAfterInviteAndJoin(r: Roster, ceo: User, u: User, hasHomestead: bool, limits: bool)
    requires Invite(r, ceo, u).1 == Ok
    requires !(limits && hasHomestead)
    ensures PerUserTooltip(r, u) == IsOutsider
    ensures PerUserTooltip(Invite(r, ceo, u).0, u) == IsInvited
    ensures PerUserTooltip(Join(Invite(r, ceo, u).0, u, false, hasHomestead, limits, true).0, u) == IsEmployeeOf
  {
  }

  /**
   * `ChangeCeo` leaves an invited new CEO on the invite list; demoting them
   * afterwards makes them an employee who is still invited.
   */
  lemma ChangeCeoKeepsInvitation(r: Roster, n: User)
    requires n in r.invites
    ensures var r' := DemoteCeo(ChangeCeo(r, n), n).0;
      n in r'.employees && n in r'.invites
  {
  }
}
