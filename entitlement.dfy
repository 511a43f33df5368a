/**
 * The headquarters plot entitlement (`HQSize`): the base plots of a homestead
 * claim stake, multiplied by the number of entries of `AllEmployees` when the
 * property-limits option is on.
 */
module Entitlement {
  import opened Wrappers
  import opened Membership

  /**
   * `HQSize`. The count is the raw `AllEmployees` count, with no floor of one:
   * one base per distinct member, and one more when the CEO is also listed
   * among the employees.
   */
  function HQSize(basePlots: nat, limits: bool, r: Roster): (h: nat)
    ensures !limits ==> h == basePlots
    ensures limits ==> h == basePlots * (|Members(r)| + if CeoNotEmployee(r) then 0 else 1)
  {
    MembersCount(r);
    basePlots * (if limits then |AllEmployees(r)| else 1)
  }

  /** Multiplying by a larger count never gives less. */
  lemma {:induction false} ScaleMonotone(base: nat, m: nat, n: nat)
    requires m <= n
    ensures base * m <= base * n
  {
    if m < n {
      ScaleMonotone(base, m, n - 1);
      assert base * n == base * (n - 1) + base;
    }
  }

  /** Under property limits the entitlement is the base times the head count; otherwise it is the base. */
  lemma HQSizeValue(basePlots: nat, limits: bool, r: Roster)
    ensures limits ==>
      HQSize(basePlots, limits, r) == basePlots * (|r.employees| + if r.ceo.Some? then 1 else 0)
    ensures !limits ==> HQSize(basePlots, limits, r) == basePlots
  {
  }

  /** Adding an employee never shrinks the entitlement. */
  lemma HQSizeMonotone(basePlots: nat, limits: bool, r: Roster, u: User)
    ensures HQSize(basePlots, limits, r) <= HQSize(basePlots, limits, r.(employees := r.employees + {u}))
  {
    var r' := r.(employees := r.employees + {u});
    assert r.employees <= r'.employees;
    assert |r.employees| <= |r'.employees| by {
      if u !in r.employees { assert |r'.employees| == |r.employees| + 1; }
      else { assert r'.employees == r.employees; }
    }
    ScaleMonotone(basePlots, |AllEmployees(r)|, |AllEmployees(r')|);
  }

  /** A company with no CEO and no employee is entitled to no plots under property limits. */
  lemma EmptyCompanyHasNoPlots(basePlots: nat, r: Roster)
    requires r.ceo == None && r.employees == {}
    ensures HQSize(basePlots, true, r) == 0
  {
  }

  /** `ChangeCeo` with the current CEO inflates the entitlement by one base under property limits. */
  lemma ChangeCeoToSelfInflatesHQSize(basePlots: nat, r: Roster, c: User)
    requires r.ceo == Some(c) && CeoNotEmployee(r)
    ensures HQSize(basePlots, true, ChangeCeo(r, c)) == HQSize(basePlots, true, r) + basePlots
  {
    ChangeCeoToSelfCountsTwice(r, c);
    var n := |AllEmployees(r)|;
    assert basePlots * (n + 1) == basePlots * n + basePlots;
  }

  /** Base ten: a CEO alone gives ten plots; with two more employees, thirty. */
  lemma HQSizeScenario()
    ensures HQSize(10, true, Roster(Some(User(0)), {}, {})) == 10
    ensures HQSize(10, true, Roster(Some(User(0)), {User(1), User(2)}, {})) == 30
  {
    assert |{User(1), User(2)}| == 2;
  }
}
