/**
 * The `Company` aggregate: a CEO, employees and invitations, a legal person that
 * owns the company's deeds and accounts, and the handlers that keep the world
 * consistent with the roster. Each method updates state in place as the
 * modelled code does and is proved against the specification functions of
 * `Membership`, `Entitlement` and `WorldModel`.
 */
module Companies {
  import opened Wrappers
  import opened Membership
  import opened Entitlement
  import opened WorldModel

  class Company {
    var ceo: Option<User>
    var employees: set<User>
    var invites: set<User>
    const legalPerson: User
    const bankAccount: nat      // the company's own account, by its position in the world's accounts
    const world: World
    var ignoreOwnerChanged: bool
    var watched: set<nat>       // the deeds whose owner changes the company is subscribed to

    predicate Valid()
      reads this, world
    {
      world.Valid()
    }

    constructor (legalPerson: User, bankAccount: nat, world: World)
      requires world.Valid()
      ensures Valid() && this.legalPerson == legalPerson && this.bankAccount == bankAccount && this.world == world
      ensures ceo == None && employees == {} && invites == {} && !ignoreOwnerChanged && watched == {}
    {
      this.legalPerson := legalPerson;
      this.bankAccount := bankAccount;
      this.world := world;
      ceo := None;
      employees := {};
      invites := {};
      ignoreOwnerChanged := false;
      watched := {};
    }

    function RosterOf(): Roster
      reads this
    {
      Roster(ceo, employees, invites)
    }

    /** `HQDeed`: the legal person's homestead deed. */
    function HQ(): Option<nat>
      reads this, world
    {
      if legalPerson in world.homestead then Some(world.homestead[legalPerson]) else None
    }

    function HQSize(): nat
      reads this, world
    {
      Entitlement.HQSize(world.basePlots, world.propertyLimitsEnabled, RosterOf())
    }

    /**
     * What `UpdateAllAuthLists` establishes: every owned deed is accessible to
     * exactly all employees, the owned HQ invites exactly the employees who are
     * not residents and allows plot unclaiming, and every owned account is
     * managed by the legal person alone and used by exactly all employees.
     */
    predicate AuthSynced()
      reads this, world
    {
      && (forall i | 0 <= i < |world.deeds| && Owns(world.deeds[i], legalPerson) ::
            world.deeds[i].accessors == Members(RosterOf()))
      && (forall i | 0 <= i < |world.deeds| && Owns(world.deeds[i], legalPerson) && HQ() == Some(i) ::
            world.deeds[i].invitations == Members(RosterOf()) - world.deeds[i].residents &&
            world.deeds[i].allowPlotsUnclaiming)
      && (forall j | 0 <= j < |world.accounts| && OwnedAccount(world.accounts[j], j, legalPerson, bankAccount) ::
            world.accounts[j].managers == {legalPerson} && world.accounts[j].users == Members(RosterOf()))
    }

    /**
     * The world as `OnEmployeesChanged` leaves it, starting from the deeds
     * `deeds0` and the accounts `accounts0`: every owned list rewritten, then the
     * HQ override installed, and nothing else changed.
     */
    predicate CascadeFrom(deeds0: seq<Deed>, accounts0: seq<Account>)
      reads this, world
    {
      && world.deeds == InstallHQOverride(SyncedDeeds(deeds0, legalPerson, Members(RosterOf()), HQ()), HQ(), HQSize())
      && world.accounts == SyncedAccounts(accounts0, legalPerson, bankAccount, Members(RosterOf()))
    }

    // -------------------------------------------------------------------------
    // Authorization lists
    // -------------------------------------------------------------------------

    method UpdateDeedAuthList(i: nat)
      requires Valid() && i < |world.deeds|
      modifies world`deeds
      ensures Valid()
      ensures world.deeds == old(world.deeds)[i := DeedAuth(old(world.deeds)[i], Members(RosterOf()), HQ() == Some(i))]
    {
      world.deeds := world.deeds[i := DeedAuth(world.deeds[i], Members(RosterOf()), HQ() == Some(i))];
    }

    method UpdateBankAccountAuthList(j: nat)
      requires Valid() && j < |world.accounts|
      modifies world`accounts
      ensures Valid()
      ensures world.accounts == old(world.accounts)[j := AccountAuth(old(world.accounts)[j], legalPerson, Members(RosterOf()))]
    {
      world.accounts := world.accounts[j := AccountAuth(world.accounts[j], legalPerson, Members(RosterOf()))];
    }

    /** `UpdateAllAuthLists`: rewrite the lists of every owned deed, then of every owned account. */
    method UpdateAllAuthLists()
      requires Valid()
      modifies world`deeds, world`accounts
      ensures Valid() && AuthSynced()
      ensures world.deeds == SyncedDeeds(old(world.deeds), legalPerson, Members(RosterOf()), HQ())
      ensures world.accounts == SyncedAccounts(old(world.accounts), legalPerson, bankAccount, Members(RosterOf()))
    {
      ghost var target := SyncedDeeds(world.deeds, legalPerson, Members(RosterOf()), HQ());
      var k := 0;
      while k < |world.deeds|
        invariant 0 <= k <= |world.deeds| == |old(world.deeds)|
        invariant Valid()
        invariant forall i :: 0 <= i < k ==> world.deeds[i] == target[i]
        invariant forall i :: k <= i < |world.deeds| ==> world.deeds[i] == old(world.deeds)[i]
        invariant world.accounts == old(world.accounts)
      {
        if Owns(world.deeds[k], legalPerson) {
          UpdateDeedAuthList(k);
        }
        k := k + 1;
      }
      ghost var targetAccounts := SyncedAccounts(world.accounts, legalPerson, bankAccount, Members(RosterOf()));
      k := 0;
      while k < |world.accounts|
        invariant 0 <= k <= |world.accounts| == |old(world.accounts)|
        invariant Valid()
        invariant world.deeds == target
        invariant forall j :: 0 <= j < k ==> world.accounts[j] == targetAccounts[j]
        invariant forall j :: k <= j < |world.accounts| ==> world.accounts[j] == old(world.accounts)[j]
      {
        if OwnedAccount(world.accounts[k], k, legalPerson, bankAccount) {
          UpdateBankAccountAuthList(k);
        }
        k := k + 1;
      }
    }

    // -------------------------------------------------------------------------
    // Plot entitlement override
    // -------------------------------------------------------------------------

    /** `RefreshPlotsSize` on the plots of deed `i`, with the HQ entitlement or the plain base. */
    method RefreshPlotsSize(i: nat, hq: bool)
      requires Valid() && i < |world.deeds| && PlotsOf(world.deeds[i]).Some?
      modifies world`deeds
      ensures Valid()
      ensures world.deeds == old(world.deeds)[i := WithPlots(old(world.deeds)[i],
        RefreshPlots(PlotsOf(old(world.deeds)[i]).value, old(world.deeds)[i].allowedPlots, if hq then HQSize() else world.basePlots))]
    {
      var d := world.deeds[i];
      var p := PlotsOf(d).value;
      var newPlotCount := p.claimPapers + (if hq then HQSize() else world.basePlots);
      if newPlotCount != d.allowedPlots {
        p := p.(refreshRequested := true);
      }
      world.deeds := world.deeds[i := WithPlots(d, p)];
    }

    method AddBasePlotsOverride(i: nat)
      requires Valid() && i < |world.deeds| && PlotsOf(world.deeds[i]).Some?
      modifies world`deeds
      ensures Valid()
      ensures world.deeds == old(world.deeds)[i := WithPlots(old(world.deeds)[i],
        AddOverride(PlotsOf(old(world.deeds)[i]).value, old(world.deeds)[i].allowedPlots, HQSize()))]
    {
      var d := world.deeds[i];
      var p := PlotsOf(d).value;
      if p.overridden {
        assert WithPlots(d, p) == d;
        return;
      }
      world.deeds := world.deeds[i := WithPlots(d, p.(overridden := true))];
      RefreshPlotsSize(i, true);
      var q := PlotsOf(world.deeds[i]).value;
      world.deeds := world.deeds[i := WithPlots(world.deeds[i], q.(resizeWhenNecessary := false))];
    }

    method RemoveBasePlotsOverride(i: nat)
      requires Valid() && i < |world.deeds| && PlotsOf(world.deeds[i]).Some?
      modifies world`deeds
      ensures Valid()
      ensures world.deeds == old(world.deeds)[i := WithPlots(old(world.deeds)[i],
        RemoveOverride(PlotsOf(old(world.deeds)[i]).value, old(world.deeds)[i].allowedPlots, world.basePlots))]
    {
      var d := world.deeds[i];
      var p := PlotsOf(d).value;
      world.deeds := world.deeds[i := WithPlots(d, p.(overridden := false, resizeWhenNecessary := true))];
      RefreshPlotsSize(i, false);
    }

    /**
     * `RefreshHQPlotsSize`: install the override on the HQ's plots. When the
     * override is already installed this changes nothing, so a grown
     * entitlement does not by itself request a claim-data refresh.
     */
    method RefreshHQPlotsSize()
      requires Valid()
      modifies world`deeds
      ensures Valid()
      ensures world.deeds == InstallHQOverride(old(world.deeds), HQ(), HQSize())
    {
      var h := HQPlotsIndex(world.deeds, HQ());
      if h.None? {
        return;
      }
      AddBasePlotsOverride(h.value);
    }

    /** The cascade after a roster change that the modelled code runs: auth lists, then HQ plots. */
    method OnEmployeesChanged()
      requires Valid()
      modifies world`deeds, world`accounts
      ensures Valid() && AuthSynced()
      ensures CascadeFrom(old(world.deeds), old(world.accounts))
    {
      UpdateAllAuthLists();
      ghost var synced := world.deeds;
      RefreshHQPlotsSize();
      assert forall i :: 0 <= i < |synced| ==> world.deeds[i].(host := synced[i].host) == synced[i];
    }
  
    // -------------------------------------------------------------------------
    // Employee management
    // -------------------------------------------------------------------------

    method TryInvite(invoker: User, target: User) returns (o: Outcome)
      modifies this`invites
      ensures (RosterOf(), o) == Invite(old(RosterOf()), invoker, target)
    {
      if ceo != Some(invoker) {
        return Err(NotCeo);
      }
      if target in invites {
        return Err(AlreadyInvited);
      }
      if IsEmployee(RosterOf(), target) {
        return Err(AlreadyEmployee);
      }
      invites := invites + {target};
      o := Ok;
    }

    method TryUninvite(invoker: User, target: User) returns (o: Outcome)
      modifies this`invites
      ensures (RosterOf(), o) == Uninvite(old(RosterOf()), invoker, target)
    {
      if ceo != Some(invoker) {
        return Err(NotCeo);
      }
      if target !in invites {
        return Err(NotInvited);
      }
      invites := invites - {target};
      o := Ok;
    }

    /** `TryFire`; `accepted` is the verdict of the action pack, whose post-effect removes the employee. */
    method TryFire(invoker: User, target: User, accepted: bool) returns (o: Outcome)
      requires Valid()
      modifies this`employees, world`deeds, world`accounts
      ensures Valid()
      ensures (RosterOf(), o) == Fire(old(RosterOf()), invoker, target, accepted)
      ensures o == Ok ==> AuthSynced() && CascadeFrom(old(world.deeds), old(world.accounts))
      ensures o != Ok ==> world.deeds == old(world.deeds) && world.accounts == old(world.accounts)
    {
      if ceo != Some(invoker) {
        return Err(NotCeo);
      }
      if !IsEmployee(RosterOf(), target) {
        return Err(NotEmployee);
      }
      if ceo == Some(target) {
        return Err(TargetIsCeo);
      }
      if !accepted {
        return Err(Rejected);
      }
      // post-effect: `target` is an employee other than the CEO, so the removal happens
      employees := employees - {target};
      OnEmployeesChanged();
      o := Ok;
    }

    /**
     * `TryJoin`. `employed` is "the registry finds an employer for `user`", which
     * includes this company when `user` is already on its roster.
     */
    method TryJoin(user: User, employed: bool, accepted: bool) returns (o: Outcome)
      requires Valid()
      requires IsEmployee(RosterOf(), user) ==> employed  // the registry finds this company
      modifies this`employees, this`invites, world`deeds, world`accounts
      ensures Valid()
      ensures (RosterOf(), o) ==
        Join(old(RosterOf()), user, employed, user in world.homestead, world.propertyLimitsEnabled, accepted)
      ensures o == Ok ==> JoinCascades(old(RosterOf()), user)
      ensures o == Ok ==> AuthSynced() && CascadeFrom(old(world.deeds), old(world.accounts))
      ensures o != Ok ==> world.deeds == old(world.deeds) && world.accounts == old(world.accounts)
    {
      if employed {
        return Err(AlreadyEmployed);
      }
      if user !in invites {
        return Err(NotInvited);
      }
      if world.propertyLimitsEnabled && user in world.homestead {
        return Err(HasHomestead);
      }
      if !accepted {
        return Err(Rejected);
      }
      o := Ok;
      // post-effect: `user` is invited and, not being employed, not on the roster
      invites := invites - {user};
      employees := employees + {user};
      OnEmployeesChanged();
    }

    /**
     * `ForceJoin`. `other` is the user's current employer as the registry finds
     * it when that is another company (`GetEmployer`), or null.
     */
    method ForceJoin(user: User, other: Company?)
      requires Valid()
      requires other != null ==> other != this && other.world == world && IsEmployee(other.RosterOf(), user)
      modifies this`employees, this`invites, world`deeds, world`accounts, other
      ensures Valid()
      ensures RosterOf() == Membership.ForceJoin(old(RosterOf()), user)
      ensures old(IsEmployee(RosterOf(), user)) ==>
        world.deeds == old(world.deeds) && world.accounts == old(world.accounts) &&
        (other != null ==> other.RosterOf() == old(other.RosterOf()))
      ensures !old(IsEmployee(RosterOf(), user)) ==> AuthSynced()
      ensures !old(IsEmployee(RosterOf(), user)) && other != null ==>
        other.RosterOf() == Membership.ForceLeave(old(other.RosterOf()), user)
      ensures other != null && old(other.ceo) == Some(user) ==>
        IsEmployee(RosterOf(), user) && IsEmployee(other.RosterOf(), user)
      ensures !old(IsEmployee(RosterOf(), user)) && (other == null || old(other.ceo) == Some(user)) ==>
        CascadeFrom(old(world.deeds), old(world.accounts))
      ensures other != null ==> other.watched == old(other.watched) && other.ignoreOwnerChanged == old(other.ignoreOwnerChanged)
    {
      if IsEmployee(RosterOf(), user) {
        return;
      }
      if other != null {
        other.ForceLeave(user);
      }
      // `user` is not on this roster, so adding them always succeeds
      employees := employees + {user};
      invites := invites - {user};
      OnEmployeesChanged();
    }

    method TryLeave(user: User, accepted: bool) returns (o: Outcome)
      requires Valid()
      modifies this`employees, world`deeds, world`accounts
      ensures Valid()
      ensures (RosterOf(), o) == Leave(old(RosterOf()), user, accepted)
      ensures o == Ok ==> AuthSynced() && CascadeFrom(old(world.deeds), old(world.accounts))
      ensures o != Ok ==> world.deeds == old(world.deeds) && world.accounts == old(world.accounts)
    {
      if !IsEmployee(RosterOf(), user) {
        return Err(NotEmployee);
      }
      if ceo == Some(user) {
        return Err(TargetIsCeo);
      }
      if !accepted {
        return Err(Rejected);
      }
      // post-effect: `user` is an employee other than the CEO, so the removal happens
      employees := employees - {user};
      OnEmployeesChanged();
      o := Ok;
    }

    method ForceLeave(user: User)
      requires Valid()
      modifies this`employees, world`deeds, world`accounts
      ensures Valid()
      ensures RosterOf() == Membership.ForceLeave(old(RosterOf()), user)
      ensures old(ceo) != Some(user) && user in old(employees) ==>
        AuthSynced() && CascadeFrom(old(world.deeds), old(world.accounts))
      ensures !(old(ceo) != Some(user) && user in old(employees)) ==>
        world.deeds == old(world.deeds) && world.accounts == old(world.accounts)
    {
      if ceo == Some(user) {
        return;
      }
      if user !in employees {
        return;
      }
      employees := employees - {user};
      OnEmployeesChanged();
    }

    method AddCeoAsEmployee()
      modifies this`employees
      ensures RosterOf() == Membership.AddCeoAsEmployee(old(RosterOf()))
    {
      if ceo.Some? {
        employees := employees + {ceo.value};
      }
    }

    /** `DemoteCeo`; unlike the other roster changes it runs no cascade. */
    method DemoteCeo(currentCeo: User) returns (ok: bool)
      modifies this`ceo, this`employees
      ensures (RosterOf(), ok) == Membership.DemoteCeo(old(RosterOf()), currentCeo)
    {
      if ceo != Some(currentCeo) {
        return false;
      }
      AddCeoAsEmployee();
      ceo := None;
      ok := true;
    }

    method ChangeCeo(newCeo: User)
      requires Valid()
      modifies this`ceo, this`employees, world`deeds, world`accounts
      ensures Valid() && AuthSynced()
      ensures RosterOf() == Membership.ChangeCeo(old(RosterOf()), newCeo)
      ensures CascadeFrom(old(world.deeds), old(world.accounts))
    {
      if newCeo in employees {
        employees := employees - {newCeo};
      }
      AddCeoAsEmployee();
      ceo := Some(newCeo);
      assert RosterOf() == Membership.ChangeCeo(old(RosterOf()), newCeo);
      assert world.deeds == old(world.deeds) && world.accounts == old(world.accounts);
      OnEmployeesChanged();
    }
  
    // -------------------------------------------------------------------------
    // Property management
    // -------------------------------------------------------------------------

    /**
     * `OnNowOwnerOfProperty`: subscribe to the deed; a homestead deed becomes the
     * HQ, moves the legal person's citizenship to the HQ's settlement (when the
     * deed has a host object) and gets the plot override; then the deed's auth
     * list is rewritten.
     */
    method OnNowOwnerOfProperty(i: nat)
      requires Valid() && i < |world.deeds|
      modifies this`watched, world`deeds, world`civics, world`homestead
      ensures Valid()
      ensures old(ignoreOwnerChanged) ==>
        watched == old(watched) && world.deeds == old(world.deeds) &&
        world.civics == old(world.civics) && world.homestead == old(world.homestead)
      ensures !old(ignoreOwnerChanged) ==> watched == old(watched) + {i}
      ensures !old(ignoreOwnerChanged) && old(world.deeds[i]).isHomestead ==>
        && HQ() == Some(i)
        && world.homestead == old(world.homestead)[legalPerson := i]
        && world.deeds == old(world.deeds)[i := DeedAuth(GainedHomestead(old(world.deeds[i]), legalPerson, HQSize()), Members(RosterOf()), true)]
        && world.civics == (if old(world.deeds[i]).host.Some?
                            then WorldModel.SetCitizenOf(old(world.civics), legalPerson, HQCitizenship(old(world.civics), old(world.deeds[i])))
                            else old(world.civics))
      ensures !old(ignoreOwnerChanged) && !old(world.deeds[i]).isHomestead ==>
        && world.homestead == old(world.homestead)
        && world.civics == old(world.civics)
        && world.deeds == old(world.deeds)[i := DeedAuth(old(world.deeds[i]), Members(RosterOf()), HQ() == Some(i))]
    {
      if ignoreOwnerChanged {
        return;
      }
      watched := watched + {i};
      if world.deeds[i].isHomestead {
        BecomeHQ(i);
      }
      UpdateDeedAuthList(i);
    }

    /**
     * The homestead branch of `OnNowOwnerOfProperty`: the deed becomes the legal
     * person's homestead; when it has a host object, the host's creator becomes
     * the legal person, the legal person's citizenship moves to the HQ's
     * settlement and the plots get the override; the deed allows plot unclaiming
     * and its creator becomes the legal person.
     */
    method BecomeHQ(i: nat)
      requires Valid() && i < |world.deeds|
      modifies world`deeds, world`civics, world`homestead
      ensures Valid() && HQ() == Some(i)
      ensures world.homestead == old(world.homestead)[legalPerson := i]
      ensures world.deeds == old(world.deeds)[i := GainedHomestead(old(world.deeds[i]), legalPerson, HQSize())]
      ensures world.civics == (if old(world.deeds[i]).host.Some?
                               then WorldModel.SetCitizenOf(old(world.civics), legalPerson, HQCitizenship(old(world.civics), old(world.deeds[i])))
                               else old(world.civics))
    {
      var d := world.deeds[i];
      world.homestead := world.homestead[legalPerson := i];
      if d.host.Some? {
        // the previous creator's citizenship is read before the creator is replaced
        var settlement := HQCitizenship(world.civics, d);
        world.deeds := world.deeds[i := d.(host := Some(d.host.value.(creator := Some(legalPerson))))];
        SetCitizenOf(settlement);
        if PlotsOf(world.deeds[i]).Some? {
          AddBasePlotsOverride(i);
        }
      }
      world.deeds := world.deeds[i := world.deeds[i].(allowPlotsUnclaiming := true, creator := Some(legalPerson))];
      assert world.deeds[i] == GainedHomestead(d, legalPerson, HQSize());
    }

    /**
     * `OnNoLongerOwnerOfProperty`: unsubscribe; if the deed was the HQ, its plots
     * lose the override, the legal person has no homestead any more and the HQ's
     * invitations are cleared; the deed's accessors are always cleared.
     */
    method OnNoLongerOwnerOfProperty(i: nat)
      requires Valid() && i < |world.deeds|
      modifies this`watched, world`deeds, world`homestead
      ensures Valid()
      ensures old(ignoreOwnerChanged) ==>
        watched == old(watched) && world.deeds == old(world.deeds) && world.homestead == old(world.homestead)
      ensures !old(ignoreOwnerChanged) ==>
        && watched == old(watched) - {i}
        && world.deeds == old(world.deeds)[i := LostDeed(old(world.deeds[i]), old(HQ()) == Some(i), world.basePlots)]
        && world.homestead == (if old(HQ()) == Some(i) then old(world.homestead) - {legalPerson} else old(world.homestead))
      ensures !old(ignoreOwnerChanged) && old(HQ()) == Some(i) ==> HQ() == None
    {
      if ignoreOwnerChanged {
        return;
      }
      watched := watched - {i};
      var d := world.deeds[i];
      if HQ() == Some(i) {
        var h := HQPlotsIndex(world.deeds, HQ());
        if h.Some? {
          RemoveBasePlotsOverride(h.value);
        }
        world.homestead := world.homestead - {legalPerson};
        world.deeds := world.deeds[i := world.deeds[i].(invitations := {})];
      }
      world.deeds := world.deeds[i := world.deeds[i].(accessors := {})];
      assert world.deeds[i] == LostDeed(d, old(HQ()) == Some(i), world.basePlots);
    }

    /**
     * `OnDeedOwnerChanged`: the subscription callback. `before` and `after` are
     * the old and new owners, or `None` when the value is not an owner alias.
     * Losing the legal person from the owners runs the loss handler.
     */
    method OnDeedOwnerChanged(i: nat, before: Option<set<User>>, after: Option<set<User>>)
      requires Valid() && i < |world.deeds|
      modifies this`watched, world`deeds, world`homestead
      ensures Valid()
      ensures var fires := !old(ignoreOwnerChanged) && before.Some? && after.Some? &&
                           legalPerson in before.value && legalPerson !in after.value;
        && (fires ==> watched == old(watched) - {i})
        && (fires ==> world.deeds == old(world.deeds)[i := LostDeed(old(world.deeds[i]), old(HQ()) == Some(i), world.basePlots)])
        && (fires && old(HQ()) == Some(i) ==> world.homestead == old(world.homestead) - {legalPerson} && HQ() == None)
        && (fires && old(HQ()) != Some(i) ==> world.homestead == old(world.homestead))
        && (!fires ==> watched == old(watched) && world.deeds == old(world.deeds) && world.homestead == old(world.homestead))
    {
      if ignoreOwnerChanged {
        return;
      }
      if before.None? || after.None? {
        return;
      }
      if legalPerson in before.value && legalPerson !in after.value {
        OnNoLongerOwnerOfProperty(i);
      }
    }

    /**
     * `CheckHQDesync`: repair an HQ recorded with no homestead deed owned, or an
     * HQ other than the first owned homestead deed. It reports whether it found
     * something to repair, and (unless owner changes are being ignored) leaves
     * nothing to repair, so a second call reports false.
     */
    method CheckHQDesync() returns (repaired: bool)
      requires Valid()
      modifies this`watched, world`deeds, world`civics, world`homestead
      ensures Valid()
      ensures repaired == old(HQDesynced(world.deeds, legalPerson, HQ()))
      ensures !old(ignoreOwnerChanged) ==> !HQDesynced(world.deeds, legalPerson, HQ())
      ensures !repaired || old(ignoreOwnerChanged) ==>
        watched == old(watched) && world.deeds == old(world.deeds) &&
        world.civics == old(world.civics) && world.homestead == old(world.homestead)
      // no homestead deed owned: the recorded HQ is handled as a lost deed
      ensures !old(ignoreOwnerChanged) && old(FirstOwnedHomestead(world.deeds, legalPerson)).None? && old(HQ()).Some? ==>
        var h := old(HQ()).value;
        && watched == old(watched) - {h}
        && world.deeds == old(world.deeds)[h := LostDeed(old(world.deeds[h]), true, world.basePlots)]
        && world.homestead == old(world.homestead) - {legalPerson}
        && world.civics == old(world.civics)
      // the first owned homestead deed is not the HQ: it is handled as a newly owned deed
      ensures !old(ignoreOwnerChanged) && old(FirstOwnedHomestead(world.deeds, legalPerson)).Some? &&
              old(FirstOwnedHomestead(world.deeds, legalPerson)) != old(HQ()) ==>
        var f := old(FirstOwnedHomestead(world.deeds, legalPerson)).value;
        && watched == old(watched) + {f}
        && world.homestead == old(world.homestead)[legalPerson := f]
        && world.deeds == old(world.deeds)[f := DeedAuth(GainedHomestead(old(world.deeds[f]), legalPerson, HQSize()), Members(RosterOf()), true)]
        && world.civics == (if old(world.deeds[f]).host.Some?
                            then WorldModel.SetCitizenOf(old(world.civics), legalPerson, HQCitizenship(old(world.civics), old(world.deeds[f])))
                            else old(world.civics))
    {
      var first := FirstOwnedHomestead(world.deeds, legalPerson);
      var hq := HQ();
      if first.None? && hq.Some? {
        OnNoLongerOwnerOfProperty(hq.value);
        FirstOwnedHomesteadStable(old(world.deeds), world.deeds, legalPerson, 0);
        return true;
      }
      if first.Some? && first != hq {
        OnNowOwnerOfProperty(first.value);
        FirstOwnedHomesteadStable(old(world.deeds), world.deeds, legalPerson, 0);
        return true;
      }
      repaired := false;
    }

    // -------------------------------------------------------------------------
    // Citizenship management
    // -------------------------------------------------------------------------

    /** `SetCitizenOf`: leave the current settlement's roster, join the new one's, record it. */
    method SetCitizenOf(settlement: Option<Settlement>)
      requires Valid() && ValidSettlement(world.civics, settlement)
      modifies world`civics
      ensures Valid()
      ensures world.civics == WorldModel.SetCitizenOf(old(world.civics), legalPerson, settlement)
    {
      var current := CitizenshipOf(world.civics, legalPerson);
      if current == settlement {
        return;
      }
      if current.Some? {
        world.civics := LeaveRoster(world.civics, current.value, legalPerson);
      }
      if settlement.Some? {
        world.civics := JoinRoster(world.civics, settlement.value, legalPerson);
      }
      world.civics := world.civics.(citizenship := world.civics.citizenship[legalPerson := settlement]);
    }

    /** `UpdateCitizenship`: make `user`'s direct citizenship the company's. */
    method UpdateCitizenship(user: User)
      requires Valid()
      modifies world`civics
      ensures Valid()
      ensures world.civics == ReconcileMember(old(world.civics), CitizenshipOf(old(world.civics), legalPerson), user)
    {
      var direct := CitizenshipOf(world.civics, legalPerson);
      var current := CitizenshipOf(world.civics, user);
      if direct.Some? {
        if current.None? {
          world.civics := JoinRoster(world.civics, direct.value, user);
        } else if current != direct {
          world.civics := LeaveRoster(world.civics, current.value, user);
          world.civics := JoinRoster(world.civics, direct.value, user);
        }
      } else if current.Some? {
        world.civics := LeaveRoster(world.civics, current.value, user);
      }
    }

    /**
     * `UpdateCitizenships`: under property limits, every employee (the CEO
     * included) ends with the company's direct citizenship; nobody else's
     * citizenship changes.
     */
    method UpdateCitizenships()
      requires Valid()
      modifies world`civics
      ensures Valid()
      ensures !world.propertyLimitsEnabled ==> world.civics == old(world.civics)
      ensures CitizenshipOf(world.civics, legalPerson) == old(CitizenshipOf(world.civics, legalPerson))
      ensures world.propertyLimitsEnabled ==> forall u :: u in Members(RosterOf()) ==>
        CitizenshipOf(world.civics, u) == CitizenshipOf(world.civics, legalPerson)
      ensures forall v :: v !in Members(RosterOf()) ==> CitizenshipOf(world.civics, v) == old(CitizenshipOf(world.civics, v))
      ensures |world.civics.rosters| == old(|world.civics.rosters|)
      ensures forall v, s :: v !in Members(RosterOf()) && 0 <= s < |world.civics.rosters| ==>
        (v in world.civics.rosters[s] <==> v in old(world.civics.rosters[s]))
      ensures world.propertyLimitsEnabled ==> forall u ::
        (u in Members(RosterOf()) && old(CitizenshipOf(world.civics, legalPerson)).Some? &&
         old(CitizenshipOf(world.civics, u)) != old(CitizenshipOf(world.civics, legalPerson))) ==>
        u in world.civics.rosters[old(CitizenshipOf(world.civics, legalPerson)).value]
      ensures world.propertyLimitsEnabled ==> forall u ::
        (u in Members(RosterOf()) && old(CitizenshipOf(world.civics, u)).Some? &&
         old(CitizenshipOf(world.civics, u)) != old(CitizenshipOf(world.civics, legalPerson))) ==>
        u !in world.civics.rosters[old(CitizenshipOf(world.civics, u)).value]
    {
      if !world.propertyLimitsEnabled {
        return;
      }
      ghost var c0 := world.civics;
      ghost var target := CitizenshipOf(world.civics, legalPerson);
      var todo := Members(RosterOf());
      ghost var done: set<User> := {};
      while todo != {}
        invariant Valid()
        invariant done + todo == Members(RosterOf()) && done !! todo
        invariant CitizenshipOf(world.civics, legalPerson) == target
        invariant ReconciledSoFar(c0, world.civics, done, target)
        decreases todo
      {
        var user :| user in todo;
        ReconcileStep(c0, world.civics, done, target, user);
        UpdateCitizenship(user);
        todo := todo - {user};
        done := done + {user};
      }
    }

    /** The reaction to a change of the legal person's citizenship: re-run member reconciliation. */
    method OnLegalPersonCitizenshipChanged()
      requires Valid()
      modifies world`civics
      ensures Valid()
      ensures !world.propertyLimitsEnabled ==> world.civics == old(world.civics)
      ensures CitizenshipOf(world.civics, legalPerson) == old(CitizenshipOf(world.civics, legalPerson))
      ensures world.propertyLimitsEnabled ==> forall u :: u in Members(RosterOf()) ==>
        CitizenshipOf(world.civics, u) == CitizenshipOf(world.civics, legalPerson)
      ensures forall v :: v !in Members(RosterOf()) ==> CitizenshipOf(world.civics, v) == old(CitizenshipOf(world.civics, v))
      ensures |world.civics.rosters| == old(|world.civics.rosters|)
      ensures forall v, s :: v !in Members(RosterOf()) && 0 <= s < |world.civics.rosters| ==>
        (v in world.civics.rosters[s] <==> v in old(world.civics.rosters[s]))
      ensures world.propertyLimitsEnabled ==> forall u ::
        (u in Members(RosterOf()) && old(CitizenshipOf(world.civics, legalPerson)).Some? &&
         old(CitizenshipOf(world.civics, u)) != old(CitizenshipOf(world.civics, legalPerson))) ==>
        u in world.civics.rosters[old(CitizenshipOf(world.civics, legalPerson)).value]
      ensures world.propertyLimitsEnabled ==> forall u ::
        (u in Members(RosterOf()) && old(CitizenshipOf(world.civics, u)).Some? &&
         old(CitizenshipOf(world.civics, u)) != old(CitizenshipOf(world.civics, legalPerson))) ==>
        u !in world.civics.rosters[old(CitizenshipOf(world.civics, u)).value]
    {
      UpdateCitizenships();
    }

    /**
     * `CheckCitizenshipDesync`: clear a citizenship whose roster lacks the legal
     * person, or else adopt the first settlement (in registry order) whose roster
     * holds the legal person when it is not the recorded one.
     */
    method CheckCitizenshipDesync() returns (repaired: bool)
      requires Valid()
      modifies world`civics
      ensures Valid()
      ensures repaired == old(CitizenshipRepair(world.civics, legalPerson)).Some?
      ensures world.civics == ApplyCitizenshipRepair(old(world.civics), legalPerson)
    {
      var current := CitizenshipOf(world.civics, legalPerson);
      if current.Some? && legalPerson !in world.civics.rosters[current.value] {
        world.civics := world.civics.(citizenship := world.civics.citizenship[legalPerson := None]);
        return true;
      }
      var k := 0;
      while k < |world.civics.rosters|
        invariant 0 <= k <= |world.civics.rosters|
        invariant world.civics == old(world.civics)
        invariant forall j :: 0 <= j < k ==> legalPerson !in world.civics.rosters[j]
      {
        if legalPerson in world.civics.rosters[k] {
          if current == Some(k) {
            break;
          }
          world.civics := world.civics.(citizenship := world.civics.citizenship[legalPerson := Some(k)]);
          return true;
        }
        k := k + 1;
      }
      repaired := false;
    }
  }
}
