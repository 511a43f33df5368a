/**
 * The parts of the game world a company reads and writes: deeds with their
 * plot components and residency lists, bank accounts with their permission
 * sets, and settlement citizenship. Deeds, accounts and settlements are named
 * by their position in the world's registries. The functions here are the
 * specifications of the company's handlers; the lemmas say what they promise.
 */
module WorldModel {
  import opened Wrappers
  import opened Membership

  /** A settlement, by its position in the settlement registry. */
  type Settlement = nat

  /** The `PlotsComponent` of a claim stake. `overridden` says the company's base-claims delegate is installed. */
  datatype Plots = Plots(overridden: bool, resizeWhenNecessary: bool, claimPapers: nat, refreshRequested: bool)

  /** The world object a deed is hosted on. */
  datatype Host = Host(creator: Option<User>, plots: Option<Plots>)

  /** A deed: ownership, plot entitlement and the residency lists the company rewrites. */
  datatype Deed = Deed(
    isHomestead: bool,
    destroyed: bool,
    owners: set<User>,
    creator: Option<User>,
    host: Option<Host>,
    owningSettlement: Option<Settlement>,
    allowedPlots: nat,
    accessors: set<User>,
    invitations: set<User>,
    residents: set<User>,
    allowPlotsUnclaiming: bool)

  datatype AccountKind = Personal | Government | Shared

  /** A bank account with the two sets of its dual permissions. */
  datatype Account = Account(kind: AccountKind, managers: set<User>, users: set<User>)

  /** Direct citizenship of every user, and each settlement's direct-citizen roster. */
  datatype Civics = Civics(citizenship: map<User, Option<Settlement>>, rosters: seq<set<User>>)

  // ---------------------------------------------------------------------------
  // Plot entitlement override
  // ---------------------------------------------------------------------------

  /**
   * `RefreshPlotsSize`: when the entitlement (claim papers plus `baseClaims`)
   * differs from the deed's allowed plots, the plot component is asked to
   * recompute its claim data.
   */
  function RefreshPlots(p: Plots, allowedPlots: nat, baseClaims: nat): (p': Plots)
    ensures p'.refreshRequested <==> p.refreshRequested || p.claimPapers + baseClaims != allowedPlots
    ensures p'.(refreshRequested := p.refreshRequested) == p
  {
    if p.claimPapers + baseClaims != allowedPlots then p.(refreshRequested := true) else p
  }

  /** `AddBasePlotsOverride`: install the company's base claims unless already installed. */
  function AddOverride(p: Plots, allowedPlots: nat, hqSize: nat): (p': Plots)
    ensures p.overridden ==> p' == p
    ensures p'.overridden
    ensures !p.overridden ==> !p'.resizeWhenNecessary && p'.claimPapers == p.claimPapers
  {
    if p.overridden then p
    else RefreshPlots(p.(overridden := true), allowedPlots, hqSize).(resizeWhenNecessary := false)
  }

  /** `RemoveBasePlotsOverride`: uninstall the company's base claims and let the deed resize again. */
  function RemoveOverride(p: Plots, allowedPlots: nat, basePlots: nat): (p': Plots)
    ensures !p'.overridden && p'.resizeWhenNecessary && p'.claimPapers == p.claimPapers
  {
    RefreshPlots(p.(overridden := false, resizeWhenNecessary := true), allowedPlots, basePlots)
  }

  /** Installing the override twice is installing it once. */
  lemma AddOverrideIdempotent(p: Plots, allowedPlots: nat, hqSize: nat)
    ensures AddOverride(AddOverride(p, allowedPlots, hqSize), allowedPlots, hqSize) == AddOverride(p, allowedPlots, hqSize)
  {
  }

  /** Removing an installed override gives back automatic resizing and allows installing it again. */
  lemma RemoveUndoesAdd(p: Plots, allowedPlots: nat, hqSize: nat, basePlots: nat)
    ensures var q := RemoveOverride(AddOverride(p, allowedPlots, hqSize), allowedPlots, basePlots);
      q.resizeWhenNecessary && !q.overridden &&
      !AddOverride(q, allowedPlots, hqSize).resizeWhenNecessary
  {
  }

  /** The plot component of a deed's host object, if it has one. */
  function PlotsOf(d: Deed): Option<Plots>
  {
    if d.host.Some? then d.host.value.plots else None
  }

  /** The deed with its host object's plot component replaced. */
  function WithPlots(d: Deed, p: Plots): (d': Deed)
    requires d.host.Some?
    ensures PlotsOf(d') == Some(p)
    ensures d'.(host := d.host) == d
  {
    d.(host := Some(d.host.value.(plots := Some(p))))
  }

  // ---------------------------------------------------------------------------
  // Authorization lists
  // ---------------------------------------------------------------------------

  predicate Owns(d: Deed, lp: User) {
    lp in d.owners
  }

  /**
   * `UpdateDeedAuthList`: the accessors become all employees; on the HQ the
   * invitations become the employees who are not residents, and plot
   * unclaiming is allowed.
   */
  function DeedAuth(d: Deed, all: set<User>, isHq: bool): (d': Deed)
    ensures d'.accessors == all
    ensures isHq ==> d'.invitations == all - d.residents && d'.invitations !! d'.residents && d'.allowPlotsUnclaiming
    ensures !isHq ==> d'.invitations == d.invitations && d'.allowPlotsUnclaiming == d.allowPlotsUnclaiming
    ensures d'.(accessors := d.accessors, invitations := d.invitations, allowPlotsUnclaiming := d.allowPlotsUnclaiming) == d
  {
    var d1 := d.(accessors := all);
    if isHq then d1.(invitations := all - d.residents, allowPlotsUnclaiming := true) else d1
  }

  /** The auth part of `UpdateAllAuthLists` over deeds: every deed the legal person owns is rewritten. */
  function SyncedDeeds(deeds: seq<Deed>, lp: User, all: set<User>, hq: Option<nat>): (r: seq<Deed>)
    ensures |r| == |deeds|
    ensures forall i :: 0 <= i < |deeds| && Owns(deeds[i], lp) ==> r[i].accessors == all && r[i].owners == deeds[i].owners
    ensures forall i :: 0 <= i < |deeds| && Owns(deeds[i], lp) && hq == Some(i) ==>
      r[i].invitations == all - deeds[i].residents && r[i].allowPlotsUnclaiming
    ensures forall i :: 0 <= i < |deeds| && !Owns(deeds[i], lp) ==> r[i] == deeds[i]
  {
    seq(|deeds|, i requires 0 <= i < |deeds| =>
      if Owns(deeds[i], lp) then DeedAuth(deeds[i], all, hq == Some(i)) else deeds[i])
  }

  /** Rewriting the deed lists a second time with no change in between changes nothing. */
  lemma SyncedDeedsIdempotent(deeds: seq<Deed>, lp: User, all: set<User>, hq: Option<nat>)
    ensures SyncedDeeds(SyncedDeeds(deeds, lp, all, hq), lp, all, hq) == SyncedDeeds(deeds, lp, all, hq)
  {
    var once := SyncedDeeds(deeds, lp, all, hq);
    var twice := SyncedDeeds(once, lp, all, hq);
    forall i | 0 <= i < |deeds| ensures twice[i] == once[i] {
      if Owns(deeds[i], lp) {
        assert once[i] == DeedAuth(deeds[i], all, hq == Some(i));
      }
    }
  }

  /** `OwnedAccounts`: the company's own account or a shared account, managed by the legal person. */
  predicate OwnedAccount(a: Account, j: nat, lp: User, bank: nat): (b: bool)
    ensures b ==> lp in a.managers
    ensures a.kind != Shared ==> (b <==> j == bank && lp in a.managers)
  {
    (j == bank || a.kind == Shared) && lp in a.managers
  }

  /** `DoesOwnBankAccount`: the company's own account, or a shared account the legal person manages. */
  predicate DoesOwnBankAccount(a: Account, j: nat, lp: User, bank: nat): (b: bool)
    ensures j == bank ==> b
    ensures a.kind != Shared ==> (b <==> j == bank)
  {
    j == bank || (a.kind == Shared && lp in a.managers)
  }

  /** Every account `OwnedAccounts` lists is one `DoesOwnBankAccount` accepts, but not conversely. */
  lemma OwnedAccountsAreOwned(a: Account, j: nat, lp: User, bank: nat)
    ensures OwnedAccount(a, j, lp, bank) ==> DoesOwnBankAccount(a, j, lp, bank)
    ensures j == bank && lp !in a.managers ==> DoesOwnBankAccount(a, j, lp, bank) && !OwnedAccount(a, j, lp, bank)
  {
  }

  /** `UpdateBankAccountAuthList`: the legal person alone manages, all employees use. */
  function AccountAuth(a: Account, lp: User, all: set<User>): (a': Account)
    ensures a'.managers == {lp} && a'.users == all && a'.kind == a.kind
  {
    a.(managers := {lp}, users := all)
  }

  /** The account part of `UpdateAllAuthLists`. */
  function SyncedAccounts(accounts: seq<Account>, lp: User, bank: nat, all: set<User>): (r: seq<Account>)
    ensures |r| == |accounts|
    ensures forall j :: 0 <= j < |accounts| && OwnedAccount(accounts[j], j, lp, bank) ==>
      r[j].managers == {lp} && r[j].users == all && OwnedAccount(r[j], j, lp, bank)
    ensures forall j :: 0 <= j < |accounts| && !OwnedAccount(accounts[j], j, lp, bank) ==> r[j] == accounts[j]
  {
    seq(|accounts|, j requires 0 <= j < |accounts| =>
      if OwnedAccount(accounts[j], j, lp, bank) then AccountAuth(accounts[j], lp, all) else accounts[j])
  }

  /** Rewriting the account lists a second time with no change in between changes nothing. */
  lemma SyncedAccountsIdempotent(accounts: seq<Account>, lp: User, bank: nat, all: set<User>)
    ensures SyncedAccounts(SyncedAccounts(accounts, lp, bank, all), lp, bank, all) == SyncedAccounts(accounts, lp, bank, all)
  {
    var once := SyncedAccounts(accounts, lp, bank, all);
    var twice := SyncedAccounts(once, lp, bank, all);
    forall j | 0 <= j < |accounts| ensures twice[j] == once[j] {
      if OwnedAccount(accounts[j], j, lp, bank) {
        assert once[j] == AccountAuth(accounts[j], lp, all);
      }
    }
  }

  // ---------------------------------------------------------------------------
  // HQ designation
  // ---------------------------------------------------------------------------

  predicate OwnedHomestead(deeds: seq<Deed>, i: int, lp: User)
  {
    0 <= i < |deeds| && deeds[i].isHomestead && Owns(deeds[i], lp)
  }

  /** The first homestead deed the legal person owns at position `k` or later. */
  function FirstOwnedHomesteadFrom(deeds: seq<Deed>, lp: User, k: nat): (r: Option<nat>)
    requires k <= |deeds|
    ensures r.Some? ==> k <= r.value && OwnedHomestead(deeds, r.value, lp)
    ensures r.Some? ==> forall j :: k <= j < r.value ==> !OwnedHomestead(deeds, j, lp)
    ensures r.None? ==> forall j :: k <= j < |deeds| ==> !OwnedHomestead(deeds, j, lp)
    decreases |deeds| - k
  {
    if k == |deeds| then None
    else if OwnedHomestead(deeds, k, lp) then Some(k)
    else FirstOwnedHomesteadFrom(deeds, lp, k + 1)
  }

  /** `ownedHomesteadDeeds[0]` of `CheckHQDesync`, if any. */
  function FirstOwnedHomestead(deeds: seq<Deed>, lp: User): Option<nat>
  {
    FirstOwnedHomesteadFrom(deeds, lp, 0)
  }

  /** What `CheckHQDesync` repairs: an HQ with no owned homestead, or an HQ other than the first owned homestead. */
  predicate HQDesynced(deeds: seq<Deed>, lp: User, hq: Option<nat>): (d: bool)
    ensures hq.None? ==> (d <==> exists i :: OwnedHomestead(deeds, i, lp))
    ensures hq.Some? ==> (d <==> !OwnedHomestead(deeds, hq.value, lp) ||
                                 exists j :: 0 <= j < hq.value && OwnedHomestead(deeds, j, lp))
  {
    match FirstOwnedHomestead(deeds, lp)
    case None => hq.Some?
    case Some(i) => hq != Some(i)
  }

  /**
   * When nothing needs repairing, an HQ is recorded exactly when the legal
   * person owns a homestead deed, and then it is the first such deed.
   */
  lemma InSyncMeansHQIsFirstHomestead(deeds: seq<Deed>, lp: User, hq: Option<nat>)
    requires !HQDesynced(deeds, lp, hq)
    ensures hq.Some? <==> exists i :: OwnedHomestead(deeds, i, lp)
    ensures hq.Some? ==> OwnedHomestead(deeds, hq.value, lp)
    ensures hq.Some? ==> forall j :: 0 <= j < hq.value ==> !OwnedHomestead(deeds, j, lp)
  {
    if hq.None? {
      forall i ensures !OwnedHomestead(deeds, i, lp) {
        if 0 <= i < |deeds| {
          assert FirstOwnedHomesteadFrom(deeds, lp, 0).None?;
        }
      }
    }
  }

  /**
   * With several owned homestead deeds, an HQ on a later one counts as out of
   * sync: the check only accepts the first.
   */
  lemma LaterHomesteadIsDesynced(deeds: seq<Deed>, lp: User, i: nat, j: nat)
    requires i < j && OwnedHomestead(deeds, i, lp) && OwnedHomestead(deeds, j, lp)
    ensures HQDesynced(deeds, lp, Some(j))
    ensures FirstOwnedHomestead(deeds, lp).Some? && FirstOwnedHomestead(deeds, lp).value <= i
  {
  }

  /** `FirstOwnedHomestead` looks only at which deeds are homesteads and who owns them. */
  lemma {:induction false} FirstOwnedHomesteadStable(deeds: seq<Deed>, deeds': seq<Deed>, lp: User, k: nat)
    requires |deeds'| == |deeds| && k <= |deeds|
    requires forall i :: 0 <= i < |deeds| ==>
      deeds'[i].isHomestead == deeds[i].isHomestead && deeds'[i].owners == deeds[i].owners
    ensures FirstOwnedHomesteadFrom(deeds', lp, k) == FirstOwnedHomesteadFrom(deeds, lp, k)
    decreases |deeds| - k
  {
    if k < |deeds| {
      FirstOwnedHomesteadStable(deeds, deeds', lp, k + 1);
    }
  }

  /**
   * The homestead part of `OnNowOwnerOfProperty` on the deed itself: the host
   * object's creator becomes the legal person and its plots get the override,
   * plot unclaiming is allowed and the deed's creator becomes the legal person.
   */
  function GainedHomestead(d: Deed, lp: User, hqSize: nat): (d': Deed)
    ensures d'.creator == Some(lp) && d'.allowPlotsUnclaiming
    ensures d'.owners == d.owners && d'.isHomestead == d.isHomestead && d'.owningSettlement == d.owningSettlement
    ensures d'.accessors == d.accessors && d'.residents == d.residents && d'.invitations == d.invitations
    ensures d.host.Some? ==> d'.host.Some? && d'.host.value.creator == Some(lp)
    ensures PlotsOf(d).Some? ==> PlotsOf(d') == Some(AddOverride(PlotsOf(d).value, d.allowedPlots, hqSize))
    ensures PlotsOf(d).None? ==> PlotsOf(d').None?
  {
    var d1 :=
      if d.host.None? then d
      else
        var h := d.host.value;
        var p := if h.plots.Some? then Some(AddOverride(h.plots.value, d.allowedPlots, hqSize)) else None;
        d.(host := Some(Host(Some(lp), p)));
    d1.(allowPlotsUnclaiming := true, creator := Some(lp))
  }

  /**
   * The settlement the legal person becomes a citizen of when a hosted deed
   * becomes its HQ: the deed's owning settlement, or else the settlement of the
   * host object's previous creator.
   */
  function HQCitizenship(c: Civics, d: Deed): (s: Option<Settlement>)
    requires CivicsValid(c) && ValidSettlement(c, d.owningSettlement)
    ensures ValidSettlement(c, s)
    ensures d.owningSettlement.Some? ==> s == d.owningSettlement
  {
    if d.owningSettlement.Some? then d.owningSettlement
    else if d.host.Some? && d.host.value.creator.Some? then CitizenshipOf(c, d.host.value.creator.value)
    else None
  }

  /**
   * `OnNoLongerOwnerOfProperty` on the deed itself: the accessors are cleared;
   * for the HQ the invitations are cleared too, and the plots of a live HQ lose
   * the override.
   */
  function LostDeed(d: Deed, wasHq: bool, basePlots: nat): (d': Deed)
    ensures d'.accessors == {}
    ensures wasHq ==> d'.invitations == {}
    ensures !wasHq ==> d' == d.(accessors := {})
    ensures wasHq && !d.destroyed && PlotsOf(d).Some? ==>
      PlotsOf(d') == Some(RemoveOverride(PlotsOf(d).value, d.allowedPlots, basePlots))
    ensures d'.owners == d.owners && d'.isHomestead == d.isHomestead && d'.owningSettlement == d.owningSettlement
  {
    var d1 :=
      if wasHq && !d.destroyed && PlotsOf(d).Some? then WithPlots(d, RemoveOverride(PlotsOf(d).value, d.allowedPlots, basePlots))
      else d;
    var d2 := if wasHq then d1.(invitations := {}) else d1;
    d2.(accessors := {})
  }

  /** `HQPlots`: the HQ deed, when it is live and its host object has a plot component. */
  function HQPlotsIndex(deeds: seq<Deed>, hq: Option<nat>): (r: Option<nat>)
    ensures r.Some? ==> hq == r && r.value < |deeds| && !deeds[r.value].destroyed && PlotsOf(deeds[r.value]).Some?
    ensures r.None? ==> hq.None? || hq.value >= |deeds| || deeds[hq.value].destroyed || PlotsOf(deeds[hq.value]).None?
  {
    if hq.Some? && hq.value < |deeds| && !deeds[hq.value].destroyed && PlotsOf(deeds[hq.value]).Some? then hq
    else None
  }

  /** `RefreshHQPlotsSize`: install the override on the HQ's plots, if there are any. */
  function InstallHQOverride(deeds: seq<Deed>, hq: Option<nat>, hqSize: nat): (r: seq<Deed>)
    ensures |r| == |deeds|
    ensures forall i :: 0 <= i < |deeds| ==> r[i].(host := deeds[i].host) == deeds[i]
    ensures forall i :: 0 <= i < |deeds| && HQPlotsIndex(deeds, hq) != Some(i) ==> r[i] == deeds[i]
    ensures HQPlotsIndex(deeds, hq).Some? ==>
      var h := HQPlotsIndex(deeds, hq).value;
      PlotsOf(r[h]) == Some(AddOverride(PlotsOf(deeds[h]).value, deeds[h].allowedPlots, hqSize))
  {
    match HQPlotsIndex(deeds, hq)
    case None => deeds
    case Some(h) => deeds[h := WithPlots(deeds[h], AddOverride(PlotsOf(deeds[h]).value, deeds[h].allowedPlots, hqSize))]
  }

  // ---------------------------------------------------------------------------
  // Citizenship
  // ---------------------------------------------------------------------------

  predicate ValidSettlement(c: Civics, s: Option<Settlement>) {
    s.Some? ==> s.value < |c.rosters|
  }

  /** Every recorded citizenship names a settlement of the registry. */
  predicate CivicsValid(c: Civics) {
    forall u | u in c.citizenship :: ValidSettlement(c, c.citizenship[u])
  }

  /** `DirectCitizenship` of a user. */
  function CitizenshipOf(c: Civics, u: User): (s: Option<Settlement>)
    requires CivicsValid(c)
    ensures ValidSettlement(c, s)
  {
    if u in c.citizenship then c.citizenship[u] else None
  }

  /** `DirectCitizenRoster.Leave`: the user leaves the roster and has no direct citizenship. */
  function LeaveRoster(c: Civics, s: Settlement, u: User): (c': Civics)
    requires CivicsValid(c) && s < |c.rosters|
    ensures CivicsValid(c') && |c'.rosters| == |c.rosters|
    ensures CitizenshipOf(c', u) == None && u !in c'.rosters[s]
    ensures forall v :: v != u ==> CitizenshipOf(c', v) == CitizenshipOf(c, v)
    ensures forall v, s :: v != u && 0 <= s < |c.rosters| ==> (v in c'.rosters[s] <==> v in c.rosters[s])
  {
    Civics(c.citizenship[u := None], c.rosters[s := c.rosters[s] - {u}])
  }

  /** `DirectCitizenRoster.AddToRoster`: the user joins the roster and becomes its direct citizen. */
  function JoinRoster(c: Civics, s: Settlement, u: User): (c': Civics)
    requires CivicsValid(c) && s < |c.rosters|
    ensures CivicsValid(c') && |c'.rosters| == |c.rosters|
    ensures CitizenshipOf(c', u) == Some(s) && u in c'.rosters[s]
    ensures forall v :: v != u ==> CitizenshipOf(c', v) == CitizenshipOf(c, v)
    ensures forall v, s :: v != u && 0 <= s < |c.rosters| ==> (v in c'.rosters[s] <==> v in c.rosters[s])
  {
    Civics(c.citizenship[u := Some(s)], c.rosters[s := c.rosters[s] + {u}])
  }

  /** `SetCitizenOf`: move the legal person to settlement `s` (or to none). */
  function SetCitizenOf(c: Civics, lp: User, s: Option<Settlement>): (c': Civics)
    requires CivicsValid(c) && ValidSettlement(c, s)
    ensures CivicsValid(c') && |c'.rosters| == |c.rosters|
    ensures CitizenshipOf(c', lp) == s
    ensures s.Some? && CitizenshipOf(c, lp) != s ==> lp in c'.rosters[s.value]
    ensures CitizenshipOf(c, lp).Some? && CitizenshipOf(c, lp) != s ==> lp !in c'.rosters[CitizenshipOf(c, lp).value]
    ensures forall v :: v != lp ==> CitizenshipOf(c', v) == CitizenshipOf(c, v)
    ensures forall v, t :: v != lp && 0 <= t < |c.rosters| ==> (v in c'.rosters[t] <==> v in c.rosters[t])
  {
    var old_ := CitizenshipOf(c, lp);
    if old_ == s then c
    else
      var c1 := if old_.Some? then LeaveRoster(c, old_.value, lp) else c;
      var c2 := if s.Some? then JoinRoster(c1, s.value, lp) else c1;
      c2.(citizenship := c2.citizenship[lp := s])
  }

  /**
   * `UpdateCitizenship`: give user `u` the company's direct citizenship `target`,
   * leaving any other settlement first; with no target, leave.
   */
  function ReconcileMember(c: Civics, target: Option<Settlement>, u: User): (c': Civics)
    requires CivicsValid(c) && ValidSettlement(c, target)
    ensures CivicsValid(c') && |c'.rosters| == |c.rosters|
    ensures CitizenshipOf(c', u) == target
    ensures target.Some? ==> u in c'.rosters[target.value] || c' == c
    ensures target.Some? && CitizenshipOf(c, u) != target ==> u in c'.rosters[target.value]
    ensures CitizenshipOf(c, u).Some? && CitizenshipOf(c, u) != target ==> u !in c'.rosters[CitizenshipOf(c, u).value]
    ensures forall v :: v != u ==> CitizenshipOf(c', v) == CitizenshipOf(c, v)
    ensures forall v, s :: v != u && 0 <= s < |c.rosters| ==> (v in c'.rosters[s] <==> v in c.rosters[s])
  {
    var cur := CitizenshipOf(c, u);
    match target
    case Some(s) =>
      if cur.None? then JoinRoster(c, s, u)
      else if cur != target then JoinRoster(LeaveRoster(c, cur.value, u), s, u)
      else c
    case None =>
      if cur.Some? then LeaveRoster(c, cur.value, u) else c
  }

  /**
   * Where a reconciliation toward `target` leaves `u` in `c`, starting from `c0`:
   * when the citizenship changed, on the target's roster and off the former one.
   */
  predicate Relocated(c0: Civics, c: Civics, u: User, target: Option<Settlement>)
    requires CivicsValid(c0)
  {
    var from := CitizenshipOf(c0, u);
    && (target.Some? && from != target ==> target.value < |c.rosters| && u in c.rosters[target.value])
    && (from.Some? && from != target ==> from.value < |c.rosters| && u !in c.rosters[from.value])
  }

  /**
   * The civics `c` after reconciling, toward `target`, exactly the users of
   * `done`, starting from `c0`: those users hold the target and were relocated;
   * everyone else keeps citizenship and roster membership.
   */
  ghost predicate ReconciledSoFar(c0: Civics, c: Civics, done: set<User>, target: Option<Settlement>)
    requires CivicsValid(c0)
  {
    && CivicsValid(c) && |c.rosters| == |c0.rosters|
    && (forall u :: u in done ==> CitizenshipOf(c, u) == target && Relocated(c0, c, u, target))
    && (forall v :: v !in done ==> CitizenshipOf(c, v) == CitizenshipOf(c0, v))
    && (forall v, s :: v !in done && 0 <= s < |c.rosters| ==> (v in c.rosters[s] <==> v in c0.rosters[s]))
  }

  /** Reconciling one more user extends `ReconciledSoFar` by that user. */
  lemma ReconcileStep(c0: Civics, c: Civics, done: set<User>, target: Option<Settlement>, u: User)
    requires CivicsValid(c0) && ValidSettlement(c0, target)
    requires ReconciledSoFar(c0, c, done, target) && u !in done
    ensures ReconciledSoFar(c0, ReconcileMember(c, target, u), done + {u}, target)
  {
    var c' := ReconcileMember(c, target, u);
    forall w | w in done
      ensures Relocated(c0, c', w, target)
    {
      assert Relocated(c0, c, w, target);
    }
  }

  /** The first settlement, at position `k` or later, whose roster holds `u`. */
  function FirstRosterFrom(rosters: seq<set<User>>, u: User, k: nat): (r: Option<Settlement>)
    requires k <= |rosters|
    ensures r.Some? ==> k <= r.value < |rosters| && u in rosters[r.value]
    ensures r.Some? ==> forall j :: k <= j < r.value ==> u !in rosters[j]
    ensures r.None? ==> forall j :: k <= j < |rosters| ==> u !in rosters[j]
    decreases |rosters| - k
  {
    if k == |rosters| then None
    else if u in rosters[k] then Some(k)
    else FirstRosterFrom(rosters, u, k + 1)
  }

  /**
   * `CheckCitizenshipDesync`: the new direct citizenship of the legal person, or
   * `None` when nothing is out of sync. A citizenship whose roster lacks the legal
   * person is cleared; otherwise the first roster holding the legal person, if it
   * is not the recorded citizenship, becomes the citizenship.
   */
  function CitizenshipRepair(c: Civics, lp: User): (r: Option<Option<Settlement>>)
    requires CivicsValid(c)
    ensures r.Some? ==> ValidSettlement(c, r.value) && r.value != CitizenshipOf(c, lp)
  {
    var cur := CitizenshipOf(c, lp);
    if cur.Some? && lp !in c.rosters[cur.value] then Some(None)
    else
      match FirstRosterFrom(c.rosters, lp, 0)
      case None => None
      case Some(s) => if cur == Some(s) then None else Some(Some(s))
  }

  /** The recorded citizenship after one `CheckCitizenshipDesync`. */
  function ApplyCitizenshipRepair(c: Civics, lp: User): (c': Civics)
    requires CivicsValid(c)
    ensures CivicsValid(c') && c'.rosters == c.rosters
  {
    match CitizenshipRepair(c, lp)
    case None => c
    case Some(s) => c.(citizenship := c.citizenship[lp := s])
  }

  /**
   * When no repair is due, the recorded citizenship agrees with the rosters: a
   * citizen is on its settlement's roster, and a legal person with no
   * citizenship is on no roster.
   */
  lemma NoRepairMeansAgreement(c: Civics, lp: User)
    requires CivicsValid(c) && CitizenshipRepair(c, lp).None?
    ensures CitizenshipOf(c, lp).Some? ==> lp in c.rosters[CitizenshipOf(c, lp).value]
    ensures CitizenshipOf(c, lp).None? ==> forall s :: 0 <= s < |c.rosters| ==> lp !in c.rosters[s]
  {
    if CitizenshipOf(c, lp).None? {
      assert FirstRosterFrom(c.rosters, lp, 0).None?;
    }
  }

  /**
   * The citizenship check settles in at most two repairs: clearing a citizenship
   * the roster disowns can be followed by adopting the first roster that lists
   * the legal person, and after that nothing is out of sync.
   */
  lemma CitizenshipRepairSettles(c: Civics, lp: User)
    requires CivicsValid(c)
    ensures CitizenshipRepair(ApplyCitizenshipRepair(ApplyCitizenshipRepair(c, lp), lp), lp).None?
  {
    var c1 := ApplyCitizenshipRepair(c, lp);
    var c2 := ApplyCitizenshipRepair(c1, lp);
    var first := FirstRosterFrom(c.rosters, lp, 0);
    if CitizenshipRepair(c1, lp).Some? {
      assert CitizenshipOf(c2, lp) == first;
    } else {
      assert c2 == c1;
    }
  }

  // ---------------------------------------------------------------------------
  // The shared world
  // ---------------------------------------------------------------------------

  /**
   * The game state a company works on: all deeds, all bank accounts, the
   * citizenship records, each user's homestead deed (`User.HomesteadDeed`) and
   * the two configuration values the core reads.
   */
  class World {
    var deeds: seq<Deed>
    var accounts: seq<Account>
    var civics: Civics
    var homestead: map<User, nat>
    const basePlots: nat              // `BasePlotsOnHomesteadClaimStake`
    const propertyLimitsEnabled: bool // `PropertyLimitsEnabled`

    /** Every reference in the world points at an existing deed or settlement. */
    predicate Valid()
      reads this
    {
      && (forall u | u in homestead :: homestead[u] < |deeds|)
      && CivicsValid(civics)
      && (forall i | 0 <= i < |deeds| :: ValidSettlement(civics, deeds[i].owningSettlement))
    }

    constructor (basePlots: nat, propertyLimitsEnabled: bool, deeds: seq<Deed>, accounts: seq<Account>, civics: Civics)
      requires CivicsValid(civics)
      requires forall i | 0 <= i < |deeds| :: ValidSettlement(civics, deeds[i].owningSettlement)
      ensures Valid() && this.deeds == deeds && this.accounts == accounts && this.civics == civics
      ensures homestead == map[] && this.basePlots == basePlots && this.propertyLimitsEnabled == propertyLimitsEnabled
    {
      this.deeds := deeds;
      this.accounts := accounts;
      this.civics := civics;
      this.homestead := map[];
      this.basePlots := basePlots;
      this.propertyLimitsEnabled := propertyLimitsEnabled;
    }
  }
}
