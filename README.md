# Company aggregate of EcoCompaniesMod, modelled in Dafny

This project models the `Company` aggregate of the Eco companies mod
(`EcoCompaniesMod/Company.cs`). A company has a CEO, a set of employees and a
set of pending invitations. It also has a legal person: a synthetic user that
owns the company's deeds and bank accounts and holds its settlement citizenship.
The model covers the rules that keep the world consistent with the roster:

- the membership roster and its commands (invite, withdraw, join, fire, resign,
  forced join and leave, CEO change and demotion) and the per-user tooltip;
- the HQ plot entitlement (`HQSize`) and the override that installs it on the
  HQ's plot component;
- the authorization lists of owned deeds and owned bank accounts;
- HQ designation as deeds are gained and lost, and the HQ self-check;
- settlement citizenship of the legal person and of the employees, and the
  citizenship self-check.

Files:

- `wrappers.dfy`: `Option`, for the code's nullable references.
- `roster.dfy` (module `Membership`): the roster as a value, one specification
  function per command, and lemmas about them.
- `entitlement.dfy` (module `Entitlement`): `HQSize` and its lemmas.
- `world.dfy` (module `WorldModel`): deeds, plot components, bank accounts and
  settlement rosters as records. It holds the specification functions of the
  handlers, their lemmas, and the `World` class that holds the shared game
  state.
- `company.dfy` (module `Companies`): the `Company` class. Its methods update
  the roster fields and the world in place. Each method's `ensures` ties the
  new state to the specification functions above.

How the model represents the game:

- The external action pack (`GameActionPack.TryPerform`) is a boolean
  `accepted`. Its post-effect runs only when it is true.
- `GetEmployer(user) != null` is a boolean `employed`. It is true for this
  company's own employees too, because the registry search includes this
  company. In `ForceJoin` the other employer is passed as a `Company?`.
- Deeds, bank accounts and settlements are named by their position in the
  world's sequences. The HQ is the legal person's entry in the world's
  `homestead` map (`User.HomesteadDeed`).
- `AllEmployees` is a multiset, so the CEO counts twice when also in
  `Employees`. An authorization list set from it (`Accessors.Set`,
  `UserSet.Set`) is the corresponding set.
- The settlement roster calls `DirectCitizenRoster.Leave` and
  `DirectCitizenRoster.AddToRoster` belong to the game engine, which is not
  part of this model. The model assumes that `Leave` takes the user off the
  roster and clears their direct citizenship, and that `AddToRoster` puts the
  user on it and sets that citizenship (`LeaveRoster`, `JoinRoster`).
  `SetCitizenOf` still writes `DirectCitizenship` itself after `AddToRoster`
  (`Company.cs:1146`), and the model writes it too.
- Settlements are a flat registry of direct-citizen rosters. The engine's
  `HasCitizen` (`Company.cs:1119`, `Company.cs:1127`) is taken to be membership
  of the settlement's direct-citizen roster. Parent and child settlements (the
  engine's nesting of settlements, `Company.cs:124`, `Company.cs:433-434`) are
  not modelled, so a citizen of a child settlement is not counted as a citizen
  of its parent.

Behaviours of the code that the model keeps as written:

- `HQSize` multiplies the base by the raw `AllEmployees` count
  (`Company.cs:120`), with no floor of one. An empty company is therefore
  entitled to zero plots under property limits (`EmptyCompanyHasNoPlots`).
- `OnEmployeesChanged` (`Company.cs:1085-1093`) refreshes reputation,
  vehicles, auth lists and HQ plots, and does not reconcile citizenship.
  Employees' citizenship is reconciled only when the legal person's
  citizenship changes (`Company.cs:1095-1115`).
- `ChangeCeo` does not take the new CEO off the invite list. A later
  `DemoteCeo` therefore leaves them both employed and invited
  (`ChangeCeoKeepsInvitation`).
- `DemoteCeo` runs no cascade. The set of members is unchanged by it
  (`DemoteCeoOutcome`), so the auth lists stay correct.

Edge cases of the code, kept as written and stated as lemmas:

- `ChangeCeo` with the current CEO puts the CEO into `Employees`, so
  `AllEmployees` lists them twice and `HQSize` grows by one base
  (`ChangeCeoToSelfCountsTwice`, `ChangeCeoToSelfInflatesHQSize`).
- `ForceJoin` of another company's CEO leaves that user on both rosters,
  because `ForceLeave` refuses the CEO (`ForceJoinOfOtherCeo`,
  `Companies.Company.ForceJoin`).
- With several owned homestead deeds, `CheckHQDesync` accepts only the first
  (`LaterHomesteadIsDesynced`).
- `CheckCitizenshipDesync` may need two calls to settle
  (`CitizenshipRepairSettles`).

## Model

| member | source | states |
|---|---|---|
| `Membership.AllEmployees` | EcoCompaniesMod/Company.cs:132-133 | holds exactly the employees and the CEO, and its size is the employee count plus one when there is a CEO |
| `Membership.Members` | EcoCompaniesMod/Company.cs:1151 | the set an auth list is set to holds exactly the users `AllEmployees` lists |
| `Membership.IsEmployee` | EcoCompaniesMod/Company.cs:1234-1235 | a user is an employee iff they are the CEO or listed in `Employees` |
| `Membership.MembersCount` | EcoCompaniesMod/Company.cs:132-133 | `AllEmployees` counts every distinct member once, plus one when the CEO is also listed among the employees |
| `Membership.PerUserTooltip` | EcoCompaniesMod/Company.cs:1263-1281 | the four standings (CEO, employee, invited, outsider), each characterised in both directions |
| `Membership.InviteOutcome` | EcoCompaniesMod/Company.cs:213-243 | an invitation succeeds iff the invoker is CEO, the target is not invited and is not an employee; on success only the target is added, otherwise nothing changes |
| `Membership.InviteTwiceRefused` | EcoCompaniesMod/Company.cs:220-224 | inviting the same user again is refused as already invited, and the invite list keeps its size |
| `Membership.UninviteOutcome` | EcoCompaniesMod/Company.cs:245-263 | withdrawing succeeds iff the invoker is CEO and the target is invited; only the target is removed; otherwise nothing changes |
| `Membership.JoinOutcome` | EcoCompaniesMod/Company.cs:302-338 | a join fails with no change when the user is employed, not invited, holds a homestead under property limits, or the pack refuses; otherwise the user moves from invitations to employees |
| `Membership.JoinCommitIdempotent` | EcoCompaniesMod/Company.cs:326-333 | the join post-effect delivered twice equals one delivery, and the second does not cascade |
| `Membership.RemovalsKeepCeo` | EcoCompaniesMod/Company.cs:265-391 | fire, resign and forced leave never change the CEO or the invitations, remove at most the named user, and refuse the CEO |
| `Membership.RemovalOutcome` | EcoCompaniesMod/Company.cs:265-382 | a firing succeeds iff the invoker is CEO, the target is an employee other than the CEO and the pack accepts; a resignation likewise without the invoker; success removes exactly that user, failure changes nothing |
| `Membership.ForceJoinOutcome` | EcoCompaniesMod/Company.cs:340-350 | forced join is idempotent, is a no-op for an existing employee, and otherwise leaves the user employed and not invited |
| `Membership.InviteThenJoinIsForceJoin` | EcoCompaniesMod/Company.cs:213-350 | an invitation by the CEO followed by an accepted join gives the same roster as a forced join |
| `Membership.ForceJoinOfOtherCeo` | EcoCompaniesMod/Company.cs:340-391 | another company's CEO survives that company's forced leave, so a forced join puts them on both rosters |
| `Membership.ChangeCeoKeepsCeoApart` | EcoCompaniesMod/Company.cs:1191-1210 | after a CEO change the CEO is outside the employees iff the CEO actually changed; the members gain the new CEO; invitations are unchanged |
| `Membership.ChangeCeoToSelfCountsTwice` | EcoCompaniesMod/Company.cs:1191-1210 | making the current CEO CEO again lists them twice in `AllEmployees` and raises its count by one |
| `Membership.DemoteCeoOutcome` | EcoCompaniesMod/Company.cs:1177-1189 | demotion succeeds iff the user is CEO; it leaves no CEO, the same members, and the old CEO among the employees; the count is unchanged when the CEO was not already an employee; a refused demotion changes nothing |
| `Membership.TransitionsKeepCeoApart` | EcoCompaniesMod/Company.cs:213-391 | every roster command keeps the CEO out of the employees; a CEO change does so when the CEO changes |
| `Membership.StandingAfterInviteAndJoin` | EcoCompaniesMod/Company.cs:1263-1281 | the per-user tooltip goes from outsider to invited to employee through an invitation and a join |
| `Membership.ChangeCeoKeepsInvitation` | EcoCompaniesMod/Company.cs:1177-1210 | an invited user made CEO and then demoted is both an employee and invited |
| `Entitlement.HQSize` | EcoCompaniesMod/Company.cs:120 | without property limits the entitlement is the base; with them it is one base per distinct member plus one more when the CEO is also listed as an employee |
| `Entitlement.HQSizeValue` | EcoCompaniesMod/Company.cs:120 | under property limits the entitlement is the base times employees plus CEO; otherwise it is the base |
| `Entitlement.HQSizeMonotone` | EcoCompaniesMod/Company.cs:120 | adding an employee never lowers the entitlement |
| `Entitlement.EmptyCompanyHasNoPlots` | EcoCompaniesMod/Company.cs:120 | with no CEO and no employee the entitlement is zero under property limits |
| `Entitlement.ChangeCeoToSelfInflatesHQSize` | EcoCompaniesMod/Company.cs:120 | making the current CEO CEO again adds one base to the entitlement |
| `Entitlement.HQSizeScenario` | EcoCompaniesMod/Company.cs:120 | base 10: a CEO alone gives 10 plots, a CEO with two employees gives 30 |
| `WorldModel.RefreshPlots` | EcoCompaniesMod/Company.cs:573-586 | a claim-data refresh is requested iff claim papers plus the base differ from the allowed plots; nothing else changes |
| `WorldModel.AddOverride` | EcoCompaniesMod/Company.cs:556-563 | a no-op when the override is installed; otherwise installs it and turns automatic resizing off |
| `WorldModel.RemoveOverride` | EcoCompaniesMod/Company.cs:565-571 | uninstalls the override and turns automatic resizing back on |
| `WorldModel.AddOverrideIdempotent` | EcoCompaniesMod/Company.cs:558 | installing the override twice is installing it once |
| `WorldModel.RemoveUndoesAdd` | EcoCompaniesMod/Company.cs:556-571 | removing an installed override restores automatic resizing, and the override can be installed again |
| `WorldModel.DeedAuth` | EcoCompaniesMod/Company.cs:1149-1158 | accessors become all employees; on the HQ, invitations become the employees who are not residents and unclaiming is allowed; nothing else changes |
| `WorldModel.SyncedDeeds` | EcoCompaniesMod/Company.cs:892-897 | every owned deed gets all employees as accessors, the owned HQ gets the non-resident employees as invitations, unowned deeds are untouched |
| `WorldModel.SyncedDeedsIdempotent` | EcoCompaniesMod/Company.cs:892-897 | rewriting the deed lists again with no change in between gives identical lists |
| `WorldModel.OwnedAccount` | EcoCompaniesMod/Company.cs:140-143 | an account is listed only when the legal person manages it; a personal or government account only when it is also the company's own account |
| `WorldModel.DoesOwnBankAccount` | EcoCompaniesMod/Company.cs:208-209 | the company's own account is always owned; a personal or government account is owned iff it is the company's own |
| `WorldModel.OwnedAccountsAreOwned` | EcoCompaniesMod/Company.cs:140-143 | every account in `OwnedAccounts` passes `DoesOwnBankAccount`; the company account without the legal person as manager passes only the latter |
| `WorldModel.AccountAuth` | EcoCompaniesMod/Company.cs:1160-1165 | the legal person alone manages the account and all employees use it |
| `WorldModel.SyncedAccounts` | EcoCompaniesMod/Company.cs:898-901 | every owned account is managed by the legal person alone, used by all employees, and stays owned; other accounts are untouched |
| `WorldModel.SyncedAccountsIdempotent` | EcoCompaniesMod/Company.cs:898-901 | rewriting the account lists again with no change in between gives identical lists |
| `WorldModel.HQDesynced` | EcoCompaniesMod/Company.cs:717-737 | with no HQ, out of sync iff some homestead deed is owned; with an HQ, out of sync iff the HQ is not an owned homestead or an owned homestead comes before it |
| `WorldModel.FirstOwnedHomesteadFrom` | EcoCompaniesMod/Company.cs:719 | finds the first owned homestead deed, with none before it, or reports there is none |
| `WorldModel.FirstOwnedHomesteadStable` | EcoCompaniesMod/Company.cs:719 | which deed is the first owned homestead depends only on the homestead flags and the owners |
| `WorldModel.InSyncMeansHQIsFirstHomestead` | EcoCompaniesMod/Company.cs:717-737 | when nothing needs repair, an HQ is recorded iff a homestead deed is owned, and it is the first one |
| `WorldModel.LaterHomesteadIsDesynced` | EcoCompaniesMod/Company.cs:726-733 | with two owned homestead deeds, an HQ on the later one counts as out of sync |
| `WorldModel.GainedHomestead` | EcoCompaniesMod/Company.cs:623-681 | a new HQ deed gets the legal person as creator (deed and host), plot unclaiming, and the plot override; ownership and lists are untouched |
| `WorldModel.HQCitizenship` | EcoCompaniesMod/Company.cs:631-653 | the HQ's owning settlement when it has one, else the previous host creator's citizenship |
| `WorldModel.LostDeed` | EcoCompaniesMod/Company.cs:697-713 | a lost deed's accessors are cleared; a lost HQ also loses its invitations and, when live with plots, the override |
| `WorldModel.HQPlotsIndex` | EcoCompaniesMod/Company.cs:108-118 | the HQ deed when it exists, is not destroyed and has a plot component; none otherwise |
| `WorldModel.InstallHQOverride` | EcoCompaniesMod/Company.cs:588-593 | only the HQ's plot component changes, receiving the override |
| `WorldModel.LeaveRoster` | EcoCompaniesMod/Company.cs:1058 | the user leaves the settlement roster and has no citizenship; nobody else's citizenship changes |
| `WorldModel.JoinRoster` | EcoCompaniesMod/Company.cs:1054 | the user joins the settlement roster and becomes its citizen; nobody else's citizenship changes |
| `WorldModel.SetCitizenOf` | EcoCompaniesMod/Company.cs:1139-1147 | the legal person ends a citizen of the given settlement (or of none), and when its citizenship changed it is on the new settlement's roster and off the old one; nobody else's citizenship or roster membership changes |
| `WorldModel.ReconcileMember` | EcoCompaniesMod/Company.cs:1047-1067 | the user ends with the company's direct citizenship (or none), and is on that settlement's roster unless nothing had to change; when its citizenship changed it is on the target's roster and off its former one; nobody else's citizenship or roster membership changes |
| `WorldModel.FirstRosterFrom` | EcoCompaniesMod/Company.cs:1125-1134 | finds the first settlement in registry order whose roster holds the user, or reports there is none |
| `WorldModel.ReconcileStep` | EcoCompaniesMod/Company.cs:963-966 | reconciling one more member keeps every already reconciled member on the target's citizenship and roster and off its former roster, and leaves everyone else's citizenship and roster membership as they started |
| `WorldModel.CitizenshipRepair` | EcoCompaniesMod/Company.cs:1117-1137 | a repair, when due, names a valid settlement (or none) different from the recorded citizenship |
| `WorldModel.ApplyCitizenshipRepair` | EcoCompaniesMod/Company.cs:1122-1131 | a repair changes only the recorded citizenship, never the rosters |
| `WorldModel.NoRepairMeansAgreement` | EcoCompaniesMod/Company.cs:1117-1137 | with no repair due, a recorded citizenship is on its roster, and no citizenship means no roster holds the legal person |
| `WorldModel.CitizenshipRepairSettles` | EcoCompaniesMod/Company.cs:1117-1137 | after at most two repairs nothing is out of sync |
| `Companies.Company.UpdateDeedAuthList` | EcoCompaniesMod/Company.cs:1149-1158 | rewrites only the given deed, as `DeedAuth` with the current HQ |
| `Companies.Company.UpdateBankAccountAuthList` | EcoCompaniesMod/Company.cs:1160-1165 | rewrites only the given account, as `AccountAuth` |
| `Companies.Company.UpdateAllAuthLists` | EcoCompaniesMod/Company.cs:892-902 | the deeds and accounts become `SyncedDeeds` and `SyncedAccounts` of the old ones, so every owned list is in sync |
| `Companies.Company.RefreshPlotsSize` | EcoCompaniesMod/Company.cs:573-586 | updates the deed's plots as `RefreshPlots` with the HQ entitlement or the base |
| `Companies.Company.AddBasePlotsOverride` | EcoCompaniesMod/Company.cs:556-563 | updates the deed's plots as `AddOverride` with the current entitlement |
| `Companies.Company.RemoveBasePlotsOverride` | EcoCompaniesMod/Company.cs:565-571 | updates the deed's plots as `RemoveOverride` with the base |
| `Companies.Company.RefreshHQPlotsSize` | EcoCompaniesMod/Company.cs:588-593 | the deeds become `InstallHQOverride` of the old ones |
| `Companies.Company.OnEmployeesChanged` | EcoCompaniesMod/Company.cs:1085-1093 | the deeds become `InstallHQOverride` of `SyncedDeeds` of the old ones and the accounts `SyncedAccounts` of the old ones (`CascadeFrom`), so the lists are in sync |
| `Companies.Company.TryInvite` | EcoCompaniesMod/Company.cs:213-243 | roster and outcome are those of `Invite` |
| `Companies.Company.TryUninvite` | EcoCompaniesMod/Company.cs:245-263 | roster and outcome are those of `Uninvite` |
| `Companies.Company.TryFire` | EcoCompaniesMod/Company.cs:265-300 | roster and outcome are those of `Fire`; success runs the full cascade (`CascadeFrom` the old deeds and accounts), failure leaves the world unchanged |
| `Companies.Company.TryJoin` | EcoCompaniesMod/Company.cs:302-338 | roster and outcome are those of `Join`; success adds the user and runs the full cascade (`CascadeFrom` the old deeds and accounts), failure leaves the world unchanged |
| `Companies.Company.ForceJoin` | EcoCompaniesMod/Company.cs:340-350 | the roster becomes `ForceJoin` of the old one, the other employer's becomes its `ForceLeave`, and another company's CEO ends on both rosters; when no other employer's cascade runs, the full cascade (`CascadeFrom` the old deeds and accounts) does; the other company's subscriptions and suppression flag are unchanged |
| `Companies.Company.TryLeave` | EcoCompaniesMod/Company.cs:352-382 | roster and outcome are those of `Leave`; success runs the full cascade (`CascadeFrom` the old deeds and accounts), failure leaves the world unchanged |
| `Companies.Company.ForceLeave` | EcoCompaniesMod/Company.cs:384-391 | the roster becomes `ForceLeave` of the old one; the full cascade (`CascadeFrom`) runs exactly when an employee other than the CEO was removed, otherwise the world is unchanged |
| `Companies.Company.AddCeoAsEmployee` | EcoCompaniesMod/Company.cs:1203-1210 | the current CEO, if any, is added to the employees |
| `Companies.Company.DemoteCeo` | EcoCompaniesMod/Company.cs:1177-1189 | roster and result are those of `DemoteCeo` |
| `Companies.Company.ChangeCeo` | EcoCompaniesMod/Company.cs:1191-1201 | the roster becomes `ChangeCeo` of the old one and the full cascade runs (`CascadeFrom` the old deeds and accounts) |
| `Companies.Company.OnNowOwnerOfProperty` | EcoCompaniesMod/Company.cs:617-688 | ignored while owner changes are suppressed; otherwise subscribes, and a homestead deed becomes the HQ with its citizenship, override and lists |
| `Companies.Company.BecomeHQ` | EcoCompaniesMod/Company.cs:623-681 | the deed becomes the HQ and `GainedHomestead` of the old one, and the legal person's citizenship moves to `HQCitizenship` when the deed has a host object |
| `Companies.Company.OnNoLongerOwnerOfProperty` | EcoCompaniesMod/Company.cs:690-715 | ignored while owner changes are suppressed; otherwise unsubscribes and applies `LostDeed`, clearing the HQ when it was the HQ |
| `Companies.Company.OnDeedOwnerChanged` | EcoCompaniesMod/Company.cs:542-554 | runs the loss handler exactly when the legal person was an owner before and is not after, and no suppression is on: the deed becomes `LostDeed` of the old one, and losing the HQ clears the HQ |
| `Companies.Company.CheckHQDesync` | EcoCompaniesMod/Company.cs:717-737 | reports true exactly when the HQ was out of sync and leaves it in sync, so a second call reports false; with no owned homestead the HQ is handled as a lost deed, otherwise the first owned homestead is handled as a newly owned one; nothing changes when it reports false or owner changes are suppressed |
| `Companies.Company.SetCitizenOf` | EcoCompaniesMod/Company.cs:1139-1147 | the citizenship records become `SetCitizenOf` of the old ones |
| `Companies.Company.UpdateCitizenship` | EcoCompaniesMod/Company.cs:1047-1067 | the citizenship records become `ReconcileMember` of the old ones with the company's citizenship |
| `Companies.Company.UpdateCitizenships` | EcoCompaniesMod/Company.cs:959-967 | under property limits every employee and the CEO ends with the company's citizenship, and each member whose citizenship differed ends on the company settlement's roster and off its former one; nobody else's citizenship or roster membership changes, and no settlement is added or removed; without limits nothing changes |
| `Companies.Company.OnLegalPersonCitizenshipChanged` | EcoCompaniesMod/Company.cs:1095-1115 | under property limits every member ends with the legal person's citizenship, and each member whose citizenship differed ends on that settlement's roster and off its former one; the legal person's own citizenship, and non-members' citizenship and roster membership, are unchanged; without limits nothing changes |
| `Companies.Company.CheckCitizenshipDesync` | EcoCompaniesMod/Company.cs:1117-1137 | reports true exactly when a repair is due and applies `ApplyCitizenshipRepair` |

## Left out

- Initialization (`Initialize`, `OnPostInitialized`): creation of the legal person, bank account and currency, and the reflective `LogoutTime` write. The model starts from an existing legal person and world.
- Renames through the registrar, world-object owner names, the homestead foundation's citizenship hook and `UpdateInfluencingSettlement`. These are reflection or engine calls with no state the core reads back.
- `UpdateClaimData`, called by reflection. A plot component's `refreshRequested` flag records that a refresh was asked for; the new allowed-plot count is not computed. As in the code, once the override is installed, `AddBasePlotsOverride` returns at once (`Company.cs:558`), so a roster change that raises `HQSize` requests no refresh from `RefreshHQPlotsSize` (`AddOverrideIdempotent`); the component reads the entitlement through the override whenever it next recomputes.
- Settlement application, join and leave (`TryApplyToSettlement`, `TryJoinSettlement`, `TryLeaveSettlement` and their pre-checks). They consist of immigration-policy calls and reflective delegate calls into the settlement roster.
- Reputation averaging and self-reputation cleanup. These use float arithmetic in a delayed task against the reputation manager.
- The money relays, `OnEmployeeWealthChange` and `EditRent`. Their reentrancy flags only matter under the engine's event delivery. `EditRent` is the only writer of `ignoreOwnerChanged`, which the model takes as given state.
- `UpdateAllVehicles` (`Company.cs:1010-1045`), which `OnEmployeesChanged` runs before `UpdateAllAuthLists`. When vehicle transfers are enabled, it renames and recolours every vehicle deed an employee owns and hands its ownership to the legal person (`ForceChangeOwners`). The model has no vehicle deeds and no transfer setting, so `OnEmployeesChanged` leaves such deeds with their previous owners. In the code, those deeds become owned by the company and then have their accessors rewritten.
- Play-time bookkeeping, `TakeClaim` (asynchronous player input) and void storages.
- Messages, mail, tooltip text and dirty marks (`SendCompanyMessage`, `MarkTooltipDirty`, `Tooltip`). `PerUserTooltip` is modelled as the standing it reports, not its text.
- Concurrency: the thread-safe hash sets are plain sets updated one step at a time.
- Event delivery: writing the legal person's citizenship does not by itself run `OnLegalPersonCitizenshipChanged`, and a deed's owner change does not by itself run `OnDeedOwnerChanged`. They are separate methods for the engine to call.
- `IsInvited` (a membership test on the invite list) and `GetFromLegalPerson`/`GetFromBankAccount`/`GetFromHQ` (registry lookups) have no separate member. The roster functions test `invites` directly, and the registry is outside the model.
- `GetEmployer` (`Company.cs:71-72`) uses `SingleOrDefault`, which throws when two companies list the same user. `ForceJoin` of another company's CEO (`ForceJoinOfOtherCeo`), or `ChangeCeo` to another company's employee, creates exactly that state. From then on, `TryJoin` (`Company.cs:304`) in any company, and `ForceJoin` (`Company.cs:344`) in any third company, throw for that user instead of refusing or joining. The model stands for the lookup with the boolean `employed` and the single `other` company, so it cannot represent this exception. Its `TryJoin` refuses such a user as already employed, and its `ForceJoin` takes one of the employers.
- The action pack's post-effect runs at once when the pack accepts. The code's guards in the join post-effect (`Company.cs:328-329`) matter only if the roster changed before it ran. `JoinCommit` keeps those guards (`JoinCommitIdempotent`); `Companies.Company.TryJoin` requires that the registry finds this company for its own members, so there the user is always added.
- A null `DemoteCeo` argument when there is no CEO is not modelled: users are never null here.
- Companies.Company.ForceJoin: when the other employer removes the user and runs its own cascade first, the model states the other employer's roster and this company's synced lists, but not the exact deeds and accounts after both cascades.
