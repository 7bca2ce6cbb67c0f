# Verified model

This project models the parts of the system whose correctness depends on state that several operations rewrite, and
proves what those parts promise. `dafny verify dfyconfig.toml` checks all of it.

**The artifact registry.** Projects hold artifacts numbered 1..N, artifacts hold versions numbered 1..M, and redirects
lead from retired addresses to live ones. `Registry`, `AddressMaps` and `Resolution` give the data, what an address
names, and redirect resolution. `Promotion` adds versions; `Densify` renumbers; `Merge`, `Fold`, `Gathering` and
`Grouping` apply a grouping plan in three stages; `MergeTally` counts the numbers that the merges assign, and
`Retirement` says which retired addresses survive; `MergeEffects`, `GroupReferences`, `GroupedOrder` and
`GroupedArtifacts` say what a plan gives in terms of the registry it was applied to: numbers, links and names, which
references make which groups, the order of versions and artifacts, and what is left of each artifact; `EmptiedKeepers` has a plan that leaves an artifact's address without
its versions; `Reapplication` says when a plan changes nothing. `StoreRuns` puts promotions and groupings together:
every run of both keeps the store's invariant. Each rewrite is
described by the address map it induces: `Carries` says that following the map keeps what an address names, `Covers`
that no version is invented, and the main theorems show that the composed maps keep both while numbers are being reused.
The identities that the program tracks with `id()` are fields of versions and artifacts that no operation changes.
`RegistryDocuments`, `GatheringRuns`, `FoldRuns` and `GroupingRuns` are the same operations as the program writes them:
loops that rewrite one document in place, each proved to end in the state the specification gives. `StoreCheck` is the
check a registry must pass before it is written.

**The activity read model.** `Activity` holds the loops that turn evidence records into events, memory lineage and
spend totals. `ActivityLineage` states the lineage by the last event that touches a claim, `ActivitySpend` the totals by
the latest report of each usage, `ActivityReports` what one more report changes wherever it arrives, and `ActivityModels`
the whole read model by the times and ids of the evidence.

**The heartbeat.** `Heartbeat` is the per-check state machine with the shared restart budget, and what holds over every
run of it with a clock that does not run backwards; `HeartbeatDuties` says from the run so far when the monitor must
restart, page or keep quiet; `HeartbeatIncidents` routes alerts to threads; `LogScan` reads the
daily logs incrementally and throttles reports.

**The calendar.** `ICalendarText`, `ICalendarLines` and `ICalendarTime` print and read text values, folded lines and
times. `Calendar` is the event table, its policy and the service over it; `CalendarRuns` what holds over every run, and
where invitations lead in any order; `CalendarEffects` what each mutation leaves, and when it is carried out.

**Shares.** `ShareAuth` has the transactions on grants, links and sessions; `ShareHistory` says what the tables mean in
terms of the operations that happened.

**The tail reader.** `TailReader` reads a growing file of records a build at a time.

`Basics` holds the shared datatypes, facts about lists, and stable sorting.

Where the code and its documentation disagree, the model follows the code:

- Applying an applied plan of whole artifacts again can change the registry, although the docstring of `plan_grouping`
  says it changes nothing: renumbering can make the plan's references name another artifact. The exact condition is
  `Reapplication.ReapplyingChangesNothingIff`.
- Creating a project at an id that still redirects elsewhere leaves a redirect that shadows the new project; this is the
  one way a promotion breaks the store invariant (`Promotion.PromotionKeepsInvariant`,
  `Promotion.PromotionCanBreakInvariant`).
- A scan that finds no log for today returns before it saves that it drained yesterday's, so the next scan counts the
  same lines again (`LogScan.CountedOnceIff`).
- An incident thread is replaced twelve hours after it was opened, not after twelve idle hours
  (`HeartbeatIncidents.ThreadEndsByAge`).
- An artifact that keeps its number in a fold whose every own version was listed elsewhere keeps its address, although
  it then holds none of the versions it had. `Grouping.GroupingSharesUnlessEmptied` says that this is the only case, and
  `EmptiedKeepers.KeeperCanBeEmptied` shows it.
- A merge deletes every redirect at or under the artifact numbers it assigns, so a retired version address under such a
  number is lost. `Retirement.RetiredAddressKeptIff` says that this is the only case, and
  `Retirement.MergeCanDeleteRedirect` shows it.
- An instant with a fraction of a second does not read back: the writer removes `.000`, and any other fraction makes a
  text to which the reader adds a second `Z` (`ICalendarTime.UtcReadsBack`).

## Model

| member | source | states |
|---|---|---|
| Registry.ShadowsIffLive | ops/artifacts/artifact_manager.py:297-308 | an address shadows exactly when it is live; the one exception is "version 0" of a live artifact |
| Resolution.Locate | ops/artifacts/artifact_manager.py:530-549 | the bounded loop finds what hop-by-hop resolution finds, and reports a redirect loop exactly when following redirects from the address never ends |
| Resolution.LoopIffNeverEnds | ops/artifacts/artifact_manager.py:530-549 | running out of `len(redirects) + 1` hops means the walk repeats an entry and so never ends, by pigeonhole over the entries; a walk that ends never runs out |
| Resolution.RedirectResolvesToTarget | ops/artifacts/artifact_manager.py:530-549 | with live targets and no shadowing one hop suffices: a retired address resolves to its own redirect's target |
| Resolution.SoundNeverLoops | ops/artifacts/artifact_manager.py:530-549 | in such a registry no address at all is reported as a loop |
| Resolution.SoundAnswers | ops/artifacts/artifact_manager.py:530-549 | what every address of such a registry answers: the target of its own redirect, or of its artifact's without the version; else the artifact at the version it names, or that there is no such artifact or version |
| Densify.NumberedByFirstDate | ops/artifacts/artifact_manager.py:756-763 | after renumbering, one artifact of a project has the smaller number if and only if some version of it is dated before every version of the other, or neither is so and its old number was smaller |
| Densify.DenseProjectShape | ops/artifacts/artifact_manager.py:757-766 | a renumbered project has the numbers 1..N, next number N+1, and well-numbered versions |
| Densify.DenseCarries | ops/artifacts/artifact_manager.py:756-766 | every live address moves to the address of the same artifact or version |
| Densify.DenseCovers | ops/artifacts/artifact_manager.py:756-766 | every version of the result is a moved version of the old registry |
| Densify.DenseKeepsRevision | ops/artifacts/artifact_manager.py:756-766 | a moved version keeps its revision |
| Densify.DensifiedSound | ops/artifacts/artifact_manager.py:748-771 | a well-formed registry whose redirects lead to live addresses comes out sound (well-formed, targets live, nothing shadowed) and dense |
| Densify.DensifyKeepsAddresses | ops/artifacts/artifact_manager.py:765-768 | an address that was live or retired and is not taken by a live entry redirects to what it named or led to |
| Densify.DensifyIdempotent | ops/artifacts/artifact_manager.py:748-771 | a second renumbering has no moves and returns the same registry |
| Promotion.FreeNameExists | ops/artifacts/artifact_manager.py:479-480 | the search over one more candidate name than there are names taken always finds a free one |
| Promotion.FreshRevision | ops/artifacts/artifact_manager.py:477-480 | the name chosen is not taken |
| Promotion.PromotionKeepsInvariant | ops/artifacts/artifact_manager.py:459-487 | a promotion keeps the store invariant (sound, dense, one artifact to a session, revision names unique in a project) if and only if it does not re-create a project at an id that still redirects |
| Promotion.PromotionCanBreakInvariant | ops/artifacts/artifact_manager.py:470-473 | a registry as a merge leaves it, and a promotion into the merged project that succeeds and breaks the invariant |
| Promotion.RevivesIff | ops/artifacts/artifact_manager.py:470-473 | the failing case is exactly a request for a project id that is a redirect key |
| Promotion.RunsKeepInvariant | ops/artifacts/artifact_manager.py:459-487 | every run of promotions that avoids that case keeps the invariant |
| Promotion.RunsKeepAddresses | ops/artifacts/artifact_manager.py:459-487 | over every run each version keeps its address and revision, and each artifact its identity and at least the versions it held |
| Promotion.PromotionGoesLive | ops/artifacts/artifact_manager.py:459-487 | after a promotion its session makes one artifact, of the requested project, whose live version is the last one, with the request's identity and date, after all it had; every other artifact, its live version included, is as before |
| Promotion.RunsKeepLatestLive | ops/artifacts/artifact_manager.py:459-487 | over a run, each artifact promoted into has its latest promotion live, and the others are as they were |
| Promotion.PromotionNumbersAndNames | ops/artifacts/artifact_manager.py:463-480 | a new artifact has the project's next number, and the version is named by the first of `n-vk`, `n-vk-2`, ... that no version of the project has and the caller has not taken |
| Promotion.NewProjectNamed | ops/artifacts/artifact_manager.py:470-473 | a project that a promotion makes has the name asked for, one artifact, and next number 2 |
| Promotion.PromotionFailsOnlyElsewhere | ops/artifacts/artifact_manager.py:463-467 | under the invariant a promotion fails exactly when the session already makes an artifact of another project |
| Merge.MergeCarries | ops/artifacts/artifact_manager.py:604-625 | one project merge moves every live address to the address of the same project, artifact or version |
| Merge.MergeCovers | ops/artifacts/artifact_manager.py:610-623 | one merge invents and copies no version |
| Merge.MergeKeepsRevision | ops/artifacts/artifact_manager.py:616-621 | through any earlier merges and one more, each version keeps its revision, or carries the merged name together with the link that makes it available |
| Merge.MergeKeepsRetired | ops/artifacts/artifact_manager.py:588-594 | through one more merge a retired address still leads to what it did, unless the artifact number it lies at or under has been assigned |
| Merge.MergesKeepEverything | ops/artifacts/artifact_manager.py:596-625 | after all merges of a plan: the composed mapping carries and covers every version, redirects lead to live addresses, sources are gone and other projects' artifacts untouched |
| MergeEffects.MergedInOrder | ops/artifacts/artifact_manager.py:610-623 | a merge gives the source's artifacts the target's next numbers, in the order they had |
| MergeEffects.LinksAreVersions | ops/artifacts/artifact_manager.py:610-618 | a merge links exactly the source's versions, each from its name with the source's id before it |
| MergeEffects.MergeRefusedIff | ops/artifacts/artifact_manager.py:447-451 | a merge is refused exactly when a source with artifacts meets a target without a next number, or the prefixed name of one of its versions is that of a version of the target |
| MergeTally.TakenOverIffAssigned | ops/artifacts/artifact_manager.py:447-456 | the artifact numbers that merges give away are those counted from the target's next number by the artifacts of the sources, each source once, and no redirect at or under one of them is left |
| MergeTally.MovedIffSource | ops/artifacts/artifact_manager.py:611-625 | the merges move exactly the addresses of the projects the plan merges away |
| Gathering.FoldsAreOk | ops/artifacts/artifact_manager.py:627-659 | with distinct titles, the folds a plan resolves to name registered artifacts and versions, and no artifact or version is in two of them |
| Gathering.AcceptedIsFoldable | ops/artifacts/artifact_manager.py:666-676 | when no fold is refused, a version listed on its own is never one of an artifact that another group folds away |
| GroupReferences.FoldsAreListed | ops/artifacts/artifact_manager.py:627-659 | an artifact is folded into the group that is the first to list it, and a version goes to the group that lists it, whatever addresses they are listed by |
| GroupReferences.GroupsRefusedIff | ops/artifacts/artifact_manager.py:645-657 | the groups of a plan are refused exactly when one lists a version that is listed already, or lists versions and no artifact of its own |
| GroupedArtifacts.FoldsRefusedIff | ops/artifacts/artifact_manager.py:666-675 | folds are refused exactly when one folds away an artifact of which another lists a version, or is left with no version |
| Fold.OrderedRow | ops/artifacts/artifact_manager.py:672-673 | the rows of a fold are exactly the versions it lists and its members' versions that no group lists |
| Fold.OrderedDistinct | ops/artifacts/artifact_manager.py:672-673 | no version has two rows |
| FoldAddresses.VersionCarried | ops/artifacts/artifact_manager.py:677-718 | whatever is folded, picked or re-sequenced, each version moves to the address of the same version with the same revision |
| FoldAddresses.SharesUnlessEmptied | ops/artifacts/artifact_manager.py:689-711 | an artifact's address goes on to an artifact that holds some version it held, except exactly when it keeps its number in its group's fold and another group lists its every version |
| FoldAddresses.FoldCovers | ops/artifacts/artifact_manager.py:677-718 | every version after the folds is a moved version from before |
| FoldAddresses.FoldedWellFormed | ops/artifacts/artifact_manager.py:689-718 | versions stay numbered 1..M with a registered current version, and numbers do not repeat |
| Grouping.GroupingKeepsEverything | ops/artifacts/artifact_manager.py:575-743 | a plan that is applied leaves a sound and dense registry, and the returned mapping takes every address that was live to the same project, version or surviving artifact, through merges, folds and renumbering that reuse old numbers |
| Grouping.OldAddressesResolve | ops/artifacts/artifact_manager.py:575-743 | each old address's image resolves, and the old address itself is unchanged, or live again, or a redirect that resolves to that image |
| Grouping.GroupingConservesVersions | ops/artifacts/artifact_manager.py:575-743 | every version of the old registry is in the new one at exactly one address, and there are no others |
| Grouping.GroupingKeepsRevisions | ops/artifacts/artifact_manager.py:616-621 | every version keeps its revision, or after a merge has the prefixed name that `links` maps to the old one |
| Grouping.GroupingSharesUnlessEmptied | ops/artifacts/artifact_manager.py:661-738 | through all stages: an artifact's new address leads to an artifact that holds none of its versions if and only if, after the merges, it is such an emptied keeper |
| EmptiedKeepers.KeeperCanBeEmptied | ops/artifacts/artifact_manager.py:678-711 | a concrete registry and plan that empty a keeper |
| Retirement.RetiredAddressKeptIff | ops/artifacts/artifact_manager.py:588-594 | a retired address at which no stage puts anything still redirects to what it led to, and resolves to it, if and only if it is not at or under an artifact number that the merges assign; otherwise its redirect is gone |
| Retirement.MergeCanDeleteRedirect | ops/artifacts/artifact_manager.py:447-456 | a concrete registry and merge after which a retired version's redirect is gone although nothing was put at its address |
| Grouping.FoldedVersionsInOrder | ops/artifacts/artifact_manager.py:672-693 | each artifact a fold rebuilds has its rows' versions, numbered 1..M with the last one current |
| GroupedOrder.FoldedVersionsByDate | ops/artifacts/artifact_manager.py:672-693 | in an artifact that a group rebuilds, one version comes before another if and only if its date is earlier, or the dates are equal and it came from the smaller artifact number after the merges, or from one artifact and the smaller version number |
| GroupedOrder.FoldedVersionsAreTheGroups | ops/artifacts/artifact_manager.py:672-699 | it holds exactly the versions that go to its group, with the group's title, its members' sessions, and the last version current |
| GroupedOrder.OtherVersionsKeepOrder | ops/artifacts/artifact_manager.py:703-716 | versions that stay in an artifact that no group rebuilds stay together and in their order |
| GroupedOrder.OtherArtifactsStay | ops/artifacts/artifact_manager.py:661-671 | an artifact that no group rebuilds or takes versions of keeps its identity, versions, sessions and live version, and its title unless its group gives it one |
| GroupedOrder.ArtifactsByDate | ops/artifacts/artifact_manager.py:748-763 | in the new registry no artifact comes after one that starts later |
| GroupedOrder.GroupedNumbers | ops/artifacts/artifact_manager.py:748-763 | of two artifacts that start on one date the one with the smaller number after the folds has the smaller number in the end |
| GroupedArtifacts.KeeperIsSmallest | ops/artifacts/artifact_manager.py:658-664 | a fold's members are the registered artifacts in order of their numbers, and the smallest keeps its number |
| GroupedArtifacts.SessionsByMember | ops/artifacts/artifact_manager.py:683-699 | a rebuilt artifact has each member's sessions together, in the members' order |
| GroupedArtifacts.EmptiedFollowsFirst | ops/artifacts/artifact_manager.py:689-711 | an artifact that groups list every version of, but not itself, leads to the artifact of the first of those groups |
| GroupedArtifacts.SplitArtifactStays | ops/artifacts/artifact_manager.py:703-718 | an artifact that keeps some version when groups take others keeps its identity, title and sessions; its last version becomes current |
| GroupedArtifacts.OnlyServedAddresses | ops/artifacts/artifact_manager.py:721-738 | every redirect and every move of the result is for an address that led somewhere before the plan |
| GroupedArtifacts.NamesStay | ops/artifacts/artifact_manager.py:596-601 | a plan renames the targets it gives a name to and no other project |
| StoreRuns.GroupingKeepsInvariant | ops/artifacts/artifact_manager.py:575-743 | an applied plan leaves the whole store invariant: sound, dense, one artifact to a session, and revision names unique in each project, prefixed ones included |
| StoreRuns.ServiceKeepsInvariant | ops/artifacts/artifact_manager.py:239-294 | every run of promotions and groupings that gives new projects proper ids, and brings none of the known failing cases, keeps the invariant, and a registry that the store check accepts |
| Reapplication.NothingLeftChangesNothing | ops/artifacts/artifact_manager.py:575-743 | when the merges are done and each group is one artifact with its title, applying the plan returns the same registry and an empty mapping |
| Reapplication.ChangesNothingIff | ops/artifacts/artifact_manager.py:580-582 | a plan of whole artifacts leaves a numbered registry unchanged if and only if its merges are done and each group resolves to one artifact with the group's title |
| Reapplication.GroupedMergesNothing | ops/artifacts/artifact_manager.py:596-625 | after a plan its merges have nothing left to do: the sources are gone and the targets have the last name given |
| Reapplication.ReapplyingChangesNothingIff | ops/artifacts/artifact_manager.py:580-582 | an applied plan of whole artifacts changes nothing when applied again if and only if, in the registry it made, each group resolves to one artifact of its title |
| Reapplication.AppliedPlanCanChangeMore | ops/artifacts/artifact_manager.py:580-582 | a concrete registry and whole-artifact plan for which applying the plan again changes the registry again, against the docstring |
| RegistryDocuments.NameRevision | ops/artifacts/artifact_manager.py:479-480 | the loop over candidate names returns the first free one |
| RegistryDocuments.RegistryDocument.Allocate | ops/artifacts/artifact_manager.py:447-456 | the project gets its next number and counts on; exactly the redirects at or under the new address are deleted; without a next number nothing changes |
| RegistryDocuments.RegistryDocument.AddVersion | ops/artifacts/artifact_manager.py:459-487 | the copy that is extended step by step is the promoted registry, or the same failure; the original is untouched |
| RegistryDocuments.RegistryDocument.NumberProject | ops/artifacts/artifact_manager.py:756-766 | the numbering loop yields the dense project and exactly the moves of its artifacts and versions |
| RegistryDocuments.RegistryDocument.Densify | ops/artifacts/artifact_manager.py:748-771 | in place: the new registry, the moves of every address that changed, and as dropped exactly the carried redirects that now shadow |
| GatheringRuns.GatherFolds | ops/artifacts/artifact_manager.py:627-659 | the loops over groups and references resolve the plan to its folds or to the error they raise |
| GroupingRuns.GroupingRun.Move | ops/artifacts/artifact_manager.py:588-594 | older entries of mapping and redirects follow the moves, and each address that moved gets an entry |
| GroupingRuns.GroupingRun.AdoptVersions | ops/artifacts/artifact_manager.py:613-619 | renames the revisions of one artifact and records links and moves, or finds a clash |
| GroupingRuns.GroupingRun.MergeProject | ops/artifacts/artifact_manager.py:602-625 | one merge, artifact by artifact with its allocations, gives the merged draft or its error |
| GroupingRuns.GroupingRun.MergeAll | ops/artifacts/artifact_manager.py:596-625 | all merges of a plan in order |
| FoldRuns.FoldRun.FoldGroup | ops/artifacts/artifact_manager.py:663-702 | one fold: its refusal, a new title, or the keeper rebuilt and the members removed |
| FoldRuns.FoldRun.SettleHome | ops/artifacts/artifact_manager.py:703-718 | an unclaimed artifact that lost versions is renumbered, or removed when none are left |
| FoldRuns.FoldRun.ApplyFolds | ops/artifacts/artifact_manager.py:661-719 | all folds and then all sources: the folded registry, exactly the moves of the folds, and redirects only for addresses no longer live |
| GroupingRuns.PlanGrouping | ops/artifacts/artifact_manager.py:575-743 | the whole in-place plan returns what the staged specification returns: registry, mapping, links, or the error |
| StoreCheck.VerifyStore | ops/artifacts/artifact_manager.py:239-294 | the accumulated errors are empty exactly when the registry is accepted: proper and distinct ids, numbers 1..N, next number, versions in order, one artifact to a session, proper redirects that shadow nothing, live targets |
| StoreCheck.AcceptedIff | ops/artifacts/artifact_manager.py:239-294 | acceptance is the same as proper ids, soundness but for chained redirects, density and one artifact to a session |
| StoreCheck.AcceptedRedirectsResolve | ops/artifacts/artifact_manager.py:281-294 | in an accepted registry redirects may chain, but each retired artifact or version address resolves, to what its target does |
| StoreCheck.ChainedIsAccepted | ops/artifacts/artifact_manager.py:281-294 | a registry with a redirect to a redirect that is accepted |
| Activity.Deduplicate | ops/session-console/activity.py:252-263 | keeps each event once, and refuses exactly when two records share an id and differ |
| Activity.ReadLineage | ops/session-console/activity.py:275-292 | the loop over events is the lineage fold |
| Activity.IndexUsage | ops/session-console/activity.py:268-274 | for each usage the id of its last report and the day of its first |
| Activity.ReadSpend | ops/session-console/activity.py:293-305 | booking by the two indexes is booking the latest report of each usage on the day of its first |
| Activity.ReadModel | ops/session-console/activity.py:249-307 | the whole read model, or the conflict or changed introduction it raises |
| Activity.OnlyEvidenceMatters | ops/session-console/activity.py:249-307 | permuting or repeating records changes neither events, lineage, spend nor failure |
| ActivityLineage.KnownClaims | ops/session-console/activity.py:276-283 | the lineage has exactly the claims some event mutates |
| ActivityLineage.LastMutationDecides | ops/session-console/activity.py:281-286 | a claim's introduction, event and sessions are those of its last own mutation |
| ActivityLineage.LastTouchDecides | ops/session-console/activity.py:286-292 | state and projections are those left by the last event that mutates the claim or, once it is known, lists it as superseded, its own listing included |
| ActivityLineage.ProjectionsOnlyWhenCurrent | ops/session-console/activity.py:286-292 | only a current claim has projections |
| ActivityLineage.FailsIffIntroductionsDisagree | ops/session-console/activity.py:278-280 | the fold fails exactly when two mutations of a claim disagree on what introduced it |
| ActivityLineage.SharedIntroduction | ops/session-console/activity.py:278-283 | after a successful fold all mutations of a claim share the recorded introduction |
| ActivitySpend.SpendIsTotal | ops/session-console/activity.py:293-305 | a group exists exactly for the latest reports booked in it, and holds their exact, estimated and unavailable sums and their ids in order |
| ActivitySpend.OneReportPerUsage | ops/session-console/activity.py:293-305 | each usage contributes exactly one event, its last in the order of events, in exactly one group, on the day of its first report |
| ActivityReports.RecordInserts | ops/session-console/activity.py:249-267 | reading one more record, of a new event, puts the event in its place among the ordered ones |
| ActivityReports.CorrectionReplaces | ops/session-console/activity.py:266-305 | reading a report later than all others of its usage changes the spend of every group by its own worth minus that of the report it corrects; it is booked on the day of the usage's first report |
| ActivityReports.FirstReportAdds | ops/session-console/activity.py:266-305 | reading the first report of a usage adds its worth to one group, and nothing else changes |
| ActivityReports.LateReportRebooks | ops/session-console/activity.py:266-305 | a report that arrives after a later one of its usage adds nothing; if it is the first of the usage, the amounts of the last one move to its day |
| ActivityModels.EventsInTime | ops/session-console/activity.py:249-263 | the events are exactly the evidence, ordered by time and, at one time, by id |
| ActivityModels.SpentInGroup | ops/session-console/activity.py:266-305 | a group exists, and lists an event, exactly for the reports greatest in (time, id) of their usage, on the day of its report smallest in (time, id), with their profile and currency; it holds the sums |
| ActivityModels.LineageShowsLatest | ops/session-console/activity.py:276-292 | a claim's state and projections are those left by the event greatest in (time, id) that mutates it, or lists it when an earlier one has mutated it; its identity fields are those of its own mutation greatest in (time, id) |
| ActivityModels.LineageNeedsEvidence | ops/session-console/activity.py:276-281 | there is a model exactly when no two mutations of a claim disagree on its introduction, and the claims are those the evidence mutates |
| ActivityModels.SkippedAreCounted | ops/session-console/activity.py:250-258 | the records that project to nothing are counted |
| Heartbeat.Monitor.RestartBudgetLeft | services/observability/heartbeat/heartbeat.py:555-559 | keeps the restarts of the last hour and returns what is left of the budget |
| Heartbeat.Monitor.Process | services/observability/heartbeat/heartbeat.py:597-686 | the branches that update one check's record are the step of the state machine |
| HeartbeatRuns.RestartsPersisted | services/observability/heartbeat/heartbeat.py:555-559 | the persisted list is the whole history of restarts less the expired ones |
| HeartbeatRuns.RestartsSpaced | services/observability/heartbeat/heartbeat.py:555-584 | restarts two apart in the history are at least an hour apart |
| HeartbeatRuns.BudgetHolds | services/observability/heartbeat/heartbeat.py:555-584 | no half-open hour holds more than `RESTART_BUDGET` restarts, over all checks together |
| HeartbeatRuns.RestartsAreCorroborated | services/observability/heartbeat/heartbeat.py:624-652 | each restart answers a fixable check that failed now and at its observation before, with no agent run detected |
| HeartbeatRuns.StreamShape | services/observability/heartbeat/heartbeat.py:615-685 | a check's alerts are (non-resolving+ resolving)*, and it is alerting exactly while the last one does not resolve |
| HeartbeatRuns.PagesAreSpaced | services/observability/heartbeat/heartbeat.py:619-685 | two pages of a check less than half an hour apart have its recovery between them |
| HeartbeatRuns.DeferralsBounded | services/observability/heartbeat/heartbeat.py:626-648 | at most `MAX_RESTART_DEFERRALS` deferral notices between restarts attempted or recoveries |
| HeartbeatRuns.BlockedRestartsPage | services/observability/heartbeat/heartbeat.py:641-650 | a blocked restart pages only after all the deferral notices, with runs still active |
| HeartbeatDuties.RestartsIff | services/observability/heartbeat/heartbeat.py:615-653 | over every run, an observation restarts the gateway if and only if its check is fixable, failed now and uncleared at its observation before, no alert that stamps the throttle was raised for it in the last half hour since it cleared, fewer than `RESTART_BUDGET` restarts of the history lie in the last hour, and no run is active |
| HeartbeatDuties.AlertsAre | services/observability/heartbeat/heartbeat.py:615-686 | what each observation raises in each case, with its severity: recovery, nothing, deferral notice, blocked page, failed restart, spent budget, or an unfixable failure that pages at once or, for a canary, from the fourth failure on |
| HeartbeatDuties.BudgetPageIff | services/observability/heartbeat/heartbeat.py:663-669 | the page that the budget is spent is raised exactly when everything but the budget asks for a restart or its deferral |
| HeartbeatIncidents.Incidents.Thread | services/observability/heartbeat/heartbeat.py:301-318 | reuses an open thread, or replaces an expired or missing one when the opening is accepted |
| HeartbeatIncidents.Incidents.Route | services/observability/heartbeat/heartbeat.py:329-356 | delivers one alert and closes the incident on resolution, whatever the transport answers |
| HeartbeatIncidents.DeliveredIff | services/observability/heartbeat/heartbeat.py:329-356 | an alert counts as delivered exactly when the open thread accepts it, or a new thread does and, for a page, its repetition there too |
| HeartbeatIncidents.IncidentsAgreeIff | services/observability/heartbeat/heartbeat.py:301-356 | after any run a check has an open incident exactly while it is alerting, if and only if its last alert was delivered to effect: a resolving one not broken off in an open thread, another in an open or new thread |
| HeartbeatIncidents.IncidentsAgree | services/observability/heartbeat/heartbeat.py:301-356 | so they agree throughout while there is a token, openings are accepted and no message breaks; updates may be refused |
| HeartbeatIncidents.ThreadEndsByAge | services/observability/heartbeat/heartbeat.py:301-318 | updates do not prolong a thread: twelve hours after its opening the next alert opens another, however recent the last update |
| HeartbeatIncidents.RefusedOpeningDisagrees | services/observability/heartbeat/heartbeat.py:301-356 | one refused opening already leaves a check alerting without an incident |
| LogScan.Scanner.CountSignatures | services/observability/heartbeat/heartbeat.py:475-487 | adds the signature lines from an offset on, each under its first signature |
| LogScan.TallyCounts | services/observability/heartbeat/heartbeat.py:482-485 | a category counts the lines that hold its signature and none of those before it |
| LogScan.Scanner.ScanSilentKills | services/observability/heartbeat/heartbeat.py:441-472 | one scan counts exactly the lines it reads and keeps the place where it stopped |
| LogScan.ReadOnce | services/observability/heartbeat/heartbeat.py:441-487 | over growing daily logs, with today's log present and one day boundary at most between scans, exactly the lines logged after the first scan are read, once and in order |
| LogScan.ShrunkLogReadAgain | services/observability/heartbeat/heartbeat.py:467-470 | a log that has shrunk since the last scan of the day is read from its start |
| LogScan.CountedOnceIff | services/observability/heartbeat/heartbeat.py:455-463 | each loss is counted once if and only if no scan without today's log finds one added to the log of the last scan that found its own |
| LogScan.MissingLogCountsTwice | services/observability/heartbeat/heartbeat.py:455-463 | a concrete lost reply that is counted twice |
| LogScan.Reporter.ProcessSilentKills | services/observability/heartbeat/heartbeat.py:490-517 | new counts are added to the pending ones, which are told unless there are none or an alert is recent |
| LogScan.NothingLost | services/observability/heartbeat/heartbeat.py:490-517 | of each category, what was fed in has been told or is pending |
| LogScan.TellsIff | services/observability/heartbeat/heartbeat.py:490-517 | an alert is raised exactly when some loss is untold and all alerts before it are half an hour old, and it tells of every loss untold |
| LogScan.AlertsSpaced | services/observability/heartbeat/heartbeat.py:490-517 | loss alerts are at least half an hour apart |
| ICalendarText.UnescapeEscape | ops/calendar/ical.js:3-5 | the four reading passes applied to the four writing passes give back the value, with `n` or `N` after a backslash turned into a line feed |
| ICalendarText.TextRoundTripsIff | ops/calendar/invitation.js:14-16 | a TEXT value (section 3.3.11 of RFC 5545) survives if and only if no backslash stands right before `n` or `N` |
| ICalendarText.EscapeIsCoded | ops/calendar/ical.js:3-5 | the four writing passes code each character by itself |
| ICalendarText.EscapedIsSafe | ops/calendar/ical.js:3-5 | a written value holds no line feed, and a comma or semicolon only after a backslash |
| ICalendarLines.FoldLineInPlace | ops/calendar/ical.js:7-15 | the folding loop produces the chunks of the line |
| ICalendarLines.PhysicalLinesFit | ops/calendar/ical.js:7-15 | every physical line is at most 75 octets (section 3.1 of RFC 5545), for characters of one to four octets |
| ICalendarLines.BrokenWhenFull | ops/calendar/ical.js:7-15 | a line is broken only where one character more would exceed 75 octets, and goes on after a blank |
| ICalendarLines.DocumentReads | ops/calendar/ical.js:51 | any lines, at least one, without line feeds read back with those that start with a blank glued to the line before |
| ICalendarLines.DocumentRoundTripsIff | ops/calendar/invitation.js:3-5 | a document reads back as its lines and a final empty one if and only if it has lines, none with a line feed, and none after the first starts with a blank |
| ICalendarTime.DateReadsBack | ops/calendar/ical.js:17-22 | a date written as a property reads back |
| ICalendarTime.WrittenForms | ops/calendar/ical.js:17-22 | the text each boundary is written as (sections 3.3.4 and 3.3.5 of RFC 5545) |
| ICalendarTime.UtcReadsBack | ops/calendar/ical.js:17-22 | an instant without a fraction, or with `.000`, reads back to the second; with any other fraction as the written text and a second `Z` |
| ICalendarTime.PlainZone | ops/calendar/invitation.js:7-25 | a zone that is read never has a colon or semicolon |
| ICalendarTime.BoundaryRoundTripsIff | ops/calendar/invitation.js:7-25 | a date, instant or zoned time survives writing and reading if and only if it has no fraction of a second and its zone name no colon and no semicolon |
| Calendar.CalendarStore.Commit | services/calendar/store.mjs:75-88 | replaces the row with the event's id under the key it had, or inserts one, or breaks the uniqueness of keys |
| Calendar.CalendarStore.Tombstone | services/calendar/store.mjs:89-97 | marks the row deleted with one more revision |
| Calendar.CalendarService.Mutate | ops/calendar/service.js:19-37 | policy, replay, lookup, revision check, change and commit, with each failure |
| Calendar.CalendarService.ApplyInvitation | ops/calendar/service.js:42-55 | stale, repeated, cancelling and new invitations |
| CalendarRuns.MutationKeepsIdentity | ops/calendar/model.js:39-43 | one mutation removes no row, and revises or adds one event at most; id, UID, calendar and creation time stay |
| CalendarRuns.RunsKeepIdentity | ops/calendar/model.js:39-43 | over every run of mutations and invitations each row stays under its id and key, its event keeps id, UID, calendar and creation time, and its revision grows by one at each step that changes it |
| CalendarRuns.ReplayChangesNothing | ops/calendar/service.js:20-22 | a successful operation repeated after any others, invitations included, changes nothing and is answered as before |
| CalendarRuns.InvitationsConverge | ops/calendar/service.js:42-55 | requests of distinct sequences in any order end with the content of the highest (section 3.8.7.4 of RFC 5545), at a revision that counts the deliveries exceeding all before them |
| CalendarRuns.OrderDoesNotMatter | ops/calendar/service.js:42-55 | two orders of the same deliveries leave the same content |
| CalendarEffects.AllowedIff | ops/calendar/policy.js:1-13 | a change needs an operation, a reason, and either an approved agent or a recipient trusted up to case |
| CalendarEffects.SucceedsIff | ops/calendar/service.js:19-37 | a mutation is carried out exactly when policy lets it, its operation is new, it names what it must at the revision expected, and what it makes is valid and in no other's place; otherwise nothing changes |
| CalendarEffects.CreateMakes | ops/calendar/model.js:19-33 | a new event has the fields given or their defaults, revision 1, and is found by id and by key |
| CalendarEffects.UpdateTakes | ops/calendar/model.js:39-43 | an update takes each field given and keeps the others; the event is found where it was |
| CalendarEffects.CancelCancels | ops/calendar/service.js:34-34 | a cancelled event has that status whatever status was asked for |
| CalendarEffects.DeleteHides | services/calendar/store.mjs:68-97 | a deleted event is found by no key; its last revision stays under its id |
| CalendarEffects.CancellationCancels | ops/calendar/service.js:47-50 | a cancelling invitation leaves the event cancelled, with nothing else of it changed but its provenance |
| CalendarEffects.RunsStayWellTimed | ops/calendar/model.js:20-24 | over every run each event ends after it starts, by times of one kind and zone, and has a title |
| ShareAuth.OneResourcePerPath | services/share-auth/share_auth.py:67-68 | no path lies under two different valid resources |
| ShareAuth.CoversIff | services/share-auth/share_auth.py:173-187 | a resource covers the path that spells its two parts and what a slash sets off below it, and nothing else |
| ShareAuth.FirstAliasDecides | services/share-auth/share_auth.py:176-179 | the first alias that a path starts with decides what it stands for |
| ShareAuth.Store.Invite | services/share-auth/share_auth.py:112-140 | renews or makes the grant, drops its unredeemed links and issues one |
| ShareAuth.Store.Redeem | services/share-auth/share_auth.py:142-171 | opens a session for a usable link, and that session opens the grant's resource |
| ShareAuth.Store.Revoke | services/share-auth/share_auth.py:189-204 | revokes the grant and all its sessions |
| ShareAuth.Store.IsAuthorized | services/share-auth/share_auth.py:173-187 | assets, the first matching alias, and the joined session and grant |
| ShareHistory.RedeemsIff | services/share-auth/share_auth.py:142-171 | a link opens a session exactly when it is its grant's latest, unused and in time, and the grant was not revoked since it was issued |
| ShareHistory.InvitesIff | services/share-auth/share_auth.py:112-140 | an invitation is accepted exactly when it names an address and a valid resource |
| ShareHistory.SameGrantIff | services/share-auth/share_auth.py:118-127 | two invitations are to one grant exactly when they name one address and one resource |
| ShareHistory.RevokesIff | services/share-auth/share_auth.py:189-204 | a revocation reports a change exactly when the grant was issued and not revoked since |
| ShareHistory.RedeemedOnce | services/share-auth/share_auth.py:156-162 | no link is redeemed twice |
| ShareHistory.AuthorizedIff | services/share-auth/share_auth.py:173-187 | a session opens a resource exactly when it was opened for it within the time allowed and its grant was not revoked since, later invitations notwithstanding |
| ShareHistory.LinksMatchSessions | services/share-auth/share_auth.py:126-163 | each grant has one unredeemed link at most, and as many sessions as redeemed links |
| TailReader.EachNewRecord | ops/session-console/build-session-console.py:249-268 | yields the records on the complete lines after an offset and stops before an incomplete one |
| TailReader.CommittedOffset | ops/session-console/build-session-console.py:526-533 | the second pass finds the place where the reader stopped |
| TailReader.Tail.Build | ops/session-console/build-session-console.py:515-533 | one build resumes at the kept offset, or at the start of another or shorter file |
| TailReader.LinesContinue | ops/session-console/build-session-console.py:249-268 | appended bytes leave the complete lines in place and continue after them |
| TailReader.ExactlyOnce | ops/session-console/build-session-console.py:509-533 | over builds of a file that only grows, in any byte increments, its complete records are yielded exactly once and in order |
| TailReader.ReplacedFileReadWhole | ops/session-console/build-session-console.py:515-533 | another file, or one shorter than what was read of it, is read from its start |
| TailReader.OffsetAtLineStart | ops/session-console/build-session-console.py:526-533 | the offset kept is 0 or just past a line feed, and no line feed comes after it |

## Left out

- Grouping.GroupingKeepsEverything: asks that no merge source is also a target and that titles are distinct within a project; with either the program gives two groups one artifact, or removes a project it has just filled.
- Retirement.RetiredAddressKeptIff: asks that no stage puts anything at the address; where one does, the address leads to that instead.
- GroupingRuns.PlanGrouping: warnings are not modelled.
- RegistryDocuments.RegistryDocument.Densify: the dropped redirects are a map, not the list sorted by address.
- FoldRuns.FoldRun.ApplyFolds: an artifact object shared by two lists is modelled by its project and number, which identify it in a well-formed registry.
- CalendarRuns.RunsKeepIdentity: the identifiers drawn at random are taken to be new.
- StoreRuns.ServiceKeepsInvariant: leaves out promotions that create a project at a retired id, and plans that merge a target away or repeat a title in a project.
- StoreCheck.VerifyStore: the schema version, aliases, legacy names and the revision files are not checked.
- Promotion.RunsKeepAddresses: version titles, labels and dates are not part of the registry's versions beyond the sort key.
- Resolution.Locate: addresses are parsed already; spellings such as leading zeros, and texts that are no address, are not modelled.
- Activity.ReadModel: records are projected already; identifiers are tokens with an order, timestamps seconds, amounts exact, and the count of unindexed records depends on repetition.
- ActivityLineage.LastTouchDecides: the order in which claims are listed, and the visibility and source references a claim carries, are left out.
- LogScan.ReadOnce: logs are lists of whole lines, so a line half written when a scan runs is not modelled.
- HeartbeatIncidents.IncidentsAgreeIff: the alerts of one run are delivered as they arise, which ends in the same state as delivering them at the end of the run.
- Calendar.CalendarService.Mutate: an attendee is an e-mail address, a boundary is a number with its kind, and the audit record of a result is left out.
- ShareAuth.Store.Invite: e-mail addresses come normalized, tokens stand for their hashes, and the audit table is left out.
- ICalendarTime.BoundaryRoundTripsIff: instants are those that name the second, with or without a fraction; the other texts that `Date.parse` takes are left out.
- Registry aliases and legacy addresses: alias forms are not carried by a merge, and legacy names would be further redirect keys.
- HTML pages, the projection on disk, `materialize`, the rollback of `create` and `group`, `plan_migration` and the command line.
- The check of revision files and provenance in `verify_store`.
- Append-only ledger files, SQLite, HTTP handlers, Slack, Doppler and process control: transactions are single steps and answers from outside are inputs.
- The calendar feed as a whole, attendee lines, and calendars as entities.
