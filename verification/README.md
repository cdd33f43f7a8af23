# Verification of LocalClaw's lifecycle

This project models the parts of `lclaw` that decide what happens to a
machine, its networks, its pods and its secrets, and proves what a user may
rely on.

## The model

- **The outside world** (`system.dfy`, `host.dfy`) is one mutable object: the
  machine (absent, stopped, running, with a number counting the machines
  created), networks with their internal flag, images, pods with the networks
  they joined, the machine's secret store (labelled and unlabelled), volumes,
  and the keychain with each item's value and source. Each call on a port is
  done, refused by the world's own rules, or *faults*. A fault may or may not
  have taken effect, an interrupted replacement of a pod may leave no pod, and
  the context may be cancelled at any moment. Every theorem holds for every
  combination.
- **Commands** (`rules.dfy`): each command has a rule saying which call it may
  make in which state. The methods that follow the program's loops
  (`up.dfy`, `up_command.dfy`, `secret_steps.dfy`, `down.dfy`,
  `down_command.dfy`, `status.dfy`, `secrets_commands.dfy`) can only make
  calls their rule allows, and their contracts say how a run may end. A run
  of `up` also changes nothing after its first failed call, plays a pod only
  right after building its image and once its zone's secrets are in the
  machine, keeps a value only right after making it, and comes to the agent's
  zone only after LiteLLM answered when the services zone is selected.
  Minting and readiness are refused unless LiteLLM's pod runs.
- **Histories** (`runs.dfy`, `litellm_runs.dfy`, `network_runs.dfy`,
  `histories.dfy`, `coherence.dfy`, `freshness.dfy`, `isolation.dfy`,
  `again.dfy`): theorems by induction over all runs and all sequences of
  commands. They use only the rules, the world and the ends of runs.
- **Why the lifecycle may trust its input** (`roles.dfy`, `catalogue.dfy`,
  `topology.dfy`, `validate.dfy`, `wellformed.dfy`, `default_topology.dfy`):
  `Validate` finds nothing iff a declarative predicate holds, and that
  predicate gives every lookup whose result the lifecycle discards. What it
  does find is exactly what is wrong, in file order (`file_order.dfy`), rule by
  rule (`reported_findings.dfy`).
- **Three smaller algorithms**: the redactor (`redact.dfy`), the
  temp-and-rename writer with `init` on top (`files.dfy`, `init.dfy`), and the
  keychain password reader (`keychain_parse.dfy`).

## What the proofs found

- Taking everything down reports a failure whenever an earlier zone is bridged
  into a later one. Zones go down in reverse, Podman refuses to remove a
  network in use, and the bridging pod is still up. The default topology is
  such a case (`NetworkRuns.WholeDown`, `NetworkRuns.DefaultDownFails`). The
  machine is still purged and stopped.
- A minted key that `down --destroy` leaves behind when the machine is gone
  belongs to no machine (`Freshness.LeftBehindIsStale`), and it stays: a second
  `down --destroy` stops at "not created", and `up` does not mint where there
  is an item (`Freshness.StaleKeyStays`). The rule and the contract of destroy
  admit such a run from every stopped machine with a minted key
  (`Freshness.FailedForgettingLeavesKey`).
- `up infra` alone never succeeds on a fresh machine with the default topology:
  kuma-cp is bridged into networks that only the other zones create
  (`NetworkRuns.InfraAloneNeedsTheOthers`).
- Nor does `up agent` alone where its key has not been minted and LiteLLM is
  not up, as the documentation says (`LiteLLMRuns.AgentAloneNeedsLiteLLM`).
- An `up` can be resumed after any failure with one exception: if LiteLLM is a
  workload of the agent's zone, the services wait for it before it is played,
  and once its pod is lost no `up` of both zones succeeds
  (`UpAgain.UpCanBeResumed`, `UpAgain.LateLiteLLMCanBeLost`).
- `status` passes for a stopped machine (`StatusCommand.StatusPassesIff`).
- No run of a secret survives redaction in one piece iff the secret is on one
  line (`Redaction.RedactsIff`). Two of its three callers pass hexadecimal or
  base64 text, which is; the third passes a minted key as it came.
- The comment at `internal/adapters/exec/redact.go:16-22` says that dropping
  lines covers a value that wrapped across lines. It does iff the lines are at
  least 16 bytes wide; a secret wrapped at less comes through whole
  (`Redaction.WrappedLeaksIff`).
- A comment and the code disagree: `internal/app/lifecycle.go:281-285` says
  destroy revokes the minted key, but it only deletes the keychain item, as
  the comment on `destroy` itself explains. The model follows the code.

## Model

| member | source | states |
|---|---|---|
| `Roles.ParseRole` | internal/domain/role.go:40-47 | a name parses to the role of that name and is refused only when no role has it |
| `Roles.SelectRoles` | internal/domain/role.go:52-74 | a selection is in zone order and holds exactly the named zones (all when none is named); otherwise the error is the first name that is unknown or repeated |
| `Roles.BadNameRefutesSelection` | internal/domain/role.go:52-74 | the two outcomes exclude each other: a first bad name means the names were not distinct roles |
| `Roles.SelectionIsOrderFree` | internal/domain/role.go:49-74 | the order in which zones are named on the command line cannot matter |
| `Roles.ZoneOrder` | internal/domain/role.go:49-74 | every selection is one of the eight sub-sequences of infra, services, agent |
| `Reports.Worst` | internal/domain/report.go:44-52 | fails iff some check fails, passes iff all pass, so warns exactly in between |
| `Catalogues.NewCatalogue` | internal/domain/catalogue.go:26-69 | every built-in entry plus exactly one rotatable user entry per accepted name with its declaring zones in order, sorted by name, and one finding per refused position, for any built-in list; what each entry and each finding says is ReportedFindings.DeclaredEntry and CatalogueReports |
| `Catalogues.CatalogueUnique` | internal/domain/catalogue.go:60-68 | with built-in names that differ, sorting leaves no choice: inputs determine the catalogue, whatever order ties or maps are visited in |
| `Catalogues.CatalogueBalance` | internal/domain/catalogue.go:37-60 | per zone, listed names = findings + memberships: nothing is dropped silently or counted twice |
| `Catalogues.ForZone` | internal/domain/catalogue.go:97-105 | the entries a zone consumes, as a filter of the catalogue |
| `Catalogues.ConsumedIsFilter` | internal/domain/catalogue.go:95-105 | that filter has exactly the entries naming the zone |
| `Catalogues.ConsumedIsSorted` | internal/domain/catalogue.go:95-105 | and a sorted catalogue stays strictly sorted in it |
| `Catalogues.ConsumedMeans` | internal/domain/catalogue.go:26-105 | a zone consumes its built-in entries and the names it declares, nothing else |
| `Catalogues.Lookup` | internal/domain/catalogue.go:86-93 | finds the entry of that name or there is none |
| `ReportedFindings.CatalogueReports` | internal/domain/catalogue.go:46-55 | a listed name is reported malformed iff it is no DNS label, as colliding iff it is one and a built-in entry has it, as listed twice iff it is neither and two positions hold it, for any built-in list |
| `ReportedFindings.DeclaredEntry` | internal/domain/catalogue.go:56-66 | an entry that is not built in has a good new name, is the user's, may be rotated, and its zones are exactly those that declare it, in zone order |
| `Topologies.Zone` | internal/domain/topology.go:89-96 | the first zone of the role's name; `ok` says whether there is one |
| `Topologies.DeclaredSecrets` | internal/domain/topology.go:114-120 | the names per zone as written, a later zone of the same name winning |
| `Topologies.Networks` | internal/domain/topology.go:100-108 | own network first, then one per target sorted by zone rank, each target as often as it is listed; for validated targets there is only one such list, whatever the sort does with ties |
| `Topologies.TargetsAscend` | internal/domain/topology.go:102-103 | the bridged zones come in strictly increasing role order, each exactly once |
| `Topologies.JoinsExactly` | internal/domain/topology.go:98-108 | a pod joins a zone's network iff it is its own zone or the workload is bridged into it |
| `Topologies.NetworksAreDistinct` | internal/domain/topology.go:98-108 | own network first, no network twice |
| `Validation.SortedKeys` | internal/domain/topology.go:206-210 | the bridge names in the one ascending order, independent of map iteration |
| `Validation.CheckWorkloads` | internal/domain/topology.go:180-205 | one finding per bad position, and exactly the workloads this zone owns |
| `Validation.CheckBridges` | internal/domain/topology.go:206-236 | one finding per bad bridge or target, and exactly the zones reached by accepted bridges |
| `Validation.Validate` | internal/domain/topology.go:138-260 | every finding, position by position; what they say and in which order are FileOrder.FindingsInFileOrder and the rows of ReportedFindings |
| `FileOrder.FindingsInFileOrder` | internal/domain/topology.go:132-260 | the findings are exactly the broken places of the file, each place once, strictly in the order of the file, bridges by name and what concerns all zones last; what breaks a place is stated in literal terms |
| `FileOrder.ReportedIff` | internal/domain/topology.go:132-260 | a finding is reported iff it is what is wrong at some place |
| `FileOrder.WorkloadNameMeans` | internal/domain/topology.go:287-300 | lowercase letters, digits and hyphens, the first no hyphen |
| `FileOrder.SecretNameMeans` | internal/domain/secret.go:118-141 | the same, of at most 63 characters and ending in no hyphen |
| `FileOrder.VolumeMeans` | internal/domain/topology.go:163-168 | two absolute paths joined by the first colon |
| `FileOrder.DeclaredLast` | internal/domain/topology.go:114-120 | what a zone name declares is what the last zone of that name lists |
| `ReportedFindings.HeadReported` | internal/domain/topology.go:144-162 | each of the six findings about schema, provider, CPUs, memory and disk, iff its value is bad |
| `ReportedFindings.VolumeReported` | internal/domain/topology.go:163-168 | volume i is reported iff it is not two absolute paths |
| `ReportedFindings.ZoneReported` | internal/domain/topology.go:176-251 | a zone name is unknown iff some zone has it and it is none of the three; an internal zone is unreachable iff it is named once and no accepted bridge of another zone leads into it |
| `ReportedFindings.CountReported` | internal/domain/topology.go:238-245 | a role is missing iff no zone has its name, repeated iff several have, with their number |
| `ReportedFindings.WorkloadNameReported` | internal/domain/topology.go:182-185 | a workload name is reported iff it is bad and the zone lists it |
| `ReportedFindings.RepetitionReported` | internal/domain/topology.go:186-193 | a workload is reported as repeated iff its name is good and it was listed before, and the zone named is the first that lists it |
| `ReportedFindings.MissingReported` | internal/domain/topology.go:194-205 | files are reported missing at the zone that lists the workload first, and they are exactly the absent ones of its three, in order |
| `ReportedFindings.BridgeReported` | internal/domain/topology.go:211-221 | a bridge is foreign iff its zone does not own the workload, and otherwise refused iff the zone is internal |
| `ReportedFindings.TargetReported` | internal/domain/topology.go:222-236 | of an open bridge: unknown targets, the zone itself, and targets listed twice |
| `ReportedFindings.SecretReported` | internal/domain/topology.go:253-257 | malformed, colliding and repeated secret names, of the last zone of each role |
| `WellFormedness.ValidIffWellFormed` | internal/domain/topology.go:132-260 | no finding iff the topology satisfies the design's rules stated without loops: each role one zone, distinct workloads with their files, good bridges, internal zones reachable, good secrets |
| `WellFormedness.WellFormedIsUsable` | internal/domain/topology.go:89-96 | what `Up` and `Down` use without asking again: every zone lookup succeeds, workloads have one zone, bridges are good |
| `WellFormedness.WorkloadHasOneZone` | internal/domain/topology.go:186-193 | no workload is in two zones |
| `WellFormedness.ShareIff` | internal/domain/topology.go:98-108 | two workloads share a network iff they are in one zone, one is bridged into the other's zone, or both into a common one |
| `WellFormedness.InternalJoinsOne` | internal/domain/topology.go:218-221 | a workload of an internal zone joins its own network only |
| `Hosts.Host.Perform` | internal/app/ports.go:29-122 | the outside world accepts, refuses or faults; a fault may or may not have taken effect |
| `Hosts.Host.KeychainGet` | internal/app/ports.go:86-100 | the value of an item that exists; a missing item or file is refused |
| `Hosts.Host.KeychainPut` | internal/app/ports.go:86-100 | never replaces an item unless asked to |
| `Hosts.Host.StoreSecret` | internal/app/ports.go:102-113 | replaces a secret of the same name, under lclaw's label |
| `Hosts.Host.ListSecrets` | internal/app/ports.go:102-113 | exactly the labelled secrets, each once |
| `Hosts.Host.RemoveVolume` | internal/app/ports.go:102-113 | succeeds when there is no such volume |
| `Hosts.Host.RemoveNetwork` | docs/explanation/lifecycle-commands.md:69-71 | refused while a pod uses the network |
| `Hosts.Host.Play` | internal/app/ports.go:44-52 | replaces the pod; needs the image and every network |
| `Hosts.Host.Ready` | internal/adapters/litellm/minter.go:94-127 | refused unless the machine and LiteLLM's pod run; a pod that runs without answering in time is a fault |
| `Hosts.Host.Mint` | internal/adapters/litellm/minter.go:129-164 | issued by the machine that runs now, and refused unless LiteLLM's pod runs in it |
| `SecretSteps.RequireKeychain` | internal/app/secrets.go:95-104 | no command goes on when the keychain file is missing |
| `SecretSteps.ZoneMintsLast` | internal/app/lifecycle_secrets.go:38-71 | in every zone's list only user entries follow a minted one, so a failed mint is never followed by a write |
| `SecretSteps.MissingFails` | internal/app/lifecycle_secrets.go:38-71 | no finding iff every entry of the zone has a value |
| `SecretSteps.MissingAre` | internal/app/lifecycle_secrets.go:38-71 | entry by entry in order: nothing for one that has a value, else one failure under its name |
| `SecretSteps.Make` | internal/app/lifecycle_secrets.go:46-68 | a missing generated or minted entry is made once and is in the keychain with the value made and its own source, and no other item comes or goes; a failed mint leaves it missing; an error is a faulted keychain or generator call |
| `SecretSteps.ResolveOne` | internal/app/lifecycle_secrets.go:38-68 | read it, or make it when it can be made, which without a fault means always but for an unset user entry and for a minted one while LiteLLM is not up; otherwise a finding or an error |
| `SecretSteps.Resolve` | internal/app/lifecycle_secrets.go:32-71 | one finding per entry without a value, in order; with none, the keychain's values of exactly the zone's entries; an error only for cancellation, a missing keychain or a faulted keychain or generator call |
| `SecretSteps.Inject` | internal/app/lifecycle_secrets.go:81-91 | on success every secret is in the store with the keychain's value |
| `Ups.AllUnsetUsersMeans` | internal/app/lifecycle.go:92-113 | no failed check iff every user secret of the selected zones is set |
| `Ups.UnsetUsersAre` | internal/app/lifecycle.go:92-113 | entry by entry in order: one failure under the name of a user's entry that is not set |
| `Ups.AllUnsetUsersAre` | internal/app/lifecycle.go:92-113 | zone by zone, each with what it consumes |
| `Ups.ZoneSubjectsAt` | internal/app/lifecycle.go:158-233 | a zone reports its secrets, its workloads in the order of the file and, for the services, LiteLLM |
| `Ups.CheckUsers` | internal/app/lifecycle.go:86-113 | one failed check per unset user secret, from looking only: no value is read and nothing is changed |
| `Ups.FindMachine` | internal/app/lifecycle.go:244-250 | the first machine of that name, or there is none |
| `Ups.EnsureMachine` | internal/app/lifecycle.go:237-279 | passes with a running machine, and a faultless attempt passes |
| `Ups.EnsureNetwork` | internal/app/lifecycle.go:131-151 | passes with the zone's network present |
| `Ups.EnsureNetworks` | internal/app/lifecycle.go:126-152 | one passed check per selected zone in order, all networks present, or a report that ends with the failure |
| `Ups.ApplyWorkload` | internal/app/lifecycle.go:188-215 | on success the pod runs on exactly the planned networks and user namespace, played right after its image was built |
| `Ups.ApplyWorkloads` | internal/app/lifecycle.go:188-219 | the workloads played are a prefix of the zone's list; on success all of it, each pod as planned |
| `Ups.InjectZone` | internal/app/lifecycle.go:178-186 | on success every secret the zone consumes is in the store with the keychain's value |
| `Ups.ApplySecrets` | internal/app/lifecycle.go:166-186 | resolve then inject; without a fault it succeeds where every user entry is set and LiteLLM is up for a minted entry that is not |
| `Ups.AwaitReady` | internal/app/lifecycle.go:220-232 | the services zone succeeds only after LiteLLM answered as the last call, and without a fault does where LiteLLM's pod runs; other zones do not wait |
| `Ups.ApplyZone` | internal/app/lifecycle.go:158-233 | on success the zone is up and reported step by step; on failure the plays are a prefix; faultless and favourable means success |
| `UpCommand.Load` | internal/app/lifecycle.go:39-57 | succeeds iff the scaffold decodes to a well-formed topology, which makes the catalogue's dropped findings empty |
| `UpCommand.ApplyZones` | internal/app/lifecycle.go:154-234 | after a failed pass some zone is the one that failed: the zones before it passed in full, its own checks end with its failure, and each later zone is exactly one warning; a clean pass means every zone is up; an error only for cancellation, a missing keychain or a faulted keychain or generator call |
| `UpCommand.Prepare` | internal/app/lifecycle.go:115-152 | the machine, then all networks, before anything else |
| `UpCommand.RunUp` | internal/app/lifecycle.go:84-235 | every call obeys the rule of `up`, nothing is changed after the first failure, pods follow their builds and their zone's secrets, values are kept right after they are made, the agent's zone follows LiteLLM's answer, and the run ends as UpEnds says: complete and clean with no failed call, stopped before the zones with no warning, stopped in one zone with one warning per later zone, or an error with one of its three reasons |
| `UpCommand.Up` | internal/app/lifecycle.go:72-235 | a clean report means machine, networks, secrets in step, every selected pod as the topology says and no call that failed, with the report complete in order; a failed one names the zone that failed and warns of exactly the later ones; a missing keychain or user secret touches nothing; a failed call is an error only if it is a fault of the keychain or the generator |
| `UpCommand.UpErrsIff` | internal/app/lifecycle.go:72-77 | without a fault and a cancellation `up` returns an error iff the keychain file is missing |
| `UpCommand.WarningsFollowFailure` | internal/app/lifecycle.go:154-165 | no zone is skipped unless something before it failed |
| `UpCommand.StoppedReport` | internal/app/lifecycle.go:115-234 | a report that is not clean though every user secret is set: the machine or a network failed last and nothing followed, or a zone did: what came before it passed, its checks end in a failure, and each later zone is one warning at the end |
| `UpCommand.ZonesGoInOrder` | internal/app/lifecycle.go:154-219 | zones are applied and reported as selected, each zone's workloads in the order of the file |
| `UpCommand.CleanReport` | internal/app/lifecycle.go:115-234 | a clean report: the machine, one network per zone, then the zones |
| `Runs.UpGrows` | internal/app/lifecycle.go:72-235 | a whole `up`, failed or not, undoes nothing it found: keychain items, networks, stored secrets, and pods but for one whose replacement was interrupted |
| `Runs.LostIsOne` | internal/app/lifecycle.go:188-215 | the pods whose replacement a run interrupted are at most one |
| `NetworkRuns.PlayAcceptedIff` | internal/app/lifecycle.go:126-207 | in every run of `up`, a play is accepted iff each network the workload is bridged into is a selected zone's or was there before the run |
| `NetworkRuns.CleanRunWasClosed` | internal/app/lifecycle.go:126-207 | a run that played everything and met no failure started with every bridged zone selected or its network there |
| `NetworkRuns.UpPassesIff` | internal/app/lifecycle.go:84-235 | a faultless, uncancelled `up` passes iff the keychain is there, every user secret is set, every bridged zone is selected or its network was there, and LiteLLM, if the services or an unset minted key need it, is up or a workload of a selected zone up to the services |
| `NetworkRuns.EveryZoneIsClosed` | internal/domain/topology.go:222-236 | selecting every zone closes the selection, so no play can miss a network |
| `NetworkRuns.InfraAloneNeedsTheOthers` | cmd/lclaw/scaffold/lclaw.toml:27-37 | in the default topology `up infra` can end clean only where the networks of services and agent were there before |
| `LiteLLMRuns.AgentAloneNeedsLiteLLM` | docs/explanation/lifecycle-commands.md:152-155 | `up agent` alone can end clean only where LiteLLM was up or its key was in the keychain |
| `LiteLLMRuns.StaysDark` | internal/app/lifecycle.go:117-232 | where LiteLLM is needed, not up and not brought up in time, no run of `up` brings it up, makes it answer, mints or keeps a minted key |
| `LiteLLMRuns.CleanRunWasServed` | internal/app/lifecycle.go:117-232 | so a run that reached its goal found LiteLLM up, brought it up in time, or did not need it |
| `UpAgain.NothingToCreate` | internal/app/lifecycle.go:117-210 | where the goal is reached the rule of `up` allows no init, start, network, mint, generate or keychain write |
| `UpAgain.UpIsIdempotent` | internal/app/lifecycle.go:72-235 | every run of `up` from the goal, however it ends, creates nothing and leaves machine, networks, store, keychain and pods unchanged, but for a pod whose replacement was interrupted; with no failed call the goal still stands |
| `UpAgain.UpCanBeResumed` | internal/app/lifecycle.go:72-235 | whatever happens during an `up` that could succeed, a later one still can, exactly unless LiteLLM is a workload of the agent's zone, the services are selected and its pod is gone; so always if LiteLLM's pod is not the one lost |
| `UpAgain.LateLiteLLMCanBeLost` | internal/app/lifecycle.go:188-232 | for every such topology and selection the rule admits a run that makes the next `up` fail: LiteLLM's pod is lost while being replaced, and the services wait for it before it is played again |
| `UpAgain.PlayedSecretsAreThere` | internal/app/lifecycle.go:178-207 | in every run, when a pod is played each secret of its zone is in the machine with the keychain's value |
| `Downs.DownWorkload` | internal/app/lifecycle.go:339-358 | absent is a warning, taken down a pass, and the pod counts as present exactly after a failure |
| `Downs.DownPods` | internal/app/lifecycle.go:337-358 | every workload is tried, last first; some check fails iff a pod of the zone may remain, and every passed check is true of the world |
| `Downs.CloseNetwork` | internal/app/lifecycle.go:359-378 | the network goes only when the zone's pods are gone; without a fault it is removed, kept because in use, or absent; a pass means it was there and is gone, a warning that it was not there; no other network is touched |
| `Downs.DownZone` | internal/app/lifecycle.go:333-378 | pods then network, one check each, in reverse |
| `Downs.TornStep` | internal/app/lifecycle.go:330-378 | one more zone torn down leaves exactly the networks still held by remaining pods |
| `Downs.DownZones` | internal/app/lifecycle.go:329-379 | zones in reverse with a complete report; without a fault exactly the selected pods are gone and a failure is reported iff a removed zone's network is still in use |
| `Downs.ZonesGoInReverse` | internal/app/lifecycle.go:329-379 | the report goes through the selected zones, last first |
| `Downs.ZoneDownSubjectsAt` | internal/app/lifecycle.go:329-379 | and in each through its workloads, last first, and then its network |
| `DownCommand.PurgeOne` | internal/app/lifecycle_secrets.go:110-117 | a secret, then the volume of its name |
| `DownCommand.Purge` | internal/app/lifecycle_secrets.go:102-119 | on success every labelled secret and its volume is gone and nothing else; on failure only some of them |
| `DownCommand.Rest` | internal/app/lifecycle.go:388-406 | purge then stop; a passed purge leaves nothing of lclaw's |
| `DownCommand.Forget` | internal/app/lifecycle.go:432-444 | no failure means the item is gone; a missing item needs no check, a missing keychain is a failure |
| `DownCommand.ForgetAll` | internal/app/lifecycle.go:425-445 | no failure means no minted item is left and no other item was touched; every minted item that was there has its check, a passed one says it is gone |
| `DownCommand.Destroy` | internal/app/lifecycle.go:415-447 | no failure means no machine and no minted item; the report says whether the machine went and, only then, what became of each minted item |
| `DownCommand.Finish` | internal/app/lifecycle.go:381-411 | stops exactly when no listed pod is left; before that it changes nothing and the report ends with the two warnings; after it a passed purge and a passed stop are true, and the destroy is reported only after a passed stop |
| `DownCommand.FindLast` | internal/app/lifecycle.go:301-306 | the last machine of that name decides whether it runs |
| `DownCommand.LastDecides` | internal/app/lifecycle.go:301-306 | where the names differ, as in every list the world gives, that is the machine |
| `DownCommand.TakeDown` | internal/app/lifecycle.go:320-411 | on a running machine: complete report whose passed checks are true whatever faulted, purge and stop only when every listed pod was taken down, and no error but a cancellation |
| `DownCommand.RunDown` | internal/app/lifecycle.go:295-411 | every call obeys the rule of `down` and the run ends as DownEnds says, with no error but a cancellation |
| `DownCommand.Down` | internal/app/lifecycle.go:281-411 | nothing to do changes nothing and is one warning; whatever faults, every pod and network has its true check; while a listed pod was not taken down, store and machine stay as they are and are reported as kept; the machine stops iff every listed pod was taken down; a passed purge leaves no labelled secret or its volume and touches nothing else; a destroy that reports no failure, from a stopped machine or once every listed pod was taken down, leaves no machine and no minted key; an error only for a cancellation |
| `DownCommand.CleanReportMeansGone` | internal/app/lifecycle.go:320-411 | when a `down` of a running machine reports no failure, every selected pod and every selected network is gone |
| `DownCommand.ZonesReported` | internal/app/lifecycle.go:329-379 | per selected pod: a warning iff it was not listed, a pass iff it was taken down, a failure iff it is left; per network: kept with a warning while a pod of its zone is left, else a pass only if it was there and is gone |
| `DownCommand.PassedEndsAreTrue` | internal/app/lifecycle.go:381-406 | in a report without an error `secrets` passes only if the machine ran, every listed pod was taken down and lclaw's secrets are gone or the machine was to be destroyed; `machine` only if it was stopped then |
| `DownCommand.LeftPodsKeepTheRest` | internal/app/lifecycle.go:381-386 | while a listed pod was not taken down, the report ends with exactly the two warnings, and store, machine, volumes and keychain are as they were |
| `DownCommand.EndReported` | internal/app/lifecycle.go:388-411 | otherwise it ends with the purge and the stop, passed or failed, and the destroy follows iff it was asked and the stop passed |
| `DownCommand.IdleReported` | internal/app/lifecycle.go:295-318 | where no machine ran: one warning, or for a destroy whether the machine went and what became of each minted item; only a fault makes it the failed question |
| `NetworkRuns.NetworkRemovals` | internal/app/lifecycle.go:359-377 | in every run of `down`, when a network is removed no pod of its zone is left and a pod is attached iff it is bridged into the zone; done means none is, refused means one is |
| `NetworkRuns.RunKeepsPlanned` | internal/app/lifecycle.go:188-207 | no run brings up a pod that the topology does not describe if `up` works from that topology |
| `NetworkRuns.HeldUpIff` | internal/app/lifecycle.go:329-378 | with everything up, a zone's network is in use at its turn iff an earlier zone is bridged into it |
| `NetworkRuns.WholeDown` | internal/app/lifecycle.go:281-411 | a faultless full `down` stops and purges, but reports a failure iff some zone is bridged into from an earlier one, and exactly those networks stay |
| `DefaultTopology.DefaultIsWellFormed` | cmd/lclaw/scaffold/lclaw.toml:5-44 | the topology `init` writes is valid wherever its files are |
| `NetworkRuns.DefaultIsHeld` | cmd/lclaw/scaffold/lclaw.toml:27-37 | in the default topology the services and agent networks cannot be removed, infra's can |
| `NetworkRuns.DefaultDownFails` | internal/app/lifecycle.go:329-411 | with the default topology a faultless full `down` always reports a failure, with the machine at rest |
| `StatusCommand.EvaluateMachine` | internal/domain/status.go:37-53 | the first machine of that name decides; stopped still passes |
| `StatusCommand.PodRunning` | internal/domain/status.go:21-31 | all containers run and there is one |
| `StatusCommand.EvaluateNetworks` | internal/domain/status.go:57-73 | per zone, present or missing |
| `StatusCommand.EvaluateWorkloads` | internal/domain/status.go:78-106 | per workload the verdict on the last report of its name; a zone the topology lacks adds nothing; the verdicts are StatusCommand.StatusTells |
| `StatusCommand.LastReportDecides` | internal/domain/status.go:79-82 | of several reports of a name the last decides, and a pod runs iff it has a container and all of them run |
| `StatusCommand.NetworksPresent` | internal/app/doctor.go:178-191 | whether each zone's network exists, or that asking failed |
| `StatusCommand.LookInside` | internal/app/lifecycle.go:465-485 | networks then pods, only looking; when a question fails, exactly the part that was answered plus one failed check |
| `StatusCommand.Status` | internal/app/lifecycle.go:449-486 | changes nothing in any run; without a fault the report is what the world is, and with one it is that report cut short by one failed check; what it says is StatusCommand.StatusOrder and StatusTells |
| `StatusCommand.StatusPassesIff` | internal/domain/status.go:33-106 | status passes iff the machine is stopped, or running with every network and every pod up |
| `StatusCommand.StatusOrder` | internal/domain/status.go:37-106 | on a running machine: the machine, the three networks, then every workload of every zone, each once and in zone order |
| `StatusCommand.StatusTells` | internal/domain/status.go:57-106 | a workload passes iff its pod runs, fails iff the pod is there and does not run, and is a warning iff there is none; a network passes iff it is there and else is a warning |
| `StatusCommand.StatusFailsIff` | internal/domain/status.go:78-106 | status fails iff a pod of the topology is there and not running |
| `StatusCommand.UpMakesStatusPass` | internal/app/lifecycle.go:449-486 | after a clean `up` of every zone, status passes |
| `SecretsCommands.Prepare` | internal/app/secrets.go:76-90 | decodes and has no catalogue findings; the rest of the topology is not validated |
| `SecretsCommands.Push` | internal/app/secrets.go:335-356 | stored, stopped or failed, with exactly the store each of them means; no rollback |
| `SecretsCommands.Inspect` | internal/app/secrets.go:171-191 | what the store holds, or that the machine is stopped |
| `SecretsCommands.RunSet` | internal/app/secrets.go:204-217 | creates, never replaces; the errors in order |
| `SecretsCommands.Set` | internal/app/secrets.go:193-217 | the answer a faultless set gives in every situation, and what an error may have changed |
| `SecretsCommands.SetMeans` | internal/app/secrets.go:193-217 | a faultless set, answer by answer: which error when, nothing changed then, and otherwise the item with source user and, iff the machine runs, the store entry |
| `SecretsCommands.Regenerate` | internal/app/secrets.go:266-271 | a new value from the entry's own source; a mint needs the running machine with LiteLLM in it |
| `SecretsCommands.Replace` | internal/app/secrets.go:259-262 | the item replaced with its source, then pushed |
| `SecretsCommands.RunUpdate` | internal/app/secrets.go:232-263 | replaces, never creates; regenerates only rotatable entries; minting without LiteLLM is refused |
| `SecretsCommands.Update` | internal/app/secrets.go:219-263 | the answer a faultless update gives in every situation, among them that minting needs LiteLLM up, and what an error may have changed |
| `SecretsCommands.UpdateMeans` | internal/app/secrets.go:219-263 | a faultless update, answer by answer: which error when, nothing but a mint's trace then, and otherwise the value with its source in the keychain and, iff the machine runs, in the store |
| `SecretsCommands.Drop` | internal/app/secrets.go:297-307 | the store's copy goes with the item |
| `SecretsCommands.RunDelete` | internal/app/secrets.go:285-308 | item first, then the store; errors change nothing but a faulted deletion |
| `SecretsCommands.Delete` | internal/app/secrets.go:273-308 | the item is gone, the store outcome is true, and losing a value that may not be rotated is pointed out |
| `SecretsCommands.DeleteMeans` | internal/app/secrets.go:273-308 | a faultless delete, answer by answer: which error when, and otherwise the item gone, the warning iff the entry may not be rotated, and removed, absent or stopped as the store was |
| `Histories.RunKeepsItem` | internal/app/lifecycle_secrets.go:38-68 | no run of a command changes or drops a keychain value, whatever fails, unless the command may touch that name |
| `Histories.ItemsSurvive` | internal/app/lifecycle_secrets.go:38-69 | over every history a keychain value changes only through update or delete of its name, or a destroy when its source is minted |
| `Histories.SaltKeySurvives` | internal/app/secrets.go:232-240 | the salt key survives every up, down, destroy, set and `update --generate` |
| `Histories.SourcesStayKnown` | internal/app/secrets.go:231-241 | every item's recorded source is the user or its entry's default |
| `Coherence.CommandCoheres` | internal/app/secrets.go:195-308 | each command keeps store and keychain in agreement on a name unless it rewrote the item without reaching the store |
| `Coherence.StoreAgrees` | internal/app/secrets.go:332-356 | over every history each labelled store entry is the keychain's value, unless the last word on the name was such a write |
| `Coherence.UpSettles` | internal/app/lifecycle_secrets.go:79-91 | a clean `up` brings every secret its zones consume into step |
| `Coherence.CleanUpStoresAll` | internal/app/lifecycle_secrets.go:79-91 | a clean `up` of every zone brings every catalogue entry into step |
| `Freshness.DestroyedIsFresh` | internal/app/lifecycle.go:412-447 | a destroy without failure leaves no key of the machine it removed |
| `Freshness.MintedKeysFit` | internal/app/lifecycle.go:412-447 | over every history whose destroys were clean, a minted key in the keychain was issued by the machine that exists |
| `Freshness.LateDestroyForgetsNothing` | internal/app/lifecycle.go:307-310 | a destroy that finds no machine changes nothing |
| `Freshness.FreshAfterDownIff` | internal/app/lifecycle.go:412-447 | after any run of `down` from fitting keys, the keys fit iff the machine is still there or no minted item is left |
| `Freshness.FaultlessDestroyIff` | internal/app/lifecycle.go:412-447 | a faultless, uncancelled destroy of a machine running nothing else removes it, and leaves no minted item behind iff the keychain file is there or held none |
| `Freshness.FreshThroughoutIff` | internal/app/lifecycle.go:412-447 | over every history, minted keys fit the machine at every point iff each `down` that left no machine left no minted item |
| `Freshness.LeftBehindIsStale` | internal/app/lifecycle.go:434-443 | whenever a `down` leaves a minted item but no machine, that key belongs to no machine that can ever exist again |
| `Freshness.FailedForgettingLeavesKey` | internal/app/lifecycle.go:434-443 | from every stopped machine with a minted key some run the rule and the contract of destroy admit, ending without an error, leaves the key behind with the machine gone |
| `Freshness.StaleIsNotFresh` | internal/app/lifecycle.go:412-414 | such a key was not issued by a machine that exists |
| `Freshness.StaleKeyStays` | internal/app/lifecycle_secrets.go:38-50 | and no number of ups, downs and late destroys replaces it |
| `Isolation.InternalZonesStayClosed` | internal/app/lifecycle.go:143-207 | over every history, pods of internal zones are on their own internal network only, in their own user namespace |
| `Isolation.PodsStayPlanned` | internal/app/lifecycle.go:188-207 | over every history in which `up` works from one topology, every pod is one of the topology's workloads, on its networks and in its user namespace, so none is a stranger to it |
| `Isolation.NamespacesFollowTheZones` | internal/app/lifecycle.go:203-207 | over every history in which `up` works from one topology, pods of internal zones have a user namespace of their own (auto) and all others share the host's (empty) |
| `Isolation.GoalPods` | internal/app/lifecycle.go:188-219 | where the goal of `up` is reached, each selected workload's pod runs, on its own network first and else exactly on those it is bridged into, with user namespace auto iff its zone is internal and else none |
| `Redaction.FragmentSet` | internal/adapters/exec/redact.go:42-51 | exactly the windows of the secret |
| `Redaction.Carries` | internal/adapters/exec/redact.go:56-66 | true iff the line holds a fragment of the secret |
| `Redaction.FilterInPlace` | internal/adapters/exec/redact.go:29-36 | the front of the same array becomes exactly the lines without a fragment, in order |
| `Redaction.Redact` | internal/adapters/exec/redact.go:24-38 | other errors, empty secrets and empty texts pass through; the code is kept; the rest is the kept lines without the white space around them |
| `Redaction.KeptLines` | internal/adapters/exec/redact.go:12-23 | before the trim, the result's lines are exactly the innocent ones, and an innocent text is unchanged |
| `Redaction.RedactedIsTrimmed` | internal/adapters/exec/redact.go:37-38 | the result is the kept lines less white space at the ends, and neither begins nor ends with a white space character |
| `Redaction.NothingLeaks` | internal/adapters/exec/redact.go:12-23 | for a secret on one line no fragment of it occurs anywhere in the result, line breaks and trim included |
| `Redaction.BrokenSecretLeaks` | internal/adapters/exec/redact.go:29-38 | for every secret with a line break some error text lets a fragment through |
| `Redaction.RedactsIff` | internal/adapters/exec/redact.go:12-23 | redaction is safe for a secret iff it has no line break |
| `Redaction.WrappedPieces` | internal/adapters/exec/redact.go:15-22 | of a secret broken across lines, in whatever way, exactly the pieces shorter than what counts as a leak are kept |
| `Redaction.WrappedLeaksIff` | internal/adapters/exec/redact.go:15-22 | a one-line secret wrapped at a width leaks when its kept lines are put together iff the width is below 16 bytes or, for a shorter secret, its length; then it comes through whole |
| `Files.Disk.Fill` | internal/adapters/osfs/system.go:72-82 | only the temporary file changes; it succeeds iff no operation fails, and then the file is complete with the usual mode |
| `Files.Disk.Install` | internal/adapters/osfs/system.go:59-69 | complete target, or target untouched and the temporary file gone unless that fails |
| `Files.Disk.WriteFile` | internal/adapters/osfs/system.go:30-70 | in every state the disk passes through the target is as before or complete and nothing else is lost; errors leave it as before; when no operation fails, a directory is refused, a file kept unless overwritten, and anything else written iff no file stands on the way |
| `Scaffolding.PlaceFiles` | internal/app/init.go:67-95 | the outcome of every default in walk order, and what each outcome means on disk; when no operation fails each outcome is the one the first state calls for |
| `Scaffolding.KeychainStep` | internal/app/init.go:103-134 | an existing keychain is never created over; created means new and empty; when nothing fails it is skipped iff there, and failed iff the topology cannot be read |
| `Scaffolding.Init` | internal/app/init.go:61-102 | files then keychain; where every default exists an unforced run writes nothing; when no operation fails files and keychain end as the first state calls for |
| `Scaffolding.ReportPartitions` | internal/app/init.go:21-30 | written, skipped and failed split the defaults reached, none lost or listed twice |
| `Scaffolding.CompleteRunIsEnough` | internal/app/init.go:61-66 | after a complete run without failures every default is there as a file |
| `Scaffolding.SkipsWhatIsThere` | internal/app/init.go:39-88 | where every default is a file, an unforced run without a failed operation skips all of them in walk order and writes and fails none |
| `Scaffolding.SecondRunSkips` | internal/app/init.go:39-88 | so it is after any complete run without failures |
| `Scaffolding.WritesWhatIsFree` | internal/app/init.go:61-95 | where nothing is in the way, a run without a failed operation writes every default in walk order |
| `Scaffolding.UnforcedNeverClobbers` | internal/app/init.go:61-66 | over any number of unforced runs no file that was there changes |
| `KeychainParsing.ParsePassword` | internal/adapters/keychain/parse.go:19-47 | the scanning loop reads the first password line as the line grammar says |
| `KeychainParsing.HexRoundTrip` | internal/adapters/keychain/parse.go:26-35 | both cases of hexadecimal digits decode to the bytes they encode |
| `KeychainParsing.QuotedIsRead` | internal/adapters/keychain/parse.go:36-41 | a quoted value ends at the last quote, so quotes inside it survive |
| `KeychainParsing.FirstMatchDecides` | internal/adapters/keychain/parse.go:20-24 | lines without the prefix do not matter |
| `KeychainParsing.PasswordRoundTrip` | internal/adapters/keychain/parse.go:14-47 | for every value, what the tool prints reads back as the same bytes, among any other lines |
| `KeychainParsing.RestIsRefused` | internal/adapters/keychain/parse.go:26-46 | after 0x anything but pairs of hexadecimal digits up to a space is refused, an opening quote needs another one, and any other rest is an empty value |

## Left out

- Doctor, the CLI, renderers, JSON shapes, progress lines and exit codes: presentation, or short branches.
- `secrets list`, `describe` and `get`: they only look, so every theorem about changes holds for them trivially.
- Construction of Podman, Flox, LiteLLM and `security` command lines, process execution, TOML and JSON decoding: foreign calls. Decoding is a parameter; the ports are the world's rules.
- Summaries, hints and error texts: a check keeps what it is about and its verdict, an error its kind.
- `stripPassword`, `parseAttributes` and `parseTime` of the keychain adapter: line filters of the same shape as the redactor, and a date format.
- Other processes changing the machine or the keychain between calls: the world changes only through the ports.
- A change of the keychain path during a history: one keychain file per history.
- A pod named differently from its workload: the pod file's metadata name is taken to be the workload's name, as the program itself assumes.
- A lifecycle without a minter (a nil field): the program always sets one.
- Interrupted calls other than a play: such a call has its whole effect or none, so a machine half created or a secret half stored is not modelled.
- Hosts.Host.Generate: returns any valid value; randomness and the encodings of the generators are not modelled.
- Hosts.Host.Ready: whether LiteLLM serves is whether the pod of the workload `litellm` runs, the container the minter names; the polling and its time limit are a fault.
- Hosts.Host.Mint: returns a value of valid length; the program does not check it and the keychain's own refusal of an over-long value is modelled at the put.
- Hosts.Host.RemoveNetwork: only pods known to lclaw can hold a network; containers started by hand are not modelled.
- Ups.EnsureMachine: the machine's size, volumes and playbook are not part of the world's state.
- Ups.EnsureNetwork: a network that already exists is accepted whatever its internal flag, as in the code; Isolation.InternalZonesStayClosed assumes networks of the right kind at the start.
- Files.Disk.WriteFile: symbolic links and permissions are not modelled; no free temporary name counts as a failed operation.
- Scaffolding.Init: the walk is the given sequence of defaults in order; directories are not entries.
