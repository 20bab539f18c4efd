# A 6in4 tunnel daemon, modelled and verified

The daemon keeps an IPv6-over-IPv4 tunnel running on a home gateway. It turns a configuration
document into `ip`, `sysctl` and `iptables` commands, watches the result, repairs it, advertises
the LAN prefixes, and stores its configuration and its observed state in two files. This project
models that control plane together with the part of the kernel it manages, and proves what it
promises over whole runs: everything it installed stays accounted for, failed updates are undone,
a ready status is never an overstatement, and once commands stop failing two turns of the health
loop repair any damage.

## How the model is built

- `Kernel` is the managed part of the kernel as a value: addresses per device (usable or not),
  the tunnel device, host routes, the IPv6 default route, the firewall chains and jumps. A command
  takes effect as a whole or has none. Which commands fail although the kernel would accept them is
  decided by an arbitrary oracle, consulted once per instant. `Calm` means that from now on the oracle
  lets no command fail; a theorem that does not ask for it holds whatever fails. The world also remembers
  which LAN addresses and endpoint routes the daemon itself put there. Runs of the service are sequences of
  events (`RunLaws.Event`): locked sections in any order, other people's changes to the kernel, restarts,
  and the daemon dying at any instant in the middle of a section. Death is modelled by an oracle that lets
  nothing work from that instant on, so that kernel and files stay as death found them
  (`DeathLaws.DeadSection`, `DeathLaws.CutIsPrefix`).
- `Config`, `Storage`, `Backend`, `Advertising` and `Daemon` say as functions what the program
  computes and what one command sequence or one locked section of the service does. `Migration` says
  it for document and file alone, over runs of client requests.
- `Records`, `Machine`, `StateDocument` and `Service` are the program in its own form: objects whose
  methods update fields, arrays and the world step by step, with the program's loops. Each method is
  proved equal to its function above, so every theorem about the functions is one about the methods.
  They call a function of the specification where the program does one straight computation without loops
  or state: parsing and encoding a file (JSON), filling in the defaults of one profile, the flat checks of
  validation, the arithmetic of addresses.
  Configs and documents are handed in and out as objects; the lists of a config and the profile list of
  a document are arrays that are never shared. The backend reads a device's addresses with the line
  parsers of `Listing`, from whatever text the kernel prints for them (`Listing.Console`).
- The `...Laws` files, `Convergence`, `Feasibility`, `Lenses`, `RoundTrips`, `Listing`, `LogTail`,
  `AtomicWrite` and `Limits` hold the theorems. `Scenarios` and `LeakRuns` follow concrete runs command by
  command: they are the inputs on which a promise fails.

Conventions. A text field that holds a prefix or an address is modelled by what the parser makes of
it: blank, a value, a value with white space around it, or text that does not parse; printing is an
injective function whose result has no white space (`Listing.Undoes`). JSON is the object it decodes
to, absent fields being optional. The disk writes and the start of the advertiser consult the same
oracle as commands. Kernel behaviour that the program relies on but does not state is part of `Kernel`:
an address needs a device that exists and speaks IPv6 and is refused if it is already there; switching
`disable_ipv6` on removes all addresses of a device; a route source has to be an assigned, usable
address; a chain with rules or a jump to it cannot be deleted; a tunnel device needs a TTL from 1 to
255 and an MTU from 1280 to 65555; with duplicate address detection off an added address is usable at
once. The MTU of a WAN device and its first IPv4 address are inputs.

## What turned out to be false, and when it holds

- A firewall chain with exactly its rules: the firewall commands are best-effort, so a reconcile can
  report success and leave a chain incomplete. It is exact if and only if the chain exists and what
  creating and flushing left in it, followed by the rules whose own append worked, makes up its rules;
  where it was emptied, exactly if every append worked (`ChainLaws.RulesExactIff`). In the run
  `Scenarios.NoDropRule` one command fails and the forward chain lacks its drop rule. After a disabled
  reconcile a chain is gone exactly as `ChainLaws.ChainGoneIff` says.
- One jump per chain: a reconcile that starts with one jump can end with two, exactly if the deletion and
  the later check for the same jump both fail and the insertion works (`JumpLaws.SecondJumpIff`).
  `Scenarios.TwoJumps` is a reconcile that reports success and does so. Over whole runs, whatever fails, a
  second jump comes only from a reconcile that meets this condition (`JumpRuns.PlayKeepsOneJump`); if nothing
  fails without reason there is never one, even if the daemon dies in the middle of things
  (`JumpRuns.UndisturbedRunKeepsOneJump`).
- Nothing leaks. An item the daemon installed is lost when it is in the kernel and the state does not
  record it. With the config file in sync and the config valid, only an update can lose something: no
  reconcile, health check, repair or restart does, nor death in the middle of one
  (`DeathLaws.OnlyUpdatesLose`). An update can in three ways. It takes effect, but a deletion fails
  (`RunLaws.StuckExactly`, `Limits.SwitchingOffMayLeak`). It is rolled back, which tears down what the old
  state recorded and not what the failed config had installed (`LeakLaws.WorkingRollbackLoses`; all of it
  stays if the old config wants no tunnel, `LeakLaws.RollbackToOffLeaks`, the run `LeakRuns.FailedUpLeaks`).
  Or the daemon dies in the middle of it, and the state file knows nothing of what was installed: the run
  `LeakRuns.DeadUpLeaks`, in which nothing has failed before, and the run `LeakRuns.KilledUpLeaks`, in which
  the state could not be saved. On a run on which no update is rolled back or cut off, what is lost is exactly
  what could not be deleted (`SyncLaws.OnlyStuckIsLost`). Item by item and whatever fails,
  `LeakLaws.ReconcileLosesExactly`, `LeakLaws.RollbackLosesExactly`, `LeakLaws.FailedUpdateLeaves`,
  `LeakLaws.RestartLosesExactly` and `DeathLaws.DeathLosesExactly` say exactly what is lost.
- A successful repair makes every managed address usable. A repair does not switch duplicate detection off,
  so on a device that does it, a bridge that was created anew, the gateway it adds may be unusable. It heals
  if each gateway is usable already or its device does no detection (`RepairLaws.RepairHeals`), and where
  detection takes its time only then (`RepairLaws.RepairHealsIff`, the run `Scenarios.RepairHealsNot`). A
  successful reconcile switches detection off on all its LAN devices (`DetectionLaws.ReconcileSwitchesOff`).
- A device whose IPv6 reset stopped half-way stays without IPv6 for good (`Limits.NeverHeals`).
- Duplicate prefixes and several networks on one device are fine, a LAN network on the tunnel device is
  not: making the device ready may wipe the tunnel's own address (`Limits.ReadyingWipes`), and the
  reconcile still reports success (the run `Scenarios.TunnelAddressWiped`). The theorems therefore say
  `LANOffTunnel`; without it, `TunnelLaws.AllHealthyIff` says exactly when a reconcile that reports success
  has made every managed address usable. That depends on the link-local addresses the kernel gives the
  tunnel device while the reconcile runs, so it cannot be read off before the call.
- A valid config can be unusable because its tunnel address is padded with white space: validation trims
  it, the consumers do not (`Limits.PaddedIsValid`, `Limits.PaddedNeverWorks`).
- With LAN disabled the route source may be a gateway that nobody assigned
  (`Limits.DisabledLANSuppliesSource`); `Feasibility.EstablishSucceedsIff` has the exact condition.
- The backward tail is exact if and only if the chunks it read hold enough lines after the trailing
  newlines are dropped; with at most one trailing newline it always is (`LogTail.TailExactness`,
  `LogTail.TailMissesTextBeforeBlankLines`).
- The gateway of a host route lies outside it, and the last address of a family has none
  (`Addresses.GatewayInsideIff`, `Addresses.GatewayMissingIff`).
- Writing back an effective config changes the document unless its defaults were already filled in
  (`Lenses.GetPutIff`).

## Model

| member | source | states |
|---|---|---|
| Kernel.ExecKeeps | internal/control/backend.go:470-480 | Every command, whether it works, is refused or fails, keeps the kernel consistent, leaves the WAN's addresses and the devices alone, and adds to what the daemon owns at most what the command creates. |
| Kernel.BestEffortKeeps | internal/control/backend.go:478-480 | The same over any sequence of commands whose failures are swallowed. |
| AddressLaws.EnsureAddressEnsures | internal/control/backend.go:248-264 | Ensuring an address never touches a usable one and nothing else in the kernel; success means it is there, and usable wherever duplicate detection is off; whatever fails half-way is confined to that one address. |
| AddressLaws.EnsureAddressSucceedsIff | internal/control/backend.go:248-264 | Nothing failing without reason, it succeeds if and only if the text parses, the device is there, and the address is already usable or is IPv6 on a device that speaks IPv6. |
| AddressLaws.ReadyInterfaceReadies | internal/control/backend.go:200-222 | Making a LAN device ready changes only that device; it keeps every address unless a link-local address was broken; success means duplicate detection is off and IPv6 as it was. |
| AddressLaws.ReadyInterfaceSucceedsIff | internal/control/backend.go:200-222 | Nothing failing without reason, it succeeds if and only if the device is there. |
| LanLaws.ReadyNetworksEstablish | internal/control/backend.go:138-155 | If the LAN loop succeeds every gateway is usable at its end, for several networks on one device and for duplicates: the reset of a device never wipes a gateway the loop has added before, because a device already handled is not reset again. |
| LanLaws.ReadyNetworksFrame | internal/control/backend.go:138-155 | Whether it succeeds or fails, the loop changes only addresses of the networks' devices and comes to own at most their gateways. |
| LanLaws.ReadyNetworksSucceedIff | internal/control/backend.go:138-155 | Nothing failing without reason, it succeeds if and only if every network has a gateway and a device that is there and speaks IPv6. |
| LinkLaws.BringUpLinkEstablishes | internal/control/backend.go:119-131 | If the link commands succeed, the tunnel device is up with the configured endpoints, TTL and MTU and the endpoint route goes out through the WAN; nothing failing without reason this is so exactly if the WAN device is there, no tunnel device is, and TTL and MTU are in range. |
| LinkLaws.BringUpLinkFrame | internal/control/backend.go:119-131 | Also when they fail half-way, they touch nothing but the tunnel device with its own addresses and the one endpoint route. |
| TeardownLaws.TeardownDeletesFootprint | internal/control/backend.go:312-334 | Teardown issues a deletion for an item if and only if the item lies in the recorded footprint. |
| TeardownLaws.TeardownLeaves | internal/control/backend.go:312-334 | What a teardown leaves of what the daemon owned: everything outside the recorded footprint, and inside it exactly the items all of whose deletions failed. |
| TeardownLaws.TeardownReduces | internal/control/backend.go:312-334 | Teardown only ever takes things away; no address or route it leaves is changed. |
| TeardownLaws.TeardownRemovesTunnel | internal/control/backend.go:332-334 | Nothing failing without reason, no tunnel device is left. |
| TeardownLaws.SurvivesIff | internal/control/backend.go:478-480 | An owned item survives any best-effort sequence of removals exactly if each command that deletes it fails at its own instant. |
| ReconcileLaws.ReconcileOwns | internal/control/backend.go:102-181 | After a reconcile, whatever failed in it, everything the daemon owns belongs to the footprint of a valid and enabled config or was left by the teardown. |
| ReconcileLaws.ItemsAreFootprint | internal/control/state.go:92-107 | The items an establishing reconcile can install are exactly the footprint that is recorded for its config. |
| ReconcileLaws.BringUpRouteFrame | internal/control/backend.go:156-162 | Setting the default route changes nothing else; it works only with a source address that is assigned. |
| ReconcileLaws.ResolveMTUReads | internal/control/backend.go:183-198 | A configured MTU is taken as it is, otherwise it is the WAN's less 20 and at least 1280, or an error; reading it changes nothing. |
| ReconcileLaws.ReconcileOnward | internal/control/backend.go:114-118 | A reconcile writes to the config it was given nothing but the MTU. |
| Convergence.ReconcileConverges | internal/control/backend.go:102-181 | Convergence: from any kernel state and any recorded footprint, if the reconcile of a valid enabled config succeeds then the tunnel is up as configured, every managed address is usable, forwarding is on, the default route uses the chosen source, and the MTU is the resolved one. No command is assumed to work. |
| Convergence.SourceIsFirstPreferred | internal/control/backend.go:525-550 | The route source is the first preferred address, that is global and not unique local, among the tunnel's own address and the gateways in order; there is none if and only if all parse and none is preferred. |
| Convergence.SourceIsManaged | internal/control/backend.go:525-550 | With LAN enabled the chosen source is one of the addresses the same reconcile made usable before it set the route. |
| Feasibility.EstablishSucceedsIff | internal/control/backend.go:109-181 | Feasibility: nothing failing without reason, bringing everything up succeeds if and only if the WAN device is there with an IPv4 address, TTL and MTU are in range, the tunnel address parses as IPv6, and every network can be served, or with LAN disabled the route source is at hand. |
| Feasibility.ReconcileSucceedsIff | internal/control/backend.go:102-181 | The same for a whole reconcile from any kernel state: it depends only on the kernel the teardown leaves. |
| Feasibility.LanReconcileSucceedsIff | internal/control/backend.go:102-181 | With LAN enabled it depends on the devices alone, not on anything that was installed before. |
| RepairLaws.RepairFrames | internal/control/backend.go:226-264 | Whether it succeeds or fails, a repair leaves the tunnel device, routes, switches and firewall alone, changes no address but managed ones, and none that was usable. |
| RepairLaws.RepairRestores | internal/control/backend.go:226-264 | A successful repair leaves every managed address in place, the tunnel's usable and a gateway usable unless its device still does duplicate detection. |
| RepairLaws.RepairHeals | internal/control/backend.go:226-264 | A successful repair makes every managed address usable if, with LAN enabled, each gateway is usable already or its device does no duplicate detection. |
| RepairLaws.RepairHealsIff | internal/control/backend.go:226-264 | Where duplicate detection leaves new addresses unusable for now, the condition is exact: if and only if. |
| DetectionLaws.ReadyNetworksSwitchOff | internal/control/backend.go:138-155 | If the LAN loop succeeds, duplicate detection is off on every device of its networks. |
| DetectionLaws.ReconcileSwitchesOff | internal/control/backend.go:102-181 | A successful reconcile with LAN enabled leaves duplicate detection off on every LAN device. |
| DetectionLaws.RepairHealsAfterReconcile | internal/control/backend.go:226-264 | Whatever became of the addresses since a successful reconcile, a successful repair makes all of them usable, if the devices are still switched as it left them. |
| Scenarios.RepairHealsNot | internal/control/backend.go:226-264 | A concrete repair in which nothing fails, which reports success, and after which the gateway on a recreated bridge is unusable. |
| RepairLaws.RepairSucceedsIff | internal/control/backend.go:226-264 | Nothing failing without reason, a repair succeeds if and only if the tunnel device is there with IPv6 on and every managed address can be put in place. |
| RepairLaws.RepairOwns | internal/control/backend.go:226-264 | A repair installs only items of the config's footprint. |
| ObserveLaws.ObserveExact | internal/control/backend.go:267-284 | An observation changes nothing; without error it lists exactly the managed addresses that are not usable and tells of each whether it is there; it sees the tunnel exactly if it is there; nothing failing without reason it errs only if an address text or a device is missing. |
| ObserveLaws.ObserveVerdict | internal/control/backend.go:386-425 | An observation without error reports nothing missing if and only if every managed address is usable. |
| ObserveLaws.HealthyIsObserved | internal/control/backend.go:267-284 | When everything is usable, an undisturbed observation says so and sees the tunnel up. |
| ObserveLaws.MissingNetworksExact | internal/control/backend.go:399-409 | The loop over the networks appends exactly the gateways that are not usable. |
| JumpLaws.FirewallExact | internal/control/backend.go:163-180 | Starting from at most one jump per parent chain and nothing failing without reason: an established reconcile leaves each managed chain with exactly its rules and one jump whatever it held, any other reconcile leaves no managed chain and no jump. With failures the rules are characterised by ChainLaws.RulesExactIff and the jumps by SecondJumpIff; over runs by JumpRuns.CalmRunExact. |
| JumpLaws.FirewallIdempotentIff | internal/control/backend.go:163-180 | Of two successful reconciles in which nothing fails without reason the second leaves the firewall as it is, if and only if no parent chain had more than two jumps to a managed chain before the first. |
| JumpLaws.ReconcileFirewall | internal/control/backend.go:312-321 | The whole firewall after a reconcile in which nothing fails, from any earlier firewall. |
| JumpLaws.SecondJumpIff | internal/control/backend.go:482-502 | With arbitrary failures, a reconcile that starts with at most one jump to a chain ends with two exactly if there was one, the command to remove it failed, the check for it failed too and the insertion worked. |
| JumpRuns.LockedDoublesIff | internal/control/service.go:357-477 | A reconcile section that starts with at most one jump to a chain, wanted or not, successful or not, ends with more if and only if the condition for a second jump is met. |
| JumpRuns.HappensKeepsOne | internal/control/service.go:28-40 | An event -- update with its rollback, repair, write-back, restart, death in the middle of one -- raises a chain from at most one jump to two only by a reconcile in it that meets that condition. |
| JumpRuns.PlayKeepsOneJump | internal/control/service.go:28-40 | Over every run, whatever fails: a chain that starts with at most one jump has at most one at the end, unless a reconcile on the way met that condition. |
| JumpRuns.UndisturbedRunKeepsOneJump | internal/control/service.go:28-40 | Over every run on which nothing fails without reason, the daemon dying in the middle of sections included, no chain ever gets a second jump. |
| JumpRuns.CalmRunExact | internal/control/backend.go:163-180 | After every run of a calm world the next reconcile leaves each managed chain with exactly its rules and one jump, or no chain and no jump. |
| JumpLaws.NoJumpAdded | internal/control/backend.go:312-321 | A reconcile that fails or has nothing to establish never adds a jump. |
| TunnelLaws.AllHealthyIff | internal/control/backend.go:132-155 | With LAN networks wherever they may be: after a successful reconcile with LAN enabled every managed address is usable if and only if no network is on the tunnel device, or that device had no broken link-local address when LAN's turn came, or its own address is also the gateway of such a network. |
| TunnelLaws.LoopLeavesIff | internal/control/backend.go:138-155 | The LAN loop leaves a usable address usable if and only if it does not reset the address's device or puts it back as a gateway. |
| ChainLaws.TeardownView | internal/control/backend.go:312-321 | Each chain and its jumps after a teardown, whatever fails in it: one jump less unless that deletion fails, flushed unless that fails, gone exactly if it is then empty and not jumped to and its deletion works. |
| ChainLaws.ChainGoneIff | internal/control/backend.go:312-321 | After a disabled or invalid reconcile a chain is gone if and only if it was not there, or its deletion worked on a chain with at most one jump, removed, and without rules, flushed or empty before. |
| ChainLaws.ReconciledContent | internal/control/backend.go:163-180 | The content of each chain after a reconcile that reports success, as a function of what the teardown left and of the fate of each of its commands. |
| ChainLaws.RulesExactIff | internal/control/backend.go:163-180 | For arbitrary failures: after a reconcile that reports success a chain holds exactly its rules if and only if it exists and what creating and flushing left in it, followed by the rules whose append worked, makes them up; where it was emptied, exactly if every append worked. |
| ChainLaws.WorkedAllIff | internal/control/backend.go:163-180 | All rules are appended if and only if each append works at its own instant. |
| Scenarios.TwoJumps | internal/control/backend.go:482-502 | A concrete reconcile with a WAN device and a valid config that reports success and ends with two jumps to the input chain; two commands fail. |
| Scenarios.NoDropRule | internal/control/backend.go:169-174 | A concrete reconcile that reports success and leaves the forward chain without its drop rule; one command fails. |
| Scenarios.ServiceRun | internal/control/backend.go:109-162 | From a bare host, with no command failing, everything but the firewall is in place after exactly ten commands. |
| Scenarios.TunnelAddressWiped | internal/control/backend.go:138-155 | A concrete reconcile in which no command fails, which reports success, and which ends without the tunnel's own address, because a LAN network is on the tunnel device. |
| JumpLaws.EnsureJumpExact | internal/control/backend.go:482-487 | A jump is added exactly when the check does not find one, because there is none or because the check fails, and the insertion works. |
| JumpLaws.TeardownJumps | internal/control/backend.go:489-502 | A teardown removes one jump to each chain unless that one command fails. |
| FirewallLaws.CalmInstallChain | internal/control/backend.go:164-180 | Installing a chain gives it exactly its rules whatever it held, and one jump unless it had one or more. |
| FirewallLaws.RebuiltFirewall | internal/control/backend.go:164-180 | Torn down and installed again, each chain has exactly its rules, and of several stale jumps one is gone. |
| FirewallLaws.FirewallUpOnlyFirewall | internal/control/backend.go:163-180 | Installing the firewall changes nothing else, whatever fails. |
| Limits.ResetMayStopHalfway | internal/control/backend.go:211-221 | If only the second half of the IPv6 reset fails, the device is left with IPv6 off. |
| Limits.OffStaysOff | internal/control/backend.go:102-181 | A reconcile never turns IPv6 back on where it found it off. |
| Limits.NeverHeals | internal/control/backend.go:139-146 | A LAN device left with IPv6 off makes every later reconcile fail, however often it is tried and although nothing else fails any more. |
| Limits.ReadyingWipes | internal/control/backend.go:208-221 | Making a device with a broken link-local address ready wipes every other address of it: why no LAN network may be put on the tunnel device; Scenarios.TunnelAddressWiped is a whole reconcile that does so. |
| Limits.DisabledLANSuppliesSource | internal/control/backend.go:536-548 | With LAN disabled and a tunnel address that is not preferred, the first gateway still becomes the route source, and the config works only if someone else assigned it. |
| Limits.PaddedIsValid | internal/config/config.go:916-922 | A concrete config with a padded tunnel address passes validation. |
| Limits.PaddedNeverWorks | internal/control/backend.go:435-439 | A valid enabled config can work only if its tunnel address is written without padding. |
| Limits.SwitchingOffMayLeak | internal/control/backend.go:312-334 | If the deletions fail, switching off reports no error and leaves everything behind. |
| Listing.FindIPv6PrefixState | internal/control/backend.go:447-468 | The line scanner returns the state told by the first line that shows the prefix. |
| Listing.HasProblematicLinkLocal | internal/control/backend.go:364-384 | It finds a broken link-local address if and only if some line shows one. |
| Listing.FlagsAreBad | internal/control/backend.go:461-465 | The flag loop answers whether `dadfailed` or `tentative` is among the flags. |
| Listing.ParserFindsEntry | internal/control/backend.go:447-468 | On any printed list of addresses with flags, interleaved with any other lines, the parser returns the state of the first entry for the prefix. |
| Listing.ParserSeesBroken | internal/control/backend.go:364-384 | On any such listing the link-local check is true if and only if a link-local entry is flagged. |
| Listing.ParserReadsKernel | internal/control/backend.go:435-468 | On a listing that shows a device's addresses, both parsers agree with the address table of the kernel model. |
| Listing.OutputTells | internal/control/backend.go:435-468 | On any console, whatever its prefix syntax and the order and the other lines of its listings, the parsed output gives the state the kernel holds. |
| Listing.PrintedEntry | internal/control/backend.go:449-460 | Every printed address line reads back as what was printed, whatever its indentation. |
| Addresses.GatewayInsideIff | internal/control/backend.go:504-511 | The gateway lies inside its prefix if and only if the prefix leaves a host bit, and is never the network address. |
| Addresses.GatewayMissingIff | internal/control/backend.go:504-511 | There is no gateway for exactly one prefix of a family, the host route to the last address. |
| Addresses.GatewayIdempotent | internal/control/backend.go:504-511 | Taking the gateway of a gateway changes nothing. |
| Addresses.GatewaySameIff | internal/control/backend.go:504-511 | Two prefixes of one length have the same gateway if and only if they are the same network. |
| ConfigLaws.ValidConfigIff | internal/config/config.go:785-869 | A config validates if and only if server, broker, TTL, MTU, health and LAN settings, and with the tunnel enabled endpoint and address, are each good, said without listing failures. |
| ConfigLaws.ProfileReasonsEmptyIff | internal/config/config.go:806-869 | The same for the settings of one profile. |
| ConfigLaws.ConfigReasonsDistinct | internal/config/config.go:785-869 | Validation never lists a failure twice. |
| ConfigLaws.ReasonsIgnoreDefaults | internal/config/config.go:592-615 | Filling in defaults first, or the enabled flag stored in a profile, never changes the verdict. |
| ConfigLaws.ValidDocumentIff | internal/config/config.go:486-541 | A document validates if and only if ids and names are non-blank and unique, the active profile exists and its effective config validates. |
| ConfigLaws.DraftsDontMatter | internal/config/config.go:617-627 | Rewriting an inactive profile, however badly, never changes the verdict on the document. |
| ConfigLaws.FirstIsLast | internal/config/config.go:472-483 | With unique ids the last-match scan of validation and the first-match scan of ActiveProfile find the same profile. |
| ConfigLaws.AllNamingReasonsEmptyIff | internal/config/config.go:508-526 | The naming checks pass if and only if ids and names are non-blank and pairwise different. |
| ConfigLaws.ActiveConfigOfChecked | internal/config/config.go:452-469 | Validating a document, which fills in defaults, does not change the effective config it stands for. |
| Lenses.PutFrame | internal/config/config.go:763-783 | Writing an effective config changes the shared fields and the active profile's settings; other profiles, order, ids, names and format stay; it fails exactly if the active profile does not exist. |
| Lenses.PutGet | internal/control/service.go:130-143 | Reading after writing gives back what was written, up to defaults. |
| Lenses.GetPutIff | internal/control/service.go:130-143 | Writing back what was read changes nothing if and only if defaults were already filled in. |
| Lenses.PutPut | internal/control/service.go:130-143 | The last write wins. |
| Storage.SaveSucceedsIff | internal/config/config.go:278-302 | A document can be saved if and only if it validates, in either format. |
| Storage.LegacyConfigRoundTrip | internal/config/config.go:640-650 | Decoding an encoded legacy config gives it back up to defaults, and it is recognised as legacy. |
| RoundTrips.ParseAfterSave | internal/config/config.go:206-217 | Whatever SaveDocument writes, in either format, is read back as the document itself up to defaults. |
| RoundTrips.CanonicalIdempotent | internal/config/config.go:278-302 | Saving and loading a second time changes nothing more. |
| RoundTrips.LoadedIsCanonical | internal/config/config.go:652-697 | Every loaded document already has the form that saving and loading would give it. |
| RoundTrips.LegacyUpdateFrame | internal/config/config.go:699-729 | A legacy PUT leaves every inactive profile, order, ids, names and the format as they were, keeps an omitted port or enabled flag, and makes the effective config the one that was sent. |
| Migration.AlwaysInSync | internal/control/service.go:146-173 | Over every run of requests and daemon restarts, whatever fails, loading the stored file gives exactly the document in memory. SyncLaws.PlayInSync says it for interleaved sections. |
| Migration.MigrationIsOneWay | internal/config/config.go:250-255 | A store in the profiles format never returns to the legacy one, and only a PUT in the profiles format leaves it. |
| Migration.FormatOnDisk | internal/config/config.go:629-637 | On every run a legacy document is the single default profile, so it is always saved as legacy, and the file has the document's format. |
| Migration.ValidStaysValid | internal/control/service.go:157-165 | A valid document in memory stays valid on every run of requests. SyncLaws.PlayStaysValid says it for interleaved sections. |
| Migration.FreshStoreInSync | internal/control/service.go:704-721 | The store of a first start is in sync. |
| Records.ConfigRecord.ApplyDefaults | internal/config/config.go:543-572 | In place: the config becomes itself with defaults filled in, no other field touched. |
| Records.ConfigRecord.Clone | internal/config/config.go:305-313 | A deep copy: the object and the storage of both lists are new, the content is the same. |
| Records.ConfigRecord.Validate | internal/config/config.go:347-363 | Lists exactly the config's failures in order and leaves it alone. |
| Records.ValidateProfileConfig | internal/config/config.go:806-869 | The validation loops list exactly the failures of the specification, in order, without touching the caller's settings. |
| Records.DocumentRecord.Clone | internal/config/config.go:316-341 | A deep copy: object and profile array are new. |
| Records.DocumentRecord.ApplyDefaults | internal/config/config.go:574-590 | In place over the profile array: document and every profile with defaults filled in. |
| Records.DocumentRecord.RefreshProfileValidation | internal/config/config.go:617-627 | In place: every profile judged by its own settings, the active one by the document's enabled flag. |
| Records.DocumentRecord.ValidationReasons | internal/config/config.go:495-541 | Leaves the document with defaults and judgements up to date and returns exactly its failures; the two maps of ids and names seen and the last-match index are proved against first and last occurrences. |
| Records.DocumentRecord.CollectReasons | internal/config/config.go:500-541 | The scan with its two maps returns exactly the failures of a checked document. |
| Records.DocumentRecord.ActiveProfile | internal/config/config.go:472-483 | The first profile with the active id. |
| Records.DocumentRecord.ActiveConfig | internal/config/config.go:452-469 | A new object holding the effective config of the active profile, with lists of its own. |
| Records.DocumentRecord.ReplaceActive | internal/control/service.go:676-696 | In place: the first profile with the active id gets the settings with the flag cleared, or nothing changes. |
| Machine.CommandRunner.CombinedOutput | internal/control/backend.go:74-84 | One command run on the kernel: the new world and the success flag are those of the kernel model, and what is printed for a device's IPv6 addresses is the console's listing of them. |
| Machine.SystemBackend.Run | internal/control/backend.go:470-476 | A command whose failure is an error. |
| Machine.SystemBackend.EnsureJump | internal/control/backend.go:482-498 | Check, then insert, as specified. |
| Machine.SystemBackend.Teardown | internal/control/backend.go:312-334 | The command sequence with its loop ends in the world the teardown specification gives. |
| Machine.SystemBackend.GetWANIPv4 | internal/control/backend.go:336-346 | Reads the WAN's address or errs as specified. |
| Machine.SystemBackend.ResolveTunnelMTU | internal/control/backend.go:183-198 | Resolves the MTU as specified. |
| Machine.SystemBackend.QueryInterfaceIPv6Address | internal/control/backend.go:435-445 | Parses the text, lists the device, and finds with the line parser the state the kernel holds. |
| Machine.SystemBackend.EnsureIPv6AddressPresent | internal/control/backend.go:248-264 | Equal to the specification of ensuring one address. |
| Machine.SystemBackend.EnsureLANInterfaceReady | internal/control/backend.go:200-222 | Equal to the specification of making a device ready; whether a link-local address is broken is read off the listing. |
| Machine.SystemBackend.EnsureNetworks | internal/control/backend.go:138-155 | The loop with its set of devices already handled equals the recursive specification. |
| Machine.SystemBackend.RepairAddresses | internal/control/backend.go:226-246 | Equal to the repair specification; the config is only read. |
| Machine.SystemBackend.SelectDefaultRouteSource | internal/control/backend.go:525-550 | The loop over the candidates returns the specified choice, or the first text that does not parse. |
| Machine.SystemBackend.Reconcile | internal/control/backend.go:102-181 | The whole sequence: world, error and the config object, into which the resolved MTU is written in place, are those of the specification. |
| Machine.SystemBackend.CollectMissingManaged | internal/control/backend.go:386-410 | The loop equals the specification of collecting what is missing. |
| Machine.SystemBackend.Observe | internal/control/backend.go:267-284 | Equal to the observation specification. |
| Machine.SystemBackend.Probe | internal/control/backend.go:287-310 | Equal to the probe specification. |
| Advertising.FirstOccurrencesInOrder | internal/control/service.go:571-588 | The resolver list has no duplicates and stands in the order of first occurrence. |
| Advertising.DeriveRouterDNSServers | internal/control/service.go:571-588 | The loop with its set of addresses seen returns exactly the router addresses, each once, or the first prefix that does not parse. |
| Advertising.PlanGoodIff | internal/control/service.go:496-523 | An advertiser can be planned if and only if every prefix and every configured resolver parses as it stands, and then carries the config's MTU. |
| Advertising.BuildRA | internal/ra/advertiser.go:16-54 | The message built by conditional appends: its header fields, lifetimes and prefix flags, and exactly the specified options in order. |
| Advertising.HostLearns | internal/ra/advertiser.go:26-54 | From the message a host learns exactly the tunnel's MTU and exactly the given resolvers, and makes addresses of its own from exactly the given prefix, unless that is link-local. |
| DataFlowLaws.MTUEndToEnd | internal/control/service.go:408-410 | After a reconcile without error of a valid enabled config with LAN networks, the kernel tunnel MTU, the status MTU and the MTU a host learns are one number, at least 1280, WAN less 20 in auto mode; the stored config is unchanged. |
| DataFlowLaws.AutoDNSAssigned | internal/control/service.go:525-588 | With no resolver configured, every advertised resolver is an address this reconcile assigned, none twice, in network order. |
| Service.ParseNetworks | internal/control/service.go:496-507 | The loop yields every network with its prefix or the first that does not parse. |
| Service.ResolveRADNSServers | internal/control/service.go:525-538 | Configured resolvers in order, or the router addresses. |
| StatusLaws.StateAfterSound | internal/control/service.go:357-477 | The status after a reconcile is sound, whatever the data plane said and whatever state was there before: last error first, no reason twice, ready only if wanted, valid and nothing to complain about but the probe. |
| StatusLaws.StateAfterSightSound | internal/control/service.go:259-283 | Writing back a health check keeps the status sound, for any config it may have looked with and anything it may have seen. |
| StatusLaws.StateAfterRepairSound | internal/control/service.go:326-343 | Recording a repair keeps it sound. |
| StatusLaws.CleanPassTroubles | internal/control/service.go:418-429 | A reconcile in which nothing went wrong reports at most the failed probe. |
| StateDocument.AppendEach | internal/control/service.go:548-554 | Appends each reason that is not there yet. |
| StateDocument.ReplaceManagedReasons | internal/control/service.go:609-623 | Drops the old reasons for missing addresses and appends the new ones, each once. |
| StateDocument.RemoveProbeReason | internal/control/service.go:598-607 | Drops the probe reason and keeps the rest in order. |
| StateDocument.StateRecord.BeginReconcile | internal/control/service.go:372-384 | Sets the fields a reconcile announces first. |
| StateDocument.StateRecord.EndReconcile | internal/control/service.go:408-466 | Field by field the state becomes the specified one. |
| StateDocument.StateRecord.Record | internal/control/service.go:259-283 | Field by field the state becomes the specified one after a health check. |
| StateDocument.StateRecord.RecordRepair | internal/control/service.go:326-343 | Field by field the state becomes the specified one after a repair. |
| PassLaws.PassVerdict | internal/control/service.go:391-407 | If the observation of a reconcile errs nowhere and misses nothing, every managed address is usable. |
| PassLaws.CalmPassSucceeds | internal/control/service.go:385-407 | Nothing failing without reason, a workable config whose advertisements can be built passes without complaint from any state of the kernel. |
| PassLaws.PassKeeps | internal/control/service.go:385-407 | Observing, probing and advertising change nothing in the kernel; only the backend's reconcile does. |
| DaemonLaws.ReconcileSteadies | internal/control/service.go:357-477 | A reconcile of a freshly loaded or steady daemon leaves it steady whatever fails: config equal to the document's active config, Applied equal to the config's footprint when valid and enabled and empty when disabled, status sound, everything installed accounted for; document, config and file untouched. |
| UpdateLaws.UpdateIsAtomic | internal/control/service.go:146-173 | Whenever an update returns an error, document, config and config file are what they were; without error the document is valid and is what the file says; either way the daemon is steady. |
| UpdateLaws.RollbackSteadies | internal/control/service.go:479-494 | A rollback restores document and config and leaves the file alone, drops exactly the failed config's footprint, and if its own reconcile fails restores the state too. |
| UpdateLaws.FailedUpdateRestores | internal/control/service.go:479-494 | After a failed update either the old state is back as it was, or the old config, if it is valid and wanted, is served again. What a disabled or invalid old config leaves in the kernel is LeakLaws.FailedUpdateLeaves. |
| UpdateLaws.RollbackServes | internal/control/service.go:483-486 | If the rollback's reconcile succeeds the kernel again holds everything the old config intends. |
| UpdateLaws.ReconcileServes | internal/control/service.go:357-477 | A reconcile without error of a valid enabled config leaves the kernel serving it with the MTU the status reports. |
| UpdateLaws.UpdateRefinesStore | internal/control/service.go:146-173 | As far as document and file go, an update of the service is the update of the store model. |
| UpdateLaws.RequestKeepsSync | internal/control/service.go:164-173 | Whatever a client asks for and however it ends, loading the file afterwards gives the document in memory. |
| RunLaws.AlwaysSteady | internal/control/service.go:28-40 | Over every interleaving of locked sections, with failing commands and disk writes, stale health checks and proposals, other people's changes to the kernel, daemon restarts and death in the middle of a section, the daemon stays steady. |
| RunLaws.ReadyMeansReady | internal/control/service.go:438-453 | On every run ready means: tunnel wanted, config valid and applied, at most the probe to complain about, last error first. |
| RunLaws.NothingForgotten | internal/control/service.go:438-453 | On every run, exactly: an item the daemon installed and that is still in the kernel is outside the footprint of Applied if and only if it is on one of two lists, of failed deletions and of dropped records, which hold nothing that is gone or recorded again. |
| RunLaws.StuckExactly | internal/control/backend.go:312-334 | An item gets stuck if and only if it is owned, in the recorded footprint, and every command that should delete it fails. |
| OwnershipLaws.ReconcileOwnsIff | internal/control/backend.go:102-181 | The exact fate of every item outside the new footprint, whatever fails: owned after a reconcile if and only if it was before, the teardown left it, and establishing the config, if there is one, did not take it. |
| OwnershipLaws.SuccessTakesExactly | internal/control/backend.go:109-181 | What a successful reconcile takes of what was there, told beforehand: the addresses of LAN devices with a broken link-local address, and another route to the same endpoint. |
| LeakLaws.ReconcileLosesExactly | internal/control/service.go:357-477 | Exactly what is lost after a reconcile, whatever failed in it. |
| LeakLaws.RollbackLosesExactly | internal/control/service.go:479-494 | Exactly what is lost after a rollback, item by item and whatever fails: what the daemon had, what the old state does not record, and what re-establishing the old config, if wanted, does not take. |
| LeakLaws.RollbackLeavesExactly | internal/control/service.go:479-494 | Rolling back to a disabled or invalid config leaves exactly what was there and is outside the old footprint or could not be deleted. |
| LeakLaws.WorkingRollbackLoses | internal/control/service.go:483-486 | The same told beforehand, when the rollback's reconcile works. |
| LeakLaws.RollbackToOffLeaks | internal/control/service.go:479-494 | A rollback to a config that wants no tunnel loses everything the failed one had installed. |
| LeakLaws.FailedUpdateLeaves | internal/control/service.go:146-173 | Exactly what a failed update leaves and loses, from wherever it failed. |
| LeakLaws.FailedSaveLeaks | internal/control/service.go:164-173 | A failed up whose reconcile worked and whose config file could not be written leaves all it installed in the kernel, with nothing recorded and the phase down or as before. |
| LeakLaws.RestartLosesExactly | internal/control/service.go:43-81 | Exactly what is lost when the daemon is started again, in terms of what the state file and the config file say, from any world and memory: between sections or after one that was cut off. |
| LeakLaws.UnsavedRestartLeaks | internal/control/service.go:43-81 | A restart with a state file that records nothing and a config that wants no tunnel loses everything in the kernel. |
| LeakLaws.CalmDownLeaves | internal/control/service.go:183-187 | Down, nothing failing, from any steady daemon: an item is still in the kernel if and only if it was and the state did not record it. |
| LeakLaws.CalmReconcileLosesNothing | internal/control/service.go:357-477 | A reconcile in which nothing fails without reason loses nothing more. |
| LeakRuns.FailedUpLeaks | internal/control/service.go:146-173 | A concrete failed up: from a fresh installation the reconcile works, the forty-third instant fails the write of the config file, and the endpoint route stays in the kernel with phase down and nothing recorded. |
| LeakRuns.KilledUpLeaks | internal/control/service.go:43-81 | A concrete restart that loses the endpoint route: the state file could not be written, and the daemon was killed before it rolled back. |
| LeakRuns.DeadUpLeaks | internal/control/service.go:146-173 | A concrete death: nothing has failed and nothing was rolled back, the first up is cut off before the state is written, and after the restart the endpoint route is lost. |
| DeathLaws.CutIsPrefix | internal/control/backend.go:478-480 | A command sequence cut off by death leaves the kernel that the commands before it made. |
| DeathLaws.DeadSection | internal/control/service.go:357-477 | From death on a section, whichever it is, leaves kernel and both files as they are. |
| DeathLaws.DeathLosesExactly | internal/control/service.go:43-81 | Exactly what is lost when the daemon dies at any instant of any section and is started again. |
| DeathLaws.OnlyUpdatesLose | internal/control/service.go:28-40 | With file and memory in sync and a valid config, no event but an update loses an item that was not lost before, nor does death in the middle of one. |
| SyncLaws.PlayInSync | internal/control/service.go:176-200 | Over every interleaving of sections, failing commands and writes, restarts, death in the middle of sections, and proposals made from copies however old, loading the config file gives exactly the document in memory. |
| SyncLaws.PlayStaysValid | internal/control/service.go:157-165 | Over every such run a valid document in memory stays valid. |
| SyncLaws.OldCopyIsStorable | internal/control/service.go:176-200 | An old copy of the document with the tunnel switched on or off meets the condition of these runs. |
| SyncLaws.OldCopyWithConfigIsStorable | internal/control/service.go:130-143 | So does an old copy with another config written into its active profile. |
| SyncLaws.RequestIsStorable | internal/config/config.go:250-255 | So does the body of a PUT in either format, read against any old copy. |
| SyncLaws.RestartComesUp | internal/control/service.go:43-81 | A daemon in sync comes up again after a restart, with the document and the config it had. |
| SyncLaws.RestartLosesNothingNew | internal/control/service.go:43-81 | With file and memory in sync and a valid config, a restart between sections loses nothing that was recorded, however old the state file is; and exactly what stays lost. |
| SyncLaws.OnlyStuckIsLost | internal/control/service.go:479-494 | On every run on which no update is rolled back or cut off by death, what is in the kernel and not recorded is exactly what a teardown tried to delete and failed. |
| RunLaws.WriteBackSteadies | internal/control/service.go:257-287 | The second section of a health check keeps the daemon steady for anything it may have seen. |
| RunLaws.RepairSteadies | internal/control/service.go:310-349 | A repair keeps the daemon steady and changes neither document, config nor file. |
| RunLaws.RestartSteadies | internal/control/service.go:43-81 | Stopping and starting the daemon keeps it steady, whatever the state file says. |
| RunLaws.FirstStartSteadies | internal/control/service.go:74-81 | A first start makes a steady daemon. |
| HealingLaws.TwoTicksHeal | internal/control/service.go:202-231 | Self-healing: after any run, once nothing fails without reason and the config can be served, two turns of the health loop make the service ready with every managed address usable, whatever the probe says and whether or not automatic restart is on; and it stays so. |
| HealingLaws.ReconcileHeals | internal/control/service.go:357-477 | A single reconcile does so from any state of service and kernel. |
| HealingLaws.TickHelps | internal/control/service.go:202-231 | After one turn the daemon is healed or knows that it is not ready; a healed daemon stays healed. |
| HealingLaws.RepairKeepsFit | internal/control/service.go:310-349 | A repair, successful or not, never makes the daemon incurable, and calls it ready only if every managed address is usable. |
| Service.Service.constructor | internal/control/service.go:43-71 | The service holds document, config and state objects of its own with the given content; LoadService and CreateService carry out the loading. |
| Service.LoadService | internal/control/service.go:43-71 | There is a service if and only if the config file loads and has an active profile; it then holds what the two files say. |
| Service.CreateService | internal/control/service.go:704-721 | Without a config file the defaults are written first; there is a service if and only if the write worked, and memory and file agree. |
| Service.Service.Start | internal/control/service.go:74-81 | The initial reconcile. |
| Service.Service.Stop | internal/control/service.go:84-92 | The advertiser is stopped, everything else is as it was. |
| Service.Service.EncodeConfigDocument | internal/config/config.go:278-302 | Copies, fills in defaults, validates and chooses the format; yields what the specification would save, or the failures. |
| Service.Service.SaveState | internal/control/state.go:60-69 | The state file becomes the state in memory or keeps its old content. |
| Service.Service.StartAdvertiser | internal/control/service.go:496-523 | Parses, resolves and starts as specified; on an error nothing runs. |
| Service.Service.RunDataPlane | internal/control/service.go:384-407 | The data-plane part of a reconcile equals its specification; the MTU goes into the copy it is given. |
| Service.Service.ReconcileLocked | internal/control/service.go:357-477 | The whole section, field by field on the service's objects, equals its specification; it works on a copy of the config. |
| Service.Service.RollbackConfigUpdateLocked | internal/control/service.go:479-494 | Equal to the rollback specification; document, config and state are new objects. |
| Service.Service.SaveConfigDocument | internal/config/config.go:278-302 | The config file becomes the encoded document or keeps its old content. |
| Service.Service.UpdateConfigDocument | internal/control/service.go:146-173 | Equal to the update specification; the service afterwards shares neither document nor profile array with the caller. |
| Service.Service.UpdateConfig | internal/control/service.go:130-143 | Equal to the specification for a whole effective config. |
| Service.Service.SetEnabled | internal/control/service.go:176-200 | Equal to the specification of up and down. |
| Service.Service.ShouldRetryReconcile | internal/control/service.go:221-231 | True if and only if the tunnel is wanted, the state not ready and the config valid. |
| Service.Service.LookAround | internal/control/service.go:234-256 | What a health check sees outside the lock equals its specification. |
| Service.Service.WriteBack | internal/control/service.go:257-287 | Equal to the specification of the second section. |
| Service.Service.RepairManagedAddresses | internal/control/service.go:310-349 | Equal to the repair section's specification. |
| Service.Service.RecoverFrom | internal/control/service.go:288-308 | Reconcile after a failed probe, repair for a missing address, reconcile if the repair fails, as specified. |
| Service.Service.RunHealthCheck | internal/control/service.go:233-308 | Both sections and the recovery, nothing coming between, as specified. |
| Service.Service.HealthLoopTurn | internal/control/service.go:202-219 | One turn of the loop as specified. |
| Service.Service.GetConfig | internal/control/service.go:95-99 | Hands out a new object whose two lists are new as well. |
| Service.Service.GetConfigDocument | internal/control/service.go:102-108 | Hands out a new, checked document that shares no profile array. |
| Service.Service.Status | internal/control/service.go:118-122 | Hands out a new object. |
| LogTail.TailRefinesSimple | internal/logging/logging.go:106-164 | For every content with at most one trailing newline and every n above zero, the chunked backward tail returns exactly the last n lines of the whole file. |
| LogTail.TailExactness | internal/logging/logging.go:106-164 | For any content, the tail is exact if and only if what was read holds enough lines after the trailing newlines are dropped. |
| LogTail.TailMissesTextBeforeBlankLines | internal/logging/logging.go:106-164 | A concrete content with more trailing newlines on which the tail returns nothing although there is a line. |
| LogTail.TailFile | internal/logging/logging.go:106-146 | The loop over chunks stops where specified, terminates, and returns the last n lines of what it read. |
| LogTail.CountNewlines | internal/logging/logging.go:148-156 | Counts the newlines. |
| LogTail.Tail | internal/logging/logging.go:80-88 | The last n lines, none for n not above zero. |
| LogTail.LastLinesFrom | internal/logging/logging.go:126-141 | A line is never cut at a chunk boundary: reading from any offset with enough lines behind it gives the same last lines. |
| AtomicWrite.FileSystem.WriteAtomically | internal/fileutil/atomic.go:9-37 | On success the file holds the data, on failure it is what it was, at every crash point in between it is wholly old or wholly new, and no other file changes but the temporary one. |
| AtomicWrite.FileSystem.Rename | internal/fileutil/atomic.go:32-35 | The rename is the one step that changes the target. |
| AtomicWrite.Renamed | internal/fileutil/atomic.go:32-35 | Moving the finished temporary file onto the target gives the old files with the target replaced. |

## Left out

- Machine.SystemBackend.Probe: the target and the source address chosen for it do not occur, and the ping output with the expression that reads it is an input.
- Machine.SystemBackend.GetWANIPv4: the first IPv4 address of a device is an input; the expression that finds it in the output is not modelled.
- Machine.SystemBackend.ResolveTunnelMTU: the MTU of a device is an input likewise.
- Machine.CommandRunner.CombinedOutput: of what commands print only the listing of IPv6 addresses is modelled.
- AtomicWrite.FileSystem.WriteAtomically: creating directories and what a power failure does to unsynced data are not modelled; the temporary name is a parameter and differs from the target.
- Records.DocumentRecord.Clone: slices inside one profile (resolvers, networks) are values, so sharing of their storage cannot occur in the model and is not ruled out by it.
- Service.Service.UpdateConfigDocument: the error's text, which joins the update's and the rollback's errors, is reduced to the update's error.
- StateDocument.StateRecord.EndReconcile: the times of the last probe and the last reconcile, and the constant interface name, are not part of the state.
- HealingLaws.TwoTicksHeal: with LAN disabled it asks that the route source be the tunnel's own address or none, because an address somebody else assigned may vanish between two turns; networks must not be on the tunnel device, and resolvers and the tunnel address must be written without padding.
- Service.Service.GetConfigDocument: as for DocumentRecord.Clone, the lists inside one profile are values.
- Service.Service.SetEnabled: the copy of the document is taken and updated without anything coming between; the interleaving in which another update comes between is an `Updates` event with an old copy in `RunLaws` and `SyncLaws`, and there the last one wins.
- Service.Service.Start: the health loop it launches is the sequence of `HealthLoopTurn` calls in a run, not a thread.
- TunnelLaws.AllHealthyIff: a tunnel address that is itself link-local is excluded, because the kernel may give it back by itself after the reset.
- Service.LoadService: reading and decoding the file is `Storage.ParseDocument`; JSON is not modelled as text.
- Death is followed at once by the restart: nobody changes the kernel between the two.
- JSON syntax, the text syntax of addresses and prefixes, and IPv4-mapped IPv6 addresses.
- HTTP routing, authentication, the command line, the web interface and the shell scripts.
- Sockets, tickers, packet loops and shutdown of the router advertiser; it is a value that starts or fails to start.
- Log rotation, log levels and I/O errors of the log file.
- Keeping an omitted port in a PUT in the profiles format: parsing fills it before the service could see that it was omitted.
- Sleeping between the two halves of an IPv6 reset; waiting has no effect in the model.
