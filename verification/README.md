# Sandbox host: a verified model

This project models three parts of the sandbox system and proves what they are for.

**A. The host.** The registry hands out taps, addresses and host ports from bounded pools; the server moves registry
rows and host objects (tap devices, DNAT rules, disks, processes) together in multi-step operations; after a crash it
reconciles. No single place in the code enforces the safety of this. It follows from an order that all operations
share: the row first, then the host object; the host object released first, the row last.

- `Decimals`, `Addresses`, `Pools`: numerals, dotted quads, the pools and their first-free scans, the advertised capacity.
- `Tables`, `History`, `Registry`: the three tables as values with one function for each transaction, whole runs of
  transactions, and the registry object whose methods are proved against those functions.
- `Hosts`, `Ledger`, `Commands`, `Lifecycle`: the host state, a ledger of who holds what, the single commands and that
  each keeps the books balanced, and the state machine: each operation is a small program counter, and any number of
  operations on different sandboxes interleave at every host command, with guests, fan-outs and crashes in between.
  Commands fail, or break off half-way, at will.
- `Safety`, `Steps`, `Reachable`, `Events`, `Runs`: the invariant, its preservation by every event, and runs.
- `Processes`, `Guarantees`, `Recovery`, `Endings`, `Termination`, `Provenance`: what follows for whole runs: who will stop
  a guest, who accounts for each host object, what a crash and the reconciliation after it leave, exactly, how a start
  that fails, a destroy and an exposure end, that every operation ends, and which request each deadline and snapshot
  comes from.
- `Liveness`, `FanLiveness`, `FanRuns`, `Witnesses`: that creates, restores and fan-outs succeed when their commands do,
  what a fan-out leaves whose clones run in parallel, and runs that show what can happen.
- `Sites`, `Provisioner`, `Fanouts`, `Server`: the handlers as methods of an object over the registry and the host, each
  run from beginning to end, with exact results for success and for every way to fail.
- `Expiry`: deadlines and the reaper.

**B. The gateway.** `Routing`, `Gateway`, `Placement`, `Heartbeats`: the routing table that is rebuilt from heartbeats,
changed on create and pruned, and greedy placement.

**C. Streaming exec.** `Json`, `ExecEvents`, `ExecStream`, `CappedBuffer`: two reader loops emitting JSON lines into one
body, the two clients that read it back, and the capped output buffer.

`Wrappers` holds Option and Result.

## Assumptions

- The registry serialises on one connection (internal/registry/registry.go:113-121), so each of its methods is one step.
- Operations on one sandbox id do not overlap: the state machine holds at most one for each id. Sandbox ids are fresh
  UUIDs: no disk path in use was ever named after a new id.
- The pools are constant, and the server is configured with a last address below 255.255.255.255. The registry is proved
  for every range for which its 32-bit scan ends at all (`Registry.ScanStops`).
- A fan-out does not stage a disk at a path where a restore is about to copy its own or another fan-out has staged one,
  a restore does not begin where a fan-out has staged a disk, and the settle time of a fan-out suffices for every clone
  that still runs. These are conditions of the events `StageBaked`, `RestoreSandbox` and `Settle` in
  `Lifecycle.Enabled`; the code checks none of them.
- `ip tuntap add` refuses a device that exists, `iptables -A` appends duplicates, and `iptables -D` removes one copy.
- In the state machine a best-effort deletion may fail: what it leaves is listed as a stray. In the handlers of `Server`
  it succeeds, and does nothing to what does not exist.
- In the state machine any registry read or write may fail, each for itself. In the handlers of `Server` one fails only on
  a cancelled request, and a request that was cancelled stays cancelled.
- How the commands and reads of a handler end is left open. Where a contract of `Server` speaks of `host.reliable`, all
  of them succeed and every guest answers; where it speaks of `steady`, no request is cancelled and the registry can be
  read and written. The contracts then say which requests succeed.
- A stopped or killed guest is gone.

## What the code does not keep

- `AddPortForwardTo` is not all-or-nothing. When its second command fails, create, restore and expose-port roll back
  everything but the PREROUTING rule, and no row remembers it (`Endings.HalfForwardLeaks`, and the residues in
  `Server.HandleCreate`, `Server.HandleRestore`, `Server.HandleExposePort`). Clones do not leak it: they are destroyed
  rather than rolled back.
- A start whose agent does not answer is destroyed. If that destroy cannot read the row it gives up, and the sandbox stays
  live although its start has failed (`Witnesses.SilentStaysLive`). `Endings.FailedStartIsNeverLive` says, as an
  if-and-only-if over every run, that a start that failed comes to life in no other way.
- When expose-port fails on a request that was cancelled, the port row cannot be withdrawn: the port is listed and has no
  rule (`broken` in the state machine). `Witnesses.PortBreaks` is a run that gets there, and `Guarantees.LiveIsComplete`
  says that a live sandbox lacks the rules of exactly these ports.
- Two chains forget a firecracker process, and `Processes.NothingIsForgotten` says, as an if-and-only-if over every run,
  that there is no other. Reconciliation does not find a process whose id had not reached its row when the crash came: it
  deletes the tap and the row and the process runs on (`Witnesses.ProcessIsForgotten`;
  `Recovery.CrashThenReconcile` says exactly which processes a reconciliation leaves). And when the server cannot list
  its rows as it starts again, it serves without having reconciled any: it holds no machine for the sandboxes that still
  run, so that a later destroy or the reaper deletes tap, disk and row and leaves the process, although its id was
  recorded (`Witnesses.RecordedIsForgotten`).
- A destroy or reconciliation that cannot read the extra ports of a sandbox goes on. If the row can then be deleted, the
  rules of these ports stay in force and belong to nobody (`Witnesses.RulesAreLeft`); they are among the strays that
  `Guarantees.StraysExactly` lists.
- A create that a crash interrupts between its disk and its row leaves the disk, and so does a fan-out between staging and
  unstaging, unless a row names the path (`Witnesses.DiskIsLeft`, `Witnesses.StagedDiskIsLeft`).
  `Recovery.CrashLeavesExactly` says that these disks are left, all of them and nothing else, so that no file is left if
  and only if no operation was at such a point.
- A destroy that is cut off before it deletes its row leaves a row without a disk. A fan-out of a snapshot of that sandbox
  then stages its disk at the path that the row still names (`Witnesses.StagedOverRow`), and a repeated destroy of the
  row unlinks it while clones load it (`Witnesses.StagedDiskIsUnlinked`). `Runs.NonInterference` says that this is the
  only way in which an event touches another sandbox's disk, and `Runs.DisksAreSafe` that no sandbox that has its disk
  is concerned.
- `Pools.Slots` promises room when the address bounds are reversed (`Pools.SlotsForExact`,
  `Pools.ReversedBoundsPromiseRoom`).
- On a full range that ends at 255.255.255.255 the registry hands out an address outside the range (`Registry.PickFreeIP`).
- A timeout above 9223372036 seconds wraps around in 64 bits, and the sandbox is reaped early (`Expiry.NeverEarly`,
  `Expiry.LongTimeoutWraps`).
- A timeout request that is cancelled after the update gets an error although the deadline is set
  (`Server.HandleSetTimeout`).
- With extra ports exposed, a host that advertises a free slot may still refuse a create (`Tables.ExactAdmission`).
- The two stream clients differ on lines of 1 MiB or more (`ExecStream.ClientsAgree`); the agent emits none.

## Model

| member | source | states |
|---|---|---|
| Addresses.ParsePrint | internal/registry/registry.go:660-670 | Parsing the dotted quad printed for n gives n, for every 32-bit n |
| Addresses.PrintParse | internal/registry/registry.go:660-670 | Every accepted spelling of an address is the one that is printed back |
| Addresses.PrintIPInjective | internal/registry/registry.go:668-670 | Different words print as different addresses |
| Addresses.NetworkOrder | internal/registry/registry.go:660-670 | The most significant byte of an address comes first |
| Pools.FirstFreeLeast | internal/registry/registry.go:623-658 | A pool scan returns the least free name, and fails only when none is free |
| Pools.PoolNames | internal/registry/registry.go:623-658 | Tap k of the pool is the prefix followed by k, from 0; a host port is in its pool exactly if it lies between the bounds; both in ascending order |
| Pools.FreeIffRoom | internal/registry/registry.go:623-658 | While only pool names are taken, one is free exactly when fewer names are taken than the pool holds |
| Pools.ScanExact | internal/registry/registry.go:633-649 | The 32-bit address scan ends with the first free address or reports a full range, if and only if the range stops short of 255.255.255.255 or has a free address |
| Pools.ScanWraps | internal/registry/registry.go:642-647 | A full range up to 255.255.255.255 makes the scan return an address below the range, if it ends at all |
| Pools.SlotsForExact | internal/registry/registry.go:79-95 | The capacity is the size of the smallest pool if and only if the address bounds are in order or another pool is empty |
| Pools.SlotsIsSmallestPool | internal/registry/registry.go:75-95 | With ordered address bounds Slots is the size of the smallest pool |
| Tables.CreateKeepsConsistent | internal/registry/registry.go:199-244 | Create inserts only a fresh id and keeps taps, addresses and host ports unique |
| Tables.CreateRestoreKeepsConsistent | internal/registry/registry.go:252-295 | The same for CreateRestore, which brings its own tap and address |
| Tables.AddPortKeepsConsistent | internal/registry/registry.go:361-403 | AddPort keeps host ports unique across both tables and every extra port with its sandbox |
| Tables.CreatedIsLeast | internal/registry/registry.go:199-244 | A new row has the first tap, the first address and the first host port, counted in the pools, that no running sandbox holds, and for the port no mapping; and the path and the deadline that were asked for |
| Tables.CreateRefuses | internal/registry/registry.go:199-244 | Which error a create gets: the first pool that is exhausted, bounds that are no addresses, or an id that exists |
| Tables.RestoredIsLeast | internal/registry/registry.go:252-295 | A restored row has the snapshot's tap and address, the first free host port and the deadline that was asked for; and which error it gets, exactly |
| Tables.AllottedIsLeast | internal/registry/registry.go:361-403 | A mapped port keeps its mapping; a new one gets the first host port that no running sandbox and no mapping holds, or the pool is exhausted |
| Tables.ExactAdmission | internal/registry/registry.go:199-244 | Create succeeds if and only if taps, addresses and ports each have room, extra ports counted |
| Tables.RestoreAdmission | internal/registry/registry.go:246-295 | A restore gets its row if and only if no sandbox holds the snapshot's tap or address and a host port is free |
| Tables.PortAdmission | internal/registry/registry.go:361-403 | An existing sandbox gets a port if and only if it has it already or sandboxes and mappings together are fewer than the pool; the error is exhaustion |
| Tables.CapacityBound | internal/registry/registry.go:75-95 | Sandboxes never exceed Slots; without extra ports Create succeeds exactly below Slots |
| History.RootfsPathInjective | internal/provisioner/provisioner.go:122-124 | Different sandboxes have different standard disk paths |
| History.CommitKeepsBook | internal/registry/registry.go:199-485 | Every transaction, in any state, keeps uniqueness, pool membership and the history of disks |
| History.HostPortsUnique | internal/registry/registry.go:156-165 | After any run a host port is held once across both tables and every extra port has its sandbox |
| History.DisksUnique | internal/server/snapshot.go:84-146 | After any run no two rows share a disk, and a disk path stands for one tap and address in rows and snapshots |
| Registry.PickFreeIP | internal/registry/registry.go:633-649 | Whenever the loop ends: the first free address, or invalid bounds told from exhaustion; but an unused address outside the range when its counter wraps, which is on a full range up to 255.255.255.255 |
| Registry.Registry.Create | internal/registry/registry.go:199-244 | Inserts the row that Tables.Create allots, with the path and the deadline that it is given, errors included, unless the scan wraps; the row then has an address outside the pool; and this is what the transaction does in runs |
| Registry.Registry.CreateRestore | internal/registry/registry.go:252-295 | Inserts the row that Tables.CreateRestore allots, errors included; and this is what the transaction does in runs |
| Registry.Registry.Insert | internal/registry/registry.go:142-158 | The insert fails exactly on the primary key or a partial unique index |
| Registry.Registry.Destroy | internal/registry/registry.go:338-356 | Deletes the row and all its extra ports, and nothing else; an unknown id changes nothing |
| Registry.Registry.AddPort | internal/registry/registry.go:361-403 | Adds the mapping that Tables.AddPort allots and changes no other; an existing mapping is returned unchanged |
| Registry.Registry.Ports | internal/registry/registry.go:407-423 | Lists every extra port of the sandbox once, by guest port |
| Registry.Registry.Expired | internal/registry/registry.go:326-335 | Lists exactly the running sandboxes whose deadline in seconds lies before now |
| Hosts.RulesOfIsOwned | internal/server/server.go:343-347 | The rules that destroy removes are exactly those that the sandbox's rows call for |
| Reachable.AdvanceKeeps | internal/server/server.go:166-350 | Each command of each operation keeps the global invariant, whatever is going on elsewhere |
| Events.ThawKeeps | cmd/sandboxd/thaw.go:34-50 | Any poll of the thaw agent, whichever of its commands fails, keeps the invariant |
| Events.CrashKeeps | internal/server/reconcile.go:12-17 | A crash at any point keeps the invariant: the rows that are left still account for the host |
| Runs.ReachableInv | internal/server/server.go:166-350 | Every state that any interleaving reaches satisfies the invariant |
| Runs.NonInterference | internal/server/server.go:306-350 | No event touches row, ports, tap or rules of a sandbox it does not act for; nor its disk, if and only if it does not stage or unlink a file at the path of a row that names it |
| Runs.DisksAreSafe | internal/server/snapshot.go:277-313 | No event ever stages or unlinks a file at the disk of a sandbox that has its disk |
| Runs.NonInterferenceRun | internal/server/snapshot.go:142-200 | Nor does any run, with failures, roll-backs and crashes in it; the disk of a sandbox that has one included |
| Guarantees.EverythingAccounted | internal/server/snapshot.go:107-420 | Always, each tap and each copy of a rule on the host belongs to a row, each disk to a row or an operation under way; all but the strays, whose sources Guarantees.StraysExactly lists |
| Guarantees.StraysExactly | internal/provisioner/provisioner.go:187-299 | A step leaves an object to nobody if and only if it breaks a port forward or a copy off half-way, fails to delete something that is there, or deletes a row whose ports could not be read; the object is then on the host, and nothing else becomes a stray |
| Guarantees.EmptyServerEmptyHost | internal/server/server.go:314-350 | After a run without leaks, however much failed and rolled back, a server without sandboxes has no tap, no rule, no disk but what a crash cut off, and no process but those off the network that are out of reach: none if and only if none is |
| Guarantees.NamesUnique | internal/registry/registry.go:156-165 | In every reachable state taps, addresses, disks and host ports are unique |
| Guarantees.LiveIsComplete | internal/server/server.go:188-263 | A sandbox that the server drives and nothing works on has its bridged tap and its disk, and of its rules exactly those of the ports that are not broken |
| Guarantees.BridgeIsSafe | internal/server/snapshot.go:292-343 | Guests behind bridged taps have different addresses, each that of its row, so no clone brings the baked address onto the bridge; a process that nobody knows of is off the network unless the deletion of its tap failed |
| Guarantees.BridgedGuestIsStable | cmd/sandboxd/thaw.go:40-47 | No later poll of the thaw agent changes a bridged guest |
| Guarantees.PollsDecide | cmd/sandboxd/thaw.go:34-106 | A guest that finds a new identity tries until an attempt succeeds and then has it for good; until then its address is the one at which the last attempt broke off |
| Guarantees.TicksArePolls | cmd/sandboxd/thaw.go:34-50 | The polls of a guest, or of a process that nobody knows of, change it in this way and nothing else |
| Processes.LeftoversAreCutOff | internal/server/server.go:343-349 | A process that nobody knows of has neither row nor operation, and no network unless the deletion of its tap failed |
| Processes.NothingIsForgotten | internal/server/reconcile.go:17-26 | A running guest has nobody who will stop it, and is left when its row goes, if and only if at the last crash that it lived through its process id was not recorded or the rows could then not be listed; no request, failure or other crash forgets one |
| Recovery.CrashThenReconcile | internal/server/reconcile.go:17-44 | After a crash at any point reconciliation takes a fixed number of commands for each row and leaves no row, port or machine; of the taps and files exactly those that no row named; and exactly the processes whose id had not reached their row |
| Recovery.CrashLeavesExactly | internal/server/reconcile.go:17-44 | If no command had leaked, it leaves no tap and no rule, and exactly the disks of creates without a row and of staging fan-outs: none if and only if there was no such operation; likewise for processes and their ids |
| Recovery.Completes | internal/server/reconcile.go:23-43 | From every crash the reconciliation can be run to its end |
| Recovery.SettledIsEmpty | internal/server/reconcile.go:23-43 | While a row is left reconciliation has a command to take |
| Endings.FailedStartVanishes | internal/server/server.go:188-264 | From every reachable state with a create, restore or clone on its way up: if its next command fails, however far it has come, commands that succeed then lead to a state without row, ports, machine, guest, tap, disk and rules of it; only the first rule of a half-made forward becomes a stray |
| Endings.FailedStartIsNeverLive | internal/server/server.go:260-264 | No run brings a sandbox to life out of a start whose last command failed, with one exception, and that without fail: the destroy after an unanswered agent cannot read the row |
| Endings.HalfForwardLeaks | internal/provisioner/provisioner.go:270-282 | From any reachable state between the two commands of a start: when the second fails, the first rule is in force after a complete roll-back and belongs to nobody |
| Endings.DestroyLeavesNothing | internal/server/server.go:312-350 | Whenever nothing works on a sandbox a destroy whose commands succeed leaves nothing of it and no new stray, whatever else is under way |
| Endings.ExposureSucceeds | internal/server/ports.go:49-65 | With a host port left, commands that succeed list the new port under the first free host port, put both its rules in force, and change nothing else |
| Endings.ExposureIsWithdrawn | internal/server/ports.go:54-63 | When one of its rules cannot be added the port is withdrawn: tables and host are as before, but for the first rule of a port whose second failed |
| Termination.OperationEnds | internal/server/server.go:166-350 | However its commands end and whatever happens besides, an operation takes fewer than a stated number of commands and has then ended, unless the server crashes |
| Termination.NeverStuck | internal/server/server.go:166-350 | Until an operation ends there is a command for it to take; only a parked clone may have to wait for the others |
| Provenance.DeadlineIsLastAsked | internal/registry/registry.go:309-324 | In every reachable state a row has the deadline that its start or the last change of its timeout asked for |
| Provenance.SnapshotIsLastTaken | internal/server/snapshot.go:28-101 | A snapshot is there if and only if the last request that concerns it took it; it then names the disk, tap and address that its source had, and holds what the guest remembered |
| Liveness.CreateCanSucceed | internal/server/server.go:188-263 | With room in the pools a create whose commands succeed reaches a live sandbox, whatever else is under way |
| Liveness.RestoreCanSucceed | internal/server/snapshot.go:107-227 | So does a restore whose row the registry accepts |
| Liveness.GoesLive | internal/server/snapshot.go:148-218 | So does any start from any point on its way up, a clone once its fan-out has settled |
| FanLiveness.FanoutCanSucceed | internal/server/snapshot.go:243-352 | With room in the pools and no stray tap a fan-out of any number of clones whose commands succeed brings all of them to life, on the bridge, each under the address of its own row and with the deadline asked for; nothing else changes, whatever else is under way |
| FanRuns.CloneEnds | internal/server/snapshot.go:331-342 | When the operation of a clone ends and its row is read and deleted where it should be, the clone is live or gone |
| FanRuns.FanoutLeavesLiveClones | internal/server/snapshot.go:292-343 | A fan-out from start to end, its clones interleaving at every command and failing at will without leaks: the state before plus exactly the live clones, each complete, and the baked path as before |
| FanRuns.FanoutAmongOthers | internal/server/snapshot.go:243-352 | The same while anything but a crash goes on: requests, commands, failures and leaks of other sandboxes, snapshots, other fan-outs. A sandbox that is none of the others is what it was, disk included, and every sandbox that came and is none of the others is a complete live clone |
| Witnesses.CloneGoesLive | internal/server/snapshot.go:243-352 | Snapshot, destroy of the source, staging, a clone on its own identity, unstaging, settling, finishing: the clone goes live on the bridge under its own address |
| Witnesses.ProcessIsForgotten | internal/server/reconcile.go:23-26 | A crash between the start of the guest and the recording of its id: after a complete reconciliation the process still runs, without row and tap |
| Witnesses.SilentStaysLive | internal/server/server.go:260-264 | A create whose agent does not answer and whose destroy cannot read the row: it has failed, and its sandbox is live |
| Witnesses.RecordedIsForgotten | internal/server/reconcile.go:18-22 | A live sandbox, a crash, a restart that cannot list its rows, a destroy: the row is gone and the process is left although its id was recorded |
| Witnesses.DiskIsLeft | internal/server/server.go:188-199 | A crash between a create's disk and its row leaves exactly the disk |
| Witnesses.StagedDiskIsLeft | internal/server/snapshot.go:284-313 | A crash between staging and unstaging leaves the staged disk |
| Witnesses.StagedOverRow | internal/server/snapshot.go:283-290 | After a destroy that was cut off before its row went, a fan-out stages its disk at the path of that row |
| Witnesses.StagedDiskIsUnlinked | internal/server/server.go:347-349 | A repeated destroy of that row unlinks the staged disk during the bring-up of the clones |
| Witnesses.PortBreaks | internal/server/ports.go:54-63 | A port whose rule fails on a cancelled request stays in the registry without a rule, while its sandbox is live |
| Witnesses.RulesAreLeft | internal/server/server.go:319-349 | A destroy that cannot read the ports but deletes the row leaves the rule of an extra port in force, belonging to nobody |
| Sites.StripUndoesFurnish | internal/server/server.go:312-350 | Destroying a new sandbox restores registry, host and machines exactly |
| Sites.StripForgetsPort | internal/server/server.go:343-345 | An exposed port leaves no trace once its sandbox is destroyed |
| Sites.StrippedIsAbsent | internal/server/server.go:312-350 | After a destroy on a tidy server no row, port, machine, tap, disk or rule of the sandbox is left |
| Sites.LifeLeavesNoTrace | internal/server/server.go:312-350 | Create or restore, any port exposures, then destroy: back to the starting state |
| Sites.CreatedIsAcceptable | internal/server/server.go:188-200 | What Create allots is in use nowhere on the host |
| Sites.RestoredIsAcceptable | internal/server/snapshot.go:135-146 | What CreateRestore accepts is in use nowhere on the host, disk included |
| Provisioner.Provisioner.AddPortForwardTo | internal/provisioner/provisioner.go:270-282 | Both rules, the first rule only, or none |
| Provisioner.Provisioner.RemovePortForwardTo | internal/provisioner/provisioner.go:290-299 | One copy of each rule is removed where there is one |
| Server.Server.Destroy | internal/server/server.go:314-350 | Everything of the sandbox is gone; or an unknown id; or, when the request is cancelled, the row is kept |
| Server.Server.HandleDestroy | internal/server/server.go:294-301 | The same, keeping the server tidy: nothing of the sandbox is left, and a failed destroy can be repeated with the full effect |
| Server.Server.HandleCreate | internal/server/server.go:166-270 | A complete sandbox with the row that Create allots, listed for the reaper from its deadline on and not before; or at every failure point the state before, but for a half-made copy or forward; it succeeds exactly if the registry has room when no command fails |
| Server.Server.HandleRestore | internal/server/snapshot.go:107-227 | A complete sandbox with the snapshot's tap, address and disk and the deadline asked for, or the state before, but for a half-made forward; it succeeds exactly if the registry accepts the row when no command fails |
| Server.Server.HandleSnapshot | internal/server/snapshot.go:28-101 | Records where the driven source's disk, tap and address are and changes nothing else; a clone is refused, and every failure changes nothing; it succeeds exactly for a driven sandbox that is no clone when no command fails |
| Server.Server.HandleExposePort | internal/server/ports.go:14-65 | Which requests are errors, repeated or primary ports answered without change, new ports mapped to the first free host port with both rules, failures rolled back up to a stated residue, the port row included unless the request is cancelled; with room every request for a sandbox succeeds when no command fails |
| Server.Server.HandleListPorts | internal/server/ports.go:69-85 | The primary port first, then exactly the extra ports in order |
| Server.Server.HandleSetTimeout | internal/server/ttl.go:15-43 | Only the deadline of this row changes, and the reaper lists it from then on and not before; a refused or unknown request changes nothing, and an error on reading the row back leaves the new deadline |
| Server.Server.Reap | internal/server/ttl.go:47-69 | Exactly the sandboxes listed as expired are destroyed; none when the query fails, which it does not when no command fails |
| Server.Server.Reconcile | internal/server/reconcile.go:17-44 | If all goes well, as it does when no command fails, neither row nor host object is left; otherwise the remaining rows, all of them if they cannot be listed, are unchanged and the server tidy |
| Server.Server.ShutdownAll | internal/server/server.go:150-162 | All driven sandboxes are destroyed, other rows stay, and every tap that is left belongs to a row |
| Server.Server.Bridge | internal/server/snapshot.go:393-420 | Wherever finishing a clone fails, destroying it restores the state without it |
| Server.Server.HandleFanout | internal/server/snapshot.go:243-352 | Whatever clones fail: the state before plus exactly the live clones, each complete, marked as such and with the deadline asked for, and the baked path exists afterwards as before; with room all clones are live when no command fails |
| Routing.HeardRoutes | internal/gateway/gateway.go:118-139 | The routes to a host that has reported are exactly its last heartbeat's sandboxes |
| Routing.Convergence | internal/gateway/gateway.go:107-142 | Once every known host has reported, in any order, a lookup finds exactly the owner of a sandbox |
| Routing.OrderDoesNotMatter | internal/gateway/gateway.go:107-142 | Gateways with the same last heartbeats route alike, whatever they believed before |
| Routing.DanglingRoutesUnobservable | internal/gateway/gateway.go:226-241 | Routes to unknown hosts never change where a request goes, now or after any later events |
| Routing.CreateRacesPrune | internal/gateway/gateway.go:167-174 | A create recorded on a dropped host leaves only such a route |
| Routing.RecordedIsFound | internal/gateway/gateway.go:167-174 | After a create on a known host its sandbox is found there, the host has a slot less, and every other sandbox is found where it was |
| Routing.RecordedStaysFound | internal/gateway/gateway.go:118-139 | And it stays so over any heartbeats, creates and prunes that do not take the route away |
| Routing.PrunedExactly | internal/gateway/gateway.go:289-312 | A prune drops exactly the hosts that were silent for longer than their time to live, and exactly the routes to them |
| Gateway.Gateway.HandleRegister | internal/gateway/gateway.go:107-142 | A heartbeat replaces the host's entry and all its routes; an incomplete one is refused |
| Gateway.Gateway.PickHost | internal/gateway/gateway.go:180-197 | A live host with the most free slots, or none exactly when no live host has a free slot |
| Gateway.Gateway.RecordCreate | internal/gateway/gateway.go:167-174 | Records the route and charges one slot if the host is known; the sandbox is then found there |
| Gateway.Gateway.FindHost | internal/gateway/gateway.go:226-241 | The host of the sandbox's route, if both exist; a missing route reads as the empty host id |
| Gateway.Gateway.Prune | internal/gateway/gateway.go:289-312 | Drops the stale hosts and their routes, as Routing.PrunedExactly says which |
| Placement.Balanced | internal/gateway/gateway.go:180-197 | After greedy choices whoever received one is at most one slot short of the freest |
| Placement.NoSpreadIsFlatter | internal/gateway/gateway.go:180-197 | No other distribution of as many sandboxes has a smaller maximum of free slots |
| Placement.RoomForExactly | internal/gateway/gateway.go:44-49 | k greedy placements exist if and only if k does not exceed the free slots |
| Placement.PlacementIsBalanced | internal/gateway/gateway.go:146-197 | The gateway's creates leave a chosen host at most one slot short of the freest live host |
| Placement.PlacementIsOptimal | internal/gateway/gateway.go:146-197 | However else the sandboxes were spread, some live host would be at least as free as any is now |
| Placement.PlacementUsesAllSlots | internal/gateway/gateway.go:146-197 | A further create finds a host exactly while free slots are left |
| Heartbeats.Payload | internal/server/heartbeat.go:52-69 | Every running sandbox once, their number, and the capacity |
| Heartbeats.AdvertisedSlotsAreReal | internal/server/heartbeat.go:62-69 | Free slots are capacity less sandboxes; without extra ports a free slot means that Create succeeds |
| Json.EscapeRoundTrip | cmd/sandboxd/main.go:138-144 | Every text survives escaping and unescaping |
| Json.EscapeIsOneLine | cmd/sandboxd/main.go:136-144 | Escaped text has no line end |
| Json.ObjectRoundTrip | cmd/sandboxd/main.go:138-144 | Every flat object survives printing and reading |
| ExecEvents.EventRoundTrip | internal/agentapi/agentapi.go:41-52 | Every event survives its line, left-out zero fields included |
| ExecEvents.LineOf | internal/agentapi/agentapi.go:41-52 | The text of a line: the type and then every field that is not zero, under its own name |
| ExecEvents.EncodedIsLine | cmd/sandboxd/main.go:136-144 | An encoded event is one line that trimming leaves alone |
| ExecEvents.LineFits | internal/client/client.go:125-126 | A line from one read, or an exit with 64-bit fields, is below the scanner's limit |
| ExecStream.HandleExecStream | cmd/sandboxd/main.go:136-182 | The body is one line per delivered read, each pipe in order, the two interleaved in any way, then the exit event |
| ExecStream.Accumulator.HandleEvent | sdk/typescript/src/commands.ts:101-111 | The accumulated output is that of the events seen, and the exit the last one |
| ExecStream.LastExitCounts | sdk/typescript/src/commands.ts:108-109 | Of several exit events the last one counts |
| ExecStream.RunStreaming | sdk/typescript/src/commands.ts:86-151 | Reading in chunks gives what reading the lines of the whole body gives, errors included |
| ExecStream.ScanStream | internal/client/client.go:121-159 | The scanner loop gives the same, but stops at a line that is too long |
| ExecStream.ClientsAgree | internal/client/client.go:121-159 | On any stream and chunking both clients end alike, if and only if no overlong line comes before an unreadable one |
| ExecStream.EventsArrive | sdk/typescript/src/commands.ts:113-134 | For every interleaving and chunking the reader sees exactly the emitted events, the exit event once and last |
| ExecStream.StreamIsFaithful | sdk/typescript/src/commands.ts:97-151 | The client's stdout and stderr are the reads of each pipe in order, and the exit fields arrive |
| ExecStream.ScannerIsFaithful | internal/client/client.go:121-159 | With reads of at most 32 KiB the Go client reports the same and never rejects a line |
| ExecStream.CutStreamIsError | sdk/typescript/src/commands.ts:113-144 | A body that breaks off is a result if and only if at most its last line end is missing; anything less is an error for both clients |
| CappedBuffer.CappedBuffer.Write | cmd/sandboxd/main.go:437-454 | The first bytes of all that was written are kept, the rest is counted, and the writer is told all was written |
| CappedBuffer.CappedBuffer.Contents | cmd/sandboxd/main.go:456-461 | The kept bytes, with a notice if and only if some were dropped |
| CappedBuffer.WritesDoNotMatter | cmd/sandboxd/main.go:437-454 | However an output is cut into writes, the result is the same |
| Expiry.TimeoutFits | internal/server/ttl.go:28-32 | A timeout fits 64 bits of nanoseconds if and only if it is at most 9223372036 seconds |
| Expiry.NeverEarly | internal/registry/registry.go:326-335 | No sandbox is listed before its deadline, if and only if its timeout fits |
| Expiry.ListedFrom | internal/registry/registry.go:326-335 | From one second after the deadline every query lists the sandbox; one without deadline is never listed |
| Expiry.DeadlineIsKept | internal/server/ttl.go:28-32 | A row with the deadline asked for is listed from one second past now plus the timeout and at no time up to it; never for timeout 0 |
| Expiry.ReapedInTime | internal/server/ttl.go:47-69 | With ticks every ten seconds a sandbox is listed less than eleven seconds after its deadline, and not before |

## Left out

- Server.Server.HandleCreate: starts, like the other handlers, from a tidy server; what they do beside strays of earlier failures, and interleaved, is covered by the state machine.
- Server.Server.HandleFanout: runs its parallel clones one after the other; `FanRuns.FanoutLeavesLiveClones` proves the same of every interleaving of them in the state machine.
- FanRuns.FanoutLeavesLiveClones: the row of a clone that failed is read and deleted when its turn comes, which the code does under a background context; operations on other sandboxes stand still, so that whole states can be compared.
- FanRuns.FanoutAmongOthers: speaks sandbox by sandbox; that no tap, rule or disk beside those of the rows, the operations and the strays is on the host is `Guarantees.EverythingAccounted`.
- Server.Server.Destroy: a registry read fails only on a cancelled request, whose row is then not deleted either; that one read fails and the deletion succeeds is in the state machine (`Guarantees.StraysExactly`).
- Server.Server.Boot: building, starting and identifying the virtual machine is one outcome, and waiting for the agent another; process ids stand for all of FinishStart's fields.
- ExecStream.ClientsAgree: both clients share one decoder of events; where `JSON.parse` and Go's decoder differ on lines that the agent never emits (white space inside objects, surrogate escapes, other value kinds, fields of another type) is not modelled. Both also share one trimming of ASCII white space; on lines that begin or end with U+FEFF or U+0085, of which JavaScript trims only the first and Go only the second, the clients can differ.
- ExecStream.HandleExecStream: each read is valid text; how UTF-8 sequences are cut by reads and chunks is not modelled, and neither is how the scanner fills its buffer.
- Recovery.CrashThenReconcile: assumes that the rows can be listed and that the commands of the reconciliation succeed; with failing ones `Guarantees.EverythingAccounted` still holds.
- Server.Server.HandleSnapshot: pausing, writing the memory image and copying the disk are outcomes only, and the files under the snapshot directory are left out; in the state machine taking a snapshot is one step.
- Termination.OperationEnds: bounds commands, not time; that an operation gets its turn is not modelled.
- The context of a request is cancelled or not at each step that uses it; time-outs are not modelled apart.
- A firecracker process is its guest.
- SQL, the SQLite driver, migrations and row scanning: replaced by atomic operations on maps with the unique indexes as checks.
- HTTP, WebSocket and reverse-proxy plumbing, the shell, file endpoints, bearer authentication, CLI commands and configuration: no deep property.
- Addresses: `net.ParseIP` also accepts IPv4-mapped IPv6 spellings, which the pools do not use.
- The final mapping of a result to time-out and exit errors in the TypeScript client, and the sorting of sandbox lists.
